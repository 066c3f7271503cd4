/**
 * The `jobs` table row (jobboard/backend/app/models.py, class `Job`). Nullable
 * columns are `Option`s; timestamps are integers.
 */
module Rows {
  import opened Wrappers

  /** A row of `jobs`; `None` is NULL in a nullable column. */
  datatype JobRow = JobRow(
    id: nat,
    title: string,
    company: string,
    location: Option<string>,
    remote: bool,
    contract: bool,
    tags: Option<string>,
    url: Option<string>,
    sourceJobId: Option<string>,
    postedAt: Option<int>,
    applyUrl: Option<string>,
    originDomain: Option<string>,
    description: Option<string>,
    descriptionSnippet: Option<string>,
    source: Option<string>,
    fingerprint: Option<string>,
    createdAt: int)
}
