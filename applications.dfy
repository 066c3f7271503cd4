/**
 * Tracked applications: `create_application` and `update_application`, whose
 * code is the same in backend/app/main.py and jobboard/backend/app/main.py.
 * Dates are seconds since the epoch; a `datetime` value is always truthy, so
 * "applied date set" is `Some`. The status is the `ApplicationStatus` literal
 * of jobboard/backend/app/schemas.py.
 */
module Applications {
  import opened Wrappers
  import opened Strings
  import opened Seqs

  /** `timedelta(days=7)` in seconds. */
  const Week: int := 7 * 24 * 60 * 60

  datatype Status = Saved | Applied | Interview | Offer | Rejected

  /** An HTTP error the endpoints raise. */
  datatype HttpError = HttpError(code: int, detail: string)

  /** The fields of an application the two endpoints write. */
  datatype AppState = AppState(
    status: Status,
    appliedDate: Option<int>,
    followupDate: Option<int>,
    applicationUrl: Option<string>,
    notes: Option<string>)

  /** The body of `POST /applications`; the status defaults to `SAVED`. */
  datatype AppCreate = AppCreate(
    jobId: int,
    profileId: int,
    status: Status,
    appliedDate: Option<int>,
    followupDate: Option<int>,
    applicationUrl: Option<string>,
    notes: Option<string>)

  /** The body of `PATCH /applications/{id}`: `None` means "not given". */
  datatype AppUpdate = AppUpdate(
    status: Option<Status>,
    appliedDate: Option<int>,
    followupDate: Option<int>,
    applicationUrl: Option<string>,
    notes: Option<string>)

  /**
   * The follow-up rule: an applied application with an applied date and no
   * follow-up is followed up seven days after applying; a follow-up that is
   * present is never replaced.
   */
  function FollowupDefault(status: Status, appliedDate: Option<int>, followupDate: Option<int>): (r: Option<int>)
    ensures followupDate.Some? ==> r == followupDate
    ensures followupDate.None? && status == Applied && appliedDate.Some? ==> r == Some(appliedDate.value + Week)
    ensures followupDate.None? && !(status == Applied && appliedDate.Some?) ==> r.None?
  {
    if status == Applied && appliedDate.Some? && followupDate.None? then Some(appliedDate.value + Week) else followupDate
  }

  /** No applied application with an applied date lacks a follow-up. */
  predicate Settled(s: AppState) {
    !(s.status == Applied && s.appliedDate.Some? && s.followupDate.None?)
  }

  /** The stored state of a new application. */
  function Created(p: AppCreate): AppState {
    AppState(p.status, p.appliedDate, FollowupDefault(p.status, p.appliedDate, p.followupDate), p.applicationUrl, p.notes)
  }

  /** The given value, or the current one when not given. */
  function Merge<T>(given: Option<T>, current: Option<T>): (r: Option<T>)
    ensures given.Some? ==> r == given
    ensures given.None? ==> r == current
  {
    if given.Some? then given else current
  }

  /** The state after a partial update: each given field overwrites, then the follow-up rule runs. */
  function Updated(a: AppState, p: AppUpdate): AppState {
    var status := if p.status.Some? then p.status.value else a.status;
    var applied := Merge(p.appliedDate, a.appliedDate);
    AppState(status, applied, FollowupDefault(status, applied, Merge(p.followupDate, a.followupDate)),
             Merge(p.applicationUrl, a.applicationUrl), Merge(p.notes, a.notes))
  }

  /** A new application is settled, and keeps the status, dates, link and notes it was given. */
  lemma CreatedSettled(p: AppCreate)
    ensures Settled(Created(p))
    ensures Created(p).status == p.status && Created(p).appliedDate == p.appliedDate
    ensures p.followupDate.Some? ==> Created(p).followupDate == p.followupDate
    ensures p.status == Applied && p.appliedDate.Some? && p.followupDate.None?
      ==> Created(p).followupDate == Some(p.appliedDate.value + Week)
  {
  }

  /** An update leaves every application settled. */
  lemma UpdatedSettled(a: AppState, p: AppUpdate)
    ensures Settled(Updated(a, p))
  {
  }

  /**
   * Fields absent from the payload keep their values; so does a follow-up
   * already present.
   */
  lemma UpdatedKeepsUnset(a: AppState, p: AppUpdate)
    ensures p.status.None? ==> Updated(a, p).status == a.status
    ensures p.appliedDate.None? ==> Updated(a, p).appliedDate == a.appliedDate
    ensures p.followupDate.None? && a.followupDate.Some? ==> Updated(a, p).followupDate == a.followupDate
    ensures p.applicationUrl.None? ==> Updated(a, p).applicationUrl == a.applicationUrl
    ensures p.notes.None? ==> Updated(a, p).notes == a.notes
  {
  }

  /** A partial update cannot clear a field: what is set stays set. */
  lemma UpdatedNeverClears(a: AppState, p: AppUpdate)
    ensures a.appliedDate.Some? ==> Updated(a, p).appliedDate.Some?
    ensures a.followupDate.Some? ==> Updated(a, p).followupDate.Some?
    ensures a.applicationUrl.Some? ==> Updated(a, p).applicationUrl.Some?
    ensures a.notes.Some? ==> Updated(a, p).notes.Some?
  {
  }

  /** Sending the same update twice is the same as sending it once. */
  lemma UpdatedIdempotent(a: AppState, p: AppUpdate)
    ensures Updated(Updated(a, p), p) == Updated(a, p)
  {
  }

  /** An empty update leaves a settled application as it is. */
  lemma EmptyUpdate(a: AppState)
    requires Settled(a)
    ensures Updated(a, AppUpdate(None, None, None, None, None)) == a
  {
  }

  /** A row of `applications`, updated in place by `update_application`. */
  class Application {
    const jobId: int
    const profileId: int
    var status: Status
    var appliedDate: Option<int>
    var followupDate: Option<int>
    var applicationUrl: Option<string>
    var notes: Option<string>

    function State(): AppState
      reads this
    {
      AppState(status, appliedDate, followupDate, applicationUrl, notes)
    }

    /** `create_application` once the checks passed: the follow-up default, then the new row. */
    constructor (p: AppCreate)
      ensures jobId == p.jobId && profileId == p.profileId
      ensures State() == Created(p) && Settled(State())
    {
      var followup := p.followupDate;
      if p.status == Applied && p.appliedDate.Some? && followup.None? {
        followup := Some(p.appliedDate.value + Week);
      }
      jobId := p.jobId;
      profileId := p.profileId;
      status := p.status;
      appliedDate := p.appliedDate;
      followupDate := followup;
      applicationUrl := p.applicationUrl;
      notes := p.notes;
    }

    /** `update_application` on the found row: each given field, then the follow-up rule. */
    method Update(p: AppUpdate)
      modifies this
      ensures State() == Updated(old(State()), p) && Settled(State())
    {
      if p.status.Some? {
        status := p.status.value;
      }
      if p.appliedDate.Some? {
        appliedDate := p.appliedDate;
      }
      if p.followupDate.Some? {
        followupDate := p.followupDate;
      }
      if p.applicationUrl.Some? {
        applicationUrl := p.applicationUrl;
      }
      if p.notes.Some? {
        notes := p.notes;
      }
      if status == Applied && appliedDate.Some? && followupDate.None? {
        followupDate := Some(appliedDate.value + Week);
      }
    }
  }

  /** The checks of `create_application`, in order: the job, the profile, then the (job, profile) pair. */
  function CreateCheck(jobs: set<int>, profiles: set<int>, tracked: set<(int, int)>, p: AppCreate): (r: Option<HttpError>)
    ensures r.None? <==> p.jobId in jobs && p.profileId in profiles && (p.jobId, p.profileId) !in tracked
    ensures p.jobId !in jobs ==> r == Some(HttpError(404, "Job not found"))
    ensures p.jobId in jobs && p.profileId !in profiles ==> r == Some(HttpError(404, "Profile not found"))
    ensures p.jobId in jobs && p.profileId in profiles && (p.jobId, p.profileId) in tracked ==>
      r == Some(HttpError(409, "Already tracked for this profile"))
  {
    if p.jobId !in jobs then Some(HttpError(404, "Job not found"))
    else if p.profileId !in profiles then Some(HttpError(404, "Profile not found"))
    else if (p.jobId, p.profileId) in tracked then Some(HttpError(409, "Already tracked for this profile"))
    else None
  }

  /** Creating only what passes the checks keeps at most one application per job and profile. */
  lemma CreateKeepsPairsUnique(jobs: set<int>, profiles: set<int>, tracked: set<(int, int)>, apps: seq<(int, int)>, p: AppCreate)
    requires forall i, j :: 0 <= i < j < |apps| ==> apps[i] != apps[j]
    requires forall k :: 0 <= k < |apps| ==> apps[k] in tracked
    requires CreateCheck(jobs, profiles, tracked, p).None?
    ensures var apps' := apps + [(p.jobId, p.profileId)];
      forall i, j :: 0 <= i < j < |apps'| ==> apps'[i] != apps'[j]
  {
    var apps' := apps + [(p.jobId, p.profileId)];
    forall i, j | 0 <= i < j < |apps'|
      ensures apps'[i] != apps'[j]
    {
      if j == |apps| {
        assert apps'[i] == apps[i] && apps[i] in tracked;
      }
    }
  }

  /** `update_application`: the 404 for an unknown id, else the row updated in place. */
  method UpdateApplication(table: map<int, Application>, appId: int, p: AppUpdate) returns (r: Result<Application, HttpError>)
    modifies if appId in table then {table[appId]} else {}
    ensures appId !in table ==> r == Err(HttpError(404, "Application not found"))
    ensures appId in table ==> r == Ok(table[appId]) && table[appId].State() == Updated(old(table[appId].State()), p)
  {
    if appId !in table {
      return Err(HttpError(404, "Application not found"));
    }
    var a := table[appId];
    a.Update(p);
    return Ok(a);
  }

  /** The status as the `status` column stores it. */
  function StatusName(s: Status): (r: string)
    ensures r in {"SAVED", "APPLIED", "INTERVIEW", "OFFER", "REJECTED"}
  {
    match s
    case Saved => "SAVED"
    case Applied => "APPLIED"
    case Interview => "INTERVIEW"
    case Offer => "OFFER"
    case Rejected => "REJECTED"
  }

  /** A row of `applications` as `list_applications` reads it. */
  datatype AppRow = AppRow(id: int, jobId: int, profileId: int, state: AppState)

  /** A follow-up is due at `now` when it is set and not later than `now`. */
  predicate Due(a: AppRow, now: int) {
    a.state.followupDate.Some? && a.state.followupDate.value <= now
  }

  /**
   * The filters of `list_applications`: each applies only when its parameter
   * is truthy, so an empty status string and a profile id of 0 filter nothing.
   */
  predicate AppKeeps(a: AppRow, status: Option<string>, profileId: Option<int>, dueFollowup: Option<bool>, now: int) {
    && (!Truthy(status) || StatusName(a.state.status) == status.value)
    && (profileId.None? || profileId.value == 0 || a.profileId == profileId.value)
    && (dueFollowup != Some(true) || Due(a, now))
  }

  /** `list_applications`: the rows every given filter keeps, in the order read. */
  function ListApplications(apps: seq<AppRow>, status: Option<string>, profileId: Option<int>, dueFollowup: Option<bool>, now: int): (r: seq<AppRow>)
    ensures forall a :: a in r <==>
      && a in apps
      && (!Truthy(status) || StatusName(a.state.status) == status.value)
      && (profileId.None? || profileId.value == 0 || a.profileId == profileId.value)
      && (dueFollowup != Some(true) || Due(a, now))
  {
    Filter(apps, (a: AppRow) => AppKeeps(a, status, profileId, dueFollowup, now))
  }

  /** Without filters (or with falsy ones) every application is listed. */
  lemma ListApplicationsUnfiltered(apps: seq<AppRow>, status: Option<string>, profileId: Option<int>, dueFollowup: Option<bool>, now: int)
    requires !Truthy(status) && (profileId.None? || profileId.value == 0) && dueFollowup != Some(true)
    ensures ListApplications(apps, status, profileId, dueFollowup, now) == apps
  {
    FilterAll(apps, (a: AppRow) => AppKeeps(a, status, profileId, dueFollowup, now));
  }

  /** A non-empty status string that names no status lists nothing. */
  lemma UnknownStatusListsNothing(apps: seq<AppRow>, status: string, profileId: Option<int>, dueFollowup: Option<bool>, now: int)
    requires status != "" && status !in {"SAVED", "APPLIED", "INTERVIEW", "OFFER", "REJECTED"}
    ensures ListApplications(apps, Some(status), profileId, dueFollowup, now) == []
  {
    FilterNone(apps, (a: AppRow) => AppKeeps(a, Some(status), profileId, dueFollowup, now));
  }

  /** An application created as applied, with an applied date and no follow-up, is due seven days after applying. */
  lemma CreatedAppliedDue(p: AppCreate, id: int, now: int)
    requires p.status == Applied && p.appliedDate.Some? && p.followupDate.None?
    ensures Due(AppRow(id, p.jobId, p.profileId, Created(p)), now) <==> p.appliedDate.value + Week <= now
  {
  }
}
