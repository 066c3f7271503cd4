/**
 * The tag helpers of the two APIs (`tags_to_str` and `str_to_tags` in
 * backend/app/main.py and jobboard/backend/app/main.py, which hold the same
 * code): the list of tags of a request is stored as one comma-separated
 * column and read back as a list.
 */
module Serving {
  import opened Wrappers
  import opened Strings
  import opened Seqs
  import Normalize

  /** An entry of the request's list: skipped when `None`, else kept stripped if non-blank. */
  function CleanEntry(t: Option<string>): (r: Option<string>)
    ensures r.Some? <==> t.Some? && Strip(t.value) != ""
    ensures r.Some? ==> r.value == Strip(t.value)
  {
    if t.None? then None
    else
      var s := Strip(t.value);
      if s != "" then Some(s) else None
  }

  /** The stripped non-blank entries, in order. */
  function CleanedEntries(tags: seq<Option<string>>): seq<string> {
    FilterMap(tags, CleanEntry)
  }

  /** Every cleaned entry is stripped and non-empty. */
  lemma CleanedEntriesStripped(tags: seq<Option<string>>, k: nat)
    requires k < |CleanedEntries(tags)|
    ensures CleanedEntries(tags)[k] != "" && Trimmed(CleanedEntries(tags)[k])
  {
    var c := CleanedEntries(tags)[k];
    assert c in CleanedEntries(tags);
    var i := FilterMapSource(tags, CleanEntry, c);
  }

  /** What `tags_to_str` stores: `None` for no entry surviving, else the comma-join of the survivors. */
  function StoredTags(tags: Option<seq<Option<string>>>): Option<string> {
    if tags.None? || CleanedEntries(tags.value) == [] then None
    else Some(Join(CleanedEntries(tags.value), ","))
  }

  /** `tags_to_str(tags)`: the loop appending each stripped non-blank entry to `cleaned`. */
  method TagsToStr(tags: Option<seq<Option<string>>>) returns (r: Option<string>)
    ensures r == StoredTags(tags)
  {
    if tags.None? || tags.value == [] {
      return None;
    }
    var ts := tags.value;
    var cleaned: seq<string> := [];
    for k := 0 to |ts|
      invariant cleaned == FilterMap(ts[..k], CleanEntry)
    {
      FilterMapSnoc(ts, k, CleanEntry);
      if ts[k].Some? {
        var s := Strip(ts[k].value);
        if s != "" {
          cleaned := cleaned + [s];
        }
      }
    }
    WholePrefix(ts);
    if cleaned == [] {
      return None;
    }
    return Some(Join(cleaned, ","));
  }

  /** `t.strip()` kept when non-empty. */
  function StripNonEmpty(t: string): (r: Option<string>)
    ensures r.Some? <==> Strip(t) != ""
    ensures r.Some? ==> r.value == Strip(t)
  {
    if Strip(t) != "" then Some(Strip(t)) else None
  }

  /** `str_to_tags(s)`: `None` for a missing or empty column, else the stripped non-blank comma-separated parts. */
  function StrToTags(s: Option<string>): (r: Option<seq<string>>)
    ensures r.None? <==> !Truthy(s)
    ensures r.Some? ==> forall k :: 0 <= k < |r.value| ==> r.value[k] != "" && Trimmed(r.value[k])
  {
    if !Truthy(s) then None
    else
      var parts := FilterMap(Split(s.value, ','), StripNonEmpty);
      assert forall k :: 0 <= k < |parts| ==> parts[k] != "" && Trimmed(parts[k]) by {
        forall k | 0 <= k < |parts|
          ensures parts[k] != "" && Trimmed(parts[k])
        {
          assert parts[k] in parts;
          var i := FilterMapSource(Split(s.value, ','), StripNonEmpty, parts[k]);
        }
      }
      Some(parts)
  }

  /** A stripped non-empty string is kept as it is. */
  lemma StripNonEmptyKeeps(t: string)
    requires t != "" && Trimmed(t)
    ensures StripNonEmpty(t) == Some(t)
  {
    StripTrimmed(t);
  }

  /** Reading back stripped non-empty parts free of commas gives the same parts. */
  lemma ReadBack(parts: seq<string>)
    requires parts != []
    requires forall k :: 0 <= k < |parts| ==> parts[k] != "" && Trimmed(parts[k]) && ',' !in parts[k]
    ensures StrToTags(Some(Join(parts, ","))) == Some(parts)
  {
    SplitJoin(parts, ',');
    assert |Join(parts, ",")| >= |parts[0]| by { JoinHead(parts, ","); }
    forall x | x in parts
      ensures StripNonEmpty(x) == Some(x)
    {
      StripNonEmptyKeeps(x);
    }
    FilterMapSome(parts, StripNonEmpty);
  }

  lemma {:induction false} JoinHead(xs: seq<string>, sep: string)
    requires xs != []
    ensures |Join(xs, sep)| >= |xs[0]|
  {
  }

  /**
   * The round trip: for entries free of commas, reading back what
   * `tags_to_str` stores gives the stripped non-blank entries, or `None` when
   * there are none.
   */
  lemma TagsRoundTrip(tags: Option<seq<Option<string>>>)
    requires tags.Some? ==> forall k :: 0 <= k < |tags.value| && tags.value[k].Some? ==> ',' !in tags.value[k].value
    ensures tags.None? || CleanedEntries(tags.value) == [] ==> StrToTags(StoredTags(tags)).None?
    ensures tags.Some? && CleanedEntries(tags.value) != [] ==> StrToTags(StoredTags(tags)) == Some(CleanedEntries(tags.value))
  {
    if tags.Some? && CleanedEntries(tags.value) != [] {
      var cs := CleanedEntries(tags.value);
      forall k | 0 <= k < |cs|
        ensures cs[k] != "" && Trimmed(cs[k]) && ',' !in cs[k]
      {
        CleanedEntriesStripped(tags.value, k);
        assert cs[k] in cs;
        var i := FilterMapSource(tags.value, CleanEntry, cs[k]);
        var j := StripSlice(tags.value[i].value);
      }
      ReadBack(cs);
    }
  }

  /**
   * The ingestion stores `tags_to_db` of a job's tags; the API reads back
   * exactly the cleaned tags, or `None` when none survived cleaning (comma-free
   * tags).
   */
  lemma IngestedTagsReadBack(tags: seq<string>)
    requires forall k :: 0 <= k < |tags| ==> ',' !in tags[k]
    ensures Normalize.CleanedTags(tags) == [] ==> StrToTags(Some(Normalize.TagsToDb(tags))).None?
    ensures Normalize.CleanedTags(tags) != [] ==> StrToTags(Some(Normalize.TagsToDb(tags))) == Some(Normalize.CleanedTags(tags))
  {
    Normalize.TagsToDbSplits(tags);
    var cs := Normalize.CleanedTags(tags);
    if cs != [] {
      forall k | 0 <= k < |cs|
        ensures cs[k] != "" && Trimmed(cs[k]) && ',' !in cs[k]
      {
        assert cs[k] in cs;
        Normalize.CleanedTagsKeepOut(tags, ',');
        CleanedTagTrimmed(tags, k);
      }
      ReadBack(cs);
    }
  }

  /** Every cleaned tag is trimmed. */
  lemma {:induction false} CleanedTagTrimmed(tags: seq<string>, k: nat)
    requires k < |Normalize.CleanedTags(tags)|
    ensures Trimmed(Normalize.CleanedTags(tags)[k])
    decreases |tags|
  {
    assert tags != [];
    var c := Normalize.CleanWs(Some(tags[0]));
    var head := if c != "" then [c] else [];
    var rest := Normalize.CleanedTags(tags[1..]);
    assert Normalize.CleanedTags(tags) == head + rest;
    if k < |head| {
      assert Normalize.CleanedTags(tags)[k] == c;
      assert Trimmed(c);
    } else {
      CleanedTagTrimmed(tags[1..], k - |head|);
      assert Normalize.CleanedTags(tags)[k] == rest[k - |head|];
    }
  }
}
