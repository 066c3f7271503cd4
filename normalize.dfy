/**
 * backend/app/ingest/normalize.py: white-space cleaning, the lower-casing
 * origin-domain rule, location normalisation, the fingerprint of a job and
 * the serialisation of tags for the database, plus the normalised job record.
 *
 * SHA-1 is not modelled: the fingerprint takes the hash function as a
 * parameter and every property is stated about its pre-image.
 */
module Normalize {
  import opened Wrappers
  import opened Strings
  import opened Urls

  // ------------------------------------------------------------ clean_ws

  /** `re.sub(r"\s+", " ", s)`: every maximal run of white space becomes one space. */
  function CollapseWs(s: string): (r: string)
    ensures r == [] <==> s == []
    ensures s != [] ==> (IsSpace(r[0]) <==> IsSpace(s[0]))
    ensures forall k :: 0 <= k < |r| && IsSpace(r[k]) ==> r[k] == ' '
    ensures forall k :: 0 <= k < |r| - 1 ==> !(IsSpace(r[k]) && IsSpace(r[k + 1]))
    decreases |s|
  {
    if s == [] then []
    else if IsSpace(s[0]) then " " + CollapseWs(LStrip(s))
    else [s[0]] + CollapseWs(s[1..])
  }

  /** Text as clean_ws leaves it: trimmed, single plain spaces between words. */
  predicate WsNormal(t: string) {
    && Trimmed(t)
    && (forall k :: 0 <= k < |t| && IsSpace(t[k]) ==> t[k] == ' ')
    && (forall k :: 0 <= k < |t| - 1 ==> !(IsSpace(t[k]) && IsSpace(t[k + 1])))
  }

  /** `clean_ws(s)`: `""` for `None` or `""`, else runs of white space collapsed and the ends stripped. */
  function CleanWs(s: Option<string>): string {
    if !Truthy(s) then "" else Strip(CollapseWs(s.value))
  }

  /**
   * clean_ws leaves no white space at either end, no two white-space
   * characters side by side and no white space other than the plain space;
   * an absent or empty input gives `""`.
   */
  lemma CleanWsNormal(s: Option<string>)
    ensures WsNormal(CleanWs(s))
    ensures !Truthy(s) ==> CleanWs(s) == ""
  {
    if Truthy(s) {
      StripKeepsSpacing(CollapseWs(s.value));
    }
  }

  /** Stripping keeps single plain spaces single and plain. */
  lemma StripKeepsSpacing(t: string)
    requires forall k :: 0 <= k < |t| && IsSpace(t[k]) ==> t[k] == ' '
    requires forall k :: 0 <= k < |t| - 1 ==> !(IsSpace(t[k]) && IsSpace(t[k + 1]))
    ensures WsNormal(Strip(t))
  {
    var i := StripSlice(t);
    var r := Strip(t);
    assert forall k :: 0 <= k < |r| ==> r[k] == t[i + k];
  }

  lemma {:induction false} CollapseWsNormal(t: string)
    requires forall k :: 0 <= k < |t| && IsSpace(t[k]) ==> t[k] == ' '
    requires forall k :: 0 <= k < |t| - 1 ==> !(IsSpace(t[k]) && IsSpace(t[k + 1]))
    ensures CollapseWs(t) == t
    decreases |t|
  {
    if t != [] {
      var u := t[1..];
      assert forall k :: 0 <= k < |u| ==> u[k] == t[k + 1];
      CollapseWsNormal(u);
      assert t == [t[0]] + u;
      if IsSpace(t[0]) {
        assert t[0] == ' ';
        assert u == [] || !IsSpace(u[0]);
        assert LStrip(u) == u;
        assert LStrip(t) == u;
        assert CollapseWs(t) == " " + u;
      } else {
        assert CollapseWs(t) == [t[0]] + u;
      }
    }
  }

  /** Cleaning twice is cleaning once. */
  lemma CleanWsIdempotent(s: Option<string>)
    ensures CleanWs(Some(CleanWs(s))) == CleanWs(s)
  {
    var r := CleanWs(s);
    CleanWsNormal(s);
    if r != "" {
      CollapseWsNormal(r);
      StripTrimmed(r);
    }
  }

  /** Text with no white space at all is left as it is. */
  lemma {:induction false} CleanWsNoSpace(s: string)
    requires forall k :: 0 <= k < |s| ==> !IsSpace(s[k])
    ensures CleanWs(Some(s)) == s
  {
    if s != "" {
      CollapseWsNormal(s);
      StripTrimmed(s);
    }
  }

  lemma {:induction false} CollapseWsKeepsOut(s: string, c: char)
    requires c !in s && !IsSpace(c)
    ensures c !in CollapseWs(s)
    decreases |s|
  {
    if s != [] {
      if IsSpace(s[0]) {
        var i := |s| - |LStrip(s)|;
        assert LStrip(s) == s[i..];
        CollapseWsKeepsOut(LStrip(s), c);
      } else {
        CollapseWsKeepsOut(s[1..], c);
      }
    }
  }

  /** Cleaning introduces no character other than the plain space. */
  lemma CleanWsKeepsOut(s: Option<string>, c: char)
    requires s.Some? ==> c !in s.value
    requires !IsSpace(c)
    ensures c !in CleanWs(s)
  {
    if Truthy(s) {
      var t := CollapseWs(s.value);
      CollapseWsKeepsOut(s.value, c);
      var i := StripSlice(t);
    }
  }

  // -------------------------------------------------------- origin_domain

  /**
   * `origin_domain(url)` (also `_origin_domain` of the Greenhouse and Lever
   * adapters): the authority, lower-cased, with every `www.` removed in one
   * left-to-right pass; `None` for an absent or empty URL, an authority that
   * urlsplit rejects, or an empty result.
   */
  function OriginDomain(url: Option<string>): (r: Option<string>)
    ensures !Truthy(url) ==> r.None?
    ensures r.Some? ==> r.value != "" && IsLower(r.value)
  {
    if !Truthy(url) then None
    else match Netloc(url.value)
      case None => None
      case Some(n) =>
        var h := ReplaceAll(Lower(n), "www.", "");
        LowerIsLower(n);
        ReplaceAllKeepsLower(Lower(n), "www.", "");
        if h == "" then None else Some(h)
  }

  /** A host with no `www.` in it comes back lower-cased and otherwise unchanged. */
  lemma OriginDomainPlainHost(url: string, n: string)
    requires url != "" && Netloc(url) == Some(n) && n != ""
    requires !Contains(Lower(n), "www.")
    ensures OriginDomain(Some(url)) == Some(Lower(n))
  {
    ReplaceAllAbsent(Lower(n), "www.", "");
  }

  /** A leading `www.` is removed. */
  lemma OriginDomainLeadingWww(url: string, n: string, h: string)
    requires url != "" && Netloc(url) == Some(n)
    requires Lower(n) == "www." + h && h != "" && !Contains(h, "www.")
    ensures OriginDomain(Some(url)) == Some(h)
  {
    var l := Lower(n);
    assert IsPrefix("www.", l);
    assert l[4..] == h;
    ReplaceAllMatch(l, "www.", "");
    ReplaceAllAbsent(h, "www.", "");
    assert ReplaceAll(l, "www.", "") == h;
  }

  lemma ReplaceAllMatch(s: string, pat: string, rep: string)
    requires pat != [] && IsPrefix(pat, s)
    ensures ReplaceAll(s, pat, rep) == rep + ReplaceAll(s[|pat|..], pat, rep)
  {
  }

  lemma ReplaceAllSkip(s: string, pat: string, rep: string)
    requires pat != [] && s != [] && !IsPrefix(pat, s)
    ensures ReplaceAll(s, pat, rep) == [s[0]] + ReplaceAll(s[1..], pat, rep)
  {
  }

  /**
   * One pass of `str.replace` does not remove every `www.`: in `wwwww.w.` the
   * only match is at index 2, and the text around it joins into a new `www.`.
   */
  lemma WwwCanSurvive()
    ensures ReplaceAll("wwwww.w.", "www.", "") == "www."
  {
    assert "wwwww.w."[..4][3] != "www."[3];
    ReplaceAllSkip("wwwww.w.", "www.", "");
    assert "wwwww.w."[1..] == "wwww.w." && "wwww.w."[..4][3] != "www."[3];
    ReplaceAllSkip("wwww.w.", "www.", "");
    assert "wwww.w."[1..] == "www.w." && "www.w."[..4] == "www.";
    ReplaceAllMatch("www.w.", "www.", "");
    assert "www.w."[4..] == "w.";
    ReplaceAllSkip("w.", "www.", "");
    ReplaceAllSkip(".", "www.", "");
  }

  /** Hence `https://wwwww.w./` has origin domain `www.`. */
  lemma OriginDomainKeepsSomeWww()
    ensures OriginDomain(Some("https://wwwww.w./")) == Some("www.")
  {
    var h := "wwwww.w.";
    assert forall k :: 0 <= k < |h| ==> h[k] == 'w' || h[k] == '.';
    NetlocOfDottedHost(h);
    var url := "https://" + h + "/";
    OriginDomainOfWwwww(url);
    assert url == "https://wwwww.w./";
  }

  lemma OriginDomainOfWwwww(url: string)
    requires url != "" && Netloc(url) == Some("wwwww.w.")
    ensures OriginDomain(Some(url)) == Some("www.")
  {
    var h := "wwwww.w.";
    assert Lower(h) == h by { LowerOfLower(h); }
    WwwCanSurvive();
  }

  /** The authority of `https://` + a host of `w`s and dots + `/` is that host. */
  lemma NetlocOfDottedHost(h: string)
    requires forall k :: 0 <= k < |h| ==> h[k] == 'w' || h[k] == '.'
    ensures Netloc("https://" + h + "/") == Some(h)
  {
    assert PlainHost(h);
    NetlocOfHttps(h, "/");
  }

  // ---------------------------------------------------- normalize_location

  /**
   * `normalize_location(loc)`: cleaned, lower-cased, then `united states` and
   * afterwards `usa` replaced by `us`.
   */
  function NormalizeLocation(loc: Option<string>): string {
    ReplaceAll(ReplaceAll(Lower(CleanWs(loc)), "united states", "us"), "usa", "us")
  }

  /** The normalised location holds no upper-case letter. */
  lemma NormalizeLocationIsLower(loc: Option<string>)
    ensures IsLower(NormalizeLocation(loc))
  {
    var l := Lower(CleanWs(loc));
    LowerIsLower(CleanWs(loc));
    ReplaceAllKeepsLower(l, "united states", "us");
    ReplaceAllKeepsLower(ReplaceAll(l, "united states", "us"), "usa", "us");
  }

  lemma NormalizeLocationNone()
    ensures NormalizeLocation(None) == ""
  {
  }

  /** A location that cleans and lower-cases to `united states` becomes `us`. */
  lemma NormalizeLocationUnitedStates(loc: Option<string>)
    requires Lower(CleanWs(loc)) == "united states"
    ensures NormalizeLocation(loc) == "us"
  {
    var l := "united states";
    ReplaceAllMatch(l, "united states", "us");
    assert l[13..] == "";
    assert ReplaceAll(l[13..], "united states", "us") == "";
    ReplaceAllSkip("us", "usa", "us");
    assert "us"[1..] == "s";
    ReplaceAllSkip("s", "usa", "us");
    assert "s"[1..] == "" && ReplaceAll("", "usa", "us") == "";
    assert ReplaceAll(Lower(CleanWs(loc)), "united states", "us") == "us";
    assert ReplaceAll("us", "usa", "us") == "us";
  }

  /** A location that cleans and lower-cases to `usa` becomes `us`. */
  lemma NormalizeLocationUsa(loc: Option<string>)
    requires Lower(CleanWs(loc)) == "usa"
    ensures NormalizeLocation(loc) == "us"
  {
    var l := "usa";
    ReplaceAllSkip(l, "united states", "us");
    ReplaceAllSkip(l[1..], "united states", "us");
    ReplaceAllSkip(l[2..], "united states", "us");
    assert ReplaceAll(l, "united states", "us") == l;
    ReplaceAllMatch(l, "usa", "us");
    assert l[3..] == "";
  }

  /** `"United States"` is stored as `us`. */
  lemma NormalizeLocationOfUnitedStates(s: string)
    requires s == "United States"
    ensures NormalizeLocation(Some(s)) == "us"
  {
    CleanUnitedStates(s);
    NormalizeLocationUnitedStates(Some(s));
  }

  /** `"USA"` is stored as `us`. */
  lemma NormalizeLocationOfUsa(s: string)
    requires s == "USA"
    ensures NormalizeLocation(Some(s)) == "us"
  {
    CleanUsa(s);
    NormalizeLocationUsa(Some(s));
  }

  lemma CleanUnitedStates(s: string)
    requires s == "United States"
    ensures Lower(CleanWs(Some(s))) == "united states"
  {
    CleanUnitedStatesIsClean(s);
    LowerUnitedStates(s);
  }

  lemma CleanUnitedStatesIsClean(s: string)
    requires s == "United States"
    ensures CleanWs(Some(s)) == s
  {
    var a, b := "United", "States";
    assert s == a + " " + b;
    assert forall k :: 0 <= k < |a| ==> 'A' <= a[k] <= 'z';
    assert forall k :: 0 <= k < |b| ==> 'A' <= b[k] <= 'z';
    CleanWsSingleSpace(a, b);
  }

  lemma LowerUnitedStates(s: string)
    requires s == "United States"
    ensures Lower(s) == "united states"
  {
  }

  lemma CleanUsa(s: string)
    requires s == "USA"
    ensures Lower(CleanWs(Some(s))) == "usa"
  {
    CleanUsaIsClean(s);
    LowerUsa(s);
  }

  lemma CleanUsaIsClean(s: string)
    requires s == "USA"
    ensures CleanWs(Some(s)) == s
  {
    CleanWsNoSpace(s);
  }

  lemma LowerUsa(s: string)
    requires s == "USA"
    ensures Lower(s) == "usa"
  {
  }

  lemma CleanWsSingleSpace(a: string, b: string)
    requires a != "" && b != ""
    requires forall k :: 0 <= k < |a| ==> !IsSpace(a[k])
    requires forall k :: 0 <= k < |b| ==> !IsSpace(b[k])
    ensures CleanWs(Some(a + " " + b)) == a + " " + b
  {
    var t := a + " " + b;
    assert WsNormal(t) by {
      forall k | 0 <= k < |t|
        ensures IsSpace(t[k]) <==> k == |a|
        ensures k == |a| ==> t[k] == ' '
      {
        if k < |a| {
          assert t[k] == a[k];
        } else if k > |a| {
          assert t[k] == b[k - |a| - 1];
        }
      }
    }
    CleanWsNormalFixed(t);
  }

  /** Clean text is its own `clean_ws`. */
  lemma CleanWsNormalFixed(s: string)
    requires WsNormal(s)
    ensures CleanWs(Some(s)) == s
  {
    if s != "" {
      CollapseWsNormal(s);
      StripTrimmed(s);
    }
  }

  // ---------------------------------------------------------- fingerprint

  /** The four normalised identity fields of a job. */
  function IdentityFields(title: string, company: string, location: string, origin: Option<string>): seq<string> {
    [Lower(title), Lower(company), NormalizeLocation(Some(location)), Lower(OrElse(origin, ""))]
  }

  /** The string `fingerprint` hashes: the identity fields joined by `|`. */
  function Preimage(title: string, company: string, location: string, origin: Option<string>): string {
    Lower(title) + "|" + Lower(company) + "|" + NormalizeLocation(Some(location)) + "|" + Lower(OrElse(origin, ""))
  }

  /** `fingerprint(...)`: the hash (SHA-1 hex digest in the source) of the pre-image. */
  function Fingerprint(hash: string -> string, title: string, company: string, location: string, origin: Option<string>): string {
    hash(Preimage(title, company, location, origin))
  }

  /** The pre-image is the `|`-join of the identity fields. */
  lemma PreimageIsJoin(title: string, company: string, location: string, origin: Option<string>)
    ensures Preimage(title, company, location, origin) == Join(IdentityFields(title, company, location, origin), "|")
  {
    var f := IdentityFields(title, company, location, origin);
    JoinFour(f[0], f[1], f[2], f[3], "|");
    assert f == [f[0], f[1], f[2], f[3]];
  }

  lemma JoinFour(a: string, b: string, c: string, d: string, sep: string)
    ensures Join([a, b, c, d], sep) == a + sep + b + sep + c + sep + d
  {
    assert [a, b, c, d][1..] == [b, c, d];
    assert [b, c, d][1..] == [c, d];
    assert [c, d][1..] == [d];
    assert Join([c, d], sep) == c + sep + d;
  }

  lemma LowerKeepsOut(s: string, c: char)
    requires c !in s && !IsUpperChar(c) && !('a' <= c <= 'z')
    ensures c !in Lower(s)
  {
  }

  lemma {:induction false} ReplaceAllKeepsOut(s: string, pat: string, rep: string, c: char)
    requires pat != [] && c !in s && c !in rep
    ensures c !in ReplaceAll(s, pat, rep)
    decreases |s|
  {
    if IsPrefix(pat, s) {
      ReplaceAllKeepsOut(s[|pat|..], pat, rep, c);
    } else if s != [] {
      ReplaceAllKeepsOut(s[1..], pat, rep, c);
    }
  }

  lemma NormalizeLocationKeepsOut(location: string, c: char)
    requires c !in location && !IsSpace(c) && !IsUpperChar(c) && !('a' <= c <= 'z')
    requires c !in "us"
    ensures c !in NormalizeLocation(Some(location))
  {
    CleanWsKeepsOut(Some(location), c);
    LowerKeepsOut(CleanWs(Some(location)), c);
    var l := Lower(CleanWs(Some(location)));
    ReplaceAllKeepsOut(l, "united states", "us", c);
    ReplaceAllKeepsOut(ReplaceAll(l, "united states", "us"), "usa", "us", c);
  }

  /**
   * Two jobs whose identity fields contain no `|` have the same pre-image
   * exactly when their normalised identity fields agree: title, company and
   * origin up to letter case, location up to `normalize_location`.
   */
  lemma PreimageInjective(t1: string, c1: string, l1: string, o1: Option<string>,
                          t2: string, c2: string, l2: string, o2: Option<string>)
    requires '|' !in t1 && '|' !in c1 && '|' !in l1 && '|' !in OrElse(o1, "")
    requires '|' !in t2 && '|' !in c2 && '|' !in l2 && '|' !in OrElse(o2, "")
    ensures Preimage(t1, c1, l1, o1) == Preimage(t2, c2, l2, o2)
        <==> IdentityFields(t1, c1, l1, o1) == IdentityFields(t2, c2, l2, o2)
  {
    PreimageIsJoin(t1, c1, l1, o1);
    PreimageIsJoin(t2, c2, l2, o2);
    IdentityFieldsKeepOut(t1, c1, l1, o1);
    IdentityFieldsKeepOut(t2, c2, l2, o2);
    JoinInjective(IdentityFields(t1, c1, l1, o1), IdentityFields(t2, c2, l2, o2), '|');
  }

  /** No identity field holds a `|` when the raw fields do not. */
  lemma IdentityFieldsKeepOut(t: string, c: string, l: string, o: Option<string>)
    requires '|' !in t && '|' !in c && '|' !in l && '|' !in OrElse(o, "")
    ensures FreeOf(IdentityFields(t, c, l, o), '|')
  {
    LowerKeepsOut(t, '|');
    LowerKeepsOut(c, '|');
    LowerKeepsOut(OrElse(o, ""), '|');
    NormalizeLocationKeepsOut(l, '|');
    FreeOfFour(Lower(t), Lower(c), NormalizeLocation(Some(l)), Lower(OrElse(o, "")), '|');
  }

  /** Equal pre-images give equal fingerprints, whatever the hash. */
  lemma FingerprintCaseInsensitive(hash: string -> string, title: string, company: string, location: string, origin: string)
    ensures Fingerprint(hash, title, company, location, Some(origin))
         == Fingerprint(hash, Lower(title), Lower(company), location, Some(Lower(origin)))
  {
    assert Lower(Lower(title)) == Lower(title);
    assert Lower(Lower(company)) == Lower(company);
    assert Lower(OrElse(Some(Lower(origin)), "")) == Lower(OrElse(Some(origin), ""));
  }

  // ------------------------------------------------------------- tags_to_db

  /** The `clean_ws` of every tag whose cleaned form is non-empty, in order. */
  function CleanedTags(tags: seq<string>): (r: seq<string>)
    ensures |r| <= |tags|
    ensures forall k :: 0 <= k < |r| ==> r[k] != ""
  {
    if tags == [] then []
    else
      var c := CleanWs(Some(tags[0]));
      (if c != "" then [c] else []) + CleanedTags(tags[1..])
  }

  /** `tags_to_db(tags)`: the cleaned non-empty tags joined by commas. */
  function TagsToDb(tags: seq<string>): string {
    Join(CleanedTags(tags), ",")
  }

  lemma {:induction false} CleanedTagsKeepOut(tags: seq<string>, c: char)
    requires !IsSpace(c)
    requires forall k :: 0 <= k < |tags| ==> c !in tags[k]
    ensures forall k :: 0 <= k < |CleanedTags(tags)| ==> c !in CleanedTags(tags)[k]
  {
    if tags != [] {
      CleanWsKeepsOut(Some(tags[0]), c);
      CleanedTagsKeepOut(tags[1..], c);
    }
  }

  /**
   * For comma-free tags the stored string splits back into exactly the
   * cleaned tags, so no comma-separated segment is empty; the string is `""`
   * exactly when no tag survives cleaning.
   */
  lemma TagsToDbSplits(tags: seq<string>)
    requires forall k :: 0 <= k < |tags| ==> ',' !in tags[k]
    ensures TagsToDb(tags) == "" <==> CleanedTags(tags) == []
    ensures CleanedTags(tags) != [] ==> Split(TagsToDb(tags), ',') == CleanedTags(tags)
    ensures CleanedTags(tags) != [] ==> forall k :: 0 <= k < |Split(TagsToDb(tags), ',')| ==> Split(TagsToDb(tags), ',')[k] != ""
  {
    var cs := CleanedTags(tags);
    CleanedTagsKeepOut(tags, ',');
    if cs != [] {
      SplitJoin(cs, ',');
      if |cs| > 1 {
        assert |TagsToDb(tags)| >= |cs[0]| + 1;
      }
    }
  }

  /** A tag that holds a comma does leave empty segments: `[","]` is stored as `","`. */
  lemma TagsToDbCommaTag(t: string)
    requires t == ","
    ensures TagsToDb([t]) == t && Split(t, ',') == ["", ""]
  {
    CleanWsNoSpace(t);
    assert CleanedTags([t]) == [t];
  }

  // -------------------------------------------------------------- JobNorm

  /** The normalised job record built by the jobboard adapters. */
  datatype JobNorm = JobNorm(
    source: string,
    sourceJobId: Option<string>,
    title: string,
    company: string,
    location: string,
    remote: bool,
    contract: bool,
    postedAt: Option<int>,
    applyUrl: string,
    originDomain: Option<string>,
    snippet: string,
    tags: seq<string>)
  {
    /** `JobNorm.fp()`. */
    function Fp(hash: string -> string): string {
      Fingerprint(hash, title, company, location, originDomain)
    }
  }

  /** The fingerprint depends on title, company, location and origin domain only. */
  lemma FpIdentityOnly(hash: string -> string, a: JobNorm, b: JobNorm)
    requires a.title == b.title && a.company == b.company
    requires a.location == b.location && a.originDomain == b.originDomain
    ensures a.Fp(hash) == b.Fp(hash)
  {
  }
}
