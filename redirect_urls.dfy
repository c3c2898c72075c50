/**
 * How the route resolver reads the target of a matching redirect on a
 * multi-site install. A target is `/site-<id>/<path>` for a page of site
 * `<id>`, or an absolute `http...` URL. A target on the requested site is
 * internal and loses its site prefix. A target on another site becomes an
 * absolute URL on that site's base URL. A target whose site id is not
 * numeric is refused.
 *
 * `ClassifyAsWritten` follows the string arithmetic of the source.
 * `Classify` is the corrected reading that the resolver uses. The lemmas
 * below show inputs on which the two differ.
 */
module RedirectUrls {
  import opened PhpValues
  import opened PhpStrings

  /** The redirect type reported in the response. */
  datatype Kind = Internal | ExternalSite | External

  /** The type and the rewritten URL, or the refusal of a target without a site id. */
  datatype Classified = Classified(kind: Kind, url: string) | MissingSiteId

  function KindName(k: Kind): string {
    match k
    case Internal => "internal"
    case ExternalSite => "external-site"
    case External => "external"
  }

  /** The prefix of a page of `site`: `'/site-' . $site`. */
  function SitePrefix(site: string): string {
    "/site-" + site
  }

  // ---------------------------------------------------------------------
  // As written

  /**
   * `substr($u, 1, strpos($u, '/', 1) - 1)`. When there is no second '/',
   * FALSE - 1 is -1, and the last character is dropped.
   */
  function FirstSegmentAsWritten(u: string): string {
    Substr(u, 1, Some(match FindFrom(u, '/', 1) case Some(p) => p - 1 case None => -1))
  }

  /**
   * The classification as the source writes it. The redirect is internal
   * when the text after the leading character equals `site-<site>`. Then
   * every occurrence of `/site-<site>` is removed, whenever the URL starts
   * with it. A URL starting with `http` is external. For an external-site
   * URL, the site id is read between the first '-' and the next '/', and
   * the rest from the second '/' on is appended to that site's base URL.
   */
  function ClassifyAsWritten(u: string, site: string, baseUrl: string -> string): Classified {
    var kind := if FirstSegmentAsWritten(u) == "site-" + site then Internal else ExternalSite;
    var url := if StartsWith(u, SitePrefix(site)) then StrReplace(u, SitePrefix(site), "") else u;
    var kind' := if StartsWith(url, "http") then External else kind;
    if kind' == ExternalSite then OtherSiteAsWritten(url, baseUrl) else Classified(kind', url)
  }

  /**
   * The rewriting of an external-site URL as written: the site id runs from
   * after the first '-' to the next '/' found from its second character on
   * (FALSE, for none, counts as 0), and the URL keeps its part from the
   * second '/' on.
   */
  function OtherSiteAsWritten(url: string, baseUrl: string -> string): Classified {
    var idFrom := Substr(url, StrposOrZero(url, '-', 1) + 1, None);
    var id := Substr(idFrom, 0, Some(StrposOrZero(idFrom, '/', 1)));
    if !IsNumeric(id) then MissingSiteId
    else Classified(External, baseUrl(id) + Substr(url, StrposOrZero(url, '/', 1), None))
  }

  // ---------------------------------------------------------------------
  // Corrected

  /** Where the first path segment of `u` ends: at the next '/' after the first character, or at the end. */
  function SegmentEnd(u: string): nat {
    match FindFrom(u, '/', 1)
    case Some(p) => p
    case None => |u|
  }

  /** The first path segment of `u`, without its leading '/'. */
  function FirstSegment(u: string): string {
    Substr(u, 1, Some(SegmentEnd(u) - 1))
  }

  /**
   * The corrected classification. A segment with no '/' after it runs to
   * the end of the URL. The own-site prefix is removed once, and only from
   * a URL whose first segment is exactly `site-<site>`. The root of the
   * requested site becomes "/".
   */
  function Classify(u: string, site: string, baseUrl: string -> string): Classified {
    if StartsWith(u, "http") then Classified(External, u)
    else if FirstSegment(u) == "site-" + site && |SitePrefix(site)| <= |u| then
      var rest := u[|SitePrefix(site)|..];
      Classified(Internal, if rest == "" then "/" else rest)
    else
      var idFrom := Substr(u, StrposOrZero(u, '-', 1) + 1, None);
      var id := Substr(idFrom, 0, Some(SegmentEnd(idFrom)));
      if !IsNumeric(id) then MissingSiteId
      else Classified(External, baseUrl(id) + Substr(u, SegmentEnd(u), None))
  }

  /** The first `c` at or after `from` is at `k`, when there is none before `k` and `k` holds one or is the end. */
  lemma FindFromAt(h: string, c: char, from: nat, k: nat)
    requires from <= k <= |h|
    requires forall j :: from <= j < k ==> h[j] != c
    requires k < |h| ==> h[k] == c
    ensures FindFrom(h, c, from) == if k == |h| then None else Some(k)
  {
  }

  /** A URL that starts with `http` is an external redirect, unchanged. */
  lemma ClassifyHttp(u: string, site: string, baseUrl: string -> string)
    requires StartsWith(u, "http")
    ensures Classify(u, site, baseUrl) == Classified(External, u)
  {
  }

  /** The page `/site-<site>` of the requested site, followed by "" or a path from '/', splits that way. */
  lemma SiteUrlSegment(id: string, rest: string)
    requires '/' !in id
    requires rest == [] || rest[0] == '/'
    ensures SegmentEnd(SitePrefix(id) + rest) == |SitePrefix(id)|
    ensures FirstSegment(SitePrefix(id) + rest) == "site-" + id
    ensures StrposOrZero(SitePrefix(id) + rest, '-', 1) == 5
  {
    var u := SitePrefix(id) + rest;
    assert forall j :: 0 <= j < |id| ==> u[6 + j] == id[j];
    assert u[..6] == "/site-";
    FindFromAt(u, '/', 1, |SitePrefix(id)|);
    FindFromAt(u, '-', 1, 5);
    assert u[1..|SitePrefix(id)|] == "site-" + id;
  }

  /** A page of the requested site is an internal redirect to the same path without the prefix. */
  lemma ClassifyOwnSite(site: string, rest: string, baseUrl: string -> string)
    requires '/' !in site
    requires rest == [] || rest[0] == '/'
    ensures Classify(SitePrefix(site) + rest, site, baseUrl) == Classified(Internal, if rest == "" then "/" else rest)
  {
    var u := SitePrefix(site) + rest;
    SiteUrlSegment(site, rest);
    assert u[0] == '/';
    assert !StartsWith(u, "http");
    assert u[|SitePrefix(site)|..] == rest;
  }

  /** The site id of `/site-<id><rest>` runs up to the '/' of `rest`, or to the end. */
  lemma SiteIdSegment(id: string, rest: string)
    requires '/' !in id && id != []
    requires rest == [] || rest[0] == '/'
    ensures SegmentEnd(id + rest) == |id| && Substr(id + rest, 0, Some(|id|)) == id
  {
    FindFromAt(id + rest, '/', 1, |id|);
    assert (id + rest)[..|id|] == id;
  }

  /** How the corrected reading takes `/site-<id><rest>` apart, on a site other than `id`. */
  lemma OtherSiteParts(site: string, id: string, rest: string)
    requires '/' !in id && id != site && id != []
    requires rest == [] || rest[0] == '/'
    ensures var u := SitePrefix(id) + rest;
      !StartsWith(u, "http") && FirstSegment(u) != "site-" + site &&
      Substr(u, StrposOrZero(u, '-', 1) + 1, None) == id + rest &&
      Substr(u, SegmentEnd(u), None) == rest
  {
    var u := SitePrefix(id) + rest;
    SiteUrlSegment(id, rest);
    assert u[0] == '/';
    assert "site-" + id != "site-" + site by {
      assert ("site-" + id)[5..] == id && ("site-" + site)[5..] == site;
    }
    assert u[6..] == id + rest;
    assert u[|SitePrefix(id)|..] == rest;
  }

  /**
   * A page of another site with a numeric id is an external redirect to the
   * same path on that site's base URL.
   */
  lemma ClassifyOtherSite(site: string, id: string, rest: string, baseUrl: string -> string)
    requires '/' !in id && id != site && IsNumeric(id)
    requires rest == [] || rest[0] == '/'
    ensures Classify(SitePrefix(id) + rest, site, baseUrl) == Classified(External, baseUrl(id) + rest)
  {
    assert id != [] by {
      assert Mantissa(SkipSign(SkipSpace(id))).Some?;
    }
    OtherSiteParts(site, id, rest);
    SiteIdSegment(id, rest);
  }

  // ---------------------------------------------------------------------
  // Where the two readings differ

  predicate AllDigits(s: string) {
    forall i :: 0 <= i < |s| ==> IsDigit(s[i])
  }

  /** `str_replace` leaves a text alone when the needle holds a '-' and the text none. */
  lemma {:induction false} StrReplaceUntouched(x: string, needle: string, rep: string)
    requires '-' in needle && '-' !in x
    ensures StrReplace(x, needle, rep) == x
    decreases |x|
  {
    if x != [] {
      assert !StartsWith(x, needle);
      assert '-' !in x[1..] by {
        assert forall j :: 0 <= j < |x[1..]| ==> x[1..][j] == x[j + 1];
      }
      StrReplaceUntouched(x[1..], needle, rep);
      assert x == [x[0]] + x[1..];
    }
  }

  /**
   * The root of the requested site, `/site-<site>`, has no second '/'. As
   * written, its first segment loses its last character, so the target is
   * not taken as internal. The prefix is then removed, no site id is left,
   * and the redirect is refused. The corrected reading makes it internal.
   */
  lemma OwnSiteRootRefused(site: string, baseUrl: string -> string)
    requires site != [] && '/' !in site
    ensures ClassifyAsWritten(SitePrefix(site), site, baseUrl) == MissingSiteId
    ensures Classify(SitePrefix(site), site, baseUrl) == Classified(Internal, "/")
  {
    var u := SitePrefix(site);
    assert forall j :: 0 <= j < |site| ==> u[6 + j] == site[j];
    FindFromAt(u, '/', 1, |u|);
    assert |FirstSegmentAsWritten(u)| == |u| - 2;
    assert StartsWith(u, u);
    assert StrReplace(u, u, "") == "" by {
      assert u[|u|..] == [];
    }
    assert Substr("", 1, None) == "";
    assert !IsNumeric("");
    ClassifyOwnSite(site, "", baseUrl);
    assert u + "" == u;
  }

  /**
   * The root `/site-<id>` of another site has no second '/' either. As
   * written, it is then not taken as internal, the site id read after the
   * '-' is empty, and the redirect is refused: on site 4, `/site-5` is
   * refused. The corrected reading sends it to the root of site `<id>`.
   */
  lemma OtherSiteRootRefused(site: string, id: string, baseUrl: string -> string)
    requires id != [] && AllDigits(id) && !StartsWith(SitePrefix(id), SitePrefix(site))
    ensures ClassifyAsWritten(SitePrefix(id), site, baseUrl) == MissingSiteId
    ensures Classify(SitePrefix(id), site, baseUrl) == Classified(External, baseUrl(id))
  {
    var u := SitePrefix(id);
    DigitsLackSeparators(id);
    assert forall j :: 0 <= j < |id| ==> u[6 + j] == id[j];
    FindFromAt(u, '/', 1, |u|);
    var front := u[..|u| - 1];
    assert "/" + FirstSegmentAsWritten(u) == front;
    assert FirstSegmentAsWritten(u) == "site-" + site ==> SitePrefix(site) == front;
    assert u[0] == '/';
    assert !StartsWith(u, "http");
    FindFromAt(u, '-', 1, 5);
    assert Substr(u, 6, None) == id;
    FindNone(id, '/', 1);
    assert Substr(id, 0, Some(0)) == "";
    assert !IsNumeric("");
    assert id != site by {
      assert StartsWith(u, u);
    }
    DigitsAreNumeric(id);
    ClassifyOtherSite(site, id, "", baseUrl);
    assert u + "" == u;
  }

  /** `str_replace` past a character that starts no occurrence. */
  lemma StrReplaceSkip(s: string, needle: string)
    requires needle != [] && s != [] && !StartsWith(s, needle)
    ensures StrReplace(s, needle, "") == [s[0]] + StrReplace(s[1..], needle, "")
  {
  }

  /** `str_replace` past an occurrence. */
  lemma StrReplaceCut(s: string, needle: string)
    requires needle != [] && StartsWith(s, needle)
    ensures StrReplace(s, needle, "") == StrReplace(s[|needle|..], needle, "")
  {
  }

  /** `str_replace` leaves `/b` alone: it is shorter than `/site-4`. */
  lemma TailKept()
    ensures StrReplace("/b", "/site-4", "") == "/b"
  {
    var b := "/b";
    StrReplaceSkip(b, "/site-4");
    StrReplaceSkip(b[1..], "/site-4");
    assert b[1..][1..] == [];
  }

  /** `str_replace` removes the second `/site-4` of `/site-4/a/site-4/b`. */
  lemma SecondPrefixRemoved()
    ensures StrReplace("/a/site-4/b", "/site-4", "") == "/a/b"
  {
    var n := "/site-4";
    var w := "/site-4/b";
    var v := "/a" + w;
    assert v == "/a/site-4/b";
    assert v[..|n|] != n by { assert v[1] != n[1]; }
    StrReplaceSkip(v, n);
    assert v[1..] == "a" + w && v[1..][1..] == w;
    assert v[1..][..|n|] != n by { assert v[1..][0] != n[0]; }
    StrReplaceSkip(v[1..], n);
    assert w[..|n|] == n && w[|n|..] == "/b";
    StrReplaceCut(w, n);
    TailKept();
  }

  /** `str_replace` removes both occurrences of `/site-4` from `/site-4/a/site-4/b`. */
  lemma BothPrefixesRemoved()
    ensures StrReplace("/site-4/a/site-4/b", "/site-4", "") == "/a/b"
  {
    var n := "/site-4";
    var u := "/site-4/a/site-4/b";
    assert u[..|n|] == n && u[|n|..] == "/a/site-4/b";
    StrReplaceCut(u, n);
    SecondPrefixRemoved();
  }

  /**
   * As written, every occurrence of the own-site prefix is removed, not only
   * the leading one: on site 4, `/site-4/a/site-4/b` becomes `/a/b`. The
   * corrected reading removes the leading prefix alone.
   */
  lemma RepeatedPrefixRemoved(baseUrl: string -> string)
    ensures ClassifyAsWritten("/site-4/a/site-4/b", "4", baseUrl) == Classified(Internal, "/a/b")
    ensures Classify("/site-4/a/site-4/b", "4", baseUrl) == Classified(Internal, "/a/site-4/b")
  {
    var u := "/site-4/a/site-4/b";
    assert u == SitePrefix("4") + "/a/site-4/b";
    ClassifyOwnSite("4", "/a/site-4/b", baseUrl);
    FindFromAt(u, '/', 1, 7);
    assert FirstSegmentAsWritten(u) == "site-4" by {
      assert u[1..7] == "site-4";
    }
    BothPrefixesRemoved();
    assert StartsWith(u, SitePrefix("4"));
    assert !StartsWith("/a/b", "http");
  }

  /** No `c` from `from` on: `strpos` finds nothing. */
  lemma FindNone(h: string, c: char, from: nat)
    requires from <= |h| && c !in h[from..]
    ensures FindFrom(h, c, from) == None
  {
    assert forall j :: from <= j < |h| ==> h[j] == h[from..][j - from];
  }

  /** No `c` in `a` from `from` on, and `b` starts with one: `strpos` finds the start of `b`. */
  lemma FindAtJoin(a: string, b: string, c: char, from: nat)
    requires from <= |a| && c !in a[from..] && b != [] && b[0] == c
    ensures FindFrom(a + b, c, from) == Some(|a|)
  {
    assert forall j :: from <= j < |a| ==> (a + b)[j] == a[from..][j - from];
    FindFromAt(a + b, c, from, |a|);
  }

  /** Digits hold neither separator. */
  lemma DigitsLackSeparators(t: string)
    requires AllDigits(t)
    ensures '/' !in t && '-' !in t
  {
  }

  /** A prefix holding a '-' is removed from the front of a text without one, and nothing else is. */
  lemma StripPrefix(prefix: string, x: string)
    requires '-' in prefix && '-' !in x
    ensures StrReplace(prefix + x, prefix, "") == x
  {
    var u := prefix + x;
    assert StartsWith(u, prefix) by { assert u[..|prefix|] == prefix; }
    assert u[|prefix|..] == x;
    StrReplaceUntouched(x, prefix, "");
  }

  /** As written, the first segment of `/site-<site><t>/<r>` is longer than `site-<site>`. */
  lemma SegmentPastSite(site: string, t: string, r: string)
    requires AllDigits(site) && t != [] && AllDigits(t)
    ensures FirstSegmentAsWritten(SitePrefix(site) + t + "/" + r) != "site-" + site
  {
    var prefix := SitePrefix(site);
    var u := prefix + t + "/" + r;
    DigitsLackSeparators(site);
    DigitsLackSeparators(t);
    assert (prefix + t)[1..] == "site-" + site + t;
    assert u == (prefix + t) + ("/" + r);
    FindAtJoin(prefix + t, "/" + r, '/', 1);
    assert |FirstSegmentAsWritten(u)| == |prefix| + |t| - 1;
  }
  /**
   * On site `<site>`, the page `/site-<site><t>/<r>` of site `<site><t>`
   * is not taken as internal, yet it starts with `/site-<site>`, which is
   * removed, leaving `<t>/<r>`.
   */
  lemma MisreadPrefix(site: string, t: string, r: string)
    requires AllDigits(site) && t != [] && AllDigits(t)
    requires '/' !in r && '-' !in r
    ensures var u := SitePrefix(site) + t + "/" + r;
            && FirstSegmentAsWritten(u) != "site-" + site
            && StartsWith(u, SitePrefix(site))
            && StrReplace(u, SitePrefix(site), "") == t + "/" + r
            && !StartsWith(t + "/" + r, "http")
  {
    var prefix := SitePrefix(site);
    var x := t + "/" + r;
    assert prefix + t + "/" + r == prefix + x;
    SegmentPastSite(site, t, r);
    assert '-' in prefix by { assert prefix[5] == '-'; }
    DigitsLackSeparators(t);
    StripPrefix(prefix, x);
    assert (prefix + x)[..|prefix|] == prefix;
    assert IsDigit(x[0]);
  }

  /** `<t>/<r>` holds no '-'. */
  lemma NoDashAfterFirst(t: string, r: string)
    requires t != [] && '-' !in t && '-' !in r
    ensures FindFrom(t + "/" + r, '-', 1) == None
  {
    var x := t + "/" + r;
    assert x[1..] == t[1..] + "/" + r;
    FindNone(x, '-', 1);
  }

  /** In `<t>/<r>`, the first '/' after the first character follows the digits. */
  lemma SlashAfterDigits(t: string, r: string)
    requires t != [] && '/' !in t
    ensures FindFrom(t + "/" + r, '/', 1) == Some(|t|)
  {
    assert '/' !in t[1..];
    assert t + "/" + r == t + ("/" + r);
    FindAtJoin(t, "/" + r, '/', 1);
  }

  /** No '/' after the second character: the site id read as written is empty, and the redirect refused. */
  lemma IdEmpty(x: string, b: string -> string)
    requires |x| >= 1
    requires FindFrom(x, '-', 1) == None
    requires FindFrom(x[1..], '/', 1) == None
    ensures OtherSiteAsWritten(x, b) == MissingSiteId
  {
    assert Substr(x, 1, None) == x[1..];
    assert Substr(x[1..], 0, Some(0)) == "";
    assert !IsNumeric("");
  }

  /** A '/' at `k` after the second character: the site id read as written is what lies between. */
  lemma IdShort(x: string, k: nat, p: nat, b: string -> string)
    requires 1 <= k < |x|
    requires FindFrom(x, '-', 1) == None
    requires FindFrom(x[1..], '/', 1) == Some(k)
    requires FindFrom(x, '/', 1) == Some(p)
    requires IsNumeric(x[1..k + 1])
    ensures OtherSiteAsWritten(x, b) == Classified(External, b(x[1..k + 1]) + x[p..])
  {
    assert Substr(x, 1, None) == x[1..];
    assert Substr(x[1..], 0, Some(k)) == x[1..k + 1];
    assert Substr(x, p, None) == x[p..];
  }

  /** As written, a one-digit site id followed by `/<r>` leaves no id to read. */
  lemma MisreadOneDigit(t: string, r: string, baseUrl: string -> string)
    requires |t| == 1 && '/' !in t && '-' !in t && '/' !in r && '-' !in r
    ensures OtherSiteAsWritten(t + "/" + r, baseUrl) == MissingSiteId
  {
    var x := t + "/" + r;
    NoDashAfterFirst(t, r);
    assert x[1..] == "/" + r;
    assert x[1..][1..] == r;
    FindNone(x[1..], '/', 1);
    IdEmpty(x, baseUrl);
  }

  /** As written, a longer site id followed by `/<r>` is read without its first character. */
  lemma MisreadLonger(t: string, r: string, baseUrl: string -> string)
    requires |t| >= 2 && '/' !in t && '-' !in t && '/' !in r && '-' !in r && IsNumeric(t[1..])
    ensures OtherSiteAsWritten(t + "/" + r, baseUrl) == Classified(External, baseUrl(t[1..]) + "/" + r)
  {
    var x := t + "/" + r;
    NoDashAfterFirst(t, r);
    SlashAfterDigits(t, r);
    assert x[1..] == t[1..] + "/" + r;
    assert '/' !in t[1..];
    SlashAfterDigits(t[1..], r);
    assert x[1..|t|] == t[1..];
    IdShort(x, |t| - 1, |t|, baseUrl);
    assert x[|t|..] == "/" + r;
  }

  /**
   * As written, the site id of `<t>/<r>` is read from its second character:
   * nothing is left of a one-digit `<t>`, and a longer one loses its first digit.
   */
  lemma MisreadSiteId(t: string, r: string, baseUrl: string -> string)
    requires t != [] && AllDigits(t)
    requires '/' !in r && '-' !in r
    ensures OtherSiteAsWritten(t + "/" + r, baseUrl)
            == if |t| == 1 then MissingSiteId else Classified(External, baseUrl(t[1..]) + "/" + r)
  {
    DigitsLackSeparators(t);
    if |t| == 1 {
      MisreadOneDigit(t, r, baseUrl);
    } else {
      assert AllDigits(t[1..]);
      DigitsAreNumeric(t[1..]);
      MisreadLonger(t, r, baseUrl);
    }
  }

  /**
   * On site `<site>`, a page of site `<site><t>` starts with `/site-<site>`.
   * As written, that prefix is removed from it, and the site id is then
   * read one character too late. With a one-digit `<t>` no id is left and
   * the redirect is refused: on site 4, `/site-44/foo` is refused. With a
   * longer `<t>` the redirect goes to the wrong site: on site 4,
   * `/site-456/foo` goes to `/foo` on site 6. With no site requested,
   * `<site>` is empty and every page of a site is read this way:
   * `/site-4/foo` is refused and `/site-45/foo` goes to site 5.
   */
  lemma OtherSitePrefixMisread(site: string, t: string, r: string, baseUrl: string -> string)
    requires AllDigits(site) && t != [] && AllDigits(t)
    requires '/' !in r && '-' !in r
    ensures ClassifyAsWritten(SitePrefix(site) + t + "/" + r, site, baseUrl)
            == if |t| == 1 then MissingSiteId else Classified(External, baseUrl(t[1..]) + "/" + r)
  {
    MisreadPrefix(site, t, r);
    MisreadSiteId(t, r, baseUrl);
  }

  /** Two runs of digits make a longer run of digits: a site id other than the first. */
  lemma DigitsJoin(site: string, t: string)
    requires AllDigits(site) && AllDigits(t) && t != []
    ensures AllDigits(site + t) && IsNumeric(site + t) && '/' !in site + t && site + t != site
  {
    assert forall j :: 0 <= j < |site + t| ==> (site + t)[j] == if j < |site| then site[j] else t[j - |site|];
    DigitsAreNumeric(site + t);
    DigitsLackSeparators(site + t);
    assert |site + t| > |site|;
  }

  lemma SitePrefixJoin(site: string, t: string, r: string)
    ensures SitePrefix(site) + t + "/" + r == SitePrefix(site + t) + ("/" + r)
  {
  }

  /** The corrected reading sends a page of site `<site><t>` to that site. */
  lemma OtherSitePrefixCorrected(site: string, t: string, r: string, baseUrl: string -> string)
    requires AllDigits(site) && t != [] && AllDigits(t)
    requires '/' !in r && '-' !in r
    ensures Classify(SitePrefix(site) + t + "/" + r, site, baseUrl)
            == Classified(External, baseUrl(site + t) + "/" + r)
  {
    DigitsJoin(site, t);
    SitePrefixJoin(site, t, r);
    ClassifyOtherSite(site, site + t, "/" + r, baseUrl);
  }
}
