/**
 * `ProxyServer.rewriteHtmlUrls`: three text passes over an HTML body. The regular
 * expressions of the source are written out as scanners that decide, at one position, whether
 * the expression matches there and how far; a global `replace` is a left-to-right scan that
 * replaces each match and resumes after it.
 *
 * `new URL(path, baseUrl).href` is the abstract function `resolve`, and `baseUrl.origin` the
 * string `origin`.
 */
module Rewrite {
  import opened Wrappers
  import opened Text

  const ProxyBase := "http://localhost:8001"
  /** What every rewritten value is prefixed with: `${proxyBase}/`. */
  const ProxyPrefix := ProxyBase + "/"

  predicate IsQuote(c: char) {
    c == '"' || c == '\''
  }

  /** ASCII lower case; the `i` flag of a non-Unicode regular expression folds only these letters onto ASCII. */
  function Lower(c: char): char {
    if 'A' <= c <= 'Z' then (c as int + 32) as char else c
  }

  /** `s` starts with `p` (written in lower case) when case is ignored. */
  predicate StartsWithIgnoringCase(s: string, p: string) {
    |p| <= |s| && forall i :: 0 <= i < |p| ==> Lower(s[i]) == p[i]
  }

  /** Length of `(href|src|action)` matched at the start of `s`, ignoring case. */
  function AttributeName(s: string): Option<nat> {
    if StartsWithIgnoringCase(s, "href") then Some(4)
    else if StartsWithIgnoringCase(s, "src") then Some(3)
    else if StartsWithIgnoringCase(s, "action") then Some(6)
    else None
  }

  /** `(href|src|action)=["']` at the start of `s`: the index just after the opening quote. */
  function AttributeOpen(s: string): (r: Option<nat>)
    ensures r.Some? ==> 5 <= r.value <= |s| && r.value <= 8
    ensures r.Some? ==> IsQuote(s[r.value - 1]) && s[r.value - 2] == '='
    ensures r.Some? ==> forall i :: 0 <= i < r.value - 1 ==> !IsQuote(s[i]) && s[i] != '/'
  {
    match AttributeName(s)
    case None => None
    case Some(n) => if n + 1 < |s| && s[n] == '=' && IsQuote(s[n + 1]) then Some(n + 2) else None
  }

  /** The end of the run of non-quote characters starting at `i` (`[^"']*` taken greedily). */
  function QuoteFree(s: string, i: nat): (j: nat)
    requires i <= |s|
    ensures i <= j <= |s|
    ensures forall k :: i <= k < j ==> !IsQuote(s[k])
    ensures j < |s| ==> IsQuote(s[j])
    decreases |s| - i
  {
    if i == |s| || IsQuote(s[i]) then i else QuoteFree(s, i + 1)
  }

  /** `https?:\/\/` at index `i` of `s`, with or without the `i` flag: the index after it. */
  function SchemeEnd(s: string, i: nat, ignoreCase: bool): (r: Option<nat>)
    requires i <= |s|
    ensures r.Some? ==> (r.value == i + 7 || r.value == i + 8) && r.value <= |s|
  {
    var t := s[i..];
    if (if ignoreCase then StartsWithIgnoringCase(t, "https://") else StartsWith(t, "https://")) then Some(i + 8)
    else if (if ignoreCase then StartsWithIgnoringCase(t, "http://") else StartsWith(t, "http://")) then Some(i + 7)
    else None
  }

  // ------------------------------------------------------------- pass 1: absolute URLs

  /** `/(href|src|action)=["']https?:\/\/[^"']+["']/gi` at the start of `s`: the length of the match. */
  function AbsoluteMatch(s: string): (r: Option<nat>)
    ensures r.Some? ==> 0 < r.value <= |s|
  {
    match AttributeOpen(s)
    case None => None
    case Some(k) =>
      match SchemeEnd(s, k, true)
      case None => None
      case Some(v) =>
        var j := QuoteFree(s, v);
        if v < j < |s| then Some(j + 1) else None
  }

  /** `/["'](https?:\/\/[^"']+)["']/` (no `i` flag) at index `i` of `m`: the bounds of the group. */
  function AbsoluteCaptureAt(m: string, i: nat): Option<(nat, nat)>
    requires i < |m|
  {
    if IsQuote(m[i]) then
      match SchemeEnd(m, i + 1, false)
      case None => None
      case Some(v) =>
        var j := QuoteFree(m, v);
        if v < j < |m| then Some((i + 1, j)) else None
    else None
  }

  /** The group of the first match at or after `i` (`match.match(...)?.[1]`). */
  function AbsoluteCapture(m: string, i: nat): (r: Option<string>)
    decreases |m| - i
  {
    if i >= |m| then None
    else match AbsoluteCaptureAt(m, i)
      case Some(b) => if b.0 <= b.1 <= |m| then Some(m[b.0..b.1]) else None
      case None => AbsoluteCapture(m, i + 1)
  }

  /** The replacer of pass 1, applied to one match `m`. */
  function RewriteAbsolute(m: string): string {
    match AbsoluteCapture(m, 0)
    case Some(url) => if url != [] then ReplaceFirst(m, url, ProxyPrefix + url) else m
    case None => m
  }

  /** Pass 1: every match is handed to `RewriteAbsolute`; the scan resumes after it. */
  function ReplaceAbsolute(s: string): (r: string)
    ensures |r| >= |s|
    ensures (forall i :: 0 <= i < |s| ==> AbsoluteMatch(s[i..]).None?) ==> r == s
    decreases |s|
  {
    if s == [] then []
    else match AbsoluteMatch(s)
      case Some(n) =>
        // each replacement only inserts the proxy prefix
        AbsoluteMatchAlone(s, n);
        RewriteAbsoluteShape(s[..n]);
        assert s[0..] == s;
        RewriteAbsolute(s[..n]) + ReplaceAbsolute(s[n..])
      case None =>
        assert (forall i :: 0 <= i < |s| ==> AbsoluteMatch(s[i..]).None?) ==>
               (forall i :: 0 <= i < |s[1..]| ==> AbsoluteMatch(s[1..][i..]).None?) by {
          forall i | 0 <= i < |s[1..]| ensures s[1..][i..] == s[i + 1..] { }
        }
        [s[0]] + ReplaceAbsolute(s[1..])
  }

  // ------------------------------------------------------------- pass 2: root-relative URLs

  /** `/(href|src|action)=["']\/[^"']*["']/gi` at the start of `s`: the length of the match. */
  function RelativeMatch(s: string): (r: Option<nat>)
    ensures r.Some? ==> 0 < r.value <= |s|
  {
    match AttributeOpen(s)
    case None => None
    case Some(k) =>
      if k < |s| && s[k] == '/' then
        var j := QuoteFree(s, k + 1);
        if j < |s| then Some(j + 1) else None
      else None
  }

  /**
   * `/["'](\/?[^"']+)["']/` at index `i` of `m`: the bounds of the group. The optional slash is
   * tried first; when the rest is then empty the engine backtracks and lets `[^"']+` take it.
   */
  function PathCaptureAt(m: string, i: nat): Option<(nat, nat)>
    requires i < |m|
  {
    if IsQuote(m[i]) then
      if i + 1 < |m| && m[i + 1] == '/' && i + 2 < QuoteFree(m, i + 2) < |m| then
        Some((i + 1, QuoteFree(m, i + 2)))
      else if i + 1 < QuoteFree(m, i + 1) < |m| then
        Some((i + 1, QuoteFree(m, i + 1)))
      else None
    else None
  }

  function PathCapture(m: string, i: nat): (r: Option<string>)
    decreases |m| - i
  {
    if i >= |m| then None
    else match PathCaptureAt(m, i)
      case Some(b) => if b.0 <= b.1 <= |m| then Some(m[b.0..b.1]) else None
      case None => PathCapture(m, i + 1)
  }

  /** The replacer of pass 2: a root-relative path, but not a `//` one, is resolved and prefixed. */
  function RewriteRelative(m: string, resolve: string -> string): string {
    match PathCapture(m, 0)
    case Some(path) =>
      if path != [] && !StartsWith(path, "//") then ReplaceFirst(m, path, ProxyPrefix + resolve(path)) else m
    case None => m
  }

  /** Pass 2. */
  function ReplaceRelative(s: string, resolve: string -> string): (r: string)
    ensures (forall i :: 0 <= i < |s| ==> RelativeMatch(s[i..]).None?) ==> r == s
    decreases |s|
  {
    if s == [] then []
    else match RelativeMatch(s)
      case Some(n) =>
        assert s[0..] == s;
        RewriteRelative(s[..n], resolve) + ReplaceRelative(s[n..], resolve)
      case None =>
        assert (forall i :: 0 <= i < |s| ==> RelativeMatch(s[i..]).None?) ==>
               (forall i :: 0 <= i < |s[1..]| ==> RelativeMatch(s[1..][i..]).None?) by {
          forall i | 0 <= i < |s[1..]| ensures s[1..][i..] == s[i + 1..] { }
        }
        [s[0]] + ReplaceRelative(s[1..], resolve)
  }

  // ------------------------------------------------------------- pass 3: the base tag

  function BaseTag(origin: string): string {
    "<base href=\"" + ProxyPrefix + origin + "/\">"
  }

  /**
   * Pass 3 inserts the tag once: right after the first literal `<head>`; only when there is
   * none, right after the first `<HEAD>`; and not at all when neither occurs.
   */
  function InsertBaseTag(s: string, tag: string): (r: string)
    ensures IndexOf(s, "<head>").Some? ==>
              var k := IndexOf(s, "<head>").value; r == s[..k + 6] + tag + s[k + 6..]
    ensures IndexOf(s, "<head>").None? && IndexOf(s, "<HEAD>").Some? ==>
              var k := IndexOf(s, "<HEAD>").value; r == s[..k + 6] + tag + s[k + 6..]
    ensures IndexOf(s, "<head>").None? && IndexOf(s, "<HEAD>").None? ==> r == s
    ensures |r| == if IndexOf(s, "<head>").None? && IndexOf(s, "<HEAD>").None? then |s| else |s| + |tag|
  {
    if Contains(s, "<head>") then ReplaceFirst(s, "<head>", "<head>" + tag)
    else if Contains(s, "<HEAD>") then ReplaceFirst(s, "<HEAD>", "<HEAD>" + tag)
    else s
  }

  /**
   * `rewriteHtmlUrls(html, baseUrl)`: the two attribute passes, then the base tag. A page in
   * which neither pass matches anywhere only receives the tag.
   */
  function RewriteHtmlUrls(html: string, origin: string, resolve: string -> string): (r: string)
    ensures (forall i :: 0 <= i < |html| ==> AbsoluteMatch(html[i..]).None?)
            && (forall i :: 0 <= i < |html| ==> RelativeMatch(html[i..]).None?)
            ==> r == InsertBaseTag(html, BaseTag(origin))
  {
    InsertBaseTag(ReplaceRelative(ReplaceAbsolute(html), resolve), BaseTag(origin))
  }

  // ------------------------------------------------------------- properties

  /** Removing the proxy prefix from a value, the inverse of what the passes add. */
  function StripProxyPrefix(v: string): string {
    if StartsWith(v, ProxyPrefix) then v[|ProxyPrefix|..] else v
  }

  /** A value the case-sensitive inner expression accepts as absolute. */
  predicate LowerCaseScheme(v: string) {
    StartsWith(v, "http://") || StartsWith(v, "https://")
  }

  /** The attribute name is the only text before the opening quote, and it contains no "ht". */
  lemma NoHtBeforeValue(m: string, k: nat, j: nat)
    requires AttributeOpen(m) == Some(k)
    requires j < k && j + 1 < |m|
    ensures !(Lower(m[j]) == 'h' && Lower(m[j + 1]) == 't')
  {
    var n := AttributeName(m).value;
    assert n == k - 2;
    if j + 1 < n {
      if StartsWithIgnoringCase(m, "href") {
        assert Lower(m[j + 1]) == "href"[j + 1];
      } else if StartsWithIgnoringCase(m, "src") {
        assert Lower(m[j]) == "src"[j];
      } else {
        assert Lower(m[j]) == "action"[j];
      }
    }
  }

  /** Whether a prefix ignoring case holds depends only on the first |p| characters. */
  lemma SameStartIgnoringCase(s: string, t: string, p: string)
    requires |p| <= |s| && |p| <= |t| && s[..|p|] == t[..|p|]
    ensures StartsWithIgnoringCase(s, p) == StartsWithIgnoringCase(t, p)
  {
    assert forall i :: 0 <= i < |p| ==> s[i] == s[..|p|][i] == t[..|p|][i] == t[i];
  }

  /** The opening of an attribute is decided by the text up to its quote. */
  lemma AttributeOpenAgree(s: string, t: string, k: nat)
    requires AttributeOpen(s) == Some(k)
    requires k <= |t| && t[..k] == s[..k]
    ensures AttributeOpen(t) == Some(k)
  {
    assert s[..4] == s[..k][..4] == t[..k][..4] == t[..4];
    SameStartIgnoringCase(s, t, "href");
    if !StartsWithIgnoringCase(s, "href") {
      assert s[..3] == s[..k][..3] == t[..k][..3] == t[..3];
      SameStartIgnoringCase(s, t, "src");
      if !StartsWithIgnoringCase(s, "src") {
        assert k == 8;
        assert s[..6] == s[..k][..6] == t[..k][..6] == t[..6];
        SameStartIgnoringCase(s, t, "action");
      }
    }
    assert t[k - 2] == t[..k][k - 2] && t[k - 1] == t[..k][k - 1];
  }

  /** A match, cut out of the text it was found in, is a match of its own length. */
  lemma AbsoluteMatchAlone(s: string, n: nat)
    requires AbsoluteMatch(s) == Some(n)
    ensures AbsoluteMatch(s[..n]) == Some(n)
    ensures AttributeOpen(s[..n]) == AttributeOpen(s)
  {
    var m, k := s[..n], AttributeOpen(s).value;
    var e := SchemeEnd(s, k, true).value;
    AttributeOpenAgree(s, m, k);
    assert m[k..k + 8] == s[k..k + 8];
    SchemeEndAgree(s, m, k);
    QuoteFreeSameRun(s, m, e, n - 1);
  }

  /** The scheme test ignoring case is decided by the eight characters at `k`. */
  lemma SchemeEndAgree(s: string, t: string, k: nat)
    requires k + 8 <= |s| && k + 8 <= |t| && s[k..k + 8] == t[k..k + 8]
    ensures SchemeEnd(s, k, true) == SchemeEnd(t, k, true)
  {
    assert s[k..][..8] == s[k..k + 8] && t[k..][..8] == t[k..k + 8];
    assert s[k..][..7] == s[k..k + 8][..7] && t[k..][..7] == t[k..k + 8][..7];
    SameStartIgnoringCase(s[k..], t[k..], "https://");
    SameStartIgnoringCase(s[k..], t[k..], "http://");
  }

  /** The characters of a pass-1 match: an attribute opening up to index `k`, then a quote-free value and a quote. */
  ghost predicate AbsoluteShape(m: string, k: nat) {
    && 5 <= k && k + 8 < |m| && IsQuote(m[k - 1]) && IsQuote(m[|m| - 1])
    && (forall i :: 0 <= i < k - 1 ==> !IsQuote(m[i]))
    && (forall i :: k <= i < |m| - 1 ==> !IsQuote(m[i]))
    && Lower(m[k]) == 'h' && Lower(m[k + 1]) == 't'
  }

  lemma AbsoluteMatchFacts(m: string)
    requires AbsoluteMatch(m) == Some(|m|)
    ensures AbsoluteShape(m, AttributeOpen(m).value)
  {
    var k := AttributeOpen(m).value;
    var e := SchemeEnd(m, k, true).value;
    var p := if e == k + 8 then "https://" else "http://";
    assert StartsWithIgnoringCase(m[k..], p);
    forall i | k <= i < e
      ensures !IsQuote(m[i])
    {
      assert Lower(m[k..][i - k]) == p[i - k];
    }
    assert Lower(m[k..][0]) == 'h' && Lower(m[k..][1]) == 't';
  }

  /** The case-sensitive scheme test at the value succeeds exactly for a lower-case scheme. */
  lemma SchemeOfValue(m: string, k: nat)
    requires AbsoluteShape(m, k)
    ensures SchemeEnd(m, k, false).Some? <==> LowerCaseScheme(m[k..|m| - 1])
  {
    var v, t := m[k..|m| - 1], m[k..];
    assert t[..8] == v[..8] && t[..7] == v[..7];
  }

  /** In a match, the case-sensitive scheme, when there is one, ends where the ignoring-case one does. */
  lemma SchemeEndsAlike(m: string, k: nat, e: nat)
    requires AbsoluteMatch(m) == Some(|m|) && AttributeOpen(m) == Some(k)
    requires SchemeEnd(m, k, false) == Some(e)
    ensures e < |m| - 1
  {
    var t := m[k..];
    var e' := SchemeEnd(m, k, true).value;
    if e' == k + 8 {
      assert Lower(t[4]) == 's';
      assert t[4] != ':';
      assert e == k + 8;
    } else {
      assert !StartsWithIgnoringCase(t, "https://");
      assert !StartsWith(t, "https://");
    }
  }

  /** With a lower-case scheme the inner expression captures exactly the value. */
  lemma AbsoluteCaptureLower(m: string, k: nat, e: nat)
    requires AbsoluteShape(m, k)
    requires SchemeEnd(m, k, false) == Some(e) && e < |m| - 1
    ensures AbsoluteCapture(m, 0) == Some(m[k..|m| - 1])
  {
    QuoteFreeTo(m, e, |m| - 1);
    assert AbsoluteCaptureAt(m, k - 1) == Some((k, |m| - 1));
    assert forall i :: 0 <= i < k - 1 ==> AbsoluteCaptureAt(m, i).None?;
    CaptureFrom(m, k - 1);
  }

  /** Otherwise the inner expression finds nothing in the match. */
  lemma AbsoluteCaptureOther(m: string, k: nat)
    requires AbsoluteShape(m, k)
    requires SchemeEnd(m, k, false).None?
    ensures AbsoluteCapture(m, 0).None?
  {
    assert forall i :: 0 <= i < k - 1 ==> AbsoluteCaptureAt(m, i).None?;
    assert AbsoluteCaptureAt(m, k - 1).None?;
    assert forall i :: k <= i < |m| - 1 ==> AbsoluteCaptureAt(m, i).None?;
    assert AbsoluteCaptureAt(m, |m| - 1).None? by {
      assert m[|m|..] == [];
    }
    NoCaptureFrom(m, 0);
  }

  /** Replacing the first occurrence of the value, found at `k`, prefixes it in place. */
  lemma ReplaceValue(m: string, k: nat, w: string)
    requires k < |m| && IndexOf(m, m[k..|m| - 1]) == Some(k)
    ensures ReplaceFirst(m, m[k..|m| - 1], w) == m[..k] + w + [m[|m| - 1]]
  {
    assert m[|m| - 1..] == [m[|m| - 1]];
  }

  /** A run of non-quotes that ends in a quote is what `QuoteFree` finds. */
  lemma {:induction false} QuoteFreeTo(m: string, i: nat, j: nat)
    requires i <= j < |m| && IsQuote(m[j])
    requires forall x :: i <= x < j ==> !IsQuote(m[x])
    ensures QuoteFree(m, i) == j
    decreases j - i
  {
    if i < j {
      QuoteFreeTo(m, i + 1, j);
    }
  }

  /** The value is the first occurrence of itself in the match. */
  lemma AbsoluteValueFirst(m: string, k: nat)
    requires AttributeOpen(m) == Some(k) && AbsoluteShape(m, k)
    ensures IndexOf(m, m[k..|m| - 1]) == Some(k)
  {
    var v := m[k..|m| - 1];
    assert Lower(v[0]) == 'h' && Lower(v[1]) == 't';
    forall j | 0 <= j < k
      ensures !OccursAt(m, v, j)
    {
      NoHtBeforeValue(m, k, j);
      assert j + |v| <= |m| ==> m[j] == m[j..j + |v|][0] && m[j + 1] == m[j..j + |v|][1];
    }
    IndexOfIsFirst(m, v, k);
  }

  lemma RewriteAbsoluteLower(m: string, k: nat)
    requires AbsoluteMatch(m) == Some(|m|) && AttributeOpen(m) == Some(k)
    requires LowerCaseScheme(m[k..|m| - 1])
    ensures RewriteAbsolute(m) == m[..k] + (ProxyPrefix + m[k..|m| - 1]) + [m[|m| - 1]]
  {
    AbsoluteMatchFacts(m);
    SchemeOfValue(m, k);
    var e := SchemeEnd(m, k, false).value;
    SchemeEndsAlike(m, k, e);
    AbsoluteCaptureLower(m, k, e);
    AbsoluteValueFirst(m, k);
    ReplaceValue(m, k, ProxyPrefix + m[k..|m| - 1]);
  }

  lemma RewriteAbsoluteOther(m: string, k: nat)
    requires AbsoluteMatch(m) == Some(|m|) && AttributeOpen(m) == Some(k)
    requires !LowerCaseScheme(m[k..|m| - 1])
    ensures RewriteAbsolute(m) == m
  {
    AbsoluteMatchFacts(m);
    SchemeOfValue(m, k);
    AbsoluteCaptureOther(m, k);
  }

  /** The prefix the passes add is removed again by `StripProxyPrefix`. */
  lemma StripPrefixed(v: string)
    ensures StripProxyPrefix(ProxyPrefix + v) == v
  {
    assert (ProxyPrefix + v)[..|ProxyPrefix|] == ProxyPrefix;
  }

  /**
   * Pass 1 on one match: when the value's scheme is written in lower case, the value is
   * prefixed with the proxy origin, and stripping that prefix gives it back; otherwise (an
   * upper-case `HTTP://`, say) the case-sensitive inner expression fails and the match is kept.
   */
  lemma RewriteAbsoluteShape(m: string)
    requires AbsoluteMatch(m) == Some(|m|)
    ensures var k := AttributeOpen(m).value;
      var v, r := m[k..|m| - 1], RewriteAbsolute(m);
      && v != [] && (forall i :: 0 <= i < |v| ==> !IsQuote(v[i])) && IsQuote(m[|m| - 1])
      && (LowerCaseScheme(v) ==> r == m[..k] + (ProxyPrefix + v) + [m[|m| - 1]])
      && (LowerCaseScheme(v) ==> StripProxyPrefix(r[k..|r| - 1]) == v)
      && (!LowerCaseScheme(v) ==> r == m)
  {
    var k := AttributeOpen(m).value;
    var v := m[k..|m| - 1];
    ValueOfMatch(m);
    if LowerCaseScheme(v) {
      RewriteAbsoluteLower(m, k);
      StripRewritten(m[..k], v, m[|m| - 1], RewriteAbsolute(m));
    } else {
      RewriteAbsoluteOther(m, k);
    }
  }

  /** The value of a pass-1 match is non-empty, holds no quote, and a quote closes it. */
  lemma ValueOfMatch(m: string)
    requires AbsoluteMatch(m) == Some(|m|)
    ensures var k := AttributeOpen(m).value;
      var v := m[k..|m| - 1];
      v != [] && (forall i :: 0 <= i < |v| ==> !IsQuote(v[i])) && IsQuote(m[|m| - 1])
  {
    AbsoluteMatchFacts(m);
  }

  /** The value between the opening and the closing quote of a rewritten attribute, with the prefix stripped. */
  lemma StripRewritten(open: string, v: string, close: char, r: string)
    requires r == open + (ProxyPrefix + v) + [close]
    ensures StripProxyPrefix(r[|open|..|r| - 1]) == v
  {
    assert r[|open|..|r| - 1] == ProxyPrefix + v;
    StripPrefixed(v);
  }

  /** Runs of non-quotes end at the same quote in two strings that agree up to it. */
  lemma {:induction false} QuoteFreeSameRun(s: string, m: string, i: nat, j: nat)
    requires i <= j < |m| <= |s|
    requires QuoteFree(s, i) == j
    requires forall x :: 0 <= x <= j ==> m[x] == s[x]
    ensures QuoteFree(m, i) == j
    decreases j - i
  {
    if i < j {
      QuoteFreeSameRun(s, m, i + 1, j);
    }
  }

  /** The search finds the first matching position when none comes earlier. */
  lemma {:induction false} CaptureFrom(m: string, k: nat)
    requires k < |m| && AbsoluteCaptureAt(m, k).Some?
    requires forall i :: 0 <= i < k ==> AbsoluteCaptureAt(m, i).None?
    ensures forall i :: 0 <= i <= k ==> AbsoluteCapture(m, i) == AbsoluteCapture(m, k)
    decreases k
  {
    forall i | 0 <= i <= k
      ensures AbsoluteCapture(m, i) == AbsoluteCapture(m, k)
    {
      CaptureFromStep(m, i, k);
    }
  }

  lemma {:induction false} CaptureFromStep(m: string, i: nat, k: nat)
    requires i <= k < |m|
    requires forall x :: 0 <= x < k ==> AbsoluteCaptureAt(m, x).None?
    ensures AbsoluteCapture(m, i) == AbsoluteCapture(m, k)
    decreases k - i
  {
    if i < k {
      CaptureFromStep(m, i + 1, k);
    }
  }

  lemma {:induction false} NoCaptureFrom(m: string, i: nat)
    requires forall x :: i <= x < |m| ==> AbsoluteCaptureAt(m, x).None?
    ensures AbsoluteCapture(m, i).None?
    decreases |m| - i
  {
    if i < |m| {
      NoCaptureFrom(m, i + 1);
    }
  }

  // ------------------------------------------------------------- pass 2 on one match

  /** The characters of a pass-2 match: an attribute opening up to `k`, then `/`, a quote-free rest and a quote. */
  ghost predicate RelativeShape(m: string, k: nat) {
    && 5 <= k && k < |m| - 1 && m[k] == '/' && IsQuote(m[k - 1]) && IsQuote(m[|m| - 1])
    && (forall i :: 0 <= i < k - 1 ==> !IsQuote(m[i]) && m[i] != '/')
    && (forall i :: k <= i < |m| - 1 ==> !IsQuote(m[i]))
  }

  lemma RelativeMatchFacts(m: string)
    requires RelativeMatch(m) == Some(|m|)
    ensures RelativeShape(m, AttributeOpen(m).value)
  {
  }

  lemma RelativeMatchAlone(s: string, n: nat)
    requires RelativeMatch(s) == Some(n)
    ensures RelativeMatch(s[..n]) == Some(n)
    ensures AttributeOpen(s[..n]) == AttributeOpen(s)
  {
    var m, k := s[..n], AttributeOpen(s).value;
    AttributeOpenAgree(s, m, k);
    QuoteFreeSameRun(s, m, k + 1, n - 1);
  }

  lemma {:induction false} PathCaptureFrom(m: string, i: nat, k: nat)
    requires i <= k < |m|
    requires forall x :: 0 <= x < k ==> PathCaptureAt(m, x).None?
    ensures PathCapture(m, i) == PathCapture(m, k)
    decreases k - i
  {
    if i < k {
      PathCaptureFrom(m, i + 1, k);
    }
  }

  /** The inner expression of pass 2 captures the whole value, slash included, whichever branch of `\/?` succeeds. */
  lemma PathCaptureValue(m: string, k: nat)
    requires RelativeShape(m, k)
    ensures PathCapture(m, 0) == Some(m[k..|m| - 1])
  {
    QuoteFreeTo(m, k, |m| - 1);
    QuoteFreeTo(m, k + 1, |m| - 1);
    assert PathCaptureAt(m, k - 1) == Some((k, |m| - 1));
    PathCaptureFrom(m, 0, k - 1);
  }

  /** The value is the first occurrence of itself: no slash comes before it. */
  lemma RelativeValueFirst(m: string, k: nat)
    requires RelativeShape(m, k)
    ensures IndexOf(m, m[k..|m| - 1]) == Some(k)
  {
    var v := m[k..|m| - 1];
    assert v[0] == '/';
    forall j | 0 <= j < k
      ensures !OccursAt(m, v, j)
    {
      assert j + |v| <= |m| ==> m[j] == m[j..j + |v|][0];
    }
    IndexOfIsFirst(m, v, k);
  }

  /**
   * Pass 2 on one match: the value starts with `/`; a `//` value is kept, any other is
   * replaced by the proxy prefix and its resolution against the page's URL.
   */
  lemma RewriteRelativeShape(m: string, resolve: string -> string)
    requires RelativeMatch(m) == Some(|m|)
    ensures var k := AttributeOpen(m).value;
      var v, r := m[k..|m| - 1], RewriteRelative(m, resolve);
      && StartsWith(v, "/") && (forall i :: 0 <= i < |v| ==> !IsQuote(v[i])) && IsQuote(m[|m| - 1])
      && (StartsWith(v, "//") ==> r == m)
      && (!StartsWith(v, "//") ==> r == m[..k] + (ProxyPrefix + resolve(v)) + [m[|m| - 1]])
  {
    var k := AttributeOpen(m).value;
    RelativeMatchFacts(m);
    PathCaptureValue(m, k);
    var v := m[k..|m| - 1];
    assert v[..1] == "/";
    if !StartsWith(v, "//") {
      RelativeValueFirst(m, k);
      ReplaceValue(m, k, ProxyPrefix + resolve(v));
    }
  }

  /**
   * A value pass 1 has rewritten, or one it matched and kept, is not matched by pass 2: it
   * starts with `h` or `H`, not with `/`.
   */
  lemma AbsoluteNotRelative(m: string, rest: string)
    requires AbsoluteMatch(m) == Some(|m|)
    ensures RelativeMatch(RewriteAbsolute(m) + rest).None?
  {
    var k := AttributeOpen(m).value;
    AbsoluteMatchFacts(m);
    var r := RewriteAbsolute(m);
    var t := r + rest;
    if LowerCaseScheme(m[k..|m| - 1]) {
      RewriteAbsoluteLower(m, k);
      assert t[k] == 'h';
    } else {
      RewriteAbsoluteOther(m, k);
    }
    assert t[..k] == m[..k];
    AttributeOpenAgree(m, t, k);
  }

  // ------------------------------------------------------------- whole passes

  /** A page with no attribute either pass matches and no head tag is returned unchanged. */
  lemma RewriteUnchanged(html: string, origin: string, resolve: string -> string)
    requires forall i :: 0 <= i < |html| ==> AbsoluteMatch(html[i..]).None?
    requires forall i :: 0 <= i < |html| ==> RelativeMatch(html[i..]).None?
    requires !Contains(html, "<head>") && !Contains(html, "<HEAD>")
    ensures RewriteHtmlUrls(html, origin, resolve) == html
  {
  }

  /**
   * A match whose value starts with an upper-case `H` (`href="HTTP://x"`, say) is matched by
   * pass 1, ignoring case, but returned as it was: the inner expression is case-sensitive.
   */
  lemma UpperCaseSchemeKept(m: string)
    requires AbsoluteMatch(m) == Some(|m|)
    requires m[AttributeOpen(m).value] == 'H'
    ensures RewriteAbsolute(m) == m
  {
    var k := AttributeOpen(m).value;
    ValueOfMatch(m);
    var v := m[k..|m| - 1];
    assert v[0] == 'H';
    RewriteAbsoluteOther(m, k);
  }
}
