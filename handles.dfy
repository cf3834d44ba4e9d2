/**
 * `extract_instagram_handles`: the three regular expressions that pull Instagram handles out of a
 * YouTube description, written out as the left-to-right scans `re.findall` performs on ASCII text.
 *   1. `instagram\.com/([a-zA-Z0-9_.]+)`, ignoring case;
 *   2. `(?<![@\w])@([a-zA-Z0-9_.]+)(?![@\w])`;
 *   3. `(?:instagram|ig)[\s:]+([a-zA-Z0-9_.]+)`, ignoring case.
 */
module Handles {
  import opened Wrappers
  import opened Text

  /** The class `[a-zA-Z0-9_.]`. */
  predicate IsHandleChar(c: char) {
    IsWordChar(c) || c == '.'
  }

  predicate IsHandle(h: string) {
    forall k :: 0 <= k < |h| ==> IsHandleChar(h[k])
  }

  /** The end of the greedy run of handle characters that starts at `i`. */
  function RunEnd(s: string, i: nat): (j: nat)
    requires i <= |s|
    ensures i <= j <= |s|
    ensures forall k :: i <= k < j ==> IsHandleChar(s[k])
    ensures j < |s| ==> !IsHandleChar(s[j])
    decreases |s| - i
  {
    if i == |s| || !IsHandleChar(s[i]) then i else RunEnd(s, i + 1)
  }

  // ---- pattern 1: instagram.com/<handle> -------------------------------------------------

  const UrlPrefix: string := "instagram.com/"

  /** Pattern 1 matches at `p`: the prefix, in any case, followed by at least one handle character. */
  predicate UrlAt(s: string, p: nat) {
    p + |UrlPrefix| < |s| && Lower(s[p..p + |UrlPrefix|]) == UrlPrefix && IsHandleChar(s[p + |UrlPrefix|])
  }

  /** `re.findall(pattern1, s[p:], re.IGNORECASE)`: each captured handle follows "instagram.com/" in `s`. */
  function UrlMatches(s: string, p: nat): (r: seq<string>)
    requires p <= |s|
    ensures forall k :: 0 <= k < |r| ==> r[k] != [] && IsHandle(r[k]) && Contains(Lower(s), UrlPrefix + Lower(r[k]))
    decreases |s| - p
  {
    if p == |s| then []
    else if UrlAt(s, p) then
      var a := p + |UrlPrefix|;
      var e := RunEnd(s, a);
      UrlFound(s, p, e);
      [s[a..e]] + UrlMatches(s, e)
    else UrlMatches(s, p + 1)
  }

  lemma UrlFound(s: string, p: nat, e: nat)
    requires UrlAt(s, p) && p + |UrlPrefix| <= e <= |s|
    ensures Contains(Lower(s), UrlPrefix + Lower(s[p + |UrlPrefix|..e]))
  {
    var a := p + |UrlPrefix|;
    assert s[p..e] == s[p..a] + s[a..e];
    LowerAppend(s[p..a], s[a..e]);
    LowerSlice(s, p, e);
    ContainsSlice(Lower(s), p, e);
  }

  // ---- pattern 2: @<handle> ----------------------------------------------------------------

  /** The class `[@\w]` of the look-behind and the look-ahead. */
  predicate MentionGuard(c: char) {
    c == '@' || IsWordChar(c)
  }

  /** The negative look-ahead `(?![@\w])` holds at `e`. */
  predicate AheadFree(s: string, e: nat)
    requires e <= |s|
  {
    e == |s| || !MentionGuard(s[e])
  }

  /**
   * The end the backtracking group settles on: the largest `e'` in `(lo, e]` at which the look-ahead
   * holds, or `None` when there is none and the match at this position fails.
   */
  function MentionEnd(s: string, lo: nat, e: nat): (r: Option<nat>)
    requires lo <= e <= |s|
    ensures r.Some? ==> lo < r.value <= e && AheadFree(s, r.value)
    ensures r.Some? ==> forall k :: r.value < k <= e ==> !AheadFree(s, k)
    ensures r.None? ==> forall k :: lo < k <= e ==> !AheadFree(s, k)
    decreases e
  {
    if e <= lo then None else if AheadFree(s, e) then Some(e) else MentionEnd(s, lo, e - 1)
  }

  /** An `@` whose preceding character (if any) is neither `@` nor a word character. */
  predicate MentionStart(s: string, p: nat) {
    p < |s| && s[p] == '@' && (p == 0 || !MentionGuard(s[p - 1]))
  }

  /** `re.findall(pattern2, s[p:])`: each captured handle follows an `@` in `s`. */
  function MentionMatches(s: string, p: nat): (r: seq<string>)
    requires p <= |s|
    ensures forall k :: 0 <= k < |r| ==> r[k] != [] && IsHandle(r[k]) && Contains(s, "@" + r[k])
    decreases |s| - p
  {
    if p == |s| then []
    else if MentionStart(s, p) && MentionEnd(s, p + 1, RunEnd(s, p + 1)).Some? then
      var e := MentionEnd(s, p + 1, RunEnd(s, p + 1)).value;
      assert s[p..e] == "@" + s[p + 1..e];
      ContainsSlice(s, p, e);
      [s[p + 1..e]] + MentionMatches(s, e)
    else MentionMatches(s, p + 1)
  }

  // ---- pattern 3: instagram/ig, separators, handle ------------------------------------------

  /** The class `[\s:]`. */
  predicate IsLabelSep(c: char) {
    IsSpace(c) || c == ':'
  }

  function SepEnd(s: string, i: nat): (j: nat)
    requires i <= |s|
    ensures i <= j <= |s|
    ensures forall k :: i <= k < j ==> IsLabelSep(s[k])
    ensures j < |s| ==> !IsLabelSep(s[j])
    decreases |s| - i
  {
    if i == |s| || !IsLabelSep(s[i]) then i else SepEnd(s, i + 1)
  }

  /**
   * The length of the label alternative matching at `p`: 9 for "instagram", 2 for "ig" (case-insensitive),
   * 0 for none. The two cannot both match, since "instagram" has no "g" in second place.
   */
  function LabelLength(s: string, p: nat): (n: nat)
    ensures n == 0 || n == 2 || n == 9
    ensures n > 0 ==> p + n <= |s|
  {
    if p + 9 <= |s| && Lower(s[p..p + 9]) == "instagram" then 9
    else if p + 2 <= |s| && Lower(s[p..p + 2]) == "ig" then 2
    else 0
  }

  /**
   * Pattern 3 matches at `p`: a label, then a non-empty run of separators, then a handle character.
   * Backtracking into the separator run cannot help, since separators are not handle characters.
   */
  predicate LabelAt(s: string, p: nat) {
    var n := LabelLength(s, p);
    n > 0 && var b := SepEnd(s, p + n); b > p + n && b < |s| && IsHandleChar(s[b])
  }

  /** `re.findall(pattern3, s[p:], re.IGNORECASE)` */
  function LabelMatches(s: string, p: nat): (r: seq<string>)
    requires p <= |s|
    ensures forall k :: 0 <= k < |r| ==> r[k] != [] && IsHandle(r[k])
    decreases |s| - p
  {
    if p == |s| then []
    else if LabelAt(s, p) then
      var b := SepEnd(s, p + LabelLength(s, p));
      var e := RunEnd(s, b);
      [s[b..e]] + LabelMatches(s, e)
    else LabelMatches(s, p + 1)
  }

  // ---- the handle set ----------------------------------------------------------------------

  /** A capture the loops keep: longer than one character and, for pattern 2, free of dots. */
  predicate Kept(m: string, noDot: bool) {
    |m| > 1 && (!noDot || '.' !in m)
  }

  /** The lower-cased captures a loop adds to the set. */
  function KeptHandles(ms: seq<string>, noDot: bool): set<string> {
    set m | m in ms && Kept(m, noDot) :: Lower(m)
  }

  lemma KeptHandlesSnoc(ms: seq<string>, x: string, noDot: bool)
    ensures KeptHandles(ms + [x], noDot) == KeptHandles(ms, noDot) + (if Kept(x, noDot) then {Lower(x)} else {})
  {
  }

  /** The handles pattern 1 contributes: every capture longer than one character, lower-cased. */
  function UrlHandles(s: string): set<string> {
    KeptHandles(UrlMatches(s, 0), false)
  }

  /** The handles pattern 2 contributes: captures longer than one character without a dot, lower-cased. */
  function MentionHandles(s: string): set<string> {
    KeptHandles(MentionMatches(s, 0), true)
  }

  /** The handles pattern 3 contributes: every capture longer than one character, lower-cased. */
  function LabelHandles(s: string): set<string> {
    KeptHandles(LabelMatches(s, 0), false)
  }

  /** The set `extract_instagram_handles` converts to its list; empty for `None` or empty text. */
  function HandleSet(text: Option<string>): set<string> {
    if text.None? || text.value == [] then {}
    else UrlHandles(text.value) + MentionHandles(text.value) + LabelHandles(text.value)
  }

  /** A character of a lower-cased handle: `[a-z0-9_.]`. */
  predicate IsLowerHandleChar(c: char) {
    IsLowerLetter(c) || IsDigit(c) || c == '_' || c == '.'
  }

  /** The lower-case form of a handle capture longer than one character has the shape of every result. */
  lemma LowerHandleShape(m: string)
    requires IsHandle(m) && |m| > 1
    ensures |Lower(m)| >= 2 && IsLowerCase(Lower(m))
    ensures forall k :: 0 <= k < |Lower(m)| ==> IsLowerHandleChar(Lower(m)[k])
  {
    LowerIsLowerCase(m);
  }

  /** Every extracted handle is lower-case, at least two characters long and made of `[a-z0-9_.]`. */
  lemma HandleSetShape(text: Option<string>, h: string)
    requires h in HandleSet(text)
    ensures |h| >= 2 && IsLowerCase(h)
    ensures forall k :: 0 <= k < |h| ==> IsLowerHandleChar(h[k])
  {
    var s := text.value;
    if h in UrlHandles(s) {
      var m :| m in UrlMatches(s, 0) && Kept(m, false) && h == Lower(m);
      LowerHandleShape(m);
    } else if h in MentionHandles(s) {
      var m :| m in MentionMatches(s, 0) && Kept(m, true) && h == Lower(m);
      LowerHandleShape(m);
    } else {
      var m :| m in LabelMatches(s, 0) && Kept(m, false) && h == Lower(m);
      LowerHandleShape(m);
    }
  }

  /** A handle that pattern 1 alone contributes appears after "instagram.com/" in the lower-cased text. */
  lemma UrlHandleInText(s: string, h: string)
    requires h in UrlHandles(s)
    ensures Contains(Lower(s), UrlPrefix + h)
  {
    var m :| m in UrlMatches(s, 0) && Kept(m, false) && h == Lower(m);
  }

  /** A handle from pattern 2 holds no dot and appears after an `@` in the text, in its original case. */
  lemma MentionHandleInText(s: string, h: string)
    requires h in MentionHandles(s)
    ensures '.' !in h
    ensures exists m :: Contains(s, "@" + m) && Lower(m) == h
  {
    var m :| m in MentionMatches(s, 0) && Kept(m, true) && h == Lower(m);
    assert Contains(s, "@" + m);
    forall k | 0 <= k < |h| ensures h[k] != '.' {
      assert h[k] == LowerChar(m[k]);
      assert m[k] in m;
    }
  }

  /**
   * Whether a Python set's iteration order is a permutation of the set: `list(handles)` yields every
   * element exactly once, in an order that depends on string hashing and is a parameter here.
   */
  ghost predicate IsArrangement(r: seq<string>, s: set<string>) {
    |r| == |s| && (forall x :: x in r <==> x in s) && forall i, j :: 0 <= i < j < |r| ==> r[i] != r[j]
  }

  ghost predicate HasArrangements(arrange: set<string> -> seq<string>) {
    forall s: set<string> :: IsArrangement(arrange(s), s)
  }

  /** One of the three `for match in matches` loops: each kept capture is added, lower-cased, to the set. */
  method AddKept(handles: set<string>, matches: seq<string>, noDot: bool) returns (out: set<string>)
    ensures out == handles + KeptHandles(matches, noDot)
  {
    out := handles;
    var i := 0;
    while i < |matches|
      invariant 0 <= i <= |matches|
      invariant out == handles + KeptHandles(matches[..i], noDot)
    {
      KeptHandlesSnoc(matches[..i], matches[i], noDot);
      assert matches[..i + 1] == matches[..i] + [matches[i]];
      if Kept(matches[i], noDot) {
        out := out + {Lower(matches[i])};
      }
      i := i + 1;
    }
    assert matches[..i] == matches;
  }

  /**
   * `extract_instagram_handles`: the three `findall` loops add to one set, which is returned as a list
   * in the iteration order `arrange` gives.
   */
  method ExtractInstagramHandles(text: Option<string>, arrange: set<string> -> seq<string>) returns (r: seq<string>)
    requires HasArrangements(arrange)
    ensures r == arrange(HandleSet(text))
    ensures IsArrangement(r, HandleSet(text))
    ensures text.None? || text.value == [] ==> r == []
  {
    if text.None? || text.value == [] {
      var none: set<string> := {};
      r := arrange(none);
      assert IsArrangement(r, none);
      return;
    }
    var s := text.value;
    var handles: set<string> := {};
    handles := AddKept(handles, UrlMatches(s, 0), false);
    handles := AddKept(handles, MentionMatches(s, 0), true);
    handles := AddKept(handles, LabelMatches(s, 0), false);
    r := arrange(handles);
  }
}
