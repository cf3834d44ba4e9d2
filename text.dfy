/**
 * String operations of Python's `str` that the collectors rely on, over ASCII:
 * `lower()`, the `in` operator on strings, `split()` with no argument,
 * `replace(p, '')` and `startswith`.
 */
module Text {

  /** `str.isspace()` on ASCII: space, \t \n \v \f \r and the separators 0x1C-0x1F. */
  predicate IsSpace(c: char) {
    c == ' ' || ('\t' <= c <= '\r') || ('\U{1C}' <= c <= '\U{1F}')
  }

  predicate IsUpper(c: char) { 'A' <= c <= 'Z' }

  predicate IsLowerLetter(c: char) { 'a' <= c <= 'z' }

  predicate IsDigit(c: char) { '0' <= c <= '9' }

  /** `\w` of Python's `re` module, restricted to ASCII. */
  predicate IsWordChar(c: char) {
    IsUpper(c) || IsLowerLetter(c) || IsDigit(c) || c == '_'
  }

  /** `str.lower()` on one character: only the ASCII capitals change. */
  function LowerChar(c: char): (r: char)
    ensures !IsUpper(r)
    ensures IsUpper(c) ==> IsLowerLetter(r) && r as int == c as int + 32
    ensures !IsUpper(c) ==> r == c
  {
    if IsUpper(c) then (c as int + 32) as char else c
  }

  function Lower(s: string): (r: string)
    ensures |r| == |s|
    ensures forall i :: 0 <= i < |s| ==> r[i] == LowerChar(s[i])
  {
    seq(|s|, i requires 0 <= i < |s| => LowerChar(s[i]))
  }

  predicate IsLowerCase(s: string) {
    forall i :: 0 <= i < |s| ==> !IsUpper(s[i])
  }

  lemma {:induction false} LowerIsLowerCase(s: string)
    ensures IsLowerCase(Lower(s))
    ensures IsLowerCase(s) ==> Lower(s) == s
  {
  }

  /** Python's `needle in hay` for strings: `needle` occurs as a contiguous slice of `hay`. */
  predicate Contains(hay: string, needle: string)
    decreases |hay|
  {
    needle <= hay || (hay != [] && Contains(hay[1..], needle))
  }

  /** `needle` sits in `hay` starting at index `i`. */
  predicate OccursAt(hay: string, needle: string, i: int) {
    0 <= i <= |hay| - |needle| && hay[i..i + |needle|] == needle
  }

  /** `Contains` holds exactly when the needle sits at some index of the haystack. */
  lemma {:induction false} ContainsAt(hay: string, needle: string)
    ensures Contains(hay, needle) <==> exists i :: OccursAt(hay, needle, i)
  {
    if Contains(hay, needle) {
      ContainsWitness(hay, needle);
    }
    if exists i :: OccursAt(hay, needle, i) {
      var i :| OccursAt(hay, needle, i);
      OccursContains(hay, needle, i);
    }
  }

  lemma {:induction false} ContainsWitness(hay: string, needle: string)
    requires Contains(hay, needle)
    ensures exists i :: OccursAt(hay, needle, i)
    decreases |hay|
  {
    if needle <= hay {
      assert OccursAt(hay, needle, 0);
    } else {
      ContainsWitness(hay[1..], needle);
      var i :| OccursAt(hay[1..], needle, i);
      assert hay[1..][i..i + |needle|] == hay[i + 1..i + 1 + |needle|];
      assert OccursAt(hay, needle, i + 1);
    }
  }

  lemma {:induction false} OccursContains(hay: string, needle: string, i: int)
    requires OccursAt(hay, needle, i)
    ensures Contains(hay, needle)
    decreases i
  {
    if i == 0 {
      assert needle <= hay;
    } else {
      assert hay[1..][i - 1..i - 1 + |needle|] == hay[i..i + |needle|];
      OccursContains(hay[1..], needle, i - 1);
    }
  }

  /** Every character of a contained needle occurs in the haystack. */
  lemma ContainsChar(hay: string, needle: string, c: char)
    requires Contains(hay, needle) && c in needle
    ensures c in hay
  {
    ContainsAt(hay, needle);
    var i :| OccursAt(hay, needle, i);
    var k :| 0 <= k < |needle| && needle[k] == c;
    assert hay[i + k] == hay[i..i + |needle|][k];
  }

  /** A needle with a lower-case character that `s` holds in neither case does not occur in `Lower(s)`. */
  lemma NotInLower(s: string, needle: string, c: char)
    requires c in needle && IsLowerLetter(c) && c !in s && (c as int - 32) as char !in s
    ensures !Contains(Lower(s), needle)
  {
    forall i | 0 <= i < |s| ensures Lower(s)[i] != c {
      assert s[i] != c && s[i] != (c as int - 32) as char;
    }
    if Contains(Lower(s), needle) {
      ContainsChar(Lower(s), needle, c);
    }
  }

  /** Every slice of a string is contained in it. */
  lemma ContainsSlice(s: string, a: nat, b: nat)
    requires a <= b <= |s|
    ensures Contains(s, s[a..b])
  {
    ContainsAt(s, s[a..b]);
    assert OccursAt(s, s[a..b], a);
  }

  /** The index of the first non-space character at or after `i`. */
  function SkipSpaces(s: string, i: nat): (j: nat)
    requires i <= |s|
    ensures i <= j <= |s|
    ensures forall k :: i <= k < j ==> IsSpace(s[k])
    ensures j < |s| ==> !IsSpace(s[j])
    decreases |s| - i
  {
    if i == |s| || !IsSpace(s[i]) then i else SkipSpaces(s, i + 1)
  }

  /** The index just past the run of non-space characters that starts at `i`. */
  function WordEnd(s: string, i: nat): (j: nat)
    requires i <= |s|
    ensures i <= j <= |s|
    ensures forall k :: i <= k < j ==> !IsSpace(s[k])
    ensures j < |s| ==> IsSpace(s[j])
    decreases |s| - i
  {
    if i == |s| || IsSpace(s[i]) then i else WordEnd(s, i + 1)
  }

  predicate NoSpace(w: string) {
    forall k :: 0 <= k < |w| ==> !IsSpace(w[k])
  }

  function WordsFrom(s: string, i: nat): (r: seq<string>)
    requires i <= |s|
    ensures forall k :: 0 <= k < |r| ==> r[k] != [] && NoSpace(r[k]) && Contains(s, r[k])
    decreases |s| - i
  {
    var a := SkipSpaces(s, i);
    if a == |s| then []
    else
      var b := WordEnd(s, a);
      ContainsSlice(s, a, b);
      [s[a..b]] + WordsFrom(s, b)
  }

  /**
   * `s.split()`: the maximal runs of non-whitespace characters, in order.
   * Each word is non-empty, holds no whitespace and occurs in `s`.
   */
  function Words(s: string): (r: seq<string>)
    ensures forall k :: 0 <= k < |r| ==> r[k] != [] && NoSpace(r[k]) && Contains(s, r[k])
  {
    WordsFrom(s, 0)
  }

  /** `s.replace(p, '')` for a non-empty `p`: occurrences removed left to right, without rescanning. */
  function RemoveAll(s: string, p: string): (r: string)
    requires p != []
    ensures |r| <= |s|
    decreases |s|
  {
    if s == [] then []
    else if p <= s then RemoveAll(s[|p|..], p)
    else [s[0]] + RemoveAll(s[1..], p)
  }

  /** Nothing is removed from a string that does not contain the pattern. */
  lemma {:induction false} RemoveAllAbsent(s: string, p: string)
    requires p != [] && !Contains(s, p)
    ensures RemoveAll(s, p) == s
    decreases |s|
  {
    if s != [] {
      RemoveAllAbsent(s[1..], p);
    }
  }

  /** Every character of `s` different from `c`, in order (`s.replace(c, '')`). */
  function RemoveChar(s: string, c: char): (r: string)
    ensures c !in r
    ensures |r| <= |s|
    ensures forall x :: x in r ==> x in s
  {
    if s == [] then [] else (if s[0] == c then [] else [s[0]]) + RemoveChar(s[1..], c)
  }

  /** Removal keeps every other character as often as it occurs, and drops every `c`. */
  lemma {:induction false} RemoveCharMultiset(s: string, c: char)
    ensures multiset(RemoveChar(s, c)) == multiset(s)[c := 0]
  {
    if s != [] {
      assert s == [s[0]] + s[1..];
      RemoveCharMultiset(s[1..], c);
    }
  }

  /** Removal works piecewise, so the kept characters stay in their order. */
  lemma {:induction false} RemoveCharAppend(a: string, b: string, c: char)
    ensures RemoveChar(a + b, c) == RemoveChar(a, c) + RemoveChar(b, c)
  {
    if a != [] {
      assert (a + b)[1..] == a[1..] + b;
      RemoveCharAppend(a[1..], b, c);
    } else {
      assert a + b == b;
    }
  }

  lemma RemoveCharSingle(x: char, c: char)
    ensures RemoveChar([x], c) == if x == c then [] else [x]
  {
    assert [x][1..] == [];
  }

  /** A string without `c` is left as it is. */
  lemma {:induction false} RemoveCharAbsent(s: string, c: char)
    requires c !in s
    ensures RemoveChar(s, c) == s
  {
    if s != [] {
      assert s == [s[0]] + s[1..];
      RemoveCharAbsent(s[1..], c);
    }
  }

  /**
   * `[w for w in words if w not in stop and len(w) > 2]`: the tokens longer than two characters
   * that are not stop words, in order.
   */
  function SignificantWords(ws: seq<string>, stop: seq<string>): (r: seq<string>)
    ensures forall k :: 0 <= k < |r| ==> |r[k]| > 2 && r[k] !in stop && r[k] in ws
    ensures forall w :: w in ws && |w| > 2 && w !in stop ==> w in r
  {
    if ws == [] then []
    else (if |ws[0]| > 2 && ws[0] !in stop then [ws[0]] else []) + SignificantWords(ws[1..], stop)
  }

  /** `any(w in text for w in words)` */
  predicate AnyIn(words: seq<string>, text: string) {
    exists k :: 0 <= k < |words| && Contains(text, words[k])
  }

  /** `Lower` commutes with slicing and concatenation. */
  lemma LowerSlice(s: string, a: nat, b: nat)
    requires a <= b <= |s|
    ensures Lower(s)[a..b] == Lower(s[a..b])
  {
  }

  lemma LowerAppend(s: string, t: string)
    ensures Lower(s + t) == Lower(s) + Lower(t)
  {
  }
}
