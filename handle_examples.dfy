/** Worked inputs of `extract_instagram_handles`: what each pattern does with a typical description line. */
module HandleExamples {
  import opened Wrappers
  import opened Text
  import opened Handles

  /** A profile link yields the handle after it. */
  lemma UrlExample()
    ensures "janedoe" in HandleSet(Some("instagram.com/janedoe"))
  {
    var s := "instagram.com/janedoe";
    UrlCapture(s);
    UrlCaptureKept(s);
    InHandleSet(s, "janedoe");
  }

  lemma UrlCaptureKept(s: string)
    requires s == "instagram.com/janedoe" && "janedoe" in UrlMatches(s, 0)
    ensures "janedoe" in UrlHandles(s)
  {
    LowerIsLowerCase("janedoe");
    assert Kept("janedoe", false);
  }

  lemma UrlCapture(s: string)
    requires s == "instagram.com/janedoe"
    ensures "janedoe" in UrlMatches(s, 0)
  {
    assert s[0..14] == "instagram.com/";
    LowerIsLowerCase("instagram.com/");
    assert UrlAt(s, 0);
    assert RunEnd(s, 14) == 21;
    assert s[14..21] == "janedoe";
    assert UrlMatches(s, 0) == [s[14..21]] + UrlMatches(s, 21);
  }

  /** An `@`-mention whose handle holds a dot is captured whole by pattern 2 and then rejected. */
  lemma MentionDotExample()
    ensures MentionHandles("@janedoe.music") == {}
  {
    var s := "@janedoe.music";
    MentionDotCapture(s);
    DottedDropped(MentionMatches(s, 0));
  }

  lemma DottedDropped(ms: seq<string>)
    requires ms == ["janedoe.music"]
    ensures KeptHandles(ms, true) == {}
  {
    assert ms[0][7] == '.';
    assert forall m :: m in ms ==> !Kept(m, true);
  }

  lemma MentionDotCapture(s: string)
    requires s == "@janedoe.music"
    ensures MentionMatches(s, 0) == ["janedoe.music"]
  {
    assert MentionStart(s, 0);
    assert RunEnd(s, 1) == 14;
    assert MentionEnd(s, 1, 14) == Some(14);
    assert s[1..14] == "janedoe.music";
    assert MentionMatches(s, 0) == [s[1..14]] + MentionMatches(s, 14);
  }

  /** The same handle after an upper-case `IG:` label is kept, dot and all. */
  lemma LabelExample(s: string)
    requires s == "IG: janedoe.music"
    ensures "janedoe.music" in HandleSet(Some(s))
  {
    LabelTailKept(s);
    InHandleSet(s, "janedoe.music");
  }

  lemma LabelTailKept(s: string)
    requires s == "IG: janedoe.music"
    ensures "janedoe.music" in LabelHandles(s)
  {
    IgLabel(s);
    LabelCaptureAtStart(s, 4);
    LabelCaptureKept(s, 4);
    assert s[4..] == "janedoe.music";
    HandleIsLowerCase(s[4..]);
  }

  lemma IgLabel(s: string)
    requires s == "IG: janedoe.music"
    ensures LabelAt(s, 0) && SepEnd(s, LabelLength(s, 0)) == 4 && RunEnd(s, 4) == |s|
  {
    assert s[0..2] == "IG";
    assert Lower(s[0..9])[1] == LowerChar('G') == 'g';
    assert Lower("IG") == [LowerChar('I'), LowerChar('G')] == "ig";
    assert LabelLength(s, 0) == 2;
    assert SepEnd(s, 4) == 4;
    assert SepEnd(s, 3) == 4;
    assert SepEnd(s, 2) == 4;
    assert RunEnd(s, 4) == 17;
    assert s[4..] == "janedoe.music";
  }

  /** The label is not anchored to a word start: the "ig" inside "big" labels the next word. */
  lemma UnanchoredLabelExample()
    ensures "news" in HandleSet(Some("big news"))
  {
    var s := "big news";
    LabelAfterBigKept(s);
    InHandleSet(s, "news");
  }

  lemma LabelAfterBigKept(s: string)
    requires s == "big news"
    ensures "news" in LabelHandles(s)
  {
    LabelAfterBig(s);
    LowerIsLowerCase("news");
    assert Kept("news", false);
  }

  lemma LabelAfterBig(s: string)
    requires s == "big news"
    ensures "news" in LabelMatches(s, 0)
  {
    assert s[0..2] == "bi";
    assert Lower(s[0..2])[0] == 'b';
    assert LabelLength(s, 0) == 0;
    assert s[1..3] == "ig";
    LowerIsLowerCase("ig");
    assert LabelLength(s, 1) == 2;
    assert SepEnd(s, 3) == 4;
    assert RunEnd(s, 4) == 8;
    assert s[4..8] == "news";
    assert LabelMatches(s, 1) == [s[4..8]] + LabelMatches(s, 8);
    assert LabelMatches(s, 0) == LabelMatches(s, 1);
  }

  /** A label match at the very start whose handle runs to the end of the text captures that tail. */
  lemma LabelCaptureAtStart(s: string, b: nat)
    requires LabelAt(s, 0) && b == SepEnd(s, LabelLength(s, 0)) && RunEnd(s, b) == |s|
    ensures s[b..] in LabelMatches(s, 0)
  {
    FirstLabelMatch(s);
    assert s[b..RunEnd(s, b)] == s[b..];
  }

  lemma FirstLabelMatch(s: string)
    requires LabelAt(s, 0)
    ensures LabelMatches(s, 0) != [] &&
            LabelMatches(s, 0)[0] == s[SepEnd(s, LabelLength(s, 0))..RunEnd(s, SepEnd(s, LabelLength(s, 0)))]
  {
  }

  lemma LabelCaptureKept(s: string, b: nat)
    requires b <= |s| && s[b..] in LabelMatches(s, 0) && |s| - b >= 2
    ensures Lower(s[b..]) in LabelHandles(s)
  {
    assert Kept(s[b..], false);
  }

  lemma InHandleSet(s: string, h: string)
    requires s != [] && (h in UrlHandles(s) || h in MentionHandles(s) || h in LabelHandles(s))
    ensures h in HandleSet(Some(s))
  {
  }

  lemma HandleIsLowerCase(h: string)
    requires h == "janedoe.music"
    ensures Lower(h) == h
  {
    LowerIsLowerCase(h);
  }
}
