/**
  What the parser returns of a text that is not finished, or not a reply: the elements before the
  point where it stops, and whether the one it stops at counts.
*/
module ReplyPartials {
  import opened Options
  import opened JsonPrinting
  import opened JsonStrings
  import opened ReplySegmentParser
  import opened ReplyRoundTrip
  import opened Texts

  lemma {:induction false} SkipsToEnd(s: Text, i: nat, w: Text)
    requires Blank(w) && At(s, i, w) && i + |w| == |s|
    ensures SkipWhitespace(s, i) == |s|
    decreases |w|
  {
    if w != [] {
      assert w == [w[0]] + w[1..];
      AtSplit(s, i, [w[0]], w[1..]);
      AtFirst(s, i, w);
      SkipsToEnd(s, i + 1, w[1..]);
    }
  }

  // ---------------------------------------------------------------------- the elements

  /** Elements that a comma follows. */
  function ItemsSoFar(es: seq<Item>): Text {
    if es == [] then [] else ItemText(es[0], COMMA) + ItemsSoFar(es[1..])
  }

  /** Elements followed by a comma are all returned, before whatever comes of the rest. */
  lemma {:induction false} ElementsSoFar(es: seq<Item>)
    requires forall k :: 0 <= k < |es| ==> ValidItem(es[k])
    ensures Continues(ItemsSoFar(es), Segments(es))
    decreases |es|
  {
    if es == [] {
      NothingContinues();
    } else {
      ItemContinues(es[0]);
      ElementsSoFar(es[1..]);
      ContinuesBoth(ItemText(es[0], COMMA), ItemsSoFar(es[1..]), [Meaning(es[0].literal)], Segments(es[1..]));
    }
  }

  lemma NothingContinues()
    ensures Continues([], [])
  {
    forall s: Text, i: nat | At(s, i, []) ensures Elements(s, i) == Before([], Elements(s, i)) {
      assert [] + Elements(s, i).segments == Elements(s, i).segments;
    }
  }

  /** The buffer ends before another element. */
  lemma EndsBlank(s: Text, i: nat, blank: Text)
    requires Blank(blank) && At(s, i, blank) && i + |blank| == |s|
    ensures Elements(s, i) == Parsed([], false)
  {
    SkipsToEnd(s, i, blank);
  }

  /** The element loop at a string it has read, with the end of the buffer or of the array after it. */
  lemma ElementIsLast(s: Text, i: nat, j: nat, d: nat)
    requires i <= |s| && j == SkipWhitespace(s, i) && j < |s| && s[j] == QUOTE
    requires ScanString(s, j + 1).Scanned? && d == SkipWhitespace(s, ScanString(s, j + 1).end)
    requires d == |s| || s[d] == CLOSE_BRACKET
    ensures ReadElement(s, i) == Last(ScanString(s, j + 1).value)
  {
  }

  lemma ElementIsBad(s: Text, i: nat, j: nat, d: nat)
    requires i <= |s| && j == SkipWhitespace(s, i) && j < |s| && s[j] == QUOTE
    requires ScanString(s, j + 1).Scanned? && d == SkipWhitespace(s, ScanString(s, j + 1).end)
    requires d < |s| && s[d] != CLOSE_BRACKET && s[d] != COMMA
    ensures ReadElement(s, i) == BadStop
  {
  }

  lemma LiteralEnds(s: Text, i: nat, j: nat, us: seq<Spelling>, d: nat)
    requires WellSpelled(us) && i <= |s| && j == SkipWhitespace(s, i) && At(s, j, Literal(us))
    requires d == SkipWhitespace(s, j + |Literal(us)|) && (d < |s| ==> s[d] != COMMA)
    ensures ReadElement(s, i) == if d == |s| || s[d] == CLOSE_BRACKET then Last(Meaning(us)) else BadStop
  {
    ScanLiteral(s, j, us);
    if d == |s| || s[d] == CLOSE_BRACKET {
      ElementIsLast(s, i, j, d);
    } else {
      ElementIsBad(s, i, j, d);
    }
  }

  /** The elements read when the loop ends here. */
  lemma LoopEnds(s: Text, i: nat, r: Element)
    requires i <= |s| && r == ReadElement(s, i) && !r.More?
    ensures Elements(s, i) == Parsed(if r.Last? then [r.value] else [], r.BadStop?)
  {
  }

  /** The buffer ends after a closing quote: the element is returned at once. */
  lemma EndsAfterLiteral(s: Text, i: nat, before: Text, us: seq<Spelling>, after: Text)
    requires Blank(before) && WellSpelled(us) && Blank(after)
    requires At(s, i, before + (Literal(us) + after)) && i + |before + (Literal(us) + after)| == |s|
    ensures Elements(s, i) == Parsed([Meaning(us)], false)
  {
    var j := i + |before|;
    AtSplit(s, i, before, Literal(us) + after);
    AtSplit(s, j, Literal(us), after);
    SkipsToLiteral(s, i, before, us);
    SkipsToEnd(s, j + |Literal(us)|, after);
    LiteralEnds(s, i, j, us, |s|);
    LoopEnds(s, i, Last(Meaning(us)));
  }

  /** Neither a comma nor a bracket follows the string: it is not returned, and nothing after it. */
  lemma BadDelimiter(s: Text, i: nat, before: Text, us: seq<Spelling>, after: Text, mark: Code)
    requires Blank(before) && WellSpelled(us) && Blank(after)
    requires !IsWhitespace(mark) && mark != COMMA && mark != CLOSE_BRACKET
    requires At(s, i, before + (Literal(us) + Ended(after, mark)))
    ensures Elements(s, i) == Parsed([], true)
  {
    var j := i + |before|;
    AtSplit(s, i, before, Literal(us) + Ended(after, mark));
    AtSplit(s, j, Literal(us), Ended(after, mark));
    SkipsToLiteral(s, i, before, us);
    SkipsTo(s, j + |Literal(us)|, after, mark);
    LiteralEnds(s, i, j, us, j + |Literal(us)| + |after|);
    LoopEnds(s, i, BadStop);
  }

  /** The array ends, or what comes is no string. */
  lemma NoString(s: Text, i: nat, before: Text, mark: Code)
    requires Blank(before) && !IsWhitespace(mark) && mark != QUOTE && At(s, i, Ended(before, mark))
    ensures Elements(s, i) == Parsed([], false)
  {
    SkipsTo(s, i, before, mark);
  }

  /** The string is not complete, or not a literal. */
  lemma BrokenString(s: Text, i: nat, before: Text)
    requires Blank(before) && At(s, i, Ended(before, QUOTE)) && ScanString(s, i + |before| + 1).ScanError?
    ensures Elements(s, i) == Parsed([], false)
  {
    SkipsTo(s, i, before, QUOTE);
  }

  // ------------------------------------------------------------------ before the array

  /** No string to come, no array. */
  lemma NoMoreStrings(s: Text, i: nat, t: Text)
    requires NoQuote(t) && At(s, i, t) && i + |t| == |s|
    ensures FindArray(s, i) == None
  {
    FindSkips(s, i, t);
  }

  /** A broken string ends the search. */
  lemma BrokenStringEndsSearch(s: Text, i: nat)
    requires i < |s| && s[i] == QUOTE && ScanString(s, i + 1).ScanError?
    ensures FindArray(s, i) == None
  {
  }

  /** The key with a colon but no bracket after it ends the search, whatever follows. */
  lemma KeyWithoutArray(s: Text, i: nat, us: seq<Spelling>, after: Text, before: Text, mark: Code)
    requires WellSpelled(us) && Meaning(us) == SEGMENTS && Blank(after) && Blank(before)
    requires !IsWhitespace(mark) && mark != OPEN_BRACKET
    requires At(s, i, Literal(us) + (Ended(after, COLON) + Ended(before, mark)))
    ensures FindArray(s, i) == None
  {
    var end := i + |Literal(us)|;
    var colon := end + |after|;
    AtSplit(s, i, Literal(us), Ended(after, COLON) + Ended(before, mark));
    AtSplit(s, end, Ended(after, COLON), Ended(before, mark));
    SkipsTo(s, end, after, COLON);
    SkipsTo(s, colon + 1, before, mark);
    KeyScanned(s, i, us, end, colon);
  }

  lemma KeyScanned(s: Text, i: nat, us: seq<Spelling>, end: nat, colon: nat)
    requires WellSpelled(us) && Meaning(us) == SEGMENTS && At(s, i, Literal(us)) && end == i + |Literal(us)|
    requires colon == SkipWhitespace(s, end) && colon < |s| && s[colon] == COLON
    requires var start := SkipWhitespace(s, colon + 1); start < |s| && s[start] != OPEN_BRACKET
    ensures FindArray(s, i) == None
  {
    ScanLiteral(s, i, us);
  }

  // --------------------------------------------------------------------- as it arrives

  /** A reply cut right after the closing quote of an element already yields that element: `feed`
      does not wait for the comma. */
  lemma ElementsArePrompt(opening: Text, es: seq<Item>, before: Text, us: seq<Spelling>)
    requires OpensArray(opening) && (forall k :: 0 <= k < |es| ==> ValidItem(es[k])) && Blank(before) && WellSpelled(us)
    ensures ParseText(opening + (ItemsSoFar(es) + (before + Literal(us))))
            == Parsed(Segments(es) + [Meaning(us)], false)
  {
    ElementsSoFar(es);
    CutAfter(opening, ItemsSoFar(es), Segments(es), before, us);
  }

  lemma CutAfter(opening: Text, list: Text, first: seq<Text>, before: Text, us: seq<Spelling>)
    requires OpensArray(opening) && Continues(list, first) && Blank(before) && WellSpelled(us)
    ensures ParseText(opening + (list + (before + Literal(us)))) == Parsed(first + [Meaning(us)], false)
  {
    var last := before + Literal(us);
    var s := opening + (list + last);
    assert At(s, 0, s);
    AtSplit(s, 0, opening, list + last);
    CutInList(s, |opening|, list, first, before, us);
  }

  lemma CutInList(s: Text, i: nat, list: Text, first: seq<Text>, before: Text, us: seq<Spelling>)
    requires Continues(list, first) && Blank(before) && WellSpelled(us)
    requires At(s, i, list + (before + Literal(us))) && i + |list + (before + Literal(us))| == |s|
    ensures Elements(s, i) == Parsed(first + [Meaning(us)], false)
  {
    var end := i + |list|;
    AtSplit(s, i, list, before + Literal(us));
    assert Literal(us) + [] == Literal(us);
    EndsAfterLiteral(s, end, before, us, []);
    ContinuesAt(s, i, list, first, end);
  }
}
