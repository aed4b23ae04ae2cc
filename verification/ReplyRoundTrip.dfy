/**
  What the parser is for: a reply printed as JSON text, cut into any chunks, comes out of
  `feed` as exactly its segments. Also how stream events become chunks.
*/
module ReplyRoundTrip {
  import opened Options
  import opened JsonPrinting
  import opened JsonStrings
  import opened ReplySegmentParser
  import opened Texts

  predicate Blank(w: Text) { forall k :: 0 <= k < |w| ==> IsWhitespace(w[k]) }
  predicate NoQuote(t: Text) { QUOTE !in t }

  /** Whitespace and the mark that ends it. */
  function Ended(w: Text, mark: Code): Text { w + [mark] }

  /** A literal, the whitespace around it and the mark after it. */
  function Marked(before: Text, literal: Text, after: Text, mark: Code): Text {
    before + (literal + Ended(after, mark))
  }

  /** A member before "segments": a string key and a string value. */
  datatype Field = Field(before: Text, key: seq<Spelling>, afterKey: Text, beforeValue: Text, value: seq<Spelling>,
    afterValue: Text)

  predicate ValidField(f: Field) {
    && Blank(f.before) && Blank(f.afterKey) && Blank(f.beforeValue) && Blank(f.afterValue)
    && WellSpelled(f.key) && WellSpelled(f.value) && Meaning(f.key) != SEGMENTS
  }

  function FieldText(f: Field): Text {
    Marked(f.before, Literal(f.key), f.afterKey, COLON) + Marked(f.beforeValue, Literal(f.value), f.afterValue, COMMA)
  }

  function FieldsText(fs: seq<Field>): Text {
    if fs == [] then [] else FieldText(fs[0]) + FieldsText(fs[1..])
  }

  /** One array element with the whitespace around it. */
  datatype Item = Item(before: Text, literal: seq<Spelling>, after: Text)

  predicate ValidItem(e: Item) { Blank(e.before) && Blank(e.after) && WellSpelled(e.literal) }

  function ItemText(e: Item, mark: Code): Text { Marked(e.before, Literal(e.literal), e.after, mark) }

  /** The array from just after its opening bracket up to and including the closing one. */
  function ItemsText(es: seq<Item>, blank: Text): Text {
    if es == [] then Ended(blank, CLOSE_BRACKET)
    else if |es| == 1 then ItemText(es[0], CLOSE_BRACKET)
    else ItemText(es[0], COMMA) + ItemsText(es[1..], blank)
  }

  /** A reply as printed: any text without quotes up to the first member (an opening brace, a
      code fence), string members, the "segments" array, and anything after it. */
  datatype Reply = Reply(
    lead: Text, fields: seq<Field>,
    beforeKey: Text, key: seq<Spelling>, afterKey: Text, beforeArray: Text,
    items: seq<Item>, blank: Text, tail: Text)

  predicate ValidReply(r: Reply) {
    && NoQuote(r.lead) && Blank(r.beforeKey) && Blank(r.afterKey) && Blank(r.beforeArray) && Blank(r.blank)
    && (forall k :: 0 <= k < |r.fields| ==> ValidField(r.fields[k]))
    && (forall k :: 0 <= k < |r.items| ==> ValidItem(r.items[k]))
    && WellSpelled(r.key) && Meaning(r.key) == SEGMENTS
  }

  function HeadText(r: Reply): Text {
    r.beforeKey + ((Literal(r.key) + Ended(r.afterKey, COLON)) + Ended(r.beforeArray, OPEN_BRACKET))
  }

  function ReplyText(r: Reply): Text {
    (r.lead + (FieldsText(r.fields) + HeadText(r))) + (ItemsText(r.items, r.blank) + r.tail)
  }

  function Segments(items: seq<Item>): seq<Text> {
    if items == [] then [] else [Meaning(items[0].literal)] + Segments(items[1..])
  }

  // --------------------------------------------------------- walking over the text

  /** Wherever `t` stands, looking for the array passes over it. */
  ghost predicate Passed(t: Text) {
    forall s: Text, i: nat :: At(s, i, t) ==> FindArray(s, i) == FindArray(s, i + |t|)
  }

  /** Wherever `t` stands, the array is found at its end. */
  ghost predicate OpensArray(t: Text) {
    forall s: Text, i: nat :: At(s, i, t) ==> FindArray(s, i) == Some(i + |t|)
  }

  /** Wherever `t` stands, its elements are `segments` and nothing follows them. */
  ghost predicate Lists(t: Text, segments: seq<Text>) {
    forall s: Text, i: nat :: At(s, i, t) ==> Elements(s, i) == Parsed(segments, false)
  }

  lemma {:induction false} SkipsBlank(s: Text, i: nat, w: Text)
    requires Blank(w) && At(s, i, w)
    requires i + |w| < |s| && !IsWhitespace(s[i + |w|])
    ensures SkipWhitespace(s, i) == i + |w|
    decreases |w|
  {
    if w != [] {
      assert w == [w[0]] + w[1..];
      AtSplit(s, i, [w[0]], w[1..]);
      AtFirst(s, i, w);
      SkipsBlank(s, i + 1, w[1..]);
    }
  }

  lemma SkipsTo(s: Text, i: nat, w: Text, mark: Code)
    requires Blank(w) && !IsWhitespace(mark) && At(s, i, Ended(w, mark))
    ensures i + |w| < |s| && s[i + |w|] == mark
    ensures SkipWhitespace(s, i) == i + |w|
  {
    AtSplit(s, i, w, [mark]);
    AtFirst(s, i + |w|, [mark]);
    SkipsBlank(s, i, w);
  }

  lemma {:induction false} FindSkips(s: Text, i: nat, t: Text)
    requires NoQuote(t) && At(s, i, t)
    ensures FindArray(s, i) == FindArray(s, i + |t|)
    decreases |t|
  {
    if t != [] {
      assert t == [t[0]] + t[1..];
      AtSplit(s, i, [t[0]], t[1..]);
      AtFirst(s, i, t);
      FindSkips(s, i + 1, t[1..]);
    }
  }

  lemma PassedPlain(t: Text)
    requires NoQuote(t)
    ensures Passed(t)
  {
    forall s: Text, i: nat | At(s, i, t) ensures FindArray(s, i) == FindArray(s, i + |t|) {
      FindSkips(s, i, t);
    }
  }

  lemma PassedBoth(a: Text, b: Text)
    requires Passed(a) && Passed(b)
    ensures Passed(a + b)
  {
    forall s: Text, i: nat | At(s, i, a + b) ensures FindArray(s, i) == FindArray(s, i + |a + b|) {
      AtSplit(s, i, a, b);
    }
  }

  /** The array search at a string that is not the key. */
  lemma FindAtString(s: Text, i: nat, end: nat, colon: nat)
    requires i < |s| && s[i] == QUOTE && ScanString(s, i + 1).Scanned? && ScanString(s, i + 1).end == end
    requires colon == SkipWhitespace(s, end) && colon < |s|
    requires ScanString(s, i + 1).value != SEGMENTS || s[colon] != COLON
    ensures FindArray(s, i) == FindArray(s, end)
  {
  }

  lemma FindPastString(s: Text, i: nat, us: seq<Spelling>, end: nat, colon: nat)
    requires WellSpelled(us) && At(s, i, Literal(us)) && end == i + |Literal(us)|
    requires colon == SkipWhitespace(s, end) && colon < |s|
    requires Meaning(us) != SEGMENTS || s[colon] != COLON
    ensures FindArray(s, i) == FindArray(s, end)
  {
    ScanLiteral(s, i, us);
    FindAtString(s, i, end, colon);
  }

  lemma PassedStringAt(s: Text, i: nat, us: seq<Spelling>, after: Text, mark: Code)
    requires WellSpelled(us) && Blank(after) && !IsWhitespace(mark) && mark != QUOTE
    requires Meaning(us) != SEGMENTS || mark != COLON
    requires At(s, i, Literal(us) + Ended(after, mark))
    ensures FindArray(s, i) == FindArray(s, i + |Literal(us) + Ended(after, mark)|)
  {
    var end := i + |Literal(us)|;
    AtSplit(s, i, Literal(us), Ended(after, mark));
    SkipsTo(s, end, after, mark);
    FindPastString(s, i, us, end, end + |after|);
    FindSkips(s, end, Ended(after, mark));
  }

  lemma PassedString(us: seq<Spelling>, after: Text, mark: Code)
    requires WellSpelled(us) && Blank(after) && !IsWhitespace(mark) && mark != QUOTE
    requires Meaning(us) != SEGMENTS || mark != COLON
    ensures Passed(Literal(us) + Ended(after, mark))
  {
    var text := Literal(us) + Ended(after, mark);
    forall s: Text, i: nat | At(s, i, text) ensures FindArray(s, i) == FindArray(s, i + |text|) {
      PassedStringAt(s, i, us, after, mark);
    }
  }

  /** A string that is not the key "segments" followed by a colon is passed over. */
  lemma PassedMarked(before: Text, us: seq<Spelling>, after: Text, mark: Code)
    requires WellSpelled(us) && Blank(before) && Blank(after) && !IsWhitespace(mark) && mark != QUOTE
    requires Meaning(us) != SEGMENTS || mark != COLON
    ensures Passed(Marked(before, Literal(us), after, mark))
  {
    PassedPlain(before);
    PassedString(us, after, mark);
    PassedBoth(before, Literal(us) + Ended(after, mark));
  }

  lemma PassedField(f: Field)
    requires ValidField(f)
    ensures Passed(FieldText(f))
  {
    PassedMarked(f.before, f.key, f.afterKey, COLON);
    PassedMarked(f.beforeValue, f.value, f.afterValue, COMMA);
    PassedBoth(Marked(f.before, Literal(f.key), f.afterKey, COLON),
      Marked(f.beforeValue, Literal(f.value), f.afterValue, COMMA));
  }

  lemma {:induction false} PassedFields(fs: seq<Field>)
    requires forall k :: 0 <= k < |fs| ==> ValidField(fs[k])
    ensures Passed(FieldsText(fs))
    decreases |fs|
  {
    if fs != [] {
      PassedField(fs[0]);
      PassedFields(fs[1..]);
      PassedBoth(FieldText(fs[0]), FieldsText(fs[1..]));
    }
  }

  lemma OpensAfter(a: Text, b: Text)
    requires Passed(a) && OpensArray(b)
    ensures OpensArray(a + b)
  {
    forall s: Text, i: nat | At(s, i, a + b) ensures FindArray(s, i) == Some(i + |a + b|) {
      AtSplit(s, i, a, b);
    }
  }

  /** The array search at the key "segments" with its colon and bracket. */
  lemma FindAtKey(s: Text, i: nat, end: nat, colon: nat, start: nat)
    requires i < |s| && s[i] == QUOTE && ScanString(s, i + 1).Scanned?
    requires ScanString(s, i + 1).value == SEGMENTS && ScanString(s, i + 1).end == end
    requires colon == SkipWhitespace(s, end) && colon < |s| && s[colon] == COLON
    requires start == SkipWhitespace(s, colon + 1) && start < |s| && s[start] == OPEN_BRACKET
    ensures FindArray(s, i) == Some(start + 1)
  {
  }

  lemma FindKey(s: Text, i: nat, us: seq<Spelling>, end: nat, colon: nat, start: nat)
    requires WellSpelled(us) && Meaning(us) == SEGMENTS && At(s, i, Literal(us)) && end == i + |Literal(us)|
    requires colon == SkipWhitespace(s, end) && colon < |s| && s[colon] == COLON
    requires start == SkipWhitespace(s, colon + 1) && start < |s| && s[start] == OPEN_BRACKET
    ensures FindArray(s, i) == Some(start + 1)
  {
    ScanLiteral(s, i, us);
    FindAtKey(s, i, end, colon, start);
  }

  lemma OpensKeyAt(s: Text, i: nat, us: seq<Spelling>, after: Text, beforeArray: Text, end: nat, colon: nat)
    requires WellSpelled(us) && Meaning(us) == SEGMENTS && Blank(after) && Blank(beforeArray)
    requires At(s, i, Literal(us)) && end == i + |Literal(us)|
    requires At(s, end, Ended(after, COLON)) && colon == end + |after|
    requires At(s, colon + 1, Ended(beforeArray, OPEN_BRACKET))
    ensures FindArray(s, i) == Some(colon + 1 + |beforeArray| + 1)
  {
    SkipsTo(s, end, after, COLON);
    SkipsTo(s, colon + 1, beforeArray, OPEN_BRACKET);
    FindKey(s, i, us, end, colon, colon + 1 + |beforeArray|);
  }

  function KeyText(us: seq<Spelling>, after: Text, beforeArray: Text): Text {
    (Literal(us) + Ended(after, COLON)) + Ended(beforeArray, OPEN_BRACKET)
  }

  lemma OpensKeyText(s: Text, i: nat, us: seq<Spelling>, after: Text, beforeArray: Text)
    requires WellSpelled(us) && Meaning(us) == SEGMENTS && Blank(after) && Blank(beforeArray)
    requires At(s, i, KeyText(us, after, beforeArray))
    ensures FindArray(s, i) == Some(i + |KeyText(us, after, beforeArray)|)
  {
    var literal := Literal(us);
    AtSplit(s, i, literal + Ended(after, COLON), Ended(beforeArray, OPEN_BRACKET));
    AtSplit(s, i, literal, Ended(after, COLON));
    OpensKeyAt(s, i, us, after, beforeArray, i + |literal|, i + |literal| + |after|);
  }

  lemma OpensKey(us: seq<Spelling>, after: Text, beforeArray: Text)
    requires WellSpelled(us) && Meaning(us) == SEGMENTS && Blank(after) && Blank(beforeArray)
    ensures OpensArray(KeyText(us, after, beforeArray))
  {
    var text := KeyText(us, after, beforeArray);
    forall s: Text, i: nat | At(s, i, text) ensures FindArray(s, i) == Some(i + |text|) {
      OpensKeyText(s, i, us, after, beforeArray);
    }
  }

  lemma OpensHead(r: Reply)
    requires ValidReply(r)
    ensures OpensArray(HeadText(r))
  {
    OpensKey(r.key, r.afterKey, r.beforeArray);
    PassedPlain(r.beforeKey);
    OpensAfter(r.beforeKey, KeyText(r.key, r.afterKey, r.beforeArray));
  }

  /** The element loop at a string it has read and the mark after it. */
  lemma ElementAt(s: Text, i: nat, j: nat, d: nat)
    requires i <= |s| && j == SkipWhitespace(s, i) && j < |s| && s[j] == QUOTE
    requires ScanString(s, j + 1).Scanned?
    requires d == SkipWhitespace(s, ScanString(s, j + 1).end) && d < |s| && (s[d] == COMMA || s[d] == CLOSE_BRACKET)
    ensures var value := ScanString(s, j + 1).value;
            ReadElement(s, i) == if s[d] == COMMA then More(value, d + 1) else Last(value)
  {
  }

  lemma ReadsItem(s: Text, i: nat, e: Item, mark: Code)
    requires ValidItem(e) && (mark == COMMA || mark == CLOSE_BRACKET)
    requires At(s, i, ItemText(e, mark))
    ensures ReadElement(s, i) ==
            (if mark == COMMA then More(Meaning(e.literal), i + |ItemText(e, mark)|) else Last(Meaning(e.literal)))
  {
    var literal := Literal(e.literal);
    AtSplit(s, i, e.before, literal + Ended(e.after, mark));
    AtSplit(s, i + |e.before|, literal, Ended(e.after, mark));
    ReadsParts(s, i, e, mark);
  }

  lemma ReadsParts(s: Text, i: nat, e: Item, mark: Code)
    requires ValidItem(e) && (mark == COMMA || mark == CLOSE_BRACKET)
    requires At(s, i, e.before) && At(s, i + |e.before|, Literal(e.literal))
    requires At(s, i + |e.before| + |Literal(e.literal)|, Ended(e.after, mark))
    ensures var end := i + |e.before| + |Literal(e.literal)| + |e.after|;
            ReadElement(s, i) == if mark == COMMA then More(Meaning(e.literal), end + 1) else Last(Meaning(e.literal))
  {
    var j := i + |e.before|;
    var end := j + |Literal(e.literal)|;
    SkipsToLiteral(s, i, e.before, e.literal);
    SkipsTo(s, end, e.after, mark);
    ReadsLiteral(s, i, j, e.literal, end + |e.after|);
  }

  lemma SkipsToLiteral(s: Text, i: nat, before: Text, us: seq<Spelling>)
    requires Blank(before) && At(s, i, before) && At(s, i + |before|, Literal(us))
    ensures SkipWhitespace(s, i) == i + |before|
  {
    assert Literal(us)[0] == QUOTE;
    AtFirst(s, i + |before|, Literal(us));
    SkipsBlank(s, i, before);
  }

  lemma ReadsLiteral(s: Text, i: nat, j: nat, us: seq<Spelling>, d: nat)
    requires WellSpelled(us) && i <= |s| && j == SkipWhitespace(s, i) && At(s, j, Literal(us))
    requires d == SkipWhitespace(s, j + |Literal(us)|) && d < |s| && (s[d] == COMMA || s[d] == CLOSE_BRACKET)
    ensures ReadElement(s, i) == if s[d] == COMMA then More(Meaning(us), d + 1) else Last(Meaning(us))
  {
    ScanLiteral(s, j, us);
    ElementAt(s, i, j, d);
  }

  /** `first` before what the rest of the array reads as. */
  function Before(first: seq<Text>, rest: Parsed): Parsed { Parsed(first + rest.segments, rest.badDelimiter) }

  /** Wherever `t` stands, its elements are `first` and then whatever is read from its end on. */
  ghost predicate Continues(t: Text, first: seq<Text>) {
    forall s: Text, i: nat :: At(s, i, t) ==> Elements(s, i) == Before(first, Elements(s, i + |t|))
  }

  lemma ContinuesAt(s: Text, i: nat, t: Text, first: seq<Text>, end: nat)
    requires Continues(t, first) && At(s, i, t) && end == i + |t|
    ensures Elements(s, i) == Before(first, Elements(s, end))
  {
  }

  lemma ItemContinuesAt(s: Text, i: nat, e: Item, next: nat)
    requires ValidItem(e) && At(s, i, ItemText(e, COMMA)) && next == i + |ItemText(e, COMMA)|
    ensures Elements(s, i) == Before([Meaning(e.literal)], Elements(s, next))
  {
    ReadsItem(s, i, e, COMMA);
  }

  lemma ItemContinues(e: Item)
    requires ValidItem(e)
    ensures Continues(ItemText(e, COMMA), [Meaning(e.literal)])
  {
    var t := ItemText(e, COMMA);
    forall s: Text, i: nat | At(s, i, t)
      ensures Elements(s, i) == Before([Meaning(e.literal)], Elements(s, i + |t|))
    {
      ItemContinuesAt(s, i, e, i + |t|);
    }
  }

  lemma BeforeBoth(first: seq<Text>, second: seq<Text>, all: Parsed, later: Parsed, rest: Parsed)
    requires all == Before(first, later) && later == Before(second, rest)
    ensures all == Before(first + second, rest)
  {
    assert first + (second + rest.segments) == first + second + rest.segments;
  }

  lemma ContinuesBothAt(s: Text, i: nat, a: Text, b: Text, first: seq<Text>, second: seq<Text>, end: nat)
    requires Continues(a, first) && Continues(b, second)
    requires At(s, i, a) && At(s, i + |a|, b) && end == i + |a| + |b|
    ensures Elements(s, i) == Before(first + second, Elements(s, end))
  {
    ContinuesAt(s, i, a, first, i + |a|);
    ContinuesAt(s, i + |a|, b, second, end);
    BeforeBoth(first, second, Elements(s, i), Elements(s, i + |a|), Elements(s, end));
  }

  lemma ContinuesBoth(a: Text, b: Text, first: seq<Text>, second: seq<Text>)
    requires Continues(a, first) && Continues(b, second)
    ensures Continues(a + b, first + second)
  {
    var t := a + b;
    forall s: Text, i: nat | At(s, i, t) ensures Elements(s, i) == Before(first + second, Elements(s, i + |t|)) {
      AtSplit(s, i, a, b);
      ContinuesBothAt(s, i, a, b, first, second, i + |t|);
    }
  }

  lemma ListsAfter(a: Text, b: Text, first: seq<Text>, second: seq<Text>)
    requires Continues(a, first) && Lists(b, second)
    ensures Lists(a + b, first + second)
  {
    forall s: Text, i: nat | At(s, i, a + b) ensures Elements(s, i) == Parsed(first + second, false) {
      AtSplit(s, i, a, b);
      ContinuesAt(s, i, a, first, i + |a|);
    }
  }

  lemma NoItems(blank: Text)
    requires Blank(blank)
    ensures Lists(Ended(blank, CLOSE_BRACKET), [])
  {
    var t := Ended(blank, CLOSE_BRACKET);
    forall s: Text, i: nat | At(s, i, t) ensures Elements(s, i) == Parsed([], false) {
      SkipsTo(s, i, blank, CLOSE_BRACKET);
    }
  }

  lemma LastItem(e: Item)
    requires ValidItem(e)
    ensures Lists(ItemText(e, CLOSE_BRACKET), [Meaning(e.literal)])
  {
    var t := ItemText(e, CLOSE_BRACKET);
    forall s: Text, i: nat | At(s, i, t) ensures Elements(s, i) == Parsed([Meaning(e.literal)], false) {
      ReadsItem(s, i, e, CLOSE_BRACKET);
    }
  }

  lemma {:induction false} ListsItems(es: seq<Item>, blank: Text)
    requires (forall k :: 0 <= k < |es| ==> ValidItem(es[k])) && Blank(blank)
    ensures Lists(ItemsText(es, blank), Segments(es))
    decreases |es|
  {
    if es == [] {
      NoItems(blank);
    } else if |es| == 1 {
      LastItem(es[0]);
      assert Segments(es[1..]) == [];
    } else {
      ItemContinues(es[0]);
      ListsItems(es[1..], blank);
      ListsAfter(ItemText(es[0], COMMA), ItemsText(es[1..], blank), [Meaning(es[0].literal)], Segments(es[1..]));
    }
  }

  lemma ParsesParts(opening: Text, list: Text, tail: Text, segments: seq<Text>)
    requires OpensArray(opening) && Lists(list, segments)
    ensures ParseText(opening + (list + tail)) == Parsed(segments, false)
  {
    var s := opening + (list + tail);
    assert At(s, 0, s);
    AtSplit(s, 0, opening, list + tail);
    AtSplit(s, |opening|, list, tail);
  }

  /** The whole text parses to exactly the segments it prints. */
  lemma ParsesReply(r: Reply)
    requires ValidReply(r)
    ensures ParseText(ReplyText(r)) == Parsed(Segments(r.items), false)
  {
    var fields, head, list := FieldsText(r.fields), HeadText(r), ItemsText(r.items, r.blank);
    PassedPlain(r.lead);
    PassedFields(r.fields);
    OpensHead(r);
    OpensAfter(fields, head);
    OpensAfter(r.lead, fields + head);
    ListsItems(r.items, r.blank);
    ParsesParts(r.lead + (fields + head), list, r.tail, Segments(r.items));
  }

  /** Streaming round trip: for every printed reply and every way of cutting its text into
      chunks, the calls of `feed` together return exactly its segments, in order, each once. */
  lemma StreamingRoundTrip(r: Reply, chunks: seq<Text>)
    requires ValidReply(r) && Whole(chunks) == ReplyText(r)
    ensures Emitted(chunks) == Segments(r.items)
  {
    ParsesReply(r);
    EmittedIsLongestParse(chunks);
    var bs := Buffers(chunks);
    var k :| 0 <= k < |bs| && Emitted(chunks) == Parse(bs[k]);
    BuffersGrow(chunks, k);
    PrefixLaw(bs[k], Whole(chunks));
    assert Parse(bs[|chunks|]) <= Emitted(chunks);
  }

  /** Every list of segments has a printed reply, so the round trip is about every list. */
  lemma {:induction false} EveryListIsPrintable(segments: seq<Text>) returns (items: seq<Item>)
    ensures forall k :: 0 <= k < |items| ==> ValidItem(items[k])
    ensures Segments(items) == segments
  {
    items := [];
    if segments != [] {
      var rest := EveryListIsPrintable(segments[1..]);
      items := [Item([], Spell(segments[0]), [])] + rest;
      assert items[1..] == rest;
    }
  }

  // ------------------------------------------------------------ stream events to chunks

  /** What `ainvoke_streaming` feeds for an event whose content is `content`, and the text it
      then holds (`_stream_text_delta`). */
  function Delta(previous: Text, content: Text): (Text, Text) {
    if previous <= content then (content[|previous|..], content) else (content, previous + content)
  }

  /** The deltas fed for a run of events, and the text held at the end. */
  function Deltas(events: seq<Text>): (seq<Text>, Text) {
    if events == [] then ([], [])
    else
      var (chunks, held) := Deltas(events[..|events| - 1]);
      var (delta, now) := Delta(held, events[|events| - 1]);
      (chunks + [delta], now)
  }

  /** Whatever the events, the chunks fed add up to the text held. */
  lemma {:induction false} DeltasAddUp(events: seq<Text>)
    ensures Whole(Deltas(events).0) == Deltas(events).1
  {
    if events != [] {
      var front := events[..|events| - 1];
      DeltasAddUp(front);
      var (chunks, held) := Deltas(front);
      var (delta, now) := Delta(held, events[|events| - 1]);
      assert (chunks + [delta])[..|chunks|] == chunks;
      assert now == held + delta;
    }
  }

  /** Each event repeats all the text so far and adds to it. */
  predicate Cumulative(events: seq<Text>) {
    forall k :: 0 <= k < |events| - 1 ==> events[k] <= events[k + 1]
  }

  lemma {:induction false} CumulativeHoldsLast(events: seq<Text>)
    requires Cumulative(events) && events != []
    ensures Deltas(events).1 == events[|events| - 1]
  {
    var front := events[..|events| - 1];
    if front != [] {
      CumulativeHoldsLast(front);
      assert events[|events| - 2] <= events[|events| - 2 + 1];
    }
  }

  /** Events that repeat a growing reply text yield its segments, whatever the cuts. */
  lemma CumulativeEventsRoundTrip(r: Reply, events: seq<Text>)
    requires ValidReply(r) && Cumulative(events) && events != []
    requires events[|events| - 1] == ReplyText(r)
    ensures Emitted(Deltas(events).0) == Segments(r.items)
  {
    CumulativeHoldsLast(events);
    DeltasAddUp(events);
    StreamingRoundTrip(r, Deltas(events).0);
  }

  /** No event after text has begun starts with the whole text before it. */
  predicate NeverRepeats(events: seq<Text>)
    decreases |events|
  {
    events != [] ==>
      var front := events[..|events| - 1];
      NeverRepeats(front) && (Whole(front) == [] || !(Whole(front) <= events[|events| - 1]))
  }

  /** Events that each carry only new text are held as their concatenation exactly when none
      of them happens to begin with everything before it; otherwise text is lost. */
  lemma {:induction false} IncrementalIff(events: seq<Text>)
    ensures Deltas(events).1 == Whole(events) <==> NeverRepeats(events)
    ensures !NeverRepeats(events) ==> |Deltas(events).1| < |Whole(events)|
    decreases |events|
  {
    if events != [] {
      IncrementalIff(events[..|events| - 1]);
    }
  }

  /** It does happen: of two events, the second beginning with the first, the repetition is lost. */
  lemma RepeatedStartIsLost(first: Text, rest: Text)
    requires first != []
    ensures var events := [first, first + rest];
            && !NeverRepeats(events) && Deltas(events).1 == first + rest
            && Whole(events) == first + (first + rest)
  {
    var events := [first, first + rest];
    var one := [first];
    assert events[..1] == one && one[..0] == [];
    assert Deltas([]) == ([], []) && [] + first == first;
    assert Deltas(one).1 == first;
    assert Whole([]) == [] && Whole(one) == first;
  }
}
