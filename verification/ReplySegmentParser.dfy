/**
  The incremental reply-segment parser (coke/llm/agno_interaction_agent.py): the scanning
  loops, the `feed` method, and what they do for every text and every way of cutting it up.
*/
module ReplySegmentParser {
  import opened Options
  import opened JsonStrings
  import opened Texts

  const SEGMENTS: Text := ['s' as int, 'e' as int, 'g' as int, 'm' as int, 'e' as int, 'n' as int, 't' as int,
    's' as int]

  predicate IsWhitespace(c: Code) {
    c == ' ' as int || c == '\t' as int || c == '\r' as int || c == '\n' as int
  }

  /** The characters the parser looks for, by number (sections 2 and 7 of RFC 8259). */
  lemma Punctuation()
    ensures QUOTE == 0x22 && BACKSLASH == 0x5C && LOWER_U == 0x75 && COMMA == 0x2C && COLON == 0x3A
    ensures OPEN_BRACKET == 0x5B && CLOSE_BRACKET == 0x5D
    ensures SEGMENTS == [0x73, 0x65, 0x67, 0x6D, 0x65, 0x6E, 0x74, 0x73]
    ensures forall c: Code :: IsWhitespace(c) <==> c == 0x20 || c == 0x09 || c == 0x0A || c == 0x0D
  {
  }

  function SkipWhitespace(s: Text, i: nat): (r: nat)
    requires i <= |s|
    ensures i <= r <= |s|
    ensures r < |s| ==> !IsWhitespace(s[r])
    decreases |s| - i
  {
    if i < |s| && IsWhitespace(s[i]) then SkipWhitespace(s, i + 1) else i
  }

  /** Where the elements of the "segments" array start, once the text shows it. */
  function FindArray(s: Text, i: nat): (r: Option<nat>)
    requires i <= |s|
    ensures r.Some? ==> i < r.value <= |s|
    decreases |s| - i
  {
    if i == |s| then None
    else if s[i] != QUOTE then FindArray(s, i + 1)
    else
      match ScanString(s, i + 1)
      case ScanError => None
      case Scanned(value, end) =>
        var colon := SkipWhitespace(s, end);
        if value == SEGMENTS && colon < |s| && s[colon] == COLON then
          var start := SkipWhitespace(s, colon + 1);
          if start < |s| && s[start] == OPEN_BRACKET then Some(start + 1) else None
        else FindArray(s, end)
  }

  /** The complete elements read, and whether a character that is neither a comma nor a
      closing bracket stood after a string. */
  datatype Parsed = Parsed(segments: seq<Text>, badDelimiter: bool)

  /** One turn of the element loop. */
  datatype Element = Stop | BadStop | Last(value: Text) | More(value: Text, next: nat)

  function ReadElement(s: Text, i: nat): (r: Element)
    requires i <= |s|
    ensures r.More? ==> i < r.next <= |s|
  {
    var j := SkipWhitespace(s, i);
    if j == |s| || s[j] != QUOTE then Stop
    else
      match ScanString(s, j + 1)
      case ScanError => Stop
      case Scanned(value, end) =>
        var d := SkipWhitespace(s, end);
        if d == |s| || s[d] == CLOSE_BRACKET then Last(value)
        else if s[d] != COMMA then BadStop
        else More(value, d + 1)
  }

  function Elements(s: Text, i: nat): Parsed
    requires i <= |s|
    decreases |s| - i
  {
    match ReadElement(s, i)
    case Stop => Parsed([], false)
    case BadStop => Parsed([], true)
    case Last(value) => Parsed([value], false)
    case More(value, next) =>
      var rest := Elements(s, next);
      Parsed([value] + rest.segments, rest.badDelimiter)
  }

  function ParseText(s: Text): Parsed {
    match FindArray(s, 0)
    case None => Parsed([], false)
    case Some(start) => Elements(s, start)
  }

  function Parse(s: Text): seq<Text> { ParseText(s).segments }

  // ------------------------------------------------------------- the scanning loops

  method SkipJsonWhitespace(buffer: Text, start: nat) returns (index: nat)
    requires start <= |buffer|
    ensures index == SkipWhitespace(buffer, start)
  {
    index := start;
    while index < |buffer| && IsWhitespace(buffer[index])
      invariant start <= index <= |buffer|
      invariant SkipWhitespace(buffer, index) == SkipWhitespace(buffer, start)
    {
      index := index + 1;
    }
  }

  function Gather(s: Text, i: nat, done: seq<Text>): seq<Text>
    requires i <= |s|
  {
    done + Elements(s, i).segments
  }

  lemma GatherStep(s: Text, i: nat, done: seq<Text>)
    requires i <= |s|
    ensures var r := ReadElement(s, i);
            Gather(s, i, done) ==
            (if r.Stop? || r.BadStop? then done
             else if r.Last? then done + [r.value] else Gather(s, r.next, done + [r.value]))
  {
    var r := ReadElement(s, i);
    if r.More? {
      assert done + ([r.value] + Elements(s, r.next).segments) == done + [r.value] + Elements(s, r.next).segments;
    }
  }

  method CompleteStringArrayElements(buffer: Text, start: nat) returns (segments: seq<Text>)
    requires start <= |buffer|
    ensures segments == Elements(buffer, start).segments
  {
    segments := [];
    var index := start;
    while true
      invariant index <= |buffer|
      invariant Gather(buffer, index, segments) == Gather(buffer, start, [])
      decreases |buffer| - index
    {
      GatherStep(buffer, index, segments);
      index := SkipJsonWhitespace(buffer, index);
      if index >= |buffer| || buffer[index] == CLOSE_BRACKET || buffer[index] != QUOTE {
        return;
      }
      var scan := ScanString(buffer, index + 1);
      if scan.ScanError? {
        return;
      }
      var delimiter := SkipJsonWhitespace(buffer, scan.end);
      if delimiter < |buffer| && buffer[delimiter] != COMMA && buffer[delimiter] != CLOSE_BRACKET {
        return;
      }
      segments := segments + [scan.value];
      if delimiter >= |buffer| || buffer[delimiter] == CLOSE_BRACKET {
        return;
      }
      index := delimiter + 1;
    }
  }

  method CompleteReplySegmentsFromBuffer(buffer: Text) returns (segments: seq<Text>)
    ensures segments == Parse(buffer)
  {
    var index := 0;
    while index < |buffer|
      invariant index <= |buffer|
      invariant FindArray(buffer, index) == FindArray(buffer, 0)
      decreases |buffer| - index
    {
      if buffer[index] != QUOTE {
        index := index + 1;
        continue;
      }
      match ScanString(buffer, index + 1)
      case ScanError => return [];
      case Scanned(value, end) =>
        var colon := SkipJsonWhitespace(buffer, end);
        if value == SEGMENTS && colon < |buffer| && buffer[colon] == COLON {
          var arrayStart := SkipJsonWhitespace(buffer, colon + 1);
          if arrayStart >= |buffer| || buffer[arrayStart] != OPEN_BRACKET {
            return [];
          }
          segments := CompleteStringArrayElements(buffer, arrayStart + 1);
          return;
        }
        index := end;
    }
    return [];
  }

  // ------------------------------------------------------------------ the prefix law

  lemma {:induction false} SkipStable(p: Text, q: Text, i: nat)
    requires p <= q && i <= |p|
    ensures SkipWhitespace(p, i) < |p| ==> SkipWhitespace(q, i) == SkipWhitespace(p, i)
    decreases |p| - i
  {
    if i < |p| && IsWhitespace(p[i]) {
      SkipStable(p, q, i + 1);
    }
  }

  lemma {:induction false} FindStable(p: Text, q: Text, i: nat)
    requires p <= q && i <= |p|
    requires FindArray(p, i).Some?
    ensures FindArray(q, i) == FindArray(p, i)
    decreases |p| - i
  {
    if p[i] != QUOTE {
      FindStable(p, q, i + 1);
    } else {
      var end := ScanString(p, i + 1).end;
      var colon := SkipWhitespace(p, end);
      if ScanString(p, i + 1).value == SEGMENTS && colon < |p| && p[colon] == COLON {
        FindKeyStable(p, q, i);
      } else {
        ScanStable(p, q, i + 1);
        SkipStable(p, q, end);
        if colon == |p| {
          OnlyWhitespaceFindsNothing(p, end);
        }
        FindStable(p, q, end);
      }
    }
  }

  lemma FindKeyStable(p: Text, q: Text, i: nat)
    requires p <= q && i < |p| && p[i] == QUOTE && ScanString(p, i + 1).Scanned? && FindArray(p, i).Some?
    requires var colon := SkipWhitespace(p, ScanString(p, i + 1).end);
             ScanString(p, i + 1).value == SEGMENTS && colon < |p| && p[colon] == COLON
    ensures FindArray(q, i) == FindArray(p, i)
  {
    var end := ScanString(p, i + 1).end;
    ScanStable(p, q, i + 1);
    SkipStable(p, q, end);
    SkipStable(p, q, SkipWhitespace(p, end) + 1);
  }

  lemma {:induction false} OnlyWhitespaceFindsNothing(p: Text, i: nat)
    requires i <= |p| && SkipWhitespace(p, i) == |p|
    ensures FindArray(p, i).None?
    decreases |p| - i
  {
    if i < |p| {
      OnlyWhitespaceFindsNothing(p, i + 1);
    }
  }

  /** What growing a buffer can do to the elements read from it. */
  ghost predicate Grows(shorter: seq<Text>, longer: Parsed) {
    || shorter <= longer.segments
    || (longer.badDelimiter && |shorter| == |longer.segments| + 1 && longer.segments <= shorter)
  }

  /** A bigger buffer can only change a reading that reached the end of the smaller one. */
  lemma ElementStable(p: Text, q: Text, i: nat)
    requires p <= q && i <= |p|
    ensures ReadElement(p, i).More? ==> ReadElement(q, i) == ReadElement(p, i)
    ensures ReadElement(p, i).Last? ==>
              var r := ReadElement(q, i);
              r.BadStop? || ((r.Last? || r.More?) && r.value == ReadElement(p, i).value)
    ensures ReadElement(p, i).BadStop? ==> ReadElement(q, i).BadStop?
  {
    match ReadElement(p, i)
    case More(_, _) => MoreStable(p, q, i);
    case Last(_) => LastStable(p, q, i);
    case BadStop => BadStopStable(p, q, i);
    case Stop =>
  }

  /** The literal of an element that was read, in the smaller buffer and the bigger one. */
  lemma LiteralStable(p: Text, q: Text, i: nat)
    requires p <= q && i <= |p|
    requires var j := SkipWhitespace(p, i); j < |p| && p[j] == QUOTE && ScanString(p, j + 1).Scanned?
    ensures var j := SkipWhitespace(p, i);
            && SkipWhitespace(q, i) == j && ScanString(q, j + 1) == ScanString(p, j + 1)
            && var end := ScanString(p, j + 1).end;
               SkipWhitespace(p, end) < |p| ==> SkipWhitespace(q, end) == SkipWhitespace(p, end)
  {
    var j := SkipWhitespace(p, i);
    SkipStable(p, q, i);
    ScanStable(p, q, j + 1);
    SkipStable(p, q, ScanString(p, j + 1).end);
  }

  lemma MoreStable(p: Text, q: Text, i: nat)
    requires p <= q && i <= |p| && ReadElement(p, i).More?
    ensures ReadElement(q, i) == ReadElement(p, i)
  {
    LiteralStable(p, q, i);
  }

  lemma LastStable(p: Text, q: Text, i: nat)
    requires p <= q && i <= |p| && ReadElement(p, i).Last?
    ensures var r := ReadElement(q, i);
            r.BadStop? || ((r.Last? || r.More?) && r.value == ReadElement(p, i).value)
  {
    LiteralStable(p, q, i);
  }

  lemma BadStopStable(p: Text, q: Text, i: nat)
    requires p <= q && i <= |p| && ReadElement(p, i).BadStop?
    ensures ReadElement(q, i).BadStop?
  {
    LiteralStable(p, q, i);
  }

  lemma {:induction false} ElementsGrow(p: Text, q: Text, i: nat)
    requires p <= q && i <= |p|
    ensures Grows(Elements(p, i).segments, Elements(q, i))
    decreases |p| - i
  {
    ElementStable(p, q, i);
    if ReadElement(p, i).More? {
      ElementsGrow(p, q, ReadElement(p, i).next);
    }
  }

  /** The prefix law, for arbitrary text: a longer buffer keeps every element read, except
      that the last one is withdrawn when a bad delimiter follows it. */
  lemma PrefixLaw(p: Text, q: Text)
    requires p <= q
    ensures Grows(Parse(p), ParseText(q))
  {
    if FindArray(p, 0).Some? {
      FindStable(p, q, 0);
      ElementsGrow(p, q, FindArray(p, 0).value);
    }
  }

  // ------------------------------------------------------------------------- feeding

  datatype State = State(buffer: Text, emittedCount: nat)

  const INITIAL := State([], 0)

  /** One call of `feed`: the state after it and the segments it returns. */
  function FeedStep(st: State, text: Text): (State, seq<Text>) {
    if text == [] then (st, [])
    else
      var buffer := st.buffer + text;
      var segments := Parse(buffer);
      if st.emittedCount >= |segments| then (State(buffer, st.emittedCount), [])
      else (State(buffer, |segments|), segments[st.emittedCount..])
  }

  /** The buffer before the first call and after each call. */
  function Buffers(chunks: seq<Text>): (bs: seq<Text>)
    ensures |bs| == |chunks| + 1
  {
    if chunks == [] then [[]]
    else
      var bs := Buffers(chunks[..|chunks| - 1]);
      bs + [bs[|bs| - 1] + chunks[|chunks| - 1]]
  }

  /** The chunks put together. */
  function Whole(chunks: seq<Text>): Text { Buffers(chunks)[|chunks|] }

  /** The state after a sequence of calls and everything they returned, in order. */
  function FeedAll(chunks: seq<Text>): (State, seq<Text>) {
    if chunks == [] then (INITIAL, [])
    else
      var (st, out) := FeedAll(chunks[..|chunks| - 1]);
      var (st', more) := FeedStep(st, chunks[|chunks| - 1]);
      (st', out + more)
  }

  function Emitted(chunks: seq<Text>): seq<Text> { FeedAll(chunks).1 }

  /** `out` is the parse of one of the buffers, and every other parse is a prefix of it. */
  ghost predicate LongestParse(buffers: seq<Text>, out: seq<Text>) {
    && (exists k :: 0 <= k < |buffers| && out == Parse(buffers[k]))
    && (forall k :: 0 <= k < |buffers| ==> Parse(buffers[k]) <= out)
  }

  lemma {:induction false} BuffersGrow(chunks: seq<Text>, k: nat)
    requires k <= |chunks|
    ensures Buffers(chunks)[k] <= Whole(chunks)
    decreases |chunks|
  {
    if k < |chunks| {
      BuffersGrow(chunks[..|chunks| - 1], k);
    }
  }

  lemma LongestParseStep(buffers: seq<Text>, buffer: Text, out: seq<Text>)
    requires LongestParse(buffers, out)
    requires forall k :: 0 <= k < |buffers| ==> buffers[k] <= buffer
    ensures LongestParse(buffers + [buffer], if |out| < |Parse(buffer)| then Parse(buffer) else out)
    ensures |out| < |Parse(buffer)| ==> out <= Parse(buffer)
  {
    var k :| 0 <= k < |buffers| && out == Parse(buffers[k]);
    PrefixLaw(buffers[k], buffer);
    var all := buffers + [buffer];
    assert all[k] == buffers[k] && all[|buffers|] == buffer;
  }

  lemma FeedLast(chunks: seq<Text>)
    requires chunks != []
    requires FeedAll(chunks[..|chunks| - 1]).0
             == State(Whole(chunks[..|chunks| - 1]), |Emitted(chunks[..|chunks| - 1])|)
    requires LongestParse(Buffers(chunks[..|chunks| - 1]), Emitted(chunks[..|chunks| - 1]))
    ensures FeedAll(chunks).0 == State(Whole(chunks), |Emitted(chunks)|)
    ensures var out := Emitted(chunks[..|chunks| - 1]); var now := Parse(Whole(chunks));
            Emitted(chunks) == if |out| < |now| then out + now[|out|..] else out
    ensures Buffers(chunks) == Buffers(chunks[..|chunks| - 1]) + [Whole(chunks)]
  {
    var front := chunks[..|chunks| - 1];
    var text := chunks[|chunks| - 1];
    assert Parse(Buffers(front)[|front|]) <= Emitted(front);
    FeedOne(Whole(front), Emitted(front), text);
    assert text == [] ==> Whole(front) + text == Whole(front);
  }

  /** One call, seen from the buffer and everything returned before it. */
  lemma FeedOne(buffer: Text, out: seq<Text>, text: Text)
    requires |Parse(buffer)| <= |out|
    ensures var (st, more) := FeedStep(State(buffer, |out|), text); var now := Parse(buffer + text);
            && st == State(buffer + text, |out + more|)
            && out + more == if |out| < |now| then out + now[|out|..] else out
  {
    if text == [] {
      assert buffer + text == buffer;
    }
  }

  lemma EmitLast(chunks: seq<Text>)
    requires chunks != []
    requires FeedAll(chunks[..|chunks| - 1]).0
             == State(Whole(chunks[..|chunks| - 1]), |Emitted(chunks[..|chunks| - 1])|)
    requires LongestParse(Buffers(chunks[..|chunks| - 1]), Emitted(chunks[..|chunks| - 1]))
    ensures LongestParse(Buffers(chunks), Emitted(chunks))
  {
    var front := chunks[..|chunks| - 1];
    FeedLast(chunks);
    forall k | 0 <= k < |Buffers(front)| ensures Buffers(front)[k] <= Whole(chunks) {
      BuffersGrow(chunks, k);
    }
    LongestParseStep(Buffers(front), Whole(chunks), Emitted(front));
    RestCompletes(Emitted(front), Parse(Whole(chunks)));
  }

  lemma RestCompletes(out: seq<Text>, now: seq<Text>)
    ensures |out| < |now| && out <= now ==> out + now[|out|..] == now
  {
  }

  /** For arbitrary text cut anywhere: what has been emitted is the longest parse over the
      buffers fed, so no element is emitted twice and none is taken back. */
  lemma {:induction false} EmittedIsLongestParse(chunks: seq<Text>)
    ensures FeedAll(chunks).0 == State(Whole(chunks), |Emitted(chunks)|)
    ensures LongestParse(Buffers(chunks), Emitted(chunks))
  {
    if chunks == [] {
      assert Parse(Buffers(chunks)[0]) == [];
    } else {
      EmittedIsLongestParse(chunks[..|chunks| - 1]);
      FeedLast(chunks);
      EmitLast(chunks);
    }
  }

  /** The parser object. */
  class ReplySegmentStreamParser {
    var buffer: Text
    var emittedCount: nat

    function Value(): State
      reads this
    {
      State(buffer, emittedCount)
    }

    constructor ()
      ensures Value() == INITIAL
    {
      buffer := [];
      emittedCount := 0;
    }

    method Feed(text: Text) returns (segments: seq<Text>)
      modifies this
      ensures (Value(), segments) == FeedStep(old(Value()), text)
    {
      if text == [] {
        return [];
      }
      buffer := buffer + text;
      var all := CompleteReplySegmentsFromBuffer(buffer);
      if emittedCount >= |all| {
        return [];
      }
      segments := all[emittedCount..];
      emittedCount := |all|;
    }
  }
}
