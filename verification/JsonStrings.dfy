/**
  JSON string literals (section 7 of RFC 8259): the strict decoder the reply stream parser calls on
  each literal, and that it reads exactly the literals the standard allows, as what they stand for.
*/
module JsonStrings {
  import opened Options
  import opened Texts
  import opened JsonPrinting

  const QUOTE: Code := '"' as int
  const BACKSLASH: Code := '\\' as int
  const LOWER_U: Code := 'u' as int
  const COMMA: Code := ',' as int
  const COLON: Code := ':' as int
  const OPEN_BRACKET: Code := '[' as int
  const CLOSE_BRACKET: Code := ']' as int

  // ---------------------------------------------------------------- decoding

  function HexDigit(c: Code): (r: Option<nat>)
    ensures r.Some? ==> r.value < 16
  {
    if '0' as int <= c <= '9' as int then Some(c - '0' as int)
    else if 'a' as int <= c <= 'f' as int then Some(c - 'a' as int + 10)
    else if 'A' as int <= c <= 'F' as int then Some(c - 'A' as int + 10)
    else None
  }

  function HexValue(w: Code, x: Code, y: Code, z: Code): (r: Option<Code>)
    ensures r.Some? ==> r.value < 0x10000
  {
    match (HexDigit(w), HexDigit(x), HexDigit(y), HexDigit(z))
    case (Some(a), Some(b), Some(c), Some(d)) => Some(4096 * a + 256 * b + 16 * c + d)
    case _ => None
  }

  function ShortEscape(e: Code): Option<Code> {
    if e == QUOTE || e == BACKSLASH || e == '/' as int then Some(e)
    else if e == 'b' as int then Some(8)
    else if e == 'f' as int then Some(12)
    else if e == 'n' as int then Some(10)
    else if e == 'r' as int then Some(13)
    else if e == 't' as int then Some(9)
    else None
  }

  predicate IsHigh(c: Code) { 0xD800 <= c <= 0xDBFF }
  predicate IsLow(c: Code) { 0xDC00 <= c <= 0xDFFF }

  function Join(high: Code, low: Code): Code
    requires IsHigh(high) && IsLow(low)
  {
    0x10000 + 1024 * (high - 0xD800) + (low - 0xDC00)
  }

  datatype Read = Read(code: Code, next: nat) | Bad

  /** The four hexadecimal digits expected at `k`. */
  function ReadHex4(s: Text, k: nat): Option<Code> {
    if k + 4 <= |s| then HexValue(s[k], s[k + 1], s[k + 2], s[k + 3]) else None
  }

  /** One character of a literal: a plain one or an escape, at `i`. */
  function ReadCharacter(s: Text, i: nat): (r: Read)
    requires i < |s|
    ensures r.Read? ==> i < r.next <= |s|
  {
    if s[i] != BACKSLASH then
      if s[i] < 0x20 then Bad else Read(s[i], i + 1)
    else if i + 1 >= |s| then Bad
    else if s[i + 1] != LOWER_U then
      match ShortEscape(s[i + 1])
      case Some(c) => Read(c, i + 2)
      case None => Bad
    else
      match ReadHex4(s, i + 2)
      case None => Bad
      case Some(c) =>
        if IsHigh(c) && i + 7 < |s| && s[i + 6] == BACKSLASH && s[i + 7] == LOWER_U then
          match ReadHex4(s, i + 8)
          case None => Bad
          case Some(d) => if IsLow(d) then Read(Join(c, d), i + 12) else Read(c, i + 6)
        else Read(c, i + 6)
  }

  datatype Scan = Scanned(value: Text, end: nat) | ScanError

  /** The decoder, started just after the opening quote at position `i`. */
  function ScanString(s: Text, i: nat): (r: Scan)
    requires i <= |s|
    ensures r.Scanned? ==> i < r.end <= |s| && s[r.end - 1] == QUOTE
    decreases |s| - i
  {
    if i == |s| then ScanError
    else if s[i] == QUOTE then Scanned([], i + 1)
    else
      match ReadCharacter(s, i)
      case Bad => ScanError
      case Read(c, next) =>
        match ScanString(s, next)
        case ScanError => ScanError
        case Scanned(rest, end) => Scanned([c] + rest, end)
  }

  /** A literal that is complete in a buffer reads the same however the buffer grows. */
  lemma {:induction false} ScanStable(p: Text, q: Text, i: nat)
    requires p <= q && i <= |p|
    requires ScanString(p, i).Scanned?
    ensures ScanString(q, i) == ScanString(p, i)
    decreases |p| - i
  {
    if p[i] != QUOTE {
      var r := ReadCharacter(p, i);
      ScanStable(p, q, r.next);
      ReadStable(p, q, i);
    }
  }

  lemma ReadStable(p: Text, q: Text, i: nat)
    requires p <= q && i < |p|
    requires ReadCharacter(p, i).Read?
    requires ScanString(p, ReadCharacter(p, i).next).Scanned?
    ensures ReadCharacter(q, i) == ReadCharacter(p, i)
  {
    if p[i] == BACKSLASH && p[i + 1] == LOWER_U {
      var n := ReadCharacter(p, i).next;
      // the literal goes on after the escape, so the two next characters are decided
      assert n < |p| && (p[n] == BACKSLASH ==> n + 1 < |p|) by {
        if p[n] == BACKSLASH {
          assert ReadCharacter(p, n).Read?;
        }
      }
      EscapeStable(p, q, i);
    }
  }

  lemma EscapeStable(p: Text, q: Text, i: nat)
    requires p <= q && i + 1 < |p| && p[i] == BACKSLASH && p[i + 1] == LOWER_U
    requires ReadCharacter(p, i).Read?
    requires var n := ReadCharacter(p, i).next; n < |p| && (p[n] == BACKSLASH ==> n + 1 < |p|)
    ensures ReadCharacter(q, i) == ReadCharacter(p, i)
  {
  }

  // --------------------------------------------------------- decoding undoes printing

  lemma HexDigitOfLetter(n: int, upper: bool)
    requires 0 <= n < 16
    ensures HexDigit(HexLetter(n, upper)) == Some(n)
  {
  }

  lemma HexValueOfText(c: Code, u: Capitals)
    requires c < 0x10000
    ensures var t := HexText(c, u); HexValue(t[0], t[1], t[2], t[3]) == Some(c)
  {
    HexDigitOfLetter(c / 16 / 16 / 16, u.a);
    HexDigitOfLetter(c / 16 / 16 % 16, u.b);
    HexDigitOfLetter(c / 16 % 16, u.c);
    HexDigitOfLetter(c % 16, u.d);
  }

  lemma JoinOfHalves(c: Code)
    requires c >= 0x10000
    ensures IsHigh(HighHalf(c)) && IsLow(LowHalf(c)) && Join(HighHalf(c), LowHalf(c)) == c
  {
  }

  /** Where a low half escaped at `n` would be joined to a high half before it. */
  predicate LowEscapeAt(s: Text, n: nat) {
    n + 1 < |s| && s[n] == BACKSLASH && s[n + 1] == LOWER_U &&
    (ReadHex4(s, n + 2).None? || IsLow(ReadHex4(s, n + 2).value))
  }

  lemma ReadEscaped(s: Text, i: nat, c: Code, u: Capitals)
    requires c < 0x10000 && At(s, i, EscapeText(c, u))
    ensures i + 6 <= |s| && s[i] == BACKSLASH && s[i + 1] == LOWER_U
    ensures ReadHex4(s, i + 2) == Some(c)
  {
    var t := EscapeText(c, u);
    assert s[i + 0] == t[0] && s[i + 1] == t[1];
    assert s[i + 2] == t[2] && s[i + 3] == t[3] && s[i + 4] == t[4] && s[i + 5] == t[5];
    HexValueOfText(c, u);
  }

  lemma ReadOne(s: Text, i: nat, u: Spelling)
    requires ValidSpelling(u) && At(s, i, SpelledText(u))
    requires LoneHigh(u) ==> !LowEscapeAt(s, i + |SpelledText(u)|)
    ensures i < |s| && s[i] != QUOTE
    ensures ReadCharacter(s, i) == Read(u.code, i + |SpelledText(u)|)
  {
    match u
    case Plain(c) => assert s[i + 0] == SpelledText(u)[0];
    case Short(c) => assert s[i + 0] == SpelledText(u)[0] && s[i + 1] == SpelledText(u)[1];
    case Escaped(c, v) => ReadEscaped(s, i, c, v);
    case Paired(c, high, low) => ReadPair(s, i, c, high, low);
  }

  lemma ReadPair(s: Text, i: nat, c: Code, high: Capitals, low: Capitals)
    requires c >= 0x10000 && At(s, i, SpelledText(Paired(c, high, low)))
    ensures i < |s| && s[i] == BACKSLASH
    ensures ReadCharacter(s, i) == Read(c, i + 12)
  {
    AtSplit(s, i, EscapeText(HighHalf(c), high), EscapeText(LowHalf(c), low));
    ReadEscaped(s, i, HighHalf(c), high);
    ReadEscaped(s, i + 6, LowHalf(c), low);
    JoinOfHalves(c);
  }

  /** A spelled character that is not a low half is not read as a low escape. */
  lemma NotLowEscape(s: Text, n: nat, v: Spelling)
    requires ValidSpelling(v) && !LoneLow(v) && At(s, n, SpelledText(v))
    ensures !LowEscapeAt(s, n)
  {
    match v
    case Plain(c) => assert s[n + 0] == SpelledText(v)[0];
    case Short(c) => assert s[n + 0] == SpelledText(v)[0] && s[n + 1] == SpelledText(v)[1];
    case Escaped(c, u) => ReadEscaped(s, n, c, u);
    case Paired(c, high, low) =>
      AtSplit(s, n, EscapeText(HighHalf(c), high), EscapeText(LowHalf(c), low));
      ReadEscaped(s, n, HighHalf(c), high);
      JoinOfHalves(c);
  }

  lemma NextIsNotLow(s: Text, n: nat, us: seq<Spelling>)
    requires us != [] && WellSpelled(us) && LoneHigh(us[0])
    requires At(s, n, Closed(us[1..]))
    ensures !LowEscapeAt(s, n)
  {
    var rest := us[1..];
    if rest == [] {
      AtFirst(s, n, [QUOTATION_MARK]);
    } else {
      assert !(LoneHigh(us[0]) && LoneLow(us[0 + 1]));
      BodySplit(s, n, rest);
      NotLowEscape(s, n, rest[0]);
    }
  }

  lemma WellSpelledTail(us: seq<Spelling>)
    requires us != [] && WellSpelled(us)
    ensures ValidSpelling(us[0]) && WellSpelled(us[1..])
  {
    forall k | 0 <= k < |us| - 2 ensures !(LoneHigh(us[1..][k]) && LoneLow(us[1..][k + 1])) {
      assert !(LoneHigh(us[k + 1]) && LoneLow(us[k + 1 + 1]));
    }
  }

  /** The body of a literal, taken apart after its first character. */
  lemma BodySplit(s: Text, i: nat, us: seq<Spelling>)
    requires us != [] && At(s, i, Closed(us))
    ensures At(s, i, SpelledText(us[0]))
    ensures At(s, i + |SpelledText(us[0])|, Closed(us[1..]))
  {
    AtSplit(s, i, SpelledText(us[0]), Closed(us[1..]));
  }

  lemma ReadFirst(s: Text, i: nat, us: seq<Spelling>)
    requires us != [] && WellSpelled(us) && At(s, i, Closed(us))
    ensures i < |s| && s[i] != QUOTE
    ensures ReadCharacter(s, i) == Read(us[0].code, i + |SpelledText(us[0])|)
  {
    BodySplit(s, i, us);
    if LoneHigh(us[0]) {
      NextIsNotLow(s, i + |SpelledText(us[0])|, us);
    }
    ReadOne(s, i, us[0]);
  }

  /** Decoding undoes spelling, wherever the literal stands. */
  lemma {:induction false} ScanSpelled(s: Text, i: nat, us: seq<Spelling>)
    requires WellSpelled(us)
    requires At(s, i, Closed(us))
    ensures ScanString(s, i) == Scanned(Meaning(us), i + |Closed(us)|)
    decreases |us|
  {
    if us == [] {
      AtFirst(s, i, [QUOTATION_MARK]);
    } else {
      var n := i + |SpelledText(us[0])|;
      BodySplit(s, i, us);
      WellSpelledTail(us);
      ScanSpelled(s, n, us[1..]);
      ScanAfterFirst(s, i, us, n);
    }
  }

  lemma ScanAfterFirst(s: Text, i: nat, us: seq<Spelling>, n: nat)
    requires us != [] && WellSpelled(us) && At(s, i, Closed(us)) && n == i + |SpelledText(us[0])| && n <= |s|
    requires ScanString(s, n) == Scanned(Meaning(us[1..]), n + |Closed(us[1..])|)
    ensures ScanString(s, i) == Scanned(Meaning(us), i + |Closed(us)|)
  {
    ReadFirst(s, i, us);
    ScanOneMore(s, i, us[0].code, n, Meaning(us[1..]), n + |Closed(us[1..])|);
    assert Meaning(us) == [us[0].code] + Meaning(us[1..]);
  }

  lemma ScanOneMore(s: Text, i: nat, c: Code, next: nat, rest: Text, end: nat)
    requires i < |s| && s[i] != QUOTE && ReadCharacter(s, i) == Read(c, next)
    requires next <= |s| && ScanString(s, next) == Scanned(rest, end)
    ensures ScanString(s, i) == Scanned([c] + rest, end)
  {
  }

  /** A literal between its quotes. */
  lemma ScanLiteral(s: Text, i: nat, us: seq<Spelling>)
    requires WellSpelled(us)
    requires At(s, i, Literal(us))
    ensures i < |s| && s[i] == QUOTE
    ensures var scan := ScanString(s, i + 1);
            scan.Scanned? && scan.value == Meaning(us) && scan.end == i + |Literal(us)|
  {
    AtSplit(s, i, [QUOTATION_MARK], Closed(us));
    AtFirst(s, i, [QUOTATION_MARK]);
    ScanSpelled(s, i + 1, us);
  }

  // ------------------------------------------------------ only literals are decoded

  /** The capitals a hexadecimal digit was written with. */
  predicate IsCapital(c: Code) { 0x41 <= c <= 0x46 }

  lemma LetterOfHexDigit(c: Code)
    requires HexDigit(c).Some?
    ensures HexLetter(HexDigit(c).value, IsCapital(c)) == c
  {
  }

  /** Four characters read as a number are a printing of that number. */
  lemma TextOfHexValue(s: Text, k: nat) returns (u: Capitals)
    requires ReadHex4(s, k).Some?
    ensures At(s, k, HexText(ReadHex4(s, k).value, u))
  {
    u := Capitals(IsCapital(s[k]), IsCapital(s[k + 1]), IsCapital(s[k + 2]), IsCapital(s[k + 3]));
    LetterOfHexDigit(s[k]);
    LetterOfHexDigit(s[k + 1]);
    LetterOfHexDigit(s[k + 2]);
    LetterOfHexDigit(s[k + 3]);
    HexDigits(HexDigit(s[k]).value, HexDigit(s[k + 1]).value, HexDigit(s[k + 2]).value, HexDigit(s[k + 3]).value);
  }

  lemma HexDigits(a: nat, b: nat, c: nat, d: nat)
    requires a < 16 && b < 16 && c < 16 && d < 16
    ensures var n := 4096 * a + 256 * b + 16 * c + d;
            n / 16 / 16 / 16 == a && n / 16 / 16 % 16 == b && n / 16 % 16 == c && n % 16 == d
  {
    var n := 4096 * a + 256 * b + 16 * c + d;
    assert n / 16 == 256 * a + 16 * b + c;
    assert n / 16 / 16 == 16 * a + b;
  }

  lemma EscapeRead(s: Text, i: nat) returns (u: Capitals)
    requires i + 1 < |s| && s[i] == BACKSLASH && s[i + 1] == LOWER_U && ReadHex4(s, i + 2).Some?
    ensures At(s, i, EscapeText(ReadHex4(s, i + 2).value, u))
  {
    u := TextOfHexValue(s, i + 2);
    var hex := HexText(ReadHex4(s, i + 2).value, u);
    forall k | 0 <= k < 6 ensures s[i + k] == ([REVERSE_SOLIDUS, 0x75] + hex)[k] {
      assert k >= 2 ==> s[i + 2 + (k - 2)] == hex[k - 2];
    }
  }

  lemma HalvesOfJoin(high: Code, low: Code)
    requires IsHigh(high) && IsLow(low)
    ensures var c := Join(high, low); c >= 0x10000 && HighHalf(c) == high && LowHalf(c) == low
  {
  }

  lemma AtJoin(s: Text, i: nat, a: Text, b: Text)
    requires At(s, i, a) && At(s, i + |a|, b)
    ensures At(s, i, a + b)
  {
    forall k | 0 <= k < |a + b| ensures s[i + k] == (a + b)[k] {
      assert k >= |a| ==> s[i + |a| + (k - |a|)] == b[k - |a|];
    }
  }

  /** A character that is read is a printed one, and a lone high half is not followed by an escaped
      low one. */
  lemma CharacterRead(s: Text, i: nat) returns (u: Spelling)
    requires i < |s| && s[i] != QUOTE && ReadCharacter(s, i).Read?
    ensures ValidSpelling(u) && At(s, i, SpelledText(u))
    ensures ReadCharacter(s, i) == Read(u.code, i + |SpelledText(u)|)
    ensures LoneHigh(u) ==> !LowEscapeAt(s, i + |SpelledText(u)|)
  {
    var c := ReadCharacter(s, i).code;
    if s[i] != BACKSLASH {
      u := Plain(c);
    } else if s[i + 1] != LOWER_U {
      u := Short(c);
    } else if ReadCharacter(s, i).next == i + 12 {
      u := PairRead(s, i);
    } else {
      var v := EscapeRead(s, i);
      u := Escaped(c, v);
    }
  }

  lemma PairRead(s: Text, i: nat) returns (u: Spelling)
    requires i + 1 < |s| && s[i] == BACKSLASH && s[i + 1] == LOWER_U
    requires ReadCharacter(s, i).Read? && ReadCharacter(s, i).next == i + 12
    ensures u.Paired? && ValidSpelling(u) && At(s, i, SpelledText(u)) && u.code == ReadCharacter(s, i).code
  {
    var c := ReadCharacter(s, i).code;
    var high := EscapeRead(s, i);
    var low := EscapeRead(s, i + 6);
    HalvesOfJoin(ReadHex4(s, i + 2).value, ReadHex4(s, i + 8).value);
    AtJoin(s, i, EscapeText(HighHalf(c), high), EscapeText(LowHalf(c), low));
    u := Paired(c, high, low);
  }

  /** The decoder accepts nothing but literals: whatever it reads is a printing of what it returns. */
  lemma {:induction false} ScanSound(s: Text, i: nat) returns (us: seq<Spelling>)
    requires i <= |s| && ScanString(s, i).Scanned?
    ensures WellSpelled(us) && At(s, i, Closed(us))
    ensures ScanString(s, i) == Scanned(Meaning(us), i + |Closed(us)|)
    decreases |s| - i
  {
    if s[i] == QUOTE {
      us := [];
    } else {
      var u := CharacterRead(s, i);
      var n := i + |SpelledText(u)|;
      var rest := ScanSound(s, n);
      us := [u] + rest;
      NotLowAfterHigh(s, n, u, rest);
      PrintedBefore(s, i, u, rest, us);
      ScanOneMore(s, i, u.code, n, Meaning(rest), n + |Closed(rest)|);
    }
  }

  lemma PrintedBefore(s: Text, i: nat, u: Spelling, rest: seq<Spelling>, us: seq<Spelling>)
    requires At(s, i, SpelledText(u)) && At(s, i + |SpelledText(u)|, Closed(rest)) && us == [u] + rest
    ensures At(s, i, Closed(us)) && |Closed(us)| == |SpelledText(u)| + |Closed(rest)|
    ensures Meaning(us) == [u.code] + Meaning(rest)
  {
    assert us[1..] == rest;
    AtJoin(s, i, SpelledText(u), Closed(rest));
  }

  lemma NotLowAfterHigh(s: Text, n: nat, u: Spelling, rest: seq<Spelling>)
    requires ValidSpelling(u) && WellSpelled(rest) && At(s, n, Closed(rest)) && (LoneHigh(u) ==> !LowEscapeAt(s, n))
    ensures WellSpelled([u] + rest)
  {
    var us := [u] + rest;
    if rest != [] && LoneHigh(u) && LoneLow(rest[0]) {
      BodySplit(s, n, rest);
      ReadEscaped(s, n, rest[0].code, rest[0].u);
      assert false;
    }
    forall k | 0 <= k < |us| - 1 ensures !(LoneHigh(us[k]) && LoneLow(us[k + 1])) {
      assert k > 0 ==> us[k] == rest[k - 1] && us[k + 1] == rest[k - 1 + 1];
    }
  }

  /** The decoder reads a string at `i` exactly if a literal of it stands there. */
  lemma ScannedIff(s: Text, i: nat, value: Text, end: nat)
    requires i <= |s|
    ensures ScanString(s, i) == Scanned(value, end)
            <==> exists us :: WellSpelled(us) && At(s, i, Closed(us)) && Meaning(us) == value && end == i + |Closed(us)|
  {
    if ScanString(s, i) == Scanned(value, end) {
      var us := ScanSound(s, i);
    }
    forall us | WellSpelled(us) && At(s, i, Closed(us)) && Meaning(us) == value && end == i + |Closed(us)|
      ensures ScanString(s, i) == Scanned(value, end)
    {
      ScanSpelled(s, i, us);
    }
  }
}
