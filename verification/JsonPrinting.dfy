/**
  How section 7 of RFC 8259 lets a string be written as a literal. Everything here goes from code
  points to text, by the standard's own numbers; nothing of the decoder is used.
*/
module JsonPrinting {
  import opened Options
  import opened Texts

  const QUOTATION_MARK: Code := 0x22
  const REVERSE_SOLIDUS: Code := 0x5C

  /** The letter of the two-character escape of `c`: " \ / b f n r t. */
  function ShortLetter(c: Code): Option<Code> {
    if c == 0x22 then Some(0x22)
    else if c == 0x5C then Some(0x5C)
    else if c == 0x2F then Some(0x2F)
    else if c == 0x08 then Some(0x62)
    else if c == 0x0C then Some(0x66)
    else if c == 0x0A then Some(0x6E)
    else if c == 0x0D then Some(0x72)
    else if c == 0x09 then Some(0x74)
    else None
  }

  function HexLetter(n: int, upper: bool): Code
    requires 0 <= n < 16
  {
    if n < 10 then 0x30 + n else if upper then 0x41 + (n - 10) else 0x61 + (n - 10)
  }

  /** Which of four hexadecimal digits are written with a capital letter. */
  datatype Capitals = Capitals(a: bool, b: bool, c: bool, d: bool)

  /** Four hexadecimal digits, by division. */
  function HexText(c: Code, u: Capitals): (t: Text)
    requires c < 0x10000
    ensures |t| == 4
  {
    [HexLetter(c / 16 / 16 / 16, u.a), HexLetter(c / 16 / 16 % 16, u.b),
     HexLetter(c / 16 % 16, u.c), HexLetter(c % 16, u.d)]
  }

  /** The ways one character can be written. */
  datatype Spelling =
    | Plain(code: Code)
    | Short(code: Code)
    | Escaped(code: Code, u: Capitals)
    | Paired(code: Code, high: Capitals, low: Capitals)

  predicate ValidSpelling(u: Spelling) {
    match u
    case Plain(c) => c >= 0x20 && c != QUOTATION_MARK && c != REVERSE_SOLIDUS
    case Short(c) => ShortLetter(c).Some?
    case Escaped(c, _) => c < 0x10000
    case Paired(c, _, _) => c >= 0x10000
  }

  /** The surrogate pair of a code point above the basic plane, by division. */
  function HighHalf(c: Code): Code
    requires c >= 0x10000
  {
    0xD800 + (c - 0x10000) / 0x400
  }

  function LowHalf(c: Code): Code
    requires c >= 0x10000
  {
    0xDC00 + (c - 0x10000) % 0x400
  }

  /** The escape of a code below 0x10000 as six characters. */
  function EscapeText(c: Code, u: Capitals): (t: Text)
    requires c < 0x10000
    ensures |t| == 6
  {
    [REVERSE_SOLIDUS, 0x75] + HexText(c, u)
  }

  /** A spelling that is not one writes nothing. */
  function SpelledText(u: Spelling): Text {
    if !ValidSpelling(u) then []
    else
      match u
      case Plain(c) => [c]
      case Short(c) => [REVERSE_SOLIDUS, ShortLetter(c).value]
      case Escaped(c, u) => EscapeText(c, u)
      case Paired(c, high, low) => EscapeText(HighHalf(c), high) + EscapeText(LowHalf(c), low)
  }

  predicate LoneHigh(u: Spelling) { u.Escaped? && 0xD800 <= u.code < 0xDC00 }
  predicate LoneLow(u: Spelling) { u.Escaped? && 0xDC00 <= u.code < 0xE000 }

  /** Valid character by character; two escaped halves side by side would be one character. */
  predicate WellSpelled(us: seq<Spelling>) {
    && (forall k :: 0 <= k < |us| ==> ValidSpelling(us[k]))
    && (forall k :: 0 <= k < |us| - 1 ==> !(LoneHigh(us[k]) && LoneLow(us[k + 1])))
  }

  /** The characters of a literal and its closing quote. */
  function Closed(us: seq<Spelling>): Text {
    if us == [] then [QUOTATION_MARK] else SpelledText(us[0]) + Closed(us[1..])
  }

  function Literal(us: seq<Spelling>): Text {
    [QUOTATION_MARK] + Closed(us)
  }

  /** The string a literal stands for: the code points that were written. */
  function Meaning(us: seq<Spelling>): (v: Text)
    ensures |v| == |us|
  {
    seq(|us|, k requires 0 <= k < |us| => us[k].code)
  }

  /** The spelling that escapes only what must be escaped. */
  function SpellCode(c: Code): (u: Spelling)
    ensures ValidSpelling(u) && u.code == c && !LoneHigh(u) && !LoneLow(u)
  {
    if c == QUOTATION_MARK || c == REVERSE_SOLIDUS then Short(c)
    else if c < 0x20 then Escaped(c, Capitals(false, false, false, false))
    else Plain(c)
  }

  /** Every string has a spelling. */
  function Spell(t: Text): (us: seq<Spelling>)
    ensures |us| == |t| && WellSpelled(us) && Meaning(us) == t
  {
    seq(|t|, k requires 0 <= k < |t| => SpellCode(t[k]))
  }
}
