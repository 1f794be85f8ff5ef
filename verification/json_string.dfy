/** The JSON string printer of the report writer, and the decoder that RFC 8259 defines for its
    output. Both work on the bytes of the text; neither looks at the encoding of bytes from 0x80 on. */
module JsonString {
  import opened Base

  const QUOTE: byte := 0x22
  const BACKSLASH: byte := 0x5C
  const LOWER_U: byte := 0x75
  const ZERO: byte := 0x30

  // ----- the printer -----

  function HexDigit(n: nat): (r: byte)
    requires n < 16
  {
    if n < 10 then ZERO + n else 0x61 + (n - 10)
  }

  /** The letter of the two-character escape of a control character, where there is one. */
  function ShortEscape(b: byte): Option<byte> {
    if b == QUOTE then Some(QUOTE)
    else if b == BACKSLASH then Some(BACKSLASH)
    else if b == 0x08 then Some(0x62)
    else if b == 0x0C then Some(0x66)
    else if b == 0x0A then Some(0x6E)
    else if b == 0x0D then Some(0x72)
    else if b == 0x09 then Some(0x74)
    else None
  }

  function PrintedByte(b: byte): seq<byte> {
    if ShortEscape(b).Some? then [BACKSLASH, ShortEscape(b).value]
    else if b < 0x20 then [BACKSLASH, LOWER_U, ZERO, ZERO, HexDigit(b / 16), HexDigit(b % 16)]
    else [b]
  }

  function PrintedBody(s: seq<byte>): seq<byte> {
    if s == [] then [] else PrintedByte(s[0]) + PrintedBody(s[1..])
  }

  function Printed(s: seq<byte>): seq<byte> {
    [QUOTE] + PrintedBody(s) + [QUOTE]
  }

  class OutputStream {
    var contents: seq<byte>

    constructor ()
      ensures contents == []
    {
      contents := [];
    }

    method Put(text: seq<byte>)
      modifies this
      ensures contents == old(contents) + text
    {
      contents := contents + text;
    }
  }

  /** One round of the printer's loop: the switch over the byte. */
  method PutByte(output: OutputStream, b: byte)
    modifies output
    ensures output.contents == old(output.contents) + PrintedByte(b)
  {
    match b {
      case 0x22 => output.Put([BACKSLASH, QUOTE]);
      case 0x5C => output.Put([BACKSLASH, BACKSLASH]);
      case 0x08 => output.Put([BACKSLASH, 0x62]);
      case 0x0C => output.Put([BACKSLASH, 0x66]);
      case 0x0A => output.Put([BACKSLASH, 0x6E]);
      case 0x0D => output.Put([BACKSLASH, 0x72]);
      case 0x09 => output.Put([BACKSLASH, 0x74]);
      case _ =>
        if b < 0x20 {
          output.Put([BACKSLASH, LOWER_U, ZERO, ZERO, HexDigit(b / 16), HexDigit(b % 16)]);
        } else {
          output.Put([b]);
        }
    }
  }

  method WriteJsonString(output: OutputStream, value: seq<byte>)
    modifies output
    ensures output.contents == old(output.contents) + Printed(value)
  {
    hide PrintedByte, PrintedBody;
    output.Put([QUOTE]);
    NothingPrinted();
    for i := 0 to |value|
      invariant output.contents == old(output.contents) + [QUOTE] + PrintedBody(value[..i])
    {
      PutByte(output, value[i]);
      PrintedSnoc(value[..i], value[i]);
      assert value[..i + 1] == value[..i] + [value[i]];
    }
    output.Put([QUOTE]);
    assert value[..|value|] == value;
  }

  lemma NothingPrinted()
    ensures PrintedBody([]) == []
  {
  }

  lemma {:induction false} PrintedSnoc(s: seq<byte>, b: byte)
    ensures PrintedBody(s + [b]) == PrintedBody(s) + PrintedByte(b)
  {
    hide PrintedByte;
    if s == [] {
      assert ([] + [b])[1..] == [];
    } else {
      PrintedSnoc(s[1..], b);
      assert (s + [b])[1..] == s[1..] + [b];
    }
  }

  // ----- the decoder of section 7 of RFC 8259 -----

  function HexValue(b: byte): Option<nat> {
    if 0x30 <= b <= 0x39 then Some(b - 0x30)
    else if 0x41 <= b <= 0x46 then Some(b - 0x41 + 10)
    else if 0x61 <= b <= 0x66 then Some(b - 0x61 + 10)
    else None
  }

  /** The code unit that four hexadecimal digits name. */
  function CodeUnit(s: seq<byte>): (r: Option<nat>)
    ensures r.Some? ==> r.value < 0x10000
  {
    if |s| < 4 then None
    else match (HexValue(s[0]), HexValue(s[1]), HexValue(s[2]), HexValue(s[3]))
      case (Some(a), Some(b), Some(c), Some(d)) =>
        var r: nat := a * 0x1000 + b * 0x100 + c * 0x10 + d;
        if r < 0x10000 then Some(r) else None
      case _ => None
  }

  /** The UTF-8 encoding of a code point. */
  function Utf8(point: nat): seq<byte>
    requires point < 0x110000
  {
    if point < 0x80 then [point]
    else if point < 0x800 then [0xC0 + point / 0x40, 0x80 + point % 0x40]
    else if point < 0x10000 then [0xE0 + point / 0x1000, 0x80 + (point / 0x40) % 0x40, 0x80 + point % 0x40]
    else [0xF0 + point / 0x40000, 0x80 + (point / 0x1000) % 0x40, 0x80 + (point / 0x40) % 0x40, 0x80 + point % 0x40]
  }

  /** The bytes that one character of a string stands for, and how many bytes of text it takes. */
  datatype Decoded = Decoded(bytes: seq<byte>, used: nat)

  function ShortMeaning(letter: byte): Option<byte> {
    match letter
    case 0x22 => Some(0x22)
    case 0x5C => Some(0x5C)
    case 0x2F => Some(0x2F)
    case 0x62 => Some(0x08)
    case 0x66 => Some(0x0C)
    case 0x6E => Some(0x0A)
    case 0x72 => Some(0x0D)
    case 0x74 => Some(0x09)
    case _ => None
  }

  /** A `\u` escape: a code point of its own, or the first half of a surrogate pair whose second
      half must follow. A half on its own is refused. */
  function UnicodeEscape(s: seq<byte>): (r: Option<Decoded>)
    ensures r.Some? ==> r.value.used > 0 && r.value.used <= |s|
  {
    var first := if |s| >= 6 then CodeUnit(s[2..6]) else None;
    match first
    case None => None
    case Some(unit) =>
      if 0xDC00 <= unit < 0xE000 then None
      else if unit < 0xD800 || unit >= 0xE000 then Some(Decoded(Utf8(unit), 6))
      else if |s| < 12 || s[6] != BACKSLASH || s[7] != LOWER_U then None
      else match CodeUnit(s[8..12])
        case None => None
        case Some(low) =>
          if 0xDC00 <= low < 0xE000
          then Some(Decoded(Utf8(0x10000 + (unit - 0xD800) * 0x400 + (low - 0xDC00)), 12))
          else None
  }

  function DecodeChar(s: seq<byte>): (r: Option<Decoded>)
    requires s != []
    ensures r.Some? ==> r.value.used > 0 && r.value.used <= |s|
  {
    if s[0] != BACKSLASH then
      if s[0] < 0x20 || s[0] == QUOTE then None else Some(Decoded([s[0]], 1))
    else if |s| < 2 then None
    else if s[1] == LOWER_U then UnicodeEscape(s)
    else match ShortMeaning(s[1])
      case Some(b) => Some(Decoded([b], 2))
      case None => None
  }

  function DecodeBody(s: seq<byte>): Option<seq<byte>>
    decreases |s|
  {
    if s == [] then Some([])
    else match DecodeChar(s)
      case None => None
      case Some(d) =>
        match DecodeBody(s[d.used..])
        case None => None
        case Some(rest) => Some(d.bytes + rest)
  }

  /** The value of a JSON string: quotation mark, characters, quotation mark, and nothing else. */
  function Decode(text: seq<byte>): Option<seq<byte>> {
    if |text| >= 2 && text[0] == QUOTE && text[|text| - 1] == QUOTE
    then DecodeBody(text[1..|text| - 1])
    else None
  }

  // ----- round trip -----

  lemma DecodePrintedByte(b: byte, rest: seq<byte>)
    ensures DecodeChar(PrintedByte(b) + rest) == Some(Decoded([b], |PrintedByte(b)|))
  {
    var s := PrintedByte(b) + rest;
    if ShortEscape(b).None? && b < 0x20 {
      assert s[2..6] == [ZERO, ZERO, HexDigit(b / 16), HexDigit(b % 16)];
      assert CodeUnit(s[2..6]) == Some(b);
    }
  }

  lemma {:induction false} DecodePrintedBody(s: seq<byte>)
    ensures DecodeBody(PrintedBody(s)) == Some(s)
  {
    if s != [] {
      var rest := PrintedBody(s[1..]);
      DecodePrintedByte(s[0], rest);
      DecodePrintedBody(s[1..]);
      assert PrintedBody(s)[|PrintedByte(s[0])|..] == rest;
      assert [s[0]] + s[1..] == s;
    }
  }

  /** Printing loses nothing: a decoder that follows the standard gets back the original bytes,
      whatever they are. */
  lemma RoundTrip(s: seq<byte>)
    ensures Decode(Printed(s)) == Some(s)
  {
    DecodePrintedBody(s);
    assert Printed(s)[1..|Printed(s)| - 1] == PrintedBody(s);
  }

  /** No other text of one character is shorter: a byte is escaped only where the standard demands it,
      and then by two characters where the standard has such an escape. */
  lemma PrintedIsShortest(b: byte, text: seq<byte>)
    requires text != [] && DecodeChar(text).Some? && DecodeChar(text).value.bytes == [b]
    ensures |PrintedByte(b)| <= DecodeChar(text).value.used
  {
    if text[0] == BACKSLASH && text[1] == LOWER_U {
      assert DecodeChar(text).value.used >= 6;
    }
  }

  // ----- no raw control character, no bare quotation mark -----

  /** How many backslashes stand directly before position i. */
  function Backslashes(s: seq<byte>, i: nat): nat
    requires i <= |s|
  {
    if i == 0 || s[i - 1] != BACKSLASH then 0 else 1 + Backslashes(s, i - 1)
  }

  /** A quotation mark after an odd number of backslashes is escaped. */
  predicate Escaped(s: seq<byte>, i: nat)
    requires i < |s|
  {
    Backslashes(s, i) % 2 == 1
  }

  lemma {:induction false} BackslashesOfPrefix(s: seq<byte>, t: seq<byte>, i: nat)
    requires i <= |s|
    ensures Backslashes(s + t, i) == Backslashes(s, i)
  {
    if i > 0 {
      BackslashesOfPrefix(s, t, i - 1);
    }
  }

  /** The printed body holds no raw control character, and every quotation mark in it is escaped, so
      that the closing one is the first that ends the string. */
  lemma {:induction false} PrintedBodyIsClosed(s: seq<byte>)
    ensures forall i :: 0 <= i < |PrintedBody(s)| ==> PrintedBody(s)[i] >= 0x20
    ensures forall i :: 0 <= i < |PrintedBody(s)| && PrintedBody(s)[i] == QUOTE ==> Escaped(PrintedBody(s), i)
    ensures Backslashes(PrintedBody(s), |PrintedBody(s)|) % 2 == 0
  {
    if s != [] {
      var front, b := s[..|s| - 1], s[|s| - 1];
      assert s == front + [b];
      PrintedBodyIsClosed(front);
      PrintedSnoc(front, b);
      AppendKeepsClosed(PrintedBody(front), b);
    }
  }

  lemma AppendKeepsClosed(p: seq<byte>, b: byte)
    requires forall i :: 0 <= i < |p| ==> p[i] >= 0x20
    requires forall i :: 0 <= i < |p| && p[i] == QUOTE ==> Escaped(p, i)
    requires Backslashes(p, |p|) % 2 == 0
    ensures var r := p + PrintedByte(b);
            && (forall i :: 0 <= i < |r| ==> r[i] >= 0x20)
            && (forall i :: 0 <= i < |r| && r[i] == QUOTE ==> Escaped(r, i))
            && Backslashes(r, |r|) % 2 == 0
  {
    var t := PrintedByte(b);
    var r := p + t;
    BackslashesOfPrefix(p, t, |p|);
    forall i | 0 <= i < |r| && r[i] == QUOTE ensures Escaped(r, i) {
      if i < |p| {
        BackslashesOfPrefix(p, t, i);
      }
    }
  }
}
