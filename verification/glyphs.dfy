/** The coloured-circle badges the scorers and alert subjects display, and
    the mis-decoding that turns a glyph's UTF-8 bytes into Windows-1252 text. */
module Glyphs {

  datatype Badge = RedCircle | OrangeCircle | YellowCircle | GreenCircle

  /** The emoji for a badge: U+1F534, U+1F7E0, U+1F7E1, U+1F7E2. */
  function Glyph(b: Badge): (r: string)
    ensures |r| == 1 && 0x10000 <= r[0] as int <= 0x10FFFF
  {
    match b
    case RedCircle => "\U{1F534}"
    case OrangeCircle => "\U{1F7E0}"
    case YellowCircle => "\U{1F7E1}"
    case GreenCircle => "\U{1F7E2}"
  }

  lemma GlyphInjective(a: Badge, b: Badge)
    ensures Glyph(a) == Glyph(b) ==> a == b
  {
  }

  /** The four UTF-8 bytes of a code point outside the Basic Multilingual Plane. */
  function Utf8Bytes(cp: int): (r: seq<int>)
    requires 0x10000 <= cp <= 0x10FFFF
    ensures |r| == 4 && forall i :: 0 <= i < 4 ==> 0 <= r[i] < 256
  {
    [0xF0 + cp / 0x40000, 0x80 + (cp / 0x1000) % 0x40, 0x80 + (cp / 0x40) % 0x40, 0x80 + cp % 0x40]
  }

  /** Windows-1252 assigns these characters to bytes 0x80 to 0x9F; every
      other byte stands for the code point of the same number. */
  const Cp1252High: map<int, char> := map[
    0x80 := '\U{20AC}', 0x82 := '\U{201A}', 0x83 := '\U{192}', 0x84 := '\U{201E}',
    0x85 := '\U{2026}', 0x86 := '\U{2020}', 0x87 := '\U{2021}', 0x88 := '\U{2C6}',
    0x89 := '\U{2030}', 0x8A := '\U{160}', 0x8B := '\U{2039}', 0x8C := '\U{152}',
    0x8E := '\U{17D}', 0x91 := '\U{2018}', 0x92 := '\U{2019}', 0x93 := '\U{201C}',
    0x94 := '\U{201D}', 0x95 := '\U{2022}', 0x96 := '\U{2013}', 0x97 := '\U{2014}',
    0x98 := '\U{2DC}', 0x99 := '\U{2122}', 0x9A := '\U{161}', 0x9B := '\U{203A}',
    0x9C := '\U{153}', 0x9E := '\U{17E}', 0x9F := '\U{178}']

  function Cp1252Char(b: int): char
    requires 0 <= b < 256
  {
    if b in Cp1252High then Cp1252High[b] else b as char
  }

  /** The text a one-glyph string becomes when its UTF-8 encoding is read
      back as Windows-1252. */
  function Misdecoded(g: string): (r: string)
    requires |g| == 1 && 0x10000 <= g[0] as int <= 0x10FFFF
    ensures |r| == 4
  {
    var bytes := Utf8Bytes(g[0] as int);
    [Cp1252Char(bytes[0]), Cp1252Char(bytes[1]), Cp1252Char(bytes[2]), Cp1252Char(bytes[3])]
  }

  /** What each badge's glyph becomes when mis-decoded: the lead byte 0xF0
      reads as U+00F0, and the continuation bytes 0x9F, 0x94, 0xA0 to 0xA2
      and 0xB4 read as U+0178, U+201D, U+00A0 to U+00A2 and U+00B4. */
  lemma MisdecodedGlyph(b: Badge)
    ensures b == RedCircle ==> Misdecoded(Glyph(b)) == "\U{F0}\U{178}\U{201D}\U{B4}"
    ensures b == OrangeCircle ==> Misdecoded(Glyph(b)) == "\U{F0}\U{178}\U{178}\U{A0}"
    ensures b == YellowCircle ==> Misdecoded(Glyph(b)) == "\U{F0}\U{178}\U{178}\U{A1}"
    ensures b == GreenCircle ==> Misdecoded(Glyph(b)) == "\U{F0}\U{178}\U{178}\U{A2}"
  {
    assert Cp1252Char(0xF0) == '\U{F0}' && Cp1252Char(0x9F) == '\U{178}';
    match b
    case RedCircle =>
      assert Utf8Bytes(0x1F534) == [0xF0, 0x9F, 0x94, 0xB4] by {
        assert 0x1F534 / 0x1000 == 0x1F && 0x1F534 / 0x40 == 0x7D4;
      }
      assert Cp1252Char(0x94) == '\U{201D}' && Cp1252Char(0xB4) == '\U{B4}';
    case OrangeCircle =>
      assert Utf8Bytes(0x1F7E0) == [0xF0, 0x9F, 0x9F, 0xA0] by {
        assert 0x1F7E0 / 0x1000 == 0x1F && 0x1F7E0 / 0x40 == 0x7DF;
      }
      assert Cp1252Char(0xA0) == '\U{A0}';
    case YellowCircle =>
      assert Utf8Bytes(0x1F7E1) == [0xF0, 0x9F, 0x9F, 0xA1] by {
        assert 0x1F7E1 / 0x1000 == 0x1F && 0x1F7E1 / 0x40 == 0x7DF;
      }
      assert Cp1252Char(0xA1) == '\U{A1}';
    case GreenCircle =>
      assert Utf8Bytes(0x1F7E2) == [0xF0, 0x9F, 0x9F, 0xA2] by {
        assert 0x1F7E2 / 0x1000 == 0x1F && 0x1F7E2 / 0x40 == 0x7DF;
      }
      assert Cp1252Char(0xA2) == '\U{A2}';
  }
}
