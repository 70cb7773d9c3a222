/** The standard Base64 alphabet with canonical padding (section 4 of RFC 4648). */
module Base64 {
  import opened Outcomes
  import opened Words
  import opened Encoding

  type sextet = x: int | 0 <= x < 64

  // A character of the encoded text: one of the alphabet, or padding.
  datatype Symbol = Value(x: sextet) | Pad

  // Symbols and characters

  function Print(s: Symbol): char {
    if s.Pad? then '='
    else if s.x < 26 then 'A' + s.x as char
    else if s.x < 52 then 'a' + (s.x - 26) as char
    else if s.x < 62 then '0' + (s.x - 52) as char
    else if s.x == 62 then '+'
    else '/'
  }

  function Parse(c: char): Option<Symbol> {
    if 'A' <= c <= 'Z' then Some(Value(c as int - 'A' as int))
    else if 'a' <= c <= 'z' then Some(Value(c as int - 'a' as int + 26))
    else if '0' <= c <= '9' then Some(Value(c as int - '0' as int + 52))
    else if c == '+' then Some(Value(62))
    else if c == '/' then Some(Value(63))
    else if c == '=' then Some(Pad)
    else None
  }

  lemma PrintParses(s: Symbol)
    ensures Parse(Print(s)) == Some(s)
  {
  }

  lemma ParsePrints(c: char)
    requires Parse(c).Some?
    ensures Print(Parse(c).value) == c
  {
  }

  function PrintAll(s: seq<Symbol>): (text: string)
    ensures |text| == |s|
  {
    if s == [] then "" else [Print(s[0])] + PrintAll(s[1..])
  }

  function ParseAll(text: string): (r: Option<seq<Symbol>>)
    ensures r.Some? ==> |r.value| == |text|
  {
    if text == "" then Some([])
    else
      var head, tail := Parse(text[0]), ParseAll(text[1..]);
      if head.None? || tail.None? then None else Some([head.value] + tail.value)
  }

  lemma {:induction false} PrintAllParses(s: seq<Symbol>)
    ensures ParseAll(PrintAll(s)) == Some(s)
  {
    if s != [] {
      PrintParses(s[0]);
      PrintAllParses(s[1..]);
      var text := PrintAll(s);
      assert text[0] == Print(s[0]) && text[1..] == PrintAll(s[1..]);
      assert s == [s[0]] + s[1..];
    }
  }

  lemma {:induction false} ParseAllPrints(text: string)
    requires ParseAll(text).Some?
    ensures PrintAll(ParseAll(text).value) == text
  {
    if text != "" {
      ParsePrints(text[0]);
      ParseAllPrints(text[1..]);
    }
  }

  // Bytes and symbols

  function Group(a: byte, b: byte, c: byte): seq<Symbol> {
    [Value(a / 4), Value(a % 4 * 16 + b / 16), Value(b % 16 * 4 + c / 64), Value(c % 64)]
  }

  function ToSymbols(b: Bytes): (s: seq<Symbol>)
    ensures |s| % 4 == 0
    decreases |b|
  {
    if |b| == 0 then []
    else if |b| == 1 then [Value(b[0] / 4), Value(b[0] % 4 * 16), Pad, Pad]
    else if |b| == 2 then [Value(b[0] / 4), Value(b[0] % 4 * 16 + b[1] / 16), Value(b[1] % 16 * 4), Pad]
    else Group(b[0], b[1], b[2]) + ToSymbols(b[3..])
  }

  // The bytes of one group. Padding is allowed only in the last group, and the bits a
  // padded group leaves over must be zero.
  function FromGroup(w: Symbol, x: Symbol, y: Symbol, z: Symbol, last: bool): Option<Bytes> {
    if w.Pad? || x.Pad? then None
    else if y.Pad? then
      if last && z.Pad? && x.x % 16 == 0 then Some([w.x * 4 + x.x / 16]) else None
    else if z.Pad? then
      if last && y.x % 4 == 0 then Some([w.x * 4 + x.x / 16, x.x % 16 * 16 + y.x / 4]) else None
    else Some([w.x * 4 + x.x / 16, x.x % 16 * 16 + y.x / 4, y.x % 4 * 64 + z.x])
  }

  function FromSymbols(s: seq<Symbol>): Option<Bytes>
    decreases |s|
  {
    if |s| == 0 then Some([])
    else if |s| < 4 then None
    else
      var head, tail := FromGroup(s[0], s[1], s[2], s[3], |s| == 4), FromSymbols(s[4..]);
      if head.None? || tail.None? then None else Some(head.value + tail.value)
  }

  lemma BytesRebuilt(a: byte, b: byte, c: byte)
    ensures a / 4 * 4 + (a % 4 * 16 + b / 16) / 16 == a
    ensures (a % 4 * 16 + b / 16) % 16 * 16 + (b % 16 * 4 + c / 64) / 4 == b
    ensures (b % 16 * 4 + c / 64) % 4 * 64 + c % 64 == c
    ensures (a % 4 * 16) % 16 == 0 && (b % 16 * 4) % 4 == 0
  {
  }

  lemma SextetsRebuilt(w: sextet, x: sextet, y: sextet, z: sextet)
    ensures (w * 4 + x / 16) / 4 == w && (w * 4 + x / 16) % 4 * 16 == x / 16 * 16
    ensures (x % 16 * 16 + y / 4) / 16 == x % 16 && (x % 16 * 16 + y / 4) % 16 * 4 == y / 4 * 4
    ensures (y % 4 * 64 + z) / 64 == y % 4 && (y % 4 * 64 + z) % 64 == z
    ensures x / 16 * 16 + x % 16 == x && y / 4 * 4 + y % 4 == y
  {
  }

  lemma GroupDecodes(a: byte, b: byte, c: byte, last: bool)
    ensures var g := Group(a, b, c); FromGroup(g[0], g[1], g[2], g[3], last) == Some([a, b, c])
  {
    BytesRebuilt(a, b, c);
  }

  lemma PairDecodes(a: byte, b: byte)
    ensures FromGroup(Value(a / 4), Value(a % 4 * 16 + b / 16), Value(b % 16 * 4), Pad, true) == Some([a, b])
  {
    BytesRebuilt(a, b, 0);
  }

  lemma ByteDecodes(a: byte)
    ensures FromGroup(Value(a / 4), Value(a % 4 * 16), Pad, Pad, true) == Some([a])
  {
    BytesRebuilt(a, 0, 0);
  }

  lemma OneGroup(s: seq<Symbol>)
    requires |s| == 4
    ensures FromSymbols(s) == FromGroup(s[0], s[1], s[2], s[3], true)
  {
    var head := FromGroup(s[0], s[1], s[2], s[3], true);
    assert s[4..] == [];
    assert head.Some? ==> head.value + [] == head.value;
  }

  lemma {:induction false} SymbolsDecode(b: Bytes)
    ensures FromSymbols(ToSymbols(b)) == Some(b)
    decreases |b|
  {
    var s := ToSymbols(b);
    if |b| == 0 {
    } else if |b| == 1 {
      ByteDecodes(b[0]);
      OneGroup(s);
      assert b == [b[0]];
    } else if |b| == 2 {
      PairDecodes(b[0], b[1]);
      OneGroup(s);
      assert b == [b[0], b[1]];
    } else {
      GroupDecodes(b[0], b[1], b[2], |s| == 4);
      SymbolsDecode(b[3..]);
      assert s[4..] == ToSymbols(b[3..]);
      assert b == [b[0], b[1], b[2]] + b[3..];
    }
  }

  lemma GroupEncodes(w: Symbol, x: Symbol, y: Symbol, z: Symbol, last: bool)
    requires FromGroup(w, x, y, z, last).Some?
    ensures var b := FromGroup(w, x, y, z, last).value;
      && 1 <= |b| <= 3 && (|b| < 3 ==> last)
      && (|b| < 3 ==> ToSymbols(b) == [w, x, y, z])
      && (|b| == 3 ==> Group(b[0], b[1], b[2]) == [w, x, y, z])
  {
    SextetsRebuilt(w.x, x.x, if y.Pad? then 0 else y.x, if z.Pad? then 0 else z.x);
  }

  lemma {:induction false} SymbolsEncode(s: seq<Symbol>)
    requires FromSymbols(s).Some?
    ensures ToSymbols(FromSymbols(s).value) == s
    decreases |s|
  {
    if |s| > 0 {
      GroupEncodes(s[0], s[1], s[2], s[3], |s| == 4);
      SymbolsEncode(s[4..]);
      var head, tail := FromGroup(s[0], s[1], s[2], s[3], |s| == 4).value, FromSymbols(s[4..]).value;
      assert s == [s[0], s[1], s[2], s[3]] + s[4..];
      if |head| < 3 {
        assert s[4..] == [] && head + tail == head;
      } else {
        assert (head + tail)[3..] == tail;
      }
    }
  }

  // The whole codec

  function Encode(b: Bytes): string {
    PrintAll(ToSymbols(b))
  }

  function Decode(text: string): Option<Bytes> {
    var s := ParseAll(text);
    if s.None? then None else FromSymbols(s.value)
  }

  /** Every byte string survives encoding and decoding. */
  lemma DecodeAfterEncode(b: Bytes)
    ensures Decode(Encode(b)) == Some(b)
  {
    SymbolsDecode(b);
    PrintAllParses(ToSymbols(b));
  }

  /** The decoder accepts only the text the encoder produces. */
  lemma EncodeAfterDecode(text: string)
    requires Decode(text).Some?
    ensures Encode(Decode(text).value) == text
  {
    SymbolsEncode(ParseAll(text).value);
    ParseAllPrints(text);
  }

  lemma EncodeInjective(a: Bytes, b: Bytes)
    ensures Encode(a) == Encode(b) <==> a == b
  {
    DecodeAfterEncode(a);
    DecodeAfterEncode(b);
  }

  // The text by its letters

  /** The alphabet: the capitals, the small letters and the figures, each in order, then the
      two signs, and the padding. */
  lemma AlphabetIsStandard(x: sextet)
    ensures Print(Value(0)) == 'A' && Print(Value(26)) == 'a' && Print(Value(52)) == '0'
    ensures Print(Value(62)) == '+' && Print(Value(63)) == '/' && Print(Pad) == '='
    ensures x < 61 && x != 25 && x != 51 ==> Print(Value(x + 1)) as int == Print(Value(x)) as int + 1
  {
  }

  function Letter(x: nat): char
    requires x < 64
  {
    Print(Value(x))
  }

  // The four letters of a number of 24 bits
  function Letters(n: nat): string
    requires n < 0x100_0000
  {
    [Letter(n / 0x4_0000), Letter(n / 0x1000 % 64), Letter(n / 64 % 64), Letter(n % 64)]
  }

  lemma SextetDigits(w: sextet, x: sextet, y: sextet, z: sextet)
    ensures var n := 0x4_0000 * (w as int) + 0x1000 * (x as int) + 64 * (y as int) + z;
      n / 0x4_0000 == w && n / 0x1000 % 64 == x && n / 64 % 64 == y && n % 64 == z
  {
    var n: nat := 0x4_0000 * (w as int) + 0x1000 * (x as int) + 64 * (y as int) + z;
    assert n / 0x1000 == 64 * (w as int) + x;
    assert n / 64 == 0x1000 * (w as int) + 64 * (x as int) + y;
  }

  function Number(a: byte, b: byte, c: byte): (n: nat)
    ensures n < 0x100_0000
  {
    0x1_0000 * (a as int) + 0x100 * (b as int) + c
  }

  lemma GroupIsNumber(a: byte, b: byte, c: byte)
    ensures var n := Number(a, b, c);
      && n / 0x4_0000 == a / 4 && n / 0x1000 % 64 == a % 4 * 16 + b / 16
      && n / 64 % 64 == b % 16 * 4 + c / 64 && n % 64 == c % 64
  {
    SextetDigits(a / 4, a % 4 * 16 + b / 16, b % 16 * 4 + c / 64, c % 64);
    assert a == 4 * (a / 4) + a % 4 && b == 16 * (b / 16) + b % 16 && c == 64 * (c / 64) + c % 64;
  }

  lemma {:induction false} PrintAt(s: seq<Symbol>, i: nat)
    requires i < |s|
    ensures PrintAll(s)[i] == Print(s[i])
  {
    if i > 0 {
      PrintAt(s[1..], i - 1);
    }
  }

  lemma PrintAllConcat(a: seq<Symbol>, b: seq<Symbol>)
    ensures PrintAll(a + b) == PrintAll(a) + PrintAll(b)
  {
    forall i | 0 <= i < |a| + |b| ensures PrintAll(a + b)[i] == (PrintAll(a) + PrintAll(b))[i] {
      PrintAt(a + b, i);
      if i < |a| {
        PrintAt(a, i);
      } else {
        PrintAt(b, i - |a|);
      }
    }
  }

  lemma PrintFour(w: Symbol, x: Symbol, y: Symbol, z: Symbol)
    ensures PrintAll([w, x, y, z]) == [Print(w), Print(x), Print(y), Print(z)]
  {
    forall i: nat | i < 4 ensures PrintAll([w, x, y, z])[i] == Print([w, x, y, z][i]) {
      PrintAt([w, x, y, z], i);
    }
  }

  // The text of a group of up to three bytes: missing bytes count as zero, and each turns a
  // letter at the end into padding.
  function GroupText(b: Bytes): string
    requires 1 <= |b| <= 3
  {
    if |b| == 1 then Letters(Number(b[0], 0, 0))[..2] + "=="
    else if |b| == 2 then Letters(Number(b[0], b[1], 0))[..3] + "="
    else Letters(Number(b[0], b[1], b[2]))
  }

  lemma GroupPrints(b: Bytes)
    requires 1 <= |b| <= 3
    ensures |ToSymbols(b)| == 4 && PrintAll(ToSymbols(b)) == GroupText(b)
  {
    GroupIsNumber(b[0], if |b| > 1 then b[1] else 0, if |b| > 2 then b[2] else 0);
    var s := ToSymbols(b);
    if |b| == 3 {
      assert b[3..] == [] && ToSymbols(b[3..]) == [];
      assert s == Group(b[0], b[1], b[2]) + [];
    }
    PrintFour(s[0], s[1], s[2], s[3]);
    assert s == [s[0], s[1], s[2], s[3]];
  }

  // The text as RFC 4648 describes it
  function TextOf(b: Bytes): string
    decreases |b|
  {
    if b == [] then "" else if |b| <= 3 then GroupText(b) else GroupText(b[..3]) + TextOf(b[3..])
  }

  /** The text is that of the standard: groups of three bytes read as a number, six bits a
      letter, the last group padded. */
  lemma {:induction false} EncodeIsStandard(b: Bytes)
    ensures Encode(b) == TextOf(b)
    decreases |b|
  {
    if 1 <= |b| <= 3 {
      GroupPrints(b);
    } else if |b| > 3 {
      GroupPrints(b[..3]);
      assert b[..3][3..] == [];
      assert ToSymbols(b[..3]) == Group(b[0], b[1], b[2]);
      PrintAllConcat(Group(b[0], b[1], b[2]), ToSymbols(b[3..]));
      EncodeIsStandard(b[3..]);
    }
  }

  /** Exactly the texts of byte strings decode. */
  lemma DecodesWhenEncoded(text: string)
    ensures Decode(text).Some? <==> exists b :: Encode(b) == text
  {
    if Decode(text).Some? {
      EncodeAfterDecode(text);
    }
    forall b | Encode(b) == text ensures Decode(text).Some? {
      DecodeAfterEncode(b);
    }
  }
}
