/** The "base64" encoding of section 4 of RFC 4648 with '=' padding, as Go's
    base64.StdEncoding implements it: EncodeToString, and DecodeString, which skips
    carriage returns and line feeds, requires the padding, accepts '=' only in the last
    quantum, and ignores the unused low bits of the last symbol. */
module Base64 {
  import opened Bytes
  import opened Errors

  /** A six-bit group. */
  type Sextet = v: bv8 | v < 64

  /** The symbol of a six-bit value (table 1 of RFC 4648). */
  function Symbol(v: Sextet): (c: char)
    ensures c != '=' && c != '\r' && c != '\n'
  {
    if v < 26 then ('A' as int + v as int) as char
    else if v < 52 then ('a' as int + (v as int - 26)) as char
    else if v < 62 then ('0' as int + (v as int - 52)) as char
    else if v == 62 then '+'
    else '/'
  }

  /** The value of a symbol of the alphabet; None for any other character. */
  function SymbolValue(c: char): Option<Sextet> {
    if 'A' <= c <= 'Z' then Some((c as int - 'A' as int) as bv8)
    else if 'a' <= c <= 'z' then Some((c as int - 'a' as int + 26) as bv8)
    else if '0' <= c <= '9' then Some((c as int - '0' as int + 52) as bv8)
    else if c == '+' then Some(62)
    else if c == '/' then Some(63)
    else None
  }

  lemma SymbolValueOfSymbol(v: Sextet)
    ensures SymbolValue(Symbol(v)) == Some(v)
  {
    if v < 26 {
      UpperSymbol(v);
    } else if v < 52 {
      LowerSymbol(v);
    } else if v < 62 {
      DigitSymbol(v);
    }
  }

  /** The values below 26 are the capital letters, in order. */
  lemma UpperSymbol(v: Sextet)
    requires v < 26
    ensures 'A' <= Symbol(v) <= 'Z' && SymbolValue(Symbol(v)) == Some(v)
  {
    var n := v as int;
    assert (n as bv8) == v;
    assert Symbol(v) as int - 'A' as int == n;
  }

  /** The values 26 to 51 are the small letters, in order. */
  lemma LowerSymbol(v: Sextet)
    requires 26 <= v < 52
    ensures 'a' <= Symbol(v) <= 'z' && SymbolValue(Symbol(v)) == Some(v)
  {
    var n := v as int;
    assert (n as bv8) == v;
    assert Symbol(v) as int - 'a' as int + 26 == n;
  }

  /** The values 52 to 61 are the decimal digits, in order. */
  lemma DigitSymbol(v: Sextet)
    requires 52 <= v < 62
    ensures '0' <= Symbol(v) <= '9' && SymbolValue(Symbol(v)) == Some(v)
  {
    var n := v as int;
    assert (n as bv8) == v;
    assert Symbol(v) as int - '0' as int + 52 == n;
  }

  // ---------------------------------------------------------------------------
  // Encoding
  // ---------------------------------------------------------------------------

  function Quantum3(b0: byte, b1: byte, b2: byte): seq<char> {
    [Symbol(b0 >> 2), Symbol(((b0 & 3) << 4) | (b1 >> 4)),
     Symbol(((b1 & 15) << 2) | (b2 >> 6)), Symbol(b2 & 63)]
  }

  function Quantum2(b0: byte, b1: byte): seq<char> {
    [Symbol(b0 >> 2), Symbol(((b0 & 3) << 4) | (b1 >> 4)), Symbol((b1 & 15) << 2), '=']
  }

  function Quantum1(b0: byte): seq<char> {
    [Symbol(b0 >> 2), Symbol((b0 & 3) << 4), '=', '=']
  }

  /** base64.StdEncoding.EncodeToString. */
  function Encode(data: seq<byte>): (s: string)
    ensures |s| % 4 == 0
    ensures forall i :: 0 <= i < |s| ==> s[i] != '\r' && s[i] != '\n'
  {
    if |data| == 0 then []
    else if |data| == 1 then Quantum1(data[0])
    else if |data| == 2 then Quantum2(data[0], data[1])
    else Quantum3(data[0], data[1], data[2]) + Encode(data[3..])
  }

  // ---------------------------------------------------------------------------
  // Decoding
  // ---------------------------------------------------------------------------

  /** The input with every carriage return and line feed removed. */
  function SkipNewlines(s: string): (t: string)
    ensures forall i :: 0 <= i < |t| ==> t[i] != '\r' && t[i] != '\n'
  {
    if s == [] then []
    else if s[0] == '\r' || s[0] == '\n' then SkipNewlines(s[1..])
    else [s[0]] + SkipNewlines(s[1..])
  }

  function Join3(s0: Sextet, s1: Sextet, s2: Sextet, s3: Sextet): seq<byte> {
    [(s0 << 2) | (s1 >> 4), ((s1 & 15) << 4) | (s2 >> 2), ((s2 & 3) << 6) | s3]
  }

  /** A quantum of four symbols, none of them padding. */
  function DecodeFull(q: string): Option<seq<byte>>
    requires |q| == 4
  {
    match (SymbolValue(q[0]), SymbolValue(q[1]), SymbolValue(q[2]), SymbolValue(q[3]))
    case (Some(s0), Some(s1), Some(s2), Some(s3)) => Some(Join3(s0, s1, s2, s3))
    case _ => None
  }

  /** The last quantum, which may end in "==" (one byte) or "=" (two bytes). */
  function DecodeFinal(q: string): Option<seq<byte>>
    requires |q| == 4
  {
    if q[2] == '=' && q[3] == '=' then
      match (SymbolValue(q[0]), SymbolValue(q[1]))
      case (Some(s0), Some(s1)) => Some(Join3(s0, s1, 0, 0)[..1])
      case _ => None
    else if q[3] == '=' then
      match (SymbolValue(q[0]), SymbolValue(q[1]), SymbolValue(q[2]))
      case (Some(s0), Some(s1), Some(s2)) => Some(Join3(s0, s1, s2, 0)[..2])
      case _ => None
    else DecodeFull(q)
  }

  function DecodeQuanta(t: string): Option<seq<byte>>
    requires |t| % 4 == 0
  {
    if t == [] then Some([])
    else if |t| == 4 then DecodeFinal(t)
    else match (DecodeFull(t[..4]), DecodeQuanta(t[4..]))
      case (Some(head), Some(rest)) => Some(head + rest)
      case _ => None
  }

  /** The base64.CorruptInputError DecodeString reports; the offset of the offending
      byte that Go appends to the message is not modelled. */
  const CorruptInput: Error := Plain("illegal base64 data at input byte")

  /** base64.StdEncoding.DecodeString; None stands for its CorruptInputError. */
  function Decode(s: string): Option<seq<byte>> {
    var t := SkipNewlines(s);
    if |t| % 4 != 0 then None else DecodeQuanta(t)
  }

  // ---------------------------------------------------------------------------
  // Round trip
  // ---------------------------------------------------------------------------

  lemma {:induction false} SkipNewlinesIdentity(s: string)
    requires forall i :: 0 <= i < |s| ==> s[i] != '\r' && s[i] != '\n'
    ensures SkipNewlines(s) == s
  {
    if s != [] {
      SkipNewlinesIdentity(s[1..]);
    }
  }

  /** Splitting three bytes into four sextets and joining them again is the identity. */
  lemma JoinSplit(b0: byte, b1: byte, b2: byte)
    ensures Join3(b0 >> 2, ((b0 & 3) << 4) | (b1 >> 4), ((b1 & 15) << 2) | (b2 >> 6), b2 & 63) == [b0, b1, b2]
  {
    var s0: Sextet, s1: Sextet, s2: Sextet, s3: Sextet :=
      b0 >> 2, ((b0 & 3) << 4) | (b1 >> 4), ((b1 & 15) << 2) | (b2 >> 6), b2 & 63;
    assert (s0 << 2) | (s1 >> 4) == b0;
    assert ((s1 & 15) << 4) | (s2 >> 2) == b1;
    assert ((s2 & 3) << 6) | s3 == b2;
  }

  /** Splitting two bytes into three sextets (the last with two zero bits) and joining
      them again gives the two bytes back. */
  lemma JoinSplit2(b0: byte, b1: byte)
    ensures Join3(b0 >> 2, ((b0 & 3) << 4) | (b1 >> 4), (b1 & 15) << 2, 0)[..2] == [b0, b1]
  {
    var s0: Sextet, s1: Sextet, s2: Sextet := b0 >> 2, ((b0 & 3) << 4) | (b1 >> 4), (b1 & 15) << 2;
    assert (s0 << 2) | (s1 >> 4) == b0;
    assert ((s1 & 15) << 4) | (s2 >> 2) == b1;
  }

  /** Splitting one byte into two sextets (the second with four zero bits) and joining
      them again gives the byte back. */
  lemma JoinSplit1(b0: byte)
    ensures Join3(b0 >> 2, (b0 & 3) << 4, 0, 0)[..1] == [b0]
  {
    var s0: Sextet, s1: Sextet := b0 >> 2, (b0 & 3) << 4;
    assert (s0 << 2) | (s1 >> 4) == b0;
  }

  /** Four symbols decode to the join of their values, as a full or as a last quantum. */
  lemma DecodeSymbols4(s0: Sextet, s1: Sextet, s2: Sextet, s3: Sextet)
    ensures DecodeFull([Symbol(s0), Symbol(s1), Symbol(s2), Symbol(s3)]) == Some(Join3(s0, s1, s2, s3))
    ensures DecodeFinal([Symbol(s0), Symbol(s1), Symbol(s2), Symbol(s3)]) == Some(Join3(s0, s1, s2, s3))
  {
    SymbolValueOfSymbol(s0);
    SymbolValueOfSymbol(s1);
    SymbolValueOfSymbol(s2);
    SymbolValueOfSymbol(s3);
  }

  /** Three symbols and one '=' decode to the first two bytes of their join. */
  lemma DecodeSymbols3(s0: Sextet, s1: Sextet, s2: Sextet)
    ensures DecodeFinal([Symbol(s0), Symbol(s1), Symbol(s2), '=']) == Some(Join3(s0, s1, s2, 0)[..2])
  {
    SymbolValueOfSymbol(s0);
    SymbolValueOfSymbol(s1);
    SymbolValueOfSymbol(s2);
  }

  /** Two symbols and "==" decode to the first byte of their join. */
  lemma DecodeSymbols2(s0: Sextet, s1: Sextet)
    ensures DecodeFinal([Symbol(s0), Symbol(s1), '=', '=']) == Some(Join3(s0, s1, 0, 0)[..1])
  {
    SymbolValueOfSymbol(s0);
    SymbolValueOfSymbol(s1);
  }

  lemma Quantum3RoundTrip(b0: byte, b1: byte, b2: byte)
    ensures DecodeFull(Quantum3(b0, b1, b2)) == Some([b0, b1, b2])
    ensures DecodeFinal(Quantum3(b0, b1, b2)) == Some([b0, b1, b2])
  {
    DecodeSymbols4(b0 >> 2, ((b0 & 3) << 4) | (b1 >> 4), ((b1 & 15) << 2) | (b2 >> 6), b2 & 63);
    JoinSplit(b0, b1, b2);
  }

  lemma Quantum2RoundTrip(b0: byte, b1: byte)
    ensures DecodeFinal(Quantum2(b0, b1)) == Some([b0, b1])
  {
    DecodeSymbols3(b0 >> 2, ((b0 & 3) << 4) | (b1 >> 4), (b1 & 15) << 2);
    JoinSplit2(b0, b1);
  }

  lemma Quantum1RoundTrip(b0: byte)
    ensures DecodeFinal(Quantum1(b0)) == Some([b0])
  {
    DecodeSymbols2(b0 >> 2, (b0 & 3) << 4);
    JoinSplit1(b0);
  }

  lemma {:induction false} DecodeQuantaOfEncode(data: seq<byte>)
    ensures DecodeQuanta(Encode(data)) == Some(data)
  {
    if |data| == 1 {
      Quantum1RoundTrip(data[0]);
      assert [data[0]] == data;
    } else if |data| == 2 {
      Quantum2RoundTrip(data[0], data[1]);
      assert [data[0], data[1]] == data;
    } else if |data| >= 3 {
      var q := Quantum3(data[0], data[1], data[2]);
      var t := Encode(data);
      Quantum3RoundTrip(data[0], data[1], data[2]);
      assert [data[0], data[1], data[2]] + data[3..] == data;
      if |data| == 3 {
        assert data[3..] == [] && Encode(data[3..]) == [];
        assert t == q + [];
        assert DecodeQuanta(t) == DecodeFinal(q);
        assert [data[0], data[1], data[2]] == data;
      } else {
        DecodeQuantaOfEncode(data[3..]);
        assert t[..4] == q && t[4..] == Encode(data[3..]);
      }
    }
  }

  /** Decoding what was encoded gives the data back: DecodeString(EncodeToString(d)) == d. */
  lemma RoundTrip(data: seq<byte>)
    ensures Decode(Encode(data)) == Some(data)
  {
    SkipNewlinesIdentity(Encode(data));
    DecodeQuantaOfEncode(data);
  }
}
