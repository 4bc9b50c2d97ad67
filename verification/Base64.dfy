/** The dashboard's base64 decoder: a bit accumulator, inverse to the encoding of section 4 of RFC 4648. */
module Base64 {
  import opened Prelude

  /** The table's i-th symbol: A to Z, a to z, 0 to 9, plus, slash. */
  function SymbolAt(i: nat): char
    requires i < 64
  {
    if i < 26 then (65 + i) as char
    else if i < 52 then (97 + i - 26) as char
    else if i < 62 then (48 + i - 52) as char
    else if i == 62 then '+'
    else '/'
  }

  /** The position of a symbol in the table. */
  function ValueFrom(c: char, i: nat): Option<nat>
    requires i <= 64
    decreases 64 - i
  {
    if i == 64 then None else if SymbolAt(i) == c then Some(i) else ValueFrom(c, i + 1)
  }

  function Value(c: char): Option<nat> {
    ValueFrom(c, 0)
  }

  function Pow2(n: nat): (r: nat)
    ensures r > 0
  {
    if n == 0 then 1 else 2 * Pow2(n - 1)
  }

  datatype Accumulator = Accumulator(out: Bytes, buf: nat, bits: nat)

  const EMPTY: Accumulator := Accumulator([], 0, 0)

  /** buf >> bits */
  function Drop(buf: nat, bits: nat): nat {
    if bits == 0 then buf else Drop(buf / 2, bits - 1)
  }

  /** buf & ((1 << bits) - 1) */
  function Low(buf: nat, bits: nat): nat {
    if bits == 0 then 0 else buf % 2 + 2 * Low(buf / 2, bits - 1)
  }

  lemma ByTwo(buf: nat)
    ensures Drop(buf, 2) == buf / 4 && Low(buf, 2) == buf % 4
  {
    assert Drop(buf, 2) == Drop(buf / 2, 1) == Drop(buf / 2 / 2, 0);
    assert Low(buf, 2) == buf % 2 + 2 * Low(buf / 2, 1);
    assert Low(buf / 2, 1) == buf / 2 % 2 + 2 * Low(buf / 2 / 2, 0);
  }

  lemma ByFour(buf: nat)
    ensures Drop(buf, 4) == buf / 16 && Low(buf, 4) == buf % 16
  {
    var half := buf / 2;
    var quarter := half / 2;
    ByTwo(quarter);
    assert quarter == buf / 4;
    assert Drop(buf, 4) == Drop(half, 3) == Drop(quarter, 2);
    assert Low(buf, 4) == buf % 2 + 2 * Low(half, 3);
    assert Low(half, 3) == half % 2 + 2 * Low(quarter, 2);
  }

  lemma ShiftsAndMasks(buf: nat)
    ensures Drop(buf, 0) == buf && Drop(buf, 2) == buf / 4 && Drop(buf, 4) == buf / 16
    ensures Low(buf, 0) == 0 && Low(buf, 2) == buf % 4 && Low(buf, 4) == buf % 16
  {
    ByTwo(buf);
    ByFour(buf);
  }

  /** A cast to u8. */
  function LowByte(x: nat): Byte {
    (x % 256) as Byte
  }

  /** Shift a six-bit value in; move a byte out when there is one. */
  function Shift(a: Accumulator, v: nat): Accumulator {
    var buf, bits := a.buf * 64 + v, a.bits + 6;
    if bits >= 8 then
      Accumulator(a.out + [LowByte(Drop(buf, bits - 8))], Low(buf, bits - 8), bits - 8)
    else Accumulator(a.out, buf, bits)
  }

  function ShiftAll(a: Accumulator, vs: seq<nat>): Accumulator {
    if vs == [] then a else Shift(ShiftAll(a, vs[..|vs| - 1]), vs[|vs| - 1])
  }

  /** The symbols before the first padding character. */
  function BeforePadding(s: string): string {
    if s == "" || s[0] == '=' then "" else [s[0]] + BeforePadding(s[1..])
  }

  predicate AllSymbols(s: string) {
    forall i :: 0 <= i < |s| ==> Value(s[i]).Some?
  }

  function Values(s: string): seq<nat>
    requires AllSymbols(s)
  {
    seq(|s|, i requires 0 <= i < |s| => Value(s[i]).value)
  }

  lemma {:induction false} ValueBound(c: char, i: nat)
    requires i <= 64
    ensures ValueFrom(c, i).Some? ==> i <= ValueFrom(c, i).value < 64 && SymbolAt(ValueFrom(c, i).value) == c
    decreases 64 - i
  {
    if i < 64 && SymbolAt(i) != c {
      ValueBound(c, i + 1);
    }
  }

  /** The accumulator between symbols: at most six bits, an even number of them, nothing above them. */
  predicate Tidy(a: Accumulator) {
    (a.bits == 0 || a.bits == 2 || a.bits == 4 || a.bits == 6) && a.buf < Pow2(a.bits)
  }

  lemma Powers()
    ensures Pow2(0) == 1 && Pow2(2) == 4 && Pow2(4) == 16 && Pow2(6) == 64
  {
    assert Pow2(1) == 2 && Pow2(3) == 8 && Pow2(5) == 32;
  }

  /** No shift overflows: the shifted buffer stays below 2^12, and the emitted quotient is a byte. */
  lemma ShiftTidy(a: Accumulator, v: nat)
    requires Tidy(a) && v < 64
    ensures Tidy(Shift(a, v)) && a.buf * 64 + v < Pow2(a.bits) * 64 <= 4096 < U32
    ensures a.bits + 6 >= 8 ==> Drop(a.buf * 64 + v, a.bits + 6 - 8) < 256
    ensures 8 * |Shift(a, v).out| + Shift(a, v).bits == 8 * |a.out| + a.bits + 6
  {
    Powers();
    ShiftsAndMasks(a.buf * 64 + v);
  }

  lemma {:induction false} ShiftAllTidy(a: Accumulator, vs: seq<nat>)
    requires Tidy(a) && forall i :: 0 <= i < |vs| ==> vs[i] < 64
    ensures Tidy(ShiftAll(a, vs))
    ensures 8 * |ShiftAll(a, vs).out| + ShiftAll(a, vs).bits == 8 * |a.out| + a.bits + 6 * |vs|
  {
    if vs != [] {
      ShiftAllTidy(a, vs[..|vs| - 1]);
      ShiftTidy(ShiftAll(a, vs[..|vs| - 1]), vs[|vs| - 1]);
    }
  }

  function Decode(s: string): Option<Bytes> {
    var t := BeforePadding(s);
    if AllSymbols(t) then Some(ShiftAll(EMPTY, Values(t)).out) else None
  }

  method ShiftIn(out: Bytes, buf: nat, bits: nat, val: nat) returns (out': Bytes, buf': nat, bits': nat)
    ensures Accumulator(out', buf', bits') == Shift(Accumulator(out, buf, bits), val)
  {
    out', buf', bits' := out, buf * 64 + val, bits + 6;
    if bits' >= 8 {
      bits' := bits' - 8;
      out' := out' + [LowByte(Drop(buf', bits'))];
      buf' := Low(buf', bits');
    }
  }

  /** The decoder's accumulator is tidy after every prefix, so no shift overflows; its length is fixed. */
  lemma DecodedLength(s: string)
    requires AllSymbols(s)
    ensures forall n :: 0 <= n <= |s| ==> Tidy(ShiftAll(EMPTY, Values(s)[..n]))
    ensures |ShiftAll(EMPTY, Values(s)).out| == 6 * |s| / 8
  {
    forall i | 0 <= i < |s| ensures Values(s)[i] < 64 {
      ValueBound(s[i], 0);
    }
    Powers();
    forall n | 0 <= n <= |s| ensures Tidy(ShiftAll(EMPTY, Values(s)[..n])) {
      ShiftAllTidy(EMPTY, Values(s)[..n]);
    }
    ShiftAllTidy(EMPTY, Values(s));
  }

  /** Decoding from an accumulator, symbol by symbol. */
  function DecodeFrom(a: Accumulator, s: string): Option<Bytes>
    decreases |s|
  {
    if s == "" || s[0] == '=' then Some(a.out)
    else match Value(s[0])
      case None => None
      case Some(v) => DecodeFrom(Shift(a, v), s[1..])
  }

  lemma {:induction false} DecodeFromIsDecode(done: string, s: string)
    requires AllSymbols(done)
    ensures DecodeFrom(ShiftAll(EMPTY, Values(done)), s) ==
            if AllSymbols(done + BeforePadding(s))
            then Some(ShiftAll(EMPTY, Values(done + BeforePadding(s))).out) else None
    decreases |s|
  {
    var all := done + BeforePadding(s);
    if s == "" || s[0] == '=' {
      assert all == done;
    } else {
      assert all[|done|] == s[0];
      if Value(s[0]).Some? {
        var more := done + [s[0]];
        assert Values(more)[..|done|] == Values(done);
        assert more + BeforePadding(s[1..]) == all;
        DecodeFromIsDecode(more, s[1..]);
      }
    }
  }

  lemma DecodeIsDecodeFrom(s: string)
    ensures DecodeFrom(EMPTY, s) == Decode(s)
  {
    DecodeFromIsDecode("", s);
    assert Values("") == [];
    assert "" + BeforePadding(s) == BeforePadding(s);
  }

  /** None exactly when a symbol before the padding is not in the table; floor(6n/8) bytes otherwise. */
  method Base64Decode(input: string) returns (r: Option<Bytes>)
    ensures r == Decode(input)
    ensures r.Some? <==> AllSymbols(BeforePadding(input))
    ensures r.Some? ==> |r.value| == 6 * |BeforePadding(input)| / 8
  {
    DecodeIsDecodeFrom(input);
    if AllSymbols(BeforePadding(input)) {
      DecodedLength(BeforePadding(input));
    }
    var out: Bytes, buf: nat, bits: nat := [], 0, 0;
    for i := 0 to |input|
      invariant DecodeFrom(EMPTY, input) == DecodeFrom(Accumulator(out, buf, bits), input[i..])
    {
      assert input[i..][1..] == input[i + 1..];
      if input[i] == '=' {
        return Some(out);
      }
      var val := Value(input[i]);
      if val.None? {
        return None;
      }
      out, buf, bits := ShiftIn(out, buf, bits, val.value);
    }
    return Some(out);
  }

  // ---------------------------------------------------------------------------------------------
  // The encoding, and the round trip
  // ---------------------------------------------------------------------------------------------

  function Pad(padded: bool, n: nat): string {
    if !padded || n == 0 then "" else ['='] + Pad(padded, n - 1)
  }

  /** Groups of three bytes become four symbols; the last group of one or two becomes two or three. */
  function Encode(bs: Bytes, padded: bool): string {
    if |bs| == 0 then ""
    else
      var x := bs[0] as nat;
      if |bs| == 1 then
        [SymbolAt(x / 4), SymbolAt(x % 4 * 16)] + Pad(padded, 2)
      else
        var y := bs[1] as nat;
        if |bs| == 2 then
          [SymbolAt(x / 4), SymbolAt(x % 4 * 16 + y / 16), SymbolAt(y % 16 * 4)] + Pad(padded, 1)
        else
          var z := bs[2] as nat;
          [SymbolAt(x / 4), SymbolAt(x % 4 * 16 + y / 16), SymbolAt(y % 16 * 4 + z / 64), SymbolAt(z % 64)]
          + Encode(bs[3..], padded)
  }

  lemma {:induction false} ValueOfSymbol(v: nat, i: nat)
    requires i <= v < 64
    ensures ValueFrom(SymbolAt(v), i) == Some(v) && SymbolAt(v) != '='
    decreases v - i
  {
    TableDistinct(v, i);
    if i < v {
      ValueOfSymbol(v, i + 1);
    }
  }

  /** The 64 symbols are distinct, and none is the padding character. */
  lemma TableDistinct(v: nat, i: nat)
    requires i <= v < 64
    ensures SymbolAt(v) != '=' && (i < v ==> SymbolAt(i) != SymbolAt(v))
  {
    assert Code(SymbolAt(v)) == v && Code(SymbolAt(i)) == i;
  }

  /** Arithmetic inverse of the table. */
  function Code(c: char): int {
    if 'A' <= c <= 'Z' then c as int - 'A' as int
    else if 'a' <= c <= 'z' then c as int - 'a' as int + 26
    else if '0' <= c <= '9' then c as int - '0' as int + 52
    else if c == '+' then 62
    else if c == '/' then 63
    else -1
  }

  /** Two values of six bits: a byte of six high and two low bits, and four bits pending. */
  lemma ShiftPair(out: Bytes, x: nat, w: nat)
    requires x < 256 && w < 16
    ensures Shift(Shift(Accumulator(out, 0, 0), x / 4), x % 4 * 16 + w) == Accumulator(out + [x as Byte], w, 4)
  {
    var high, low := x / 4, x % 4;
    assert Shift(Accumulator(out, 0, 0), high) == Accumulator(out, high, 6);
    var buf := high * 64 + (low * 16 + w);
    assert buf == 16 * x + w;
    ByFour(buf);
    assert buf / 16 == x && buf % 16 == w;
  }

  lemma ShiftThird(out: Bytes, y: nat, w: nat)
    requires y < 256 && w < 4
    ensures Shift(Accumulator(out, y / 16, 4), y % 16 * 4 + w) == Accumulator(out + [y as Byte], w, 2)
  {
    var high, low := y / 16, y % 16;
    var buf := high * 64 + (low * 4 + w);
    assert buf == 4 * y + w;
    ByTwo(buf);
    assert buf / 4 == y && buf % 4 == w;
  }

  lemma ShiftFourth(out: Bytes, z: nat)
    requires z < 256
    ensures Shift(Accumulator(out, z / 64, 2), z % 64) == Accumulator(out + [z as Byte], 0, 0)
  {
    assert z / 64 * 64 + z % 64 == z;
    assert Drop(z, 0) == z && Low(z, 0) == 0;
  }

  lemma DecodeSymbol(a: Accumulator, v: nat, rest: string)
    requires v < 64
    ensures DecodeFrom(a, [SymbolAt(v)] + rest) == DecodeFrom(Shift(a, v), rest)
  {
    ValueOfSymbol(v, 0);
    assert ([SymbolAt(v)] + rest)[1..] == rest;
  }

  lemma DecodePad(a: Accumulator, padded: bool, n: nat)
    ensures DecodeFrom(a, Pad(padded, n)) == Some(a.out)
  {
  }

  lemma DecodeOne(out: Bytes, x: nat, padded: bool)
    requires x < 256
    ensures DecodeFrom(Accumulator(out, 0, 0), Encode([x as Byte], padded)) == Some(out + [x as Byte])
  {
    TwoSymbols(Accumulator(out, 0, 0), x / 4, x % 4 * 16, Pad(padded, 2));
    ShiftPair(out, x, 0);
    DecodePad(Accumulator(out + [x as Byte], 0, 4), padded, 2);
  }

  /** Two bytes leave the second one's low bits pending. */
  lemma DecodeTwo(out: Bytes, x: nat, y: nat, w: nat, rest: string)
    requires x < 256 && y < 256 && w < 4
    ensures DecodeFrom(Accumulator(out, 0, 0),
                       [SymbolAt(x / 4), SymbolAt(x % 4 * 16 + y / 16)] + ([SymbolAt(y % 16 * 4 + w)] + rest))
            == DecodeFrom(Accumulator(out + [x as Byte] + [y as Byte], w, 2), rest)
  {
    TwoSymbols(Accumulator(out, 0, 0), x / 4, x % 4 * 16 + y / 16, [SymbolAt(y % 16 * 4 + w)] + rest);
    ShiftPair(out, x, y / 16);
    DecodeSymbol(Accumulator(out + [x as Byte], y / 16, 4), y % 16 * 4 + w, rest);
    ShiftThird(out + [x as Byte], y, w);
  }

  lemma {:induction false} DecodeEncoded(out: Bytes, bs: Bytes, padded: bool)
    ensures DecodeFrom(Accumulator(out, 0, 0), Encode(bs, padded)) == Some(out + bs)
    decreases |bs|
  {
    if |bs| == 0 {
      assert out + bs == out;
    } else if |bs| == 1 {
      assert bs == [bs[0]];
      DecodeOne(out, bs[0] as nat, padded);
    } else if |bs| == 2 {
      DecodeLastTwo(out, bs, padded);
    } else {
      DecodeThree(out, bs, padded);
      var more := out + [bs[0]] + [bs[1]] + [bs[2]];
      DecodeEncoded(more, bs[3..], padded);
      assert out + bs == more + bs[3..];
    }
  }

  lemma DecodeLastTwo(out: Bytes, bs: Bytes, padded: bool)
    requires |bs| == 2
    ensures DecodeFrom(Accumulator(out, 0, 0), Encode(bs, padded)) == Some(out + bs)
  {
    var x, y := bs[0] as nat, bs[1] as nat;
    DecodeTwo(out, x, y, 0, Pad(padded, 1));
    EncodeTwo(bs, padded);
    DecodePad(Accumulator(out + [bs[0]] + [bs[1]], 0, 2), padded, 1);
    assert out + bs == out + [bs[0]] + [bs[1]];
  }

  lemma EncodeTwo(bs: Bytes, padded: bool)
    requires |bs| == 2
    ensures var x, y := bs[0] as nat, bs[1] as nat;
            Encode(bs, padded) ==
            [SymbolAt(x / 4), SymbolAt(x % 4 * 16 + y / 16)] + ([SymbolAt(y % 16 * 4 + 0)] + Pad(padded, 1))
  {
  }

  lemma EncodeThree(bs: Bytes, padded: bool)
    requires |bs| >= 3
    ensures var x, y, z := bs[0] as nat, bs[1] as nat, bs[2] as nat;
            Encode(bs, padded) ==
            [SymbolAt(x / 4), SymbolAt(x % 4 * 16 + y / 16)]
            + ([SymbolAt(y % 16 * 4 + z / 64)] + ([SymbolAt(z % 64)] + Encode(bs[3..], padded)))
  {
  }

  lemma DecodeThree(out: Bytes, bs: Bytes, padded: bool)
    requires |bs| >= 3
    ensures DecodeFrom(Accumulator(out, 0, 0), Encode(bs, padded)) ==
            DecodeFrom(Accumulator(out + [bs[0]] + [bs[1]] + [bs[2]], 0, 0), Encode(bs[3..], padded))
  {
    var x, y, z := bs[0] as nat, bs[1] as nat, bs[2] as nat;
    var more := out + [bs[0]] + [bs[1]];
    var rest := Encode(bs[3..], padded);
    DecodeTwo(out, x, y, z / 64, [SymbolAt(z % 64)] + rest);
    EncodeThree(bs, padded);
    DecodeSymbol(Accumulator(more, z / 64, 2), z % 64, rest);
    ShiftFourth(more, z);
  }

  lemma TwoSymbols(a: Accumulator, v: nat, w: nat, rest: string)
    requires v < 64 && w < 64
    ensures DecodeFrom(a, [SymbolAt(v), SymbolAt(w)] + rest) == DecodeFrom(Shift(Shift(a, v), w), rest)
  {
    assert [SymbolAt(v), SymbolAt(w)] + rest == [SymbolAt(v)] + ([SymbolAt(w)] + rest);
    DecodeSymbol(a, v, [SymbolAt(w)] + rest);
    DecodeSymbol(Shift(a, v), w, rest);
  }

  /** Unpadded, the encoding is symbols only; padding makes it up to a multiple of four with at most two more characters. */
  lemma {:induction false} EncodingShape(bs: Bytes)
    ensures |Encode(bs, false)| == (4 * |bs| + 2) / 3
    ensures |Encode(bs, true)| == (|bs| + 2) / 3 * 4
    ensures Encode(bs, false) <= Encode(bs, true)
    ensures forall i :: |Encode(bs, false)| <= i < |Encode(bs, true)| ==> Encode(bs, true)[i] == '='
  {
    if |bs| < 3 {
      LastGroup(bs);
    } else {
      EncodingShape(bs[3..]);
      EncodeThree(bs, false);
      EncodeThree(bs, true);
      ThreeMore(|bs|);
      OneGroup(bs[0] as nat, bs[1] as nat, bs[2] as nat, Encode(bs[3..], false), Encode(bs, false));
      OneGroup(bs[0] as nat, bs[1] as nat, bs[2] as nat, Encode(bs[3..], true), Encode(bs, true));
    }
  }

  lemma OneGroup(x: nat, y: nat, z: nat, rest: string, all: string)
    requires x < 256 && y < 256 && z < 256
    requires all == [SymbolAt(x / 4), SymbolAt(x % 4 * 16 + y / 16)]
                    + ([SymbolAt(y % 16 * 4 + z / 64)] + ([SymbolAt(z % 64)] + rest))
    ensures |all| == |rest| + 4 && all[4..] == rest
    ensures all[..4] == [SymbolAt(x / 4), SymbolAt(x % 4 * 16 + y / 16), SymbolAt(y % 16 * 4 + z / 64), SymbolAt(z % 64)]
  {
  }

  lemma ThreeMore(n: nat)
    requires n >= 3
    ensures (4 * n + 2) / 3 == (4 * (n - 3) + 2) / 3 + 4 && (n + 2) / 3 * 4 == (n - 3 + 2) / 3 * 4 + 4
  {
  }

  lemma LastGroup(bs: Bytes)
    requires |bs| < 3
    ensures |Encode(bs, false)| == (4 * |bs| + 2) / 3
    ensures |Encode(bs, true)| == (|bs| + 2) / 3 * 4
    ensures Encode(bs, false) <= Encode(bs, true)
    ensures forall i :: |Encode(bs, false)| <= i < |Encode(bs, true)| ==> Encode(bs, true)[i] == '='
  {
    assert Pad(true, 1) == ['='] + Pad(true, 0) && Pad(true, 2) == ['='] + Pad(true, 1);
  }

  lemma DecodedFromEmpty(s: string, out: Bytes, bs: Bytes)
    requires out == [] && DecodeFrom(Accumulator(out, 0, 0), s) == Some(out + bs)
    ensures Decode(s) == Some(bs)
  {
    DecodeIsDecodeFrom(s);
    assert out + bs == bs;
  }

  /** Decoding any byte string's encoding, with or without padding, returns it. */
  lemma RoundTrip(bs: Bytes, padded: bool)
    ensures Decode(Encode(bs, padded)) == Some(bs)
  {
    DecodeEncoded([], bs, padded);
    DecodedFromEmpty(Encode(bs, padded), [], bs);
  }
}
