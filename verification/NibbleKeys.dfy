/**
 Byte keys written as hexadecimal nibbles, with the value 16 as terminator.
 */
module NibbleKeys {
  import opened Base

  const TERMINATOR: Byte := 16

  predicate HasTerm(s: seq<Byte>) {
    |s| > 0 && s[|s| - 1] == TERMINATOR
  }

  /** Two nibbles and, at the end, the terminator. */
  function Hex(key: seq<Byte>): (h: seq<Byte>)
    ensures |h| == 2 * |key| + 1
  {
    if key == [] then [TERMINATOR] else [key[0] / 16, key[0] % 16] + Hex(key[1..])
  }

  lemma {:induction false} HexAt(key: seq<Byte>, i: nat)
    requires i < |key|
    ensures Hex(key)[2 * i] == key[i] / 16 && Hex(key)[2 * i + 1] == key[i] % 16
  {
    if i == 0 {
    } else {
      HexAt(key[1..], i - 1);
    }
  }

  lemma {:induction false} HexEnds(key: seq<Byte>)
    ensures Hex(key)[2 * |key|] == TERMINATOR
  {
    if key == [] {
    } else {
      HexEnds(key[1..]);
    }
  }

  method KeybytesToHex(key: array<Byte>) returns (nibbles: array<Byte>)
    ensures fresh(nibbles) && nibbles[..] == Hex(key[..])
  {
    var l := key.Length * 2 + 1;
    nibbles := new Byte[l];
    for i := 0 to key.Length
      invariant forall k :: 0 <= k < i ==> nibbles[2 * k] == key[k] / 16 && nibbles[2 * k + 1] == key[k] % 16
    {
      nibbles[i * 2] := key[i] / 16;
      nibbles[i * 2 + 1] := key[i] % 16;
    }
    nibbles[l - 1] := TERMINATOR;
    HexEnds(key[..]);
    forall j | 0 <= j < l ensures nibbles[j] == Hex(key[..])[j] {
      if j < l - 1 {
        HexAt(key[..], j / 2);
        assert j == 2 * (j / 2) || j == 2 * (j / 2) + 1;
      }
    }
  }

  /** Bitwise or. */
  function Or(a: nat, b: nat): nat {
    if a == 0 then b else if b == 0 then a else (if a % 2 == 1 || b % 2 == 1 then 1 else 0) + 2 * Or(a / 2, b / 2)
  }

  lemma {:induction false} OrBound(a: nat, b: nat, n: nat)
    requires a < Pow2(n) && b < Pow2(n)
    ensures Or(a, b) < Pow2(n)
  {
    if a == 0 || b == 0 {
    } else {
      OrBound(a / 2, b / 2, n - 1);
    }
  }

  function Pow2(n: nat): nat {
    if n == 0 then 1 else 2 * Pow2(n - 1)
  }

  /** Or-ing into a cleared low bit, two of them, and four of them, is adding. */
  lemma OrTimes2(x: nat, b: nat)
    requires b < 2
    ensures Or(2 * x, b) == 2 * x + b
  {
    if x > 0 && b > 0 {
      assert (2 * x) / 2 == x && b / 2 == 0 && Or(x, 0) == x;
    }
  }

  lemma OrTimes4(x: nat, b: nat)
    requires b < 4
    ensures Or(4 * x, b) == 4 * x + b
  {
    if x > 0 && b > 0 {
      OrTimes2(x, b / 2);
      assert (4 * x) / 2 == 2 * x && (4 * x) % 2 == 0;
    }
  }

  lemma OrTimes8(x: nat, b: nat)
    requires b < 8
    ensures Or(8 * x, b) == 8 * x + b
  {
    if x > 0 && b > 0 {
      OrTimes4(x, b / 2);
      assert (8 * x) / 2 == 4 * x && (8 * x) % 2 == 0;
    }
  }

  lemma OrTimes16(x: nat, b: nat)
    requires b < 16
    ensures Or(16 * x, b) == 16 * x + b
  {
    if x > 0 && b > 0 {
      OrTimes8(x, b / 2);
      assert (16 * x) / 2 == 8 * x && (16 * x) % 2 == 0;
    }
  }

  /** `hi << 4 | lo` on bytes: the shift loses the high bits of `hi`. */
  function Joined(hi: Byte, lo: Byte): Byte {
    assert Or(hi * 16 % 256, lo) < 256 by {
      assert Pow2(4) == 16 && Pow2(8) == 256;
      OrBound(hi * 16 % 256, lo, 8);
    }
    Or(hi * 16 % 256, lo)
  }

  /** Pairs of nibbles packed into bytes; the high one is shifted, losing its own
      high bits. */
  function Pack(nibbles: seq<Byte>): (bytes: seq<Byte>)
    requires |nibbles| % 2 == 0
    ensures |bytes| == |nibbles| / 2
  {
    if nibbles == [] then [] else [Joined(nibbles[0], nibbles[1])] + Pack(nibbles[2..])
  }

  lemma {:induction false} PackAt(nibbles: seq<Byte>, i: nat)
    requires |nibbles| % 2 == 0 && 2 * i < |nibbles|
    ensures Pack(nibbles)[i] == Joined(nibbles[2 * i], nibbles[2 * i + 1])
  {
    if i == 0 {
    } else {
      PackAt(nibbles[2..], i - 1);
    }
  }

  method DecodeNibbles(nibbles: seq<Byte>, bytes: array<Byte>)
    requires |nibbles| == 2 * bytes.Length
    modifies bytes
    ensures bytes[..] == Pack(nibbles)
  {
    var bi, ni := 0, 0;
    while ni < |nibbles|
      invariant ni == 2 * bi && 0 <= bi <= bytes.Length
      invariant forall k :: 0 <= k < bi ==> bytes[k] == Pack(nibbles)[k]
    {
      PackAt(nibbles, bi);
      bytes[bi] := Joined(nibbles[ni], nibbles[ni + 1]);
      bi, ni := bi + 1, ni + 2;
    }
  }

  function Unterminated(hex: seq<Byte>): seq<Byte> {
    if HasTerm(hex) then hex[..|hex| - 1] else hex
  }

  /** The bytes of a hexadecimal key, or the panic on an odd number of nibbles. */
  function Bytes(hex: seq<Byte>): Result<seq<Byte>, ()> {
    if |Unterminated(hex)| % 2 == 1 then Err(()) else Ok(Pack(Unterminated(hex)))
  }

  method HexToKeybytes(hex: seq<Byte>) returns (r: Result<seq<Byte>, ()>)
    ensures r == Bytes(hex)
  {
    var body := hex;
    if HasTerm(hex) {
      body := hex[..|hex| - 1];
    }
    if |body| % 2 != 0 {
      return Err(());
    }
    var key := new Byte[|body| / 2];
    DecodeNibbles(body, key);
    return Ok(key[..]);
  }

  lemma JoinNibbles(hi: Byte, lo: Byte)
    requires hi < 16 && lo < 16
    ensures Joined(hi, lo) == 16 * hi + lo
  {
    OrTimes16(hi, lo);
    assert hi * 16 % 256 == 16 * hi;
  }

  lemma {:induction false} PackHex(key: seq<Byte>)
    ensures Pack(Hex(key)[..2 * |key|]) == key
  {
    if key == [] {
    } else {
      var nibbles := Hex(key)[..2 * |key|];
      PackHex(key[1..]);
      JoinNibbles(key[0] / 16, key[0] % 16);
      assert nibbles[2..] == Hex(key[1..])[..2 * |key[1..]|];
    }
  }

  /** Decoding undoes encoding, for every key. */
  lemma RoundTrip(key: seq<Byte>)
    ensures Bytes(Hex(key)) == Ok(key)
  {
    HexEnds(key);
    PackHex(key);
    assert Unterminated(Hex(key)) == Hex(key)[..2 * |key|];
  }

  /** A nibble sequence that encoding can produce. */
  ghost predicate WellFormed(hex: seq<Byte>) {
    HasTerm(hex) && |hex| % 2 == 1 && forall i :: 0 <= i < |hex| - 1 ==> hex[i] < 16
  }

  lemma ByteNibbles(b: Byte)
    ensures b / 16 < 16 && b % 16 < 16
  {}

  lemma HexNibbles(key: seq<Byte>, i: nat)
    requires i < 2 * |key|
    ensures Hex(key)[i] < 16
  {
    var h := i / 2;
    assert i == 2 * h || i == 2 * h + 1;
    HexAt(key, h);
    ByteNibbles(key[h]);
  }

  lemma {:induction false} HexPack(nibbles: seq<Byte>)
    requires |nibbles| % 2 == 0 && forall i :: 0 <= i < |nibbles| ==> nibbles[i] < 16
    ensures Hex(Pack(nibbles)) == nibbles + [TERMINATOR]
  {
    if nibbles == [] {
    } else {
      var hi, lo, rest := nibbles[0], nibbles[1], nibbles[2..];
      HexPack(rest);
      JoinNibbles(hi, lo);
      Halves(hi, lo);
      assert Pack(nibbles) == [Joined(hi, lo)] + Pack(rest);
      assert nibbles == [hi, lo] + rest;
    }
  }

  lemma Halves(hi: Byte, lo: Byte)
    requires hi < 16 && lo < 16
    ensures (16 * hi + lo) / 16 == hi && (16 * hi + lo) % 16 == lo
  {}

  /** Encoding undoes decoding exactly on the sequences encoding produces. */
  lemma DecodeThenEncode(hex: seq<Byte>)
    ensures Bytes(hex).Ok? && Hex(Bytes(hex).value) == hex <==> WellFormed(hex)
  {
    if WellFormed(hex) {
      HexPack(Unterminated(hex));
    }
    if Bytes(hex).Ok? && Hex(Bytes(hex).value) == hex {
      var key := Bytes(hex).value;
      HexEnds(key);
      forall i | 0 <= i < |hex| - 1 ensures hex[i] < 16 { HexNibbles(key, i); }
    }
  }

  // --------------------------------------------------------- common prefixes

  function CommonPrefix(a: seq<Byte>, b: seq<Byte>): (n: nat)
    ensures n <= |a| && n <= |b| && a[..n] == b[..n]
    ensures n < |a| && n < |b| ==> a[n] != b[n]
  {
    if a == [] || b == [] || a[0] != b[0] then 0
    else
      var n := CommonPrefix(a[1..], b[1..]);
      assert a[..n + 1] == [a[0]] + a[1..][..n] && b[..n + 1] == [b[0]] + b[1..][..n];
      n + 1
  }

  /** The common prefix length is fixed by what it promises. */
  lemma PrefixUnique(a: seq<Byte>, b: seq<Byte>, n: nat)
    requires n <= |a| && n <= |b| && a[..n] == b[..n] && (n < |a| && n < |b| ==> a[n] != b[n])
    ensures n == CommonPrefix(a, b)
  {
    var m := CommonPrefix(a, b);
    forall k | 0 <= k < n ensures a[k] == b[k] { assert a[..n][k] == b[..n][k]; }
    forall k | 0 <= k < m ensures a[k] == b[k] { assert a[..m][k] == b[..m][k]; }
  }

  method PrefixLen(a: seq<Byte>, b: seq<Byte>) returns (i: nat)
    ensures i == CommonPrefix(a, b)
  {
    i := 0;
    var length := |a|;
    if |b| < length {
      length := |b|;
    }
    while i < length
      invariant i <= length && a[..i] == b[..i]
    {
      if a[i] != b[i] {
        break;
      }
      assert a[..i + 1] == a[..i] + [a[i]] && b[..i + 1] == b[..i] + [b[i]];
      i := i + 1;
    }
    PrefixUnique(a, b, i);
  }

  lemma SharedNibbles(a: seq<Byte>, b: seq<Byte>, n: nat, i: nat)
    requires n <= |a| && n <= |b| && a[..n] == b[..n] && i < 2 * n
    ensures Hex(a)[i] == Hex(b)[i]
  {
    var k := i / 2;
    assert i == 2 * k || i == 2 * k + 1;
    assert a[k] == a[..n][k] == b[..n][k] == b[k];
    HexAt(a, k);
    HexAt(b, k);
  }

  /** Where the encodings of two keys part. */
  lemma EncodingsPart(a: seq<Byte>, b: seq<Byte>) returns (c: nat)
    ensures c == CommonPrefix(Hex(a), Hex(b)) && c / 2 == CommonPrefix(a, b)
    ensures a != b ==> c < |Hex(a)| && c < |Hex(b)| && Hex(a)[c] != Hex(b)[c]
  {
    var n := CommonPrefix(a, b);
    forall i | 0 <= i < 2 * n ensures Hex(a)[i] == Hex(b)[i] { SharedNibbles(a, b, n, i); }
    c := 2 * n;
    if n < |a| && n < |b| {
      HexAt(a, n);
      HexAt(b, n);
      if a[n] / 16 == b[n] / 16 { c := c + 1; }
    } else {
      if n < |a| { HexNibbles(a, 2 * n); } else { HexEnds(a); }
      if n < |b| { HexNibbles(b, 2 * n); } else { HexEnds(b); }
      if |a| == |b| {
        assert a == a[..n] && b == b[..n];
        c := c + 1;
      }
    }
    assert Hex(a)[..c] == Hex(b)[..c];
    PrefixUnique(Hex(a), Hex(b), c);
  }

  /** Two keys share half as many bytes as their encodings share nibbles. */
  lemma PrefixHalves(a: seq<Byte>, b: seq<Byte>)
    ensures CommonPrefix(Hex(a), Hex(b)) / 2 == CommonPrefix(a, b)
  {
    var _ := EncodingsPart(a, b);
  }

  /** The encodings of different keys part before either ends, so no encoding is a
      prefix of another. */
  lemma PrefixFree(a: seq<Byte>, b: seq<Byte>)
    requires a != b
    ensures CommonPrefix(Hex(a), Hex(b)) < |Hex(a)| && CommonPrefix(Hex(a), Hex(b)) < |Hex(b)|
    ensures !(Hex(a) <= Hex(b))
  {
    var _ := EncodingsPart(a, b);
  }
}
