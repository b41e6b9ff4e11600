/** The byte encoding behind `to_binary` / `from_binary`.

    The contract serialises its messages with serde-JSON (and base64 for
    nested `Binary` fields). That byte layout belongs to libraries outside
    this model, so it is replaced here by a small encoding that keeps the
    two properties the contract relies on: every fixed message shape has an
    encoding, and decoding an encoding gives the value back. Decoding a byte
    string that is not an encoding fails with a `StdError`, never a crash. */
module Binary {
  import opened Wrappers

  type Byte = b: int | 0 <= b < 256
  type Bytes = seq<Byte>

  /** The largest value of a Rust `u32`. */
  const U32_MAX: nat := 0xFFFF_FFFF

  /** `cosmwasm_std::StdError::ParseErr`: the target type and a reason. */
  datatype StdError = ParseErr(targetType: string, msg: string)

  // ---------------------------------------------------------------------
  // Booleans: one byte, 0 or 1.

  function EncodeBool(b: bool): (r: Bytes)
    ensures |r| == 1
  {
    if b then [1] else [0]
  }

  function DecodeBool(x: Byte): (r: Option<bool>)
    ensures r.Some? <==> x < 2
    ensures r.Some? ==> EncodeBool(r.value) == [x]
  {
    if x == 0 then Some(false) else if x == 1 then Some(true) else None
  }

  /** Every bool decodes back from its byte. */
  lemma BoolRoundTrip(b: bool)
    ensures DecodeBool(EncodeBool(b)[0]) == Some(b)
  {
  }

  // ---------------------------------------------------------------------
  // u32: four bytes, most significant first.

  function EncodeU32(n: nat): (r: Bytes)
    requires n <= U32_MAX
    ensures |r| == 4
  {
    [n / 0x100_0000, (n / 0x1_0000) % 0x100, (n / 0x100) % 0x100, n % 0x100]
  }

  function DecodeU32(b: Bytes): (n: nat)
    requires |b| == 4
    ensures n <= U32_MAX
  {
    b[0] as int * 0x100_0000 + b[1] as int * 0x1_0000 + b[2] as int * 0x100 + b[3]
  }

  lemma U32RoundTrip(n: nat)
    requires n <= U32_MAX
    ensures DecodeU32(EncodeU32(n)) == n
  {
    var e := EncodeU32(n);
    var q := n / 0x100;
    var qq := q / 0x100;
    assert n == q * 0x100 + n % 0x100;
    assert q == qq * 0x100 + q % 0x100;
    assert qq == (qq / 0x100) * 0x100 + qq % 0x100;
    assert (n / 0x1_0000) == qq;
    assert (n / 0x100_0000) == qq / 0x100;
  }

  /** Every four bytes are the encoding of the number they decode to. */
  lemma U32Canonical(b: Bytes)
    requires |b| == 4
    ensures EncodeU32(DecodeU32(b)) == b
  {
    var n := DecodeU32(b);
    assert n / 0x100 == b[0] as int * 0x1_0000 + b[1] as int * 0x100 + b[2];
    assert n / 0x1_0000 == b[0] as int * 0x100 + b[1];
    assert n / 0x100_0000 == b[0];
  }

  // ---------------------------------------------------------------------
  // Characters: the Unicode scalar value in three bytes.

  predicate IsScalarValue(v: int) {
    (0 <= v < 0xD800) || (0xE000 <= v < 0x11_0000)
  }

  function EncodeChar(c: char): (r: Bytes)
    ensures |r| == 3
  {
    var v := c as int;
    [v / 0x1_0000, (v / 0x100) % 0x100, v % 0x100]
  }

  function DecodeChar(b0: Byte, b1: Byte, b2: Byte): (r: Option<char>)
    ensures r.Some? <==> IsScalarValue(b0 * 0x1_0000 + b1 * 0x100 + b2)
  {
    var v := b0 * 0x1_0000 + b1 * 0x100 + b2;
    if IsScalarValue(v) then Some(v as char) else None
  }

  lemma CharRoundTrip(c: char)
    ensures var e := EncodeChar(c); DecodeChar(e[0], e[1], e[2]) == Some(c)
  {
    var v := c as int;
    var q := v / 0x100;
    assert v == q * 0x100 + v % 0x100;
    assert q == (q / 0x100) * 0x100 + q % 0x100;
    assert v / 0x1_0000 == q / 0x100;
  }

  // ---------------------------------------------------------------------
  // Strings: the characters one after the other.

  function EncodeString(s: string): (r: Bytes)
    ensures |r| == 3 * |s|
  {
    seq(3 * |s|, i requires 0 <= i < 3 * |s| => EncodeChar(s[i / 3])[i % 3])
  }

  /** The encoding of a string is its first character's, then the rest's. */
  lemma EncodeStringCons(s: string)
    requires s != []
    ensures EncodeString(s) == EncodeChar(s[0]) + EncodeString(s[1..])
  {
    var e, t := EncodeString(s), EncodeString(s[1..]);
    forall i | 3 <= i < |e|
      ensures e[i] == t[i - 3]
    {
      assert i / 3 == (i - 3) / 3 + 1 && i % 3 == (i - 3) % 3;
    }
  }

  function DecodeString(b: Bytes): (r: Option<string>)
    decreases |b|
  {
    if b == [] then Some([])
    else if |b| < 3 then None
    else
      match DecodeChar(b[0], b[1], b[2])
      case None => None
      case Some(c) =>
        match DecodeString(b[3..])
        case None => None
        case Some(rest) => Some([c] + rest)
  }

  lemma {:induction false} StringRoundTrip(s: string)
    ensures DecodeString(EncodeString(s)) == Some(s)
  {
    if s != [] {
      var e := EncodeString(s);
      EncodeStringCons(s);
      CharRoundTrip(s[0]);
      assert e[3..] == EncodeString(s[1..]);
      StringRoundTrip(s[1..]);
      assert [s[0]] + s[1..] == s;
    }
  }

  /** Three bytes that decode to a character are that character's encoding. */
  lemma CharCanonical(b0: Byte, b1: Byte, b2: Byte)
    requires DecodeChar(b0, b1, b2).Some?
    ensures EncodeChar(DecodeChar(b0, b1, b2).value) == [b0, b1, b2]
  {
    var v := b0 as int * 0x1_0000 + b1 as int * 0x100 + b2;
    assert DecodeChar(b0, b1, b2).value as int == v;
    assert v / 0x100 == b0 as int * 0x100 + b1;
    assert v / 0x1_0000 == b0;
  }

  /** Decoding accepts only encodings: what it returns encodes back to its input. */
  lemma {:induction false} StringCanonical(b: Bytes)
    requires DecodeString(b).Some?
    ensures EncodeString(DecodeString(b).value) == b
  {
    if b != [] {
      var s := DecodeString(b).value;
      var c := DecodeChar(b[0], b[1], b[2]).value;
      var rest := DecodeString(b[3..]).value;
      assert s == [c] + rest;
      CharCanonical(b[0], b[1], b[2]);
      StringCanonical(b[3..]);
      EncodeStringCons(s);
      assert s[0] == c && s[1..] == rest;
      assert b == [b[0], b[1], b[2]] + b[3..];
    }
  }

  // ---------------------------------------------------------------------
  // Variant names: one length byte, then the name. The fields of a variant
  // follow in declaration order, without their names.

  function Key(name: string): (r: Bytes)
    requires |name| < 256
    ensures |r| == 1 + 3 * |name| && r[0] == |name|
  {
    [|name|] + EncodeString(name)
  }

  predicate HasPrefix(b: Bytes, p: Bytes) {
    |p| <= |b| && b[..|p|] == p
  }

  /** Two names of different lengths never tag the same bytes. */
  lemma KeysExclusive(b: Bytes, n1: string, n2: string)
    requires |n1| < 256 && |n2| < 256 && |n1| != |n2|
    ensures !(HasPrefix(b, Key(n1)) && HasPrefix(b, Key(n2)))
  {
  }
}
