/** The bytes fed to the package hash: each file as a length-prefixed path and a length-prefixed content. */
module PackageHash {
  import opened Outcomes

  newtype Byte = b: int | 0 <= b < 256

  type Bytes = seq<Byte>

  // -------------------------------------------------------------------- UTF-8

  /** The UTF-8 form of one character (section 3 of RFC 3629). */
  function Utf8Char(c: char): (r: Bytes)
    ensures 1 <= |r| <= 4
  {
    var n := c as int;
    if n < 0x80 then [n as Byte]
    else if n < 0x800 then [(0xC0 + n / 64) as Byte, (0x80 + n % 64) as Byte]
    else if n < 0x1_0000 then [(0xE0 + n / 4096) as Byte, (0x80 + n / 64 % 64) as Byte, (0x80 + n % 64) as Byte]
    else [(0xF0 + n / 26_2144) as Byte, (0x80 + n / 4096 % 64) as Byte,
          (0x80 + n / 64 % 64) as Byte, (0x80 + n % 64) as Byte]
  }

  function Utf8(s: string): (r: Bytes)
    ensures |s| <= |r| <= 4 * |s|
  {
    if s == [] then [] else Utf8Char(s[0]) + Utf8(s[1..])
  }

  /** The code point at the head of a UTF-8 text. */
  function HeadCode(b: Bytes): int
    requires b != []
  {
    var at := (k: nat) => if k < |b| then b[k] as int else 0;
    if b[0] < 0x80 then at(0)
    else if b[0] < 0xE0 then (at(0) - 0xC0) * 64 + (at(1) - 0x80)
    else if b[0] < 0xF0 then (at(0) - 0xE0) * 4096 + (at(1) - 0x80) * 64 + (at(2) - 0x80)
    else (at(0) - 0xF0) * 26_2144 + (at(1) - 0x80) * 4096 + (at(2) - 0x80) * 64 + (at(3) - 0x80)
  }

  lemma HeadIsDecoded(c: char, rest: Bytes)
    ensures HeadCode(Utf8Char(c) + rest) == c as int
  {
    var n, b := c as int, Utf8Char(c) + rest;
    assert forall k :: 0 <= k < |Utf8Char(c)| ==> b[k] == Utf8Char(c)[k];
    assert n == n / 64 * 64 + n % 64;
    assert n / 64 == n / 4096 * 64 + n / 64 % 64;
    assert n / 4096 == n / 26_2144 * 64 + n / 4096 % 64;
  }

  /** Distinct paths have distinct UTF-8 forms. */
  lemma {:induction false} Utf8IsInjective(s: string, t: string)
    requires Utf8(s) == Utf8(t)
    ensures s == t
    decreases |s|
  {
    if s != [] && t != [] {
      HeadIsDecoded(s[0], Utf8(s[1..]));
      HeadIsDecoded(t[0], Utf8(t[1..]));
      assert Utf8(s)[|Utf8Char(s[0])|..] == Utf8(s[1..]);
      assert Utf8(t)[|Utf8Char(t[0])|..] == Utf8(t[1..]);
      Utf8IsInjective(s[1..], t[1..]);
    }
  }

  // ------------------------------------------------------- big-endian integers

  function Pow256(width: nat): (r: nat)
    ensures r > 0
  {
    if width == 0 then 1 else 256 * Pow256(width - 1)
  }

  /** `n.to_bytes(width, "big")`. */
  function BigEndian(n: nat, width: nat): (r: Bytes)
    requires n < Pow256(width)
    ensures |r| == width
    decreases width
  {
    if width == 0 then []
    else
      assert n / 256 < Pow256(width - 1);
      BigEndian(n / 256, width - 1) + [(n % 256) as Byte]
  }

  function FromBigEndian(b: Bytes): nat {
    if b == [] then 0 else FromBigEndian(b[..|b| - 1]) * 256 + b[|b| - 1] as nat
  }

  lemma {:induction false} BigEndianRoundTrip(n: nat, width: nat)
    requires n < Pow256(width)
    ensures FromBigEndian(BigEndian(n, width)) == n
    decreases width
  {
    if width > 0 {
      assert n / 256 < Pow256(width - 1);
      BigEndianRoundTrip(n / 256, width - 1);
      assert BigEndian(n, width)[..width - 1] == BigEndian(n / 256, width - 1);
    }
  }

  lemma {:induction false} FromBigEndianRoundTrip(b: Bytes)
    ensures FromBigEndian(b) < Pow256(|b|) && BigEndian(FromBigEndian(b), |b|) == b
  {
    if b != [] {
      FromBigEndianRoundTrip(b[..|b| - 1]);
      assert FromBigEndian(b) / 256 == FromBigEndian(b[..|b| - 1]);
      assert b == b[..|b| - 1] + [b[|b| - 1]];
    }
  }

  // ------------------------------------------------------------------ records

  datatype File = File(path: Bytes, content: Bytes)

  /** A field's length fits in its prefix. */
  predicate Fits(x: Bytes, width: nat) {
    |x| < Pow256(width)
  }

  predicate Encodable(f: File) {
    Fits(f.path, 4) && Fits(f.content, 8)
  }

  function Framed(x: Bytes, width: nat): Bytes
    requires Fits(x, width)
  {
    BigEndian(|x|, width) + x
  }

  function Record(f: File): Bytes
    requires Encodable(f)
  {
    Framed(f.path, 4) + Framed(f.content, 8)
  }

  function Encode(files: seq<File>): Bytes
    requires forall f :: f in files ==> Encodable(f)
  {
    if files == [] then [] else Record(files[0]) + Encode(files[1..])
  }

  /** Read one length-prefixed field and return what follows it. */
  function Field(b: Bytes, width: nat): (r: Option<(Bytes, Bytes)>)
    ensures r.Some? ==> |b| == width + |r.value.0| + |r.value.1|
  {
    if |b| < width then None
    else
      var n := FromBigEndian(b[..width]);
      if |b| < width + n then None else Some((b[width..width + n], b[width + n..]))
  }

  function Decode(b: Bytes): Option<seq<File>>
    decreases |b|
  {
    if b == [] then Some([])
    else
      match Field(b, 4)
      case None => None
      case Some((path, rest)) =>
        match Field(rest, 8)
        case None => None
        case Some((content, rest)) =>
          match Decode(rest)
          case None => None
          case Some(files) => Some([File(path, content)] + files)
  }

  lemma FieldRoundTrip(x: Bytes, width: nat, rest: Bytes)
    requires Fits(x, width)
    ensures Field(Framed(x, width) + rest, width) == Some((x, rest))
  {
    var b := Framed(x, width) + rest;
    BigEndianRoundTrip(|x|, width);
    assert b[..width] == BigEndian(|x|, width);
    assert b[width..width + |x|] == x && b[width + |x|..] == rest;
  }

  lemma RecordDecodes(f: File, rest: Bytes)
    requires Encodable(f) && Decode(rest).Some?
    ensures Decode(Record(f) + rest) == Some([f] + Decode(rest).value)
  {
    var tail := Framed(f.content, 8) + rest;
    assert Record(f) + rest == Framed(f.path, 4) + tail;
    FieldRoundTrip(f.path, 4, tail);
    FieldRoundTrip(f.content, 8, rest);
  }

  lemma Regroup<T>(a: seq<T>, b: seq<T>, c: seq<T>)
    ensures a + b + c == a + (b + c)
  {
  }

  /** What is fed to the hash determines the list of files. */
  lemma {:induction false} DecodeInvertsEncode(files: seq<File>)
    requires forall f :: f in files ==> Encodable(f)
    ensures Decode(Encode(files)) == Some(files)
  {
    if files != [] {
      DecodeInvertsEncode(files[1..]);
      RecordDecodes(files[0], Encode(files[1..]));
      assert files == [files[0]] + files[1..];
    }
  }

  lemma FieldInverse(b: Bytes, width: nat)
    requires Field(b, width).Some?
    ensures var (x, rest) := Field(b, width).value;
            Fits(x, width) && b == Framed(x, width) + rest
  {
    FromBigEndianRoundTrip(b[..width]);
    var (x, rest) := Field(b, width).value;
    assert b == b[..width] + x + rest == b[..width] + (x + rest);
  }

  /** Only the encoding of a list of files decodes. */
  lemma {:induction false} EncodeInvertsDecode(b: Bytes)
    requires Decode(b).Some?
    ensures forall f :: f in Decode(b).value ==> Encodable(f)
    ensures Encode(Decode(b).value) == b
    decreases |b|
  {
    if b != [] {
      var (path, tail) := Field(b, 4).value;
      var (content, rest) := Field(tail, 8).value;
      FieldInverse(b, 4);
      FieldInverse(tail, 8);
      EncodeInvertsDecode(rest);
      assert Decode(b).value[1..] == Decode(rest).value;
      Regroup(Framed(path, 4), Framed(content, 8), rest);
    }
  }
}
