/** The wire primitives of src/epimone-protocol.h: little-endian integers,
    length-prefixed strings and blobs, a growing frame writer and a bounds-checked
    reader whose error flag is sticky. */
module Wire {
  import opened Bytes

  const U16_LIMIT: nat := 0x1_0000
  const U32_LIMIT: nat := 0x1_0000_0000
  const U64_LIMIT: nat := 0x1_0000_0000_0000_0000

  /** A C string: bytes without a NUL. */
  type cstring = s: seq<byte> | 0 !in s

  // --- encodings; integers are truncated to their width ---

  function EncU8(v: nat): (r: seq<byte>)
    ensures |r| == 1
  {
    [v % 256]
  }

  function EncU16(v: nat): (r: seq<byte>)
    ensures |r| == 2
  {
    [v % 256, v / 256 % 256]
  }

  function EncU32(v: nat): (r: seq<byte>)
    ensures |r| == 4
  {
    [v % 256, v / 0x100 % 256, v / 0x1_0000 % 256, v / 0x100_0000 % 256]
  }

  function EncU64(v: nat): (r: seq<byte>)
    ensures |r| == 8
  {
    EncU32(v % U32_LIMIT) + EncU32(v / U32_LIMIT)
  }

  function EncBlob(b: seq<byte>): (r: seq<byte>)
    ensures |r| == 4 + |b|
  {
    EncU32(|b|) + b
  }

  /** One complete frame: the length counts the type word and the body. */
  function EncFrame(kind: nat, body: seq<byte>): (r: seq<byte>)
    ensures |r| == 8 + |body|
  {
    EncU32(4 + |body|) + EncU32(kind) + body
  }

  /** Least significant byte first: the first byte is the number modulo 256, and the
      others begin the number divided by it. */
  lemma LittleEndian(v: nat)
    requires v < U32_LIMIT
    ensures v < U16_LIMIT ==> EncU16(v)[0] == v % 256 && EncU16(v)[1] == EncU16(v / 256)[0]
    ensures EncU32(v)[0] == v % 256 && forall i :: 0 <= i < 3 ==> EncU32(v)[i + 1] == EncU32(v / 256)[i]
  {
  }

  /** The same of eight bytes. */
  lemma LittleEndian64(v: nat)
    requires v < U64_LIMIT
    ensures EncU64(v)[0] == v % 256 && forall i :: 0 <= i < 7 ==> EncU64(v)[i + 1] == EncU64(v / 256)[i]
  {
    hide EncU32;
    var lo, hi := v % U32_LIMIT, v / U32_LIMIT;
    assert v == lo + U32_LIMIT * hi;
    Shifted(lo, hi);
    LittleEndian(lo);
    LittleEndian(hi);
    ThreeAndOne(lo / 256, hi % 256);
    var m := lo / 256 + 0x100_0000 * (hi % 256);
    assert EncU64(v) == EncU32(lo) + EncU32(hi) && EncU64(v / 256) == EncU32(m) + EncU32(hi / 256);
    assert EncU64(v)[0] == EncU32(lo)[0] == lo % 256;
    forall i | 0 <= i < 7 ensures EncU64(v)[i + 1] == EncU64(v / 256)[i] {
      if i < 3 {
        assert EncU32(lo)[i + 1] == EncU32(lo / 256)[i] == EncU32(m)[i];
      } else if i > 3 {
        var j := i - 4;
        assert EncU32(hi)[j + 1] == EncU32(hi / 256)[j];
      }
    }
  }

  lemma ThreeAndOne(a: nat, b: nat)
    requires a < 0x100_0000 && b < 256
    ensures EncU32(a + 0x100_0000 * b)[3] == b && forall i :: 0 <= i < 3 ==> EncU32(a + 0x100_0000 * b)[i] == EncU32(a)[i]
  {
    var m := a + 0x100_0000 * b;
    assert m / 0x100 == a / 0x100 + 256 * (0x100 * b) && m / 0x1_0000 == a / 0x1_0000 + 256 * b && m / 0x100_0000 == b;
    ModuloOf(a, 0x1_0000 * b);
    ModuloOf(a / 0x100, 0x100 * b);
    ModuloOf(a / 0x1_0000, b);
  }

  lemma ModuloOf(x: nat, k: nat)
    ensures (x + 256 * k) % 256 == x % 256
  {
  }

  lemma Shifted(lo: nat, hi: nat)
    requires lo < U32_LIMIT && hi < U32_LIMIT
    ensures (lo + U32_LIMIT * hi) / 256 % U32_LIMIT == lo / 256 + 0x100_0000 * (hi % 256)
    ensures (lo + U32_LIMIT * hi) / 256 / U32_LIMIT == hi / 256
  {
    assert (lo + U32_LIMIT * hi) / 256 == lo / 256 + 0x100_0000 * hi;
    assert hi == hi % 256 + 256 * (hi / 256);
  }

  // --- the reader, as a function from cursor to value and cursor ---

  datatype Cursor = Cursor(pos: nat, err: bool)

  datatype MaybeBytes = Null | Bytes(bytes: seq<byte>)

  function GetU8(d: seq<byte>, c: Cursor): (nat, Cursor) {
    if c.pos + 1 > |d| then (0, c.(err := true)) else (d[c.pos], c.(pos := c.pos + 1))
  }

  function GetU16(d: seq<byte>, c: Cursor): (nat, Cursor) {
    if c.pos + 2 > |d| then (0, c.(err := true))
    else (HalfAt(d, c.pos), c.(pos := c.pos + 2))
  }

  function HalfAt(d: seq<byte>, pos: nat): (v: nat)
    requires pos + 2 <= |d|
    ensures v < U16_LIMIT
  {
    var b0: int, b1: int := d[pos], d[pos + 1];
    b0 + 0x100 * b1
  }

  function WordAt(d: seq<byte>, pos: nat): (v: nat)
    requires pos + 4 <= |d|
    ensures v < U32_LIMIT
  {
    var b0: int, b1: int, b2: int, b3: int := d[pos], d[pos + 1], d[pos + 2], d[pos + 3];
    b0 + 0x100 * b1 + 0x1_0000 * b2 + 0x100_0000 * b3
  }

  function GetU32(d: seq<byte>, c: Cursor): (nat, Cursor) {
    if c.pos + 4 > |d| then (0, c.(err := true)) else (WordAt(d, c.pos), c.(pos := c.pos + 4))
  }

  /** Two words; a failed second word leaves the first one consumed. */
  function GetU64(d: seq<byte>, c: Cursor): (nat, Cursor) {
    var (lo, c1) := GetU32(d, c);
    var (hi, c2) := GetU32(d, c1);
    (lo + U32_LIMIT * hi, c2)
  }

  /** What a C reader sees of a byte block: everything before the first NUL. */
  function UpToNul(b: seq<byte>): cstring {
    if b == [] || b[0] == 0 then [] else [b[0]] + UpToNul(b[1..])
  }

  function GetStr(d: seq<byte>, c: Cursor): (MaybeBytes, Cursor) {
    var (n, c1) := GetU32(d, c);
    if c1.err || c1.pos + n > |d| then (Null, c1.(err := true))
    else (Bytes(UpToNul(d[c1.pos..c1.pos + n])), c1.(pos := c1.pos + n))
  }

  /** An empty block reads as Null without an error. */
  function GetBlob(d: seq<byte>, c: Cursor): (MaybeBytes, Cursor) {
    var (n, c1) := GetU32(d, c);
    if c1.err || c1.pos + n > |d| then (Null, c1.(err := true))
    else if n == 0 then (Null, c1)
    else (Bytes(d[c1.pos..c1.pos + n]), c1.(pos := c1.pos + n))
  }

  function OrEmpty(m: MaybeBytes): seq<byte> {
    if m.Null? then [] else m.bytes
  }

  // --- reading back what was written ---

  /** x occurs in d at offset pos. */
  ghost predicate Has(d: seq<byte>, pos: nat, x: seq<byte>) {
    pos + |x| <= |d| && d[pos..pos + |x|] == x
  }

  lemma HasConcat(d: seq<byte>, pos: nat, x: seq<byte>, y: seq<byte>)
    requires Has(d, pos, x + y)
    ensures Has(d, pos, x) && Has(d, pos + |x|, y)
  {
    assert x == (x + y)[..|x|] && y == (x + y)[|x|..];
    assert d[pos..pos + |x + y|][..|x|] == d[pos..pos + |x|];
    assert d[pos..pos + |x + y|][|x|..] == d[pos + |x|..pos + |x| + |y|];
  }

  lemma HasAt(d: seq<byte>, pos: nat, x: seq<byte>, i: nat)
    requires Has(d, pos, x) && i < |x|
    ensures d[pos + i] == x[i]
  {
    assert d[pos..pos + |x|][i] == d[pos + i];
  }

  lemma WordDigits(v: nat)
    requires v < U32_LIMIT
    ensures v == v % 256 + 0x100 * (v / 0x100 % 256) + 0x1_0000 * (v / 0x1_0000 % 256) + 0x100_0000 * (v / 0x100_0000 % 256)
  {
  }

  lemma ReadsU8(d: seq<byte>, pos: nat, v: nat)
    requires Has(d, pos, EncU8(v)) && v < 256
    ensures GetU8(d, Cursor(pos, false)) == (v, Cursor(pos + 1, false))
  {
    HasAt(d, pos, EncU8(v), 0);
  }

  lemma ReadsU16(d: seq<byte>, pos: nat, v: nat)
    requires Has(d, pos, EncU16(v)) && v < U16_LIMIT
    ensures GetU16(d, Cursor(pos, false)) == (v, Cursor(pos + 2, false))
  {
    HasAt(d, pos, EncU16(v), 0);
    HasAt(d, pos, EncU16(v), 1);
  }

  lemma ReadsU32(d: seq<byte>, pos: nat, v: nat)
    requires Has(d, pos, EncU32(v)) && v < U32_LIMIT
    ensures GetU32(d, Cursor(pos, false)) == (v, Cursor(pos + 4, false))
  {
    var e := EncU32(v);
    HasAt(d, pos, e, 0);
    HasAt(d, pos, e, 1);
    HasAt(d, pos, e, 2);
    HasAt(d, pos, e, 3);
    WordDigits(v);
  }

  lemma ReadsU64(d: seq<byte>, pos: nat, v: nat)
    requires Has(d, pos, EncU64(v)) && v < U64_LIMIT
    ensures GetU64(d, Cursor(pos, false)) == (v, Cursor(pos + 8, false))
  {
    HasConcat(d, pos, EncU32(v % U32_LIMIT), EncU32(v / U32_LIMIT));
    ReadsU32(d, pos, v % U32_LIMIT);
    ReadsU32(d, pos + 4, v / U32_LIMIT);
  }

  lemma {:induction false} NoNulKept(b: seq<byte>)
    requires 0 !in b
    ensures UpToNul(b) == b
  {
    if b != [] {
      assert 0 !in b[1..];
      NoNulKept(b[1..]);
    }
  }

  lemma ReadsStr(d: seq<byte>, pos: nat, s: cstring)
    requires Has(d, pos, EncBlob(s)) && |s| < U32_LIMIT
    ensures GetStr(d, Cursor(pos, false)) == (Bytes(s), Cursor(pos + 4 + |s|, false))
  {
    HasConcat(d, pos, EncU32(|s|), s);
    ReadsU32(d, pos, |s|);
    NoNulKept(s);
  }

  lemma ReadsBlob(d: seq<byte>, pos: nat, b: seq<byte>)
    requires Has(d, pos, EncBlob(b)) && |b| < U32_LIMIT
    ensures GetBlob(d, Cursor(pos, false)) == (if b == [] then Null else Bytes(b), Cursor(pos + 4 + |b|, false))
  {
    HasConcat(d, pos, EncU32(|b|), b);
    ReadsU32(d, pos, |b|);
  }

  // --- the mutable reader ---

  class Reader {
    const data: seq<byte>
    var pos: nat
    var err: bool

    constructor (d: seq<byte>)
      ensures data == d && At() == Cursor(0, false)
    {
      data, pos, err := d, 0, false;
    }

    function At(): Cursor
      reads this
    {
      Cursor(pos, err)
    }

    method U8() returns (v: nat)
      modifies this
      ensures (v, At()) == GetU8(data, old(At()))
    {
      if pos + 1 > |data| {
        err := true;
        return 0;
      }
      v := data[pos];
      pos := pos + 1;
    }

    method U16() returns (v: nat)
      modifies this
      ensures (v, At()) == GetU16(data, old(At()))
    {
      if pos + 2 > |data| {
        err := true;
        return 0;
      }
      v := HalfAt(data, pos);
      pos := pos + 2;
    }

    method U32() returns (v: nat)
      modifies this
      ensures (v, At()) == GetU32(data, old(At()))
    {
      if pos + 4 > |data| {
        err := true;
        return 0;
      }
      v := WordAt(data, pos);
      pos := pos + 4;
    }

    method U64() returns (v: nat)
      modifies this
      ensures (v, At()) == GetU64(data, old(At()))
    {
      var lo := U32();
      var hi := U32();
      v := lo + U32_LIMIT * hi;
    }

    method Str() returns (s: MaybeBytes)
      modifies this
      ensures (s, At()) == GetStr(data, old(At()))
    {
      var n := U32();
      if err || pos + n > |data| {
        err := true;
        return Null;
      }
      s := Bytes(UpToNul(data[pos..pos + n]));
      pos := pos + n;
    }

    method Blob() returns (b: MaybeBytes)
      modifies this
      ensures (b, At()) == GetBlob(data, old(At()))
    {
      var n := U32();
      if err || pos + n > |data| {
        err := true;
        return Null;
      }
      if n == 0 {
        return Null;
      }
      b := Bytes(data[pos..pos + n]);
      pos := pos + n;
    }
  }

  // --- the mutable frame writer ---

  class Writer {
    var data: seq<byte>
    var cap: nat
    var oom: bool

    constructor ()
      ensures data == [] && !oom
    {
      data, cap, oom := [], 0, false;
    }

    /** epi_buf_reserve: doubling from 64. */
    method Reserve(extra: nat, allocOk: bool) returns (ok: bool)
      modifies this`cap, this`oom
      ensures ok <==> |data| + extra <= cap
      ensures ok ==> oom == old(oom)
      ensures !ok ==> oom && cap == old(cap)
      ensures allocOk ==> ok
      ensures !allocOk && old(cap) < |data| + extra ==> !ok
    {
      var need := |data| + extra;
      if need <= cap {
        return true;
      }
      var nc := if cap != 0 then cap else 64;
      while nc < need
        invariant 0 < nc
        decreases need - nc
      {
        nc := nc * 2;
      }
      if !allocOk {
        oom := true;
        return false;
      }
      cap := nc;
      return true;
    }

    /** A failed put writes nothing and marks the whole frame unusable. */
    method PutBytes(p: seq<byte>, allocOk: bool)
      modifies this`data, this`cap, this`oom
      ensures data == old(data) + p || (data == old(data) && oom)
      ensures old(oom) ==> oom
      ensures allocOk ==> oom == old(oom) && data == old(data) + p
      ensures !allocOk && old(cap) < |old(data)| + |p| ==> oom
    {
      var ok := Reserve(|p|, allocOk);
      if ok {
        data := data + p;
      }
    }

    /** The body written since Start. */
    ghost function Body(): seq<byte>
      requires |data| >= 8
      reads this
    {
      data[8..]
    }

    /** A frame of type k is being written, unless it is spoiled. */
    ghost predicate Begun(k: nat)
      reads this
    {
      !oom ==> |data| >= 8 && data[4..8] == EncU32(k)
    }

    /** A frame that has only grown has the same type and a longer body. */
    twostate lemma Grew(x: seq<byte>)
      requires |old(data)| >= 8 && data == old(data) + x
      ensures data[4..8] == old(data)[4..8] && Body() == old(Body()) + x
    {
    }

    method PutU8(v: nat, allocOk: bool)
      modifies this`data, this`cap, this`oom
      ensures data == old(data) + EncU8(v) || (data == old(data) && oom)
      ensures old(oom) ==> oom
      ensures allocOk ==> oom == old(oom)
    {
      PutBytes(EncU8(v), allocOk);
    }

    method PutU32(v: nat, allocOk: bool)
      modifies this`data, this`cap, this`oom
      ensures data == old(data) + EncU32(v) || (oom && old(data) <= data)
      ensures old(oom) ==> oom
      ensures !oom && |old(data)| >= 8 ==> data[4..8] == old(data)[4..8] && Body() == old(Body()) + EncU32(v)
      ensures allocOk ==> oom == old(oom)
      ensures !allocOk && old(cap) < |old(data)| + 4 ==> oom
    {
      PutBytes(EncU32(v), allocOk);
      if !oom && |old(data)| >= 8 { Grew(EncU32(v)); }
    }

    method PutU64(v: nat, allocOk: bool)
      modifies this`data, this`cap, this`oom
      ensures data == old(data) + EncU64(v) || (oom && old(data) <= data)
      ensures old(oom) ==> oom
      ensures !oom && |old(data)| >= 8 ==> data[4..8] == old(data)[4..8] && Body() == old(Body()) + EncU64(v)
      ensures allocOk ==> oom == old(oom)
    {
      PutU32(v % U32_LIMIT, allocOk);
      PutU32(v / U32_LIMIT, allocOk);
      if !oom && |old(data)| >= 8 { Grew(EncU64(v)); }
    }

    /** epi_buf_put_blob, and epi_buf_put_str on bytes without a NUL. */
    method PutBlob(p: seq<byte>, allocOk: bool)
      modifies this`data, this`cap, this`oom
      ensures data == old(data) + EncBlob(p) || (oom && old(data) <= data)
      ensures old(oom) ==> oom
      ensures allocOk ==> oom == old(oom)
    {
      PutU32(|p|, allocOk);
      if p != [] {
        PutBytes(p, allocOk);
      }
    }

    method Start(k: nat, allocOk: bool)
      modifies this
      ensures Begun(k) && (!oom ==> Body() == []) && oom == !allocOk
    {
      data, cap, oom := [], 0, false;
      PutU32(0, allocOk);
      PutU32(k, allocOk);
    }

    /** epi_msg_end patches the placeholder; only an unspoiled frame is complete. */
    method End(ghost k: nat)
      requires Begun(k)
      modifies this`data
      ensures !oom ==> data == EncFrame(k, old(Body()))
    {
      if oom || |data| < 4 {
        return;
      }
      ghost var body := Body();
      var e := EncU32(|data| - 4);
      data := data[0 := e[0]][1 := e[1]][2 := e[2]][3 := e[3]];
      assert data[..4] == e;
      assert data == data[..4] + data[4..8] + data[8..];
    }
  }
}
