/** The growing scrollback ring of src/daemon/ring.c.

    An array that starts small, doubles up to a ceiling, and then wraps. The
    ghost history `written` is every byte ever offered to the ring; `starved`
    records whether an allocation has ever failed. */
module Ring {
  import opened Bytes

  const INIT_CAP: nat := 4096
  const RING_CAP: nat := 1024 * 1024

  /** The logical contents of a ring, oldest byte first: size bytes of b read
      from head, wrapping at the end of b. */
  function Unroll(b: seq<byte>, head: nat, size: nat): (r: seq<byte>)
    requires size <= |b| && (head < |b| || (head == 0 && |b| == 0))
    ensures |r| == size
  {
    if head + size <= |b| then b[head..head + size] else b[head..] + b[..head + size - |b|]
  }

  /** Index arithmetic modulo n never needs more than one subtraction here. */
  function Wrap(x: nat, n: nat): nat
    requires 0 < n
  {
    if x < n then x else x - n
  }

  /** The `%` of the source, on the index sums it is applied to. */
  method IndexMod(x: nat, n: nat) returns (r: nat)
    requires 0 < n && x < 2 * n
    ensures r == Wrap(x, n)
  {
    if x >= n {
      assert x == 1 * n + (x - n);
    }
    r := x % n;
  }

  /** Position i of the contents lives at (head + i) mod cap. */
  lemma UnrollAt(b: seq<byte>, head: nat, size: nat, i: nat)
    requires size <= |b| && head < |b| && i < size
    ensures Wrap(head + i, |b|) < |b| && Unroll(b, head, size)[i] == b[Wrap(head + i, |b|)]
  {
  }

  /** The buffer after copying data into b at offset tail, continuing at 0 when
      the end is reached. */
  function Overlay(b: seq<byte>, tail: nat, data: seq<byte>): (r: seq<byte>)
    requires tail < |b| && |data| < |b|
    ensures |r| == |b|
  {
    seq(|b|, j requires 0 <= j < |b| =>
      if tail <= j < tail + |data| then data[j - tail]
      else if j + |b| < tail + |data| then data[j + |b| - tail]
      else b[j])
  }

  ghost predicate Advanced(cap: nat, h0: nat, s0: nat, len: nat, h: nat, s: nat)
    requires 0 < cap
  {
    if s0 + len <= cap then h == h0 && s == s0 + len
    else h == Wrap(h0 + (s0 + len - cap), cap) && s == cap
  }

  lemma OverlayAt(b: seq<byte>, h0: nat, s0: nat, data: seq<byte>, h: nat, s: nat, k: nat)
    requires 0 < |data| < |b| && h0 < |b| && s0 <= |b|
    requires Advanced(|b|, h0, s0, |data|, h, s) && k < s
    ensures h < |b|
    ensures Overlay(b, Wrap(h0 + s0, |b|), data)[Wrap(h + k, |b|)] == (Unroll(b, h0, s0) + data)[s0 + |data| - s + k]
  {
    var i := s0 + |data| - s + k;
    assert Wrap(h + k, |b|) == if h0 + i < |b| then h0 + i else if h0 + i < 2 * |b| then h0 + i - |b| else h0 + i - 2 * |b|;
    if i < s0 {
      UnrollAt(b, h0, s0, i);
    } else {
      assert (Unroll(b, h0, s0) + data)[i] == data[i - s0];
    }
  }

  /** After an overlay at the tail position, reading from the advanced head
      shows the old contents followed by the new bytes, less whatever no
      longer fits. */
  lemma OverlayKeepsNewest(b: seq<byte>, h0: nat, s0: nat, data: seq<byte>, h: nat, s: nat)
    requires 0 < |data| < |b| && h0 < |b| && s0 <= |b|
    requires Advanced(|b|, h0, s0, |data|, h, s)
    ensures Unroll(Overlay(b, Wrap(h0 + s0, |b|), data), h, s) == LastN(Unroll(b, h0, s0) + data, |b|)
  {
    var o := Overlay(b, Wrap(h0 + s0, |b|), data);
    var all := Unroll(b, h0, s0) + data;
    forall k | 0 <= k < s
      ensures Unroll(o, h, s)[k] == LastN(all, |b|)[k]
    {
      UnrollAt(o, h, s, k);
      OverlayAt(b, h0, s0, data, h, s, k);
    }
  }

  /** Skipping the leading size - n bytes is reading n bytes from an advanced head. */
  lemma UnrollTail(b: seq<byte>, head: nat, size: nat, n: nat)
    requires size <= |b| && head < |b| && 0 < n <= size
    ensures Wrap(head + (size - n), |b|) < |b|
    ensures Unroll(b, Wrap(head + (size - n), |b|), n) == LastN(Unroll(b, head, size), n)
  {
    var start := Wrap(head + (size - n), |b|);
    var all := Unroll(b, head, size);
    forall k | 0 <= k < n
      ensures Unroll(b, start, n)[k] == all[size - n + k]
    {
      UnrollAt(b, start, n, k);
      UnrollAt(b, head, size, size - n + k);
      assert Wrap(start + k, |b|) == Wrap(head + (size - n + k), |b|);
    }
    assert Unroll(b, start, n) == all[size - n..];
  }

  /** What the contents c of a ring with ceiling `ceiling` say about the whole
      history: always its tail, and exactly its last `ceiling` bytes as long as
      no allocation has failed. */
  ghost predicate Tracks(c: seq<byte>, history: seq<byte>, ceiling: nat, starved: bool) {
    IsSuffix(c, history) && (!starved ==> c == LastN(history, ceiling))
  }

  lemma TracksWrite(c: seq<byte>, history: seq<byte>, ceiling: nat, starved: bool, data: seq<byte>, cap: nat)
    requires Tracks(c, history, ceiling, starved) && |c| <= cap <= ceiling
    requires starved || |c| + |data| <= cap || cap == ceiling
    ensures Tracks(LastN(c + data, cap), history + data, ceiling, starved)
  {
    SuffixAppend(c, history, data);
    SuffixTrans(LastN(c + data, cap), c + data, history + data);
    if !starved {
      LastNAppend(history, data, ceiling);
      if |c| + |data| <= cap { assert LastN(c + data, ceiling) == c + data; }
    }
  }

  class Ring {
    var buf: array<byte>
    var maxCap: nat
    var head: nat
    var size: nat
    ghost var written: seq<byte>
    ghost var starved: bool

    ghost predicate Shape()
      reads this
    {
      buf.Length <= maxCap && size <= buf.Length
      && (head < buf.Length || (head == 0 && buf.Length == 0))
    }

    ghost function Contents(): (r: seq<byte>)
      requires Shape()
      reads this, buf
      ensures |r| == size
    {
      Unroll(buf[..], head, size)
    }

    /** Where in the history a replay of the contents starts. */
    lemma ReplayStart()
      requires Valid()
      ensures |Contents()| <= |written| && written[|written| - |Contents()|..] == Contents()
      ensures !starved ==> |written| - |Contents()| == if |written| <= maxCap then 0 else |written| - maxCap
    {
    }

    ghost predicate Valid()
      reads this, buf
    {
      Shape()
      && Tracks(Contents(), written, maxCap, starved)
      && (!starved && buf.Length == 0 ==> maxCap == 0)
    }

    constructor (cap: nat, allocOk: bool)
      ensures Valid() && fresh(buf) && written == []
      ensures cap == 0 || allocOk ==> !starved && maxCap == cap
      ensures cap != 0 && !allocOk ==> maxCap == 0
    {
      var start := if cap < INIT_CAP then cap else INIT_CAP;
      head, size := 0, 0;
      written := [];
      if cap == 0 || allocOk {
        buf := new byte[start];
        maxCap := cap;
        starved := false;
      } else {
        buf := new byte[0];
        maxCap := 0;
        starved := true;
      }
    }

    /** ring_grow. Either the ring is untouched, or its contents are re-laid out
        from offset 0 of a larger array; never is a byte lost. */
    method Grow(need: nat, allocOk: bool) returns (ok: bool)
      requires Valid()
      modifies this`buf, this`head, this`starved
      ensures Valid() && Contents() == old(Contents())
      ensures buf == old(buf) || fresh(buf)
      ensures ok <==> need <= buf.Length
      ensures old(buf.Length) <= buf.Length
      ensures starved == (old(starved) || (!allocOk && old(buf.Length) < need && old(buf.Length) < maxCap))
      ensures allocOk && !ok ==> buf.Length == maxCap
      ensures old(buf.Length) > 0 ==> buf.Length > 0
    {
      if need <= buf.Length {
        return true;
      }
      if buf.Length >= maxCap {
        return false;
      }
      var nc := if buf.Length != 0 then buf.Length else INIT_CAP;
      while nc < need && nc < maxCap
        invariant 0 < nc && buf.Length <= nc
        invariant nc < maxCap || nc >= need || nc >= buf.Length
        decreases maxCap - nc
      {
        nc := nc * 2;
      }
      if nc > maxCap {
        nc := maxCap;
      }
      if !allocOk {
        starved := true;
        return false;
      }
      Relayout(nc);
      return need <= nc;
    }

    /** The two copies of ring_grow: a realloc when nothing has wrapped, and a
        linearising copy when it has. */
    method Relayout(nc: nat)
      requires Valid() && buf.Length < nc <= maxCap
      modifies this`buf, this`head
      ensures Valid() && Contents() == old(Contents())
      ensures fresh(buf) && buf.Length == nc
    {
      ghost var was := Contents();
      var nb := new byte[nc];
      if head == 0 {
        forall i | 0 <= i < buf.Length { nb[i] := buf[i]; }
        assert nb[..size] == buf[..size];
        buf := nb;
      } else {
        var first := buf.Length - head;
        if first >= size {
          forall i | 0 <= i < size { nb[i] := buf[head + i]; }
        } else {
          forall i | 0 <= i < size { nb[i] := if i < first then buf[head + i] else buf[i - first]; }
        }
        assert nb[..size] == was;
        buf := nb;
        head := 0;
      }
      assert Contents() == was;
    }

    /** epi_ring_write. */
    method Write(data: seq<byte>, allocOk: bool)
      requires Valid()
      modifies this`buf, this`head, this`size, this`written, this`starved, buf
      ensures Valid()
      ensures buf == old(buf) || fresh(buf)
      ensures written == old(written) + data && maxCap == old(maxCap)
      ensures (old(starved) ==> starved) && (allocOk ==> starved == old(starved))
    {
      hide Tracks, Unroll, LastN;
      if buf.Length == 0 || data == [] {
        NothingWritten(data);
        written := written + data;
        return;
      }
      var _ := Grow(size + |data|, allocOk);
      TracksWrite(Contents(), written, maxCap, starved, data, buf.Length);
      if |data| >= buf.Length {
        Refill(data);
      } else {
        Append(data);
      }
      written := written + data;
    }

    /** A ring without a buffer has failed to allocate one or may hold nothing. */
    lemma NothingWritten(data: seq<byte>)
      requires Valid() && (buf.Length == 0 || data == [])
      ensures Tracks(Contents(), written + data, maxCap, starved)
    {
      TracksWrite(Contents(), written, maxCap, starved, data, buf.Length);
      assert data == [] ==> Contents() + data == Contents();
      assert LastN(Contents() + data, buf.Length) == Contents();
    }

    /** More data than the ring holds: keep only its newest bytes. */
    method Refill(data: seq<byte>)
      requires Shape() && 0 < buf.Length <= |data|
      modifies this`head, this`size, buf
      ensures Shape() && size == buf.Length
      ensures Contents() == LastN(old(Contents()) + data, buf.Length)
    {
      var cap := buf.Length;
      ghost var was := Contents();
      forall i | 0 <= i < cap { buf[i] := data[|data| - cap + i]; }
      head, size := 0, cap;
      assert Contents() == LastN(was + data, cap);
    }

    /** Append at the tail position, advancing head past overwritten bytes. */
    method Append(data: seq<byte>)
      requires Shape() && 0 < |data| < buf.Length
      modifies this`head, this`size, buf
      ensures Shape()
      ensures Contents() == LastN(old(Contents()) + data, buf.Length)
    {
      var cap := buf.Length;
      ghost var b0, h0, s0 := buf[..], head, size;
      var tail := IndexMod(head + size, cap);
      CopyIn(tail, data);
      if size + |data| <= cap {
        size := size + |data|;
      } else {
        var overflow := size + |data| - cap;
        head := IndexMod(head + overflow, cap);
        size := cap;
      }
      OverlayKeepsNewest(b0, h0, s0, data, head, size);
    }

    /** The two memcpy calls that lay data in from offset tail. */
    method CopyIn(tail: nat, data: seq<byte>)
      requires tail < buf.Length && |data| < buf.Length
      modifies buf
      ensures buf[..] == Overlay(old(buf[..]), tail, data)
    {
      var first := buf.Length - tail;
      if first > |data| {
        first := |data|;
      }
      forall i | 0 <= i < first { buf[tail + i] := data[i]; }
      forall i | first <= i < |data| { buf[i - first] := data[i]; }
    }

    /** The copy-out shared by the snapshots: n bytes from index `from`, wrapping. */
    method CopyOut(from: nat, n: nat) returns (out: seq<byte>)
      requires n <= buf.Length && from < buf.Length
      ensures out == Unroll(buf[..], from, n)
    {
      var first := buf.Length - from;
      if first >= n {
        out := buf[from..from + n];
      } else {
        out := buf[from..from + first] + buf[..n - first];
      }
    }

    /** epi_ring_snapshot: [] stands for the NULL result. */
    method Snapshot(allocOk: bool) returns (out: seq<byte>)
      requires Valid()
      ensures out == if allocOk then Contents() else []
    {
      if size == 0 || !allocOk {
        return [];
      }
      out := CopyOut(head, size);
    }

    /** epi_ring_snapshot_tail. */
    method SnapshotTail(maxBytes: nat, allocOk: bool) returns (out: seq<byte>)
      requires Valid()
      ensures out == if allocOk then LastN(Contents(), maxBytes) else []
    {
      hide Tracks;
      if buf.Length == 0 || size == 0 || maxBytes == 0 || !allocOk {
        return [];
      }
      var n := if size < maxBytes then size else maxBytes;
      var start := IndexMod(head + (size - n), buf.Length);
      UnrollTail(buf[..], head, size, n);
      out := CopyOut(start, n);
    }
  }
}
