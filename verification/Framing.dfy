/** The length-prefixed frame stream that conn_read (src/daemon/server.c)
    accumulates and cuts, as a function of the bytes received. */
module Framing {
  import opened Bytes
  import opened Wire

  const MAX_FRAME: nat := 8 * 1024 * 1024

  datatype Frame = Frame(kind: nat, body: seq<byte>)

  predicate LegalLength(n: nat) {
    4 <= n <= MAX_FRAME
  }

  /** A legal and complete frame stands at the front of buf. */
  predicate Ready(buf: seq<byte>) {
    |buf| >= 4 && LegalLength(WordAt(buf, 0)) && |buf| - 4 >= WordAt(buf, 0)
  }

  /** The length word at the front can never start a frame. */
  predicate Stuck(buf: seq<byte>) {
    |buf| >= 4 && !LegalLength(WordAt(buf, 0))
  }

  /** Neither a complete frame nor an illegal length: more bytes are needed. */
  predicate Waiting(buf: seq<byte>) {
    !Ready(buf) && !Stuck(buf)
  }

  function FrontSize(buf: seq<byte>): (n: nat)
    requires Ready(buf)
    ensures 8 <= n <= |buf|
  {
    4 + WordAt(buf, 0)
  }

  function FrontFrame(buf: seq<byte>): Frame
    requires Ready(buf)
  {
    Frame(WordAt(buf, 4), buf[8..FrontSize(buf)])
  }

  /** All complete frames of buf, and what is left over. */
  function Parse(buf: seq<byte>): (r: (seq<Frame>, seq<byte>))
    ensures !Ready(r.1)
  {
    if !Ready(buf) then ([], buf)
    else
      var (fs, rest) := Parse(buf[FrontSize(buf)..]);
      ([FrontFrame(buf)] + fs, rest)
  }

  function Flatten(fs: seq<Frame>): seq<byte> {
    if fs == [] then [] else EncFrame(fs[0].kind, fs[0].body) + Flatten(fs[1..])
  }

  lemma ReadyAppend(a: seq<byte>, b: seq<byte>)
    requires Ready(a)
    ensures Ready(a + b) && FrontFrame(a + b) == FrontFrame(a) && FrontSize(a + b) == FrontSize(a)
  {
    assert (a + b)[..|a|] == a;
    assert (a + b)[8..FrontSize(a)] == a[8..FrontSize(a)];
  }

  /** Parsing can be interrupted anywhere: what a gives, followed by what the
      leftover of a with b gives, is what the whole gives. */
  lemma {:induction false} ParseAppend(a: seq<byte>, b: seq<byte>)
    ensures var (fs, rest) := Parse(a); var (gs, last) := Parse(rest + b); Parse(a + b) == (fs + gs, last)
    decreases |a|
  {
    if Ready(a) {
      ReadyAppend(a, b);
      var n := FrontSize(a);
      assert (a + b)[n..] == a[n..] + b;
      ParseAppend(a[n..], b);
      var (fs, rest) := Parse(a[n..]);
      var (gs, _) := Parse(rest + b);
      assert [FrontFrame(a)] + fs + gs == [FrontFrame(a)] + (fs + gs);
    } else {
      assert Parse(a) == ([], a);
      assert [] + Parse(a + b).0 == Parse(a + b).0;
    }
  }

  /** One step of the parse loop, seen from what has already been cut off. */
  lemma ParseFront(buf: seq<byte>)
    requires Ready(buf)
    ensures var (fs, rest) := Parse(buf[FrontSize(buf)..]); Parse(buf) == ([FrontFrame(buf)] + fs, rest)
  {
  }

  /** Exactly one frame parses to that frame and nothing more. */
  lemma OneFrame(buf: seq<byte>)
    requires Ready(buf)
    ensures Parse(buf[..FrontSize(buf)]) == ([FrontFrame(buf)], [])
  {
    var n := FrontSize(buf);
    var piece := buf[..n];
    assert Ready(piece) && FrontSize(piece) == n && FrontFrame(piece) == FrontFrame(buf);
    ParseFront(piece);
    assert piece[n..] == [] && Parse([]) == ([], []);
    assert [FrontFrame(buf)] + [] == [FrontFrame(buf)];
  }

  /** Cutting one more frame off the front of what is still to be parsed. */
  lemma CutStep(done: seq<byte>, frames: seq<Frame>, front: seq<byte>)
    requires Parse(done) == (frames, []) && Ready(front)
    ensures Parse(done + front[..FrontSize(front)]) == (frames + [FrontFrame(front)], [])
    ensures done + front == done + front[..FrontSize(front)] + front[FrontSize(front)..]
  {
    hide Parse, FrontFrame;
    var piece := front[..FrontSize(front)];
    OneFrame(front);
    ParseAppend(done, piece);
    assert [] + piece == piece;
    SplitBehind(done, front, FrontSize(front));
  }

  lemma SplitBehind(done: seq<byte>, front: seq<byte>, n: nat)
    requires n <= |front|
    ensures done + front == done + front[..n] + front[n..]
  {
    assert front == front[..n] + front[n..];
  }

  function Concat(chunks: seq<seq<byte>>): seq<byte> {
    if chunks == [] then [] else chunks[0] + Concat(chunks[1..])
  }

  /** Reading chunk by chunk, carrying the leftover from one read to the next. */
  function Feed(left: seq<byte>, chunks: seq<seq<byte>>): (seq<Frame>, seq<byte>)
    decreases |chunks|
  {
    if chunks == [] then ([], left)
    else
      var (fs, rest) := Parse(left + chunks[0]);
      var (gs, last) := Feed(rest, chunks[1..]);
      (fs + gs, last)
  }

  /** However the stream is cut into reads, the frames and the leftover are
      those of the whole stream. */
  lemma {:induction false} CutIndependence(left: seq<byte>, chunks: seq<seq<byte>>)
    requires !Ready(left)
    ensures Feed(left, chunks) == Parse(left + Concat(chunks))
    decreases |chunks|
  {
    if chunks == [] {
      assert left + [] == left;
    } else {
      var (fs, rest) := Parse(left + chunks[0]);
      CutIndependence(rest, chunks[1..]);
      ParseAppend(left + chunks[0], Concat(chunks[1..]));
      assert left + chunks[0] + Concat(chunks[1..]) == left + (chunks[0] + Concat(chunks[1..]));
    }
  }

  /** Between reads less than one maximal frame is ever buffered. */
  lemma LeftoverBound(buf: seq<byte>)
    requires Waiting(buf)
    ensures |buf| < 4 + MAX_FRAME
  {
  }

  /** The four bytes of a word are the word's encoding. */
  lemma EncodeWord(d: seq<byte>, pos: nat)
    requires pos + 4 <= |d|
    ensures EncU32(WordAt(d, pos)) == d[pos..pos + 4]
  {
    Digits(d[pos], d[pos + 1], d[pos + 2], d[pos + 3]);
  }

  lemma Digits(a: byte, b: byte, c: byte, e: byte)
    ensures EncU32((a as int) + 0x100 * (b as int) + 0x1_0000 * (c as int) + 0x100_0000 * (e as int)) == [a, b, c, e]
  {
    var b': int, c': int, e': int := b, c, e;
    var v := a + 0x100 * b' + 0x1_0000 * c' + 0x100_0000 * e';
    assert v / 0x100 == b' + 0x100 * c' + 0x1_0000 * e';
    assert v / 0x1_0000 == c' + 0x100 * e';
    assert v / 0x100_0000 == e';
  }

  /** No byte is lost or invented: the frames and the leftover spell the stream. */
  lemma {:induction false} ParseKeepsBytes(buf: seq<byte>)
    ensures Flatten(Parse(buf).0) + Parse(buf).1 == buf
    decreases |buf|
  {
    if Ready(buf) {
      hide EncU32, FrontFrame, Parse, Flatten;
      ParseKeepsBytes(buf[FrontSize(buf)..]);
      KeepsFront(buf);
    }
  }

  /** What holds behind the front frame holds of the whole buffer. */
  lemma KeepsFront(buf: seq<byte>)
    requires Ready(buf) && var rest := Parse(buf[FrontSize(buf)..]); Flatten(rest.0) + rest.1 == buf[FrontSize(buf)..]
    ensures Flatten(Parse(buf).0) + Parse(buf).1 == buf
  {
    hide EncU32, EncFrame, FrontFrame, Parse, Flatten;
    var n, f := FrontSize(buf), FrontFrame(buf);
    var (fs, rest) := Parse(buf[n..]);
    ParseFront(buf);
    FrontSpelled(buf);
    FlattenCons(f, fs);
    Glue(buf, n, Flatten(fs), rest);
  }

  lemma Glue(buf: seq<byte>, n: nat, flat: seq<byte>, rest: seq<byte>)
    requires n <= |buf| && flat + rest == buf[n..]
    ensures buf[..n] + flat + rest == buf
  {
    assert buf[..n] + flat + rest == buf[..n] + (flat + rest);
  }

  lemma FlattenCons(f: Frame, fs: seq<Frame>)
    ensures Flatten([f] + fs) == EncFrame(f.kind, f.body) + Flatten(fs)
  {
    assert ([f] + fs)[1..] == fs;
  }

  lemma FrontSpelled(buf: seq<byte>)
    requires Ready(buf)
    ensures var f := FrontFrame(buf); EncFrame(f.kind, f.body) == buf[..FrontSize(buf)]
  {
    hide EncU32;
    EncodeWord(buf, 0);
    EncodeWord(buf, 4);
  }

  ghost predicate Sendable(f: Frame) {
    f.kind < U32_LIMIT && 4 + |f.body| <= MAX_FRAME
  }

  /** Conversely, legal frames sent back to back are parsed to exactly those
      frames, with whatever follows them left over. */
  lemma {:induction false} ParseOfFrames(fs: seq<Frame>, rest: seq<byte>)
    requires forall i :: 0 <= i < |fs| ==> Sendable(fs[i])
    requires !Ready(rest)
    ensures Parse(Flatten(fs) + rest) == (fs, rest)
    decreases |fs|
  {
    if fs == [] {
      assert [] + rest == rest;
    } else {
      ParseOfFrames(fs[1..], rest);
      var tail := Flatten(fs[1..]) + rest;
      assert Flatten(fs) + rest == EncFrame(fs[0].kind, fs[0].body) + tail;
      ParseOneMore(fs[0], tail);
      assert [fs[0]] + fs[1..] == fs;
    }
  }

  lemma ParseOneMore(f: Frame, tail: seq<byte>)
    requires Sendable(f)
    ensures Parse(EncFrame(f.kind, f.body) + tail) == ([f] + Parse(tail).0, Parse(tail).1)
  {
    hide EncFrame, Ready, FrontFrame, FrontSize, Sendable;
    var e := EncFrame(f.kind, f.body);
    FrontOfEncoded(f, tail);
    assert (e + tail)[|e|..] == tail;
    ParseFront(e + tail);
  }

  lemma FrontOfEncoded(f: Frame, tail: seq<byte>)
    requires Sendable(f)
    ensures var buf := EncFrame(f.kind, f.body) + tail; Ready(buf) && FrontFrame(buf) == f && FrontSize(buf) == 8 + |f.body|
  {
    hide EncU32;
    var n := 4 + |f.body|;
    var buf := EncFrame(f.kind, f.body) + tail;
    assert buf == EncU32(n) + (EncU32(f.kind) + (f.body + tail));
    assert Has(buf, 0, buf);
    HasConcat(buf, 0, EncU32(n), EncU32(f.kind) + (f.body + tail));
    HasConcat(buf, 4, EncU32(f.kind), f.body + tail);
    HasConcat(buf, 8, f.body, tail);
    ReadsU32(buf, 0, n);
    ReadsU32(buf, 4, f.kind);
  }
}
