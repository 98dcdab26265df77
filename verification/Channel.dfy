/** One connection bound to one session: the raw byte pipe that ATTACH sets up in
    src/daemon/server.c, from the replay to live output and keyboard input. */
module Channel {
  import opened Bytes
  import opened Wire
  import opened Framing
  import opened Endpoints
  import Codec
  import Ring

  /** Whether the allocations for building and for queueing a reply succeed. */
  datatype Memory = Memory(frame: bool, queue: bool)

  /** The bytes a reply adds to the output queue. */
  function Framed(m: Memory, kind: nat, body: seq<byte>): seq<byte> {
    if m.frame && m.queue then EncFrame(kind, body) else []
  }

  /** The environment's answers while one request is handled: allocations, the
      spawn, the descriptor registration, and the writes to a PTY. */
  datatype Env = Env(mem: Memory, snapOk: bool, replayOk: bool, groupOk: bool, spawnOk: bool, ringOk: bool, registerOk: bool,
                     pid: nat, now: nat, home: cstring, cwdOk: bool, inputOk: bool, ws: seq<WriteOutcome>)

  /** Where a session starts: in the directory asked for, or at home; copying the
      name may fail. */
  function StartDir(a: Codec.CreateArgs, e: Env): cstring {
    if !e.cwdOk then [] else if a.cwd == [] then e.home else a.cwd
  }

  /** Nothing that builds or queues a client's output runs out of memory. */
  ghost predicate Ample(e: Env) {
    e.mem.frame && e.mem.queue && e.snapOk && e.replayOk
  }

  ghost predicate AmpleAll(envs: nat -> Env) {
    forall i: nat :: Ample(envs(i))
  }

  /** Nothing on the way of keyboard input fails. */
  ghost predicate Calm(e: Env) {
    e.inputOk && Clean(e.ws)
  }

  function InfoOf(s: Session): Codec.SessionInfo
    reads s`alive, s`client
  {
    Codec.SessionInfo(s.id, s.pid, s.alive, s.client != null, s.createdAt, s.cwd)
  }

  // --- stretches of byte histories ---

  /** From index i on, a is the same as b from index j on. */
  ghost predicate Follows(a: seq<byte>, i: nat, b: seq<byte>, j: nat) {
    i <= |a| && j <= |b| && a[i..] == b[j..]
  }

  lemma FollowsGrow(a: seq<byte>, i: nat, b: seq<byte>, j: nat, d: seq<byte>)
    requires Follows(a, i, b, j)
    ensures Follows(a + d, i, b + d, j)
  {
    assert (a + d)[i..] == a[i..] + d;
    assert (b + d)[j..] == b[j..] + d;
  }

  lemma FollowsBehind(a: seq<byte>, tail: seq<byte>, w: seq<byte>)
    requires |tail| <= |w| && Follows(tail, 0, w, |w| - |tail|)
    ensures Follows(a + tail, |a|, w, |w| - |tail|)
  {
    assert (a + tail)[|a|..] == tail == tail[0..];
  }

  lemma FollowsEmpty(a: seq<byte>)
    ensures Follows(a, |a|, [], 0)
  {
  }

  // --- the invariant of a bound connection ---

  /** What a connection bound to s has been sent, and has still to be sent, since
      its raw stream began is one contiguous stretch of the session's whole output
      running to its end. It starts exactly one ring ceiling before the moment of
      joining, or at the very beginning; and what the client has typed is the end
      of the session's input. */
  ghost predicate Tapped(c: Connection, s: Session)
    reads c`mark, c`start, c`queued, c`lossy, c`raw, c`typedStart, c`joinedAt, c`shortReplay, s`typed, s`output
  {
    && c.start <= c.joinedAt <= |s.output|
    && (!c.lossy ==> Follows(c.queued, c.mark, s.output, c.start))
    && (!c.shortReplay ==> c.start == if c.joinedAt <= Ring.RING_CAP then 0 else c.joinedAt - Ring.RING_CAP)
    && Follows(s.typed, c.typedStart, c.raw, 0)
  }

  /** c has just joined s: its raw stream starts at the replay. */
  ghost predicate Joined(c: Connection, s: Session, snapOk: bool)
    reads c`typedStart, c`joinedAt, c`shortReplay, s`typed, s`output, s.out`starved
  {
    c.typedStart == |s.typed| && c.joinedAt == |s.output| && (snapOk && !s.out.starved ==> !c.shortReplay)
  }

  /** Ahead of c's raw stream stands exactly `head`, after what was queued before. */
  ghost predicate HeadQueued(c: Connection, before: seq<byte>, head: seq<byte>)
    reads c`mark, c`queued
  {
    c.mark == |before + head| <= |c.queued| && c.queued[..c.mark] == before + head
  }

  /** Flags that queueing and flushing may only raise. */
  twostate predicate Lifted(c: Connection)
    reads c
  {
    (old(c.wantClose) ==> c.wantClose) && (c.lossy && !old(c.lossy) ==> c.wantClose) && (old(c.lossy) ==> c.lossy)
  }

  /** Bytes for c have been refused, or more is pending than a client may be
      behind. */
  twostate predicate Flooded(c: Connection)
    reads c
  {
    c.lossy || (c.queued != old(c.queued) && |c.queued| > |c.sent| + MAX_WBUF)
  }

  /** Queueing tells a client to close for no other reason. */
  twostate predicate Raised(c: Connection)
    reads c
  {
    Lifted(c) && (c.wantClose ==> old(c.wantClose) || Flooded(c))
  }

  /** What the request parser knows about c is as before. */
  twostate predicate SameInput(c: Connection)
    reads c
  {
    c.rbuf == old(c.rbuf) && c.used == old(c.used) && c.reading == old(c.reading)
    && c.frames == old(c.frames) && c.consumed == old(c.consumed) && c.received == old(c.received)
  }

  // --- joining ---

  /** The raw stream of c starts here, with the tail `snap` of the output of s. */
  method StartRaw(c: Connection, s: Session, snap: seq<byte>, ghost whole: bool, allocOk: bool)
    requires c.OutOk() && c.raw == [] && |snap| <= |s.output| && Follows(snap, 0, s.output, |s.output| - |snap|)
    requires whole ==> |s.output| - |snap| == if |s.output| <= Ring.RING_CAP then 0 else |s.output| - Ring.RING_CAP
    modifies c`wbuf, c`wpos, c`wantClose, c`queued, c`lossy
    modifies c`mark, c`start, c`joinedAt, c`typedStart, c`shortReplay
    ensures c.OutOk() && Tapped(c, s) && c.typedStart == |s.typed| && c.joinedAt == |s.output| && c.shortReplay == !whole
    ensures HeadQueued(c, old(c.queued), []) && Raised(c) && old(c.queued) <= c.queued
    ensures allocOk ==> c.queued == old(c.queued) + snap && c.lossy == old(c.lossy)
  {
    hide Connection.OutOk, Follows;
    ghost var before, total := c.queued, s.output;
    FollowsBehind(before, snap, total);
    FollowsEmpty(s.typed);
    c.mark, c.start := |before|, |total| - |snap|;
    c.joinedAt, c.typedStart := |total|, |s.typed|;
    c.shortReplay := !whole;
    c.Queue(snap, allocOk);
    OutSplit(c);
    assert (before + snap)[..|before|] == before == before + [];
  }

  /** The ring replay of handle_attach. */
  method ReplayRing(c: Connection, s: Session, e: Env)
    requires c.OutOk() && c.raw == [] && s.RingOk()
    modifies c`wbuf, c`wpos, c`wantClose, c`queued, c`lossy
    modifies c`mark, c`start, c`joinedAt, c`typedStart, c`shortReplay
    ensures c.OutOk() && Tapped(c, s) && Joined(c, s, e.snapOk)
    ensures HeadQueued(c, old(c.queued), []) && Raised(c)
    ensures old(c.queued) <= c.queued
    ensures e.replayOk ==> c.lossy == old(c.lossy) && c.queued == old(c.queued) + if e.snapOk then s.out.Contents() else []
  {
    hide Connection.OutOk, Tapped, HeadQueued, Ring.Ring.Valid, Ring.Ring.Contents;
    s.out.ReplayStart();
    var snap := s.out.Snapshot(e.snapOk);
    StartRaw(c, s, snap, e.snapOk && !s.out.starved, e.replayOk);
  }

  /** The ATTACHED frame and the replay behind it. */
  method Replay(c: Connection, s: Session, info: seq<byte>, e: Env)
    requires c.OutOk() && c.raw == [] && s.RingOk()
    modifies c`wbuf, c`wpos, c`wantClose, c`queued, c`lossy
    modifies c`mark, c`start, c`joinedAt, c`typedStart, c`shortReplay, c`head
    ensures c.OutOk() && Tapped(c, s) && Joined(c, s, e.snapOk)
    ensures HeadQueued(c, old(c.queued), Framed(e.mem, Codec.ATTACHED, info)) && Raised(c) && old(c.queued) <= c.queued
    ensures c.head == Framed(e.mem, Codec.ATTACHED, info)
    ensures e.mem.queue && e.replayOk ==> c.lossy == old(c.lossy)
    ensures e.replayOk ==> c.queued == old(c.queued) + Framed(e.mem, Codec.ATTACHED, info) + if e.snapOk then s.out.Contents() else []
  {
    hide EncFrame, Connection.OutOk, Tapped, Joined, Session.RingOk, Ring.Ring.Contents;
    ghost var head := old(c.queued) + Framed(e.mem, Codec.ATTACHED, info);
    if e.mem.frame {
      c.Queue(EncFrame(Codec.ATTACHED, info), e.mem.queue);
      OutSplit(c);
    }
    assert c.queued == head == head + [];
    c.head := Framed(e.mem, Codec.ATTACHED, info);
    ReplayRing(c, s, e);
  }

  /** c becomes the raw channel of s, as far as these two are concerned. */
  method BecomeChannel(c: Connection, s: Session, e: Env)
    requires c.OutOk() && c.CutOk() && c.OpenOk() && !c.isData && c.reading && s.RingOk()
    modifies c`isData, c`session, s`client
    modifies c`wbuf, c`wpos, c`wantClose, c`queued, c`lossy
    modifies c`mark, c`start, c`joinedAt, c`typedStart, c`shortReplay, c`head
    ensures c.OutOk() && c.CutOk() && c.OpenOk() && c.isData && c.session == s && s.client == c
    ensures Tapped(c, s) && Joined(c, s, e.snapOk) && c.raw == [] && old(c.queued) <= c.queued
    ensures HeadQueued(c, old(c.queued), Framed(e.mem, Codec.ATTACHED, Codec.EncInfo(InfoOf(s)))) && Raised(c)
    ensures c.head == Framed(e.mem, Codec.ATTACHED, Codec.EncInfo(InfoOf(s)))
    ensures e.mem.queue && e.replayOk ==> c.lossy == old(c.lossy)
    ensures e.replayOk ==> c.queued == old(c.queued) + Framed(e.mem, Codec.ATTACHED, Codec.EncInfo(InfoOf(s))) + if e.snapOk then s.out.Contents() else []
  {
    hide EncFrame, Tapped, Joined, HeadQueued, Connection.OutOk, Connection.CutOk, Session.RingOk, Ring.Ring.Contents;
    c.BecomeData();
    c.session := s;
    s.client := c;
    Replay(c, s, Codec.EncInfo(InfoOf(s)), e);
  }

  // --- live traffic ---

  lemma OutSplit(c: Connection)
    requires c.OutOk()
    ensures c.wpos <= |c.wbuf| && c.queued == c.sent + c.Pending()
  {
  }

  /** conn_queue then conn_flush: with memory the whole chunk is queued, and what
      is written are the first bytes of what was pending and the chunk. */
  method Deliver(c: Connection, chunk: seq<byte>, queueOk: bool, ws: seq<WriteOutcome>)
    requires c.OutOk() && c.OpenOk()
    modifies c`wbuf, c`wpos, c`wantClose, c`queued, c`lossy, c`sent
    ensures c.OutOk() && c.OpenOk() && Lifted(c)
    ensures queueOk ==> c.queued == old(c.queued) + chunk && c.lossy == old(c.lossy)
    ensures !queueOk ==> c.queued == old(c.queued) && (chunk == [] || c.lossy)
    ensures old(c.wpos) <= |old(c.wbuf)| && var pend := old(c.Pending()) + if queueOk then chunk else [];
      && c.sent == old(c.sent) + pend[..Drain(|pend|, ws).0]
      && c.wantClose == (old(c.wantClose) || (chunk != [] && (!queueOk || |pend| > MAX_WBUF)) || Drain(|pend|, ws).1)
  {
    hide Connection.OutOk, Waiting, Fails, Drain, Offer, Least;
    assert old(c.queued) + [] == old(c.queued);
    OutSplit(c);
    c.Queue(chunk, queueOk);
    assert old(c.Pending()) + [] == old(c.Pending());
    c.Flush(ws);
  }

  /** One chunk read from the PTY reaches the ring and the attached client; the
      client's buffer is flushed as far as its socket takes it. */
  method PassOutput(s: Session, c: Connection, chunk: seq<byte>, ringOk: bool, queueOk: bool, ws: seq<WriteOutcome>)
    requires s.RingOk() && c.OutOk() && c.OpenOk() && Tapped(c, s)
    modifies s`output, s.out, s.out.buf
    modifies c`wbuf, c`wpos, c`wantClose, c`queued, c`lossy, c`sent
    ensures s.RingOk() && c.OutOk() && c.OpenOk() && Tapped(c, s) && s.output == old(s.output) + chunk
    ensures s.out.buf == old(s.out.buf) || fresh(s.out.buf)
    ensures Lifted(c) && (old(s.out.starved) ==> s.out.starved) && (ringOk ==> s.out.starved == old(s.out.starved))
    ensures queueOk ==> c.queued == old(c.queued) + chunk && c.lossy == old(c.lossy)
    ensures !queueOk ==> c.queued == old(c.queued) && (chunk == [] || c.lossy)
    ensures old(c.wpos) <= |old(c.wbuf)| && var pend := old(c.Pending()) + if queueOk then chunk else [];
      && c.sent == old(c.sent) + pend[..Drain(|pend|, ws).0]
      && c.wantClose == (old(c.wantClose) || (chunk != [] && (!queueOk || |pend| > MAX_WBUF)) || Drain(|pend|, ws).1)
  {
    hide Session.RingOk, Connection.OutOk, Connection.OpenOk, Follows;
    s.Emit(chunk, ringOk);
    if !c.lossy {
      FollowsGrow(c.queued, c.mark, old(s.output), c.start, chunk);
    }
    assert c.queued + [] == c.queued;
    Deliver(c, chunk, queueOk, ws);
  }

  /** What becomes of `data` typed at s. With memory and an open PTY it goes behind
      what waits, the PTY takes its share of all that, and the rest waits on unless
      the write fails; otherwise it is lost, and with a closed PTY all that waited. */
  twostate predicate Queued(s: Session, new data: seq<byte>, allocOk: bool, new ws: seq<WriteOutcome>)
    reads s
  {
    if data == [] then s.taken == old(s.taken) && s.pin == old(s.pin) && s.inputLost == old(s.inputLost)
    else if !allocOk then s.taken == old(s.taken) && s.pin == old(s.pin) && s.inputLost
    else if !s.ptyOpen then s.taken == old(s.taken) && s.pin == [] && s.inputLost
    else
      var all := old(s.pin) + data;
      var (k, bad) := Drain(|all|, ws);
      s.taken == old(s.taken) + all[..k] && s.pin == (if bad then [] else all[k..]) && s.inputLost == (old(s.inputLost) || bad)
  }

  /** Raw client bytes go to the session's keyboard queue. */
  method PassInput(c: Connection, s: Session, data: seq<byte>, allocOk: bool, ws: seq<WriteOutcome>)
    requires s.InOk() && c.CutOk() && c.OpenOk() && c.isData && Tapped(c, s) && (c.reading ==> data == c.rbuf[c.used..])
    modifies s`pin, s`typed, s`taken, s`inputLost, c`raw, c`received, c`used
    ensures s.InOk() && c.CutOk() && c.OpenOk() && Tapped(c, s) && Queued(s, data, allocOk, ws)
    ensures s.typed == old(s.typed) + data && c.raw == old(c.raw) + data
    ensures if c.reading then c.received == old(c.received) && c.used == |c.rbuf| else c.received == old(c.received) + data && c.used == old(c.used)
  {
    hide Follows, Parse, Waiting;
    FollowsGrow(s.typed, c.typedStart, c.raw, 0, data);
    s.QueueInput(data, allocOk, ws);
    c.HandOn(data);
  }
}
