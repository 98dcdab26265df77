/** The event loop of src/daemon/server.c as such: what the kernel may report, and
    what each event does to a snapshot of the daemon. */
module Events {
  import opened Bytes
  import opened Framing
  import opened Endpoints
  import opened Channel
  import opened History
  import opened Lists
  import opened Requests
  import Codec
  import Registry

  /** What read returns on a client socket, and whether buffering it succeeds. */
  datatype ReadOutcome = Bytes(bytes: seq<byte>, bufferOk: bool) | NothingYet | PeerGone

  /** What read returns on a PTY master, with the outcomes of passing it on. */
  datatype PtyOutcome = Chunk(bytes: seq<byte>, ringOk: bool, queueOk: bool, ws: seq<WriteOutcome>) | Blocked | Again | HungUp(ws: seq<WriteOutcome>)

  /** One entry of an epoll batch, with everything the environment answers while
      it is handled. */
  datatype Event =
    | Accepting(registerOk: seq<bool>)
    | Signalled(exits: seq<nat>, stop: bool)
    | OfPty(s: Session, writable: bool, ws: seq<WriteOutcome>, readable: bool, rs: seq<PtyOutcome>)
    | OfConn(c: Connection, writable: bool, ws: seq<WriteOutcome>, readable: bool, r: ReadOutcome, envs: nat -> Env)

  /** The same, naming a session or a connection by its place in the list at the
      time of the report. */
  datatype Report =
    | Waiters(registerOk: seq<bool>)
    | Signals(exits: seq<nat>, stop: bool)
    | Master(k: nat, writable: bool, ws: seq<WriteOutcome>, readable: bool, rs: seq<PtyOutcome>)
    | Client(k: nat, writable: bool, ws: seq<WriteOutcome>, readable: bool, r: ReadOutcome, envs: nat -> Env)

  // --- what the kernel reports ---

  /** The i-th report is about something listed, and about no connection that an
      earlier one is about. */
  predicate Proper(rs: seq<Report>, i: nat, clients: nat, sessions: nat)
    requires i < |rs|
  {
    match rs[i]
    case Master(k, _, _, _, _) => k < sessions
    case Client(k, _, _, _, _, _) => k < clients && forall j :: 0 <= j < i ==> !(rs[j].Client? && rs[j].k == k)
    case _ => true
  }

  function EventOf(r: Report, conns: seq<Connection>, sessions: seq<Session>): Event
    requires r.Master? ==> r.k < |sessions|
    requires r.Client? ==> r.k < |conns|
  {
    match r
    case Waiters(oks) => Accepting(oks)
    case Signals(exits, stop) => Signalled(exits, stop)
    case Master(k, w, ws, r, rs) => OfPty(sessions[k], w, ws, r, rs)
    case Client(k, w, ws, r, o, envs) => OfConn(conns[k], w, ws, r, o, envs)
  }

  /** A batch: the proper reports, in order. */
  function Collected(rs: seq<Report>, conns: seq<Connection>, sessions: seq<Session>): seq<Event>
    decreases |rs|
  {
    if rs == [] then []
    else
      var n := |rs| - 1;
      Collected(rs[..n], conns, sessions) + if Proper(rs, n, |conns|, |sessions|) then [EventOf(rs[n], conns, sessions)] else []
  }

  /** Objects that are listed when the batch is collected, and a connection at most
      once. */
  ghost predicate Distinct(batch: seq<Event>, conns: seq<Connection>, sessions: seq<Session>) {
    && (forall k :: 0 <= k < |batch| ==> (batch[k].OfConn? ==> batch[k].c in conns) && (batch[k].OfPty? ==> batch[k].s in sessions))
    && (forall i, j :: 0 <= i < j < |batch| && batch[i].OfConn? && batch[j].OfConn? ==> batch[i].c != batch[j].c)
  }

  lemma {:induction false} CollectedFrom(rs: seq<Report>, conns: seq<Connection>, sessions: seq<Session>)
    requires NoDup(conns)
    ensures Distinct(Collected(rs, conns, sessions), conns, sessions)
    ensures forall ev <- Collected(rs, conns, sessions) :: ev.OfConn? ==>
      exists j :: 0 <= j < |rs| && rs[j].Client? && rs[j].k < |conns| && ev.c == conns[rs[j].k]
    decreases |rs|
  {
    if rs != [] {
      var n := |rs| - 1;
      CollectedFrom(rs[..n], conns, sessions);
      var es := Collected(rs[..n], conns, sessions);
      forall ev | ev in es && ev.OfConn?
        ensures exists j :: 0 <= j < |rs| && rs[j].Client? && rs[j].k < |conns| && ev.c == conns[rs[j].k]
        ensures Proper(rs, n, |conns|, |sessions|) && rs[n].Client? ==> ev.c != conns[rs[n].k]
      {
        var j :| 0 <= j < n && rs[..n][j].Client? && rs[..n][j].k < |conns| && ev.c == conns[rs[..n][j].k];
        assert rs[j] == rs[..n][j];
      }
      if Proper(rs, n, |conns|, |sessions|) && rs[n].Client? {
        assert rs[n].k < |conns| && EventOf(rs[n], conns, sessions).c == conns[rs[n].k];
      }
    }
  }

  /** Nothing is passed over when every report is proper. */
  lemma {:induction false} CollectedAll(rs: seq<Report>, conns: seq<Connection>, sessions: seq<Session>)
    requires forall i :: 0 <= i < |rs| ==> Proper(rs, i, |conns|, |sessions|)
    ensures |Collected(rs, conns, sessions)| == |rs|
    ensures forall i :: 0 <= i < |rs| ==> Proper(rs, i, |conns|, |sessions|) && Collected(rs, conns, sessions)[i] == EventOf(rs[i], conns, sessions)
    decreases |rs|
  {
    if rs != [] {
      var n := |rs| - 1;
      forall i | 0 <= i < n ensures Proper(rs[..n], i, |conns|, |sessions|) { assert Proper(rs, i, |conns|, |sessions|); }
      CollectedAll(rs[..n], conns, sessions);
    }
  }

  // --- what the kernel and the allocator grant ---

  /** A chunk meets no failed allocation. */
  ghost predicate AmpleChunk(o: PtyOutcome) {
    o.Chunk? ==> o.ringOk && o.queueOk
  }

  /** No chunk of the bout meets a failed allocation. */
  ghost predicate AmplePty(rs: seq<PtyOutcome>) {
    forall o <- rs :: AmpleChunk(o)
  }

  /** No allocation for output fails while the event is handled. */
  ghost predicate AmpleEvent(ev: Event) {
    match ev
    case OfPty(_, _, _, _, rs) => AmplePty(rs)
    case OfConn(_, _, _, _, _, envs) => AmpleAll(envs)
    case _ => true
  }

  /** No allocation for input and no write to a PTY fails meanwhile. */
  ghost predicate CalmEvent(ev: Event) {
    match ev
    case OfPty(_, _, ws, _, _) => Clean(ws)
    case OfConn(_, _, _, _, _, envs) => Calm(envs(0))
    case _ => true
  }

  ghost predicate AmpleBatch(batch: seq<Event>) {
    forall ev <- batch :: AmpleEvent(ev)
  }

  ghost predicate CalmBatch(batch: seq<Event>) {
    forall ev <- batch :: CalmEvent(ev)
  }

  /** The same of reports. */
  ghost predicate AmpleReports(rs: seq<Report>) {
    forall i :: 0 <= i < |rs| ==> (rs[i].Master? ==> AmplePty(rs[i].rs)) && (rs[i].Client? ==> AmpleAll(rs[i].envs))
  }

  ghost predicate CalmReports(rs: seq<Report>) {
    forall i :: 0 <= i < |rs| ==> (rs[i].Master? ==> Clean(rs[i].ws)) && (rs[i].Client? ==> Calm(rs[i].envs(0)))
  }

  lemma {:induction false} CollectedGrants(rs: seq<Report>, conns: seq<Connection>, sessions: seq<Session>)
    ensures AmpleReports(rs) ==> AmpleBatch(Collected(rs, conns, sessions))
    ensures CalmReports(rs) ==> CalmBatch(Collected(rs, conns, sessions))
    decreases |rs|
  {
    hide AmplePty, AmpleAll, Clean, Calm;
    if rs != [] {
      var n := |rs| - 1;
      CollectedGrants(rs[..n], conns, sessions);
      if AmpleReports(rs) {
        forall i | 0 <= i < n ensures (rs[..n][i].Master? ==> AmplePty(rs[..n][i].rs)) && (rs[..n][i].Client? ==> AmpleAll(rs[..n][i].envs)) {
          assert rs[..n][i] == rs[i];
        }
      }
      if CalmReports(rs) {
        forall i | 0 <= i < n ensures (rs[..n][i].Master? ==> Clean(rs[..n][i].ws)) && (rs[..n][i].Client? ==> Calm(rs[..n][i].envs(0))) {
          assert rs[..n][i] == rs[i];
        }
      }
    }
  }

  // --- one bout of reading from a PTY ---

  /** What one bout of reading takes from the PTY, and whether it meets the end
      of file or an error. */
  function Taken(rs: seq<PtyOutcome>): (seq<byte>, bool)
    decreases |rs|
  {
    if rs == [] then ([], false)
    else match rs[0]
      case Chunk(bytes, _, _, _) =>
        if bytes == [] then ([], true)
        else (bytes + Taken(rs[1..]).0, Taken(rs[1..]).1)
      case Blocked => ([], false)
      case Again => Taken(rs[1..])
      case HungUp(_) => ([], true)
  }

  lemma TakenStep(rs: seq<PtyOutcome>, i: nat)
    requires i < |rs|
    ensures rs[i].Chunk? && rs[i].bytes != [] ==>
      Taken(rs[i..]) == (rs[i].bytes + Taken(rs[i + 1..]).0, Taken(rs[i + 1..]).1)
    ensures rs[i].Chunk? && rs[i].bytes == [] ==> Taken(rs[i..]) == ([], true)
    ensures rs[i].Blocked? ==> Taken(rs[i..]) == ([], false)
    ensures rs[i].Again? ==> Taken(rs[i..]) == Taken(rs[i + 1..])
    ensures rs[i].HungUp? ==> Taken(rs[i..]) == ([], true)
  {
    assert rs[i..][0] == rs[i] && rs[i..][1..] == rs[i + 1..];
  }

  /** What of a chunk finds room in the client's queue. */
  ghost function Sent(o: PtyOutcome): seq<byte> {
    if o.Chunk? && o.queueOk then o.bytes else []
  }

  /** What one bout of reading adds to the client's queue. */
  ghost function Passed(rs: seq<PtyOutcome>): seq<byte>
    decreases |rs|
  {
    if rs == [] then []
    else match rs[0]
      case Chunk(bytes, _, _, _) => if bytes == [] then [] else Sent(rs[0]) + Passed(rs[1..])
      case Blocked => []
      case Again => Passed(rs[1..])
      case HungUp(_) => []
  }

  /** How many bytes the flush behind one chunk writes. */
  ghost function Share(pend: nat, o: PtyOutcome): (k: nat)
    ensures k <= pend + |Sent(o)|
  {
    if o.Chunk? then Drain(pend + |Sent(o)|, o.ws).0 else 0
  }

  /** Queueing one chunk, or the flush behind it, tells the client to close: there is
      no memory for it, the client is too far behind, or the write fails. */
  ghost predicate Stumbles(pend: nat, o: PtyOutcome) {
    o.Chunk? && var all := pend + |Sent(o)|;
    (o.bytes != [] && (!o.queueOk || all > MAX_WBUF)) || Drain(all, o.ws).1
  }

  /** Some chunk of the bout does. */
  ghost predicate Chokes(pend: nat, rs: seq<PtyOutcome>)
    decreases |rs|
  {
    rs != [] && match rs[0]
      case Chunk(bytes, _, _, _) =>
        bytes != [] && (Stumbles(pend, rs[0]) || Chokes(pend + |Sent(rs[0])| - Share(pend, rs[0]), rs[1..]))
      case Blocked => false
      case Again => Chokes(pend, rs[1..])
      case HungUp(_) => false
  }

  lemma ChokesStep(rs: seq<PtyOutcome>, i: nat, pend: nat)
    requires i < |rs|
    ensures rs[i].Chunk? && rs[i].bytes != [] ==>
      (Chokes(pend, rs[i..]) <==> Stumbles(pend, rs[i]) || Chokes(pend + |Sent(rs[i])| - Share(pend, rs[i]), rs[i + 1..]))
    ensures rs[i].Again? ==> (Chokes(pend, rs[i..]) <==> Chokes(pend, rs[i + 1..]))
    ensures rs[i].Blocked? || rs[i].HungUp? || (rs[i].Chunk? && rs[i].bytes == []) ==> !Chokes(pend, rs[i..])
  {
    hide Stumbles;
    assert rs[i..][0] == rs[i] && rs[i..][1..] == rs[i + 1..];
  }

  /** How many bytes one bout hands to the client's socket, with `pend` pending
      at first; `kept` says that a hangup leaves the session listed. */
  ghost function Handed(pend: nat, rs: seq<PtyOutcome>, kept: bool): nat
    decreases |rs|
  {
    if rs == [] then 0
    else match rs[0]
      case Chunk(bytes, _, _, _) =>
        if bytes == [] then 0
        else Share(pend, rs[0]) + Handed(pend + |Sent(rs[0])| - Share(pend, rs[0]), rs[1..], kept)
      case Blocked => 0
      case Again => Handed(pend, rs[1..], kept)
      case HungUp(ws) => if kept then Drain(pend, ws).0 else 0
  }

  lemma PassedStep(rs: seq<PtyOutcome>, i: nat, pend: nat, kept: bool)
    requires i < |rs|
    ensures rs[i].Chunk? && rs[i].bytes != [] ==> Passed(rs[i..]) == Sent(rs[i]) + Passed(rs[i + 1..])
    ensures rs[i].Chunk? && rs[i].bytes != [] ==> var k := Share(pend, rs[i]);
      Handed(pend, rs[i..], kept) == k + Handed(pend + |Sent(rs[i])| - k, rs[i + 1..], kept)
    ensures rs[i].Again? ==> Passed(rs[i..]) == Passed(rs[i + 1..]) && Handed(pend, rs[i..], kept) == Handed(pend, rs[i + 1..], kept)
    ensures rs[i].Blocked? || rs[i].HungUp? || (rs[i].Chunk? && rs[i].bytes == []) ==> Passed(rs[i..]) == []
    ensures rs[i].Blocked? || (rs[i].Chunk? && rs[i].bytes == []) ==> Handed(pend, rs[i..], kept) == 0
    ensures rs[i].HungUp? ==> Handed(pend, rs[i..], kept) == if kept then Drain(pend, rs[i].ws).0 else 0
  {
    hide Drain;
    assert rs[i..][0] == rs[i] && rs[i..][1..] == rs[i + 1..];
  }

  // --- the same from the outcomes alone ---

  /** The bout goes on behind this outcome. */
  predicate Flows(o: PtyOutcome) {
    o.Again? || (o.Chunk? && o.bytes != [])
  }

  /** How many outcomes come before the one that ends the bout. */
  function Lasts(rs: seq<PtyOutcome>): (k: nat)
    ensures k <= |rs| && (forall i :: 0 <= i < k ==> Flows(rs[i])) && (k < |rs| ==> !Flows(rs[k]))
  {
    if rs == [] || !Flows(rs[0]) then 0 else 1 + Lasts(rs[1..])
  }

  /** The chunks put together: all of them, or those that found room. */
  function Chunks(rs: seq<PtyOutcome>, room: bool): seq<byte> {
    if rs == [] then [] else (if rs[0].Chunk? && (room ==> rs[0].queueOk) then rs[0].bytes else []) + Chunks(rs[1..], room)
  }

  /** A bout takes the chunks ahead of its end, passes on those that found room,
      and meets the end of file exactly if it ends on anything but a block. */
  lemma {:induction false} BoutTakes(rs: seq<PtyOutcome>)
    ensures Taken(rs).0 == Chunks(rs[..Lasts(rs)], false) && Passed(rs) == Chunks(rs[..Lasts(rs)], true)
    ensures Taken(rs).1 <==> Lasts(rs) < |rs| && !rs[Lasts(rs)].Blocked?
    decreases |rs|
  {
    if rs != [] && Flows(rs[0]) {
      BoutTakes(rs[1..]);
      ChunksMore(rs, Lasts(rs), false);
      ChunksMore(rs, Lasts(rs), true);
    } else {
      assert rs[..Lasts(rs)] == [];
    }
  }

  lemma ChunksMore(rs: seq<PtyOutcome>, k: nat, room: bool)
    requires 0 < k <= |rs|
    ensures Chunks(rs[..k], room) == (if rs[0].Chunk? && (room ==> rs[0].queueOk) then rs[0].bytes else []) + Chunks(rs[1..][..k - 1], room)
  {
    assert rs[..k][0] == rs[0] && rs[..k][1..] == rs[1..][..k - 1];
  }

  /** What is pending behind a bout, each flush writing what its outcomes offer. */
  function Backlog(pend: nat, rs: seq<PtyOutcome>, kept: bool): nat
    decreases |rs|
  {
    if rs == [] then pend
    else match rs[0]
      case Again => Backlog(pend, rs[1..], kept)
      case Blocked => pend
      case HungUp(ws) => if kept then pend - Least(pend, Offer(ws)) else pend
      case Chunk(bytes, _, queueOk, ws) =>
        if bytes == [] then pend
        else
          var all := pend + if queueOk then |bytes| else 0;
          Backlog(all - Least(all, Offer(ws)), rs[1..], kept)
  }

  /** What a bout hands to the socket and what is pending behind it are what was
      pending and what was passed on. */
  lemma {:induction false} HandedOrPending(pend: nat, rs: seq<PtyOutcome>, kept: bool)
    ensures Handed(pend, rs, kept) + Backlog(pend, rs, kept) == pend + |Passed(rs)|
    decreases |rs|
  {
    hide Drain, Fails;
    if rs != [] {
      if rs[0].Again? {
        HandedOrPending(pend, rs[1..], kept);
      } else if rs[0].HungUp? {
        DrainOffers(pend, rs[0].ws);
      } else if rs[0].Chunk? && rs[0].bytes != [] {
        var all := pend + |Sent(rs[0])|;
        DrainOffers(all, rs[0].ws);
        HandedOrPending(all - Share(pend, rs[0]), rs[1..], kept);
      }
    }
  }

  /** The chunk o, with this much pending ahead of it, cannot be queued, leaves the
      client too far behind, or meets a failed write. */
  ghost predicate Fells(pend: nat, o: PtyOutcome) {
    o.Chunk? && var all := pend + if o.queueOk then |o.bytes| else 0;
    !o.queueOk || all > MAX_WBUF || (Offer(o.ws) < all && Fails(o.ws))
  }

  /** A bout tells the client to close exactly if one of its chunks does, with what
      the ones before it have left pending. */
  lemma {:induction false} ChokesWhere(pend: nat, rs: seq<PtyOutcome>)
    ensures Chokes(pend, rs) <==> exists i :: 0 <= i < Lasts(rs) && Fells(Backlog(pend, rs[..i], true), rs[i])
    decreases |rs|
  {
    hide Drain, Fails, Stumbles, Fells;
    if rs != [] && Flows(rs[0]) {
      var left := if rs[0].Chunk? then pend + |Sent(rs[0])| - Share(pend, rs[0]) else pend;
      ChokesWhere(left, rs[1..]);
      if rs[0].Chunk? { StumbleIsFall(pend, rs[0]); } else { OnlyChunksFell(pend, rs[0]); }
      assert rs[..0] == [] && Backlog(pend, [], true) == pend;
      forall i | 0 < i < Lasts(rs)
        ensures rs[1..][i - 1] == rs[i] && Backlog(pend, rs[..i], true) == Backlog(left, rs[1..][..i - 1], true)
      {
        assert rs[..i][0] == rs[0] && rs[..i][1..] == rs[1..][..i - 1];
        if rs[0].Chunk? { DrainOffers(pend + |Sent(rs[0])|, rs[0].ws); }
      }
      LaterFall(pend, left, rs);
    }
  }

  lemma LaterFall(pend: nat, left: nat, rs: seq<PtyOutcome>)
    requires rs != [] && Flows(rs[0])
    requires forall i :: 0 < i < Lasts(rs) ==> rs[1..][i - 1] == rs[i] && Backlog(pend, rs[..i], true) == Backlog(left, rs[1..][..i - 1], true)
    requires rs[..0] == [] && Backlog(pend, rs[..0], true) == pend
    ensures (exists i :: 0 <= i < Lasts(rs) && Fells(Backlog(pend, rs[..i], true), rs[i])) <==>
      Fells(pend, rs[0]) || exists i :: 0 <= i < Lasts(rs[1..]) && Fells(Backlog(left, rs[1..][..i], true), rs[1..][i])
  {
    hide Fells, Backlog, Flows;
    if i :| 0 <= i < Lasts(rs) && Fells(Backlog(pend, rs[..i], true), rs[i]) && i > 0 {
      var k := i - 1;
      assert Fells(Backlog(left, rs[1..][..k], true), rs[1..][k]);
    }
    if k :| 0 <= k < Lasts(rs[1..]) && Fells(Backlog(left, rs[1..][..k], true), rs[1..][k]) {
      var i := k + 1;
      assert rs[1..][i - 1] == rs[i] && Fells(Backlog(pend, rs[..i], true), rs[i]);
    }
    if Fells(pend, rs[0]) { assert Fells(Backlog(pend, rs[..0], true), rs[0]); }
  }

  lemma OnlyChunksFell(pend: nat, o: PtyOutcome)
    ensures !o.Chunk? ==> !Fells(pend, o)
  {
  }

  lemma StumbleIsFall(pend: nat, o: PtyOutcome)
    requires o.Chunk? && o.bytes != []
    ensures Stumbles(pend, o) <==> Fells(pend, o)
  {
    hide Fails, Drain;
    DrainOffers(pend + |Sent(o)|, o.ws);
  }

  lemma DrainNone(left: nat)
    ensures Drain(left, []) == (0, false)
  {
  }

  // --- clients arriving ---

  const BLANK: ConnRecord := ConnRecord(null, false, false, false, [], [], [], [], [], 0, 0, 0, 0, false, [])

  function Trues(oks: seq<bool>): nat {
    if oks == [] then 0 else Trues(oks[..|oks| - 1]) + if oks[|oks| - 1] then 1 else 0
  }

  /** Every client that could be registered stands at the front of the list, with
      nothing received, queued or sent; nothing else has changed. */
  ghost predicate Admitted(p: Snapshot, q: Snapshot, oks: seq<bool>) {
    && q == p.(clients := q.clients, conns := q.conns)
    && |q.clients| == Trues(oks) + |p.clients| && q.clients[Trues(oks)..] == p.clients
    && (forall c :: c in p.conns ==> c in q.conns && q.conns[c] == p.conns[c])
    && (forall c :: c in q.conns && c !in p.conns ==> q.conns[c] == BLANK)
  }

  lemma AdmittedMore(p: Snapshot, q: Snapshot, r: Snapshot, oks: seq<bool>, i: nat)
    requires i < |oks| && Admitted(p, q, oks[..i]) && Admitted(q, r, [oks[i]])
    ensures Admitted(p, r, oks[..i + 1])
  {
    assert oks[..i + 1][..i] == oks[..i] && Trues([oks[i]]) == if oks[i] then 1 else 0;
    var n, k := Trues(oks[..i]), Trues([oks[i]]);
    assert r.clients[n + k..] == r.clients[k..][n..];
  }

  lemma AdmittedBetween(p: Snapshot, q: Snapshot, r: Snapshot, a: seq<bool>, b: seq<bool>)
    requires Admitted(p, q, a) && Admitted(q, r, b)
    ensures Between(p, q, r)
  {
  }

  // --- children exiting ---

  /** The first session in the list with this pid. */
  ghost function FirstWith(ss: seq<Session>, pid: nat): (r: Session?)
    ensures if r == null then forall s <- ss :: s.pid != pid else r in ss && r.pid == pid
  {
    if ss == [] then null else if ss[0].pid == pid then ss[0] else FirstWith(ss[1..], pid)
  }

  /** s leaves the list: its PTY is closed, its client told to close. */
  ghost function Dropped(p: Snapshot, s: Session): Snapshot
    requires s in p.sess
  {
    p.(sess := p.sess[s := p.sess[s].(ptyOpen := false, listed := false, starved := false)], order := Without(p.order, s),
       conns := map c | c in p.conns :: if p.conns[c].session == s then p.conns[c].(session := null, wantClose := true) else p.conns[c])
  }

  /** A session whose child has exited stays as dead, or goes if it was killed. */
  ghost function Exited(p: Snapshot, pid: nat): Snapshot {
    var s := FirstWith(p.order, pid);
    if s == null || s !in p.sess then p
    else
      var q := p.(sess := p.sess[s := p.sess[s].(alive := false)]);
      if p.sess[s].removed then Dropped(q, s) else q
  }

  ghost function AllExited(p: Snapshot, exits: seq<nat>): Snapshot
    decreases |exits|
  {
    if exits == [] then p else Exited(AllExited(p, exits[..|exits| - 1]), exits[|exits| - 1])
  }

  lemma AllExitedMore(p: Snapshot, exits: seq<nat>, i: nat)
    requires i < |exits|
    ensures AllExited(p, exits[..i + 1]) == Exited(AllExited(p, exits[..i]), exits[i])
  {
    assert exits[..i + 1][..i] == exits[..i];
  }

  lemma FirstWithout(ss: seq<Session>, s: Session, pid: nat)
    requires s.pid != pid
    ensures FirstWith(Without(ss, s), pid) == FirstWith(ss, pid)
  {
    if ss != [] && ss[0] != s {
      FirstWithout(ss[1..], s, pid);
      assert Without(ss, s)[1..] == Without(ss[1..], s);
    }
  }

  /** Nobody notices the exits but the sessions with those pids, and the clients of
      those. */
  ghost predicate Unnoticed(p: Snapshot, q: Snapshot, exits: seq<nat>) {
    && q.clients == p.clients && q.running == p.running && Books(q) == Books(p) && q.conns.Keys == p.conns.Keys && q.sess.Keys == p.sess.Keys
    && (forall pid :: pid !in exits ==> FirstWith(q.order, pid) == FirstWith(p.order, pid))
    && (forall s :: s in q.order ==> s in p.order)
    && (forall s :: s in p.sess && s.pid !in exits ==> q.sess[s] == p.sess[s])
    && (forall c :: c in p.conns ==> Bystander(p.conns[c], q.conns[c]))
    && (forall c :: c in p.conns && (p.conns[c].session == null || p.conns[c].session.pid !in exits) ==> q.conns[c] == p.conns[c])
  }

  lemma UnnoticedTrans(p: Snapshot, q: Snapshot, r: Snapshot, a: seq<nat>, b: seq<nat>)
    requires Unnoticed(p, q, a) && Unnoticed(q, r, b)
    ensures Unnoticed(p, r, a + b)
  {
  }

  lemma FewerLeft(ss: seq<Session>, s: Session)
    ensures forall t <- Without(ss, s) :: t in ss
  {
    forall t | t in Without(ss, s) ensures t in ss { LeftOnly(ss, s, t); }
  }

  lemma ExitUnnoticed(p: Snapshot, pid: nat)
    ensures Unnoticed(p, Exited(p, pid), [pid])
  {
    var s := FirstWith(p.order, pid);
    if s != null && s in p.sess && p.sess[s].removed {
      var t: Session := s;
      FewerLeft(p.order, t);
      forall other | other != pid ensures FirstWith(Without(p.order, t), other) == FirstWith(p.order, other) {
        FirstWithout(p.order, t, other);
      }
    }
  }

  lemma {:induction false} ExitsUnnoticed(p: Snapshot, exits: seq<nat>)
    ensures Unnoticed(p, AllExited(p, exits), exits)
    decreases |exits|
  {
    if exits != [] {
      hide Unnoticed, Exited;
      var n := |exits| - 1;
      ExitsUnnoticed(p, exits[..n]);
      ExitUnnoticed(AllExited(p, exits[..n]), exits[n]);
      UnnoticedTrans(p, AllExited(p, exits[..n]), AllExited(p, exits), exits[..n], [exits[n]]);
      assert exits[..n] + [exits[n]] == exits;
    }
  }

  /** s has died: it stays listed exactly if it had not been killed. */
  ghost predicate Ended(a: SessRecord, b: SessRecord) {
    !b.alive && b.removed == a.removed && (b.listed <==> !b.removed)
  }

  /** Every first session with a pid that exited has died. */
  lemma {:induction false} ExitsEnd(p: Snapshot, exits: seq<nat>, pid: nat)
    requires pid in exits && FirstWith(p.order, pid) != null && FirstWith(p.order, pid) in p.sess && p.sess[FirstWith(p.order, pid)].listed
    ensures var s := FirstWith(p.order, pid); s in AllExited(p, exits).sess && Ended(p.sess[s], AllExited(p, exits).sess[s])
    decreases |exits|
  {
    var n := |exits| - 1;
    var m, s := AllExited(p, exits[..n]), FirstWith(p.order, pid);
    ExitsUnnoticed(p, exits[..n]);
    if pid in exits[..n] {
      ExitsEnd(p, exits[..n], pid);
      ExitAgain(m, exits[n], s);
    } else {
      assert pid == exits[n] && FirstWith(m.order, pid) == s;
    }
  }

  /** The dead stay as they are. */
  lemma ExitAgain(p: Snapshot, pid: nat, s: Session)
    requires s in p.sess && !p.sess[s].alive && (p.sess[s].listed <==> !p.sess[s].removed)
    ensures s in Exited(p, pid).sess && Ended(p.sess[s], Exited(p, pid).sess[s])
  {
  }

  /** The child of the session just created is found by its pid, also when a dead
      session that once had the same one is still listed: its exit ends that
      session, which stays listed, and changes nothing else. */
  lemma ChildExits(p: Snapshot, q: Snapshot, a: Codec.CreateArgs, e: Env)
    requires Spawned(p, q, a, e) && e.spawnOk && e.ringOk && e.registerOk
    ensures q.order[0] !in p.sess && q.order[0].id == p.nextId + 1 && q.sess[q.order[0]].alive
    ensures AllExited(q, [e.pid]) == q.(sess := q.sess[q.order[0] := q.sess[q.order[0]].(alive := false)])
  {
    assert [e.pid][..0] == [] && AllExited(q, []) == q;
    assert FirstWith(q.order, e.pid) == q.order[0];
  }

  // --- a PTY master that is ready ---

  ghost function Left(b: ConnRecord): nat {
    if |b.sent| <= |b.queued| then |b.queued| - |b.sent| else 0
  }

  /** The client of the session: what was read and found room is queued, and the
      flushes behind it have written their share. */
  ghost predicate Showed(a: ConnRecord, b: ConnRecord, open: bool, removed: bool, rs: seq<PtyOutcome>) {
    var gone := open && Taken(rs).1;
    && b == a.(queued := b.queued, sent := b.sent, lossy := b.lossy, wantClose := b.wantClose, session := if gone && removed then null else a.session)
    && b.queued == a.queued + (if open then Passed(rs) else [])
    && a.sent <= b.sent && |b.sent| == |a.sent| + (if open then Handed(Left(a), rs, !removed) else 0)
    && b.wantClose == (a.wantClose || gone || (open && Chokes(Left(a), rs)))
  }

  /** What a ready PTY takes of the keyboard queue, and what waits on; only a failed
      write or a closed PTY loses any of it. */
  ghost predicate KeysTaken(a: SessRecord, b: SessRecord, writable: bool, ws: seq<WriteOutcome>) {
    if !writable then b.taken == a.taken && b.pin == a.pin && b.inputLost == a.inputLost
    else if !a.ptyOpen then b.taken == a.taken && b.pin == [] && b.inputLost == (a.inputLost || a.pin != [])
    else
      var (k, bad) := Drain(|a.pin|, ws);
      b.taken == a.taken + a.pin[..k] && b.pin == (if bad then [] else a.pin[k..]) && b.inputLost == (a.inputLost || bad)
  }

  /** The session: its PTY takes of the keyboard queue what it will, and gives what
      it has; at the end of file the master closes, and a killed session goes. */
  ghost predicate Drained(a: SessRecord, b: SessRecord, writable: bool, ws: seq<WriteOutcome>, open: bool, rs: seq<PtyOutcome>) {
    var gone := open && Taken(rs).1;
    && b == a.(output := b.output, taken := b.taken, pin := b.pin, inputLost := b.inputLost, ptyOpen := b.ptyOpen, listed := b.listed, starved := b.starved)
    && b.output == a.output + (if open then Taken(rs).0 else [])
    && KeysTaken(a, b, writable, ws)
    && b.ptyOpen == (a.ptyOpen && !gone) && b.listed == !(gone && a.removed)
  }

  ghost predicate PtyServed(p: Snapshot, q: Snapshot, ev: Event)
    requires ev.OfPty?
  {
    var s := ev.s;
    s in p.sess && s in q.sess && if !p.sess[s].listed then q == p else
      var a, b := p.sess[s], q.sess[s];
      var open := ev.readable && a.ptyOpen;
      && Drained(a, b, ev.writable, ev.ws, open, ev.rs)
      && q == p.(sess := q.sess, conns := q.conns, order := if b.listed then p.order else Without(p.order, s))
      && q.sess.Keys == p.sess.Keys && (forall t :: t in p.sess && t != s ==> q.sess[t] == p.sess[t])
      && q.conns.Keys == p.conns.Keys && forall c :: c in p.conns ==>
           if p.conns[c].session == s then Showed(p.conns[c], q.conns[c], open, a.removed, ev.rs) else q.conns[c] == p.conns[c]
  }

  // --- a client that is ready ---

  /** What a read adds to what has been received. */
  ghost function Fetched(a: ConnRecord, readable: bool, r: ReadOutcome): seq<byte> {
    if readable && r.Bytes? && (a.isData || r.bufferOk) then r.bytes else []
  }

  /** The read meets the end of file, an error, or a failed allocation. */
  ghost predicate Parting(a: ConnRecord, readable: bool, r: ReadOutcome) {
    readable && (r.PeerGone? || (r.Bytes? && (r.bytes == [] || (!a.isData && !r.bufferOk))))
  }

  /** What a ready socket has taken of the pending output; a failed write closes. */
  ghost predicate Flushed(a: ConnRecord, b: ConnRecord, writable: bool, ws: seq<WriteOutcome>) {
    && a.sent <= b.sent && |b.sent| == |a.sent| + (if writable then Drain(Left(a), ws).0 else 0)
    && b.wantClose == (a.wantClose || (writable && Drain(Left(a), ws).1))
    && b.isData == a.isData && b.received == a.received && b.queued == a.queued && b.lossy == a.lossy
  }

  /** What a read has received, and when it closes: at the end of file, on an error
      or for want of memory, on a frame of illegal length, or when its replies have
      no room. */
  ghost predicate TakenIn(a: ConnRecord, b: ConnRecord, readable: bool, r: ReadOutcome, refused: bool) {
    b.received == a.received + Fetched(a, readable, r) && Reasons(a, b, refused || Parting(a, readable, r))
  }

  lemma Streams(a: ConnRecord, b: ConnRecord, c: ConnRecord, ev: Event, refused: bool)
    requires ev.OfConn? && Flushed(a, b, ev.writable, ev.ws) && TakenIn(b, c, ev.readable, ev.r, refused)
    ensures Streamed(a, c, ev, refused)
  {
    hide Drain;
  }

  /** What is written, what is received, and when the client is to be closed. */
  ghost predicate Streamed(a: ConnRecord, b: ConnRecord, ev: Event, refused: bool)
    requires ev.OfConn?
  {
    var closing := a.wantClose || refused || Parting(a, ev.readable, ev.r) || (ev.writable && Drain(Left(a), ev.ws).1);
    && a.sent <= b.sent && |b.sent| == |a.sent| + (if ev.writable then Drain(Left(a), ev.ws).0 else 0)
    && b.received == a.received + Fetched(a, ev.readable, ev.r)
    && (closing ==> b.wantClose) && (b.wantClose ==> closing || Swamped(a, b))
  }

  /** One event: what was said in it, if a client was served; the snapshot before a
      drained client is closed; and the snapshot at its end. */
  datatype Stage = Stage(talk: Talk, mid: Snapshot, end: Snapshot)

  ghost predicate ConnServed(p: Snapshot, st: Stage, ev: Event)
    requires ev.OfConn?
  {
    var c := ev.c;
    && Conversed(p, st.mid, c, st.talk, ev.envs) && Streamed(p.conns[c], st.mid.conns[c], ev, st.talk.refused) && DrainedAway(st.mid, st.end, c)
    && (!ev.readable ==> st.talk == Talk([], [], [], false))
  }

  lemma ConnKeeps(p: Snapshot, st: Stage, ev: Event)
    requires ev.OfConn? && ConnServed(p, st, ev)
    ensures p.sess.Keys <= st.end.sess.Keys
  {
    hide Streamed, Undisturbed, Replies, BooksAfterAll, Targets, Bystander, Untyped;
  }

  // --- whole rounds ---

  /** What an event does to a snapshot. */
  ghost predicate Effect(p: Snapshot, st: Stage, ev: Event) {
    match ev
    case Accepting(oks) => Admitted(p, st.end, oks)
    case Signalled(exits, stop) => st.end == AllExited(p, exits).(running := p.running && !stop)
    case OfPty(_, _, _, _, _) => PtyServed(p, st.end, ev)
    case OfConn(_, _, _, _, _, _) => ConnServed(p, st, ev)
  }

  /** Behind the batch: sessions awaiting their free are gone, and a kill deadline
      that is due is done with. */
  ghost function Cleared(p: Snapshot, due: nat -> bool): Snapshot {
    p.(sess := map s | s in p.sess && s in p.order :: p.sess[s].(killing := p.sess[s].killing && !(p.sess[s].alive && due(s.id))))
  }

  ghost function After(p: Snapshot, sts: seq<Stage>, i: nat): Snapshot
    requires i <= |sts|
  {
    if i == 0 then p else sts[i - 1].end
  }

  /** A round of the event loop: every event of the batch has its effect, in order,
      and then the batch is cleared up. */
  ghost predicate Rounded(p: Snapshot, sts: seq<Stage>, q: Snapshot, batch: seq<Event>, due: nat -> bool) {
    && |sts| == |batch| && (forall i :: 0 <= i < |batch| ==> Effect(After(p, sts, i), sts[i], batch[i]))
    && q == Cleared(After(p, sts, |batch|), due)
  }

  /** A run: round after round, while the daemon is not told to stop. */
  ghost predicate Ran(ps: seq<Snapshot>, sts: seq<seq<Stage>>, next: nat -> seq<Report>, due: nat -> nat -> bool) {
    && |ps| == |sts| + 1 && forall i :: 0 <= i < |sts| ==>
         ps[i].running && Rounded(ps[i], sts[i], ps[i + 1], Collected(next(i), ps[i].clients, ps[i].order), due(i))
  }

  lemma RanMore(ps: seq<Snapshot>, sts: seq<seq<Stage>>, q: Snapshot, st: seq<Stage>, next: nat -> seq<Report>, due: nat -> nat -> bool)
    requires Ran(ps, sts, next, due) && var p, n := ps[|sts|], |sts|; p.running && Rounded(p, st, q, Collected(next(n), p.clients, p.order), due(n))
    ensures Ran(ps + [q], sts + [st], next, due)
  {
    hide Rounded, Collected;
  }

  /** The first i events of a batch have had their effects. */
  ghost predicate Partly(p: Snapshot, sts: seq<Stage>, q: Snapshot, batch: seq<Event>) {
    |sts| <= |batch| && q == After(p, sts, |sts|) && forall i :: 0 <= i < |sts| ==> Effect(After(p, sts, i), sts[i], batch[i])
  }

  lemma PartlyMore(p: Snapshot, sts: seq<Stage>, q: Snapshot, st: Stage, batch: seq<Event>)
    requires Partly(p, sts, q, batch) && |sts| < |batch| && Effect(q, st, batch[|sts|])
    ensures Partly(p, sts + [st], st.end, batch)
  {
    hide Effect;
    var ss := sts + [st];
    forall i | 0 <= i < |ss| ensures Effect(After(p, ss, i), ss[i], batch[i]) {
      if i < |sts| { assert After(p, ss, i) == After(p, sts, i); }
    }
  }

  lemma PartlyAll(p: Snapshot, sts: seq<Stage>, q: Snapshot, batch: seq<Event>, due: nat -> bool)
    requires Partly(p, sts, q, batch) && |sts| == |batch|
    ensures Rounded(p, sts, Cleared(q, due), batch, due)
  {
    hide Effect;
  }

  // --- what unbinds a client ---

  /** The event is about s: its child has exited, its PTY is ready, or a client asks
      to attach to it, kill it or detach its client. */
  ghost predicate About(st: Stage, ev: Event, s: Session) {
    match ev
    case Accepting(_) => false
    case Signalled(exits, _) => s.pid in exits
    case OfPty(t, _, _, _, _) => t == s
    case OfConn(_, _, _, _, _, _) => s.id in Targets(st.talk.fs)
  }

  /** No other event unbinds a client of s, closes its master, or kills it. */
  lemma EffectSpares(p: Snapshot, st: Stage, ev: Event, s: Session)
    requires Effect(p, st, ev) && !About(st, ev, s)
    ensures forall c :: c in p.conns && c in st.end.conns && p.conns[c].session == s ==> st.end.conns[c].session == s
    ensures s in p.sess && s in st.end.sess ==> Standing(p.sess[s], st.end.sess[s])
  {
    hide AllExited, FirstWith, Drained, Showed, Taken, BooksAfterAll, Replies, Targets, Refusal;
    if ev.Signalled? { ExitsUnnoticed(p, ev.exits); }
  }

  /** c is listed at every step of the round, and nothing in it is about s. */
  ghost predicate Uneventful(p: Snapshot, sts: seq<Stage>, batch: seq<Event>, c: Connection, s: Session)
    requires |sts| == |batch|
  {
    && (forall i :: 0 <= i <= |sts| ==> c in After(p, sts, i).conns)
    && (forall i :: 0 <= i < |sts| ==> !About(sts[i], batch[i], s))
  }

  lemma {:induction false} StaysBound(p: Snapshot, sts: seq<Stage>, batch: seq<Event>, c: Connection, s: Session, i: nat)
    requires |sts| == |batch| && Uneventful(p, sts, batch, c, s) && c in p.conns && p.conns[c].session == s && i <= |sts|
    requires forall k :: 0 <= k < |batch| ==> Effect(After(p, sts, k), sts[k], batch[k])
    ensures After(p, sts, i).conns[c].session == s
    decreases i
  {
    hide Effect, About;
    if i > 0 {
      StaysBound(p, sts, batch, c, s, i - 1);
      assert c in After(p, sts, i - 1).conns && c in After(p, sts, i).conns && !About(sts[i - 1], batch[i - 1], s);
      EffectSpares(After(p, sts, i - 1), sts[i - 1], batch[i - 1], s);
    }
  }

  /** In every run: a client that stays listed stays bound to its session until an
      event is about that session. */
  lemma {:induction false} BoundInEveryRun(
    ps: seq<Snapshot>, sts: seq<seq<Stage>>, next: nat -> seq<Report>, due: nat -> nat -> bool, i: nat, j: nat, c: Connection, s: Session)
    requires Ran(ps, sts, next, due) && i <= j < |ps| && c in ps[i].conns && ps[i].conns[c].session == s
    requires forall k :: i <= k < j ==> var batch := Collected(next(k), ps[k].clients, ps[k].order);
      |sts[k]| == |batch| && Uneventful(ps[k], sts[k], batch, c, s)
    ensures c in ps[j].conns && ps[j].conns[c].session == s
    decreases j
  {
    hide Effect, Uneventful, Collected;
    if i < j {
      var k := j - 1;
      BoundInEveryRun(ps, sts, next, due, i, k, c, s);
      var batch := Collected(next(k), ps[k].clients, ps[k].order);
      assert Rounded(ps[k], sts[k], ps[k + 1], batch, due(k));
      StaysBound(ps[k], sts[k], batch, c, s, |batch|);
      LastListed(ps[k], sts[k], batch, c, s);
    }
  }

  lemma LastListed(p: Snapshot, sts: seq<Stage>, batch: seq<Event>, c: Connection, s: Session)
    requires |sts| == |batch| && Uneventful(p, sts, batch, c, s)
    ensures c in After(p, sts, |batch|).conns
  {
  }

  // --- where sessions come from ---

  /** Only a client's CREATE lists a session. */
  lemma EffectBrings(p: Snapshot, st: Stage, ev: Event, s: Session)
    requires Effect(p, st, ev) && s in st.end.order && s !in p.order
    ensures ev.OfConn? && exists i :: 0 <= i < |st.talk.fs| && Begets(st.talk.fs[i], ev.envs(i), s)
  {
    hide AllExited, FirstWith, Drained, Showed, BooksAfterAll, Replies, Targets, Refusal, Begets, Without, Goes, Streamed;
    if ev.Signalled? { ExitsUnnoticed(p, ev.exits); }
    if ev.OfPty? { LeftOnly(p.order, ev.s, s); }
  }

  /** s is the child of a CREATE answered in this round. */
  ghost predicate BornIn(sts: seq<Stage>, batch: seq<Event>, s: Session)
    requires |sts| == |batch|
  {
    exists i, n :: 0 <= i < |batch| && batch[i].OfConn? && 0 <= n < |sts[i].talk.fs| && Begets(sts[i].talk.fs[n], batch[i].envs(n), s)
  }

  lemma {:induction false} BatchBrings(p: Snapshot, sts: seq<Stage>, batch: seq<Event>, i: nat, s: Session)
    requires |sts| == |batch| && (forall k :: 0 <= k < |batch| ==> Effect(After(p, sts, k), sts[k], batch[k])) && i <= |sts|
    requires s in After(p, sts, i).order && s !in p.order
    ensures BornIn(sts, batch, s)
    decreases i
  {
    hide Effect, Begets;
    if i > 0 {
      if s in After(p, sts, i - 1).order {
        BatchBrings(p, sts, batch, i - 1, s);
      } else {
        EffectBrings(After(p, sts, i - 1), sts[i - 1], batch[i - 1], s);
      }
    }
  }

  /** In every run every session ever listed is the child of a CREATE that some
      client sent in an earlier round: it has the pid and the date of that spawn, and
      the directory the client asked for or else home. */
  lemma {:induction false} SpawnedInEveryRun(
    ps: seq<Snapshot>, sts: seq<seq<Stage>>, next: nat -> seq<Report>, due: nat -> nat -> bool, j: nat, s: Session)
    requires Ran(ps, sts, next, due) && j < |ps| && ps[0].order == [] && s in ps[j].order
    ensures exists k :: 0 <= k < j && var batch := Collected(next(k), ps[k].clients, ps[k].order); |sts[k]| == |batch| && BornIn(sts[k], batch, s)
    decreases j
  {
    hide Effect, BornIn, Collected;
    if j > 0 {
      var k := j - 1;
      if s in ps[k].order {
        SpawnedInEveryRun(ps, sts, next, due, k, s);
      } else {
        var batch := Collected(next(k), ps[k].clients, ps[k].order);
        assert Rounded(ps[k], sts[k], ps[k + 1], batch, due(k));
        BatchBrings(ps[k], sts[k], batch, |batch|, s);
      }
    }
  }

  lemma ClearedProgress(p: Snapshot, due: nat -> bool)
    requires Sound(p)
    ensures Progress(p, Cleared(p, due), true, true)
  {
    Registry.ReachesSelf(p.reg);
  }
}
