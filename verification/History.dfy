/** The daemon of src/daemon/server.c over time: what a snapshot of it records,
    what one event may do to a snapshot, and what follows for whole runs. */
module History {
  import opened Bytes
  import opened Framing
  import opened Endpoints
  import opened Channel
  import opened Wire
  import Codec
  import Registry
  import Ring

  datatype ConnRecord = ConnRecord(
    session: Session?, isData: bool, wantClose: bool, lossy: bool,
    queued: seq<byte>, sent: seq<byte>, received: seq<byte>, frames: seq<Frame>, raw: seq<byte>,
    mark: nat, start: nat, joinedAt: nat, typedStart: nat, shortReplay: bool, head: seq<byte>)

  datatype SessRecord = SessRecord(
    output: seq<byte>, typed: seq<byte>, taken: seq<byte>, pin: seq<byte>,
    inputLost: bool, ptyOpen: bool, alive: bool, removed: bool, killing: bool, listed: bool, starved: bool)

  /** Listed connections, sessions listed or awaiting their deferred free, the two
      lists in order, the books, and whether the daemon is to run on. */
  datatype Snapshot = Snapshot(
    conns: map<Connection, ConnRecord>, sess: map<Session, SessRecord>, clients: seq<Connection>, order: seq<Session>,
    reg: Registry.Registry, byId: map<nat, Session>, nextId: nat, running: bool)

  const START: Snapshot := Snapshot(map[], map[], [], [], Registry.EMPTY, map[], 0, true)

  ghost function RecordOf(c: Connection): ConnRecord
    reads c`session, c`isData, c`wantClose, c`lossy, c`queued, c`sent, c`received, c`frames, c`raw
    reads c`mark, c`start, c`joinedAt, c`typedStart, c`shortReplay, c`head
  {
    ConnRecord(c.session, c.isData, c.wantClose, c.lossy, c.queued, c.sent, c.received, c.frames, c.raw,
               c.mark, c.start, c.joinedAt, c.typedStart, c.shortReplay, c.head)
  }

  ghost function SessionRecord(s: Session, listed: bool): SessRecord
    reads s`output, s`typed, s`taken, s`pin, s`inputLost, s`ptyOpen, s`alive, s`removed, s`killing, s.out`starved
  {
    SessRecord(s.output, s.typed, s.taken, s.pin, s.inputLost, s.ptyOpen, s.alive, s.removed, s.killing, listed, listed && s.out.starved)
  }

  // --- what every snapshot between events satisfies ---

  /** The index in the output where a complete replay begins for a client that
      joins after n bytes. */
  function ReplayFrom(n: nat): (i: nat)
    ensures i <= n && n - i <= Ring.RING_CAP && (i > 0 ==> n - i == Ring.RING_CAP)
  {
    if n <= Ring.RING_CAP then 0 else n - Ring.RING_CAP
  }

  ghost predicate SoundConn(c: ConnRecord, sess: map<Session, SessRecord>) {
    && c.sent <= c.queued
    && (c.session != null ==> c.isData && c.session in sess && sess[c.session].listed && SoundTap(c, sess[c.session]))
  }

  ghost predicate SoundTap(c: ConnRecord, s: SessRecord) {
    && c.start <= c.joinedAt <= |s.output| && (!c.shortReplay ==> c.start == ReplayFrom(c.joinedAt))
    && (!c.lossy ==> Follows(c.queued, c.mark, s.output, c.start))
    && Follows(s.typed, c.typedStart, c.raw, 0)
  }

  ghost predicate Sound(p: Snapshot) {
    && (forall c :: c in p.conns ==> SoundConn(p.conns[c], p.sess))
    && (forall s :: s in p.sess && p.sess[s].listed && !p.sess[s].inputLost ==> p.sess[s].typed == p.sess[s].taken + p.sess[s].pin)
    && (forall s :: s in p.sess && p.sess[s].listed ==> s.id in p.byId && p.byId[s.id] == s)
    && (forall id :: id in p.byId ==> id <= p.nextId)
    && Registry.Inv(p.reg)
  }

  /** Between reads a raw channel holds nothing back: all it has received is its
      frames, spelled out, and what it has handed on. And a control connection that
      is not to be closed has been parsed up to its last complete frame. */
  ghost predicate Heard(p: Snapshot) {
    && (forall c :: c in p.conns && p.conns[c].isData ==> p.conns[c].received == Flatten(p.conns[c].frames) + p.conns[c].raw)
    && (forall c :: c in p.conns && !p.conns[c].isData && !p.conns[c].wantClose ==> Parse(p.conns[c].received).0 == p.conns[c].frames)
  }

  // --- what any event may do ---

  /** A raw channel stays one, its tap is never moved, and it never parses another
      frame. Histories only grow, and a detached client stays detached. */
  ghost predicate ConnOnward(a: ConnRecord, b: ConnRecord) {
    && a.queued <= b.queued && a.sent <= b.sent && a.received <= b.received && a.frames <= b.frames && a.raw <= b.raw
    && (a.lossy ==> b.lossy) && (a.wantClose ==> b.wantClose)
    && (a.isData ==>
         && b.isData && (b.session == a.session || b.session == null) && b.frames == a.frames
         && b.mark == a.mark && b.start == a.start && b.joinedAt == a.joinedAt
         && b.typedStart == a.typedStart && b.shortReplay == a.shortReplay && b.head == a.head)
  }

  ghost predicate SessOnward(a: SessRecord, b: SessRecord) {
    && a.output <= b.output && a.typed <= b.typed && a.taken <= b.taken && (a.inputLost ==> b.inputLost)
    && (b.ptyOpen ==> a.ptyOpen) && (b.listed ==> a.listed) && (a.starved && b.listed ==> b.starved)
  }

  /** The last frame a raw channel sent is the ATTACH that opened it, for the
      session it is bound to; and right ahead of its raw output stands the
      ATTACHED frame about that session, if there was memory for it. */
  ghost predicate Greeted(b: ConnRecord) {
    b.frames != [] && var f := b.frames[|b.frames| - 1];
    var q := Codec.DecodeRequest(f.kind, f.body);
    && q.Attach? && (b.session != null ==> b.session.id == q.id)
    && |b.head| <= b.mark <= |b.queued| && b.queued[b.mark - |b.head|..b.mark] == b.head
    && (b.head == [] || Announces(b.head, q.id))
  }

  ghost predicate Announces(head: seq<byte>, id: nat) {
    exists info: Codec.SessionInfo :: info.id == id && info.attached && head == EncFrame(Codec.ATTACHED, Codec.EncInfo(info))
  }

  /** A client that has joined since p was greeted, and stands in what s has put
      out and been given since p. */
  ghost predicate JoinedSince(p: Snapshot, b: ConnRecord) {
    b.isData ==> Greeted(b) && (b.session != null && b.session in p.sess ==>
      |p.sess[b.session].output| <= b.joinedAt && |p.sess[b.session].typed| <= b.typedStart)
  }

  /** Bytes for the client have been refused, or more is pending than it may be
      behind. */
  ghost predicate Swamped(a: ConnRecord, b: ConnRecord) {
    b.lossy || (b.queued != a.queued && |b.queued| > |b.sent| + MAX_WBUF)
  }

  /** While nothing is written, a client is told to close for no other reason, but
      that a frame of it was refused. */
  ghost predicate Reasons(a: ConnRecord, b: ConnRecord, refused: bool) {
    && b.sent == a.sent && a.queued <= b.queued && (a.lossy ==> b.lossy) && (a.wantClose || refused ==> b.wantClose)
    && (b.wantClose ==> a.wantClose || refused || Swamped(a, b))
  }

  lemma ReasonsTrans(a: ConnRecord, b: ConnRecord, c: ConnRecord, early: bool, late: bool)
    requires Reasons(a, b, early) && Reasons(b, c, late)
    ensures Reasons(a, c, early || late)
  {
  }

  /** Only what is queued and sent, and the flags, matter here. */
  ghost predicate Alike(a: ConnRecord, b: ConnRecord) {
    b.sent == a.sent && b.queued == a.queued && b.lossy == a.lossy && b.wantClose == a.wantClose
  }

  lemma ReasonsAlike(a: ConnRecord, b: ConnRecord, c: ConnRecord, refused: bool)
    requires Reasons(a, b, refused) && Alike(b, c)
    ensures Reasons(a, c, refused)
  {
  }

  lemma ReasonsNone(a: ConnRecord, b: ConnRecord)
    requires Alike(a, b)
    ensures Reasons(a, b, false)
  {
  }

  ghost predicate WasData(p: Snapshot, c: Connection) {
    c in p.conns && p.conns[c].isData
  }

  ghost predicate Onward(p: Snapshot, q: Snapshot) {
    && (forall c :: c in p.conns && c in q.conns ==> ConnOnward(p.conns[c], q.conns[c]))
    && (forall c :: c in q.conns && !WasData(p, c) ==> JoinedSince(p, q.conns[c]))
    && (forall s :: s in p.sess && s in q.sess ==> SessOnward(p.sess[s], q.sess[s]))
    && Registry.Reaches(p.reg, q.reg) && NamesKept(p, q)
  }

  /** A session id names the same session for ever, and new ids are new. */
  ghost predicate NamesKept(p: Snapshot, q: Snapshot) {
    && p.nextId <= q.nextId && (forall id :: id in p.byId ==> id in q.byId && q.byId[id] == p.byId[id])
    && (forall id :: id in q.byId ==> id in p.byId || id > p.nextId)
  }

  /** No output byte has been refused, no replay cut short, no ring starved, that
      was not so already. */
  ghost predicate OutputKept(p: Snapshot, q: Snapshot) {
    && (forall c :: c in q.conns && q.conns[c].lossy ==> c in p.conns && p.conns[c].lossy)
    && (forall c :: c in q.conns && q.conns[c].isData && q.conns[c].shortReplay ==>
         (WasData(p, c) && p.conns[c].shortReplay) || !Fed(q, q.conns[c].session))
    && (forall c :: c in q.conns && q.conns[c].isData && q.conns[c].head == [] ==> WasData(p, c) && p.conns[c].head == [])
    && (forall s :: s in q.sess && q.sess[s].starved ==> s in p.sess && p.sess[s].starved)
  }

  /** s is listed and its ring has always had the memory it asked for. */
  ghost predicate Fed(q: Snapshot, s: Session?) {
    s != null && s in q.sess && q.sess[s].listed && !q.sess[s].starved
  }

  /** No keyboard input has been discarded that was not already, but where the PTY
      is closed. */
  ghost predicate InputKept(p: Snapshot, q: Snapshot) {
    forall s :: s in q.sess && q.sess[s].inputLost && q.sess[s].ptyOpen ==> s in p.sess && p.sess[s].inputLost
  }

  /** From p to q, where `ample` says that no allocation on an output path failed,
      and `calm` that none on the input path did and no write to a PTY. */
  ghost predicate Progress(p: Snapshot, q: Snapshot, ample: bool, calm: bool) {
    Onward(p, q) && (ample ==> OutputKept(p, q)) && (calm ==> InputKept(p, q))
  }

  /** No client is detached, no PTY closed, no session killed or unlisted, but of
      the sessions named. */
  ghost predicate Undisturbed(p: Snapshot, q: Snapshot, ids: set<nat>) {
    && (forall c :: c in p.conns && c in q.conns && p.conns[c].session != null && p.conns[c].session.id !in ids ==>
         q.conns[c].session == p.conns[c].session)
    && (forall s :: s in p.sess && s in q.sess && s.id !in ids ==> Standing(p.sess[s], q.sess[s]))
  }

  ghost predicate Standing(a: SessRecord, b: SessRecord) {
    b.ptyOpen == a.ptyOpen && b.alive == a.alive && b.removed == a.removed && b.killing == a.killing && b.listed == a.listed
  }

  // --- one stretch after another ---

  /** What is in p and again in r has been in q between. */
  ghost predicate Between(p: Snapshot, q: Snapshot, r: Snapshot) {
    (forall c :: c in p.conns && c in r.conns ==> c in q.conns) && (forall s :: s in p.sess && s in r.sess ==> s in q.sess)
  }

  lemma ConnTrans(a: ConnRecord, b: ConnRecord, c: ConnRecord)
    requires ConnOnward(a, b) && ConnOnward(b, c)
    ensures ConnOnward(a, c)
  {
  }

  lemma GreetedStays(a: ConnRecord, b: ConnRecord)
    requires ConnOnward(a, b) && a.isData && Greeted(a)
    ensures Greeted(b)
  {
    hide Announces;
    SliceStays(a.queued, b.queued, a.mark - |a.head|, a.mark);
  }

  lemma SliceStays(a: seq<byte>, b: seq<byte>, i: nat, j: nat)
    requires a <= b && i <= j <= |a|
    ensures a[i..j] == b[i..j]
  {
  }

  lemma SessTrans(a: SessRecord, b: SessRecord, c: SessRecord)
    requires SessOnward(a, b) && SessOnward(b, c)
    ensures SessOnward(a, c)
  {
  }

  /** Who had joined by q had joined by r with the tap where it was, and who joined
      since q did so behind all that was there at p. */
  lemma JoinedTrans(p: Snapshot, q: Snapshot, r: Snapshot, c: Connection)
    requires Onward(p, q) && Onward(q, r) && Between(p, q, r) && Sound(q) && Sound(r) && c in r.conns && !WasData(p, c)
    ensures JoinedSince(p, r.conns[c])
  {
    hide SoundTap, Greeted, Registry.Reaches, Registry.Inv;
    if WasData(q, c) {
      assert ConnOnward(q.conns[c], r.conns[c]) && JoinedSince(p, q.conns[c]);
      GreetedStays(q.conns[c], r.conns[c]);
    } else {
      assert JoinedSince(q, r.conns[c]) && SoundConn(r.conns[c], r.sess);
      var s := r.conns[c].session;
      if s != null && s in p.sess { assert SessOnward(p.sess[s], q.sess[s]); }
    }
  }

  lemma OnwardTrans(p: Snapshot, q: Snapshot, r: Snapshot)
    requires Onward(p, q) && Onward(q, r) && Between(p, q, r) && Sound(q) && Sound(r)
    ensures Onward(p, r)
  {
    hide Sound, ConnOnward, SessOnward, JoinedSince, Registry.Reaches;
    Registry.ReachesTrans(p.reg, q.reg, r.reg);
    forall c | c in p.conns && c in r.conns ensures ConnOnward(p.conns[c], r.conns[c]) {
      ConnTrans(p.conns[c], q.conns[c], r.conns[c]);
    }
    forall s | s in p.sess && s in r.sess ensures SessOnward(p.sess[s], r.sess[s]) {
      SessTrans(p.sess[s], q.sess[s], r.sess[s]);
    }
    forall c | c in r.conns && !WasData(p, c) ensures JoinedSince(p, r.conns[c]) {
      JoinedTrans(p, q, r, c);
    }
  }

  lemma OutputKeptTrans(p: Snapshot, q: Snapshot, r: Snapshot)
    requires Onward(q, r) && OutputKept(p, q) && OutputKept(q, r) && Sound(q)
    ensures OutputKept(p, r)
  {
    hide SoundTap, Registry.Reaches, Registry.Inv;
    forall c | c in r.conns && r.conns[c].isData && r.conns[c].shortReplay && Fed(r, r.conns[c].session)
      ensures WasData(p, c) && p.conns[c].shortReplay
    {
      var s := r.conns[c].session;
      assert ConnOnward(q.conns[c], r.conns[c]) && SoundConn(q.conns[c], q.sess);
      assert SessOnward(q.sess[s], r.sess[s]);
    }
  }

  lemma InputKeptTrans(p: Snapshot, q: Snapshot, r: Snapshot)
    requires Onward(q, r) && InputKept(p, q) && InputKept(q, r)
    ensures InputKept(p, r)
  {
    hide ConnOnward, JoinedSince, Registry.Reaches;
  }

  /** Two stretches make one. */
  lemma ProgressTrans(p: Snapshot, q: Snapshot, r: Snapshot, ample: bool, calm: bool)
    requires Progress(p, q, ample, calm) && Progress(q, r, ample, calm) && Between(p, q, r) && Sound(q) && Sound(r)
    ensures Progress(p, r, ample, calm)
  {
    hide Onward, OutputKept, InputKept, Between, Sound;
    OnwardTrans(p, q, r);
    if ample { OutputKeptTrans(p, q, r); }
    if calm { InputKeptTrans(p, q, r); }
  }

  lemma UndisturbedTrans(p: Snapshot, q: Snapshot, r: Snapshot, a: set<nat>, b: set<nat>)
    requires Undisturbed(p, q, a) && Undisturbed(q, r, b) && Between(p, q, r)
    ensures Undisturbed(p, r, a + b)
  {
  }

  lemma ProgressWeaken(p: Snapshot, q: Snapshot, ample: bool, calm: bool)
    requires Progress(p, q, true, true)
    ensures Progress(p, q, ample, calm)
  {
    hide Onward, OutputKept, InputKept;
  }

  lemma ProgressLess(p: Snapshot, q: Snapshot, a: bool, b: bool, ample: bool, calm: bool)
    requires Progress(p, q, a, b) && (ample ==> a) && (calm ==> b)
    ensures Progress(p, q, ample, calm)
  {
    hide Onward, OutputKept, InputKept;
  }

  /** Whether the daemon is to run on makes no difference. */
  lemma ProgressRunning(p: Snapshot, q: Snapshot, running: bool)
    requires Progress(p, q, true, true)
    ensures Progress(p, q.(running := running), true, true)
  {
    hide ConnOnward, SessOnward, JoinedSince, Registry.Reaches;
  }

  lemma ProgressSelf(p: Snapshot)
    requires Sound(p)
    ensures Progress(p, p, true, true)
  {
    Registry.ReachesSelf(p.reg);
  }

  // --- whole runs ---

  /** A run of the daemon, seen between events or batches. */
  ghost predicate Trace(ps: seq<Snapshot>, ample: bool, calm: bool) {
    && |ps| > 0 && ps[0] == START && (forall k :: 0 <= k < |ps| ==> Sound(ps[k]) && Heard(ps[k]))
    && forall k :: 0 <= k < |ps| - 1 ==> Progress(ps[k], ps[k + 1], ample, calm)
  }

  lemma TraceGrows(ps: seq<Snapshot>, q: Snapshot, ample: bool, calm: bool)
    requires Trace(ps, ample, calm) && Sound(q) && Heard(q) && Progress(ps[|ps| - 1], q, ample, calm)
    ensures Trace(ps + [q], ample, calm)
  {
    hide Sound, Heard, Progress;
    var qs := ps + [q];
    forall k | 0 <= k < |qs| - 1 ensures Progress(qs[k], qs[k + 1], ample, calm) {
      if k < |ps| - 1 { assert Progress(ps[k], ps[k + 1], ample, calm); }
    }
  }

  /** Every raw channel, at every moment of every run, was opened by the last frame
      it sent and greeted right ahead of its raw output. */
  lemma {:induction false} AllGreeted(ps: seq<Snapshot>, ample: bool, calm: bool, k: nat)
    requires Trace(ps, ample, calm) && k < |ps|
    ensures forall c :: c in ps[k].conns && ps[k].conns[c].isData ==> Greeted(ps[k].conns[c])
    decreases k
  {
    hide Trace, Greeted, Onward;
    if k == 0 {
      TraceStarts(ps, ample, calm);
    } else {
      AllGreeted(ps, ample, calm, k - 1);
      TraceStep(ps, ample, calm, k);
      GreetedOn(ps[k - 1], ps[k]);
    }
  }

  lemma TraceStarts(ps: seq<Snapshot>, ample: bool, calm: bool)
    requires Trace(ps, ample, calm)
    ensures |ps| > 0 && ps[0] == START
  {
  }

  lemma TraceStep(ps: seq<Snapshot>, ample: bool, calm: bool, k: nat)
    requires Trace(ps, ample, calm) && 0 < k < |ps|
    ensures Progress(ps[k - 1], ps[k], ample, calm) && Onward(ps[k - 1], ps[k])
  {
    hide Sound, Heard, Onward;
    assert Progress(ps[k - 1], ps[k - 1 + 1], ample, calm);
  }

  lemma GreetedOn(p: Snapshot, q: Snapshot)
    requires Onward(p, q) && forall c :: c in p.conns && p.conns[c].isData ==> Greeted(p.conns[c])
    ensures forall c :: c in q.conns && q.conns[c].isData ==> Greeted(q.conns[c])
  {
    hide Greeted, ConnOnward, SessOnward, NamesKept, Registry.Reaches;
    forall c | c in q.conns && q.conns[c].isData ensures Greeted(q.conns[c]) {
      if WasData(p, c) {
        GreetedStays(p.conns[c], q.conns[c]);
      } else {
        assert JoinedSince(p, q.conns[c]);
      }
    }
  }

  /** In a run in which no allocation for output fails, no connection ever loses a
      byte, no ring starves, and no bound client gets a short replay. */
  lemma {:induction false} NothingRefused(ps: seq<Snapshot>, k: nat)
    requires Trace(ps, true, false) && k < |ps|
    ensures forall c :: c in ps[k].conns ==> !ps[k].conns[c].lossy
    ensures forall s :: s in ps[k].sess ==> !ps[k].sess[s].starved
    ensures forall c :: c in ps[k].conns && ps[k].conns[c].session != null ==> !ps[k].conns[c].shortReplay
    ensures forall c :: c in ps[k].conns && ps[k].conns[c].isData ==> ps[k].conns[c].head != []
    decreases k
  {
    hide SoundTap, Heard, Greeted, SessOnward, NamesKept, Registry.Reaches, Registry.Inv;
    if k > 0 {
      NothingRefused(ps, k - 1);
      var p, q := ps[k - 1], ps[k];
      assert Progress(p, ps[k - 1 + 1], true, false) && Sound(p) && Sound(q);
      forall c | c in q.conns && q.conns[c].session != null ensures !q.conns[c].shortReplay {
        assert SoundConn(q.conns[c], q.sess) && Fed(q, q.conns[c].session);
        if WasData(p, c) {
          assert ConnOnward(p.conns[c], q.conns[c]);
        }
      }
    }
  }

  /** The output law: in every run in which no allocation for output fails, and at
      every moment of it, a bound client's last frame was the ATTACH for its
      session; it has been queued the ATTACHED frame, and right behind it the
      session's output from one ring ceiling before it joined, or from the
      beginning, to its end; and what it has been sent is the front of its queue. */
  lemma OutputInEveryRun(ps: seq<Snapshot>, k: nat, c: Connection)
    requires Trace(ps, true, false) && k < |ps| && c in ps[k].conns && ps[k].conns[c].session != null
    ensures var b := ps[k].conns[c]; b.session in ps[k].sess && var out := ps[k].sess[b.session].output;
      b.sent <= b.queued && b.mark <= |b.queued| && b.joinedAt <= |out| && b.queued[b.mark..] == out[ReplayFrom(b.joinedAt)..]
      && Greeted(b) && Announces(b.head, b.session.id)
  {
    hide Registry.Inv, Announces;
    NothingRefused(ps, k);
    AllGreeted(ps, true, false, k);
    assert SoundConn(ps[k].conns[c], ps[k].sess);
  }

  /** While a connection stays a raw channel and listed, from state i to state j,
      its tap stays where it was and what it was sent stays sent. */
  lemma {:induction false} TapStays(ps: seq<Snapshot>, ample: bool, calm: bool, i: nat, j: nat, c: Connection)
    requires Trace(ps, ample, calm) && i <= j < |ps| && forall k :: i <= k <= j ==> c in ps[k].conns
    requires ps[i].conns[c].isData
    ensures ConnOnward(ps[i].conns[c], ps[j].conns[c])
    decreases j
  {
    hide Sound;
    if i < j {
      TapStays(ps, ample, calm, i, j - 1, c);
      assert Progress(ps[j - 1], ps[j - 1 + 1], ample, calm);
      assert ConnOnward(ps[j - 1].conns[c], ps[j].conns[c]);
    }
  }

  lemma {:induction false} NothingDiscarded(ps: seq<Snapshot>, k: nat, s: Session)
    requires Trace(ps, false, true) && k < |ps| && s in ps[k].sess && ps[k].sess[s].ptyOpen
    ensures !ps[k].sess[s].inputLost
    decreases k
  {
    hide Sound;
    if k > 0 && ps[k].sess[s].inputLost {
      assert Progress(ps[k - 1], ps[k - 1 + 1], false, true);
      assert s in ps[k - 1].sess && SessOnward(ps[k - 1].sess[s], ps[k].sess[s]);
      NothingDiscarded(ps, k - 1, s);
    }
  }

  /** The input law: in every run in which no allocation for input and no write to
      a PTY fails, and at every moment of it, the bytes a bound client has sent
      behind its frames are the end of what the PTY has taken and what waits for
      it: in order, none lost, none twice, as long as the PTY is open. */
  lemma InputInEveryRun(ps: seq<Snapshot>, k: nat, c: Connection)
    requires Trace(ps, false, true) && k < |ps| && c in ps[k].conns && ps[k].conns[c].session != null
    ensures var b := ps[k].conns[c]; b.session in ps[k].sess && var s := ps[k].sess[b.session];
      b.received == Flatten(b.frames) + b.raw
      && (s.ptyOpen ==> b.typedStart <= |s.taken + s.pin| && (s.taken + s.pin)[b.typedStart..] == b.raw)
  {
    hide Registry.Inv;
    assert SoundConn(ps[k].conns[c], ps[k].sess);
    var s := ps[k].conns[c].session;
    if ps[k].sess[s].ptyOpen {
      NothingDiscarded(ps, k, s);
      assert ps[k].conns[c].raw[0..] == ps[k].conns[c].raw;
    }
  }

  /** The books over a run: a session id names one session only, group ids given
      up or passed over never come back, a group nobody has joined yet stays, and
      the counters only rise. */
  lemma {:induction false} BooksInEveryRun(ps: seq<Snapshot>, ample: bool, calm: bool, i: nat, j: nat)
    requires Trace(ps, ample, calm) && i <= j < |ps|
    ensures Registry.Reaches(ps[i].reg, ps[j].reg) && NamesKept(ps[i], ps[j])
    ensures ps[i].reg.nextGroup <= ps[j].reg.nextGroup && ps[i].reg.seeded <= ps[j].reg.seeded
    ensures forall g :: g <= ps[i].reg.nextGroup && g !in ps[i].reg.groups ==> g !in ps[j].reg.groups
    ensures forall g :: g in ps[i].reg.groups && g !in ps[j].reg.seeded ==> g in ps[j].reg.groups
    decreases j
  {
    hide Registry.Reaches, Registry.Inv, SoundConn, ConnOnward, SessOnward, JoinedSince;
    Registry.ReachesSelf(ps[i].reg);
    if i < j {
      BooksInEveryRun(ps, ample, calm, i, j - 1);
      assert Progress(ps[j - 1], ps[j - 1 + 1], ample, calm);
      Registry.ReachesTrans(ps[i].reg, ps[j - 1].reg, ps[j].reg);
    }
    assert Sound(ps[i]);
    Registry.ReachesForward(ps[i].reg, ps[j].reg);
  }
}
