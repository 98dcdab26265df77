/** Requests as such: what each of them does to the books and what it is answered,
    and what a stretch of requests on one connection adds to its stream. */
module Requests {
  import opened Bytes
  import opened Wire
  import opened Framing
  import opened Endpoints
  import opened Channel
  import opened History
  import opened Lists
  import Codec
  import Registry
  import Ring

  const PROTOCOL: nat := 1
  const NOT_FOUND: nat := 2
  const SPAWN: nat := 3
  const INTERNAL: nat := 4
  const TOO_LARGE: nat := 5

  function Ascii(s: string): seq<byte> {
    seq(|s|, i requires 0 <= i < |s| => s[i] as int % 256)
  }

  function ErrorBody(code: nat, msg: string): seq<byte> {
    EncU32(code) + EncBlob(Ascii(msg))
  }

  function PeekBody(id: nat, tail: seq<byte>, total: nat): seq<byte> {
    EncU64(id) + (EncBlob(tail) + EncU64(total))
  }

  // --- replies as the client reads them ---

  /** reply_is_error, once the type says so: the code and the message. */
  function ErrorReply(d: seq<byte>): (nat, MaybeBytes) {
    var (code, c1) := GetU32(d, Cursor(0, false));
    (code, GetStr(d, c1).0)
  }

  /** epimone_client_peek_session: the tail, and how much there is in all, which
      an older daemon leaves out. */
  function PeekReply(d: seq<byte>): (seq<byte>, nat) {
    var (_, c1) := GetU64(d, Cursor(0, false));
    var (tail, c2) := GetBlob(d, c1);
    (OrEmpty(tail), if !c2.err && c2.pos < |d| then GetU64(d, c2).0 else 0)
  }

  method ReadPeek(body: seq<byte>) returns (tail: seq<byte>, total: nat)
    ensures (tail, total) == PeekReply(body)
  {
    hide GetU64, GetBlob;
    var r := new Reader(body);
    var _ := r.U64();
    var b := r.Blob();
    tail, total := OrEmpty(b), 0;
    if !r.err && r.pos < |body| {
      total := r.U64();
    }
  }

  /** A peeking client reads the echoed id, the tail and the total that were sent;
      without the last field it reads the same tail, and 0. */
  lemma PeekRoundTrip(id: nat, tail: seq<byte>, total: nat)
    requires id < U64_LIMIT && |tail| < U32_LIMIT && total < U64_LIMIT
    ensures GetU64(PeekBody(id, tail, total), Cursor(0, false)).0 == id && PeekReply(PeekBody(id, tail, total)) == (tail, total)
    ensures PeekReply(EncU64(id) + EncBlob(tail)) == (tail, 0)
  {
    hide EncU64, EncBlob, GetU64, GetBlob;
    var d, short := PeekBody(id, tail, total), EncU64(id) + EncBlob(tail);
    assert Has(d, 0, d) && Has(short, 0, short);
    HasConcat(d, 0, EncU64(id), EncBlob(tail) + EncU64(total));
    HasConcat(d, 8, EncBlob(tail), EncU64(total));
    HasConcat(short, 0, EncU64(id), EncBlob(tail));
    ReadsU64(d, 0, id);
    ReadsBlob(d, 8, tail);
    ReadsU64(d, 12 + |tail|, total);
    ReadsU64(short, 0, id);
    ReadsBlob(short, 8, tail);
  }

  /** A refused client reads the code and the words it was refused with. */
  lemma ErrorRoundTrip(code: nat, msg: string)
    requires code < U32_LIMIT && |msg| < U32_LIMIT && forall i :: 0 <= i < |msg| ==> 0 < msg[i] as int < 256
    ensures ErrorReply(ErrorBody(code, msg)) == (code, Bytes(Ascii(msg))) && |Ascii(msg)| == |msg|
    ensures forall i :: 0 <= i < |msg| ==> Ascii(msg)[i] == msg[i] as int
  {
    hide EncU32, EncBlob, GetU32, GetStr;
    var d := ErrorBody(code, msg);
    assert Has(d, 0, d);
    HasConcat(d, 0, EncU32(code), EncBlob(Ascii(msg)));
    ReadsU32(d, 0, code);
    ReadsStr(d, 4, Ascii(msg));
  }

  // --- the books ---

  function MalformedText(kind: nat): string {
    if kind == Codec.CREATE then "malformed CREATE"
    else if kind == Codec.ATTACH then "malformed ATTACH"
    else if kind == Codec.KILL then "malformed KILL"
    else if kind == Codec.RESIZE then "malformed RESIZE"
    else if kind == Codec.DETACH then "malformed DETACH"
    else if kind == Codec.PEEK then "malformed PEEK"
    else if kind == Codec.GROUP_NEW then "malformed GROUP_NEW"
    else if kind == Codec.GROUP_SET then "malformed GROUP_SET"
    else if kind == Codec.GROUP_ADD then "malformed GROUP_ADD"
    else "malformed GROUP_REMOVE"
  }

  /** The registry after one request. */
  ghost function RegAfter(r: Registry.Registry, q: Codec.Request, e: Env, next: nat): Registry.Registry {
    match q
    case Create(_) => if e.spawnOk && e.ringOk && e.registerOk then Registry.SpawnIn(r, next + 1) else r
    case Kill(id) => Registry.DropFrom(r, id)
    case GroupNew(b) => if e.groupOk then Registry.NewGroupIn(r, b) else r
    case GroupSet(gid, b) => if e.groupOk then Registry.SetBlobIn(r, gid, b) else r
    case GroupAdd(gid, sid) => Registry.MoveTo(r, gid, sid)
    case GroupRemove(sid) => Registry.LeaveGroup(r, sid)
    case _ => r
  }

  /** The registry and the session counter after one frame. */
  ghost function BooksAfter(b: (Registry.Registry, nat), f: Frame, e: Env): (Registry.Registry, nat) {
    var q := Codec.DecodeRequest(f.kind, f.body);
    (RegAfter(b.0, q, e, b.1), b.1 + if q.Create? && e.spawnOk && e.ringOk then 1 else 0)
  }

  /** The same after a run of frames, the i-th answered by envs(i). */
  ghost function BooksAfterAll(b: (Registry.Registry, nat), fs: seq<Frame>, envs: nat -> Env): (Registry.Registry, nat)
    decreases |fs|
  {
    if fs == [] then b
    else
      var n := |fs| - 1;
      BooksAfter(BooksAfterAll(b, fs[..n], envs), fs[n], envs(n))
  }

  lemma BooksAfterOneMore(b: (Registry.Registry, nat), fs: seq<Frame>, f: Frame, envs: nat -> Env)
    ensures BooksAfterAll(b, fs + [f], envs) == BooksAfter(BooksAfterAll(b, fs, envs), f, envs(|fs|))
  {
    hide BooksAfter;
    assert (fs + [f])[..|fs|] == fs;
  }

  lemma StepIsDrop(r: Registry.Registry, sid: nat)
    ensures Registry.Step(r, Registry.Drop(sid)) == Registry.DropFrom(r, sid)
  {
  }

  lemma StepIsSpawn(r: Registry.Registry, sid: nat)
    ensures sid !in r.member ==> Registry.Step(r, Registry.Spawn(sid)) == Registry.SpawnIn(r, sid)
  {
  }

  /** Every request is a step of the registry, or leaves it alone. */
  lemma RegAfterReaches(r: Registry.Registry, q: Codec.Request, e: Env, next: nat)
    requires next + 1 !in r.member
    ensures RegAfter(r, q, e, next) == r || exists op :: RegAfter(r, q, e, next) == Registry.Step(r, op)
    ensures Registry.Reaches(r, RegAfter(r, q, e, next))
  {
    hide Registry.Reaches;
    Registry.ReachesSelf(r);
    match q
    case Create(_) => Registry.ReachesStep(r, Registry.Spawn(next + 1));
    case Kill(id) => Registry.ReachesStep(r, Registry.Drop(id));
    case GroupNew(b) => Registry.ReachesStep(r, Registry.NewGroup(b));
    case GroupSet(gid, b) => Registry.ReachesStep(r, Registry.SetBlob(gid, b));
    case GroupAdd(gid, sid) => Registry.ReachesStep(r, Registry.Move(gid, sid));
    case GroupRemove(sid) => Registry.ReachesStep(r, Registry.Leave(sid));
    case _ =>
  }

  // --- what each request does to the books, request by request ---

  /** The request finds all it names, breaks no limit, and has what it needs. */
  predicate Granted(r: Registry.Registry, q: Codec.Request, e: Env) {
    match q
    case Create(_) => e.spawnOk && e.ringOk && e.registerOk
    case GroupNew(b) => |b| <= Registry.BLOB_MAX && |r.groups| < Registry.GROUP_MAX && e.groupOk
    case GroupSet(gid, b) => |b| <= Registry.BLOB_MAX && gid in r.groups && e.groupOk
    case GroupAdd(gid, sid) => gid in r.groups && sid in r.member
    case GroupRemove(sid) => sid in r.member
    case Attach(id) => id in r.member
    case Kill(id) => id in r.member
    case Resize(id, _, _) => id in r.member
    case Detach(id) => id in r.member
    case Peek(id, _) => id in r.member
    case BadRequest(_) => false
    case Unknown => false
    case List => true
    case GroupList => true
  }

  /** Which session is in which group afterwards. */
  ghost predicate Regroups(r: Registry.Registry, t: Registry.Registry, q: Codec.Request, next: nat) {
    match q
    case Create(_) => t.member == r.member[next + 1 := 0]
    case Kill(id) => t.member == r.member - {id}
    case GroupAdd(gid, sid) => t.member == r.member[sid := gid]
    case GroupRemove(sid) => t.member == r.member[sid := 0]
    case _ => t.member == r.member
  }

  /** Which groups there are afterwards, with which blobs: one more, one with
      another blob, or all but those that have just lost their last member. */
  ghost predicate Stores(r: Registry.Registry, t: Registry.Registry, q: Codec.Request) {
    match q
    case GroupNew(b) => r.nextGroup + 1 !in r.groups && t.groups == r.groups[r.nextGroup + 1 := b] && t.nextGroup == r.nextGroup + 1
    case GroupSet(gid, b) => t.groups == r.groups[gid := b] && t.nextGroup == r.nextGroup
    case _ =>
      && t.nextGroup == r.nextGroup
      && (forall g :: g in t.groups ==> g in r.groups && t.groups[g] == r.groups[g])
      && (forall g :: g in r.groups ==> (g !in t.groups <==> Registry.HasMember(r, g) && !Registry.HasMember(t, g)))
  }

  /** A request has its effect on the books if it is granted, and none if not. */
  ghost predicate Honoured(r: Registry.Registry, t: Registry.Registry, q: Codec.Request, e: Env, next: nat) {
    if Granted(r, q, e) then Regroups(r, t, q, next) && Stores(r, t, q) else t == r
  }

  lemma RegAfterHonours(r: Registry.Registry, q: Codec.Request, e: Env, next: nat)
    requires Registry.Inv(r) && next + 1 !in r.member
    ensures Honoured(r, RegAfter(r, q, e, next), q, e, next)
  {
    hide Registry.Inv, Registry.HasMember, Registry.Gc, RegAfter;
    hide Registry.DropFrom, Registry.MoveTo, Registry.LeaveGroup;
    Registry.NextIsFree(r);
    BooksOnRequest(r, q, e, next);
    if q.Create? { StoredStill(r, Registry.Spawn(next + 1)); }
    if q.Kill? { StoredStill(r, Registry.Drop(q.id)); }
    if q.GroupAdd? { StoredStill(r, Registry.Move(q.gid, q.sid)); }
    if q.GroupRemove? { StoredStill(r, Registry.Leave(q.sid)); }
  }

  lemma BooksOnRequest(r: Registry.Registry, q: Codec.Request, e: Env, next: nat)
    requires next + 1 !in r.member
    ensures !Granted(r, q, e) ==> RegAfter(r, q, e, next) == r
    ensures Granted(r, q, e) ==> Regroups(r, RegAfter(r, q, e, next), q, next)
    ensures Granted(r, q, e) && q.Create? ==> RegAfter(r, q, e, next) == Registry.Step(r, Registry.Spawn(next + 1))
    ensures q.Kill? ==> RegAfter(r, q, e, next) == Registry.Step(r, Registry.Drop(q.id))
    ensures q.GroupAdd? ==> RegAfter(r, q, e, next) == Registry.Step(r, Registry.Move(q.gid, q.sid))
    ensures q.GroupRemove? ==> RegAfter(r, q, e, next) == Registry.Step(r, Registry.Leave(q.sid))
    ensures Granted(r, q, e) && q.GroupNew? ==> RegAfter(r, q, e, next) == Registry.NewGroupIn(r, q.blob)
    ensures Granted(r, q, e) && q.GroupSet? ==> RegAfter(r, q, e, next) == Registry.SetBlobIn(r, q.gid, q.blob)
    ensures Granted(r, q, e) && (q.List? || q.GroupList? || q.Attach? || q.Detach? || q.Resize? || q.Peek?) ==> RegAfter(r, q, e, next) == r
  {
    hide Registry.HasMember, Registry.Gc;
    if Granted(r, q, e) { GrantedRegroups(r, q, e, next); } else { RefusedKeepsBooks(r, q, e, next); }
    hide Regroups;
  }

  lemma RefusedKeepsBooks(r: Registry.Registry, q: Codec.Request, e: Env, next: nat)
    requires !Granted(r, q, e)
    ensures RegAfter(r, q, e, next) == r
  {
    hide Registry.HasMember, Registry.Gc;
  }

  lemma GrantedRegroups(r: Registry.Registry, q: Codec.Request, e: Env, next: nat)
    requires next + 1 !in r.member && Granted(r, q, e)
    ensures Regroups(r, RegAfter(r, q, e, next), q, next)
  {
    hide Registry.HasMember;
  }

  /** Groups only ever go, and they go with their last member. */
  lemma StoredStill(r: Registry.Registry, op: Registry.Op)
    requires Registry.Inv(r) && !op.NewGroup? && !op.SetBlob?
    ensures Registry.Step(r, op).nextGroup == r.nextGroup
    ensures forall g :: g in Registry.Step(r, op).groups ==> g in r.groups && Registry.Step(r, op).groups[g] == r.groups[g]
    ensures forall g :: g in r.groups ==> (g !in Registry.Step(r, op).groups <==> Registry.HasMember(r, g) && !Registry.HasMember(Registry.Step(r, op), g))
  {
    forall g | g in r.groups ensures g !in Registry.Step(r, op).groups <==> Registry.HasMember(r, g) && !Registry.HasMember(Registry.Step(r, op), g) {
      Registry.DestroyedIffLastMemberLeft(r, op, g);
    }
  }

  // --- what each request does to the sessions ---

  /** A session just spawned: alive on an open PTY, with nothing put out, typed or
      taken. */
  const NEWBORN: SessRecord := SessRecord([], [], [], [], false, true, true, false, false, true, false)

  /** s is bound to nobody. */
  ghost predicate Unheld(p: Snapshot, s: Session) {
    forall c :: c in p.conns ==> p.conns[c].session != s
  }

  /** A CREATE: the child just spawned, under the next number, heads the list; one
      whose descriptor could not be registered is not listed. */
  ghost predicate Spawned(p: Snapshot, q: Snapshot, a: Codec.CreateArgs, e: Env) {
    && (forall s :: s in p.sess ==> s in q.sess && q.sess[s] == p.sess[s])
    && if e.spawnOk && e.ringOk && e.registerOk then
         |q.order| > 0 && q.order[1..] == p.order && var s := q.order[0];
         && s !in p.sess && s.id == p.nextId + 1 && s.pid == e.pid && s.createdAt == e.now && s.cwd == StartDir(a, e)
         && s in q.sess && q.sess[s] == NEWBORN && Unheld(q, s)
       else q.order == p.order
  }

  /** A KILL: a dead session goes, a living one is hidden until its child has been
      reaped; nobody stays attached. */
  ghost predicate Slain(p: Snapshot, q: Snapshot, s: Session) {
    s in p.sess && Unheld(q, s) && var a := p.sess[s];
    if a.alive then q.order == p.order && q.sess == p.sess[s := a.(removed := true, killing := true)]
    else q.order == Without(p.order, s) && q.sess == p.sess[s := a.(listed := false, ptyOpen := false, starved := false)]
  }

  ghost predicate AsListed(p: Snapshot, q: Snapshot) {
    q.sess == p.sess && q.order == p.order
  }

  /** What the request r on c does to the sessions, and to who is bound to them. */
  ghost predicate Acted(p: Snapshot, q: Snapshot, c: Connection, r: Codec.Request, e: Env) {
    match r
    case Create(a) => Spawned(p, q, a, e)
    case Kill(id) => if id in p.reg.member then id in p.byId && p.byId[id].id == id && Slain(p, q, p.byId[id]) else AsListed(p, q)
    case Detach(id) => AsListed(p, q) && (id in p.reg.member ==> id in p.byId && p.byId[id].id == id && Unheld(q, p.byId[id]))
    case Attach(id) =>
      AsListed(p, q) && (id in p.reg.member ==>
        id in p.byId && p.byId[id].id == id && forall d :: d in q.conns ==> (q.conns[d].session == p.byId[id] <==> d == c))
    case _ => AsListed(p, q)
  }

  // --- the replies ---

  ghost function Refused(e: Env, code: nat, msg: string): seq<byte> {
    Framed(e.mem, Codec.ERROR, ErrorBody(code, msg))
  }

  ghost function OkIf(found: bool, e: Env, what: string): seq<byte> {
    if found then Framed(e.mem, Codec.OK, []) else Refused(e, NOT_FOUND, what)
  }

  /** The reply to a CREATE that may number a session so. */
  ghost function CreateReply(e: Env, id: nat): seq<byte> {
    if !(e.spawnOk && e.ringOk) then Refused(e, SPAWN, "failed to spawn session")
    else if !e.registerOk then Refused(e, INTERNAL, "epoll registration failed")
    else Framed(e.mem, Codec.ID, EncU64(id))
  }

  /** What of the daemon's state replies depend on. */
  datatype View = View(
    reg: Registry.Registry, nextId: nat, instance: nat, infos: seq<Codec.SessionInfo>, groups: seq<Codec.GroupInfo>,
    rings: map<nat, (seq<byte>, nat)>)

  // --- what a view is of ---

  ghost predicate Held(p: Snapshot, s: Session) {
    exists c :: c in p.conns && p.conns[c].session == s
  }

  /** What LIST says of the sessions ss, leaving out those that were killed. */
  ghost function Listing(p: Snapshot, ss: seq<Session>): seq<Codec.SessionInfo>
    requires forall s <- ss :: s in p.sess
  {
    if ss == [] then []
    else
      var s := ss[0];
      (if p.sess[s].removed then [] else [Codec.SessionInfo(s.id, s.pid, p.sess[s].alive, Held(p, s), s.createdAt, s.cwd)]) + Listing(p, ss[1..])
  }

  /** A group as GROUP_LIST reports it has its blob and its members. */
  ghost predicate AgreesWith(g: Codec.GroupInfo, r: Registry.Registry) {
    g.id in r.groups && g.blob == r.groups[g.id] && NoDup(g.members)
    && forall m :: m in g.members <==> m in r.member && r.member[m] == g.id
  }

  ghost predicate Apart(g: Codec.GroupInfo, h: Codec.GroupInfo) {
    g.id != h.id && forall m :: m in g.members ==> m !in h.members
  }

  /** What a ring holds, and how much that is. */
  ghost predicate RingSeen(x: (seq<byte>, nat), s: SessRecord) {
    x.1 == |x.0| && IsSuffix(x.0, s.output) && (!s.starved ==> x.0 == LastN(s.output, Ring.RING_CAP))
  }

  /** The view shows this snapshot: the books, every listed session that was not
      killed, every group once, and the end of what each session has put out. */
  ghost predicate Sees(v: View, p: Snapshot) {
    && v.reg == p.reg && v.nextId == p.nextId && (forall s <- p.order :: s in p.sess) && v.infos == Listing(p, p.order)
    && |v.groups| == |p.reg.groups| && (forall g <- v.groups :: AgreesWith(g, p.reg))
    && (forall i, j :: 0 <= i < j < |v.groups| ==> Apart(v.groups[i], v.groups[j]))
    && v.rings.Keys == p.reg.member.Keys
    && (forall id :: id in v.rings ==> id in p.byId && p.byId[id] in p.sess && RingSeen(v.rings[id], p.sess[p.byId[id]]))
  }

  /** The one reply to each request, from the state it finds; for an ATTACH, the
      refusal. */
  ghost function ReplyIn(v: View, q: Codec.Request, e: Env): seq<byte> {
    match q
    case Create(_) => CreateReply(e, v.nextId + 1)
    case List => Framed(e.mem, Codec.LIST_REPLY, Codec.ListBody(v.infos, v.instance))
    case Attach(id) => Refused(e, NOT_FOUND, "no such session")
    case Kill(id) => OkIf(id in v.reg.member, e, "no such session")
    case Resize(id, _, _) => OkIf(id in v.reg.member, e, "no such session")
    case Detach(id) => OkIf(id in v.reg.member, e, "no such session")
    case Peek(id, m) =>
      if id !in v.rings then Refused(e, NOT_FOUND, "no such session")
      else Framed(e.mem, Codec.PEEK_REPLY,
        PeekBody(id, if e.snapOk then LastN(v.rings[id].0, m) else [], v.rings[id].1))
    case GroupNew(b) =>
      if |b| > Registry.BLOB_MAX then Refused(e, TOO_LARGE, "blob exceeds maximum size")
      else if |v.reg.groups| >= Registry.GROUP_MAX then Refused(e, TOO_LARGE, "too many groups")
      else if !e.groupOk then Refused(e, INTERNAL, "out of memory")
      else Framed(e.mem, Codec.GROUP_ID, EncU64(v.reg.nextGroup + 1))
    case GroupSet(gid, b) =>
      if |b| > Registry.BLOB_MAX then Refused(e, TOO_LARGE, "blob exceeds maximum size")
      else if gid !in v.reg.groups then Refused(e, NOT_FOUND, "no such group")
      else if !e.groupOk then Refused(e, INTERNAL, "out of memory")
      else Framed(e.mem, Codec.OK, [])
    case GroupAdd(gid, sid) =>
      if gid !in v.reg.groups then Refused(e, NOT_FOUND, "no such group")
      else OkIf(sid in v.reg.member, e, "no such session")
    case GroupRemove(sid) => OkIf(sid in v.reg.member, e, "no such session")
    case GroupList => Framed(e.mem, Codec.GROUP_LIST_REPLY, Codec.GroupListBody(v.instance, v.groups))
    case BadRequest(kind) => Refused(e, PROTOCOL, MalformedText(kind))
    case Unknown => Refused(e, PROTOCOL, "unknown message type")
  }

  /** The type of the reply to a request that is granted. */
  function AnswerKind(q: Codec.Request): nat {
    match q
    case Create(_) => Codec.ID
    case List => Codec.LIST_REPLY
    case Attach(_) => Codec.ATTACHED
    case Peek(_, _) => Codec.PEEK_REPLY
    case GroupNew(_) => Codec.GROUP_ID
    case GroupList => Codec.GROUP_LIST_REPLY
    case _ => Codec.OK
  }

  /** With memory, the reply says whether the request was granted: its type is ERROR
      exactly if it was not, and else the one that belongs to the request. An ATTACH
      that is granted opens the raw channel instead. */
  lemma RepliesTell(v: View, q: Codec.Request, e: Env)
    requires e.mem.frame && e.mem.queue && v.rings.Keys == v.reg.member.Keys && !(q.Attach? && Granted(v.reg, q, e))
    ensures |ReplyIn(v, q, e)| >= 8
    ensures GetU32(ReplyIn(v, q, e), Cursor(4, false)).0 == if Granted(v.reg, q, e) then AnswerKind(q) else Codec.ERROR
  {
    hide EncU32, EncU64, ErrorBody, PeekBody, Codec.ListBody, Codec.GroupListBody, LastN, GetU32, EncFrame;
    forall kind: nat, body: seq<byte> | kind < U32_LIMIT
      ensures |EncFrame(kind, body)| >= 8 && GetU32(EncFrame(kind, body), Cursor(4, false)).0 == kind
    {
      KindStands(kind, body);
    }
  }

  lemma KindStands(kind: nat, body: seq<byte>)
    requires kind < U32_LIMIT
    ensures |EncFrame(kind, body)| >= 8 && GetU32(EncFrame(kind, body), Cursor(4, false)).0 == kind
  {
    hide EncU32, GetU32;
    var d := EncFrame(kind, body);
    assert d == EncU32(4 + |body|) + (EncU32(kind) + body);
    assert Has(d, 0, d);
    HasConcat(d, 0, EncU32(4 + |body|), EncU32(kind) + body);
    HasConcat(d, 4, EncU32(kind), body);
    ReadsU32(d, 4, kind);
  }

  /** The session a request may detach a client from, or attach one to. */
  ghost function Target(q: Codec.Request): set<nat> {
    if q.Attach? || q.Kill? || q.Detach? then {q.id} else {}
  }

  ghost function TargetOf(f: Frame): set<nat> {
    Target(Codec.DecodeRequest(f.kind, f.body))
  }

  ghost function Targets(fs: seq<Frame>): set<nat>
    decreases |fs|
  {
    if fs == [] then {} else Targets(fs[..|fs| - 1]) + TargetOf(fs[|fs| - 1])
  }

  /** The replies to a run of requests, the i-th from the state vs[i]. */
  ghost function Replies(vs: seq<View>, fs: seq<Frame>, envs: nat -> Env): seq<byte>
    requires |vs| == |fs|
    decreases |fs|
  {
    if fs == [] then []
    else
      var n := |fs| - 1;
      Replies(vs[..n], fs[..n], envs) + ReplyIn(vs[n], Codec.DecodeRequest(fs[n].kind, fs[n].body), envs(n))
  }

  // --- one connection being served ---

  /** c goes once it is to be closed and has been sent all it was queued. */
  ghost predicate DrainedAway(p: Snapshot, q: Snapshot, c: Connection) {
    c in p.conns && var b := p.conns[c];
    q == if b.wantClose && |b.sent| == |b.queued| then p.(conns := p.conns - {c}, clients := Without(p.clients, c)) else p
  }

  /** What one round of the parse loop does: wait for more bytes, refuse a length,
      or serve a frame, in the state v. */
  datatype Round = Waits | Refuses(why: seq<byte>) | Serves(f: Frame, v: View)

  /** The frames one read has cut off, the states they were served in, and the
      error queued behind them if a length was refused. */
  datatype Talk = Talk(fs: seq<Frame>, vs: seq<View>, why: seq<byte>, refused: bool)

  ghost function Then(t: Talk, r: Round): Talk {
    match r
    case Waits => t
    case Refuses(why) => t.(why := why, refused := true)
    case Serves(f, v) => Talk(t.fs + [f], t.vs + [v], t.why, t.refused)
  }

  /** The error a client gets for a frame of illegal length. */
  ghost predicate Refusal(why: seq<byte>, m: Memory) {
    || why == Framed(m, Codec.ERROR, ErrorBody(PROTOCOL, "short frame"))
    || why == Framed(m, Codec.ERROR, ErrorBody(TOO_LARGE, "frame too large"))
  }

  /** The raw output of b begins behind what was queued before and its head. */
  ghost predicate Behind(b: ConnRecord, before: seq<byte>) {
    b.mark == |before + b.head| <= |b.queued| && b.queued[..b.mark] == before + b.head
  }

  /** A client that is not being served: as it was, or detached and told to close. */
  ghost predicate Bystander(a: ConnRecord, b: ConnRecord) {
    b == a || (a.session != null && b == a.(session := null, wantClose := true))
  }

  /** Serving c goes by everyone else: nobody joins or leaves, no other stream
      moves, no session puts anything out, and none but c's own is typed at. */
  ghost predicate Aside(p: Snapshot, q: Snapshot, c: Connection) {
    && q.clients == p.clients && q.running == p.running && p.sess.Keys <= q.sess.Keys && c in p.conns && c in q.conns
    && (p.conns[c].session != null ==> q.conns[c].session == p.conns[c].session)
    && (forall d :: d in p.conns && d != c ==> d in q.conns && Bystander(p.conns[d], q.conns[d]))
    && (forall s :: s in p.sess ==> q.sess[s].output == p.sess[s].output && (s != q.conns[c].session ==> Untyped(p.sess[s], q.sess[s])))
  }

  ghost predicate Untyped(a: SessRecord, b: SessRecord) {
    b.typed == a.typed && b.taken == a.taken && b.pin == a.pin && b.inputLost == a.inputLost
  }

  lemma AsideTrans(p: Snapshot, q: Snapshot, r: Snapshot, c: Connection)
    requires Aside(p, q, c) && Aside(q, r, c)
    ensures Aside(p, r, c) && Between(p, q, r)
  {
    forall d | d in p.conns && d != c ensures d in r.conns && Bystander(p.conns[d], r.conns[d]) {
      assert Bystander(p.conns[d], q.conns[d]) && Bystander(q.conns[d], r.conns[d]);
    }
    forall s | s in p.sess ensures s in q.sess && s in r.sess { assert s in p.sess.Keys && s in q.sess.Keys && s in r.sess.Keys; }
  }

  /** An interval in which c is served, and only the sessions named are disturbed. */
  ghost predicate Goes(p: Snapshot, q: Snapshot, c: Connection, ids: set<nat>) {
    Aside(p, q, c) && Undisturbed(p, q, ids)
  }

  lemma GoesOn(p: Snapshot, q: Snapshot, r: Snapshot, c: Connection, a: set<nat>, b: set<nat>)
    requires Goes(p, q, c, a) && Goes(q, r, c, b)
    ensures Goes(p, r, c, a + b) && Between(p, q, r)
  {
    hide Aside, Undisturbed;
    AsideTrans(p, q, r, c);
    UndisturbedTrans(p, q, r, a, b);
  }

  ghost function Books(p: Snapshot): (Registry.Registry, nat) {
    (p.reg, p.nextId)
  }

  /** The frame is the CREATE that s is the child of. */
  ghost predicate Begets(f: Frame, e: Env, s: Session) {
    var r := Codec.DecodeRequest(f.kind, f.body);
    r.Create? && s.pid == e.pid && s.createdAt == e.now && s.cwd == StartDir(r.args, e)
  }

  /** Whoever has been listed since p is the child of one of these requests. */
  ghost predicate Newcomers(p: Snapshot, q: Snapshot, fs: seq<Frame>, envs: nat -> Env) {
    forall s :: s in q.order && s !in p.order ==> exists i :: 0 <= i < |fs| && Begets(fs[i], envs(i), s)
  }

  lemma NewcomersMore(p: Snapshot, q: Snapshot, r: Snapshot, c: Connection, fs: seq<Frame>, f: Frame, envs: nat -> Env)
    requires Newcomers(p, q, fs, envs) && Acted(q, r, c, Codec.DecodeRequest(f.kind, f.body), envs(|fs|))
    ensures Newcomers(p, r, fs + [f], envs)
  {
    hide Slain, Unheld, StartDir;
    var gs := fs + [f];
    forall s | s in r.order && s !in p.order ensures exists i :: 0 <= i < |gs| && Begets(gs[i], envs(i), s) {
      if s in q.order {
        var i :| 0 <= i < |fs| && Begets(fs[i], envs(i), s);
        assert gs[i] == fs[i];
      } else {
        ComesFirst(q, r, c, f, envs(|fs|), s);
        assert gs[|fs|] == f;
      }
    }
  }

  lemma ComesFirst(q: Snapshot, r: Snapshot, c: Connection, f: Frame, e: Env, s: Session)
    requires Acted(q, r, c, Codec.DecodeRequest(f.kind, f.body), e) && s in r.order && s !in q.order
    ensures Begets(f, e, s)
  {
    hide Codec.DecodeRequest, Unheld, StartDir;
    var a := Codec.DecodeRequest(f.kind, f.body);
    if a.Create? && e.spawnOk && e.ringOk && e.registerOk {
      assert r.order == [r.order[0]] + q.order;
    } else if a.Kill? && a.id in q.reg.member {
      LeftOnly(q.order, q.byId[a.id], s);
    }
  }

  lemma {:induction false} LeftOnly<T>(s: seq<T>, x: T, y: T)
    ensures y in Without(s, x) ==> y in s
  {
    if s != [] && s[0] != x { LeftOnly(s[1..], x, y); }
  }

  /** One round of the parse loop on c, from p to q. */
  ghost predicate RoundOf(p: Snapshot, q: Snapshot, c: Connection, r: Round, e: Env) {
    c in p.conns && c in q.conns && !p.conns[c].isData && var a, b := p.conns[c], q.conns[c];
    Reasons(a, b, r.Refuses?) && match r
    case Waits =>
      b.frames == a.frames && b.queued == a.queued && !b.isData && Books(q) == Books(p) && q.order == p.order && Goes(p, q, c, {})
    case Refuses(why) =>
      && b.frames == a.frames && b.queued == a.queued + why && !b.isData && b.wantClose && Refusal(why, e.mem)
      && Books(q) == Books(p) && q.order == p.order && Goes(p, q, c, {})
    case Serves(f, v) =>
      && b.frames == a.frames + [f] && Sees(v, p) && Books(q) == BooksAfter(Books(p), f, e)
      && Goes(p, q, c, TargetOf(f)) && Served(a, b, f, v, e) && Acted(p, q, c, Codec.DecodeRequest(f.kind, f.body), e)
  }

  /** The frame f has opened the raw channel, or its one reply is queued. */
  ghost predicate Served(a: ConnRecord, b: ConnRecord, f: Frame, v: View, e: Env) {
    var q := Codec.DecodeRequest(f.kind, f.body);
    && (b.isData <==> q.Attach? && q.id in v.reg.member)
    && if b.isData then Behind(b, a.queued) else b.queued == a.queued + ReplyIn(v, q, e)
  }

  /** A frame is cut off the stream of c, and nothing else happens. */
  ghost predicate FrameCut(p: Snapshot, q: Snapshot, c: Connection, f: Frame) {
    && c in p.conns && c in q.conns && q.conns[c] == p.conns[c].(frames := p.conns[c].frames + [f])
    && AsListed(p, q) && q.byId == p.byId && Sound(q) && Progress(p, q, true, true) && Goes(p, q, c, {}) && Books(p) == Books(q)
  }

  /** It is dispatched. */
  ghost predicate ServedNext(q: Snapshot, r: Snapshot, c: Connection, f: Frame, v: View, e: Env) {
    && c in q.conns && c in r.conns && Reasons(q.conns[c], r.conns[c], false) && r.conns[c].frames == q.conns[c].frames
    && Progress(q, r, Ample(e), true) && Goes(q, r, c, TargetOf(f)) && Books(r) == BooksAfter(Books(q), f, e)
    && Served(q.conns[c], r.conns[c], f, v, e) && Acted(q, r, c, Codec.DecodeRequest(f.kind, f.body), e)
  }

  ghost predicate CutThenServed(p: Snapshot, q: Snapshot, r: Snapshot, c: Connection, f: Frame, v: View, e: Env) {
    FrameCut(p, q, c, f) && ServedNext(q, r, c, f, v, e)
  }

  lemma ActedSince(p: Snapshot, q: Snapshot, r: Snapshot, c: Connection, req: Codec.Request, e: Env)
    requires AsListed(p, q) && Books(p) == Books(q) && q.byId == p.byId && Acted(q, r, c, req, e)
    ensures Acted(p, r, c, req, e)
  {
    hide Unheld, StartDir;
  }

  lemma ServedRound(p: Snapshot, q: Snapshot, r: Snapshot, c: Connection, f: Frame, v: View, e: Env)
    requires CutThenServed(p, q, r, c, f, v, e) && !p.conns[c].isData && Sees(v, p) && Sound(r)
    ensures RoundOf(p, r, c, Serves(f, v), e) && Progress(p, r, Ample(e), true)
  {
    hide Goes, BooksAfter, TargetOf, Sound, Progress, AsListed, Acted, Sees;
    GoesOn(p, q, r, c, {}, TargetOf(f));
    ActedSince(p, q, r, c, Codec.DecodeRequest(f.kind, f.body), e);
    assert {} + TargetOf(f) == TargetOf(f);
    ProgressLess(p, q, true, true, Ample(e), true);
    ProgressTrans(p, q, r, Ample(e), true);
  }

  /** A whole read on c, from p to q: the books are run through the frames cut off,
      nobody is disturbed but by them, and what joins the queue is one reply for
      each, from the state it was served in; behind the last, the refusal of an
      illegal length, or the head of the raw output that it opened. */
  ghost predicate Conversed(p: Snapshot, q: Snapshot, c: Connection, t: Talk, envs: nat -> Env) {
    c in p.conns && c in q.conns && |t.vs| == |t.fs| && var a, b := p.conns[c], q.conns[c];
    && b.frames == a.frames + t.fs && Books(q) == BooksAfterAll(Books(p), t.fs, envs)
    && (forall i :: 0 <= i < |t.fs| ==> (t.vs[i].reg, t.vs[i].nextId) == BooksAfterAll(Books(p), t.fs[..i], envs))
    && Goes(p, q, c, Targets(t.fs)) && Newcomers(p, q, t.fs, envs) && (a.wantClose ==> b.wantClose)
    && (t.why == [] || (t.refused && b.wantClose && !b.isData && Refusal(t.why, envs(|t.fs|).mem)))
    && if b.isData && !a.isData
       then t.fs != [] && Behind(b, a.queued + Replies(t.vs[..|t.fs| - 1], t.fs[..|t.fs| - 1], envs))
       else b.queued == a.queued + Replies(t.vs, t.fs, envs) + t.why
  }

  lemma RepliesMore(vs: seq<View>, fs: seq<Frame>, v: View, f: Frame, envs: nat -> Env)
    requires |vs| == |fs|
    ensures Replies(vs + [v], fs + [f], envs) == Replies(vs, fs, envs) + ReplyIn(v, Codec.DecodeRequest(f.kind, f.body), envs(|fs|))
    ensures Targets(fs + [f]) == Targets(fs) + TargetOf(f)
  {
    hide ReplyIn, TargetOf;
    assert (vs + [v])[..|fs|] == vs && (fs + [f])[..|fs|] == fs;
  }

  /** One round more. */
  lemma ConversedMore(p: Snapshot, q: Snapshot, r: Snapshot, c: Connection, t: Talk, round: Round, envs: nat -> Env)
    requires Conversed(p, q, c, t, envs) && t.why == [] && RoundOf(q, r, c, round, envs(|t.fs|))
    requires !p.conns[c].isData
    ensures Conversed(p, r, c, Then(t, round), envs)
  {
    hide Conversed, RoundOf;
    match round
    case Waits => ConversedQuiet(p, q, r, c, t, round, envs);
    case Refuses(_) => ConversedQuiet(p, q, r, c, t, round, envs);
    case Serves(_, _) => ConversedServed(p, q, r, c, t, round, envs);
  }

  lemma ConversedQuiet(p: Snapshot, q: Snapshot, r: Snapshot, c: Connection, t: Talk, round: Round, envs: nat -> Env)
    requires Conversed(p, q, c, t, envs) && t.why == [] && RoundOf(q, r, c, round, envs(|t.fs|))
    requires !p.conns[c].isData && !round.Serves?
    ensures Conversed(p, r, c, Then(t, round), envs)
  {
    hide Goes, BooksAfterAll, Replies, Targets, Refusal, Begets;
    AppendNone(p.conns[c].queued + Replies(t.vs, t.fs, envs));
    GoesOn(p, q, r, c, Targets(t.fs), {});
    assert Targets(t.fs) + {} == Targets(t.fs);
  }

  lemma ConversedServed(p: Snapshot, q: Snapshot, r: Snapshot, c: Connection, t: Talk, round: Round, envs: nat -> Env)
    requires Conversed(p, q, c, t, envs) && t.why == [] && RoundOf(q, r, c, round, envs(|t.fs|))
    requires !p.conns[c].isData && round.Serves?
    ensures Conversed(p, r, c, Then(t, round), envs)
  {
    SeesBooks(round.v, q);
    NewcomersMore(p, q, r, c, t.fs, round.f, envs);
    hide Sees, Acted, Newcomers, Goes, BooksAfter, BooksAfterAll, ReplyIn, Replies, TargetOf, Targets, Refusal, Behind;
    var f, v, reply := round.f, round.v, ReplyIn(round.v, Codec.DecodeRequest(round.f.kind, round.f.body), envs(|t.fs|));
    var before := Replies(t.vs, t.fs, envs);
    GoesOn(p, q, r, c, Targets(t.fs), TargetOf(f));
    RepliesMore(t.vs, t.fs, v, f, envs);
    BooksAfterOneMore(Books(p), t.fs, f, envs);
    AllButLast(t.fs, f);
    AllButLast(t.vs, v);
    AppendNone(p.conns[c].queued + before);
    AppendNone(p.conns[c].queued + (before + reply));
    AppendTwo(p.conns[c].queued, before, reply);
    AppendTwo(p.conns[c].frames, t.fs, [f]);
    SeenInOrder(Books(p), t, f, v, envs);
  }

  lemma RoundReasons(p: Snapshot, q: Snapshot, c: Connection, r: Round, e: Env)
    requires RoundOf(p, q, c, r, e)
    ensures c in p.conns && c in q.conns && Reasons(p.conns[c], q.conns[c], r.Refuses?)
  {
    hide Reasons;
  }

  lemma SeesBooks(v: View, p: Snapshot)
    requires Sees(v, p)
    ensures (v.reg, v.nextId) == Books(p)
  {
  }

  /** Each frame is served in the state that those before it left. */
  lemma SeenInOrder(b: (Registry.Registry, nat), t: Talk, f: Frame, v: View, envs: nat -> Env)
    requires |t.vs| == |t.fs| && (v.reg, v.nextId) == BooksAfterAll(b, t.fs, envs)
    requires forall i :: 0 <= i < |t.fs| ==> (t.vs[i].reg, t.vs[i].nextId) == BooksAfterAll(b, t.fs[..i], envs)
    ensures var fs, vs := t.fs + [f], t.vs + [v];
      forall i :: 0 <= i < |fs| ==> (vs[i].reg, vs[i].nextId) == BooksAfterAll(b, fs[..i], envs)
  {
    hide BooksAfterAll;
    var fs, vs := t.fs + [f], t.vs + [v];
    forall i | 0 <= i < |fs| ensures (vs[i].reg, vs[i].nextId) == BooksAfterAll(b, fs[..i], envs) {
      assert fs[..i] == t.fs[..i];
      assert t.fs[..|t.fs|] == t.fs;
    }
  }

  lemma AppendNone<T>(a: seq<T>)
    ensures a + [] == a
  {
  }

  lemma AppendTwo<T>(a: seq<T>, b: seq<T>, c: seq<T>)
    ensures a + b + c == a + (b + c)
  {
  }

  lemma AllButLast<T>(s: seq<T>, x: T)
    ensures (s + [x])[..|s + [x]| - 1] == s
  {
  }

  lemma TalkedBetween(p: Snapshot, q: Snapshot, r: Snapshot, c: Connection, t: Talk, round: Round, envs: nat -> Env)
    requires Conversed(p, q, c, t, envs) && RoundOf(q, r, c, round, envs(|t.fs|))
    ensures Between(p, q, r)
  {
    hide Undisturbed;
    AsideTrans(p, q, r, c);
  }

  lemma BetweenTalks(p: Snapshot, q: Snapshot, r: Snapshot, c: Connection, t: Talk, envs: nat -> Env)
    requires Conversed(p, q, c, t, envs) && SameTalk(q, r, c)
    ensures Between(p, q, r)
  {
    hide Undisturbed;
    AsideTrans(p, q, r, c);
  }

  /** As far as the talk goes, c is in q as in p. */
  ghost predicate SameTalk(p: Snapshot, q: Snapshot, c: Connection) {
    c in p.conns && c in q.conns && Books(q) == Books(p) && q.order == p.order && Goes(p, q, c, {}) && var a, b := p.conns[c], q.conns[c];
    b.frames == a.frames && b.queued == a.queued && b.isData == a.isData && b.mark == a.mark && b.head == a.head && (a.wantClose ==> b.wantClose)
  }

  lemma SameTalkSelf(p: Snapshot, c: Connection)
    requires c in p.conns
    ensures SameTalk(p, p, c)
  {
  }

  lemma ConversedNot(p: Snapshot, q: Snapshot, c: Connection, envs: nat -> Env)
    requires SameTalk(p, q, c)
    ensures Conversed(p, q, c, Talk([], [], [], false), envs)
  {
    hide Goes;
    assert p.conns[c].frames + [] == p.conns[c].frames && p.conns[c].queued + [] + [] == p.conns[c].queued;
  }

  /** Before the first frame, or behind the last, other things may happen to c. */
  lemma ConversedBefore(p: Snapshot, q: Snapshot, r: Snapshot, c: Connection, t: Talk, envs: nat -> Env)
    requires SameTalk(p, q, c) && Conversed(q, r, c, t, envs)
    ensures Conversed(p, r, c, t, envs)
  {
    hide Goes, BooksAfterAll, Replies, Targets, Refusal;
    GoesOn(p, q, r, c, {}, Targets(t.fs));
    assert {} + Targets(t.fs) == Targets(t.fs);
  }

  /** A conversation, seen from an earlier state. */
  lemma ConversedSince(p: Snapshot, q: Snapshot, r: Snapshot, c: Connection, t: Talk, envs: nat -> Env, ample: bool, calm: bool)
    requires SameTalk(p, q, c) && Conversed(q, r, c, t, envs) && Sound(q) && Sound(r)
    requires Progress(p, q, true, true) && Progress(q, r, ample, calm)
    ensures Conversed(p, r, c, t, envs) && Progress(p, r, ample, calm)
  {
    hide SameTalk, Conversed, Sound, Progress;
    ConversedBefore(p, q, r, c, t, envs);
    BetweenOpening(p, q, r, c, t, envs);
    ProgressWeaken(p, q, ample, calm);
    ProgressTrans(p, q, r, ample, calm);
  }

  lemma BetweenOpening(p: Snapshot, q: Snapshot, r: Snapshot, c: Connection, t: Talk, envs: nat -> Env)
    requires SameTalk(p, q, c) && Conversed(q, r, c, t, envs)
    ensures Between(p, q, r)
  {
    hide Undisturbed;
    AsideTrans(p, q, r, c);
  }

  lemma ConversedAfter(p: Snapshot, q: Snapshot, r: Snapshot, c: Connection, t: Talk, envs: nat -> Env)
    requires Conversed(p, q, c, t, envs) && SameTalk(q, r, c)
    ensures Conversed(p, r, c, t, envs)
  {
    hide Goes, BooksAfterAll, Replies, Targets, Refusal;
    GoesOn(p, q, r, c, Targets(t.fs), {});
    assert Targets(t.fs) + {} == Targets(t.fs);
  }
}
