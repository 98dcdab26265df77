/** The daemon of src/daemon/server.c: sessions, client connections and groups,
    cross-linked and changed in place by frames, PTY traffic, child exits and
    disconnects. One invariant, Valid, is kept by every step. */
module Daemon {
  import opened Bytes
  import opened Wire
  import opened Framing
  import opened Endpoints
  import opened Channel
  import opened History
  import opened Lists
  import opened Requests
  import opened Events
  import Codec
  import Registry
  import Ring

  class Group {
    const id: nat
    const createdAt: nat
    var blob: seq<byte>

    constructor (id: nat, createdAt: nat, blob: seq<byte>)
      ensures this.id == id && this.createdAt == createdAt && this.blob == blob
    {
      this.id, this.createdAt, this.blob := id, createdAt, blob;
    }
  }

  class Server {
    var sessions: seq<Session>
    var dead: seq<Session>
    var groups: seq<Group>
    var conns: seq<Connection>
    var nextId: nat
    var nextGroupId: nat
    const instanceId: nat
    var running: bool

    /** The group registry this state stands for, and the objects behind its ids. */
    ghost var reg: Registry.Registry
    ghost var byId: map<nat, Session>
    ghost var groupOf: map<nat, Group>

    // --- the invariant ---

    ghost predicate ListsOk()
      reads `sessions, `dead, `conns, `groups
    {
      NoDup(sessions) && NoDup(dead) && NoDup(conns) && NoDup(groups) && forall s <- sessions :: s !in dead
    }

    /** A session's client points back at it and conversely; nothing refers to an
        unlinked or freed object; a session awaiting its deferred free is inert. */
    ghost predicate LinksOk()
      reads `sessions, `dead, `conns, sessions`defunct, sessions`freed, sessions`client
      reads conns`freed, conns`session, conns`isData, dead`defunct, dead`freed, dead`client, dead`ptyOpen
    {
      && (forall s <- sessions :: !s.defunct && !s.freed && (s.client != null ==> s.client in conns && s.client.session == s))
      && (forall c <- conns :: !c.freed && (c.session != null ==> c.session in sessions && c.session.client == c && c.isData))
      && (forall s <- dead :: s.defunct && !s.freed && s.client == null && !s.ptyOpen)
    }

    /** Every session has a sound ring of its own. */
    ghost predicate RingsOk()
      reads `sessions, sessions`output, (set s <- sessions :: s.out), (set s <- sessions :: s.out.buf)
    {
      && (forall s <- sessions :: s.RingOk())
      && (forall s, t | s in sessions && t in sessions && s != t :: s.out != t.out && s.out.buf != t.out.buf)
    }

    /** Every byte queue is sound, and every bound connection is a gap-free tap. */
    ghost predicate FlowsOk()
      reads `sessions, `conns, sessions`client, sessions`inputLost, sessions`typed, sessions`taken, sessions`pin, sessions`output
      reads conns`wbuf, conns`wpos, conns`queued, conns`sent, conns`wantClose, conns`lossy, conns`reading
      reads conns`isData, conns`received, conns`consumed, conns`frames, conns`raw, conns`rbuf, conns`used
      reads conns`mark, conns`start, conns`typedStart, conns`joinedAt, conns`shortReplay
    {
      && (forall c <- conns :: c.OutOk() && c.CutOk() && c.OpenOk())
      && (forall s <- sessions :: s.InOk() && (s.client != null && s.client in conns ==> Tapped(s.client, s)))
    }

    /** Listed sessions agree with the registry's membership. */
    ghost predicate MembersTied()
      reads `sessions, `reg, `byId, `nextId, sessions`gid, sessions`removed
    {
      && (forall s <- sessions :: s.id in byId && byId[s.id] == s && (s.gid == 0 || s.gid in reg.seeded))
      && (forall s <- sessions :: !s.removed ==> s.id in reg.member && reg.member[s.id] == s.gid)
      && (forall id <- reg.member :: id in byId && byId[id] in sessions && byId[id].id == id && !byId[id].removed)
      && (forall id <- byId :: id <= nextId)
    }

    /** Stored groups agree with the registry's. */
    ghost predicate GroupsTied()
      reads `groups, `reg, `groupOf, `nextGroupId, groups`blob
    {
      && (forall g <- groups :: g.id in groupOf && groupOf[g.id] == g && g.id in reg.groups && reg.groups[g.id] == g.blob)
      && (forall k <- reg.groups :: k in groupOf && groupOf[k] in groups && groupOf[k].id == k)
      && nextGroupId == reg.nextGroup && |groups| == |reg.groups|
    }

    /** The lists stand for a registry in which no group is garbage and no
        session's group is missing. */
    ghost predicate BooksOk()
      reads `sessions, `groups, `reg, `byId, `groupOf, `nextId, `nextGroupId
      reads sessions`gid, sessions`removed, groups`blob
    {
      MembersTied() && GroupsTied() && Registry.Inv(reg)
    }

    ghost predicate Valid()
      reads this, sessions, dead, conns, groups
      reads (set s <- sessions :: s.out), (set s <- sessions :: s.out.buf)
    {
      ListsOk() && LinksOk() && RingsOk() && FlowsOk() && BooksOk()
    }

    // --- the daemon over time ---

    /** What a history of the daemon records of this state. */
    ghost function Snap(): (p: Snapshot)
      reads `sessions, `dead, `conns, `reg, `byId, `nextId, `running, (set s <- sessions :: s.out)`starved, (set s <- dead :: s.out)`starved
      reads conns`session, conns`isData, conns`wantClose, conns`lossy, conns`queued, conns`sent, conns`received, conns`frames, conns`raw
      reads conns`mark, conns`start, conns`joinedAt, conns`typedStart, conns`shortReplay, conns`head
      reads sessions`output, sessions`typed, sessions`taken, sessions`pin, sessions`inputLost, sessions`ptyOpen, sessions`alive, sessions`removed, sessions`killing
      reads dead`output, dead`typed, dead`taken, dead`pin, dead`inputLost, dead`ptyOpen, dead`alive, dead`removed, dead`killing
      ensures p.conns.Keys == (set c <- conns) && p.sess.Keys == (set s <- sessions + dead)
      ensures p.reg == reg && p.byId == byId && p.nextId == nextId && p.clients == conns && p.order == sessions && p.running == running
    {
      Snapshot(map c | c in conns :: RecordOf(c), map s | s in sessions + dead :: SessionRecord(s, s in sessions),
               conns, sessions, reg, byId, nextId, running)
    }

    /** The part of it about sessions. */
    ghost function Roll(): map<Session, SessRecord>
      reads `sessions, `dead, (set s <- sessions :: s.out)`starved, (set s <- dead :: s.out)`starved
      reads sessions`output, sessions`typed, sessions`taken, sessions`pin, sessions`inputLost, sessions`ptyOpen, sessions`alive, sessions`removed, sessions`killing
      reads dead`output, dead`typed, dead`taken, dead`pin, dead`inputLost, dead`ptyOpen, dead`alive, dead`removed, dead`killing
      ensures Roll() == Snap().sess
    {
      map s | s in sessions + dead :: SessionRecord(s, s in sessions)
    }

    /** Every state between requests is a sound one. */
    lemma SnapSound()
      requires Valid()
      ensures Sound(Snap())
    {
    }

    /** Between events every raw channel has handed on all it received. */
    lemma SnapHeard()
      requires FlowsOk() && Quiet()
      ensures Heard(Snap())
    {
      hide Parse;
      forall c | c in conns
        ensures c.isData ==> c.received == Flatten(c.frames) + c.raw
        ensures !c.isData && !c.wantClose ==> Parse(c.received).0 == c.frames
      {
        c.ReceivedSpelled();
        if !c.isData { c.ReceivedParsed(); }
      }
    }

    /** Listed connections move on; newly listed ones are new. */
    twostate predicate ConnsMove()
      reads *
    {
      forall c <- conns :: if c in old(conns) then ConnOnward(old(RecordOf(c)), RecordOf(c)) else !c.isData && !c.lossy
    }

    /** Whoever became a raw channel joined at the end of the output as it is. */
    twostate predicate Joining()
      reads *
    {
      forall c <- conns :: c.isData && !(c in old(conns) && old(c.isData)) ==>
        Greeted(RecordOf(c)) && c.session != null && c.session in sessions && c.joinedAt == |c.session.output| && c.typedStart == |c.session.typed|
    }

    /** Sessions move on, and only ever from the list to the dead; new ones are
        new. */
    twostate predicate SessionsMove()
      reads *
    {
      forall s <- sessions + dead ::
        if s in old(sessions + dead) then SessOnward(old(SessionRecord(s, s in sessions)), SessionRecord(s, s in sessions))
        else !s.inputLost && (s in sessions ==> !s.out.starved)
    }

    /** Sessions keep their ids, and new ones get new ones. */
    twostate predicate Numbering()
      reads `nextId, `byId
    {
      && old(nextId) <= nextId && (forall id <- old(byId) :: id in byId && byId[id] == old(byId)[id])
      && (forall id <- byId :: id in old(byId) || id > old(nextId))
    }

    /** No refusal on an output path. */
    twostate predicate OutputSafe()
      reads *
    {
      && (forall c <- conns :: c in old(conns) && c.lossy ==> old(c.lossy))
      && (forall c <- conns :: c.isData && c.shortReplay && !(c in old(conns) && old(c.isData && c.shortReplay)) ==>
           c.session == null || c.session !in sessions || c.session.out.starved)
      && (forall c <- conns :: c.isData && c.head == [] ==> c in old(conns) && old(c.isData && c.head == []))
      && (forall s <- sessions :: s in old(sessions) && s.out.starved ==> old(s.out.starved))
    }

    /** No input discarded but where the PTY is closed. */
    twostate predicate InputSafe()
      reads *
    {
      forall s <- sessions + dead :: s in old(sessions + dead) && s.inputLost && s.ptyOpen ==> old(s.inputLost)
    }

    /** Any moment between requests, for a bound client that has lost nothing: sent
        and pending bytes behind the ATTACHED frame are the session's output from
        index c.start to its end, with no gap and no repeat; and unless the replay
        was cut short, that index is one ring ceiling before the client joined. */
    lemma GapFree(c: Connection)
      requires Valid() && c in conns && c.session != null
      ensures c.wpos <= |c.wbuf| && (!c.lossy ==> c.mark <= |c.sent + c.Pending()|)
      ensures !c.lossy ==> c.start <= |c.session.output| && (c.sent + c.Pending())[c.mark..] == c.session.output[c.start..]
      ensures c.joinedAt <= |c.session.output| && (!c.shortReplay ==> c.start == ReplayFrom(c.joinedAt))
    {
      hide ListsOk, RingsOk, BooksOk, Connection.CutOk, Connection.OpenOk, Session.InOk;
      assert c in conns && c.session in sessions && Tapped(c, c.session) && c.OutOk();
    }

    /** The same moment, for the keyboard: what the PTY has taken since this client
        joined and what waits for it are the bytes behind the ATTACH frame. */
    lemma TypedInOrder(c: Connection)
      requires Valid() && c in conns && c.session != null
      ensures c.used <= |c.rbuf| && c.received == Flatten(c.frames) + c.raw + c.rbuf[c.used..]
      ensures var s := c.session;
        !s.inputLost ==> c.typedStart <= |s.taken + s.pin| && (s.taken + s.pin)[c.typedStart..] == c.raw
    {
      hide ListsOk, RingsOk, BooksOk, Connection.OutOk, Connection.OpenOk;
      assert c in conns && c.session in sessions && Tapped(c, c.session) && c.CutOk() && c.session.InOk();
      c.ReceivedSpelled();
      assert c.raw[0..] == c.raw;
    }

    /** What the two snapshots around a step say. */
    twostate lemma Moved()
      requires ConnsMove() && SessionsMove() && Joining() && Registry.Reaches(old(reg), reg) && Numbering()
      ensures Onward(old(Snap()), Snap())
      ensures OutputSafe() ==> OutputKept(old(Snap()), Snap())
      ensures InputSafe() ==> InputKept(old(Snap()), Snap())
    {
      hide Registry.Reaches, ConnOnward, OutputSafe, OutputKept, Greeted;
      ghost var p, q := old(Snap()), Snap();
      forall c | c in q.conns && !WasData(p, c) && q.conns[c].isData ensures JoinedSince(p, q.conns[c]) {
        var s := c.session;
        if s in p.sess {
          assert s in sessions + dead && s in old(sessions + dead);
          assert SessOnward(p.sess[s], q.sess[s]);
        }
      }
      if OutputSafe() { MovedOutput(); }
    }

    /** The sessions named are all whose client or PTY a step has touched. */
    twostate lemma Undisturbs(ids: set<nat>)
      requires forall c <- conns :: c in old(conns) && old(c.session) != null && old(c.session).id !in ids ==> c.session == old(c.session)
      requires forall s: Session | s in sessions + dead && s in old(sessions + dead) && s.id !in ids ::
        unchanged(s`ptyOpen, s`alive, s`removed, s`killing) && (s in sessions <==> s in old(sessions))
      ensures Undisturbed(old(Snap()), Snap(), ids)
    {
    }

    /** Serving c has gone by everyone else. */
    twostate lemma Beside(c: Connection)
      requires unchanged(`conns, `running) && c in conns && Spared(c) && (old(c.session) != null ==> c.session == old(c.session))
      requires forall s <- old(sessions + dead) :: s in sessions + dead
      requires forall d: Connection | d in conns && d != c ::
        unchanged(d`isData, d`lossy, d`queued, d`sent, d`received, d`frames, d`raw, d`mark, d`start, d`joinedAt, d`typedStart, d`shortReplay, d`head)
      requires forall s: Session | s in old(sessions + dead) :: s.output == old(s.output) && (s != c.session ==> unchanged(s`typed, s`taken, s`pin, s`inputLost))
      ensures Aside(old(Snap()), Snap(), c)
    {
      hide Snap;
      SnapConn(c);
      forall d | d in conns && d != c ensures d in Snap().conns && Bystander(old(Snap()).conns[d], Snap().conns[d]) {
        SnapConn(d);
      }
      forall s | s in old(sessions + dead)
        ensures s in Snap().sess && Snap().sess[s].output == old(Snap()).sess[s].output
        ensures s != c.session ==> Untyped(old(Snap()).sess[s], Snap().sess[s])
      {
        SnapSess(s);
      }
    }

    /** A session as the two snapshots have it. */
    twostate lemma SnapSess(s: Session)
      requires s in sessions + dead && s in old(sessions + dead)
      ensures s in Snap().sess && Snap().sess[s] == SessionRecord(s, s in sessions)
      ensures s in old(Snap()).sess && old(Snap()).sess[s] == old(SessionRecord(s, s in sessions))
    {
    }

    /** c as the two snapshots have it. */
    twostate lemma SnapConn(c: Connection)
      requires c in conns && c in old(conns)
      ensures c in Snap().conns && Snap().conns[c] == RecordOf(c) && c in old(Snap()).conns && old(Snap()).conns[c] == old(RecordOf(c))
    {
    }

    twostate lemma MovedOutput()
      requires ConnsMove() && SessionsMove() && OutputSafe()
      ensures OutputKept(old(Snap()), Snap())
    {
    }

    constructor (instance: nat)
      ensures Valid() && sessions == [] && conns == [] && groups == [] && dead == []
      ensures reg == Registry.EMPTY && instanceId == instance && running && nextId == 0
      ensures Quiet() && Snap() == START
    {
      sessions, dead, groups, conns := [], [], [], [];
      nextId, nextGroupId, instanceId, running := 0, 0, instance, true;
      reg, byId, groupOf := Registry.EMPTY, map[], map[];
    }

    // --- lookups ---

    /** find_session, removed sessions excluded. */
    method FindSession(id: nat) returns (r: Session?)
      requires BooksOk()
      ensures r != null ==> r in sessions && r.id == id && !r.removed && id in byId && r == byId[id]
      ensures r != null <==> id in reg.member
    {
      hide GroupsTied, Registry.Inv;
      var i := 0;
      while i < |sessions|
        invariant i <= |sessions| && forall k :: 0 <= k < i ==> sessions[k].id != id || sessions[k].removed
      {
        if sessions[i].id == id && !sessions[i].removed {
          return sessions[i];
        }
        i := i + 1;
      }
      return null;
    }

    /** find_group. */
    method FindGroup(id: nat) returns (r: Group?)
      requires GroupsTied()
      ensures r != null ==> r in groups && r.id == id
      ensures r != null <==> id in reg.groups
    {
      var i := 0;
      while i < |groups|
        invariant i <= |groups| && forall k :: 0 <= k < i ==> groups[k].id != id
      {
        if groups[i].id == id {
          return groups[i];
        }
        i := i + 1;
      }
      return null;
    }

    /** The ids of the sessions that count as members of gid, in list order. */
    static function MembersIn(ss: seq<Session>, gid: nat): seq<nat>
      reads ss`removed, ss`gid
    {
      if ss == [] then []
      else (if !ss[0].removed && ss[0].gid == gid then [ss[0].id] else []) + MembersIn(ss[1..], gid)
    }

    /** count_group_members. */
    method CountMembers(gid: nat) returns (n: nat)
      ensures n == |MembersIn(sessions, gid)|
    {
      n := 0;
      var i := 0;
      while i < |sessions|
        invariant i <= |sessions| && n + |MembersIn(sessions[i..], gid)| == |MembersIn(sessions, gid)|
      {
        if !sessions[i].removed && sessions[i].gid == gid {
          n := n + 1;
        }
        i := i + 1;
      }
    }

    static lemma {:induction false} MembersInAre(ss: seq<Session>, gid: nat)
      ensures forall id :: id in MembersIn(ss, gid) <==> exists s :: s in ss && !s.removed && s.gid == gid && s.id == id
    {
      if ss != [] {
        MembersInAre(ss[1..], gid);
        forall id ensures id in MembersIn(ss, gid) <==> exists s :: s in ss && !s.removed && s.gid == gid && s.id == id {
          assert forall s :: s in ss <==> s == ss[0] || s in ss[1..];
        }
      }
    }

    /** The member list of a group is exactly what the registry says. */
    lemma MembersAre(gid: nat)
      requires MembersTied()
      ensures forall id :: id in MembersIn(sessions, gid) <==> id in reg.member && reg.member[id] == gid
      ensures MembersIn(sessions, gid) != [] <==> Registry.HasMember(reg, gid)
    {
      MembersInAre(sessions, gid);
      forall id | id in reg.member && reg.member[id] == gid ensures id in MembersIn(sessions, gid) {
        var s := byId[id];
        assert s in sessions && !s.removed && s.gid == gid && s.id == id;
      }
      if MembersIn(sessions, gid) != [] {
        var id := MembersIn(sessions, gid)[0];
        assert id in MembersIn(sessions, gid);
        assert id in reg.member && reg.member[id] == gid;
      }
    }

    /** What the registry has on a listed session. */
    lemma BookEntry(s: Session)
      requires MembersTied() && s in sessions
      ensures if s.removed then s.id !in reg.member else s.id in reg.member && reg.member[s.id] == s.gid
      ensures s.gid == 0 || s.gid in reg.seeded
    {
    }

    /** No group enters the list but a newly allocated one. */
    twostate predicate GroupsFrom()
      reads `groups
    {
      forall g <- groups :: g in old(groups) || fresh(g)
    }

    // --- the books ---

    /** gc_group_if_empty, while the registry may be out of balance. */
    method GcGroup(gid: nat)
      requires ListsOk() && MembersTied() && GroupsTied()
      modifies `groups, `reg
      ensures GroupsFrom()
      ensures ListsOk() && MembersTied() && GroupsTied()
      ensures reg == Registry.Gc(old(reg), gid)
    {
      hide Registry.HasMember, MembersIn;
      if gid == 0 {
        return;
      }
      var g := FindGroup(gid);
      if g == null {
        return;
      }
      var n := CountMembers(gid);
      MembersAre(gid);
      if n > 0 {
        return;
      }
      UnlinkGroup(g);
    }

    /** unlink_group. */
    method UnlinkGroup(g: Group)
      requires ListsOk() && MembersTied() && GroupsTied() && g in groups
      modifies `groups, `reg
      ensures GroupsFrom()
      ensures ListsOk() && MembersTied() && GroupsTied()
      ensures reg == old(reg).(groups := old(reg).groups - {g.id})
    {
      hide MembersTied, GroupsTied, ListsOk;
      GroupsOnce();
      groups := Unlink(groups, g);
      reg := reg.(groups := reg.groups - {g.id});
      GroupGone(g);
      SameMembers();
      StillLists();
    }

    lemma GroupsOnce()
      requires ListsOk()
      ensures NoDup(groups)
    {
    }

    twostate lemma StillLists()
      requires old(ListsOk()) && unchanged(`sessions, `dead, `conns) && NoDup(groups)
      ensures ListsOk()
    {
    }

    /** A group has left the list and the registry. */
    twostate lemma GroupGone(g: Group)
      requires old(GroupsTied()) && g in old(groups) && NoDup(groups) && g !in groups && |groups| == |old(groups)| - 1
      requires forall h :: h in groups || h == g <==> h in old(groups)
      requires unchanged(`groupOf, `nextGroupId) && unchanged(old(groups)`blob)
      requires reg.groups == old(reg).groups - {g.id} && reg.nextGroup == old(reg).nextGroup
      ensures GroupsTied()
    {
      assert reg.groups.Keys == old(reg).groups.Keys - {g.id};
    }

    /** The registry's membership is as before, and so are the sessions. */
    twostate lemma SameMembers()
      requires old(MembersTied()) && unchanged(`sessions, `byId, `nextId) && unchanged(old(sessions)`gid, old(sessions)`removed)
      requires reg.member == old(reg).member && old(reg).seeded <= reg.seeded
      ensures MembersTied()
    {
    }

    /** The registry's groups are as before, and so are the stored ones. */
    twostate lemma SameGroups()
      requires old(GroupsTied()) && unchanged(`groups, `groupOf, `nextGroupId) && unchanged(old(groups)`blob)
      requires reg.groups == old(reg).groups && reg.nextGroup == old(reg).nextGroup
      ensures GroupsTied()
    {
    }

    /** The flags of a session that stops being listed. */
    method HideSession(s: Session)
      requires MembersTied() && GroupsTied() && s in sessions && !s.removed
      modifies s`killing, s`removed, `reg
      ensures MembersTied() && GroupsTied() && s.killing && s.removed
      ensures reg == old(reg).(member := old(reg).member - {s.id})
    {
      hide GroupsTied, MembersTied;
      s.killing := true;
      s.removed := true;
      reg := reg.(member := reg.member - {s.id});
      SameGroups();
      HiddenMembers(s);
    }

    twostate lemma HiddenMembers(s: Session)
      requires old(MembersTied()) && s in sessions && s.removed && unchanged(`sessions, `byId, `nextId) && unchanged(sessions`gid)
      requires (forall t <- sessions :: t != s ==> t.removed == old(t.removed)) && reg == old(reg).(member := old(reg).member - {s.id})
      ensures MembersTied()
    {
    }

    /** A living session becomes invisible: killed, awaiting its exit. */
    method MarkRemoved(s: Session)
      requires ListsOk() && BooksOk() && s in sessions && !s.removed
      modifies s`killing, s`removed, `groups, `reg
      ensures GroupsFrom()
      ensures ListsOk() && BooksOk() && s.killing && s.removed && reg == Registry.DropFrom(old(reg), s.id)
    {
      hide ListsOk, MembersTied, GroupsTied, Registry.Inv, Registry.Gc;
      BookEntry(s);
      Registry.DropKeeps(reg, s.id);
      HideSession(s);
      GcGroup(s.gid);
    }

    /** A new group with this blob and date stands in front of the others. */
    twostate predicate GroupInFront(new blob: seq<byte>, new now: nat)
      reads `groups, `reg, groups`blob
    {
      groups != [] && groups[1..] == old(groups) && fresh(groups[0])
      && groups[0].id == reg.nextGroup && groups[0].blob == blob && groups[0].createdAt == now
    }

    /** The group is numbered and listed. */
    method AddGroup(blob: seq<byte>, now: nat) returns (id: nat)
      requires ListsOk() && BooksOk() && !Registry.GroupRefused(reg, blob)
      modifies `groups, `reg, `groupOf, `nextGroupId
      ensures GroupsFrom()
      ensures ListsOk() && BooksOk() && reg == Registry.NewGroupIn(old(reg), blob) && id == reg.nextGroup && GroupInFront(blob, now)
    {
      hide ListsOk, MembersTied, GroupsTied, Registry.Inv;
      Registry.NewGroupKeeps(reg, blob);
      Registry.NextIsFree(reg);
      CounterTied();
      id := nextGroupId + 1;
      var g := new Group(id, now, blob);
      Enlist(g);
    }

    lemma CounterTied()
      requires GroupsTied()
      ensures nextGroupId == reg.nextGroup
    {
    }

    /** A numbered group goes to the front of the list. */
    method Enlist(g: Group)
      requires ListsOk() && MembersTied() && GroupsTied() && g !in groups
      requires g.id == reg.nextGroup + 1 && g.id !in reg.groups
      modifies `groups, `reg, `groupOf, `nextGroupId
      ensures ListsOk() && MembersTied() && GroupsTied() && groups == [g] + old(groups)
      ensures reg == old(reg).(nextGroup := g.id, groups := old(reg).groups[g.id := g.blob])
    {
      hide MembersTied, GroupsTied;
      nextGroupId := g.id;
      groups := [g] + groups;
      groupOf := groupOf[g.id := g];
      reg := reg.(nextGroup := g.id, groups := reg.groups[g.id := g.blob]);
      GroupAdded(g);
      SameMembers();
    }

    /** A new group stands at the front of the list and in the registry. */
    twostate lemma GroupAdded(g: Group)
      requires old(GroupsTied()) && g.id !in old(reg).groups && groups == [g] + old(groups)
      requires groupOf == old(groupOf)[g.id := g] && nextGroupId == reg.nextGroup && unchanged(old(groups))
      requires reg.groups == old(reg).groups[g.id := g.blob]
      ensures GroupsTied()
    {
    }

    /** The stored blob of a group is replaced. */
    method PutBlob(g: Group, blob: seq<byte>)
      requires ListsOk() && BooksOk() && g in groups && |blob| <= Registry.BLOB_MAX
      modifies g`blob, `reg
      ensures ListsOk() && BooksOk() && reg == Registry.SetBlobIn(old(reg), g.id, blob)
    {
      Registry.SetBlobKeeps(reg, g.id, blob);
      assert g.id in reg.groups;
      hide MembersTied, GroupsTied, Registry.Inv, ListsOk;
      g.blob := blob;
      reg := reg.(groups := reg.groups[g.id := blob]);
      BlobPut(g);
      SameMembers();
    }

    /** One stored blob has changed, in the list and in the registry. */
    twostate lemma BlobPut(g: Group)
      requires old(GroupsTied()) && g in groups && unchanged(`groups, `groupOf, `nextGroupId)
      requires forall h <- groups :: h != g ==> unchanged(h`blob)
      requires reg == old(reg).(groups := old(reg).groups[g.id := g.blob])
      ensures GroupsTied()
    {
      assert reg.groups.Keys == old(reg).groups.Keys;
    }

    /** A session's group field changes; its old group may now be empty. */
    method Regroup(s: Session, gid: nat)
      requires ListsOk() && BooksOk() && s in sessions && !s.removed && (gid == 0 || gid in reg.groups)
      modifies s`gid, `reg
      ensures ListsOk() && MembersTied() && GroupsTied() && s.gid == gid
      ensures reg == old(reg).(member := old(reg).member[s.id := gid], seeded := old(reg).seeded + if gid == 0 then {} else {gid})
    {
      hide MembersTied, GroupsTied, Registry.Inv, ListsOk;
      s.gid := gid;
      reg := reg.(member := reg.member[s.id := gid], seeded := reg.seeded + if gid == 0 then {} else {gid});
      SameGroups();
      RegroupedMembers(s);
    }

    twostate lemma RegroupedMembers(s: Session)
      requires old(MembersTied()) && s in sessions && !s.removed && unchanged(`sessions, `byId, `nextId)
      requires unchanged(sessions`removed) && forall t <- sessions :: t != s ==> t.gid == old(t.gid)
      requires reg.member == old(reg).member[s.id := s.gid] && old(reg).seeded <= reg.seeded && (s.gid == 0 || s.gid in reg.seeded)
      ensures MembersTied()
    {
    }

    /** GROUP_ADD on a listed session and an existing group: one step. */
    method MoveSession(s: Session, gid: nat)
      requires ListsOk() && BooksOk() && s in sessions && !s.removed && gid in reg.groups
      modifies s`gid, `groups, `reg
      ensures GroupsFrom()
      ensures ListsOk() && BooksOk() && s.gid == gid && reg == Registry.MoveTo(old(reg), gid, s.id)
    {
      hide ListsOk, MembersTied, GroupsTied, Registry.Inv, Registry.Gc;
      Registry.NextIsFree(reg);
      BookEntry(s);
      Registry.MoveKeeps(reg, gid, s.id);
      var was := s.gid;
      Regroup(s, gid);
      if was != gid {
        GcGroup(was);
      }
    }

    /** GROUP_REMOVE on a listed session. */
    method UngroupSession(s: Session)
      requires ListsOk() && BooksOk() && s in sessions && !s.removed
      modifies s`gid, `groups, `reg
      ensures GroupsFrom()
      ensures ListsOk() && BooksOk() && s.gid == 0 && reg == Registry.LeaveGroup(old(reg), s.id)
    {
      hide ListsOk, MembersTied, GroupsTied, Registry.Inv, Registry.Gc;
      BookEntry(s);
      Registry.LeaveKeeps(reg, s.id);
      var was := s.gid;
      Regroup(s, 0);
      assert reg.seeded + {} == reg.seeded;
      GcGroup(was);
    }

    // --- detaching and removing ---

    static ghost function ClientOf(s: Session): set<Connection>
      reads s`client
    {
      if s.client == null then {} else {s.client}
    }

    static ghost function BoundTo(c: Connection): set<Session>
      reads c`session
    {
      if c.session == null then {} else {c.session}
    }

    /** detach_client: the client is told to close; the session runs on. */
    method DetachClient(s: Session)
      requires LinksOk() && FlowsOk() && s in sessions
      modifies s`client, ClientOf(s)`session, ClientOf(s)`wantClose
      ensures LinksOk() && FlowsOk() && s.client == null
      ensures forall c <- old(ClientOf(s)) :: c.session == null && c.wantClose
    {
      hide Tapped, Waiting, Connection.OutOk, Connection.CutOk, Session.InOk;
      var c := s.client;
      if c == null {
        return;
      }
      s.client := null;
      c.session := null;
      c.wantClose := true;
    }

    /** The client is detached and the PTY closed. */
    method CutOff(s: Session)
      requires ListsOk() && LinksOk() && FlowsOk() && s in sessions
      modifies s`client, s`ptyOpen, ClientOf(s)`session, ClientOf(s)`wantClose
      ensures LinksOk() && FlowsOk() && s.client == null && !s.ptyOpen
      ensures forall c <- old(ClientOf(s)) :: c.session == null && c.wantClose
    {
      hide FlowsOk;
      DetachClient(s);
      s.ptyOpen := false;
    }

    /** The change of state in which s alone leaves the list and joins the dead. */
    twostate predicate Struck(s: Session)
      reads *
    {
      && s in old(sessions) && s.client == null && !s.ptyOpen && s.defunct && s.freed == old(s.freed)
      && s.gid == old(s.gid) && s.removed == old(s.removed)
      && (forall t <- sessions :: t in old(sessions) && t != s)
      && (forall t <- old(sessions) :: t != s ==> t in sessions)
      && dead == [s] + old(dead) && unchanged(`conns, `byId, `nextId)
      && (forall t <- old(sessions) :: t != s ==> unchanged(t))
      && unchanged(old(dead), conns)
      && reg == (if s.removed then old(reg) else old(reg).(member := old(reg).member - {s.id}))
    }

    twostate lemma StruckMembers(s: Session)
      requires old(MembersTied()) && Struck(s)
      ensures MembersTied()
    {
    }

    twostate lemma StruckLinks(s: Session)
      requires old(LinksOk()) && Struck(s) && old(s.client) == null
      ensures LinksOk()
    {
    }

    twostate lemma StruckFlows(s: Session)
      requires old(FlowsOk()) && Struck(s)
      ensures FlowsOk()
    {
      hide Connection.OutOk, Connection.CutOk, Connection.OpenOk, Session.InOk, Tapped;
    }

    /** Fewer sessions, each with the ring it had. */
    twostate lemma FewerRings()
      requires old(RingsOk()) && forall t <- sessions :: t in old(sessions)
      requires forall t <- old(sessions) :: t in sessions ==> t.output == old(t.output)
      requires forall t <- old(sessions) :: unchanged(t.out, old(t.out.buf))
      ensures RingsOk()
    {
      hide Ring.Ring.Valid;
    }

    /** The list surgery of remove_session, for a session already cut off. */
    method Strike(s: Session)
      requires ListsOk() && LinksOk() && RingsOk() && FlowsOk() && MembersTied() && GroupsTied()
      requires s in sessions && s.client == null && !s.ptyOpen && (!s.removed ==> s.id in reg.member)
      modifies `sessions, `dead, `reg, s`defunct
      ensures ListsOk() && LinksOk() && RingsOk() && FlowsOk() && MembersTied() && GroupsTied()
      ensures s.defunct && dead == [s] + old(dead) && sessions == Without(old(sessions), s)
      ensures (forall t <- old(sessions) :: t != s ==> t in sessions) && (forall t <- sessions :: t in old(sessions))
      ensures reg == if s.removed then old(reg) else old(reg).(member := old(reg).member - {s.id})
    {
      hide ListsOk, LinksOk, RingsOk, FlowsOk, MembersTied, GroupsTied;
      Relist(s);
      s.defunct := true;
      Unregister(s);
      StruckAll(s);
    }

    /** The registry forgets a session that still counts as a member. */
    ghost method Unregister(s: Session)
      requires GroupsTied()
      modifies `reg
      ensures GroupsTied() && reg == if s.removed then old(reg) else old(reg).(member := old(reg).member - {s.id})
    {
      hide GroupsTied;
      if !s.removed {
        reg := reg.(member := reg.member - {s.id});
      }
      SameGroups();
    }

    /** From the list of sessions to that of the dead. */
    method Relist(s: Session)
      requires ListsOk() && s in sessions
      modifies `sessions, `dead
      ensures ListsOk() && dead == [s] + old(dead) && s !in old(dead) && sessions == Without(old(sessions), s)
      ensures (forall t <- old(sessions) :: t != s ==> t in sessions) && (forall t <- sessions :: t in old(sessions) && t != s)
    {
      sessions := Unlink(sessions, s);
      dead := [s] + dead;
    }

    /** What the surgery keeps. */
    twostate lemma StruckAll(s: Session)
      requires old(LinksOk()) && old(RingsOk()) && old(FlowsOk()) && old(MembersTied()) && Struck(s)
      requires old(s.client) == null && (forall t <- old(sessions) :: t.output == old(t.output) && unchanged(t.out, old(t.out.buf)))
      ensures LinksOk() && RingsOk() && FlowsOk() && MembersTied()
    {
      hide LinksOk, RingsOk, FlowsOk, MembersTied;
      StruckMembers(s);
      StruckLinks(s);
      StruckFlows(s);
      FewerRings();
    }

    /** Unlink, queue for the deferred free, and collect the group. */
    method Bury(s: Session)
      requires Valid() && s in sessions && s.client == null && !s.ptyOpen
      modifies `sessions, `dead, `groups, `reg, s`defunct
      ensures GroupsFrom()
      ensures Valid() && s in dead && dead == [s] + old(dead) && sessions == Without(old(sessions), s)
      ensures (forall t <- old(sessions) :: t != s ==> t in sessions) && (forall t <- sessions :: t in old(sessions))
      ensures reg == Registry.DropFrom(old(reg), s.id)
    {
      hide ListsOk, LinksOk, RingsOk, FlowsOk, MembersTied, GroupsTied, Registry.Inv, Registry.Gc;
      BookEntry(s);
      Registry.DropKeeps(reg, s.id);
      Registry.LateGcIsIdle(reg, s.gid);
      Strike(s);
      GcGroup(s.gid);
    }

    /** remove_session. */
    method RemoveSession(s: Session)
      requires Valid() && (if s.defunct then s in dead else s in sessions)
      modifies `sessions, `dead, `groups, `reg
      modifies s`client, s`ptyOpen, s`defunct, ClientOf(s)`session, ClientOf(s)`wantClose
      ensures GroupsFrom()
      ensures Valid() && s in dead
      ensures old(s.defunct) ==> sessions == old(sessions) && dead == old(dead) && reg == old(reg)
      ensures !old(s.defunct) ==> reg == Registry.DropFrom(old(reg), s.id) && dead == [s] + old(dead) && sessions == Without(old(sessions), s)
      ensures forall t <- old(sessions) :: t != s ==> t in sessions
      ensures forall t <- sessions :: t in old(sessions)
      ensures !old(s.defunct) ==> forall c <- old(ClientOf(s)) :: c.session == null && c.wantClose
      ensures if old(s.defunct) then s.ptyOpen == old(s.ptyOpen) else !s.ptyOpen
    {
      hide ListsOk, LinksOk, RingsOk, FlowsOk, BooksOk;
      if s.defunct {
        return;
      }
      CutOff(s);
      Bury(s);
    }

    /** reap_dead_sessions: only here is a session's memory released. */
    method ReapDead()
      requires Valid()
      modifies `dead, dead`freed
      ensures Valid() && dead == []
      ensures forall s <- old(dead) :: s.freed
      ensures Progress(old(Snap()), Snap(), true, true)
    {
      hide ListsOk, LinksOk, RingsOk, FlowsOk, BooksOk, Snap, Onward, OutputKept, InputKept, Registry.Reaches;
      while dead != []
        invariant Valid() && forall s <- old(dead) :: s.freed || s in dead
        invariant forall s <- dead :: s in old(dead)
        invariant sessions == old(sessions)
        decreases |dead|
      {
        assert dead[0] in old(dead);
        FreeFirst();
      }
      ListMoves();
    }

    method FreeFirst()
      requires Valid() && dead != []
      modifies `dead, {dead[0]}`freed
      ensures Valid() && dead == old(dead)[1..] && old(dead)[0].freed
    {
      hide RingsOk, FlowsOk, BooksOk;
      var s := dead[0];
      dead := dead[1..];
      s.freed := true;
    }

    // --- connections ---

    /** conn_close: a disconnect is a clean detach. */
    method CloseConn(c: Connection)
      requires Valid() && c in conns
      modifies `conns, c`freed, c`session, BoundTo(c)`client
      ensures Valid() && c !in conns && c.freed && conns == Without(old(conns), c)
      ensures (forall d <- old(conns) :: d != c ==> d in conns) && (forall d <- conns :: d in old(conns))
      ensures forall s <- old(BoundTo(c)) :: s.client == null
    {
      hide ListsOk, LinksOk, RingsOk, FlowsOk, BooksOk;
      LeaveSession(c);
      Delist(c);
    }

    /** The session of c, if it has one, loses it. */
    method LeaveSession(c: Connection)
      requires ListsOk() && LinksOk() && FlowsOk() && c in conns
      modifies c`session, BoundTo(c)`client
      ensures LinksOk() && FlowsOk() && c.session == null && forall s <- old(BoundTo(c)) :: s.client == null
    {
      hide ListsOk, Tapped, Connection.OutOk, Connection.CutOk, Connection.OpenOk, Session.InOk;
      if c.session != null && c.session.client == c {
        c.session.client := null;
      }
      c.session := null;
    }

    /** c leaves the list and is freed. */
    method Delist(c: Connection)
      requires ListsOk() && LinksOk() && FlowsOk() && c in conns && c.session == null
      modifies `conns, c`freed
      ensures ListsOk() && LinksOk() && FlowsOk() && c.freed && conns == Without(old(conns), c) && c !in conns
      ensures (forall d <- old(conns) :: d != c ==> d in conns) && (forall d <- conns :: d in old(conns))
    {
      hide Tapped, Connection.OutOk, Connection.CutOk, Connection.OpenOk, Session.InOk;
      conns := Unlink(conns, c);
      c.freed := true;
    }

    /** accept_conn, for one accepted descriptor; a failed registration closes it. */
    method AcceptConn(registerOk: bool) returns (c: Connection)
      requires Valid()
      modifies `conns
      ensures Valid() && fresh(c)
      ensures Progress(old(Snap()), Snap(), true, true)
      ensures registerOk ==> conns == [c] + old(conns) && c.Fresh()
      ensures !registerOk ==> conns == old(conns) && c !in conns
      ensures Admitted(old(Snap()), Snap(), [registerOk])
    {
      hide ListsOk, LinksOk, RingsOk, FlowsOk, BooksOk, Admitted, Snap, Onward, OutputKept, InputKept, Registry.Reaches;
      c := new Connection();
      ListConnection(c);
      if !registerOk {
        CloseConn(c);
      }
      ListMoves();
      OneAdmitted(registerOk);
    }

    twostate lemma OneAdmitted(registerOk: bool)
      requires unchanged(`sessions, `dead, `reg, `byId, `nextId, `running) && unchanged(old(conns), old(dead), old(sessions))
      requires forall s: Session | s in sessions :: unchanged(s.out`starved)
      requires if registerOk then conns != [] && conns == [conns[0]] + old(conns) && conns[0] !in old(conns) && conns[0].Fresh() else conns == old(conns)
      ensures Admitted(old(Snap()), Snap(), [registerOk])
    {
      assert Trues([registerOk]) == if registerOk then 1 else 0;
      SameSessions();
      if registerOk { assert RecordOf(conns[0]) == BLANK; }
    }

    /** A fresh connection goes to the front of the list. */
    method ListConnection(c: Connection)
      requires Valid() && c !in conns && c.Fresh() && !c.freed
      modifies `conns
      ensures Valid() && conns == [c] + old(conns)
    {
      hide RingsOk, Tapped, BooksOk, Session.InOk;
      assert Parse([]) == ([], []);
      conns := [c] + conns;
    }

    // --- replies ---

    /** A control connection stays listed and unbound, its input untouched. */
    twostate predicate Kept(c: Connection)
      reads this, c
    {
      c in conns && c.session == null && c.isData == old(c.isData) && SameInput(c) && Raised(c) && old(c.queued) <= c.queued
    }

    /** conn_queue on a control connection. */
    method Send(c: Connection, data: seq<byte>, queueOk: bool)
      requires FlowsOk() && LinksOk() && c in conns && c.session == null
      modifies c`wbuf, c`wpos, c`wantClose, c`queued, c`lossy
      ensures FlowsOk() && c.queued == old(c.queued) + (if queueOk then data else []) && Raised(c) && (queueOk ==> c.lossy == old(c.lossy))
    {
      hide FlowsOk, LinksOk, Connection.OutOk, Connection.CutOk, Waiting;
      ConnSound(c);
      c.Queue(data, queueOk);
      assert old(c.queued) + [] == old(c.queued);
      OneConnFlows(c);
    }

    lemma ConnSound(c: Connection)
      requires FlowsOk() && c in conns
      ensures c.OutOk() && c.CutOk() && c.OpenOk()
    {
    }

    /** Only c has changed, bound to nobody, and is sound. */
    twostate lemma OneConnFlows(c: Connection)
      requires old(LinksOk()) && old(FlowsOk()) && unchanged(`sessions, `conns) && unchanged(sessions) && c in conns && old(c.session) == null
      requires (forall d <- conns :: d != c ==> unchanged(d)) && c.OutOk() && c.CutOk() && c.OpenOk()
      ensures FlowsOk()
    {
      hide Tapped, Connection.OutOk, Connection.CutOk, Connection.OpenOk, Session.InOk;
    }

    /** conn_queue_frame of one complete reply on a control connection. */
    method Reply(c: Connection, kind: nat, body: seq<byte>, m: Memory)
      requires FlowsOk() && LinksOk() && c in conns && c.session == null
      modifies c`wbuf, c`wpos, c`wantClose, c`queued, c`lossy
      ensures FlowsOk() && c.queued == old(c.queued) + Framed(m, kind, body)
      ensures Raised(c) && (m.queue ==> c.lossy == old(c.lossy))
    {
      hide FlowsOk, LinksOk, EncFrame;
      if m.frame {
        Send(c, EncFrame(kind, body), m.queue);
      }
    }

    /** conn_queue_frame of a frame written here. */
    method QueueFrame(c: Connection, w: Writer, ghost kind: nat, ghost body: seq<byte>, m: Memory)
      requires FlowsOk() && LinksOk() && c in conns && c.session == null
      requires w.oom == !m.frame && (m.frame ==> w.data == EncFrame(kind, body))
      modifies c`wbuf, c`wpos, c`wantClose, c`queued, c`lossy
      ensures FlowsOk() && c.queued == old(c.queued) + Framed(m, kind, body)
      ensures Raised(c) && (m.queue ==> c.lossy == old(c.lossy))
    {
      hide FlowsOk, LinksOk, EncFrame;
      if !w.oom {
        Send(c, w.data, m.queue);
      }
    }

    /** send_error. */
    method Fail(c: Connection, code: nat, msg: string, m: Memory)
      requires Valid() && c in conns && c.session == null
      modifies c`wbuf, c`wpos, c`wantClose, c`queued, c`lossy
      ensures Valid() && Kept(c) && c.queued == old(c.queued) + Framed(m, Codec.ERROR, ErrorBody(code, msg))
      ensures m.queue ==> c.lossy == old(c.lossy)
    {
      hide ListsOk, LinksOk, RingsOk, FlowsOk, BooksOk, Framed, ErrorBody;
      ReplyValid(c, Codec.ERROR, ErrorBody(code, msg), m);
    }

    /** A reply, with the whole invariant. */
    method ReplyValid(c: Connection, kind: nat, body: seq<byte>, m: Memory)
      requires Valid() && c in conns && c.session == null
      modifies c`wbuf, c`wpos, c`wantClose, c`queued, c`lossy
      ensures Valid() && Kept(c) && c.queued == old(c.queued) + Framed(m, kind, body)
      ensures m.queue ==> c.lossy == old(c.lossy)
    {
      hide ListsOk, LinksOk, RingsOk, FlowsOk, BooksOk, Framed;
      Reply(c, kind, body, m);
    }

    // --- requests about sessions ---

    /** c has become the channel of its session, and nothing else has changed. */
    twostate predicate OnlyBound(c: Connection)
      requires c.session != null
      reads *
    {
      var s := c.session;
      && unchanged(`sessions, `dead, `conns) && c in conns && s in sessions
      && (forall d <- conns :: d != c ==> unchanged(d)) && (forall t <- sessions :: t != s ==> unchanged(t)) && unchanged(dead)
      && s.defunct == old(s.defunct) && s.freed == old(s.freed) && s.typed == old(s.typed) && s.output == old(s.output)
      && s.taken == old(s.taken) && s.pin == old(s.pin) && s.inputLost == old(s.inputLost)
      && c.freed == old(c.freed) && s.client == c && c.isData && old(c.session) == null && old(s.client) == null
    }

    twostate lemma BoundLinks(c: Connection)
      requires old(ListsOk()) && old(LinksOk()) && c.session != null && OnlyBound(c)
      ensures LinksOk()
    {
    }

    twostate lemma BoundFlows(c: Connection)
      requires old(FlowsOk()) && old(LinksOk()) && c.session != null && OnlyBound(c)
      requires c.OutOk() && c.CutOk() && c.OpenOk() && Tapped(c, c.session)
      ensures FlowsOk()
    {
      hide Connection.OutOk, Connection.CutOk, Connection.OpenOk, Session.InOk, Tapped;
    }

    /** What an ATTACH puts on the queue: the ATTACHED frame, then the ring. */
    static ghost function Attached(s: Session, e: Env): seq<byte>
      requires s.RingOk()
      reads s`output, s.out, s.out.buf, s`alive, s`client
    {
      Framed(e.mem, Codec.ATTACHED, Codec.EncInfo(InfoOf(s))) + if e.snapOk then s.out.Contents() else []
    }

    /** What happens to other clients while c is served: nothing, or they are
        detached and told to close. */
    twostate predicate Spared(c: Connection)
      reads *
    {
      forall d <- old(conns) :: d != c ==>
        if d.session == old(d.session) then d.wantClose == old(d.wantClose) else d.session == null && d.wantClose
    }

    /** A request on c about session id touches no other session and no client of
        another session; and nothing at all when there is no such session. */
    twostate predicate Elsewhere(c: Connection, id: nat)
      reads *
    {
      && (forall t <- old(sessions + dead) :: t.id != id || id !in old(reg).member ==> unchanged(t) && (t in sessions <==> t in old(sessions)))
      && (forall d <- old(conns) :: d != c && (old(d.session) == null || old(d.session).id != id || id !in old(reg).member) ==> unchanged(d))
    }

    /** The binding half of handle_attach. */
    method Bind(c: Connection, s: Session, e: Env)
      requires ListsOk() && LinksOk() && RingsOk() && FlowsOk()
      requires c in conns && !c.isData && c.reading && c.session == null && s in sessions && s.client == null
      modifies c`isData, c`session, s`client
      modifies c`wbuf, c`wpos, c`wantClose, c`queued, c`lossy
      modifies c`mark, c`start, c`joinedAt, c`typedStart, c`shortReplay, c`head
      ensures LinksOk() && FlowsOk() && c.isData && c.session == s && Joined(c, s, e.snapOk) && c.raw == [] && old(c.queued) <= c.queued
      ensures HeadQueued(c, old(c.queued), Framed(e.mem, Codec.ATTACHED, Codec.EncInfo(InfoOf(s)))) && Raised(c)
      ensures c.head == Framed(e.mem, Codec.ATTACHED, Codec.EncInfo(InfoOf(s)))
      ensures e.mem.queue && e.replayOk ==> c.lossy == old(c.lossy)
      ensures s.RingOk() && (e.replayOk ==> c.queued == old(c.queued) + Attached(s, e))
    {
      hide ListsOk, LinksOk, RingsOk, FlowsOk, Tapped, Joined;
      hide HeadQueued, Connection.OutOk, Connection.CutOk, Connection.OpenOk, Session.RingOk, Framed;
      hide Ring.Ring.Contents;
      SoundParts(c, s);
      BecomeChannel(c, s, e);
      assert e.replayOk ==> c.queued == old(c.queued) + Attached(s, e);
      BoundAll(c);
    }

    lemma SoundParts(c: Connection, s: Session)
      requires ListsOk() && RingsOk() && FlowsOk() && c in conns && s in sessions
      ensures s.RingOk() && c.OutOk() && c.CutOk() && c.OpenOk() && s !in dead
    {
    }

    twostate lemma BoundAll(c: Connection)
      requires old(ListsOk()) && old(LinksOk()) && old(FlowsOk()) && c.session != null && OnlyBound(c)
      requires c.OutOk() && c.CutOk() && c.OpenOk() && Tapped(c, c.session)
      ensures LinksOk() && FlowsOk()
    {
      hide LinksOk, FlowsOk, OnlyBound, Tapped, Connection.OutOk, Connection.CutOk, Connection.OpenOk;
      BoundLinks(c);
      BoundFlows(c);
    }

    /** How an ATTACH for id is answered: refused, with c a control connection
        still; or c is bound, behind what was queued stands the ATTACHED frame,
        and behind that, as memory permits, the ring. */
    twostate predicate AttachDone(c: Connection, id: nat, e: Env)
      reads *
    {
      if id !in reg.member then
        c.session == null && !c.isData && c.head == old(c.head) && (forall d <- old(conns) :: d.session == old(d.session))
        && c.queued == old(c.queued) + Framed(e.mem, Codec.ERROR, ErrorBody(NOT_FOUND, "no such session"))
      else
        && id in byId && byId[id].id == id && c.isData && c.session == byId[id] && c.session.RingOk()
        && HeadQueued(c, old(c.queued), Framed(e.mem, Codec.ATTACHED, Codec.EncInfo(InfoOf(byId[id]))))
        && c.head == Framed(e.mem, Codec.ATTACHED, Codec.EncInfo(InfoOf(byId[id])))
        && (e.replayOk ==> c.queued == old(c.queued) + Attached(byId[id], e))
        && (forall d <- old(conns) :: d != c && d.session != old(d.session) ==> old(d.session) == byId[id])
    }

    /** handle_attach: the incumbent is detached, this connection becomes the raw
        channel, and the ring is replayed behind the ATTACHED frame. */
    method HandleAttach(c: Connection, id: nat, e: Env)
      requires Valid() && c in conns && !c.isData && c.reading && c.session == null
      modifies sessions`client, conns`session, conns`wantClose, c`isData, c`wbuf, c`wpos, c`queued, c`lossy
      modifies c`mark, c`start, c`joinedAt, c`typedStart, c`shortReplay, c`head
      ensures Valid() && c in conns && Raised(c) && Spared(c)
      ensures e.mem.queue && e.replayOk ==> c.lossy == old(c.lossy)
      ensures Elsewhere(c, id)
      ensures AttachDone(c, id, e) && old(c.queued) <= c.queued
      ensures (c.isData <==> c.session != null) && (c.isData <==> id in reg.member) && (c.isData ==> Joined(c, c.session, e.snapOk))
      ensures c.isData ==> c.session.id == id && HeadStands(c) && (e.mem.frame && e.mem.queue ==> c.head != [])
    {
      hide ListsOk, LinksOk, RingsOk, FlowsOk, BooksOk, Joined, HeadQueued;
      hide HeadStands, EncFrame, ErrorBody, Framed, Attached, Session.RingOk;
      var s := FindSession(id);
      if s == null {
        Fail(c, NOT_FOUND, "no such session", e.mem);
      } else {
        ClientListed(s);
        AttachTo(c, s, e);
      }
      EntryListed(id);
    }

    lemma EntryListed(id: nat)
      requires BooksOk()
      ensures id in reg.member ==> id in byId && byId[id] in sessions && byId[id].id == id
    {
    }

    lemma ClientListed(s: Session)
      requires LinksOk() && s in sessions
      ensures forall d <- ClientOf(s) :: d in conns && d.session == s
    {
    }

    /** The ATTACHED frame, if there was memory for it, stands right ahead of the
        raw output of c. */
    ghost predicate HeadStands(c: Connection)
      reads c`session, c`head, c`mark, c`queued
    {
      && |c.head| <= c.mark <= |c.queued| && c.queued[c.mark - |c.head|..c.mark] == c.head
      && (c.head == [] || (c.session != null && Announces(c.head, c.session.id)))
    }

    lemma StandsAhead(c: Connection, s: Session, before: seq<byte>, m: Memory)
      requires c.session == s && s.client == c && HeadQueued(c, before, c.head)
      requires c.head == Framed(m, Codec.ATTACHED, Codec.EncInfo(InfoOf(s)))
      ensures HeadStands(c) && (m.frame && m.queue ==> c.head != [])
    {
      hide Codec.EncInfo;
      assert c.queued[..c.mark][|before|..] == c.head;
      assert InfoOf(s).id == s.id && InfoOf(s).attached;
    }

    /** The session is found: its client goes, c becomes its channel. */
    method AttachTo(c: Connection, s: Session, e: Env)
      requires Valid() && c in conns && !c.isData && c.reading && c.session == null && s in sessions
      modifies s`client, ClientOf(s)`session, ClientOf(s)`wantClose, c`session, c`wantClose, c`isData, c`wbuf, c`wpos, c`queued, c`lossy
      modifies c`mark, c`start, c`joinedAt, c`typedStart, c`shortReplay, c`head
      ensures Valid() && Raised(c) && forall d <- old(ClientOf(s)) :: d.session == null && d.wantClose
      ensures e.mem.queue && e.replayOk ==> c.lossy == old(c.lossy)
      ensures s.RingOk() && (e.replayOk ==> c.queued == old(c.queued) + Attached(s, e))
      ensures c.session == s && c.isData && Joined(c, s, e.snapOk) && c.raw == [] && old(c.queued) <= c.queued
      ensures c.head == Framed(e.mem, Codec.ATTACHED, Codec.EncInfo(InfoOf(s))) && HeadStands(c)
      ensures e.mem.frame && e.mem.queue ==> c.head != []
      ensures HeadQueued(c, old(c.queued), Framed(e.mem, Codec.ATTACHED, Codec.EncInfo(InfoOf(s))))
    {
      hide ListsOk, RingsOk, FlowsOk, BooksOk, Joined, HeadQueued, Attached, Session.RingOk;
      hide Framed, HeadStands;
      ghost var before := c.queued;
      DetachClient(s);
      Bind(c, s, e);
      StandsAhead(c, s, before, e.mem);
    }

    /** What a KILL leaves behind: a zombie-to-be out of sight, or a session on its
        way to be freed; nobody attached either way. */
    ghost predicate Killed(s: Session)
      reads `sessions, `dead, s
    {
      s.client == null && if s.alive then s in sessions && s.removed && s.killing else s in dead
    }

    /** The same as a step: a living session is marked and stays where it is, a dead
        one leaves the list with its master closed. */
    twostate predicate Felled(s: Session)
      reads `sessions, `dead, s
    {
      s.client == null && s.alive == old(s.alive) &&
      if s.alive then
        sessions == old(sessions) && dead == old(dead) && s.removed && s.killing && s.ptyOpen == old(s.ptyOpen)
      else
        && sessions == Without(old(sessions), s) && dead == [s] + old(dead) && !s.ptyOpen
        && s.removed == old(s.removed) && s.killing == old(s.killing)
    }

    /** The killing half of handle_kill: a dead session goes at once, a living one
        is hidden now and goes when its child has been reaped. */
    method KillSession(s: Session)
      requires Valid() && s in sessions && !s.removed && s.client == null
      modifies `sessions, `dead, `groups, `reg, s`client, s`ptyOpen, s`defunct, s`killing, s`removed
      ensures GroupsFrom()
      ensures Valid() && reg == Registry.DropFrom(old(reg), s.id) && Felled(s)
      ensures Shrunk() && (s.ptyOpen ==> old(s.ptyOpen)) && forall t <- old(sessions) :: t != s ==> t in sessions
    {
      hide ListsOk, RingsOk, FlowsOk, BooksOk, Registry.Gc;
      if !s.alive {
        RemoveSession(s);
        return;
      }
      MarkRemoved(s);
    }

    /** handle_kill. */
    method HandleKill(c: Connection, id: nat, e: Env)
      requires Valid() && c in conns && c.session == null
      modifies `sessions, `dead, `groups, `reg, sessions`client, sessions`ptyOpen, sessions`defunct, sessions`killing, sessions`removed
      modifies conns`session, conns`wantClose, c`wbuf, c`wpos, c`queued, c`lossy
      ensures GroupsFrom()
      ensures Valid() && Kept(c) && reg == Registry.DropFrom(old(reg), id)
      ensures e.mem.queue ==> c.lossy == old(c.lossy)
      ensures id !in old(reg).member ==> c.queued == old(c.queued) + Framed(e.mem, Codec.ERROR, ErrorBody(NOT_FOUND, "no such session"))
      ensures id in old(reg).member ==> c.queued == old(c.queued) + Framed(e.mem, Codec.OK, [])
      ensures id in old(reg).member ==> id in byId && byId[id].id == id && byId[id] in old(sessions) && Felled(byId[id])
      ensures id !in old(reg).member ==> sessions == old(sessions) && dead == old(dead)
      ensures Shrunk() && Spared(c) && Elsewhere(c, id)
    {
      hide ListsOk, LinksOk, RingsOk, FlowsOk, BooksOk, EncFrame, ErrorBody, Framed, Registry.DropFrom, Without;
      Registry.DropAbsent(reg, id);
      ListsApart();
      var s := FindSession(id);
      if s == null {
        Fail(c, NOT_FOUND, "no such session", e.mem);
      } else {
        ClientListed(s);
        KillFound(c, s, e);
      }
      ListsApart();
    }

    lemma ListsApart()
      requires ListsOk()
      ensures forall t <- dead :: t !in sessions
    {
    }

    /** The session is found: its client goes, it is killed, the reply is OK. */
    method KillFound(c: Connection, s: Session, e: Env)
      requires Valid() && c in conns && c.session == null && s in sessions && !s.removed
      modifies `sessions, `dead, `groups, `reg, s`client, s`ptyOpen, s`defunct, s`killing, s`removed
      modifies ClientOf(s)`session, ClientOf(s)`wantClose, c`wbuf, c`wpos, c`wantClose, c`queued, c`lossy
      ensures GroupsFrom()
      ensures Valid() && Kept(c) && reg == Registry.DropFrom(old(reg), s.id) && Felled(s)
      ensures e.mem.queue ==> c.lossy == old(c.lossy)
      ensures c.queued == old(c.queued) + Framed(e.mem, Codec.OK, [])
      ensures Shrunk() && (s.ptyOpen ==> old(s.ptyOpen)) && forall d <- old(ClientOf(s)) :: d.session == null && d.wantClose
      ensures forall t <- old(sessions) :: t != s ==> t in sessions
    {
      hide ListsOk, RingsOk, FlowsOk, BooksOk, Framed, Registry.DropFrom, Registry.Gc, Without;
      ClientListed(s);
      KillDetached(s);
      Reply(c, Codec.OK, [], e.mem);
    }

    method KillDetached(s: Session)
      requires Valid() && s in sessions && !s.removed
      modifies `sessions, `dead, `groups, `reg, s`client, s`ptyOpen, s`defunct, s`killing, s`removed
      modifies ClientOf(s)`session, ClientOf(s)`wantClose
      ensures GroupsFrom() && Shrunk() && forall t <- old(sessions) :: t != s ==> t in sessions
      ensures Valid() && reg == Registry.DropFrom(old(reg), s.id) && Felled(s) && (s.ptyOpen ==> old(s.ptyOpen))
      ensures forall d <- old(ClientOf(s)) :: d.session == null && d.wantClose
    {
      hide ListsOk, RingsOk, FlowsOk, BooksOk, Registry.DropFrom, Without;
      DetachClient(s);
      hide LinksOk;
      KillSession(s);
    }

    /** handle_detach. */
    method HandleDetach(c: Connection, id: nat, e: Env)
      requires Valid() && c in conns && c.session == null
      modifies sessions`client, conns`session, conns`wantClose, c`wbuf, c`wpos, c`queued, c`lossy
      ensures Valid() && Kept(c) && Spared(c) && Elsewhere(c, id)
      ensures e.mem.queue ==> c.lossy == old(c.lossy)
      ensures id !in reg.member ==> c.queued == old(c.queued) + Framed(e.mem, Codec.ERROR, ErrorBody(NOT_FOUND, "no such session"))
      ensures id in reg.member ==> id in byId && c.queued == old(c.queued) + Framed(e.mem, Codec.OK, []) && byId[id].client == null
    {
      hide ListsOk, RingsOk, FlowsOk, BooksOk, EncFrame, ErrorBody, Framed;
      var s := FindSession(id);
      if s == null {
        Fail(c, NOT_FOUND, "no such session", e.mem);
      } else {
        ClientListed(s);
        DetachFound(c, s, e);
      }
    }

    method DetachFound(c: Connection, s: Session, e: Env)
      requires Valid() && c in conns && c.session == null && s in sessions
      modifies s`client, ClientOf(s)`session, ClientOf(s)`wantClose, c`wbuf, c`wpos, c`wantClose, c`queued, c`lossy
      ensures Valid() && Kept(c) && s.client == null && forall d <- old(ClientOf(s)) :: d.session == null && d.wantClose
      ensures e.mem.queue ==> c.lossy == old(c.lossy)
      ensures c.queued == old(c.queued) + Framed(e.mem, Codec.OK, [])
    {
      hide ListsOk, RingsOk, FlowsOk, BooksOk, EncFrame, Framed;
      ClientListed(s);
      DetachClient(s);
      Reply(c, Codec.OK, [], e.mem);
    }

    /** handle_resize: the window size goes to the PTY, which is not modelled; the
        daemon itself only answers. */
    method HandleResize(c: Connection, id: nat, e: Env)
      requires Valid() && c in conns && c.session == null
      modifies c`wbuf, c`wpos, c`wantClose, c`queued, c`lossy
      ensures Valid() && Kept(c)
      ensures e.mem.queue ==> c.lossy == old(c.lossy)
      ensures c.queued == old(c.queued) + if id in reg.member then Framed(e.mem, Codec.OK, [])
                                          else Framed(e.mem, Codec.ERROR, ErrorBody(NOT_FOUND, "no such session"))
    {
      hide ListsOk, LinksOk, RingsOk, FlowsOk, BooksOk, EncFrame, ErrorBody, Framed;
      var s := FindSession(id);
      if s == null {
        Fail(c, NOT_FOUND, "no such session", e.mem);
        return;
      }
      Reply(c, Codec.OK, [], e.mem);
    }

    /** handle_peek: a read-only look at the newest output; nothing but the reply
        queue of the asking connection changes. */
    method HandlePeek(c: Connection, id: nat, maxBytes: nat, e: Env)
      requires Valid() && c in conns && c.session == null
      modifies c`wbuf, c`wpos, c`wantClose, c`queued, c`lossy
      ensures Valid() && Kept(c)
      ensures e.mem.queue ==> c.lossy == old(c.lossy)
      ensures id !in reg.member ==> c.queued == old(c.queued) + Framed(e.mem, Codec.ERROR, ErrorBody(NOT_FOUND, "no such session"))
      ensures id in reg.member ==> id in byId && byId[id].RingOk() && c.queued == old(c.queued) + Framed(e.mem, Codec.PEEK_REPLY,
        PeekBody(id, if e.snapOk then LastN(byId[id].out.Contents(), maxBytes) else [], byId[id].out.size))
    {
      hide ListsOk, LinksOk, FlowsOk, BooksOk, EncFrame, ErrorBody, PeekBody, Framed, Ring.Ring.Valid, LastN;
      var s := FindSession(id);
      if s == null {
        Fail(c, NOT_FOUND, "no such session", e.mem);
      } else {
        PeekFound(c, s, maxBytes, e);
      }
    }

    method PeekFound(c: Connection, s: Session, maxBytes: nat, e: Env)
      requires Valid() && c in conns && c.session == null && s in sessions
      modifies c`wbuf, c`wpos, c`wantClose, c`queued, c`lossy
      ensures Valid() && Kept(c) && (e.mem.queue ==> c.lossy == old(c.lossy)) && s.RingOk()
      ensures c.queued == old(c.queued) + Framed(e.mem, Codec.PEEK_REPLY,
        PeekBody(s.id, if e.snapOk then LastN(s.out.Contents(), maxBytes) else [], s.out.size))
    {
      hide ListsOk, LinksOk, FlowsOk, BooksOk, ErrorBody, PeekBody, Framed, Ring.Ring.Valid, LastN;
      var tail := s.out.SnapshotTail(maxBytes, e.snapOk);
      Reply(c, Codec.PEEK_REPLY, PeekBody(s.id, tail, s.out.size), e.mem);
    }

    /** The session infos LIST reports, in list order. */
    static function InfosIn(ss: seq<Session>): seq<Codec.SessionInfo>
      reads ss`removed, ss`alive, ss`client
    {
      if ss == [] then []
      else (if !ss[0].removed then [InfoOf(ss[0])] else []) + InfosIn(ss[1..])
    }

    /** handle_list. */
    method HandleList(c: Connection, e: Env)
      requires Valid() && c in conns && c.session == null
      modifies c`wbuf, c`wpos, c`wantClose, c`queued, c`lossy
      ensures Valid() && Kept(c)
      ensures e.mem.queue ==> c.lossy == old(c.lossy)
      ensures c.queued == old(c.queued) + Framed(e.mem, Codec.LIST_REPLY, Codec.ListBody(InfosIn(sessions), instanceId))
    {
      hide ListsOk, LinksOk, RingsOk, FlowsOk, BooksOk, Framed, InfosIn;
      var w := WriteList(e.mem.frame);
      QueueFrame(c, w, Codec.LIST_REPLY, Codec.ListBody(InfosIn(sessions), instanceId), e.mem);
    }

    /** The counting loop of handle_list. */
    method CountListed() returns (n: nat)
      ensures n == |InfosIn(sessions)|
    {
      n := 0;
      var i := 0;
      while i < |sessions|
        invariant i <= |sessions| && n + |InfosIn(sessions[i..])| == |InfosIn(sessions)|
      {
        if !sessions[i].removed {
          n := n + 1;
        }
        i := i + 1;
      }
    }

    /** put_session_info. */
    method PutInfo(w: Writer, s: Session, allocOk: bool, ghost kind: nat)
      requires w.Begun(kind)
      modifies w
      ensures w.Begun(kind) && (old(w.oom) ==> w.oom) && (allocOk ==> w.oom == old(w.oom))
      ensures !w.oom ==> |old(w.data)| >= 8 && w.Body() == old(w.Body()) + Codec.EncInfo(InfoOf(s))
    {
      hide EncU8, EncU32, EncU64, EncBlob;
      w.PutU64(s.id, allocOk);
      w.PutU32(s.pid, allocOk);
      w.PutU8(Codec.Flag(s.alive), allocOk);
      w.PutU8(Codec.Flag(s.client != null), allocOk);
      w.PutU64(s.createdAt, allocOk);
      w.PutBlob(s.cwd, allocOk);
      if !w.oom {
        InfoSpelled(InfoOf(s));
        w.Grew(Codec.EncInfo(InfoOf(s)));
      }
    }

    static lemma InfoSpelled(i: Codec.SessionInfo)
      ensures forall d: seq<byte> ::
        d + EncU64(i.id) + EncU32(i.pid) + EncU8(Codec.Flag(i.alive)) + EncU8(Codec.Flag(i.attached)) + EncU64(i.createdAt) + EncBlob(i.cwd)
        == d + Codec.EncInfo(i)
    {
    }

    /** The frame handle_list writes, put by put. */
    method WriteList(frameOk: bool) returns (w: Writer)
      ensures fresh(w) && w.oom == !frameOk
      ensures frameOk ==> w.data == EncFrame(Codec.LIST_REPLY, Codec.ListBody(InfosIn(sessions), instanceId))
    {
      hide EncU32, EncU64, EncFrame, InfosIn, Codec.EncInfo, Codec.EncInfos;
      w := new Writer();
      var n := CountListed();
      w.Start(Codec.LIST_REPLY, frameOk);
      w.PutU32(n, frameOk);
      assert frameOk ==> w.Body() == EncU32(n);
      PutInfos(w, frameOk, Codec.LIST_REPLY);
      w.PutU64(instanceId, frameOk);
      w.End(Codec.LIST_REPLY);
      ListSpelled(n);
    }

    /** The session loop of handle_list. */
    method PutInfos(w: Writer, allocOk: bool, ghost kind: nat)
      requires w.Begun(kind)
      modifies w
      ensures w.Begun(kind) && (old(w.oom) ==> w.oom) && (allocOk ==> w.oom == old(w.oom))
      ensures !w.oom ==> |old(w.data)| >= 8 && w.Body() == old(w.Body()) + Codec.EncInfos(InfosIn(sessions))
    {
      hide InfosIn, Codec.EncInfo, Codec.EncInfos;
      InfosSpelledEnd();
      var i := 0;
      while i < |sessions|
        invariant i <= |sessions| && w.Begun(kind) && (old(w.oom) ==> w.oom) && (allocOk ==> w.oom == old(w.oom))
        invariant !w.oom ==> |old(w.data)| >= 8
        invariant !w.oom ==> w.Body() + Codec.EncInfos(InfosIn(sessions[i..])) == old(w.Body()) + Codec.EncInfos(InfosIn(sessions))
      {
        if !w.oom { InfosSpelledStep(i, w.Body()); }
        if !sessions[i].removed {
          PutInfo(w, sessions[i], allocOk, kind);
        }
        i := i + 1;
      }
      if !w.oom { assert w.Body() + [] == w.Body(); }
    }

    lemma InfosSpelledEnd()
      ensures sessions[0..] == sessions && Codec.EncInfos(InfosIn(sessions[|sessions|..])) == []
    {
    }

    lemma InfosSpelledStep(i: nat, done: seq<byte>)
      requires i < |sessions|
      ensures done + Codec.EncInfos(InfosIn(sessions[i..])) ==
        (if sessions[i].removed then done else done + Codec.EncInfo(InfoOf(sessions[i]))) + Codec.EncInfos(InfosIn(sessions[i + 1..]))
    {
      hide Codec.EncInfo;
      assert sessions[i..][0] == sessions[i] && sessions[i..][1..] == sessions[i + 1..];
      var rest := InfosIn(sessions[i + 1..]);
      if sessions[i].removed {
        assert [] + rest == rest;
      } else {
        assert ([InfoOf(sessions[i])] + rest)[1..] == rest;
      }
    }

    lemma ListSpelled(n: nat)
      ensures EncU32(n) + Codec.EncInfos(InfosIn(sessions)) + EncU64(instanceId)
        == EncU32(n) + (Codec.EncInfos(InfosIn(sessions)) + EncU64(instanceId))
    {
    }

    /** A freshly spawned session goes to the front of the list, ungrouped. */
    twostate predicate Enrolled(s: Session)
      reads *
    {
      && sessions == [s] + old(sessions) && unchanged(`dead, `conns, `groups, `groupOf, `nextGroupId)
      && (forall t <- old(sessions) :: unchanged(t)) && unchanged(dead, conns, groups)
      && s.id == old(nextId) + 1 == nextId && byId == old(byId)[s.id := s] && reg == Registry.SpawnIn(old(reg), s.id)
      && s.gid == 0 && !s.removed && !s.defunct && !s.freed && s.client == null
    }

    twostate lemma EnrolledMembers(s: Session)
      requires old(MembersTied()) && Enrolled(s)
      ensures MembersTied() && s.id !in old(reg).member && s.id !in old(byId)
    {
    }

    twostate lemma EnrolledLinks(s: Session)
      requires old(LinksOk()) && Enrolled(s)
      ensures LinksOk()
    {
    }

    twostate lemma EnrolledFlows(s: Session)
      requires old(FlowsOk()) && Enrolled(s) && s.InOk()
      ensures FlowsOk()
    {
      hide Connection.OutOk, Connection.CutOk, Connection.OpenOk, Session.InOk, Tapped;
    }

    twostate lemma EnrolledRings(s: Session)
      requires old(RingsOk()) && Enrolled(s) && s.RingOk()
      requires forall t <- old(sessions) :: unchanged(t.out, old(t.out.buf)) && t.out != s.out && t.out.buf != s.out.buf
      ensures RingsOk()
    {
      hide Ring.Ring.Valid;
    }

    /** The bookkeeping of handle_create for a spawned session. */
    method EnrolNew(s: Session)
      requires Valid() && s.id == nextId + 1 && s !in sessions && s !in dead && s.RingOk() && s.InOk()
      requires s.gid == 0 && !s.removed && !s.defunct && !s.freed && s.client == null
      requires forall t <- sessions :: t.out != s.out && t.out.buf != s.out.buf
      modifies `sessions, `nextId, `reg, `byId
      ensures Valid() && sessions == [s] + old(sessions) && nextId == s.id && byId == old(byId)[s.id := s]
      ensures reg == Registry.SpawnIn(old(reg), s.id) && s.id !in old(reg).member && s.id !in old(byId)
    {
      hide ListsOk, LinksOk, RingsOk, FlowsOk, MembersTied, GroupsTied, Registry.Inv, Session.RingOk, Session.InOk;
      nextId := nextId + 1;
      sessions := [s] + sessions;
      byId := byId[s.id := s];
      reg := Registry.SpawnIn(reg, s.id);
      SameGroups();
      EnrolledLists(s);
      EnrolledAll(s);
    }

    twostate lemma EnrolledLists(s: Session)
      requires old(ListsOk()) && s !in old(sessions) && s !in old(dead) && Enrolled(s)
      ensures ListsOk()
    {
    }

    twostate lemma EnrolledAll(s: Session)
      requires old(MembersTied()) && Registry.Inv(old(reg)) && old(LinksOk()) && old(FlowsOk()) && old(RingsOk())
      requires Enrolled(s) && s.RingOk() && s.InOk()
      requires forall t <- old(sessions) :: unchanged(t.out, old(t.out.buf)) && t.out != s.out && t.out.buf != s.out.buf
      ensures MembersTied() && Registry.Inv(reg) && LinksOk() && FlowsOk() && RingsOk() && s.id !in old(reg).member && s.id !in old(byId)
    {
      hide MembersTied, LinksOk, FlowsOk, RingsOk, Session.RingOk, Session.InOk, Registry.Inv;
      EnrolledMembers(s);
      Registry.SpawnKeeps(old(reg), s.id);
      EnrolledLinks(s);
      EnrolledFlows(s);
      EnrolledRings(s);
    }

    /** epi_session_spawn, with the next number. */
    method Spawn(a: Codec.CreateArgs, e: Env) returns (s: Session)
      requires e.ringOk
      ensures fresh(s) && fresh(s.out) && fresh(s.out.buf) && s.RingOk() && s.InOk() && s.id == nextId + 1
      ensures s.gid == 0 && !s.defunct && !s.freed && IsChild(s, a, e)
    {
      var ring := new Ring.Ring(Ring.RING_CAP, e.ringOk);
      s := new Session(nextId + 1, e.pid, e.now, StartDir(a, e), ring);
    }

    /** s is the child just spawned. */
    ghost predicate IsChild(s: Session, a: Codec.CreateArgs, e: Env)
      reads s, s.out`starved
    {
      s.pid == e.pid && s.createdAt == e.now && s.cwd == StartDir(a, e) && SessionRecord(s, true) == NEWBORN && s.client == null
    }

    /** A new session has lost nothing. */
    twostate predicate Unspoilt()
      reads `sessions, `dead, sessions`inputLost, dead`inputLost, (set s <- sessions :: s.out)`starved, (set s <- dead :: s.out)`starved
    {
      forall s <- sessions + dead :: s in old(sessions + dead) || (!s.inputLost && !s.out.starved)
    }

    /** A spawned session joins the list; one whose descriptor cannot be registered
        is removed again and leaves nothing but a used number. */
    method CreateSession(a: Codec.CreateArgs, e: Env) returns (s: Session)
      requires Valid() && e.ringOk
      modifies `sessions, `dead, `groups, `reg, `nextId, `byId
      ensures Valid() && Aged() && GroupsFrom() && Unspoilt() && Numbering() && fresh(s) && s.id == nextId == old(nextId) + 1
      ensures e.registerOk ==> sessions == [s] + old(sessions) && reg == Registry.SpawnIn(old(reg), s.id) && IsChild(s, a, e)
      ensures !e.registerOk ==> dead == [s] + old(dead) && sessions == old(sessions) && reg == old(reg)
    {
      hide ListsOk, LinksOk, RingsOk, FlowsOk, BooksOk, Registry.DropFrom, Registry.SpawnIn;
      s := EnrolSpawned(a, e);
      if !e.registerOk {
        Registry.SpawnThenDrop(old(reg), s.id);
        RemoveSession(s);
      }
    }

    method EnrolSpawned(a: Codec.CreateArgs, e: Env) returns (s: Session)
      requires Valid() && e.ringOk
      modifies `sessions, `nextId, `reg, `byId
      ensures Valid() && fresh(s) && fresh(s.out) && fresh(s.out.buf) && sessions == [s] + old(sessions) && Numbering()
      ensures s.id == nextId == old(nextId) + 1 && reg == Registry.SpawnIn(old(reg), s.id) && s.id !in old(reg).member
      ensures IsChild(s, a, e) && !s.defunct
    {
      hide ListsOk, LinksOk, RingsOk, FlowsOk, BooksOk, Registry.SpawnIn, Session.RingOk, Session.InOk;
      s := Spawn(a, e);
      EnrolNew(s);
    }

    /** The child just spawned stands at the front of the list, with the newest
        number. */
    twostate predicate NewInFront(new a: Codec.CreateArgs, new e: Env)
      reads this, sessions, (set s <- sessions :: s.out)`starved
    {
      sessions != [] && fresh(sessions[0]) && sessions[0].id == nextId && sessions[1..] == old(sessions) && IsChild(sessions[0], a, e)
    }

    /** handle_create; what the child executes is the environment's business. */
    method HandleCreate(c: Connection, a: Codec.CreateArgs, e: Env)
      requires Valid() && c in conns && c.session == null
      modifies `sessions, `dead, `groups, `reg, `nextId, `byId, c`wbuf, c`wpos, c`wantClose, c`queued, c`lossy
      ensures Valid() && Kept(c) && Aged() && GroupsFrom() && Unspoilt() && Numbering()
      ensures e.mem.queue ==> c.lossy == old(c.lossy)
      ensures nextId == old(nextId) + if e.spawnOk && e.ringOk then 1 else 0
      ensures reg == if e.spawnOk && e.ringOk && e.registerOk then Registry.SpawnIn(old(reg), nextId) else old(reg)
      ensures c.queued == old(c.queued) + CreateReply(e, old(nextId) + 1)
      ensures if e.spawnOk && e.ringOk && e.registerOk then NewInFront(a, e) else sessions == old(sessions)
    {
      hide ListsOk, LinksOk, RingsOk, FlowsOk, BooksOk, EncU64, ErrorBody;
      hide Framed, Registry.SpawnIn, Aged, GroupsFrom, Unspoilt, Numbering, NewInFront;
      if !e.ringOk || !e.spawnOk {
        Fail(c, SPAWN, "failed to spawn session", e.mem);
        NoneAged();
      } else {
        CreateAndReply(c, a, e);
      }
    }

    method CreateAndReply(c: Connection, a: Codec.CreateArgs, e: Env)
      requires Valid() && c in conns && c.session == null && e.spawnOk && e.ringOk
      modifies `sessions, `dead, `groups, `reg, `nextId, `byId, c`wbuf, c`wpos, c`wantClose, c`queued, c`lossy
      ensures Valid() && Kept(c) && Aged() && GroupsFrom() && Unspoilt() && Numbering() && nextId == old(nextId) + 1
      ensures e.mem.queue ==> c.lossy == old(c.lossy)
      ensures reg == if e.registerOk then Registry.SpawnIn(old(reg), nextId) else old(reg)
      ensures c.queued == old(c.queued) + CreateReply(e, nextId)
      ensures if e.registerOk then NewInFront(a, e) else sessions == old(sessions)
    {
      hide ListsOk, LinksOk, RingsOk, FlowsOk, BooksOk, EncU64, ErrorBody, Framed, Registry.SpawnIn, Aged, GroupsFrom, Unspoilt, Numbering;
      var s := CreateSession(a, e);
      if e.registerOk {
        ReplyValid(c, Codec.ID, EncU64(s.id), e.mem);
      } else {
        Fail(c, INTERNAL, "epoll registration failed", e.mem);
      }
    }

    // --- requests about groups ---

    /** count_groups. */
    lemma GroupCount()
      requires BooksOk()
      ensures |groups| == |reg.groups|
    {
    }

    /** handle_group_new. */
    method HandleGroupNew(c: Connection, blob: seq<byte>, e: Env)
      requires Valid() && c in conns && c.session == null
      modifies `groups, `reg, `groupOf, `nextGroupId, c`wbuf, c`wpos, c`wantClose, c`queued, c`lossy
      ensures GroupsFrom()
      ensures Valid() && Kept(c) && reg == if e.groupOk then Registry.NewGroupIn(old(reg), blob) else old(reg)
      ensures if e.groupOk && !Registry.GroupRefused(old(reg), blob) then GroupInFront(blob, e.now) else groups == old(groups)
      ensures e.mem.queue ==> c.lossy == old(c.lossy)
      ensures c.queued == old(c.queued) +
        if |blob| > Registry.BLOB_MAX then Framed(e.mem, Codec.ERROR, ErrorBody(TOO_LARGE, "blob exceeds maximum size"))
        else if |old(reg).groups| >= Registry.GROUP_MAX then Framed(e.mem, Codec.ERROR, ErrorBody(TOO_LARGE, "too many groups"))
        else if !e.groupOk then Framed(e.mem, Codec.ERROR, ErrorBody(INTERNAL, "out of memory"))
        else Framed(e.mem, Codec.GROUP_ID, EncU64(old(reg).nextGroup + 1))
    {
      hide ListsOk, LinksOk, RingsOk, FlowsOk, BooksOk, Framed, EncU64, ErrorBody;
      GroupCount();
      if |blob| > Registry.BLOB_MAX {
        Fail(c, TOO_LARGE, "blob exceeds maximum size", e.mem);
        return;
      }
      if |groups| >= Registry.GROUP_MAX {
        Fail(c, TOO_LARGE, "too many groups", e.mem);
        return;
      }
      if !e.groupOk {
        Fail(c, INTERNAL, "out of memory", e.mem);
        return;
      }
      NewGroup(c, blob, e);
    }

    /** The group is made and its id is the reply. */
    method NewGroup(c: Connection, blob: seq<byte>, e: Env)
      requires Valid() && c in conns && c.session == null && !Registry.GroupRefused(reg, blob)
      modifies `groups, `reg, `groupOf, `nextGroupId, c`wbuf, c`wpos, c`wantClose, c`queued, c`lossy
      ensures GroupsFrom()
      ensures Valid() && Kept(c) && reg == Registry.NewGroupIn(old(reg), blob) && GroupInFront(blob, e.now)
      ensures e.mem.queue ==> c.lossy == old(c.lossy)
      ensures c.queued == old(c.queued) + Framed(e.mem, Codec.GROUP_ID, EncU64(old(reg).nextGroup + 1))
    {
      hide ListsOk, LinksOk, RingsOk, FlowsOk, BooksOk, Framed, EncU64;
      var id := AddGroup(blob, e.now);
      Reply(c, Codec.GROUP_ID, EncU64(id), e.mem);
    }

    /** handle_group_set. */
    method HandleGroupSet(c: Connection, gid: nat, blob: seq<byte>, e: Env)
      requires Valid() && c in conns && c.session == null
      modifies `reg, groups`blob, c`wbuf, c`wpos, c`wantClose, c`queued, c`lossy
      ensures Valid() && Kept(c) && reg == if e.groupOk then Registry.SetBlobIn(old(reg), gid, blob) else old(reg)
      ensures e.mem.queue ==> c.lossy == old(c.lossy)
      ensures c.queued == old(c.queued) +
        if |blob| > Registry.BLOB_MAX then Framed(e.mem, Codec.ERROR, ErrorBody(TOO_LARGE, "blob exceeds maximum size"))
        else if gid !in old(reg).groups then Framed(e.mem, Codec.ERROR, ErrorBody(NOT_FOUND, "no such group"))
        else if !e.groupOk then Framed(e.mem, Codec.ERROR, ErrorBody(INTERNAL, "out of memory"))
        else Framed(e.mem, Codec.OK, [])
    {
      hide ListsOk, LinksOk, RingsOk, FlowsOk, MembersTied, GroupsTied, Registry.Inv, Framed, ErrorBody;
      if |blob| > Registry.BLOB_MAX {
        Fail(c, TOO_LARGE, "blob exceeds maximum size", e.mem);
        return;
      }
      var g := FindGroup(gid);
      if g == null {
        Fail(c, NOT_FOUND, "no such group", e.mem);
        return;
      }
      if !e.groupOk {
        Fail(c, INTERNAL, "out of memory", e.mem);
        return;
      }
      SetFound(c, g, blob, e);
    }

    method SetFound(c: Connection, g: Group, blob: seq<byte>, e: Env)
      requires Valid() && c in conns && c.session == null && g in groups && |blob| <= Registry.BLOB_MAX
      modifies `reg, g`blob, c`wbuf, c`wpos, c`wantClose, c`queued, c`lossy
      ensures Valid() && Kept(c) && reg == Registry.SetBlobIn(old(reg), g.id, blob)
      ensures e.mem.queue ==> c.lossy == old(c.lossy)
      ensures c.queued == old(c.queued) + Framed(e.mem, Codec.OK, [])
    {
      hide ListsOk, LinksOk, RingsOk, FlowsOk, MembersTied, GroupsTied, Registry.Inv, Registry.SetBlobIn, Framed;
      PutBlob(g, blob);
      Reply(c, Codec.OK, [], e.mem);
    }

    /** handle_group_add. */
    method HandleGroupAdd(c: Connection, gid: nat, sid: nat, e: Env)
      requires Valid() && c in conns && c.session == null
      modifies `groups, `reg, sessions`gid, c`wbuf, c`wpos, c`wantClose, c`queued, c`lossy
      ensures GroupsFrom()
      ensures Valid() && Kept(c) && reg == Registry.MoveTo(old(reg), gid, sid)
      ensures e.mem.queue ==> c.lossy == old(c.lossy)
      ensures c.queued == old(c.queued) +
        if gid !in old(reg).groups then Framed(e.mem, Codec.ERROR, ErrorBody(NOT_FOUND, "no such group"))
        else if sid !in old(reg).member then Framed(e.mem, Codec.ERROR, ErrorBody(NOT_FOUND, "no such session"))
        else Framed(e.mem, Codec.OK, [])
    {
      hide ListsOk, LinksOk, RingsOk, FlowsOk, MembersTied, GroupsTied, Registry.Inv, Registry.Gc, Framed, ErrorBody;
      var g := FindGroup(gid);
      if g == null {
        Fail(c, NOT_FOUND, "no such group", e.mem);
        return;
      }
      var s := FindSession(sid);
      if s == null {
        Fail(c, NOT_FOUND, "no such session", e.mem);
        return;
      }
      MoveFound(c, s, gid, e);
    }

    method MoveFound(c: Connection, s: Session, gid: nat, e: Env)
      requires Valid() && c in conns && c.session == null && s in sessions && !s.removed && gid in reg.groups
      modifies `groups, `reg, sessions`gid, c`wbuf, c`wpos, c`wantClose, c`queued, c`lossy
      ensures GroupsFrom()
      ensures Valid() && Kept(c) && reg == Registry.MoveTo(old(reg), gid, s.id)
      ensures e.mem.queue ==> c.lossy == old(c.lossy)
      ensures c.queued == old(c.queued) + Framed(e.mem, Codec.OK, [])
    {
      hide ListsOk, LinksOk, RingsOk, FlowsOk, MembersTied, GroupsTied, Registry.Inv, Registry.Gc, Registry.MoveTo, Framed, ErrorBody;
      MoveSession(s, gid);
      Reply(c, Codec.OK, [], e.mem);
    }

    /** handle_group_remove. */
    method HandleGroupRemove(c: Connection, sid: nat, e: Env)
      requires Valid() && c in conns && c.session == null
      modifies `groups, `reg, sessions`gid, c`wbuf, c`wpos, c`wantClose, c`queued, c`lossy
      ensures GroupsFrom()
      ensures Valid() && Kept(c) && reg == Registry.LeaveGroup(old(reg), sid)
      ensures e.mem.queue ==> c.lossy == old(c.lossy)
      ensures c.queued == old(c.queued) + if sid !in old(reg).member then Framed(e.mem, Codec.ERROR, ErrorBody(NOT_FOUND, "no such session"))
                                          else Framed(e.mem, Codec.OK, [])
    {
      hide ListsOk, LinksOk, RingsOk, FlowsOk, MembersTied, GroupsTied, Registry.Inv, Registry.Gc, Framed, ErrorBody;
      var s := FindSession(sid);
      if s == null {
        Fail(c, NOT_FOUND, "no such session", e.mem);
        return;
      }
      RemoveFound(c, s, e);
    }

    method RemoveFound(c: Connection, s: Session, e: Env)
      requires Valid() && c in conns && c.session == null && s in sessions && !s.removed
      modifies `groups, `reg, sessions`gid, c`wbuf, c`wpos, c`wantClose, c`queued, c`lossy
      ensures GroupsFrom()
      ensures Valid() && Kept(c) && reg == Registry.LeaveGroup(old(reg), s.id)
      ensures e.mem.queue ==> c.lossy == old(c.lossy)
      ensures c.queued == old(c.queued) + Framed(e.mem, Codec.OK, [])
    {
      hide ListsOk, LinksOk, RingsOk, FlowsOk, MembersTied, GroupsTied, Registry.Inv, Registry.Gc, Registry.LeaveGroup, Framed;
      UngroupSession(s);
      Reply(c, Codec.OK, [], e.mem);
    }

    /** The group infos GROUP_LIST reports, in list order. */
    static function GroupInfosIn(gs: seq<Group>, ss: seq<Session>): seq<Codec.GroupInfo>
      reads gs`blob, ss`removed, ss`gid
    {
      if gs == [] then []
      else [Codec.GroupInfo(gs[0].id, gs[0].createdAt, gs[0].blob, MembersIn(ss, gs[0].id))] + GroupInfosIn(gs[1..], ss)
    }

    /** The member loop of handle_group_list. */
    method PutMembers(w: Writer, gid: nat, allocOk: bool, ghost kind: nat)
      requires w.Begun(kind)
      modifies w
      ensures w.Begun(kind) && (old(w.oom) ==> w.oom) && (allocOk ==> w.oom == old(w.oom))
      ensures !w.oom ==> |old(w.data)| >= 8 && w.Body() == old(w.Body()) + Codec.EncIds(MembersIn(sessions, gid))
    {
      hide MembersIn, EncU64, Codec.EncIds;
      MembersSpelledEnd(gid);
      var i := 0;
      while i < |sessions|
        invariant i <= |sessions| && w.Begun(kind) && (old(w.oom) ==> w.oom) && (allocOk ==> w.oom == old(w.oom))
        invariant !w.oom ==> |old(w.data)| >= 8
        invariant !w.oom ==> w.Body() + Codec.EncIds(MembersIn(sessions[i..], gid)) == old(w.Body()) + Codec.EncIds(MembersIn(sessions, gid))
      {
        if !w.oom { MembersSpelledStep(i, gid, w.Body()); }
        if !sessions[i].removed && sessions[i].gid == gid {
          w.PutU64(sessions[i].id, allocOk);
        }
        i := i + 1;
      }
      if !w.oom { assert w.Body() + [] == w.Body(); }
    }

    lemma MembersSpelledEnd(gid: nat)
      ensures sessions[0..] == sessions && Codec.EncIds(MembersIn(sessions[|sessions|..], gid)) == []
    {
    }

    lemma MembersSpelledStep(i: nat, gid: nat, done: seq<byte>)
      requires i < |sessions|
      ensures var s := sessions[i];
        done + Codec.EncIds(MembersIn(sessions[i..], gid)) ==
          (if !s.removed && s.gid == gid then done + EncU64(s.id) else done) + Codec.EncIds(MembersIn(sessions[i + 1..], gid))
    {
      hide EncU64;
      assert sessions[i..][0] == sessions[i] && sessions[i..][1..] == sessions[i + 1..];
      var rest := MembersIn(sessions[i + 1..], gid);
      if !sessions[i].removed && sessions[i].gid == gid {
        assert ([sessions[i].id] + rest)[1..] == rest;
      } else {
        assert [] + rest == rest;
      }
    }

    /** What GROUP_LIST says of a group. */
    static function GroupInfoOf(g: Group, ss: seq<Session>): Codec.GroupInfo
      reads g`blob, ss`removed, ss`gid
    {
      Codec.GroupInfo(g.id, g.createdAt, g.blob, MembersIn(ss, g.id))
    }

    /** One group of handle_group_list. */
    method PutGroup(w: Writer, g: Group, allocOk: bool, ghost kind: nat)
      requires w.Begun(kind)
      modifies w
      ensures w.Begun(kind) && (old(w.oom) ==> w.oom) && (allocOk ==> w.oom == old(w.oom))
      ensures !w.oom ==> |old(w.data)| >= 8 && w.Body() == old(w.Body()) + Codec.EncGroup(GroupInfoOf(g, sessions))
    {
      hide EncU32, EncU64, EncBlob, MembersIn, Codec.EncIds;
      PutGroupHead(w, g, allocOk, kind);
      PutMembers(w, g.id, allocOk, kind);
      if !w.oom { GroupSpelled(GroupInfoOf(g, sessions), old(w.Body())); }
    }

    method PutGroupHead(w: Writer, g: Group, allocOk: bool, ghost kind: nat)
      requires w.Begun(kind)
      modifies w
      ensures w.Begun(kind) && (old(w.oom) ==> w.oom) && (allocOk ==> w.oom == old(w.oom))
      ensures !w.oom ==> |old(w.data)| >= 8 && w.Body() == old(w.Body()) + GroupHead(GroupInfoOf(g, sessions))
    {
      hide EncU32, EncU64, EncBlob, MembersIn;
      var n := CountMembers(g.id);
      w.PutU64(g.id, allocOk);
      w.PutU64(g.createdAt, allocOk);
      w.PutBlob(g.blob, allocOk);
      w.PutU32(n, allocOk);
      if !w.oom { w.Grew(GroupHead(GroupInfoOf(g, sessions))); }
    }

    static ghost function GroupHead(i: Codec.GroupInfo): seq<byte> {
      EncU64(i.id) + EncU64(i.createdAt) + EncBlob(i.blob) + EncU32(|i.members|)
    }

    static lemma GroupSpelled(i: Codec.GroupInfo, d: seq<byte>)
      ensures d + GroupHead(i) + Codec.EncIds(i.members) == d + Codec.EncGroup(i)
    {
      hide EncU32, EncU64, EncBlob, Codec.EncIds;
    }

    /** The frame handle_group_list writes, put by put. */
    method WriteGroupList(frameOk: bool) returns (w: Writer)
      ensures fresh(w) && w.oom == !frameOk
      ensures frameOk ==> w.data == EncFrame(Codec.GROUP_LIST_REPLY, Codec.GroupListBody(instanceId, GroupInfosIn(groups, sessions)))
    {
      hide EncU32, EncU64, EncFrame, GroupInfosIn, GroupInfoOf, Codec.EncGroup, Codec.EncGroups;
      w := new Writer();
      w.Start(Codec.GROUP_LIST_REPLY, frameOk);
      w.PutU64(instanceId, frameOk);
      assert frameOk ==> w.Body() == EncU64(instanceId);
      w.PutU32(|groups|, frameOk);
      PutGroups(w, frameOk, Codec.GROUP_LIST_REPLY);
      w.End(Codec.GROUP_LIST_REPLY);
      GroupListSpelled();
    }

    /** The group loop of handle_group_list. */
    method PutGroups(w: Writer, allocOk: bool, ghost kind: nat)
      requires w.Begun(kind)
      modifies w
      ensures w.Begun(kind) && (old(w.oom) ==> w.oom) && (allocOk ==> w.oom == old(w.oom))
      ensures !w.oom ==> |old(w.data)| >= 8 && w.Body() == old(w.Body()) + Codec.EncGroups(GroupInfosIn(groups, sessions))
    {
      hide GroupInfosIn, GroupInfoOf, Codec.EncGroup, Codec.EncGroups;
      GroupsSpelledEnd();
      var i := 0;
      while i < |groups|
        invariant i <= |groups| && w.Begun(kind) && (old(w.oom) ==> w.oom) && (allocOk ==> w.oom == old(w.oom))
        invariant !w.oom ==> |old(w.data)| >= 8
        invariant !w.oom ==> w.Body() + Codec.EncGroups(GroupInfosIn(groups[i..], sessions)) == old(w.Body()) + Codec.EncGroups(GroupInfosIn(groups, sessions))
      {
        if !w.oom { GroupsSpelledStep(i, w.Body()); }
        PutGroup(w, groups[i], allocOk, kind);
        i := i + 1;
      }
      if !w.oom { assert w.Body() + [] == w.Body(); }
    }

    lemma GroupsSpelledEnd()
      ensures groups[0..] == groups && Codec.EncGroups(GroupInfosIn(groups[|groups|..], sessions)) == []
    {
    }

    lemma GroupsSpelledStep(i: nat, done: seq<byte>)
      requires i < |groups|
      ensures done + Codec.EncGroups(GroupInfosIn(groups[i..], sessions)) ==
        done + Codec.EncGroup(GroupInfoOf(groups[i], sessions)) + Codec.EncGroups(GroupInfosIn(groups[i + 1..], sessions))
    {
      hide MembersIn, Codec.EncGroup;
      assert groups[i..][0] == groups[i] && groups[i..][1..] == groups[i + 1..];
      var info, rest := GroupInfoOf(groups[i], sessions), GroupInfosIn(groups[i + 1..], sessions);
      assert ([info] + rest)[1..] == rest;
    }

    lemma GroupListSpelled()
      ensures EncU64(instanceId) + EncU32(|groups|) + Codec.EncGroups(GroupInfosIn(groups, sessions))
        == Codec.GroupListBody(instanceId, GroupInfosIn(groups, sessions))
    {
      hide EncU32, EncU64, Codec.EncGroups;
      if groups == [] { GroupInfosNone(); } else { GroupInfosAt(groups, sessions, 0); }
    }

    /** handle_group_list. */
    method HandleGroupList(c: Connection, e: Env)
      requires Valid() && c in conns && c.session == null
      modifies c`wbuf, c`wpos, c`wantClose, c`queued, c`lossy
      ensures Valid() && Kept(c)
      ensures e.mem.queue ==> c.lossy == old(c.lossy)
      ensures c.queued == old(c.queued) +
        Framed(e.mem, Codec.GROUP_LIST_REPLY, Codec.GroupListBody(instanceId, GroupInfosIn(groups, sessions)))
    {
      hide ListsOk, LinksOk, RingsOk, FlowsOk, BooksOk, Framed, GroupInfosIn;
      var w := WriteGroupList(e.mem.frame);
      QueueFrame(c, w, Codec.GROUP_LIST_REPLY, Codec.GroupListBody(instanceId, GroupInfosIn(groups, sessions)), e.mem);
    }

    // --- what the two listings say together ---

    static function InfoIds(infos: seq<Codec.SessionInfo>): seq<nat> {
      if infos == [] then [] else [infos[0].id] + InfoIds(infos[1..])
    }

    static lemma {:induction false} InfosInAre(ss: seq<Session>)
      ensures forall id :: id in InfoIds(InfosIn(ss)) <==> exists s :: s in ss && !s.removed && s.id == id
    {
      if ss != [] {
        InfosInAre(ss[1..]);
        assert forall s :: s in ss <==> s == ss[0] || s in ss[1..];
        if !ss[0].removed {
          assert InfosIn(ss) == [InfoOf(ss[0])] + InfosIn(ss[1..]);
          assert InfosIn(ss)[1..] == InfosIn(ss[1..]);
        } else {
          assert InfosIn(ss) == InfosIn(ss[1..]);
        }
      }
    }

    static lemma {:induction false} GroupInfosAt(gs: seq<Group>, ss: seq<Session>, i: nat)
      requires i < |gs|
      ensures |GroupInfosIn(gs, ss)| == |gs|
      ensures GroupInfosIn(gs, ss)[i] == Codec.GroupInfo(gs[i].id, gs[i].createdAt, gs[i].blob, MembersIn(ss, gs[i].id))
      decreases |gs|
    {
      if i > 0 {
        GroupInfosAt(gs[1..], ss, i - 1);
      } else if |gs| > 1 {
        GroupInfosAt(gs[1..], ss, 0);
      }
    }

    static lemma {:induction false} MembersOnce(ss: seq<Session>, gid: nat)
      requires forall i, j :: 0 <= i < j < |ss| ==> ss[i].id != ss[j].id
      ensures NoDup(MembersIn(ss, gid))
    {
      if ss != [] {
        MembersOnce(ss[1..], gid);
        MembersInAre(ss[1..], gid);
        assert forall s <- ss[1..] :: s.id != ss[0].id;
        var rest := MembersIn(ss[1..], gid);
        assert ss[0].id !in rest;
        NoDupCons(ss[0].id, rest);
        assert [] + rest == rest;
      }
    }

    static lemma {:induction false} InfosOnce(ss: seq<Session>)
      requires forall i, j :: 0 <= i < j < |ss| ==> ss[i].id != ss[j].id
      ensures NoDup(InfoIds(InfosIn(ss))) && |InfosIn(ss)| <= |ss|
    {
      if ss != [] {
        InfosOnce(ss[1..]);
        InfosInAre(ss[1..]);
        assert forall s <- ss[1..] :: s.id != ss[0].id;
        var rest := InfosIn(ss[1..]);
        if ss[0].removed {
          assert [] + rest == rest;
        } else {
          assert ([InfoOf(ss[0])] + rest)[1..] == rest;
          NoDupCons(ss[0].id, InfoIds(rest));
        }
      }
    }

    /** In one and the same state, LIST reports exactly the registry's sessions,
        each once; GROUP_LIST reports each group once, a session appears in at most
        one member list and there only once, and only sessions that LIST shows do. */
    lemma ListingsAgree()
      requires ListsOk() && BooksOk()
      ensures NoDup(InfoIds(InfosIn(sessions)))
      ensures forall id :: id in InfoIds(InfosIn(sessions)) <==> id in reg.member
      ensures |GroupInfosIn(groups, sessions)| == |reg.groups|
      ensures forall g <- GroupInfosIn(groups, sessions) :: AgreesWith(g, reg)
      ensures forall i, j :: 0 <= i < j < |groups| ==> Apart(GroupInfosIn(groups, sessions)[i], GroupInfosIn(groups, sessions)[j])
    {
      hide Registry.Inv, MembersIn, InfosIn, InfoIds, GroupInfosIn;
      InfosInAre(sessions);
      forall id ensures id in InfoIds(InfosIn(sessions)) <==> id in reg.member {
        if id in reg.member { assert byId[id] in sessions && !byId[id].removed && byId[id].id == id; }
      }
      if groups == [] { GroupInfosNone(); } else { GroupInfosAt(groups, sessions, 0); }
      MembersOnceEach();
      InfosOnce(sessions);
      forall i | 0 <= i < |groups|
        ensures GroupInfosIn(groups, sessions)[i].id == groups[i].id && GroupInfosIn(groups, sessions)[i].blob == groups[i].blob
        ensures GroupInfosIn(groups, sessions)[i].members == MembersIn(sessions, groups[i].id)
        ensures NoDup(MembersIn(sessions, groups[i].id))
        ensures forall m :: m in MembersIn(sessions, groups[i].id) <==> m in reg.member && reg.member[m] == groups[i].id
      {
        GroupInfosAt(groups, sessions, i);
        MembersAre(groups[i].id);
        MembersOnce(sessions, groups[i].id);
      }
    }

    /** LIST lists in list order: what it says of a list is what it says of each
        part of it, one after the other, and of one session it says what that
        session is, or nothing if it was killed. */
    static lemma {:induction false} InfosInOrder(ss: seq<Session>, ts: seq<Session>, s: Session)
      ensures InfosIn(ss + ts) == InfosIn(ss) + InfosIn(ts)
      ensures InfosIn([s]) == if s.removed then [] else [Codec.SessionInfo(s.id, s.pid, s.alive, s.client != null, s.createdAt, s.cwd)]
      decreases |ss|
    {
      if ss == [] {
        assert ss + ts == ts;
      } else {
        InfosInOrder(ss[1..], ts, s);
        assert (ss + ts)[0] == ss[0] && (ss + ts)[1..] == ss[1..] + ts;
      }
    }

    /** The entry is about a listed session, and says of it what is so. */
    ghost predicate Describes(i: Codec.SessionInfo)
      reads `byId, `sessions, sessions`alive, sessions`client, sessions`removed
    {
      i.id in byId && var s := byId[i.id];
      && s in sessions && !s.removed && i.id == s.id && i.pid == s.pid && i.createdAt == s.createdAt && i.cwd == s.cwd
      && (i.alive <==> s.alive) && (i.attached <==> s.client != null)
    }

    lemma {:induction false} InfosDescribe(ss: seq<Session>)
      requires MembersTied() && forall s <- ss :: s in sessions
      ensures forall i <- InfosIn(ss) :: Describes(i)
    {
      if ss != [] {
        assert ss[0] in sessions && forall s <- ss[1..] :: s in ss;
        InfosDescribe(ss[1..]);
      }
    }

    /** The listing is a function of the snapshot. */
    lemma {:induction false} ListingIs(ss: seq<Session>)
      requires LinksOk() && forall s <- ss :: s in sessions
      ensures (forall s <- ss :: s in Snap().sess) && InfosIn(ss) == Listing(Snap(), ss)
    {
      if ss != [] {
        var s := ss[0];
        assert s in sessions && forall t <- ss[1..] :: t in ss;
        ListingIs(ss[1..]);
        HeldIs(s);
      }
    }

    lemma HeldIs(s: Session)
      requires LinksOk() && s in sessions
      ensures Held(Snap(), s) <==> s.client != null
      ensures s in Snap().sess && Snap().sess[s].removed == s.removed && Snap().sess[s].alive == s.alive
    {
      if s.client != null { assert s.client in Snap().conns && Snap().conns[s.client].session == s; }
    }

    /** Every number and length in the listings fits its field. */
    ghost predicate FieldsFit()
      reads `sessions, `groups, `nextId, `nextGroupId, groups`blob
    {
      && instanceId < U64_LIMIT && nextId < U64_LIMIT && nextGroupId < U64_LIMIT && |sessions| < U32_LIMIT && |groups| < U32_LIMIT
      && (forall s <- sessions :: s.pid < U32_LIMIT && s.createdAt < U64_LIMIT && |s.cwd| < U32_LIMIT)
      && (forall g <- groups :: g.createdAt < U64_LIMIT && |g.blob| < U32_LIMIT)
    }

    static lemma {:induction false} InfosFit(ss: seq<Session>)
      requires forall s <- ss :: s.id < U64_LIMIT && s.pid < U32_LIMIT && s.createdAt < U64_LIMIT && |s.cwd| < U32_LIMIT
      ensures forall i <- InfosIn(ss) :: Codec.InfoFits(i)
    {
      if ss != [] {
        assert ss[0] in ss && forall s <- ss[1..] :: s in ss;
        InfosFit(ss[1..]);
      }
    }

    static lemma {:induction false} MembersFit(ss: seq<Session>, gid: nat)
      requires forall s <- ss :: s.id < U64_LIMIT
      ensures Codec.IdsFit(MembersIn(ss, gid)) && |MembersIn(ss, gid)| <= |ss|
    {
      if ss != [] {
        assert ss[0] in ss && forall s <- ss[1..] :: s in ss;
        MembersFit(ss[1..], gid);
      }
    }

    /** What a client decodes from the two replies of one state: both carry the
        daemon's instance; LIST names every session that counts, once; GROUP_LIST
        names every stored group with its blob, once, and the member lists are
        without repetition, disjoint, and the registry's. */
    lemma DecodedListingsAgree()
      requires ListsOk() && BooksOk() && FieldsFit()
      ensures var body := Codec.ListBody(InfosIn(sessions), instanceId); var infos := Codec.ListReply(body).0;
        Codec.TrailingInstance(body) == instanceId && NoDup(InfoIds(infos)) && (forall id :: id in InfoIds(infos) <==> id in reg.member)
        && forall i <- infos :: Describes(i)
      ensures var (inst, gs, cur) := Codec.GroupListReply(Codec.GroupListBody(instanceId, GroupInfosIn(groups, sessions)));
        && inst == instanceId && !cur.err && |gs| == |reg.groups| && (forall g <- gs :: AgreesWith(g, reg))
        && (forall i, j :: 0 <= i < j < |gs| ==> Apart(gs[i], gs[j]))
    {
      hide MembersIn, InfosIn, InfoIds, GroupInfosIn, AgreesWith, Apart, NoDup, Codec.ListReply, Codec.GroupListReply;
      hide Codec.ListBody, Codec.GroupListBody, Codec.TrailingInstance, Registry.Inv, Describes;
      ListingsAgree();
      InfosDescribe(sessions);
      assert forall s <- sessions :: s.id <= nextId;
      InfosFit(sessions);
      MembersOnceEach();
      InfosOnce(sessions);
      Codec.ListRoundTrip(InfosIn(sessions), instanceId);
      GroupsFit();
      Codec.GroupListRoundTrip(instanceId, GroupInfosIn(groups, sessions));
    }

    lemma GroupsFit()
      requires BooksOk() && FieldsFit()
      ensures |GroupInfosIn(groups, sessions)| == |groups| && forall g <- GroupInfosIn(groups, sessions) :: Codec.GroupFits(g)
    {
      hide MembersIn, GroupInfosIn, Registry.Inv;
      assert forall s <- sessions :: s.id <= nextId;
      if groups == [] { GroupInfosNone(); } else { GroupInfosAt(groups, sessions, 0); }
      forall i | 0 <= i < |groups| ensures Codec.GroupFits(GroupInfosIn(groups, sessions)[i]) {
        GroupInfosAt(groups, sessions, i);
        MembersFit(sessions, groups[i].id);
        assert groups[i] in groups && groups[i].id in reg.groups;
        GroupNumbered(groups[i].id);
      }
    }

    lemma GroupNumbered(gid: nat)
      requires BooksOk() && gid in reg.groups
      ensures gid <= nextGroupId
    {
    }

    lemma GroupInfosNone()
      requires groups == []
      ensures GroupInfosIn(groups, sessions) == []
    {
    }

    lemma MembersOnceEach()
      requires ListsOk() && MembersTied()
      ensures forall i, j :: 0 <= i < j < |sessions| ==> sessions[i].id != sessions[j].id
    {
      forall i, j | 0 <= i < j < |sessions| ensures sessions[i].id != sessions[j].id {
        assert sessions[i] in sessions && sessions[j] in sessions;
      }
    }

    // --- dispatch ---

    /** After a request c is still the control connection it was, or has just
        become a data connection with nothing raw received yet. */
    twostate predicate Settled(c: Connection)
      reads this, c
    {
      SameInput(c) && Raised(c) && (c.isData <==> c.session != null) && c.raw == old(c.raw)
      && c.sent == old(c.sent) && old(c.queued) <= c.queued
    }

    /** Sessions may only move from the list to the dead; new ones are new. */
    twostate predicate Aged()
      reads `sessions, `dead, (set s <- sessions :: s.out)
    {
      Ageing() && (forall t <- old(sessions) :: t in sessions || t in dead) && (forall t <- old(dead) :: t in dead)
    }

    /** No session and no ring enters the daemon's reach but a newly allocated one. */
    twostate predicate Ageing()
      reads `sessions, `dead, (set s <- sessions :: s.out)
    {
      && (forall t <- sessions :: t in old(sessions) || fresh(t)) && (forall t <- dead :: t in old(dead) || t in old(sessions) || fresh(t))
      && (forall o <- Rings() :: o in old(Rings()) || fresh(o))
    }

    /** The rings of the listed sessions, and the arrays behind them. */
    ghost function Rings(): set<object>
      reads `sessions, (set s <- sessions :: s.out)
    {
      (set s <- sessions :: s.out as object) + (set s <- sessions :: s.out.buf as object)
    }

    /** Sessions have at most moved from the list to the dead. */
    twostate predicate Shrunk()
      reads this
    {
      && (forall t <- old(sessions) :: t in sessions || t in dead) && (forall t <- old(dead) :: t in dead)
      && (forall t <- sessions :: t in old(sessions)) && (forall t <- dead :: t in old(dead) || t in old(sessions))
    }

    /** Only an ATTACH that finds its session turns c into a data connection. */
    ghost predicate Attaches(q: Codec.Request)
      reads `reg
    {
      q.Attach? && q.id in reg.member
    }

    /** What of this state replies depend on. */
    ghost function Sight(): View
      requires BooksOk() && RingsOk()
      reads this, sessions, groups, (set s <- sessions :: s.out), (set s <- sessions :: s.out.buf)
    {
      View(reg, nextId, instanceId, InfosIn(sessions), GroupInfosIn(groups, sessions),
           map id | id in reg.member :: (byId[id].out.Contents(), byId[id].out.size))
    }

    /** What is seen of a state is what its snapshot holds. */
    lemma SightSees()
      requires Valid()
      ensures Sees(Sight(), Snap())
    {
      hide Snap, InfosIn, Listing, GroupInfosIn, AgreesWith, Apart, RingSeen, Registry.Inv, FlowsOk, LinksOk;
      ListingIs(sessions);
      ListingsAgree();
      GroupsCounted();
      forall id | id in reg.member ensures id in byId && byId[id] in Snap().sess && RingSeen(Sight().rings[id], Snap().sess[byId[id]]) {
        EntryListed(id);
        RingShown(byId[id]);
      }
    }

    lemma GroupsCounted()
      requires GroupsTied()
      ensures |groups| == |reg.groups|
    {
    }

    lemma RingShown(s: Session)
      requires RingsOk() && s in sessions
      ensures s.RingOk() && s in Snap().sess && RingSeen((s.out.Contents(), s.out.size), Snap().sess[s])
    {
      hide LastN, IsSuffix;
    }

    /** The one reply to each request, from the state it finds; for an ATTACH, the
        refusal. */
    ghost function ReplyTo(q: Codec.Request, e: Env): seq<byte>
      requires BooksOk() && RingsOk()
      reads this, sessions, groups, (set s <- sessions :: s.out), (set s <- sessions :: s.out.buf)
    {
      ReplyIn(Sight(), q, e)
    }

    /** The replies to the requests that may move sessions. */
    lemma ReplyIs(q: Codec.Request, e: Env)
      requires BooksOk() && RingsOk()
      ensures q.Create? ==> ReplyTo(q, e) == CreateReply(e, nextId + 1)
      ensures q.Kill? || q.Detach? ==> ReplyTo(q, e) == OkIf(q.id in reg.member, e, "no such session")
      ensures q.Attach? ==> ReplyTo(q, e) == Framed(e.mem, Codec.ERROR, ErrorBody(NOT_FOUND, "no such session"))
    {
      hide EncU64, Framed, ErrorBody, InfosIn, GroupInfosIn;
    }

    /** What a handler of a control connection leaves, told as after any request. */
    twostate lemma KeptSettles(c: Connection)
      requires c in conns && !old(c.isData) && Kept(c) && unchanged(c`raw, c`sent)
      ensures Settled(c) && !c.isData
    {
    }

    twostate lemma ShrunkAges()
      requires Shrunk() && unchanged(`byId, `nextId) && forall t <- old(sessions) :: t.out.buf == old(t.out.buf)
      ensures Aged() && Unspoilt() && Numbering()
    {
      hide Ring.Ring.Valid;
    }

    twostate lemma NoneAged()
      requires unchanged(`sessions, `dead, `groups, `byId, `nextId) && forall t <- old(sessions) :: t.out.buf == old(t.out.buf)
      ensures Aged() && GroupsFrom() && Unspoilt() && Numbering()
    {
    }

    twostate lemma NoneMoved()
      requires unchanged(`sessions, `dead) && forall t <- old(sessions) :: t.out.buf == old(t.out.buf)
      ensures Aged()
    {
    }

    /** The last frame cut off the stream of c is the request q. */
    ghost predicate Asks(c: Connection, q: Codec.Request)
      reads c`frames
    {
      c.frames != [] && var f := c.frames[|c.frames| - 1]; Codec.DecodeRequest(f.kind, f.body) == q
    }

    lemma AskedAndAnswered(c: Connection, id: nat)
      requires Asks(c, Codec.Attach(id)) && HeadStands(c) && c.session != null && c.session.id == id
      ensures Greeted(RecordOf(c))
    {
      hide Codec.DecodeRequest, Announces;
    }

    /** The most that a request on c does to anyone's histories. */
    twostate predicate Confined(c: Connection)
      reads *
    {
      && conns == old(conns) && c in conns && !old(c.isData) && SameInput(c) && Raised(c) && Spared(c)
      && c.sent == old(c.sent) && c.raw == old(c.raw) && old(c.queued) <= c.queued
      && (c.isData ==> Greeted(RecordOf(c)) && c.session != null && c.session in sessions && c.joinedAt == |c.session.output| && c.typedStart == |c.session.typed|)
      && (forall d <- conns :: d != c ==>
           unchanged(d`isData, d`lossy, d`queued, d`sent, d`received, d`frames, d`raw, d`mark, d`start, d`joinedAt, d`typedStart, d`shortReplay, d`head))
      && (forall s: Session | s in old(sessions + dead) ::
           unchanged(s`output, s`typed, s`taken, s`pin, s`inputLost, s.out`starved) && (s.ptyOpen ==> old(s.ptyOpen)))
    }

    /** A request is one step forward, and with memory a lossless one. */
    twostate lemma ConfinedSteps(c: Connection)
      requires Confined(c) && Aged() && Unspoilt() && Registry.Reaches(old(reg), reg) && Numbering()
      ensures Onward(old(Snap()), Snap()) && InputKept(old(Snap()), Snap())
      ensures c.lossy == old(c.lossy) && (c.isData ==> c.head != [] && (c.session.out.starved || !c.shortReplay)) ==> OutputKept(old(Snap()), Snap())
      ensures running == old(running) && old(c.session) == null ==> Aside(old(Snap()), Snap(), c)
    {
      hide Snap, Onward, OutputKept, InputKept, Registry.Reaches, Aside, ConnsMove, SessionsMove, Joining, Numbering, OutputSafe, InputSafe;
      ConfinedOnwards(c);
      ConfinedSafe(c);
      Moved();
      ConfinedBeside(c);
    }

    twostate lemma ConfinedOnwards(c: Connection)
      requires Confined(c) && Aged() && Unspoilt()
      ensures ConnsMove() && SessionsMove() && Joining()
    {
      hide Greeted;
    }

    twostate lemma ConfinedSafe(c: Connection)
      requires Confined(c) && Aged() && Unspoilt()
      ensures InputSafe()
      ensures c.lossy == old(c.lossy) && (c.isData ==> c.head != [] && (c.session.out.starved || !c.shortReplay)) ==> OutputSafe()
    {
      hide Greeted;
    }

    twostate lemma ConfinedBeside(c: Connection)
      requires Confined(c) && Aged()
      ensures running == old(running) && old(c.session) == null ==> Aside(old(Snap()), Snap(), c)
    {
      hide Snap, Aside, Greeted;
      if running == old(running) && old(c.session) == null { Beside(c); }
    }

    /** What a request q on c is answered: one reply, or the opening of the raw
        channel; and a killed or detached session has no client left. */
    twostate predicate Answered(c: Connection, new q: Codec.Request, new e: Env)
      requires old(BooksOk()) && old(RingsOk())
      reads *
    {
      && (c.isData <==> old(Attaches(q))) && (c.isData ==> q.Attach? && c.session != null && c.session.id == q.id)
      && (if c.isData then HeadQueued(c, old(c.queued), c.head) else c.queued == old(c.queued) + old(ReplyTo(q, e)))
      && (q.Attach? ==> AttachDone(c, q.id, e) && (c.isData ==> Joined(c, c.session, e.snapOk)))
      && (q.Kill? && q.id in old(reg).member ==> q.id in byId && Killed(byId[q.id]))
      && (q.Detach? && q.id in old(reg).member ==> q.id in byId && byId[q.id].client == null)
    }

    /** dispatch_frame: every frame is one step of the registry. */
    method Dispatch(c: Connection, q: Codec.Request, e: Env)
      requires Valid() && c in conns && !c.isData && c.reading && c.session == null && Asks(c, q)
      modifies `sessions, `dead, `groups, `reg, `nextId, `byId, `groupOf, `nextGroupId
      modifies sessions`client, sessions`ptyOpen, sessions`defunct, sessions`killing, sessions`removed, sessions`gid, groups`blob
      modifies conns`session, conns`wantClose, c`isData, c`wbuf, c`wpos, c`queued, c`lossy
      modifies c`mark, c`start, c`joinedAt, c`typedStart, c`shortReplay, c`head
      ensures Valid() && Settled(c) && Ageing() && GroupsFrom() && Answered(c, q, e)
      ensures reg == RegAfter(old(reg), q, e, old(nextId)) && nextId == old(nextId) + if q.Create? && e.spawnOk && e.ringOk then 1 else 0
      ensures forall g <- old(reg).groups :: g !in reg.groups <==> Registry.HasMember(old(reg), g) && !Registry.HasMember(reg, g)
      ensures Progress(old(Snap()), Snap(), Ample(e), true) && Goes(old(Snap()), Snap(), c, Target(q))
      ensures Honoured(old(reg), reg, q, e, old(nextId)) && Acted(old(Snap()), Snap(), c, q, e)
    {
      hide ListsOk, LinksOk, RingsOk, FlowsOk, BooksOk, Settled, Ageing, GroupsFrom, Answered, Progress, Goes, Snap;
      hide RegAfter, Registry.HasMember, Honoured, Acted;
      GroupsDestroyed(q, e);
      IsHonoured(q, e);
      match q
      case Create(_) => DispatchCreate(c, q, e);
      case Attach(_) => DispatchAttach(c, q, e);
      case Kill(_) => DispatchKill(c, q, e);
      case Detach(_) => DispatchDetach(c, q, e);
      case _ => DispatchRest(c, q, e);
    }

    method DispatchCreate(c: Connection, q: Codec.Request, e: Env)
      requires Valid() && c in conns && !c.isData && c.session == null && q.Create?
      modifies `sessions, `dead, `groups, `reg, `nextId, `byId, c`wbuf, c`wpos, c`wantClose, c`queued, c`lossy
      ensures Valid() && Settled(c) && Ageing() && GroupsFrom() && Answered(c, q, e)
      ensures reg == RegAfter(old(reg), q, e, old(nextId)) && nextId == old(nextId) + if e.spawnOk && e.ringOk then 1 else 0
      ensures Progress(old(Snap()), Snap(), Ample(e), true) && Goes(old(Snap()), Snap(), c, {}) && Acted(old(Snap()), Snap(), c, q, e)
    {
      hide ListsOk, LinksOk, RingsOk, FlowsOk, BooksOk, Aside, Undisturbed, Snap, Onward, OutputKept, InputKept;
      hide Registry.Step, Registry.Reaches, Registry.SpawnIn, ReplyTo, Ageing, GroupsFrom, Unspoilt, Numbering, Settled, Answered, Acted;
      NextUnused();
      CreateShown(c, q, e);
      KeptSettles(c);
      Registry.ReachesSelf(old(reg));
      Registry.ReachesStep(old(reg), Registry.Spawn(nextId));
      StepIsSpawn(old(reg), nextId);
      ConfinedSteps(c);
      Undisturbs({});
    }

    /** handle_create, answered as any request, and as the snapshots show it. */
    method CreateShown(c: Connection, q: Codec.Request, e: Env)
      requires Valid() && c in conns && !c.isData && c.session == null && q.Create?
      modifies `sessions, `dead, `groups, `reg, `nextId, `byId, c`wbuf, c`wpos, c`wantClose, c`queued, c`lossy
      ensures Valid() && Kept(c) && Aged() && GroupsFrom() && Unspoilt() && Numbering() && (e.mem.queue ==> c.lossy == old(c.lossy))
      ensures nextId == old(nextId) + if e.spawnOk && e.ringOk then 1 else 0
      ensures reg == if e.spawnOk && e.ringOk && e.registerOk then Registry.SpawnIn(old(reg), nextId) else old(reg)
      ensures forall s <- old(sessions + dead) :: s in sessions <==> s in old(sessions)
      ensures Answered(c, q, e) && Acted(old(Snap()), Snap(), c, q, e)
    {
      hide ListsOk, LinksOk, RingsOk, FlowsOk, BooksOk, Snap, Registry.SpawnIn, ReplyTo;
      hide Aged, GroupsFrom, Unspoilt, Numbering, CreateReply, IsChild, Spawned;
      ReplyIs(q, e);
      ListsApart();
      HandleCreate(c, q.args, e);
      SpawnShows((q.args, e));
    }

    /** A CREATE as the two snapshots show it. */
    twostate lemma SpawnShows(x: (Codec.CreateArgs, Env))
      requires old(ListsOk()) && LinksOk() && Aged()
      requires forall t <- old(sessions + dead) :: unchanged(t) && t.out.starved == old(t.out.starved)
      requires if x.1.spawnOk && x.1.ringOk && x.1.registerOk then NewInFront(x.0, x.1) && nextId == old(nextId) + 1 else sessions == old(sessions)
      ensures Spawned(old(Snap()), Snap(), x.0, x.1)
    {
      hide Snap, LinksOk, SessionRecord;
      OldStay();
      assert old(Roll()) == old(Snap()).sess && Roll() == Snap().sess;
      if x.1.spawnOk && x.1.ringOk && x.1.registerOk {
        NobodyHolds(sessions[0]);
        assert sessions[0] in Roll() && sessions[0] !in old(Roll());
      }
    }

    /** The old sessions are where they were, and as they were. */
    twostate lemma OldStay()
      requires old(ListsOk()) && Aged() && forall t <- sessions :: t in old(sessions) || fresh(t)
      requires forall t <- old(sessions) :: t in sessions
      requires forall t <- old(sessions + dead) :: unchanged(t) && t.out.starved == old(t.out.starved)
      ensures forall t :: t in old(Roll()) ==> t in Roll() && Roll()[t] == old(Roll())[t]
    {
      hide Snap, LinksOk;
    }

    lemma NextUnused()
      requires BooksOk()
      ensures nextId + 1 !in reg.member
    {
    }

    /** Nobody is bound to a session without a client. */
    lemma NobodyHolds(s: Session)
      requires LinksOk() && s.client == null
      ensures Unheld(Snap(), s)
    {
    }

    twostate lemma SessionsStay()
      requires Roll() == old(Roll()) && sessions == old(sessions)
      ensures AsListed(old(Snap()), Snap())
    {
      hide Roll, Snap;
    }

    /** A KILL as the two snapshots show it. */
    twostate lemma FelledShows(s: Session)
      requires s in old(sessions) && LinksOk() && ListsOk() && old(ListsOk()) && Felled(s) && Shrunk()
      requires forall t <- old(sessions) :: t != s ==> unchanged(t) && t in sessions
      requires forall t <- old(dead) :: unchanged(t)
      requires forall t <- old(sessions + dead) :: t.out.starved == old(t.out.starved)
      requires unchanged(s`output, s`typed, s`taken, s`pin, s`inputLost)
      ensures Slain(old(Snap()), Snap(), s) && Killed(s) && forall t <- old(sessions + dead) :: t.ptyOpen ==> old(t.ptyOpen)
    {
      hide Without, Snap, Roll, ListsOk, LinksOk, Shrunk, Unheld;
      NobodyHolds(s);
      ListsApart();
      FelledRoll(s);
      assert old(Roll()) == old(Snap()).sess && Roll() == Snap().sess;
    }

    twostate lemma FelledRoll(s: Session)
      requires s in old(sessions) && old(ListsOk()) && Felled(s) && Shrunk()
      requires forall t <- old(sessions) :: t != s ==> unchanged(t) && t in sessions
      requires forall t <- old(dead) :: unchanged(t)
      requires forall t <- old(sessions + dead) :: t.out.starved == old(t.out.starved)
      requires unchanged(s`output, s`typed, s`taken, s`pin, s`inputLost) && (!s.alive ==> s !in sessions)
      ensures s in old(Roll()) && var a := old(Roll())[s];
        a.alive == s.alive && Roll() == old(Roll())[s := if s.alive then a.(removed := true, killing := true) else a.(listed := false, ptyOpen := false, starved := false)]
    {
      hide Without, Snap, SessionRecord, Shrunk;
      FelledRecords(s);
    }

    twostate lemma FelledRecords(s: Session)
      requires s in old(sessions) && old(ListsOk()) && Felled(s) && Shrunk()
      requires forall t <- old(sessions) :: t != s ==> unchanged(t) && t in sessions
      requires forall t <- old(dead) :: unchanged(t)
      requires forall t <- old(sessions + dead) :: t.out.starved == old(t.out.starved)
      requires unchanged(s`output, s`typed, s`taken, s`pin, s`inputLost) && (!s.alive ==> s !in sessions)
      ensures forall t <- old(sessions + dead) :: t != s ==> t in sessions + dead && SessionRecord(t, t in sessions) == old(SessionRecord(t, t in sessions))
      ensures forall t <- sessions + dead :: t in old(sessions + dead)
      ensures s in sessions + dead && var a := old(SessionRecord(s, s in sessions));
        a.alive == s.alive && SessionRecord(s, s in sessions) == if s.alive then a.(removed := true, killing := true) else a.(listed := false, ptyOpen := false, starved := false)
    {
      hide Without, Snap;
    }

    method DispatchKill(c: Connection, q: Codec.Request, e: Env)
      requires Valid() && c in conns && !c.isData && c.session == null && q.Kill?
      modifies `sessions, `dead, `groups, `reg, sessions`client, sessions`ptyOpen, sessions`defunct, sessions`killing, sessions`removed
      modifies conns`session, conns`wantClose, c`wbuf, c`wpos, c`queued, c`lossy
      ensures Valid() && Settled(c) && Ageing() && GroupsFrom() && Answered(c, q, e) && reg == RegAfter(old(reg), q, e, nextId)
      ensures Progress(old(Snap()), Snap(), Ample(e), true) && Goes(old(Snap()), Snap(), c, {q.id}) && Acted(old(Snap()), Snap(), c, q, e)
    {
      hide ListsOk, LinksOk, RingsOk, FlowsOk, BooksOk, Aside, Undisturbed, Snap, Onward, OutputKept, InputKept;
      hide Registry.DropFrom, Registry.Reaches, Registry.Step, Settled, Ageing, Unspoilt, GroupsFrom, Numbering, Confined;
      hide ReplyTo, Answered, Acted;
      StepIsDrop(reg, q.id);
      KillConfined(c, q, e);
      Registry.ReachesStep(old(reg), Registry.Drop(q.id));
      ConfinedSteps(c);
      Undisturbs({q.id});
    }

    /** handle_kill, told as after any request. */
    method KillConfined(c: Connection, q: Codec.Request, e: Env)
      requires Valid() && c in conns && !c.isData && c.session == null && q.Kill?
      modifies `sessions, `dead, `groups, `reg, sessions`client, sessions`ptyOpen, sessions`defunct, sessions`killing, sessions`removed
      modifies conns`session, conns`wantClose, c`wbuf, c`wpos, c`queued, c`lossy
      ensures GroupsFrom() && Valid() && reg == Registry.DropFrom(old(reg), q.id) && (e.mem.queue ==> c.lossy == old(c.lossy))
      ensures Settled(c) && !c.isData && Confined(c) && Aged() && Unspoilt() && Numbering() && Elsewhere(c, q.id)
      ensures Answered(c, q, e) && Acted(old(Snap()), Snap(), c, q, e)
    {
      hide ListsOk, LinksOk, RingsOk, FlowsOk, BooksOk, Snap, ReplyTo, Answered, Acted;
      hide Registry.DropFrom, Elsewhere, Settled, Shrunk, Aged, Unspoilt, GroupsFrom, Numbering, Spared;
      KillShown(c, q, e);
      KeptSettles(c);
      ShrunkAges();
    }

    /** handle_kill, answered as any request, and as the snapshots show it. */
    method KillShown(c: Connection, q: Codec.Request, e: Env)
      requires Valid() && c in conns && !c.isData && c.session == null && q.Kill?
      modifies `sessions, `dead, `groups, `reg, sessions`client, sessions`ptyOpen, sessions`defunct, sessions`killing, sessions`removed
      modifies conns`session, conns`wantClose, c`wbuf, c`wpos, c`queued, c`lossy
      ensures GroupsFrom() && Valid() && Kept(c) && reg == Registry.DropFrom(old(reg), q.id) && (e.mem.queue ==> c.lossy == old(c.lossy))
      ensures Shrunk() && Spared(c) && Elsewhere(c, q.id) && forall t <- old(sessions + dead) :: t.ptyOpen ==> old(t.ptyOpen)
      ensures Answered(c, q, e) && Acted(old(Snap()), Snap(), c, q, e)
    {
      hide ListsOk, LinksOk, RingsOk, FlowsOk, BooksOk, Framed, ErrorBody, Killed, Felled, Snap, Roll, Slain, AsListed;
      hide Registry.DropFrom, Shrunk, Spared, GroupsFrom, ReplyTo;
      ReplyIs(q, e);
      ListsApart();
      IdsOwn(q.id);
      HandleKill(c, q.id, e);
      if q.id in old(reg).member {
        FelledShows(byId[q.id]);
      } else {
        NoneTouched();
        SessionsStay();
      }
    }

    /** No session and no list of them has changed. */
    twostate lemma NoneTouched()
      requires sessions == old(sessions) && dead == old(dead)
      requires forall t <- old(sessions + dead) :: unchanged(t) && t.out.starved == old(t.out.starved)
      ensures Roll() == old(Roll()) && forall t <- old(sessions + dead) :: t.ptyOpen == old(t.ptyOpen)
    {
    }

    lemma IdsOwn(id: nat)
      requires BooksOk()
      ensures id in reg.member ==> id in byId && forall t <- sessions :: t.id == id ==> t == byId[id]
    {
    }

    method DispatchDetach(c: Connection, q: Codec.Request, e: Env)
      requires Valid() && c in conns && !c.isData && c.session == null && q.Detach?
      modifies sessions`client, conns`session, conns`wantClose, c`wbuf, c`wpos, c`queued, c`lossy
      ensures Valid() && Settled(c) && Ageing() && GroupsFrom() && Answered(c, q, e) && reg == RegAfter(reg, q, e, nextId)
      ensures Progress(old(Snap()), Snap(), Ample(e), true) && Goes(old(Snap()), Snap(), c, {q.id}) && Acted(old(Snap()), Snap(), c, q, e)
    {
      hide ListsOk, LinksOk, RingsOk, FlowsOk, BooksOk;
      hide Aside, Undisturbed, Snap, Onward, OutputKept, InputKept, Registry.Reaches;
      hide Spared, Ageing, GroupsFrom, Unspoilt, Numbering, ReplyTo, Settled, Answered, Acted;
      DetachShown(c, q, e);
      KeptSettles(c);
      NoneAged();
      Registry.ReachesSelf(reg);
      ConfinedSteps(c);
      Undisturbs({q.id});
    }

    /** handle_detach, answered as any request, and as the snapshots show it. */
    method DetachShown(c: Connection, q: Codec.Request, e: Env)
      requires Valid() && c in conns && !c.isData && c.session == null && q.Detach?
      modifies sessions`client, conns`session, conns`wantClose, c`wbuf, c`wpos, c`queued, c`lossy
      ensures Valid() && Kept(c) && Spared(c) && Elsewhere(c, q.id) && (e.mem.queue ==> c.lossy == old(c.lossy))
      ensures Answered(c, q, e) && Acted(old(Snap()), Snap(), c, q, e)
    {
      hide ListsOk, LinksOk, RingsOk, FlowsOk, BooksOk, Framed, ErrorBody, Snap, Roll, AsListed, Unheld, Spared, Elsewhere, ReplyTo;
      ReplyIs(q, e);
      HandleDetach(c, q.id, e);
      assert Roll() == old(Roll());
      SessionsStay();
      EntryListed(q.id);
      if q.id in reg.member { NobodyHolds(byId[q.id]); }
    }

    method DispatchAttach(c: Connection, q: Codec.Request, e: Env)
      requires Valid() && c in conns && !c.isData && c.reading && c.session == null && q.Attach? && Asks(c, q)
      modifies sessions`client, conns`session, conns`wantClose, c`isData, c`wbuf, c`wpos, c`queued, c`lossy
      modifies c`mark, c`start, c`joinedAt, c`typedStart, c`shortReplay, c`head
      ensures Valid() && Settled(c) && Ageing() && GroupsFrom() && Answered(c, q, e) && reg == RegAfter(reg, q, e, nextId)
      ensures Progress(old(Snap()), Snap(), Ample(e), true) && Goes(old(Snap()), Snap(), c, {q.id}) && Acted(old(Snap()), Snap(), c, q, e)
    {
      hide ListsOk, LinksOk, RingsOk, FlowsOk, BooksOk, HeadQueued, Framed, ErrorBody, Acted;
      hide Attached, Aside, Undisturbed, Snap, Onward, OutputKept, InputKept;
      hide Registry.Reaches, Ageing, GroupsFrom, Unspoilt, Numbering, Confined, Settled, Answered, ReplyTo;
      AttachShown(c, q, e);
      NoneAged();
      Registry.ReachesSelf(reg);
      ConfinedSteps(c);
      Undisturbs({q.id});
    }

    /** The same, as the snapshots show it. */
    method AttachShown(c: Connection, q: Codec.Request, e: Env)
      requires Valid() && c in conns && !c.isData && c.reading && c.session == null && q.Attach? && Asks(c, q)
      modifies sessions`client, conns`session, conns`wantClose, c`isData, c`wbuf, c`wpos, c`queued, c`lossy
      modifies c`mark, c`start, c`joinedAt, c`typedStart, c`shortReplay, c`head
      ensures Valid() && Settled(c) && Confined(c) && Elsewhere(c, q.id) && (e.mem.queue && e.replayOk ==> c.lossy == old(c.lossy))
      ensures Answered(c, q, e) && (c.isData ==> Joined(c, c.session, e.snapOk) && (e.mem.frame && e.mem.queue ==> c.head != []))
      ensures Acted(old(Snap()), Snap(), c, q, e)
    {
      hide ListsOk, LinksOk, RingsOk, FlowsOk, BooksOk, Settled, Confined, HeadQueued, Snap, Roll, AsListed;
      hide Elsewhere, Asks, Greeted, ReplyTo, Framed, ErrorBody, Attached, Codec.EncInfo, Joined;
      AttachAnswered(c, q, e);
      assert Roll() == old(Roll());
      SessionsStay();
      if c.session != null { HoldsAlone(c); }
    }

    /** A bound connection is the only one bound to its session. */
    lemma HoldsAlone(c: Connection)
      requires LinksOk() && c in conns && c.session != null
      ensures forall d :: d in Snap().conns ==> (Snap().conns[d].session == c.session <==> d == c)
    {
    }

    /** handle_attach, answered as any request. */
    method AttachAnswered(c: Connection, q: Codec.Request, e: Env)
      requires Valid() && c in conns && !c.isData && c.reading && c.session == null && q.Attach? && Asks(c, q)
      modifies sessions`client, conns`session, conns`wantClose, c`isData, c`wbuf, c`wpos, c`queued, c`lossy
      modifies c`mark, c`start, c`joinedAt, c`typedStart, c`shortReplay, c`head
      ensures Valid() && Settled(c) && Confined(c) && Elsewhere(c, q.id) && (e.mem.queue && e.replayOk ==> c.lossy == old(c.lossy))
      ensures Answered(c, q, e) && (c.isData ==> Joined(c, c.session, e.snapOk) && (e.mem.frame && e.mem.queue ==> c.head != []))
    {
      hide ListsOk, LinksOk, RingsOk, FlowsOk, BooksOk, Settled, Confined, HeadQueued;
      hide Elsewhere, Asks, Greeted, ReplyTo, Attached, Framed, ErrorBody, Codec.EncInfo;
      ReplyIs(q, e);
      AttachConfined(c, q.id, e);
    }

    /** handle_attach, told as after any request. */
    method AttachConfined(c: Connection, id: nat, e: Env)
      requires Valid() && c in conns && !c.isData && c.reading && c.session == null && Asks(c, Codec.Attach(id))
      modifies sessions`client, conns`session, conns`wantClose, c`isData, c`wbuf, c`wpos, c`queued, c`lossy
      modifies c`mark, c`start, c`joinedAt, c`typedStart, c`shortReplay, c`head
      ensures Valid() && Settled(c) && Confined(c) && Elsewhere(c, id) && (e.mem.queue && e.replayOk ==> c.lossy == old(c.lossy))
      ensures AttachDone(c, id, e) && (c.isData <==> id in reg.member)
      ensures c.isData ==> c.session != null && c.session.id == id && Joined(c, c.session, e.snapOk) && (e.mem.frame && e.mem.queue ==> c.head != [])
    {
      hide ListsOk, LinksOk, RingsOk, FlowsOk, BooksOk, Spared, Elsewhere, AttachDone, Asks, HeadStands, Greeted;
      HandleAttach(c, id, e);
      BoundIsListed(c);
      if c.isData { AskedAndAnswered(c, id); }
    }

    /** The frames that leave every session where it is: queries, those about
        groups, and those that are refused. */
    method DispatchRest(c: Connection, q: Codec.Request, e: Env)
      requires Valid() && c in conns && !c.isData && c.session == null
      requires !q.Create? && !q.Attach? && !q.Kill? && !q.Detach?
      modifies `groups, `reg, `groupOf, `nextGroupId, sessions`gid, groups`blob
      modifies c`wbuf, c`wpos, c`wantClose, c`queued, c`lossy
      ensures Valid() && Settled(c) && Ageing() && GroupsFrom() && Answered(c, q, e)
      ensures reg == RegAfter(old(reg), q, e, nextId)
      ensures Progress(old(Snap()), Snap(), Ample(e), true) && Goes(old(Snap()), Snap(), c, {}) && Acted(old(Snap()), Snap(), c, q, e)
    {
      hide Settled, Ageing, Valid, RegAfter, ReplyTo, Aside, Undisturbed, Snap, Onward, OutputKept, InputKept, Registry.Reaches, Acted;
      hide Confined, Answered;
      NextFree();
      RegAfterReaches(reg, q, e, nextId);
      AnswerConfined(c, q, e);
      ConfinedSteps(c);
      Undisturbs({});
    }

    /** Any of these, told as after any request. */
    method AnswerConfined(c: Connection, q: Codec.Request, e: Env)
      requires Valid() && c in conns && !c.isData && c.session == null
      requires !q.Create? && !q.Attach? && !q.Kill? && !q.Detach?
      modifies `groups, `reg, `groupOf, `nextGroupId, sessions`gid, groups`blob
      modifies c`wbuf, c`wpos, c`wantClose, c`queued, c`lossy
      ensures GroupsFrom() && Valid() && Settled(c) && !c.isData && Confined(c) && Aged() && (e.mem.queue ==> c.lossy == old(c.lossy))
      ensures reg == RegAfter(old(reg), q, e, nextId) && Answered(c, q, e) && Acted(old(Snap()), Snap(), c, q, e)
    {
      hide Settled, Aged, Valid, RegAfter, ReplyTo, Snap, Acted;
      AnswerShown(c, q, e);
      KeptSettles(c);
      NoneMoved();
    }

    lemma NextFree()
      requires Valid()
      ensures nextId + 1 !in reg.member
    {
    }

    /** A request destroys a group exactly when it takes away its last member. */
    lemma GroupsDestroyed(q: Codec.Request, e: Env)
      requires BooksOk()
      ensures var t := RegAfter(reg, q, e, nextId);
        forall g <- reg.groups :: g !in t.groups <==> Registry.HasMember(reg, g) && !Registry.HasMember(t, g)
    {
      hide Registry.HasMember, RegAfter, Registry.Inv, Registry.Step;
      var t := RegAfter(reg, q, e, nextId);
      NextUnused();
      RegAfterReaches(reg, q, e, nextId);
      if t != reg {
        var op :| t == Registry.Step(reg, op);
        forall g | g in reg.groups { Registry.DestroyedIffLastMemberLeft(reg, op, g); }
      }
    }

    /** Any of these, as the snapshots show it. */
    method AnswerShown(c: Connection, q: Codec.Request, e: Env)
      requires Valid() && c in conns && !c.isData && c.session == null
      requires !q.Create? && !q.Attach? && !q.Kill? && !q.Detach?
      modifies `groups, `reg, `groupOf, `nextGroupId, sessions`gid, groups`blob
      modifies c`wbuf, c`wpos, c`wantClose, c`queued, c`lossy
      ensures GroupsFrom() && Valid() && Kept(c)
      ensures e.mem.queue ==> c.lossy == old(c.lossy)
      ensures reg == RegAfter(old(reg), q, e, nextId)
      ensures c.queued == old(c.queued) + old(ReplyTo(q, e)) && Acted(old(Snap()), Snap(), c, q, e)
    {
      hide Valid, RegAfter, ReplyTo, Snap, Roll, AsListed, Kept;
      Answer(c, q, e);
      assert Roll() == old(Roll());
      SessionsStay();
    }

    lemma IsHonoured(q: Codec.Request, e: Env)
      requires BooksOk()
      ensures Honoured(reg, RegAfter(reg, q, e, nextId), q, e, nextId)
    {
      hide RegAfter, Honoured, Registry.Inv;
      NextUnused();
      RegAfterHonours(reg, q, e, nextId);
    }

    method Answer(c: Connection, q: Codec.Request, e: Env)
      requires Valid() && c in conns && !c.isData && c.session == null
      requires !q.Create? && !q.Attach? && !q.Kill? && !q.Detach?
      modifies `groups, `reg, `groupOf, `nextGroupId, sessions`gid, groups`blob
      modifies c`wbuf, c`wpos, c`wantClose, c`queued, c`lossy
      ensures GroupsFrom() && Valid() && Kept(c)
      ensures e.mem.queue ==> c.lossy == old(c.lossy)
      ensures reg == RegAfter(old(reg), q, e, nextId)
      ensures c.queued == old(c.queued) + old(ReplyTo(q, e))
    {
      hide ListsOk, LinksOk, RingsOk, FlowsOk, BooksOk, RegAfter, ReplyTo, Kept;
      if q.GroupNew? || q.GroupSet? || q.GroupAdd? || q.GroupRemove? {
        AnswerGroup(c, q, e);
      } else {
        AnswerQuery(c, q, e);
      }
    }

    method AnswerQuery(c: Connection, q: Codec.Request, e: Env)
      requires Valid() && c in conns && !c.isData && c.session == null
      requires q.List? || q.Resize? || q.Peek? || q.GroupList? || q.BadRequest? || q.Unknown?
      modifies c`wbuf, c`wpos, c`wantClose, c`queued, c`lossy
      ensures Valid() && Kept(c) && reg == RegAfter(reg, q, e, nextId)
      ensures e.mem.queue ==> c.lossy == old(c.lossy)
      ensures c.queued == old(c.queued) + old(ReplyTo(q, e))
    {
      hide ListsOk, LinksOk, RingsOk, FlowsOk, BooksOk, Framed, ErrorBody, GroupInfosIn, InfosIn, PeekBody, LastN, Kept;
      match q
      case List => HandleList(c, e);
      case Resize(id, _, _) => HandleResize(c, id, e);
      case Peek(id, m) => HandlePeek(c, id, m, e);
      case GroupList => HandleGroupList(c, e);
      case BadRequest(kind) => Fail(c, PROTOCOL, MalformedText(kind), e.mem);
      case Unknown => Fail(c, PROTOCOL, "unknown message type", e.mem);
    }

    method AnswerGroup(c: Connection, q: Codec.Request, e: Env)
      requires Valid() && c in conns && !c.isData && c.session == null && (q.GroupNew? || q.GroupSet? || q.GroupAdd? || q.GroupRemove?)
      modifies `groups, `reg, `groupOf, `nextGroupId, sessions`gid, groups`blob
      modifies c`wbuf, c`wpos, c`wantClose, c`queued, c`lossy
      ensures GroupsFrom() && Valid() && Kept(c)
      ensures e.mem.queue ==> c.lossy == old(c.lossy)
      ensures reg == RegAfter(old(reg), q, e, nextId)
      ensures c.queued == old(c.queued) + old(ReplyTo(q, e))
    {
      hide ListsOk, LinksOk, RingsOk, FlowsOk, BooksOk, Framed, ErrorBody, EncU64, GroupInfosIn, InfosIn;
      hide Registry.MoveTo, Registry.LeaveGroup, Registry.SetBlobIn, Registry.NewGroupIn, Kept;
      match q
      case GroupNew(b) => HandleGroupNew(c, b, e);
      case GroupSet(gid, b) => HandleGroupSet(c, gid, b, e);
      case GroupAdd(gid, sid) => HandleGroupAdd(c, gid, sid, e);
      case GroupRemove(sid) => HandleGroupRemove(c, sid, e);
    }

    // --- reading from a client ---

    /** data_to_pty: bytes for a channel whose session is gone are dropped. */
    method DataToPty(c: Connection, data: seq<byte>, e: Env)
      requires LinksOk() && FlowsOk() && c in conns && c.isData && (c.reading ==> c.used <= |c.rbuf| && data == c.rbuf[c.used..])
      modifies c`raw, c`received, c`used, BoundTo(c)`pin, BoundTo(c)`typed, BoundTo(c)`taken, BoundTo(c)`inputLost
      ensures FlowsOk() && c.raw == old(c.raw) + data
      ensures if c.reading then c.received == old(c.received) && c.used == |c.rbuf| else c.received == old(c.received) + data && c.used == old(c.used)
      ensures forall s <- BoundTo(c) :: s.typed == old(s.typed) + data && Queued(s, data, e.inputOk, e.ws)
      ensures Progress(old(Snap()), Snap(), true, Calm(e))
      ensures SameTalk(old(Snap()), Snap(), c)
    {
      hide SameTalk, Snap, Onward, OutputKept, InputKept, FlowsOk, LinksOk, TypedOnly;
      if Calm(e) && c.session != null { CleanDrains(|c.session.pin + data|, e.ws); }
      BoundIsListed(c);
      HandBytes(c, data, e);
      assert c.session != null ==> c.session in BoundTo(c);
      TypedMoves(c);
      TypedGoes(c);
    }

    /** Raw bytes of c have been handed on, and nothing else has happened. */
    twostate predicate TypedOnly(c: Connection)
      reads *
    {
      && unchanged(this) && c in conns && c.isData && old(c.raw) <= c.raw && old(c.received) <= c.received
      && unchanged(c`session, c`isData, c`wantClose, c`lossy, c`queued, c`sent, c`frames, c`mark, c`start, c`joinedAt, c`typedStart, c`shortReplay, c`head)
      && (forall d <- conns :: d != c ==> unchanged(d))
      && (forall s: Session | s in sessions + dead ::
           unchanged(s`output, s`ptyOpen, s`alive, s`removed, s`killing, s.out`starved) && (s != c.session ==> unchanged(s)))
      && (c.session != null ==> old(c.session.typed) <= c.session.typed && old(c.session.taken) <= c.session.taken)
      && (c.session != null && old(c.session.inputLost) ==> c.session.inputLost)
    }

    twostate lemma TypedMoves(c: Connection)
      requires TypedOnly(c)
      ensures Onward(old(Snap()), Snap()) && OutputKept(old(Snap()), Snap())
      ensures (c.session != null && c.session.inputLost && c.session.ptyOpen ==> old(c.session.inputLost)) ==> InputKept(old(Snap()), Snap())
    {
      hide Snap, Onward, OutputKept, InputKept, Registry.Reaches, ConnsMove;
      hide SessionsMove, Joining, Numbering, OutputSafe, InputSafe, TypedOnly;
      TypedOnwards(c);
      TypedSafe(c);
      Registry.ReachesSelf(reg);
      Moved();
    }

    twostate lemma TypedOnwards(c: Connection)
      requires TypedOnly(c)
      ensures ConnsMove() && SessionsMove() && Joining() && Numbering() && reg == old(reg)
    {
    }

    twostate lemma TypedSafe(c: Connection)
      requires TypedOnly(c)
      ensures OutputSafe()
      ensures (c.session != null && c.session.inputLost && c.session.ptyOpen ==> old(c.session.inputLost)) ==> InputSafe()
    {
    }

    twostate lemma TypedGoes(c: Connection)
      requires TypedOnly(c)
      ensures SameTalk(old(Snap()), Snap(), c)
    {
      hide Undisturbed, Aside, Snap;
      Beside(c);
      Undisturbs({});
      SnapConn(c);
    }

    method HandBytes(c: Connection, data: seq<byte>, e: Env)
      requires LinksOk() && FlowsOk() && c in conns && c.isData && (c.reading ==> c.used <= |c.rbuf| && data == c.rbuf[c.used..])
      modifies c`raw, c`received, c`used, BoundTo(c)`pin, BoundTo(c)`typed, BoundTo(c)`taken, BoundTo(c)`inputLost
      ensures FlowsOk() && c.raw == old(c.raw) + data && TypedOnly(c)
      ensures if c.reading then c.received == old(c.received) && c.used == |c.rbuf| else c.received == old(c.received) + data && c.used == old(c.used)
      ensures forall s <- BoundTo(c) :: s.typed == old(s.typed) + data && Queued(s, data, e.inputOk, e.ws)
    {
      hide FlowsOk, LinksOk, Drain;
      BoundIsListed(c);
      assert (c.session != null ==> c.session in BoundTo(c)) && forall s <- BoundTo(c) :: s == c.session;
      PassOn(c, data, e);
      assert c.session != null ==> c.session in BoundTo(c);
    }

    method PassOn(c: Connection, data: seq<byte>, e: Env)
      requires LinksOk() && FlowsOk() && c in conns && c.isData && (c.reading ==> c.used <= |c.rbuf| && data == c.rbuf[c.used..])
      modifies c`raw, c`received, c`used, BoundTo(c)`pin, BoundTo(c)`typed, BoundTo(c)`taken, BoundTo(c)`inputLost
      ensures FlowsOk() && c.raw == old(c.raw) + data
      ensures if c.reading then c.received == old(c.received) && c.used == |c.rbuf| else c.received == old(c.received) + data && c.used == old(c.used)
      ensures forall s <- BoundTo(c) :: s.typed == old(s.typed) + data && Queued(s, data, e.inputOk, e.ws)
    {
      hide Tapped, Waiting, Parse, Queued, Connection.OutOk, Connection.OpenOk, Session.InOk, Connection.CutOk;
      if c.session == null {
        c.HandOn(data);
        return;
      }
      PassInput(c, c.session, data, e.inputOk, e.ws);
    }

    /** Only c has moved on, and it is bound as it was. */
    twostate predicate ConnOnly(c: Connection)
      reads *
    {
      && unchanged(this) && c in conns && Lifted(c)
      && unchanged(c`session, c`isData, c`mark, c`start, c`joinedAt, c`typedStart, c`shortReplay, c`head) && (c.isData ==> unchanged(c`frames))
      && old(c.queued) <= c.queued && old(c.sent) <= c.sent && old(c.received) <= c.received && old(c.frames) <= c.frames && old(c.raw) <= c.raw
      && (forall d <- conns :: d != c ==> unchanged(d))
      && (forall s: Session | s in sessions + dead ::
           unchanged(s`output, s`typed, s`taken, s`pin, s`inputLost, s`ptyOpen, s`alive, s`removed, s`killing, s.out`starved))
    }

    twostate lemma ConnMoves(c: Connection)
      requires ConnOnly(c)
      ensures Onward(old(Snap()), Snap()) && InputKept(old(Snap()), Snap())
      ensures c.lossy == old(c.lossy) ==> OutputKept(old(Snap()), Snap())
    {
      hide Snap, Onward, OutputKept, InputKept, Registry.Reaches, ConnsMove;
      hide SessionsMove, Joining, Numbering, OutputSafe, InputSafe, ConnOnly;
      ConnOnwards(c);
      ConnSafe(c);
      Registry.ReachesSelf(reg);
      Moved();
    }

    twostate lemma ConnOnwards(c: Connection)
      requires ConnOnly(c)
      ensures ConnsMove() && SessionsMove() && Joining() && Numbering() && reg == old(reg)
    {
    }

    twostate lemma ConnSafe(c: Connection)
      requires ConnOnly(c)
      ensures InputSafe() && (c.lossy == old(c.lossy) ==> OutputSafe())
    {
    }

    twostate lemma ConnGoes(c: Connection)
      requires ConnOnly(c)
      ensures Goes(old(Snap()), Snap(), c, {}) && c in old(Snap()).conns && c in Snap().conns && Books(Snap()) == Books(old(Snap()))
      ensures old(Snap()).conns[c] == old(RecordOf(c)) && Snap().conns[c] == RecordOf(c)
    {
      hide Undisturbed, Aside, Snap;
      Beside(c);
      Undisturbs({});
      SnapConn(c);
    }

    /** The list of connections has changed, or dead sessions have been freed, and
        nothing else. */
    twostate predicate ListOnly()
      reads *
    {
      && unchanged(`sessions, `reg, `byId, `nextId) && (forall s <- dead :: s in old(dead))
      && (forall d <- conns :: if d in old(conns) then unchanged(d) else !d.isData && !d.lossy)
      && (forall s: Session | s in sessions + dead ::
           unchanged(s`output, s`typed, s`taken, s`pin, s`inputLost, s`ptyOpen, s`alive, s`removed, s`killing, s.out`starved))
    }

    twostate lemma ListMoves()
      requires ListOnly()
      ensures Onward(old(Snap()), Snap()) && OutputKept(old(Snap()), Snap()) && InputKept(old(Snap()), Snap())
    {
      hide Snap, Onward, OutputKept, InputKept, Registry.Reaches, ConnsMove;
      hide SessionsMove, Joining, Numbering, OutputSafe, InputSafe, ListOnly;
      ListOnwards();
      ListSafe();
      Registry.ReachesSelf(reg);
      Moved();
    }

    twostate lemma ListOnwards()
      requires ListOnly()
      ensures ConnsMove() && SessionsMove() && Joining() && Numbering() && reg == old(reg)
    {
    }

    twostate lemma ListSafe()
      requires ListOnly()
      ensures OutputSafe() && InputSafe()
    {
    }

    method AccumulateOn(c: Connection, bytes: seq<byte>)
      requires FlowsOk() && c in conns && !c.isData && !c.reading
      modifies c`rbuf, c`received, c`reading
      ensures FlowsOk() && c.reading && c.used == 0 && c.rbuf == old(c.rbuf) + bytes && c.received == old(c.received) + bytes
      ensures Progress(old(Snap()), Snap(), true, true) && SameTalk(old(Snap()), Snap(), c)
    {
      hide Goes, Snap, Onward, OutputKept, InputKept, Registry.Reaches, Tapped;
      hide Waiting, Parse, Connection.OutOk, Session.InOk, Connection.CutOk, Connection.OpenOk;
      c.Accumulate(bytes);
      ConnMoves(c);
      ConnGoes(c);
    }

    ghost method CutFrontOn(c: Connection)
      requires FlowsOk() && c in conns && !c.isData && c.reading && Ready(c.rbuf[c.used..])
      modifies c`frames, c`consumed, c`used
      ensures FlowsOk() && c.frames == old(c.frames) + [FrontFrame(old(c.rbuf[c.used..]))]
      ensures c.used == old(c.used) + FrontSize(old(c.rbuf[c.used..])) <= |c.rbuf|
      ensures Progress(old(Snap()), Snap(), true, true) && Goes(old(Snap()), Snap(), c, {})
    {
      hide Goes, Snap, Onward, OutputKept, InputKept, Registry.Reaches, Tapped, Waiting;
      hide Parse, Ready, FrontFrame, FrontSize, Connection.OutOk, Session.InOk, Connection.OpenOk;
      c.CutFrame();
      ConnMoves(c);
      ConnGoes(c);
    }

    method TrimOn(c: Connection, n: nat)
      requires Valid() && c in conns && !c.isData && c.reading && n == c.used <= |c.rbuf|
      requires !c.wantClose ==> Waiting(c.rbuf[n..])
      modifies c`rbuf, c`reading, c`used
      ensures Valid() && !c.reading
    {
      hide ListsOk, LinksOk, RingsOk, BooksOk, Tapped, Waiting, Parse, Connection.OutOk, Session.InOk, Connection.CutOk, Connection.OpenOk;
      c.Trim(n);
    }

    method DropInboundOn(c: Connection)
      requires Valid() && c in conns && c.isData && c.used == |c.rbuf|
      modifies c`rbuf, c`reading, c`used
      ensures Valid() && !c.reading && c.rbuf == []
    {
      hide ListsOk, LinksOk, RingsOk, BooksOk, Tapped, Waiting, Parse, Connection.OutOk, Session.InOk, Connection.CutOk, Connection.OpenOk;
      c.DropInbound();
    }

    method CloseSoon(c: Connection)
      requires FlowsOk() && c in conns
      modifies c`wantClose
      ensures FlowsOk() && c.wantClose
      ensures Progress(old(Snap()), Snap(), true, true) && SameTalk(old(Snap()), Snap(), c)
    {
      hide Goes, Snap, Onward, OutputKept, InputKept, Registry.Reaches;
      hide Tapped, Waiting, Parse, Connection.OutOk, Session.InOk, Connection.CutOk;
      c.wantClose := true;
      ConnMoves(c);
      ConnGoes(c);
    }

    /** The frame at the front of the undispatched bytes of c has been served. */
    twostate predicate Advanced(c: Connection)
      requires old(c.used) <= |old(c.rbuf)| && Ready(old(c.rbuf[c.used..]))
      reads c
    {
      && c.reading && c.rbuf == old(c.rbuf) && (old(c.wantClose) ==> c.wantClose) && (c.isData <==> c.session != null)
      && c.used == old(c.used) + FrontSize(old(c.rbuf[c.used..])) <= |c.rbuf|
    }

    /** The frame at the front of the undispatched bytes is cut off and dispatched:
        one loop round of conn_read. */
    method DispatchFront(c: Connection, used: nat, e: Env) returns (ghost r: Round)
      requires Valid() && c in conns && !c.isData && c.session == null && c.reading && used == c.used <= |c.rbuf| && Ready(c.rbuf[used..])
      modifies `sessions, `dead, `groups, `reg, `nextId, `byId, `groupOf, `nextGroupId
      modifies sessions`client, sessions`ptyOpen, sessions`defunct, sessions`killing, sessions`removed, sessions`gid, groups`blob
      modifies conns`session, conns`wantClose, c`isData, c`wbuf, c`wpos, c`queued, c`lossy
      modifies c`mark, c`start, c`joinedAt, c`typedStart, c`shortReplay, c`head, c`frames, c`consumed, c`used
      ensures Valid() && Ageing() && GroupsFrom() && Advanced(c)
      ensures r == Serves(FrontFrame(old(c.rbuf[c.used..])), old(Sight())) && RoundOf(old(Snap()), Snap(), c, r, e)
      ensures Progress(old(Snap()), Snap(), Ample(e), true)
    {
      hide ListsOk, LinksOk, RingsOk, FlowsOk, BooksOk, Ready, FrontFrame, FrontSize, BooksAfter, Served;
      hide Sight, Sound, Snap, Progress, Goes, RoundOf, Ageing, CutThenServed, Sees;
      ghost var p, v, f := Snap(), Sight(), FrontFrame(c.rbuf[used..]);
      r := Serves(f, v);
      SightSees();
      NotData(c);
      ghost var q := CutAndDispatch(c, used, e);
      SnapSound();
      ServedRound(p, q, Snap(), c, f, v, e);
    }

    /** The same, with the snapshot between the cut and the dispatch. */
    method CutAndDispatch(c: Connection, used: nat, e: Env) returns (ghost q: Snapshot)
      requires Valid() && c in conns && !c.isData && c.session == null && c.reading && used == c.used <= |c.rbuf| && Ready(c.rbuf[used..])
      modifies `sessions, `dead, `groups, `reg, `nextId, `byId, `groupOf, `nextGroupId
      modifies sessions`client, sessions`ptyOpen, sessions`defunct, sessions`killing, sessions`removed, sessions`gid, groups`blob
      modifies conns`session, conns`wantClose, c`isData, c`wbuf, c`wpos, c`queued, c`lossy
      modifies c`mark, c`start, c`joinedAt, c`typedStart, c`shortReplay, c`head, c`frames, c`consumed, c`used
      ensures Valid() && Ageing() && GroupsFrom() && Advanced(c)
      ensures CutThenServed(old(Snap()), q, Snap(), c, FrontFrame(old(c.rbuf[c.used..])), old(Sight()), e)
    {
      hide Valid, BooksOk, RingsOk, Ready, FrontFrame, FrontSize, FrameCut, ServedNext, Sight, Snap, Rings;
      ValidParts();
      ghost var v := Sight();
      var f := FrontFrame(c.rbuf[used..]);
      q := CutOnly(c);
      assert Rings() == old(Rings());
      DispatchCut(c, f, e, q, v);
    }

    /** The cut alone: nothing but the frames of c shows in the snapshot. */
    ghost method CutOnly(c: Connection) returns (q: Snapshot)
      requires Valid() && c in conns && !c.isData && c.reading && c.used <= |c.rbuf| && Ready(c.rbuf[c.used..])
      modifies c`frames, c`consumed, c`used
      ensures Valid() && q == Snap() && Sight() == old(Sight())
      ensures c.frames == old(c.frames) + [FrontFrame(old(c.rbuf[c.used..]))] && c.used == old(c.used) + FrontSize(old(c.rbuf[c.used..])) <= |c.rbuf|
      ensures FrameCut(old(Snap()), q, c, FrontFrame(old(c.rbuf[c.used..])))
    {
      hide ListsOk, LinksOk, RingsOk, FlowsOk, BooksOk, Ready, FrontFrame, FrontSize, Sight, Sound, Snap, Progress, Goes, Roll, AsListed;
      CutFrontOn(c);
      assert Roll() == old(Roll());
      SessionsStay();
      SnapSound();
      SnapConn(c);
      q := Snap();
    }

    /** The frame last cut off is dispatched. */
    method DispatchCut(c: Connection, f: Frame, e: Env, ghost p: Snapshot, ghost v: View)
      requires Valid() && c in conns && !c.isData && c.session == null && c.reading && c.frames != [] && c.frames[|c.frames| - 1] == f
      requires p == Snap() && v == Sight()
      modifies `sessions, `dead, `groups, `reg, `nextId, `byId, `groupOf, `nextGroupId
      modifies sessions`client, sessions`ptyOpen, sessions`defunct, sessions`killing, sessions`removed, sessions`gid, groups`blob
      modifies conns`session, conns`wantClose, c`isData, c`wbuf, c`wpos, c`queued, c`lossy
      modifies c`mark, c`start, c`joinedAt, c`typedStart, c`shortReplay, c`head
      ensures GroupsFrom()
      ensures Valid() && Ageing() && SameInput(c) && (old(c.wantClose) ==> c.wantClose) && (c.isData <==> c.session != null)
      ensures ServedNext(p, Snap(), c, f, v, e)
    {
      hide ListsOk, LinksOk, RingsOk, FlowsOk, BooksOk, RegAfter, Codec.DecodeRequest, ReplyIn, ReplyTo, Joined, AttachDone, Sight;
      hide Registry.HasMember, Asks, Snap, Progress, Goes, Honoured, Acted, Settled, Reasons;
      var q := Codec.DecodeRequest(f.kind, f.body);
      LastAsks(c, f);
      SightTells();
      SightReplies(q, e);
      Dispatch(c, q, e);
      SettledReasons(c);
      SnapConn(c);
    }

    twostate lemma SettledReasons(c: Connection)
      requires Settled(c)
      ensures SameInput(c) && (old(c.wantClose) ==> c.wantClose) && (c.isData <==> c.session != null)
      ensures Reasons(old(RecordOf(c)), RecordOf(c), false)
    {
    }

    lemma ValidLinks()
      requires Valid()
      ensures LinksOk()
    {
      hide LinksOk;
    }

    lemma ValidParts()
      requires Valid()
      ensures BooksOk() && RingsOk()
    {
      hide BooksOk, RingsOk;
    }

    lemma SightTells()
      requires BooksOk() && RingsOk()
      ensures Sight().reg == reg && Sight().nextId == nextId
    {
    }

    lemma SightReplies(q: Codec.Request, e: Env)
      requires BooksOk() && RingsOk()
      ensures ReplyTo(q, e) == ReplyIn(Sight(), q, e)
    {
    }

    lemma LastAsks(c: Connection, f: Frame)
      requires c.frames != [] && c.frames[|c.frames| - 1] == f
      ensures Asks(c, Codec.DecodeRequest(f.kind, f.body))
    {
    }

    /** send_error, and the connection is to be closed. */
    method RefuseFrame(c: Connection, code: nat, msg: string, e: Env) returns (ghost r: Round)
      requires Valid() && c in conns && c.session == null && !c.isData
      requires (code == PROTOCOL && msg == "short frame") || (code == TOO_LARGE && msg == "frame too large")
      modifies c`wbuf, c`wpos, c`wantClose, c`queued, c`lossy
      ensures Valid() && c.wantClose && r == Refuses(Framed(e.mem, Codec.ERROR, ErrorBody(code, msg)))
      ensures Progress(old(Snap()), Snap(), Ample(e), true) && RoundOf(old(Snap()), Snap(), c, r, e)
    {
      hide ListsOk, LinksOk, RingsOk, FlowsOk, BooksOk, Framed, ErrorBody, Goes, Snap, Onward, OutputKept, InputKept, ConnOnly, Reasons;
      r := Refuses(Framed(e.mem, Codec.ERROR, ErrorBody(code, msg)));
      FailAndClose(c, code, msg, e.mem);
      ConnMoves(c);
      ConnGoes(c);
    }

    method FailAndClose(c: Connection, code: nat, msg: string, m: Memory)
      requires Valid() && c in conns && c.session == null
      modifies c`wbuf, c`wpos, c`wantClose, c`queued, c`lossy
      ensures Valid() && c.wantClose && c.queued == old(c.queued) + Framed(m, Codec.ERROR, ErrorBody(code, msg))
      ensures ConnOnly(c) && (m.queue ==> c.lossy == old(c.lossy)) && Reasons(old(RecordOf(c)), RecordOf(c), true)
    {
      hide ListsOk, LinksOk, RingsOk, FlowsOk, BooksOk, Framed, ErrorBody, Progress, SameTalk, Snap;
      Fail(c, code, msg, m);
      CloseSoon(c);
    }

    /** One round of the parse loop of conn_read, at offset `used`: refuse, wait, or
        dispatch. The loop goes on only behind a dispatched frame. */
    method ParseRound(c: Connection, used: nat, e: Env) returns (next: nat, more: bool, ghost r: Round)
      requires Valid() && c in conns && !c.isData && c.session == null && c.reading && used == c.used && used + 4 <= |c.rbuf|
      modifies `sessions, `dead, `groups, `reg, `nextId, `byId, `groupOf, `nextGroupId
      modifies sessions`client, sessions`ptyOpen, sessions`defunct, sessions`killing, sessions`removed, sessions`gid, groups`blob
      modifies conns`session, conns`wantClose, c`isData, c`wbuf, c`wpos, c`queued, c`lossy
      modifies c`mark, c`start, c`joinedAt, c`typedStart, c`shortReplay, c`head, c`frames, c`consumed, c`used
      ensures Valid() && Ageing() && GroupsFrom() && c.reading && c.rbuf == old(c.rbuf) && next == c.used <= |c.rbuf|
      ensures c.isData <==> c.session != null
      ensures next >= used && (more ==> next > used && !c.isData && !c.wantClose && r.Serves?)
      ensures !more && !c.isData && !c.wantClose ==> Waiting(c.rbuf[next..])
      ensures Progress(old(Snap()), Snap(), Ample(e), true) && RoundOf(old(Snap()), Snap(), c, r, e)
    {
      hide ListsOk, LinksOk, RingsOk, FlowsOk, BooksOk, FrontFrame, Sight, ErrorBody, Framed, RoundOf, Snap, Progress;
      next, more, r := used, false, Waits;
      var front := c.rbuf[used..];
      var flen := WordAt(front, 0);
      if flen < 4 {
        r := RefuseFrame(c, PROTOCOL, "short frame", e);
        return;
      }
      if flen > MAX_FRAME {
        r := RefuseFrame(c, TOO_LARGE, "frame too large", e);
        return;
      }
      if |front| - 4 < flen {
        NothingYet(c, e);
        return;
      }
      r := DispatchFront(c, used, e);
      next := used + 4 + flen;
      more := !c.isData && !c.wantClose;
    }

    lemma NothingYet(c: Connection, e: Env)
      requires Valid() && c in conns && !c.isData
      ensures Progress(Snap(), Snap(), Ample(e), true) && RoundOf(Snap(), Snap(), c, Waits, e)
    {
      hide ListsOk, LinksOk, RingsOk, FlowsOk, BooksOk, Sound, Progress;
      SnapSound();
      ProgressSelf(Snap());
      ProgressWeaken(Snap(), Snap(), Ample(e), true);
    }

    /** One more round, seen from an earlier state. */
    method ParseMore(c: Connection, used: nat, e: Env, ghost p: Snapshot, ghost ample: bool, ghost t: Talk, ghost envs: nat -> Env, ghost a: ConnRecord)
      returns (next: nat, more: bool, ghost u: Talk)
      requires Valid() && c in conns && !c.isData && c.session == null && c.reading && used == c.used && used + 4 <= |c.rbuf|
      requires Progress(p, Snap(), ample, true) && (ample ==> Ample(e))
      requires Conversed(p, Snap(), c, t, envs) && t.why == [] && c in p.conns && !p.conns[c].isData && e == envs(|t.fs|)
      requires Reasons(a, RecordOf(c), t.refused)
      modifies `sessions, `dead, `groups, `reg, `nextId, `byId, `groupOf, `nextGroupId
      modifies sessions`client, sessions`ptyOpen, sessions`defunct, sessions`killing, sessions`removed, sessions`gid, groups`blob
      modifies conns`session, conns`wantClose, c`isData, c`wbuf, c`wpos, c`queued, c`lossy
      modifies c`mark, c`start, c`joinedAt, c`typedStart, c`shortReplay, c`head, c`frames, c`consumed, c`used
      ensures Valid() && Ageing() && GroupsFrom() && c.reading && c.rbuf == old(c.rbuf) && next == c.used <= |c.rbuf|
      ensures c.isData <==> c.session != null
      ensures next >= used && (more ==> next > used && !c.isData && !c.wantClose && u.why == [] && |u.fs| == |t.fs| + 1)
      ensures !more && !c.isData && !c.wantClose ==> Waiting(c.rbuf[next..])
      ensures Progress(p, Snap(), ample, true) && Conversed(p, Snap(), c, u, envs) && Reasons(a, RecordOf(c), u.refused)
    {
      hide ListsOk, LinksOk, RingsOk, FlowsOk, BooksOk, Sound, Snap, Progress, RoundOf, Conversed, Waiting, Reasons, RecordOf;
      ghost var q, r, b := Snap(), Waits, RecordOf(c);
      SnapSound();
      next, more, r := ParseRound(c, used, e);
      SnapConn(c);
      RoundReasons(q, Snap(), c, r, e);
      ReasonsTrans(a, b, RecordOf(c), t.refused, r.Refuses?);
      SnapSound();
      u := Then(t, r);
      ConversedMore(p, q, Snap(), c, t, r, envs);
      TalkedBetween(p, q, Snap(), c, t, r, envs);
      ProgressLess(q, Snap(), Ample(e), true, ample, true);
      ProgressTrans(p, q, Snap(), ample, true);
    }

    /** The parse loop of conn_read. It leaves the offset up to which the buffer has
        been dispatched; the environment of the i-th frame is envs(i). */
    method ParseLoop(c: Connection, envs: nat -> Env, ghost p: Snapshot, ghost a: ConnRecord) returns (used: nat, ghost t: Talk)
      requires Valid() && c in conns && !c.isData && c.session == null && c.reading && c.used == 0
      requires Progress(p, Snap(), true, true) && SameTalk(p, Snap(), c) && Reasons(a, RecordOf(c), false)
      modifies `sessions, `dead, `groups, `reg, `nextId, `byId, `groupOf, `nextGroupId
      modifies sessions`client, sessions`ptyOpen, sessions`defunct, sessions`killing, sessions`removed, sessions`gid, groups`blob
      modifies conns`session, conns`wantClose, c`isData, c`wbuf, c`wpos, c`queued, c`lossy
      modifies c`mark, c`start, c`joinedAt, c`typedStart, c`shortReplay, c`head, c`frames, c`consumed, c`used
      ensures (forall s <- sessions :: s in old(sessions) || fresh(s)) && (forall s <- dead :: s in old(dead) || s in old(sessions) || fresh(s))
      ensures forall o <- Rings() :: o in old(Rings()) || fresh(o)
      ensures Valid() && GroupsFrom() && c.reading && c.rbuf == old(c.rbuf) && used == c.used <= |c.rbuf|
      ensures c.isData <==> c.session != null
      ensures !c.isData && !c.wantClose ==> Waiting(c.rbuf[used..])
      ensures Progress(p, Snap(), AmpleAll(envs), true) && Conversed(p, Snap(), c, t, envs) && Reasons(a, RecordOf(c), t.refused)
    {
      hide ListsOk, LinksOk, RingsOk, FlowsOk, BooksOk, Conversed, Goes, Waiting, Snap, Progress, Rings, Reasons;
      ghost var ample := AmpleAll(envs);
      ProgressWeaken(p, Snap(), ample, true);
      ConversedNot(p, Snap(), c, envs);
      NotData(c);
      assert c in p.conns && !p.conns[c].isData;
      hide SameTalk;
      used, t := 0, Talk([], [], [], false);
      var i, more := 0, true;
      while more && |c.rbuf| - used >= 4
        invariant (forall s <- sessions :: s in old(sessions) || fresh(s)) && (forall s <- dead :: s in old(dead) || s in old(sessions) || fresh(s))
        invariant forall o <- Rings() :: o in old(Rings()) || fresh(o)
        invariant Valid() && GroupsFrom() && c in conns && c.reading
        invariant c.rbuf == old(c.rbuf) && used == c.used <= |c.rbuf|
        invariant (c.isData <==> c.session != null) && (c.isData ==> !more)
        invariant Progress(p, Snap(), ample, true) && Conversed(p, Snap(), c, t, envs) && Reasons(a, RecordOf(c), t.refused)
        invariant !more && !c.isData && !c.wantClose ==> Waiting(c.rbuf[used..])
        invariant more ==> |t.fs| == i && t.why == []
        decreases |c.rbuf| - used, more
      {
        assert forall k :: 0 <= k < |sessions| ==> sessions[k] in old(sessions) || fresh(sessions[k]);
        assert forall k :: 0 <= k < |groups| ==> groups[k] in old(groups) || fresh(groups[k]);
        used, more, t := ParseMore(c, used, envs(i), p, ample, t, envs, a);
        i := i + 1;
      }
      if more { ShortWaits(c.rbuf[used..]); }
    }

    lemma NotData(c: Connection)
      requires c in conns && !c.isData
      ensures c in Snap().conns && !Snap().conns[c].isData
    {
    }

    static lemma ShortWaits(buf: seq<byte>)
      requires |buf| < 4
      ensures Waiting(buf)
    {
    }

    /** Between events no connection is in the middle of a read. */
    ghost predicate Quiet()
      reads `conns, conns`reading
    {
      forall c <- conns :: !c.reading
    }

    /** The control half of conn_read: accumulate, parse, and pass on what follows
        an ATTACH in the same read. */
    method ReadControl(c: Connection, bytes: seq<byte>, envs: nat -> Env) returns (ghost t: Talk)
      requires Valid() && Quiet() && c in conns && !c.isData && c.session == null
      modifies `sessions, `dead, `groups, `reg, `nextId, `byId, `groupOf, `nextGroupId
      modifies sessions`client, sessions`ptyOpen, sessions`defunct, sessions`killing, sessions`removed, sessions`gid, groups`blob
      modifies sessions`pin, sessions`typed, sessions`taken, sessions`inputLost
      modifies conns`session, conns`wantClose, c`isData, c`raw, c`received, c`wbuf, c`wpos, c`queued, c`lossy
      modifies c`mark, c`start, c`joinedAt, c`typedStart, c`shortReplay, c`head, c`frames, c`consumed, c`used, c`rbuf, c`reading
      ensures Valid() && Quiet() && Ageing() && GroupsFrom()
      ensures c.received == old(c.received) + bytes
      ensures Progress(old(Snap()), Snap(), AmpleAll(envs), Calm(envs(0))) && Conversed(old(Snap()), Snap(), c, t, envs)
      ensures Reasons(old(RecordOf(c)), RecordOf(c), t.refused)
    {
      hide ListsOk, LinksOk, RingsOk, FlowsOk, BooksOk, SameTalk, Conversed, Snap, Progress, AmpleAll, Calm, Rings;
      hide Reasons;
      ghost var p, a := Snap(), RecordOf(c);
      AccumulateOn(c, bytes);
      ReasonsNone(a, RecordOf(c));
      assert Rings() == old(Rings());
      t := ReadFrames(c, envs, p, a);
    }

    /** What has been accumulated is parsed, and the rest kept or passed on. */
    method ReadFrames(c: Connection, envs: nat -> Env, ghost p: Snapshot, ghost a: ConnRecord) returns (ghost t: Talk)
      requires Valid() && c in conns && !c.isData && c.session == null && c.reading && c.used == 0
      requires Progress(p, Snap(), true, true) && SameTalk(p, Snap(), c) && Reasons(a, RecordOf(c), false)
      modifies `sessions, `dead, `groups, `reg, `nextId, `byId, `groupOf, `nextGroupId
      modifies sessions`client, sessions`ptyOpen, sessions`defunct, sessions`killing, sessions`removed, sessions`gid, groups`blob
      modifies sessions`pin, sessions`typed, sessions`taken, sessions`inputLost
      modifies conns`session, conns`wantClose, c`isData, c`raw, c`received, c`wbuf, c`wpos, c`queued, c`lossy
      modifies c`mark, c`start, c`joinedAt, c`typedStart, c`shortReplay, c`head, c`frames, c`consumed, c`used, c`rbuf, c`reading
      ensures Valid() && Ageing() && GroupsFrom() && !c.reading && c.received == old(c.received)
      ensures Progress(p, Snap(), AmpleAll(envs), Calm(envs(0))) && Conversed(p, Snap(), c, t, envs) && Reasons(a, RecordOf(c), t.refused)
    {
      hide ListsOk, LinksOk, RingsOk, FlowsOk, BooksOk, SameTalk, Conversed, Waiting, Snap, Progress, AmpleAll, Calm, GroupsFrom, Rings;
      hide Reasons, Alike, Ageing, RecordOf;
      var used;
      used, t := ParseLoop(c, envs, p, a);
      IsAgeing();
      SessionAge(c);
      ghost var b := RecordOf(c);
      FinishRead(c, used, envs, p, AmpleAll(envs), t);
      ReasonsAlike(a, b, RecordOf(c), t.refused);
    }

    twostate lemma IsAgeing()
      requires (forall s <- sessions :: s in old(sessions) || fresh(s)) && (forall s <- dead :: s in old(dead) || s in old(sessions) || fresh(s))
      requires forall o <- Rings() :: o in old(Rings()) || fresh(o)
      ensures Ageing()
    {
      hide Rings;
    }

    /** The session c has been bound to is an old one or a new one. */
    twostate lemma SessionAge(c: Connection)
      requires LinksOk() && c in conns && Ageing()
      ensures c.session == null || c.session in old(sessions) || fresh(c.session)
    {
    }

    /** The end of a control read. */
    method FinishRead(c: Connection, used: nat, envs: nat -> Env, ghost p: Snapshot, ghost ample: bool, ghost t: Talk)
      requires Valid() && c in conns && c.reading && used == c.used <= |c.rbuf|
      requires !c.isData ==> c.session == null && (!c.wantClose ==> Waiting(c.rbuf[used..]))
      requires Progress(p, Snap(), ample, true) && Conversed(p, Snap(), c, t, envs)
      modifies c`rbuf, c`reading, c`used, c`raw, c`received, BoundTo(c)`pin, BoundTo(c)`typed, BoundTo(c)`taken, BoundTo(c)`inputLost
      ensures Valid() && !c.reading && c.received == old(c.received) && Alike(old(RecordOf(c)), RecordOf(c))
      ensures c.raw == old(c.raw) + if c.isData then old(c.rbuf[used..]) else []
      ensures Progress(p, Snap(), ample, Calm(envs(0))) && Conversed(p, Snap(), c, t, envs)
    {
      hide ListsOk, LinksOk, RingsOk, FlowsOk, BooksOk, Calm, Snap, Progress, Conversed;
      ProgressLess(p, Snap(), ample, true, ample, Calm(envs(0)));
      if c.isData {
        FinishRaw(c, used, envs, p, ample, t);
      } else {
        TrimOn(c, used);
      }
    }

    /** What came behind the ATTACH frame is handed on, and the buffer released. */
    method FinishRaw(c: Connection, used: nat, envs: nat -> Env, ghost p: Snapshot, ghost ample: bool, ghost t: Talk)
      requires Valid() && c in conns && c.isData && c.reading && used == c.used <= |c.rbuf|
      requires Progress(p, Snap(), ample, Calm(envs(0))) && Progress(p, Snap(), ample, true) && Conversed(p, Snap(), c, t, envs)
      modifies c`rbuf, c`reading, c`used, c`raw, c`received, BoundTo(c)`pin, BoundTo(c)`typed, BoundTo(c)`taken, BoundTo(c)`inputLost
      ensures Valid() && !c.reading && c.received == old(c.received) && c.raw == old(c.raw) + old(c.rbuf[used..])
      ensures Progress(p, Snap(), ample, Calm(envs(0))) && Conversed(p, Snap(), c, t, envs)
    {
      hide ListsOk, LinksOk, RingsOk, FlowsOk, BooksOk, Calm, Snap, Progress, Conversed;
      if |c.rbuf| > used {
        PassRest(c, used, envs, p, ample, t);
      }
      DropInboundOn(c);
    }

    /** What came behind the ATTACH frame in the same read. */
    method PassRest(c: Connection, used: nat, envs: nat -> Env, ghost p: Snapshot, ghost ample: bool, ghost t: Talk)
      requires Valid() && c in conns && c.isData && c.reading && used == c.used <= |c.rbuf|
      requires Progress(p, Snap(), ample, true) && Conversed(p, Snap(), c, t, envs)
      modifies c`raw, c`received, c`used, BoundTo(c)`pin, BoundTo(c)`typed, BoundTo(c)`taken, BoundTo(c)`inputLost
      ensures Valid() && c.received == old(c.received) && c.used == |c.rbuf| && c.raw == old(c.raw) + c.rbuf[used..]
      ensures Progress(p, Snap(), ample, Calm(envs(0))) && Conversed(p, Snap(), c, t, envs)
    {
      hide ListsOk, LinksOk, RingsOk, FlowsOk, BooksOk, Sound, Calm, Queued, Snap, Progress, Conversed, SameTalk;
      ghost var q, calm := Snap(), Calm(envs(0));
      SnapSound();
      DataToPty(c, c.rbuf[used..], envs(0));
      SnapSound();
      ConversedAfter(p, q, Snap(), c, t, envs);
      BetweenTalks(p, q, Snap(), c, t, envs);
      ProgressLess(p, q, ample, true, ample, calm);
      ProgressLess(q, Snap(), true, calm, ample, calm);
      ProgressTrans(p, q, Snap(), ample, calm);
    }

    /** What a read receives, and when it closes. */
    static ghost predicate ReadIn(a: ConnRecord, b: ConnRecord, r: ReadOutcome, refused: bool) {
      b.received == a.received + Fetched(a, true, r) && Reasons(a, b, refused || Parting(a, true, r))
    }

    static lemma WasRead(a: ConnRecord, b: ConnRecord, r: ReadOutcome, refused: bool)
      requires ReadIn(a, b, r, refused)
      ensures TakenIn(a, b, true, r, refused)
    {
    }

    static lemma NotRead(a: ConnRecord, r: ReadOutcome)
      ensures TakenIn(a, a, false, r, false)
    {
    }

    /** What a read on a raw channel does for its session. */
    twostate predicate Keyed(c: Connection, new r: ReadOutcome, new e: Env)
      reads *
    {
      unchanged(c`session) && forall s <- BoundTo(c) ::
        if r.Bytes? && r.bytes != [] then s in old(BoundTo(c)) && Queued(s, r.bytes, e.inputOk, e.ws) else s in old(BoundTo(c)) && unchanged(s)
    }

    /** conn_read, for each outcome of the read call. */
    method ReadConn(c: Connection, r: ReadOutcome, envs: nat -> Env) returns (ghost t: Talk)
      requires Valid() && Quiet() && c in conns
      modifies `sessions, `dead, `groups, `reg, `nextId, `byId, `groupOf, `nextGroupId
      modifies sessions`client, sessions`ptyOpen, sessions`defunct, sessions`killing, sessions`removed, sessions`gid, groups`blob
      modifies sessions`pin, sessions`typed, sessions`taken, sessions`inputLost
      modifies conns`session, conns`wantClose, c`isData, c`raw, c`received, c`wbuf, c`wpos, c`queued, c`lossy
      modifies c`mark, c`start, c`joinedAt, c`typedStart, c`shortReplay, c`head, c`frames, c`consumed, c`used, c`rbuf, c`reading
      ensures Valid() && Quiet() && Ageing() && GroupsFrom()
      ensures ReadIn(old(RecordOf(c)), RecordOf(c), r, t.refused) && Conversed(old(Snap()), Snap(), c, t, envs)
      ensures old(c.isData) ==> Keyed(c, r, envs(0))
      ensures Progress(old(Snap()), Snap(), AmpleAll(envs), Calm(envs(0)))
    {
      hide ListsOk, LinksOk, RingsOk, FlowsOk, BooksOk, AmpleAll, Calm, Queued, Snap, Progress, Conversed, Ageing, GroupsFrom, Reasons, Keyed;
      BoundIsListed(c);
      if r.Bytes? && r.bytes != [] && !c.isData && r.bufferOk {
        t := ReadControl(c, r.bytes, envs);
      } else {
        t := Talk([], [], [], false);
        ReadSilent(c, r, envs);
        NoneAged();
      }
    }

    /** The reads that bring no request. */
    method ReadSilent(c: Connection, r: ReadOutcome, envs: nat -> Env)
      requires Valid() && Quiet() && c in conns && (r.Bytes? && r.bytes != [] && r.bufferOk ==> c.isData)
      modifies c`wantClose, c`raw, c`received, c`used, BoundTo(c)`pin, BoundTo(c)`typed, BoundTo(c)`taken, BoundTo(c)`inputLost
      ensures Valid() && ReadIn(old(RecordOf(c)), RecordOf(c), r, false) && (c.isData ==> Keyed(c, r, envs(0)))
      ensures Progress(old(Snap()), Snap(), AmpleAll(envs), Calm(envs(0))) && Conversed(old(Snap()), Snap(), c, Talk([], [], [], false), envs)
    {
      hide ListsOk, LinksOk, RingsOk, FlowsOk, BooksOk, AmpleAll, Calm, Queued, Snap, Progress, Conversed, Reasons, Keyed;
      if r.NothingYet? {
        ReadNothing(c, r, envs);
      } else if r.PeerGone? || r.bytes == [] {
        PartWith(c, r, envs);
      } else if c.isData {
        ReadRaw(c, r, envs);
      } else {
        PartWith(c, r, envs);
      }
    }

    /** There is nothing to read. */
    method ReadNothing(c: Connection, r: ReadOutcome, envs: nat -> Env)
      requires Valid() && c in conns && r.NothingYet?
      ensures Valid() && Reasons(old(RecordOf(c)), RecordOf(c), false) && Keyed(c, r, envs(0))
      ensures Progress(old(Snap()), Snap(), AmpleAll(envs), Calm(envs(0))) && Conversed(old(Snap()), Snap(), c, Talk([], [], [], false), envs)
    {
      hide ListsOk, LinksOk, RingsOk, FlowsOk, BooksOk, AmpleAll, Calm, Snap, Progress, SameTalk, Conversed;
      NothingTold(c);
      ProgressWeaken(Snap(), Snap(), AmpleAll(envs), Calm(envs(0)));
      ConversedNot(Snap(), Snap(), c, envs);
    }

    /** The end of file, or an error: the connection is to be closed. */
    method PartWith(c: Connection, r: ReadOutcome, envs: nat -> Env)
      requires Valid() && c in conns
      modifies c`wantClose
      ensures Valid() && Reasons(old(RecordOf(c)), RecordOf(c), true)
      ensures !r.Bytes? || r.bytes == [] ==> Keyed(c, r, envs(0))
      ensures Progress(old(Snap()), Snap(), AmpleAll(envs), Calm(envs(0))) && Conversed(old(Snap()), Snap(), c, Talk([], [], [], false), envs)
    {
      hide ListsOk, LinksOk, RingsOk, FlowsOk, BooksOk, AmpleAll, Calm, Snap, Progress, SameTalk, Conversed;
      CloseSoon(c);
      ProgressWeaken(old(Snap()), Snap(), AmpleAll(envs), Calm(envs(0)));
      ConversedNot(old(Snap()), Snap(), c, envs);
    }

    /** A read on a raw channel. */
    method ReadRaw(c: Connection, r: ReadOutcome, envs: nat -> Env)
      requires Valid() && Quiet() && c in conns && c.isData && r.Bytes? && r.bytes != []
      modifies c`raw, c`received, c`used, BoundTo(c)`pin, BoundTo(c)`typed, BoundTo(c)`taken, BoundTo(c)`inputLost
      ensures Valid() && c.received == old(c.received) + r.bytes && Keyed(c, r, envs(0)) && Reasons(old(RecordOf(c)), RecordOf(c), false)
      ensures Progress(old(Snap()), Snap(), AmpleAll(envs), Calm(envs(0))) && Conversed(old(Snap()), Snap(), c, Talk([], [], [], false), envs)
    {
      hide ListsOk, LinksOk, RingsOk, FlowsOk, BooksOk, AmpleAll, Calm, Queued, Snap, Progress, SameTalk, Conversed;
      BoundIsListed(c);
      DataToPty(c, r.bytes, envs(0));
      ProgressLess(old(Snap()), Snap(), true, Calm(envs(0)), AmpleAll(envs), Calm(envs(0)));
      ConversedNot(old(Snap()), Snap(), c, envs);
    }

    lemma NothingTold(c: Connection)
      requires Valid() && c in conns
      ensures Progress(Snap(), Snap(), true, true) && SameTalk(Snap(), Snap(), c)
    {
      hide ListsOk, LinksOk, RingsOk, FlowsOk, BooksOk, Sound, Progress;
      SnapSound();
      ProgressSelf(Snap());
      SameTalkSelf(Snap(), c);
    }

    // --- output of a PTY ---

    /** The ring of s has taken in a chunk; every other ring is untouched. */
    twostate lemma OneRing(s: Session)
      requires old(RingsOk()) && unchanged(`sessions) && s in sessions && s.RingOk()
      requires s.out.buf == old(s.out.buf) || fresh(s.out.buf)
      requires forall t <- sessions :: t != s ==> t.output == old(t.output) && unchanged(t.out, old(t.out.buf))
      ensures RingsOk()
    {
      hide Ring.Ring.Valid;
    }

    /** The streams of every session but s are untouched. */
    twostate lemma OneFlow(s: Session)
      requires old(FlowsOk()) && old(LinksOk()) && unchanged(`sessions, `conns) && s in sessions && s.client == old(s.client)
      requires forall d <- conns :: d != s.client ==> unchanged(d)
      requires forall t <- sessions :: t != s ==> unchanged(t)
      requires s.InOk() && (s.client != null && s.client in conns ==> Tapped(s.client, s) && s.client.OutOk() && s.client.CutOk() && s.client.OpenOk())
      ensures FlowsOk()
    {
      hide Tapped, Connection.OutOk, Connection.CutOk, Connection.OpenOk, Session.InOk;
    }

    /** What a flush takes of the pending output and a chunk queued behind it. */
    static ghost function GoneWith(c: Connection, chunk: seq<byte>, ws: seq<WriteOutcome>): seq<byte>
      reads c`wbuf, c`wpos
    {
      if c.wpos > |c.wbuf| then [] else var pend := c.Pending() + chunk; pend[..Drain(|pend|, ws).0]
    }

    /** What a ready descriptor takes of the pending output. */
    static ghost function Gone(c: Connection, writable: bool, ws: seq<WriteOutcome>): seq<byte>
      reads c`wbuf, c`wpos
    {
      if writable then GoneWith(c, [], ws) else []
    }

    static lemma GonePlain(c: Connection, ws: seq<WriteOutcome>)
      requires c.wpos <= |c.wbuf|
      ensures GoneWith(c, [], ws) == c.Pending()[..Drain(|c.Pending()|, ws).0]
    {
      assert c.Pending() + [] == c.Pending();
    }

    /** A chunk tells c to close. */
    static ghost predicate Trips(c: Connection, o: PtyOutcome)
      reads c`wbuf, c`wpos
    {
      c.wpos <= |c.wbuf| && Stumbles(|c.Pending()|, o)
    }

    /** How many bytes are queued and not yet written. */
    static ghost function Backlog(c: Connection): nat
      reads c`queued, c`sent
    {
      if |c.sent| <= |c.queued| then |c.queued| - |c.sent| else 0
    }

    lemma GoneCount(c: Connection, chunk: seq<byte>, ws: seq<WriteOutcome>)
      requires FlowsOk() && c in conns
      ensures |c.queued| == |c.sent| + Backlog(c) && |GoneWith(c, chunk, ws)| == Drain(Backlog(c) + |chunk|, ws).0
    {
      hide Drain;
      assert c.OutOk();
    }

    lemma TripsCount(c: Connection, o: PtyOutcome)
      requires FlowsOk() && c in conns
      ensures Trips(c, o) <==> Stumbles(Backlog(c), o)
    {
      hide Stumbles;
      assert c.OutOk();
    }

    /** s has put out a chunk; nobody but its client has seen anything of it. */
    twostate predicate SpokenOnly(s: Session)
      reads *
    {
      && unchanged(this) && s in sessions && old(s.output) <= s.output && (old(s.out.starved) ==> s.out.starved)
      && unchanged(s`typed, s`taken, s`pin, s`inputLost, s`ptyOpen, s`alive, s`removed, s`killing, s`client)
      && (forall t: Session | t in sessions + dead && t != s :: unchanged(t))
      && (forall t: Session | t in sessions && t != s :: unchanged(t.out`starved))
      && (forall d <- conns :: d != s.client ==> unchanged(d))
      && (forall c: Connection | c in ClientOf(s) :: Lifted(c) && old(c.queued) <= c.queued && old(c.sent) <= c.sent)
      && (forall c: Connection | c in ClientOf(s) ::
           unchanged(c`session, c`isData, c`received, c`frames, c`raw, c`mark, c`start, c`joinedAt, c`typedStart, c`shortReplay, c`head))
    }

    twostate lemma SpokenMoves(s: Session)
      requires SpokenOnly(s)
      ensures Onward(old(Snap()), Snap()) && InputKept(old(Snap()), Snap())
      ensures s.out.starved == old(s.out.starved) && (forall c <- ClientOf(s) :: c.lossy == old(c.lossy)) ==> OutputKept(old(Snap()), Snap())
    {
      hide Snap, Onward, OutputKept, InputKept, Registry.Reaches, ConnsMove;
      hide SessionsMove, Joining, Numbering, OutputSafe, InputSafe, SpokenOnly;
      SpokenOnwards(s);
      SpokenSafe(s);
      Registry.ReachesSelf(reg);
      Moved();
    }

    twostate lemma SpokenOnwards(s: Session)
      requires SpokenOnly(s)
      ensures ConnsMove() && SessionsMove() && Joining() && Numbering() && reg == old(reg)
    {
      assert s.client != null ==> s.client in ClientOf(s);
    }

    twostate lemma SpokenSafe(s: Session)
      requires SpokenOnly(s)
      ensures InputSafe() && (s.out.starved == old(s.out.starved) && (forall c <- ClientOf(s) :: c.lossy == old(c.lossy)) ==> OutputSafe())
    {
      assert s.client != null ==> s.client in ClientOf(s);
    }

    /** c has the chunk in its queue if there was room, and has been flushed. */
    twostate predicate Delivered(c: Connection, new o: PtyOutcome)
      reads c
    {
      o.Chunk? && Lifted(c) && (o.queueOk ==> c.lossy == old(c.lossy)) && c.queued == old(c.queued) + Sent(o)
      && c.sent == old(c.sent) + old(GoneWith(c, Sent(o), o.ws)) && c.wantClose == old(c.wantClose || Trips(c, o))
    }

    /** One chunk from the PTY: into the ring, and on to the attached client. */
    method PtyChunk(s: Session, o: PtyOutcome)
      requires LinksOk() && RingsOk() && FlowsOk() && s in sessions && o.Chunk?
      modifies s`output, s.out, s.out.buf
      modifies ClientOf(s)`wbuf, ClientOf(s)`wpos, ClientOf(s)`wantClose, ClientOf(s)`queued, ClientOf(s)`lossy, ClientOf(s)`sent
      ensures RingsOk() && FlowsOk() && s.output == old(s.output) + o.bytes
      ensures s.out.buf == old(s.out.buf) || fresh(s.out.buf)
      ensures forall c <- ClientOf(s) :: Delivered(c, o)
      ensures Progress(old(Snap()), Snap(), AmpleChunk(o), true)
    {
      hide RingsOk, FlowsOk, LinksOk, GoneWith, Trips, Sent, Snap, Onward, OutputKept, InputKept, SpokenOnly;
      SpeakOut(s, o);
      SpokenMoves(s);
    }

    method SpeakOut(s: Session, o: PtyOutcome)
      requires LinksOk() && RingsOk() && FlowsOk() && s in sessions && o.Chunk?
      modifies s`output, s.out, s.out.buf
      modifies ClientOf(s)`wbuf, ClientOf(s)`wpos, ClientOf(s)`wantClose, ClientOf(s)`queued, ClientOf(s)`lossy, ClientOf(s)`sent
      ensures RingsOk() && FlowsOk() && s.output == old(s.output) + o.bytes && (s.out.buf == old(s.out.buf) || fresh(s.out.buf))
      ensures (forall c <- ClientOf(s) :: Delivered(c, o)) && SpokenOnly(s) && (o.ringOk ==> s.out.starved == old(s.out.starved))
    {
      hide RingsOk, FlowsOk, LinksOk, GoneWith, Trips, Sent;
      OwnRing(s);
      PassChunk(s, o);
    }

    lemma OwnRing(s: Session)
      requires RingsOk() && s in sessions
      ensures forall t <- sessions :: t != s ==> t.out != s.out
    {
    }

    method PassChunk(s: Session, o: PtyOutcome)
      requires LinksOk() && RingsOk() && FlowsOk() && s in sessions && o.Chunk?
      modifies s`output, s.out, s.out.buf
      modifies ClientOf(s)`wbuf, ClientOf(s)`wpos, ClientOf(s)`wantClose, ClientOf(s)`queued, ClientOf(s)`lossy, ClientOf(s)`sent
      ensures RingsOk() && FlowsOk() && s.output == old(s.output) + o.bytes
      ensures s.out.buf == old(s.out.buf) || fresh(s.out.buf)
      ensures (old(s.out.starved) ==> s.out.starved) && (o.ringOk ==> s.out.starved == old(s.out.starved))
      ensures forall c <- ClientOf(s) :: Delivered(c, o)
    {
      SoundSession(s);
      hide RingsOk, FlowsOk, LinksOk, Tapped, Connection.OutOk, Connection.CutOk, Connection.OpenOk, Session.InOk, Session.RingOk, Delivered;
      if s.client != null {
        ChunkTo(s, s.client, o);
      } else {
        s.Emit(o.bytes, o.ringOk);
      }
      OneRing(s);
      OneFlow(s);
    }

    /** The chunk goes to the ring of s and to c. */
    method ChunkTo(s: Session, c: Connection, o: PtyOutcome)
      requires s.RingOk() && c.OutOk() && c.OpenOk() && Tapped(c, s) && o.Chunk?
      modifies s`output, s.out, s.out.buf
      modifies c`wbuf, c`wpos, c`wantClose, c`queued, c`lossy, c`sent
      ensures s.RingOk() && c.OutOk() && c.OpenOk() && Tapped(c, s) && s.output == old(s.output) + o.bytes
      ensures s.out.buf == old(s.out.buf) || fresh(s.out.buf)
      ensures (old(s.out.starved) ==> s.out.starved) && (o.ringOk ==> s.out.starved == old(s.out.starved))
      ensures Delivered(c, o)
    {
      hide Tapped, Connection.OutOk, Connection.OpenOk, Session.RingOk, Drain;
      PassOutput(s, c, o.bytes, o.ringOk, o.queueOk, o.ws);
    }

    lemma SoundSession(s: Session)
      requires LinksOk() && RingsOk() && FlowsOk() && s in sessions
      ensures s.RingOk() && s.InOk()
      ensures s.client != null ==> s.client in conns && Tapped(s.client, s)
      ensures s.client != null ==> s.client.OutOk() && s.client.CutOk() && s.client.OpenOk()
      ensures forall t <- sessions :: t != s ==> t.out != s.out && t.out.buf != s.out.buf
      ensures forall t <- sessions :: t != s && t.client != null ==> t.client != s.client
    {
    }

    /** client_eof: what is left is flushed, and the channel is told to close. */
    method ClientEof(s: Session, ws: seq<WriteOutcome>)
      requires LinksOk() && FlowsOk() && s in sessions
      modifies ClientOf(s)`wbuf, ClientOf(s)`wpos, ClientOf(s)`wantClose, ClientOf(s)`sent
      ensures FlowsOk() && forall c <- ClientOf(s) :: c.wantClose
      ensures forall c <- ClientOf(s) :: c.sent == old(c.sent) + old(Gone(c, true, ws))
    {
      hide FlowsOk, Drain, GoneWith, Flushed, Snap, Progress, SameTalk;
      var c := s.client;
      if c == null {
        return;
      }
      ClientListed(s);
      WritePending(c, ws);
      CloseSoon(c);
    }

    /** Sessions may have left, clients been detached, told to close, and flushed. */
    twostate predicate LeavingOnly()
      reads *
    {
      && Shrunk() && unchanged(`conns, `reg, `byId, `nextId)
      && (forall d <- conns :: d.session == old(d.session) || d.session == null)
      && (forall d <- conns :: (old(d.wantClose) ==> d.wantClose) && old(d.sent) <= d.sent)
      && (forall d: Connection | d in conns ::
           unchanged(d`isData, d`lossy, d`queued, d`received, d`frames, d`raw, d`mark, d`start, d`joinedAt, d`typedStart, d`shortReplay, d`head))
      && (forall s: Session | s in old(sessions + dead) ::
           unchanged(s`output, s`typed, s`taken, s`pin, s`inputLost, s.out`starved) && (s.ptyOpen ==> old(s.ptyOpen)))
    }

    twostate lemma LeavingMoves()
      requires LeavingOnly()
      ensures Onward(old(Snap()), Snap()) && OutputKept(old(Snap()), Snap()) && InputKept(old(Snap()), Snap())
    {
      hide Snap, Onward, OutputKept, InputKept, Registry.Reaches, ConnsMove;
      hide SessionsMove, Joining, Numbering, OutputSafe, InputSafe, LeavingOnly;
      LeavingOnwards();
      LeavingSafe();
      Registry.ReachesSelf(reg);
      Moved();
    }

    twostate lemma LeavingOnwards()
      requires LeavingOnly()
      ensures ConnsMove() && SessionsMove() && Joining() && Numbering() && reg == old(reg)
    {
    }

    twostate lemma LeavingSafe()
      requires LeavingOnly()
      ensures OutputSafe() && InputSafe()
    {
    }

    /** The slave side is gone: the master closes; a killed session goes, any other
        stays listed with its ring, its client told. */
    method PtyHangup(s: Session, ws: seq<WriteOutcome>)
      requires Valid() && s in sessions
      modifies `sessions, `dead, `groups, `reg, s`client, s`ptyOpen, s`defunct
      modifies ClientOf(s)`session, ClientOf(s)`wantClose, ClientOf(s)`wbuf, ClientOf(s)`wpos, ClientOf(s)`sent
      ensures Valid() && Shrunk() && GroupsFrom() && reg == old(reg) && Closed(s, ws)
      ensures Progress(old(Snap()), Snap(), true, true)
    {
      hide ListsOk, LinksOk, RingsOk, FlowsOk, BooksOk, Snap, Onward, OutputKept, InputKept, Registry.Reaches;
      ListedLives(s);
      if s.removed {
        HangupGone(s);
      } else {
        HangupKept(s, ws);
      }
    }

    /** The master is closed; the client is told, and sent what it will still take
        unless the session goes. */
    twostate predicate Closed(s: Session, new ws: seq<WriteOutcome>)
      reads *
    {
      && !s.ptyOpen && (if s.removed then Unlisted(s) else unchanged(`sessions, `dead))
      && forall c <- old(ClientOf(s)) ::
           c.wantClose && c.session == (if s.removed then null else old(c.session)) && c.sent == old(c.sent) + old(Gone(c, !s.removed, ws))
    }

    method HangupGone(s: Session)
      requires Valid() && s in sessions && s.removed && !s.defunct
      modifies `sessions, `dead, `groups, `reg, s`client, s`ptyOpen, s`defunct, ClientOf(s)`session, ClientOf(s)`wantClose
      ensures Valid() && Shrunk() && GroupsFrom() && !s.ptyOpen && reg == old(reg) && Unlisted(s)
      ensures forall c <- old(ClientOf(s)) :: c.session == null && c.wantClose
      ensures Progress(old(Snap()), Snap(), true, true)
    {
      hide LinksOk, RingsOk, FlowsOk, BooksOk, ListsOk, Snap, Onward, OutputKept, InputKept, Registry.Reaches;
      s.ptyOpen := false;
      StillLinked(s);
      ReapRemoved(s);
      ListsApart();
      LeavingMoves();
    }

    twostate lemma StillLinked(s: Session)
      requires old(ListsOk()) && old(LinksOk()) && unchanged(this) && s in sessions && unchanged(s`defunct, s`freed, s`client)
      requires unchanged(conns) && (forall t <- sessions :: t != s ==> unchanged(t)) && (forall t <- dead :: t != s ==> unchanged(t))
      ensures LinksOk()
    {
    }

    method HangupKept(s: Session, ws: seq<WriteOutcome>)
      requires Valid() && s in sessions
      modifies s`ptyOpen, ClientOf(s)`wantClose, ClientOf(s)`wbuf, ClientOf(s)`wpos, ClientOf(s)`sent
      ensures Valid() && !s.ptyOpen && forall c <- ClientOf(s) :: c.wantClose
      ensures forall c <- ClientOf(s) :: c.sent == old(c.sent) + old(Gone(c, true, ws))
      ensures Progress(old(Snap()), Snap(), true, true)
    {
      hide LinksOk, RingsOk, FlowsOk, BooksOk, ListsOk, Gone, Snap, Onward, OutputKept, InputKept, LeavingOnly;
      CloseMaster(s, ws);
      LeavingMoves();
    }

    method CloseMaster(s: Session, ws: seq<WriteOutcome>)
      requires Valid() && s in sessions
      modifies s`ptyOpen, ClientOf(s)`wantClose, ClientOf(s)`wbuf, ClientOf(s)`wpos, ClientOf(s)`sent
      ensures Valid() && !s.ptyOpen && LeavingOnly()
      ensures forall c <- ClientOf(s) :: c.wantClose && c.sent == old(c.sent) + old(Gone(c, true, ws))
    {
      hide LinksOk, RingsOk, FlowsOk, BooksOk, ListsOk, Gone;
      s.ptyOpen := false;
      StillLinked(s);
      ClientEof(s, ws);
    }

    /** What a bout of reading does to the lists: nothing while the master stays as it
        was; when it closes, a killed session leaves, and the client is told. */
    twostate predicate Hung(s: Session)
      reads *
    {
      if s.ptyOpen == old(s.ptyOpen) then
        unchanged(`sessions, `dead) && forall c <- old(ClientOf(s)) :: c.session == old(c.session)
      else if s.removed then
        Unlisted(s) && forall c <- old(ClientOf(s)) :: c.session == null && c.wantClose
      else
        unchanged(`sessions, `dead) && forall c <- old(ClientOf(s)) :: c.session == old(c.session) && c.wantClose
    }

    lemma RemovedIsGone(s: Session)
      requires BooksOk() && s in sessions && s.removed
      ensures s.id !in reg.member
    {
    }

    /** One bout of reading, if the master is open, as the session and its client show
        it. */
    twostate predicate Bout(s: Session, new open: bool, new rs: seq<PtyOutcome>)
      reads *
    {
      && Hung(s) && s.output == old(s.output) + (if open then Taken(rs).0 else []) && s.ptyOpen == (old(s.ptyOpen) && !(open && Taken(rs).1))
      && forall c <- old(ClientOf(s)) ::
           c.wantClose == (old(c.wantClose) || (open && (Taken(rs).1 || Chokes(old(Backlog(c)), rs))))
           && c.queued == old(c.queued) + (if open then Passed(rs) else [])
           && |c.sent| == |old(c.sent)| + (if open then Handed(old(Backlog(c)), rs, !s.removed) else 0)
    }

    lemma NothingRead()
      requires Valid()
      ensures Progress(Snap(), Snap(), true, true)
    {
      hide ListsOk, LinksOk, RingsOk, FlowsOk, BooksOk, Sound, Snap, Progress;
      SnapSound();
      ProgressSelf(Snap());
    }

    /** pty_readable: read until the master blocks or hangs up. */
    method PtyReadable(s: Session, rs: seq<PtyOutcome>)
      requires Valid() && (s in sessions || s in dead)
      modifies `sessions, `dead, `groups, `reg, s`client, s`ptyOpen, s`defunct, s`output, s.out, s.out.buf
      modifies ClientOf(s)`session, ClientOf(s)`wantClose, ClientOf(s)`wbuf, ClientOf(s)`wpos, ClientOf(s)`sent, ClientOf(s)`queued, ClientOf(s)`lossy
      ensures Valid() && Shrunk() && GroupsFrom() && reg == old(reg)
      ensures s.out.buf == old(s.out.buf) || fresh(s.out.buf)
      ensures if old(s.defunct) then Snap() == old(Snap()) else Bout(s, old(s.ptyOpen), rs)
      ensures Progress(old(Snap()), Snap(), AmplePty(rs), true)
    {
      assert !s.defunct ==> s in sessions;
      hide ListsOk, LinksOk, RingsOk, FlowsOk, BooksOk, Taken, Passed, Handed, Chokes, Snap, Progress;
      if !s.defunct && s.ptyOpen {
        ReadPty(s, rs);
      } else {
        NothingRead();
        ProgressWeaken(Snap(), Snap(), AmplePty(rs), true);
      }
    }

    /** The client of s has a chunk more in its queue, and has been written its
        share of what was pending. */
    static twostate predicate Spoken(s: Session, new o: PtyOutcome)
      reads s`client, ClientOf(s)`queued, ClientOf(s)`sent, ClientOf(s)`wantClose
    {
      s.client == old(s.client) && forall c <- old(ClientOf(s)) ::
        c.wantClose == (old(c.wantClose) || Stumbles(old(Backlog(c)), o))
        && c.queued == old(c.queued) + Sent(o) && |c.sent| == |old(c.sent)| + Share(old(Backlog(c)), o)
        && Backlog(c) == old(Backlog(c)) + |Sent(o)| - Share(old(Backlog(c)), o)
    }

    /** One more chunk, seen from an earlier state. */
    method SpeakMore(s: Session, o: PtyOutcome, ghost p: Snapshot, ghost ample: bool)
      requires Valid() && s in sessions && o.Chunk? && Progress(p, Snap(), ample, true) && (ample ==> AmpleChunk(o))
      modifies s`output, s.out, s.out.buf
      modifies ClientOf(s)`wbuf, ClientOf(s)`wpos, ClientOf(s)`wantClose, ClientOf(s)`queued, ClientOf(s)`lossy, ClientOf(s)`sent
      ensures Valid() && s.output == old(s.output) + o.bytes && (s.out.buf == old(s.out.buf) || fresh(s.out.buf)) && Spoken(s, o)
      ensures Progress(p, Snap(), ample, true)
    {
      hide ListsOk, LinksOk, RingsOk, FlowsOk, BooksOk, Sound, Spoken, Snap, Progress, AmpleChunk;
      ghost var q := Snap();
      SnapSound();
      SpeakOnce(s, o);
      SnapSound();
      ProgressLess(q, Snap(), AmpleChunk(o), true, ample, true);
      ProgressTrans(p, q, Snap(), ample, true);
    }

    method SpeakOnce(s: Session, o: PtyOutcome)
      requires Valid() && s in sessions && o.Chunk?
      modifies s`output, s.out, s.out.buf
      modifies ClientOf(s)`wbuf, ClientOf(s)`wpos, ClientOf(s)`wantClose, ClientOf(s)`queued, ClientOf(s)`lossy, ClientOf(s)`sent
      ensures Valid() && s.output == old(s.output) + o.bytes && (s.out.buf == old(s.out.buf) || fresh(s.out.buf)) && Spoken(s, o)
      ensures Progress(old(Snap()), Snap(), AmpleChunk(o), true)
    {
      hide ListsOk, LinksOk, RingsOk, FlowsOk, BooksOk, Drain, GoneWith, Trips, Stumbles, Snap, Progress;
      if s.client != null { ClientListed(s); GoneCount(s.client, Sent(o), o.ws); TripsCount(s.client, o); }
      PtyChunk(s, o);
      assert s.client != null ==> s.client in ClientOf(s) && Delivered(s.client, o);
    }

    method HangupMore(s: Session, ws: seq<WriteOutcome>, ghost p: Snapshot, ghost ample: bool)
      requires Valid() && s in sessions && Progress(p, Snap(), ample, true)
      modifies `sessions, `dead, `groups, `reg, s`client, s`ptyOpen, s`defunct
      modifies ClientOf(s)`session, ClientOf(s)`wantClose, ClientOf(s)`wbuf, ClientOf(s)`wpos, ClientOf(s)`sent
      ensures Valid() && Shrunk() && GroupsFrom() && !s.ptyOpen && reg == old(reg)
      ensures forall c <- old(ClientOf(s)) :: c.wantClose && |c.sent| == |old(c.sent)| + if s.removed then 0 else Drain(old(Backlog(c)), ws).0
      ensures Progress(p, Snap(), ample, true) && (old(s.ptyOpen) ==> Hung(s))
    {
      hide ListsOk, LinksOk, RingsOk, FlowsOk, BooksOk, Sound, Drain, GoneWith, Snap, Onward, OutputKept, InputKept, Registry.Reaches;
      ghost var q := Snap();
      SnapSound();
      if s.client != null { ClientListed(s); GoneCount(s.client, [], ws); }
      PtyHangup(s, ws);
      SnapSound();
      ProgressTrans(p, q, Snap(), ample, true);
    }

    /** One round of the read loop; more is false once the loop is left. */
    method ReadRound(s: Session, rs: seq<PtyOutcome>, i: nat, ghost p: Snapshot, ghost ample: bool) returns (more: bool)
      requires Valid() && s in sessions && s.ptyOpen && i < |rs| && Progress(p, Snap(), ample, true) && (ample ==> AmplePty(rs))
      modifies `sessions, `dead, `groups, `reg, s`client, s`ptyOpen, s`defunct, s`output, s.out, s.out.buf
      modifies ClientOf(s)`session, ClientOf(s)`wantClose, ClientOf(s)`wbuf, ClientOf(s)`wpos, ClientOf(s)`sent, ClientOf(s)`queued, ClientOf(s)`lossy
      ensures Valid() && Shrunk() && GroupsFrom() && reg == old(reg) && Progress(p, Snap(), ample, true) && Hung(s)
      ensures s.out.buf == old(s.out.buf) || fresh(s.out.buf)
      ensures more ==> sessions == old(sessions) && dead == old(dead) && groups == old(groups) && s.client == old(s.client) && s.ptyOpen
      ensures OneRound(s, rs[i..], rs[i + 1..], more)
    {
      hide ListsOk, LinksOk, RingsOk, FlowsOk, BooksOk, OneRound, Snap, Progress;
      match rs[i] {
      case Chunk(bytes, _, _, _) =>
        if bytes == [] {
          more := false;
          HangupRound(s, rs, i, [], p, ample);
        } else {
          more := true;
          SpeakRound(s, rs, i, p, ample);
        }
      case Blocked =>
        more := false;
        IdleRound(s, rs, i, more);
      case Again =>
        more := true;
        IdleRound(s, rs, i, more);
      case HungUp(ws) =>
        more := false;
        HangupRound(s, rs, i, ws, p, ample);
      }
    }

    /** A round that reads nothing. */
    ghost method IdleRound(s: Session, rs: seq<PtyOutcome>, i: nat, more: bool)
      requires i < |rs| && s.ptyOpen && if more then rs[i].Again? else rs[i].Blocked?
      ensures OneRound(s, rs[i..], rs[i + 1..], more)
    {
      hide Taken, Passed, Handed, Drain, Backlog, Chokes;
      TakenStep(rs, i);
      if s.client != null { PassedStep(rs, i, Backlog(s.client), !s.removed); ChokesStep(rs, i, Backlog(s.client)); }
    }

    /** A round that reads a chunk. */
    method SpeakRound(s: Session, rs: seq<PtyOutcome>, i: nat, ghost p: Snapshot, ghost ample: bool)
      requires Valid() && s in sessions && i < |rs| && rs[i].Chunk? && rs[i].bytes != [] && Progress(p, Snap(), ample, true) && (ample ==> AmplePty(rs))
      modifies s`output, s.out, s.out.buf
      modifies ClientOf(s)`wbuf, ClientOf(s)`wpos, ClientOf(s)`wantClose, ClientOf(s)`queued, ClientOf(s)`lossy, ClientOf(s)`sent
      ensures Valid() && (s.out.buf == old(s.out.buf) || fresh(s.out.buf)) && OneRound(s, rs[i..], rs[i + 1..], true)
      ensures Progress(p, Snap(), ample, true)
    {
      hide ListsOk, LinksOk, RingsOk, FlowsOk, BooksOk, Taken, Passed, Handed, Drain, Backlog, Share, Snap, Progress, Chokes, Stumbles;
      TakenStep(rs, i);
      if s.client != null { PassedStep(rs, i, Backlog(s.client), !s.removed); ChokesStep(rs, i, Backlog(s.client)); }
      SpeakMore(s, rs[i], p, ample);
    }

    /** A round that meets the end of file or an error. */
    method HangupRound(s: Session, rs: seq<PtyOutcome>, i: nat, ws: seq<WriteOutcome>, ghost p: Snapshot, ghost ample: bool)
      requires Valid() && s in sessions && s.ptyOpen && i < |rs| && Progress(p, Snap(), ample, true)
      requires (rs[i].Chunk? && rs[i].bytes == [] && ws == []) || (rs[i].HungUp? && rs[i].ws == ws)
      modifies `sessions, `dead, `groups, `reg, s`client, s`ptyOpen, s`defunct
      modifies ClientOf(s)`session, ClientOf(s)`wantClose, ClientOf(s)`wbuf, ClientOf(s)`wpos, ClientOf(s)`sent
      ensures Valid() && Shrunk() && GroupsFrom() && reg == old(reg) && !s.ptyOpen && Hung(s) && OneRound(s, rs[i..], rs[i + 1..], false)
      ensures Progress(p, Snap(), ample, true)
    {
      hide ListsOk, LinksOk, RingsOk, FlowsOk, BooksOk, Taken, Passed, Handed, Drain, Backlog, Snap, Progress, Hung, Chokes;
      TakenStep(rs, i);
      if s.client != null {
        DrainNone(Backlog(s.client));
        PassedStep(rs, i, Backlog(s.client), !s.removed);
      }
      HangupMore(s, ws, p, ample);
    }

    /** What c has been sent, and will have been by the end of the bout. */
    static ghost function Toll(c: Connection, rest: seq<PtyOutcome>, kept: bool): nat
      reads c`queued, c`sent
    {
      |c.sent| + Handed(Backlog(c), rest, kept)
    }

    /** c is told to close, or will be by the end of the bout. */
    static ghost predicate Doomed(c: Connection, rest: seq<PtyOutcome>)
      reads c`queued, c`sent, c`wantClose
    {
      c.wantClose || Taken(rest).1 || Chokes(Backlog(c), rest)
    }

    /** A stretch of the bout brings it from the outcomes `before` to those `behind`,
        or to its end. */
    static twostate predicate OneRound(s: Session, new before: seq<PtyOutcome>, new behind: seq<PtyOutcome>, new more: bool)
      reads *
    {
      && s.output + (if more then Taken(behind).0 else []) == old(s.output) + Taken(before).0
      && Taken(before).1 == (if more then Taken(behind).1 else !s.ptyOpen)
      && (forall c <- old(ClientOf(s)) :: c.queued + (if more then Passed(behind) else []) == old(c.queued) + Passed(before))
      && (forall c <- old(ClientOf(s)) :: (if more then Toll(c, behind, !s.removed) else |c.sent|) == old(Toll(c, before, !s.removed)))
      && (forall c <- old(ClientOf(s)) :: (if more then Doomed(c, behind) else c.wantClose) == old(Doomed(c, before)))
    }

    /** A bout of reading from a session that is listed and has its master. */
    method ReadPty(s: Session, rs: seq<PtyOutcome>)
      requires Valid() && s in sessions && s.ptyOpen
      modifies `sessions, `dead, `groups, `reg, s`client, s`ptyOpen, s`defunct, s`output, s.out, s.out.buf
      modifies ClientOf(s)`session, ClientOf(s)`wantClose, ClientOf(s)`wbuf, ClientOf(s)`wpos, ClientOf(s)`sent, ClientOf(s)`queued, ClientOf(s)`lossy
      ensures Valid() && Shrunk() && GroupsFrom() && reg == old(reg)
      ensures s.out.buf == old(s.out.buf) || fresh(s.out.buf)
      ensures Bout(s, true, rs) && Progress(old(Snap()), Snap(), AmplePty(rs), true)
    {
      hide ListsOk, LinksOk, RingsOk, FlowsOk, BooksOk, Backlog, AmplePty, Hung, Snap, Progress;
      ghost var more := ReadLoop(s, rs);
    }

    /** The read loop. */
    method ReadLoop(s: Session, rs: seq<PtyOutcome>) returns (more: bool)
      requires Valid() && s in sessions && s.ptyOpen
      modifies `sessions, `dead, `groups, `reg, s`client, s`ptyOpen, s`defunct, s`output, s.out, s.out.buf
      modifies ClientOf(s)`session, ClientOf(s)`wantClose, ClientOf(s)`wbuf, ClientOf(s)`wpos, ClientOf(s)`sent, ClientOf(s)`queued, ClientOf(s)`lossy
      ensures Valid() && Shrunk() && GroupsFrom() && reg == old(reg) && Hung(s) && (s.out.buf == old(s.out.buf) || fresh(s.out.buf))
      ensures OneRound(s, rs, [], more) && (more ==> s.ptyOpen) && Progress(old(Snap()), Snap(), AmplePty(rs), true)
    {
      hide ListsOk, LinksOk, RingsOk, FlowsOk, BooksOk, Taken, Passed, Toll, Doomed, AmplePty, Snap, Progress;
      var i := 0;
      more := true;
      assert rs[0..] == rs;
      ghost var buf0, p, ample := s.out.buf, Snap(), AmplePty(rs);
      NothingRead();
      ProgressWeaken(p, p, ample, true);
      while more && i < |rs|
        invariant i <= |rs| && Valid() && Shrunk() && GroupsFrom() && reg == old(reg) && Progress(p, Snap(), ample, true)
        invariant more ==> sessions == old(sessions) && dead == old(dead) && groups == old(groups) && s.client == old(s.client) && s.ptyOpen
        invariant (s.out.buf == buf0 || fresh(s.out.buf)) && Hung(s) && OneRound(s, rs, rs[i..], more)
      {
        more := ReadRound(s, rs, i, p, ample);
        i := i + 1;
      }
      assert more ==> rs[i..] == [];
    }

    // --- exits and deadlines ---

    method FindByPid(pid: nat) returns (r: Session?)
      ensures r == FirstWith(sessions, pid)
    {
      var i := 0;
      while i < |sessions|
        invariant i <= |sessions| && FirstWith(sessions[i..], pid) == FirstWith(sessions, pid)
      {
        assert sessions[i..][0] == sessions[i] && sessions[i..][1..] == sessions[i + 1..];
        if sessions[i].pid == pid {
          return sessions[i];
        }
        i := i + 1;
      }
      return null;
    }

    /** One round of reap_children: an exited session stays listed as dead, a killed
        one is dropped; either way no group changes, and nobody else notices. */
    method ReapChild(pid: nat)
      requires Valid()
      modifies `sessions, `dead, `groups, `reg, sessions`alive, sessions`client, sessions`ptyOpen, sessions`defunct, conns`session, conns`wantClose
      ensures Valid() && Shrunk() && GroupsFrom() && reg == old(reg)
      ensures Snap() == Exited(old(Snap()), pid)
      ensures Progress(old(Snap()), Snap(), true, true)
    {
      hide ListsOk, LinksOk, RingsOk, FlowsOk, BooksOk, Exited, Snap, Progress;
      var s := FindByPid(pid);
      if s == null {
        NoneExited(pid);
        return;
      }
      ClientListed(s);
      ReapFound(s);
    }

    lemma NoneExited(pid: nat)
      requires Valid() && FirstWith(sessions, pid) == null
      ensures Exited(Snap(), pid) == Snap() && Progress(Snap(), Snap(), true, true)
    {
      hide ListsOk, LinksOk, RingsOk, FlowsOk, BooksOk, Sound, Snap, Progress;
      SnapSound();
      ProgressSelf(Snap());
    }

    /** The session is found: it is dead, and if it was killed, gone. */
    method ReapFound(s: Session)
      requires Valid() && s in sessions && s == FirstWith(sessions, s.pid)
      modifies `sessions, `dead, `groups, `reg, s`alive, s`client, s`ptyOpen, s`defunct, ClientOf(s)`session, ClientOf(s)`wantClose
      ensures Valid() && Shrunk() && GroupsFrom() && reg == old(reg)
      ensures Snap() == Exited(old(Snap()), s.pid)
      ensures Progress(old(Snap()), Snap(), true, true)
    {
      hide ListsOk, LinksOk, RingsOk, FlowsOk, BooksOk, FirstWith, Exited, Snap, Onward, OutputKept, InputKept, LeavingOnly, ExitOnly;
      ListedLives(s);
      ClientListed(s);
      BuryExited(s);
      LeavingMoves();
      HasExited(s);
    }

    method BuryExited(s: Session)
      requires Valid() && s in sessions && s == FirstWith(sessions, s.pid) && !s.defunct && forall d <- ClientOf(s) :: d in conns && d.session == s
      modifies `sessions, `dead, `groups, `reg, s`alive, s`client, s`ptyOpen, s`defunct, ClientOf(s)`session, ClientOf(s)`wantClose
      ensures Valid() && Shrunk() && GroupsFrom() && reg == old(reg)
      ensures LeavingOnly() && ExitOnly(s)
    {
      hide ListsOk, LinksOk, RingsOk, FlowsOk, BooksOk, FirstWith;
      OneClient(s);
      s.alive := false;
      if s.removed {
        ReapRemoved(s);
      }
      ListsApart();
    }

    /** Only its client is bound to a session. */
    lemma OneClient(s: Session)
      requires LinksOk() && s in sessions
      ensures forall c <- conns :: c.session == s <==> c in ClientOf(s)
    {
    }

    /** Its child's exit shows on s, and on its client; and nobody else has changed. */
    twostate predicate ExitOnly(s: Session)
      reads *
    {
      && s in old(sessions) && s == old(FirstWith(sessions, s.pid)) && unchanged(`conns, `reg, `byId, `nextId, `running)
      && !s.alive && unchanged(s`output, s`typed, s`taken, s`pin, s`inputLost, s`removed, s`killing, s.out`starved)
      && (if s.removed then Departed(s) else unchanged(`sessions, `dead, s`ptyOpen) && unchanged(old(ClientOf(s))))
      && (forall t: Session | t in old(sessions + dead) && t != s :: unchanged(t) && unchanged(t.out`starved))
      && (forall c <- old(conns) :: c !in old(ClientOf(s)) ==> unchanged(c))
      && (forall c <- old(conns) :: old(c.session) == s <==> c in old(ClientOf(s)))
    }

    twostate lemma HasExited(s: Session)
      requires ExitOnly(s)
      ensures Snap() == Exited(old(Snap()), s.pid)
    {
      hide Snap, Without, FirstWith;
      SnapSession(s);
      if s.removed {
        DepartedSess(s);
        DepartedConns(s);
      } else {
        DiedOnly(s);
      }
    }

    twostate lemma SnapSession(s: Session)
      requires s in old(sessions)
      ensures s in old(Snap()).sess && old(Snap()).sess[s] == old(SessionRecord(s, true))
    {
    }

    twostate lemma DiedOnly(s: Session)
      requires s in old(sessions) && unchanged(`conns, `sessions, `dead) && unchanged(old(conns))
      requires forall t: Session | t in old(sessions + dead) && t != s :: unchanged(t) && unchanged(t.out`starved)
      ensures Snap().sess == old(Snap()).sess[s := SessionRecord(s, true)] && Snap().conns == old(Snap()).conns
    {
      forall c | c in conns ensures Snap().conns[c] == RecordOf(c) == old(Snap()).conns[c] { SnapConn(c); }
    }

    /** s has left the list, and waits for its deferred free. */
    twostate predicate Unlisted(s: Session)
      reads this
    {
      && sessions == Without(old(sessions), s) && dead == [s] + old(dead) && s !in sessions
      && (forall t <- sessions :: t in old(sessions)) && (forall t <- old(sessions) :: t != s ==> t in sessions)
    }

    /** s has left the list for good, and its client has been told. */
    twostate predicate Departed(s: Session)
      reads *
    {
      && Unlisted(s) && !s.ptyOpen
      && (forall c: Connection | c in old(ClientOf(s)) :: c.session == null && c.wantClose && Silent(c))
    }

    /** Nothing has moved on c. */
    twostate predicate Silent(c: Connection)
      reads c
    {
      unchanged(c`isData, c`lossy, c`queued, c`sent, c`received, c`frames, c`raw, c`mark, c`start, c`joinedAt, c`typedStart, c`shortReplay, c`head)
    }

    twostate lemma DepartedSess(s: Session)
      requires s in old(sessions) && Departed(s)
      requires forall t: Session | t in old(sessions + dead) && t != s :: unchanged(t) && unchanged(t.out`starved)
      ensures Snap().sess == old(Snap()).sess[s := SessionRecord(s, false)]
    {
      hide Without, Snap;
      assert Snap().sess.Keys == old(Snap()).sess.Keys;
      forall t | t in old(sessions + dead) ensures Snap().sess[t] == if t == s then SessionRecord(s, false) else old(Snap()).sess[t] { SnapSess(t); }
    }

    twostate lemma DepartedConns(s: Session)
      requires unchanged(`conns) && Departed(s)
      requires forall c <- old(conns) :: c !in old(ClientOf(s)) ==> unchanged(c)
      requires forall c <- old(conns) :: old(c.session) == s <==> c in old(ClientOf(s))
      ensures Snap().conns ==
        var p := old(Snap()).conns; map c | c in p :: if p[c].session == s then p[c].(session := null, wantClose := true) else p[c]
    {
      hide Without;
    }

    /** A session killed earlier goes for good; its group already has. */
    method ReapRemoved(s: Session)
      requires Valid() && s in sessions && s.removed && !s.defunct
      modifies `sessions, `dead, `groups, `reg, s`client, s`ptyOpen, s`defunct, ClientOf(s)`session, ClientOf(s)`wantClose
      ensures Valid() && Shrunk() && GroupsFrom() && reg == old(reg) && s in dead && (forall t <- old(sessions) :: t != s ==> t in sessions)
      ensures sessions == Without(old(sessions), s) && dead == [s] + old(dead)
      ensures !s.ptyOpen && forall c <- old(ClientOf(s)) :: c.session == null && c.wantClose
    {
      hide ListsOk, LinksOk, RingsOk, FlowsOk, BooksOk, Registry.DropFrom;
      RemovedIsGone(s);
      Registry.DropAbsent(reg, s.id);
      RemoveSession(s);
      DeadIsInert(s);
    }

    lemma DeadIsInert(s: Session)
      requires LinksOk() && s in dead
      ensures !s.ptyOpen
    {
    }

    /** process_kill_deadlines: a session is escalated at most once. */
    method ProcessDeadlines(due: nat -> bool)
      requires Valid()
      modifies sessions`killing
      ensures Valid()
      ensures forall s <- sessions :: s.killing == (old(s.killing) && !(s.alive && due(s.id)))
    {
      hide LinksOk, RingsOk, FlowsOk, BooksOk;
      var i := 0;
      while i < |sessions|
        invariant i <= |sessions| && Valid()
        invariant forall k :: 0 <= k < i ==> sessions[k].killing == (old(sessions[k].killing) && !(sessions[k].alive && due(sessions[k].id)))
        invariant forall k :: i <= k < |sessions| ==> sessions[k].killing == old(sessions[k].killing)
      {
        if sessions[i].killing && sessions[i].alive && due(sessions[i].id) {
          sessions[i].killing := false;
        }
        i := i + 1;
      }
    }

    // --- the event loop ---

    /** Everything the daemon refers to. */
    ghost function Footprint(): set<object>
      reads `sessions, `dead, `conns, `groups, (set s <- sessions :: s.out)
    {
      {this} + (set s <- sessions :: s as object) + (set s <- dead :: s as object) + (set c <- conns :: c as object)
      + (set g <- groups :: g as object) + Rings()
    }

    lemma Reach()
      ensures forall k :: 0 <= k < |sessions| ==> sessions[k] in Footprint()
      ensures forall k :: 0 <= k < |dead| ==> dead[k] in Footprint()
      ensures forall k :: 0 <= k < |conns| ==> conns[k] in Footprint()
      ensures forall k :: 0 <= k < |groups| ==> groups[k] in Footprint()
    {
      forall s | s in sessions ensures s in Footprint() { assert s in set t <- sessions :: t as object; }
      forall s | s in dead ensures s in Footprint() { assert s in set t <- dead :: t as object; }
      forall c | c in conns ensures c in Footprint() { assert c in set t <- conns :: t as object; }
      forall g | g in groups ensures g in Footprint() { assert g in set t <- groups :: t as object; }
    }

    /** A session's descriptor is ready. A session removed earlier in the batch is
        recognised as defunct, and still allocated. */
    method OnPty(s: Session, writable: bool, ws: seq<WriteOutcome>, readable: bool, rs: seq<PtyOutcome>)
      requires Valid() && Quiet() && (s in sessions || s in dead)
      modifies `sessions, `dead, `groups, `reg, s`client, s`ptyOpen, s`defunct, s`output, s.out, s.out.buf, s`pin, s`taken, s`inputLost
      modifies ClientOf(s)`session, ClientOf(s)`wantClose, ClientOf(s)`wbuf, ClientOf(s)`wpos, ClientOf(s)`sent, ClientOf(s)`queued, ClientOf(s)`lossy
      ensures Valid() && Quiet() && Shrunk() && GroupsFrom() && reg == old(reg)
      ensures s.out.buf == old(s.out.buf) || fresh(s.out.buf)
      ensures PtyServed(old(Snap()), Snap(), OfPty(s, writable, ws, readable, rs))
      ensures Progress(old(Snap()), Snap(), AmplePty(rs), Clean(ws))
    {
      DefunctIsDead(s);
      hide ListsOk, LinksOk, RingsOk, FlowsOk, BooksOk, AmplePty, Clean, PtyServed, Snap, Progress;
      if !s.defunct {
        OnLivePty(s, writable, ws, readable, rs);
      } else {
        PtyIgnored(OfPty(s, writable, ws, readable, rs));
      }
    }

    lemma DefunctIsDead(s: Session)
      requires ListsOk() && LinksOk() && (s in sessions || s in dead)
      ensures !s.freed && (s.defunct <==> s !in sessions)
    {
    }

    lemma PtyIgnored(ev: Event)
      requires Valid() && ev.OfPty? && ev.s in dead && ev.s !in sessions
      ensures PtyServed(Snap(), Snap(), ev)
      ensures Progress(Snap(), Snap(), AmplePty(ev.rs), Clean(ev.ws))
    {
      hide ListsOk, LinksOk, RingsOk, FlowsOk, BooksOk, Sound, Onward, OutputKept, InputKept;
      SnapSound();
      ProgressSelf(Snap());
    }

    /** The two records of the session, and those of its client, tell what happened;
        nobody else has noticed. */
    twostate lemma PtyTold(ev: Event)
      requires ev.OfPty? && ev.s in old(sessions) && unchanged(`conns, `reg, `byId, `nextId, `running) && Hung(ev.s)
      requires Drained(old(SessionRecord(ev.s, true)), SessionRecord(ev.s, ev.s in sessions), ev.writable, ev.ws, ev.readable && old(ev.s.ptyOpen), ev.rs)
      requires forall t: Session | t in old(sessions + dead) && t != ev.s :: unchanged(t)
      requires forall t: Session | t in old(sessions) && t != ev.s :: unchanged(t.out`starved)
      requires forall c <- old(conns) ::
        if old(c.session) == ev.s then Showed(old(RecordOf(c)), RecordOf(c), ev.readable && old(ev.s.ptyOpen), old(ev.s.removed), ev.rs) else unchanged(c)
      ensures PtyServed(old(Snap()), Snap(), ev)
    {
      hide Drained, Showed, Without, Snap;
      ghost var p, q := old(Snap()), Snap();
      assert q.sess.Keys == p.sess.Keys;
      SnapSess(ev.s);
      forall t | t in old(sessions + dead) && t != ev.s ensures q.sess[t] == p.sess[t] { SnapSess(t); }
      forall c | c in conns ensures p.conns[c] == old(RecordOf(c)) && q.conns[c] == RecordOf(c) { SnapConn(c); }
      assert q.order == if q.sess[ev.s].listed then p.order else Without(p.order, ev.s);
    }

    method OnLivePty(s: Session, writable: bool, ws: seq<WriteOutcome>, readable: bool, rs: seq<PtyOutcome>)
      requires Valid() && Quiet() && s in sessions
      modifies `sessions, `dead, `groups, `reg, s`client, s`ptyOpen, s`defunct, s`output, s.out, s.out.buf, s`pin, s`taken, s`inputLost
      modifies ClientOf(s)`session, ClientOf(s)`wantClose, ClientOf(s)`wbuf, ClientOf(s)`wpos, ClientOf(s)`sent, ClientOf(s)`queued, ClientOf(s)`lossy
      ensures Valid() && Quiet() && Shrunk() && GroupsFrom() && reg == old(reg)
      ensures s.out.buf == old(s.out.buf) || fresh(s.out.buf)
      ensures PtyServed(old(Snap()), Snap(), OfPty(s, writable, ws, readable, rs))
      ensures Progress(old(Snap()), Snap(), AmplePty(rs), Clean(ws))
    {
      hide ListsOk, LinksOk, RingsOk, FlowsOk, BooksOk, Quiet, Bout, TypedOut, AmplePty, Clean, PtyServed, Snap, Onward, OutputKept, InputKept;
      OneClient(s);
      ClientListed(s);
      RingsApart(s);
      FlushAndRead(s, writable, ws, readable, rs);
      StreamsGrow();
      BoutTold(OfPty(s, writable, ws, readable, rs));
    }

    method FlushAndRead(s: Session, writable: bool, ws: seq<WriteOutcome>, readable: bool, rs: seq<PtyOutcome>)
      requires Valid() && s in sessions
      modifies `sessions, `dead, `groups, `reg, s`client, s`ptyOpen, s`defunct, s`output, s.out, s.out.buf, s`pin, s`taken, s`inputLost
      modifies ClientOf(s)`session, ClientOf(s)`wantClose, ClientOf(s)`wbuf, ClientOf(s)`wpos, ClientOf(s)`sent, ClientOf(s)`queued, ClientOf(s)`lossy
      ensures Valid() && Shrunk() && GroupsFrom() && reg == old(reg)
      ensures s.out.buf == old(s.out.buf) || fresh(s.out.buf)
      ensures TypedOut(s, writable, ws) && Bout(s, readable && old(s.ptyOpen), rs)
      ensures Progress(old(Snap()), Snap(), AmplePty(rs), Clean(ws))
    {
      hide Valid, LinksOk, TypedOut, Taken, Passed, Handed, Backlog, Chokes, AmplePty, Clean, Snap, Progress;
      ghost var p := Snap();
      ValidLinks();
      ListedLives(s);
      FlushTyped(s, writable, ws);
      assert sessions == old(sessions) && dead == old(dead) && groups == old(groups) && s.client == old(s.client);
      assert s.out.buf == old(s.out.buf);
      ReadableMore(s, readable, rs, p, Clean(ws));
    }

    twostate lemma BoutTold(ev: Event)
      requires ev.OfPty? && ev.s in old(sessions) && unchanged(`conns, `reg, `byId, `nextId, `running)
      requires Bout(ev.s, ev.readable && old(ev.s.ptyOpen), ev.rs) && TypedOut(ev.s, ev.writable, ev.ws)
      requires unchanged(ev.s`typed, ev.s`alive, ev.s`removed, ev.s`killing)
      requires forall t: Session | t in old(sessions + dead) && t != ev.s :: unchanged(t)
      requires forall t: Session | t in old(sessions) && t != ev.s :: unchanged(t.out`starved)
      requires forall c: Connection | c in old(conns) :: if old(c.session) == ev.s
        then c in old(ClientOf(ev.s)) && unchanged(c`isData, c`received, c`frames, c`raw, c`mark, c`start, c`joinedAt, c`typedStart, c`shortReplay, c`head)
        else unchanged(c)
      requires forall c <- conns :: old(c.sent) <= c.sent
      ensures PtyServed(old(Snap()), Snap(), ev)
    {
      hide Taken, Passed, Handed, PtyServed, Snap, Without;
      PtyTold(ev);
    }

    twostate lemma StreamsGrow()
      requires unchanged(`conns) && Onward(old(Snap()), Snap())
      ensures forall c <- conns :: old(c.sent) <= c.sent && (old(c.wantClose) ==> c.wantClose)
    {
      hide JoinedSince, SessOnward, Registry.Reaches;
      forall c | c in conns ensures old(c.sent) <= c.sent && (old(c.wantClose) ==> c.wantClose) {
        SnapConn(c);
        assert ConnOnward(old(Snap()).conns[c], Snap().conns[c]);
      }
    }

    lemma RingsApart(s: Session)
      requires ListsOk() && RingsOk() && s in sessions
      ensures s !in dead && forall t <- sessions :: t != s ==> t.out != s.out
    {
    }

    /** The reading part, seen from an earlier state. */
    method ReadableMore(s: Session, readable: bool, rs: seq<PtyOutcome>, ghost p: Snapshot, ghost calm: bool)
      requires Valid() && s in sessions && !s.defunct && Progress(p, Snap(), true, calm)
      modifies `sessions, `dead, `groups, `reg, s`client, s`ptyOpen, s`defunct, s`output, s.out, s.out.buf
      modifies ClientOf(s)`session, ClientOf(s)`wantClose, ClientOf(s)`wbuf, ClientOf(s)`wpos, ClientOf(s)`sent, ClientOf(s)`queued, ClientOf(s)`lossy
      ensures Valid() && Shrunk() && GroupsFrom() && reg == old(reg)
      ensures s.out.buf == old(s.out.buf) || fresh(s.out.buf)
      ensures Bout(s, readable && old(s.ptyOpen), rs)
      ensures Progress(p, Snap(), AmplePty(rs), calm)
    {
      hide ListsOk, LinksOk, RingsOk, FlowsOk, BooksOk, Taken, Passed, Handed;
      hide Backlog, AmplePty, Sound, Snap, Onward, OutputKept, InputKept, Registry.Reaches;
      if readable {
        ghost var q := Snap();
        SnapSound();
        PtyReadable(s, rs);
        SnapSound();
        ProgressTrans(p, q, Snap(), AmplePty(rs), calm);
      }
    }

    /** A ready master has taken its share of the keyboard queue. */
    twostate predicate TypedOut(s: Session, new writable: bool, new ws: seq<WriteOutcome>)
      reads s`pin, s`taken, s`inputLost
    {
      if !writable then s.taken == old(s.taken) && s.pin == old(s.pin) && s.inputLost == old(s.inputLost)
      else if !old(s.ptyOpen) then s.taken == old(s.taken) && s.pin == [] && s.inputLost == (old(s.inputLost) || old(s.pin) != [])
      else
        var (k, bad) := Drain(|old(s.pin)|, ws);
        s.taken == old(s.taken) + old(s.pin)[..k] && s.pin == (if bad then [] else old(s.pin)[k..]) && s.inputLost == (old(s.inputLost) || bad)
    }

    method FlushTyped(s: Session, writable: bool, ws: seq<WriteOutcome>)
      requires Valid() && s in sessions
      modifies s`pin, s`taken, s`inputLost
      ensures Valid() && TypedOut(s, writable, ws)
      ensures Progress(old(Snap()), Snap(), true, Clean(ws))
    {
      hide ListsOk, LinksOk, RingsOk, FlowsOk, BooksOk, Snap, Onward, OutputKept, InputKept, Registry.Reaches, Drain;
      if Clean(ws) { CleanDrains(|s.pin|, ws); }
      if writable {
        FlushSession(s, ws);
      }
      DrainMoves(s);
    }

    /** s has handed keyboard input to its PTY. */
    twostate predicate DrainOnly(s: Session)
      reads *
    {
      && unchanged(this) && s in sessions && unchanged(conns)
      && (forall t: Session | t in sessions + dead :: unchanged(t`output, t`typed, t`ptyOpen, t`alive, t`removed, t`killing))
      && (forall t: Session | t in sessions + dead && t != s :: unchanged(t))
      && (forall t: Session | t in sessions :: unchanged(t.out`starved))
      && old(s.taken) <= s.taken && (old(s.inputLost) ==> s.inputLost)
    }

    twostate lemma DrainMoves(s: Session)
      requires DrainOnly(s)
      ensures Onward(old(Snap()), Snap()) && OutputKept(old(Snap()), Snap())
      ensures (s.inputLost && s.ptyOpen ==> old(s.inputLost)) ==> InputKept(old(Snap()), Snap())
    {
      hide Snap, Onward, OutputKept, InputKept, Registry.Reaches, ConnsMove;
      hide SessionsMove, Joining, Numbering, OutputSafe, InputSafe, DrainOnly;
      DrainOnwards(s);
      DrainSafe(s);
      Registry.ReachesSelf(reg);
      Moved();
    }

    twostate lemma DrainOnwards(s: Session)
      requires DrainOnly(s)
      ensures ConnsMove() && SessionsMove() && Joining() && Numbering() && reg == old(reg)
    {
      assert s in sessions + dead;
    }

    twostate lemma DrainSafe(s: Session)
      requires DrainOnly(s)
      ensures OutputSafe() && ((s.inputLost && s.ptyOpen ==> old(s.inputLost)) ==> InputSafe())
    {
      assert s in sessions + dead;
    }

    lemma ListedLives(s: Session)
      requires LinksOk() && s in sessions
      ensures !s.defunct && !s.freed
    {
    }

    method FlushSession(s: Session, ws: seq<WriteOutcome>)
      requires FlowsOk() && s in sessions
      modifies s`pin, s`taken, s`inputLost
      ensures FlowsOk()
      ensures TypedOut(s, true, ws)
    {
      hide Fails, Tapped, Connection.OutOk, Connection.CutOk, Connection.OpenOk;
      s.FlushInput(ws);
    }

    method WritePending(c: Connection, ws: seq<WriteOutcome>)
      requires FlowsOk() && c in conns
      modifies c`wbuf, c`wpos, c`wantClose, c`sent
      ensures FlowsOk() && Flushed(old(RecordOf(c)), RecordOf(c), true, ws) && c.sent == old(c.sent) + old(GoneWith(c, [], ws))
    {
      hide Tapped, Waiting, Parse, Drain, Connection.CutOk, Session.InOk;
      assert |c.Pending()| == Backlog(c);
      GonePlain(c, ws);
      c.Flush(ws);
    }

    method FlushConn(c: Connection, ws: seq<WriteOutcome>)
      requires FlowsOk() && c in conns
      modifies c`wbuf, c`wpos, c`wantClose, c`sent
      ensures FlowsOk()
      ensures Flushed(old(RecordOf(c)), RecordOf(c), true, ws)
      ensures Progress(old(Snap()), Snap(), true, true) && SameTalk(old(Snap()), Snap(), c)
    {
      hide Goes, Snap, Onward, OutputKept, InputKept, Registry.Reaches, Drain;
      WritePending(c, ws);
      ConnMoves(c);
      ConnGoes(c);
    }

    /** Close once a closing connection has drained. */
    method CloseIfDrained(c: Connection)
      requires Valid() && Quiet() && c in conns
      modifies `conns, c`freed, c`session, BoundTo(c)`client
      ensures Valid() && Quiet() && (forall d <- old(conns) :: d != c ==> d in conns) && (forall d <- conns :: d in old(conns))
      ensures c !in conns <==> c.wantClose && c.wpos == |c.wbuf|
      ensures c !in conns ==> c.freed
      ensures Progress(old(Snap()), Snap(), true, true) && DrainedAway(old(Snap()), Snap(), c)
    {
      hide ListsOk, LinksOk, RingsOk, FlowsOk, BooksOk, DrainedAway, Snap, Onward, OutputKept, InputKept, Registry.Reaches;
      AllSent(c);
      if c.wantClose && |c.wbuf| == c.wpos {
        CloseConn(c);
      }
      ListMoves();
      GoneIfDrained(c);
    }

    lemma AllSent(c: Connection)
      requires FlowsOk() && c in conns
      ensures c.wpos == |c.wbuf| <==> |c.sent| == |c.queued|
    {
      assert c.OutOk();
    }

    twostate lemma GoneIfDrained(c: Connection)
      requires unchanged(`sessions, `dead, `reg, `byId, `nextId, `running) && c in old(conns) && forall d <- conns :: d in old(conns) && unchanged(d)
      requires forall s: Session | s in sessions + dead ::
        unchanged(s`output, s`typed, s`taken, s`pin, s`inputLost, s`ptyOpen, s`alive, s`removed, s`killing, s.out`starved)
      requires if old(c.wantClose && |c.sent| == |c.queued|)
        then c !in conns && conns == Without(old(conns), c) && (forall d <- old(conns) :: d != c ==> d in conns)
        else conns == old(conns)
      ensures DrainedAway(old(Snap()), Snap(), c)
    {
      hide Snap, Without;
      ghost var p, q := old(Snap()), Snap();
      SessionsAlike();
      SnapOldConn(c);
      forall d | d in conns ensures q.conns[d] == p.conns[d] { SnapConn(d); }
      assert c !in conns ==> q.conns == p.conns - {c};
      assert c in conns ==> q.conns == p.conns;
    }

    twostate lemma SnapOldConn(c: Connection)
      requires c in old(conns)
      ensures c in old(Snap()).conns && old(Snap()).conns[c] == old(RecordOf(c))
    {
    }

    twostate lemma SessionsAlike()
      requires unchanged(`sessions, `dead) && forall s: Session | s in sessions + dead ::
        unchanged(s`output, s`typed, s`taken, s`pin, s`inputLost, s`ptyOpen, s`alive, s`removed, s`killing, s.out`starved)
      ensures Snap().sess == old(Snap()).sess
    {
    }

    method FlushReady(c: Connection, writable: bool, ws: seq<WriteOutcome>)
      requires Valid() && c in conns
      modifies c`wbuf, c`wpos, c`wantClose, c`sent
      ensures Valid() && Flushed(old(RecordOf(c)), RecordOf(c), writable, ws)
      ensures Progress(old(Snap()), Snap(), true, true) && SameTalk(old(Snap()), Snap(), c)
    {
      hide ListsOk, LinksOk, RingsOk, FlowsOk, BooksOk, Goes, Snap, Onward, OutputKept, InputKept, Registry.Reaches;
      if writable {
        FlushConn(c, ws);
      } else {
        ConnMoves(c);
        ConnGoes(c);
      }
    }

    lemma BoundIsListed(c: Connection)
      requires LinksOk() && c in conns
      ensures !c.freed && (c.session != null ==> c.isData) && forall s <- BoundTo(c) :: s in sessions
    {
    }

    /** A connection's descriptor is ready: flush, read, and close once a closing
        connection has drained. */
    method OnConn(c: Connection, writable: bool, ws: seq<WriteOutcome>, readable: bool, r: ReadOutcome, envs: nat -> Env)
      returns (ghost st: Stage)
      requires Valid() && Quiet() && c in conns
      modifies this, sessions, conns, groups
      ensures Valid() && Quiet() && Ageing() && GroupsFrom()
      ensures (forall d <- old(conns) :: d != c ==> d in conns) && (forall d <- conns :: d in old(conns))
      ensures c !in conns <==> c.wantClose && c.wpos == |c.wbuf|
      ensures st.end == Snap() && ConnServed(old(Snap()), st, OfConn(c, writable, ws, readable, r, envs))
      ensures Progress(old(Snap()), Snap(), AmpleAll(envs), Calm(envs(0)))
    {
      hide ListsOk, LinksOk, RingsOk, FlowsOk, BooksOk, AmpleAll, Calm, Streamed;
      hide Conversed, DrainedAway, Snap, Progress, Ageing, GroupsFrom, Flushed, TakenIn;
      ghost var p := Snap();
      ghost var t, b := FlushThenRead(c, writable, ws, readable, r, envs);
      Streams(old(RecordOf(c)), b, RecordOf(c), OfConn(c, writable, ws, readable, r, envs), t.refused);
      SessionAge(c);
      ghost var m := Snap();
      SnapConn(c);
      CloseReady(c, p, AmpleAll(envs), Calm(envs(0)));
      st := Stage(t, m, Snap());
    }

    method FlushThenRead(c: Connection, writable: bool, ws: seq<WriteOutcome>, readable: bool, r: ReadOutcome, envs: nat -> Env)
      returns (ghost t: Talk, ghost b: ConnRecord)
      requires Valid() && Quiet() && c in conns
      modifies `sessions, `dead, `groups, `reg, `nextId, `byId, `groupOf, `nextGroupId
      modifies sessions`client, sessions`ptyOpen, sessions`defunct, sessions`killing, sessions`removed, sessions`gid, groups`blob
      modifies sessions`pin, sessions`typed, sessions`taken, sessions`inputLost
      modifies conns`session, conns`wantClose, c`isData, c`raw, c`received, c`wbuf, c`wpos, c`queued, c`lossy, c`sent
      modifies c`mark, c`start, c`joinedAt, c`typedStart, c`shortReplay, c`head, c`frames, c`consumed, c`used, c`rbuf, c`reading
      ensures Valid() && Quiet() && Ageing() && GroupsFrom()
      ensures Flushed(old(RecordOf(c)), b, writable, ws) && TakenIn(b, RecordOf(c), readable, r, t.refused)
      ensures Conversed(old(Snap()), Snap(), c, t, envs) && (!readable ==> t == Talk([], [], [], false))
      ensures Progress(old(Snap()), Snap(), AmpleAll(envs), Calm(envs(0)))
    {
      hide Valid, AmpleAll, Calm, SameTalk, Conversed, Snap, Progress, Flushed, TakenIn, Rings;
      ghost var p := Snap();
      FlushReady(c, writable, ws);
      assert Rings() == old(Rings()) && sessions == old(sessions) && dead == old(dead) && groups == old(groups);
      b := RecordOf(c);
      t := ReadReady(c, readable, r, envs, p);
    }

    /** The reading part, seen from an earlier state. */
    method ReadReady(c: Connection, readable: bool, r: ReadOutcome, envs: nat -> Env, ghost p: Snapshot) returns (ghost t: Talk)
      requires Valid() && Quiet() && c in conns && Progress(p, Snap(), true, true) && SameTalk(p, Snap(), c)
      modifies `sessions, `dead, `groups, `reg, `nextId, `byId, `groupOf, `nextGroupId
      modifies sessions`client, sessions`ptyOpen, sessions`defunct, sessions`killing, sessions`removed, sessions`gid, groups`blob
      modifies sessions`pin, sessions`typed, sessions`taken, sessions`inputLost
      modifies conns`session, conns`wantClose, c`isData, c`raw, c`received, c`wbuf, c`wpos, c`queued, c`lossy
      modifies c`mark, c`start, c`joinedAt, c`typedStart, c`shortReplay, c`head, c`frames, c`consumed, c`used, c`rbuf, c`reading
      ensures Valid() && Quiet() && Ageing() && GroupsFrom()
      ensures TakenIn(old(RecordOf(c)), RecordOf(c), readable, r, t.refused) && (!readable ==> t == Talk([], [], [], false))
      ensures Progress(p, Snap(), AmpleAll(envs), Calm(envs(0))) && Conversed(p, Snap(), c, t, envs)
    {
      hide ListsOk, LinksOk, RingsOk, FlowsOk, BooksOk, AmpleAll, Calm, TakenIn, SameTalk, Conversed, Snap, Progress;
      if readable {
        t := ReadOn(c, r, envs, p);
      } else {
        t := Talk([], [], [], false);
        SkipRead(c, r, envs, p);
      }
    }

    lemma SkipRead(c: Connection, r: ReadOutcome, envs: nat -> Env, p: Snapshot)
      requires Valid() && c in conns && Progress(p, Snap(), true, true) && SameTalk(p, Snap(), c)
      ensures TakenIn(RecordOf(c), RecordOf(c), false, r, false)
      ensures Progress(p, Snap(), AmpleAll(envs), Calm(envs(0))) && Conversed(p, Snap(), c, Talk([], [], [], false), envs)
    {
      hide ListsOk, LinksOk, RingsOk, FlowsOk, BooksOk, AmpleAll, Calm, TakenIn, SameTalk, Conversed, Snap, Progress;
      NotRead(RecordOf(c), r);
      ConversedNot(p, Snap(), c, envs);
      ProgressWeaken(p, Snap(), AmpleAll(envs), Calm(envs(0)));
    }

    method ReadOn(c: Connection, r: ReadOutcome, envs: nat -> Env, ghost p: Snapshot) returns (ghost t: Talk)
      requires Valid() && Quiet() && c in conns && Progress(p, Snap(), true, true) && SameTalk(p, Snap(), c)
      modifies `sessions, `dead, `groups, `reg, `nextId, `byId, `groupOf, `nextGroupId
      modifies sessions`client, sessions`ptyOpen, sessions`defunct, sessions`killing, sessions`removed, sessions`gid, groups`blob
      modifies sessions`pin, sessions`typed, sessions`taken, sessions`inputLost
      modifies conns`session, conns`wantClose, c`isData, c`raw, c`received, c`wbuf, c`wpos, c`queued, c`lossy
      modifies c`mark, c`start, c`joinedAt, c`typedStart, c`shortReplay, c`head, c`frames, c`consumed, c`used, c`rbuf, c`reading
      ensures Valid() && Quiet() && Ageing() && GroupsFrom()
      ensures TakenIn(old(RecordOf(c)), RecordOf(c), true, r, t.refused)
      ensures Progress(p, Snap(), AmpleAll(envs), Calm(envs(0))) && Conversed(p, Snap(), c, t, envs)
    {
      hide Valid, AmpleAll, Calm, Keyed, ReadIn, TakenIn, Sound, SameTalk, Conversed, Snap, Progress, Ageing, GroupsFrom;
      ghost var q := Snap();
      SnapSound();
      t := ReadConn(c, r, envs);
      SnapSound();
      SnapConn(c);
      WasRead(old(RecordOf(c)), RecordOf(c), r, t.refused);
      ConversedSince(p, q, Snap(), c, t, envs, AmpleAll(envs), Calm(envs(0)));
    }

    method CloseReady(c: Connection, ghost p: Snapshot, ghost ample: bool, ghost calm: bool)
      requires Valid() && Quiet() && c in conns && Progress(p, Snap(), ample, calm)
      modifies `conns, c`freed, c`session, BoundTo(c)`client
      ensures Valid() && Quiet() && (forall d <- old(conns) :: d != c ==> d in conns) && (forall d <- conns :: d in old(conns))
      ensures c !in conns <==> c.wantClose && c.wpos == |c.wbuf|
      ensures Progress(p, Snap(), ample, calm) && DrainedAway(old(Snap()), Snap(), c)
    {
      hide ListsOk, LinksOk, RingsOk, FlowsOk, BooksOk, Sound, DrainedAway, Snap, Onward, OutputKept, InputKept, Registry.Reaches;
      ghost var q := Snap();
      SnapSound();
      CloseIfDrained(c);
      SnapSound();
      ProgressTrans(p, q, Snap(), ample, calm);
    }

    /** An event's source is still allocated: a listed connection, or a session that
        is listed or waiting for its deferred free. */
    predicate Live(ev: Event)
      reads `conns, `sessions, `dead
    {
      match ev
      case OfConn(c, _, _, _, _, _) => c in conns
      case OfPty(s, _, _, _, _) => s in sessions || s in dead
      case _ => true
    }

    /** No object enters the daemon's reach but a newly allocated one. */
    twostate predicate Grown()
      reads *
    {
      forall o <- Footprint() :: o in old(Footprint()) || fresh(o)
    }

    twostate lemma GrownBy()
      requires forall s <- sessions :: s in old(sessions) || fresh(s)
      requires forall o <- Rings() :: o in old(Rings()) || fresh(o)
      requires forall s <- dead :: s in old(dead) || s in old(sessions) || fresh(s)
      requires forall c <- conns :: c in old(conns) || fresh(c)
      requires forall g <- groups :: g in old(groups) || fresh(g)
      ensures Grown()
    {
      hide Rings;
    }

    /** Objects come from nowhere but the allocator, and leave for good. */
    twostate predicate Turnover()
      reads *
    {
      && (forall c <- conns :: c in old(conns) || fresh(c)) && (forall s <- sessions :: s in old(sessions) || fresh(s))
      && (forall s <- dead :: s in old(dead) || s in old(sessions) || fresh(s))
    }

    /** One event of a batch. It frees no session, and no connection but the one
        the event is about. */
    method Handle(ev: Event) returns (ghost st: Stage)
      requires Valid() && Quiet() && Live(ev)
      modifies Footprint()
      ensures Valid() && Quiet() && Grown() && Turnover()
      ensures forall s <- old(sessions) :: s in sessions || s in dead
      ensures forall s <- old(dead) :: s in dead
      ensures forall c <- old(conns) :: c in conns || (ev.OfConn? && ev.c == c)
      ensures st.end == Snap() && Effect(old(Snap()), st, ev)
      ensures Progress(old(Snap()), Snap(), AmpleEvent(ev), CalmEvent(ev))
    {
      hide ListsOk, LinksOk, RingsOk, FlowsOk, BooksOk, AmplePty, AmpleAll, Calm, Clean, Turnover, Snap, Progress;
      hide Admitted, AllExited, PtyServed, ConnServed, Ageing, Grown;
      ghost var p, ample, calm := Snap(), AmpleEvent(ev), CalmEvent(ev);
      Reach();
      match ev {
      case Accepting(oks) =>
        AcceptAll(oks);
        st := Stage(Talk([], [], [], false), p, Snap());
        ProgressWeaken(p, Snap(), ample, calm);
      case Signalled(exits, stop) =>
        HandleSignals(exits, stop);
        st := Stage(Talk([], [], [], false), p, Snap());
        ProgressWeaken(p, Snap(), ample, calm);
      case OfPty(s, w, ws, r, rs) =>
        HandlePty(s, w, ws, r, rs);
        st := Stage(Talk([], [], [], false), p, Snap());
      case OfConn(c, w, ws, r, o, envs) =>
        st := HandleConn(c, w, ws, r, o, envs);
      }
    }

    method HandleSignals(exits: seq<nat>, stop: bool)
      requires Valid() && Quiet()
      modifies `sessions, `dead, `groups, `reg, `running
      modifies sessions`alive, sessions`client, sessions`ptyOpen, sessions`defunct, conns`session, conns`wantClose
      ensures Valid() && Quiet() && Grown() && Turnover() && conns == old(conns)
      ensures forall s <- old(sessions) :: s in sessions || s in dead
      ensures forall s <- old(dead) :: s in dead
      ensures Snap() == AllExited(old(Snap()), exits).(running := old(running) && !stop)
      ensures Progress(old(Snap()), Snap(), true, true)
    {
      hide ListsOk, LinksOk, RingsOk, FlowsOk, BooksOk, AllExited, Snap, Progress;
      ReapAll(exits, stop);
      GrownBy();
    }

    /** accept_conn: every waiting client. */
    method AcceptAll(oks: seq<bool>)
      requires Valid() && Quiet()
      modifies `conns
      ensures Valid() && Quiet() && Grown() && Turnover()
      ensures forall c <- old(conns) :: c in conns
      ensures Progress(old(Snap()), Snap(), true, true) && Admitted(old(Snap()), Snap(), oks)
    {
      hide ListsOk, LinksOk, RingsOk, FlowsOk, BooksOk, Admitted, Snap, Progress;
      var i := 0;
      ghost var p := Snap();
      NoneAdmitted(oks);
      while i < |oks|
        invariant i <= |oks| && Valid() && Quiet()
        invariant (forall c <- conns :: c in old(conns) || fresh(c)) && (forall c <- old(conns) :: c in conns)
        invariant Progress(p, Snap(), true, true) && Admitted(p, Snap(), oks[..i])
      {
        AcceptMore(oks, i, p);
        i := i + 1;
      }
      assert oks[..i] == oks;
    }

    lemma NoneAdmitted(oks: seq<bool>)
      requires Valid()
      ensures Progress(Snap(), Snap(), true, true) && Admitted(Snap(), Snap(), oks[..0])
    {
      hide ListsOk, LinksOk, RingsOk, FlowsOk, BooksOk, Sound, Snap, Progress;
      SnapSound();
      ProgressSelf(Snap());
    }

    /** One more client, seen from an earlier state. */
    method AcceptMore(oks: seq<bool>, i: nat, ghost p: Snapshot)
      requires Valid() && Quiet() && i < |oks| && Progress(p, Snap(), true, true) && Admitted(p, Snap(), oks[..i])
      modifies `conns
      ensures Valid() && Quiet() && (forall c <- conns :: c in old(conns) || fresh(c)) && (forall c <- old(conns) :: c in conns)
      ensures Progress(p, Snap(), true, true) && Admitted(p, Snap(), oks[..i + 1])
    {
      hide ListsOk, LinksOk, RingsOk, FlowsOk, BooksOk, Sound, Admitted, Snap, Progress;
      ghost var q := Snap();
      SnapSound();
      var _ := AcceptConn(oks[i]);
      SnapSound();
      AdmittedMore(p, q, Snap(), oks, i);
      AdmittedBetween(p, q, Snap(), oks[..i], [oks[i]]);
      ProgressTrans(p, q, Snap(), true, true);
    }

    /** One more exit, seen from an earlier state. */
    method ReapMore(exits: seq<nat>, i: nat, ghost p: Snapshot)
      requires Valid() && Quiet() && i < |exits| && Progress(p, Snap(), true, true) && Snap() == AllExited(p, exits[..i])
      modifies `sessions, `dead, `groups, `reg, sessions`alive, sessions`client, sessions`ptyOpen, sessions`defunct, conns`session, conns`wantClose
      ensures Valid() && Quiet() && Shrunk() && GroupsFrom() && reg == old(reg)
      ensures Progress(p, Snap(), true, true) && Snap() == AllExited(p, exits[..i + 1])
    {
      hide ListsOk, LinksOk, RingsOk, FlowsOk, BooksOk, Exited, AllExited, Sound, Snap, Progress;
      ghost var q := Snap();
      SnapSound();
      ReapChild(exits[i]);
      SnapSound();
      AllExitedMore(p, exits, i);
      NobodyFreed();
      ProgressTrans(p, q, Snap(), true, true);
    }

    twostate lemma NobodyFreed()
      requires unchanged(`conns) && Shrunk()
      ensures old(Snap()).conns.Keys <= Snap().conns.Keys && old(Snap()).sess.Keys <= Snap().sess.Keys
    {
    }

    /** handle_signalfd: reap every exited child, then perhaps stop. */
    method ReapAll(exits: seq<nat>, stop: bool)
      requires Valid() && Quiet()
      modifies `sessions, `dead, `groups, `reg, `running
      modifies sessions`alive, sessions`client, sessions`ptyOpen, sessions`defunct, conns`session, conns`wantClose
      ensures Valid() && Quiet() && Shrunk() && GroupsFrom()
      ensures Snap() == AllExited(old(Snap()), exits).(running := old(running) && !stop)
      ensures Progress(old(Snap()), Snap(), true, true)
    {
      hide ListsOk, LinksOk, RingsOk, FlowsOk, BooksOk, AllExited, Snap, Progress;
      ghost var p := Snap();
      ReapEach(exits);
      ghost var q := Snap();
      label Reaped:
      if stop {
        running := false;
      }
      MayStop@Reaped();
      ProgressRunning(p, q, running);
    }

    /** reap_children. */
    method ReapEach(exits: seq<nat>)
      requires Valid() && Quiet()
      modifies `sessions, `dead, `groups, `reg, sessions`alive, sessions`client, sessions`ptyOpen, sessions`defunct, conns`session, conns`wantClose
      ensures Valid() && Quiet() && Shrunk() && GroupsFrom()
      ensures Snap() == AllExited(old(Snap()), exits) && Progress(old(Snap()), Snap(), true, true)
    {
      hide ListsOk, LinksOk, RingsOk, FlowsOk, BooksOk, Sound, Snap, Progress;
      var i := 0;
      ghost var p := Snap();
      SnapSound();
      ProgressSelf(p);
      hide AllExited;
      while i < |exits|
        invariant i <= |exits| && Valid() && Quiet() && Progress(p, Snap(), true, true) && Snap() == AllExited(p, exits[..i])
        invariant Shrunk() && GroupsFrom()
      {
        assert forall k :: 0 <= k < |sessions| ==> sessions[k] in old(sessions);
        ReapMore(exits, i, p);
        i := i + 1;
      }
      assert exits[..i] == exits;
    }

    twostate lemma MayStop()
      requires unchanged(`sessions, `dead, `conns, `reg, `byId, `nextId) && unchanged(old(sessions), old(dead), old(conns))
      requires forall s: Session | s in sessions :: unchanged(s.out`starved)
      ensures Snap() == old(Snap()).(running := running)
    {
      hide Snap;
      SameConns();
      SameSessions();
    }

    twostate lemma SameSessions()
      requires unchanged(`sessions, `dead) && unchanged(sessions, dead) && forall s: Session | s in sessions :: unchanged(s.out`starved)
      ensures Snap().sess == old(Snap()).sess
    {
    }

    method HandlePty(s: Session, writable: bool, ws: seq<WriteOutcome>, readable: bool, rs: seq<PtyOutcome>)
      requires Valid() && Quiet() && (s in sessions || s in dead)
      modifies Footprint()
      ensures Valid() && Quiet() && Grown() && Turnover() && conns == old(conns)
      ensures forall t <- old(sessions) :: t in sessions || t in dead
      ensures forall t <- old(dead) :: t in dead
      ensures PtyServed(old(Snap()), Snap(), OfPty(s, writable, ws, readable, rs))
      ensures Progress(old(Snap()), Snap(), AmplePty(rs), Clean(ws))
    {
      hide ListsOk, LinksOk, RingsOk, FlowsOk, BooksOk, AmplePty, Clean, PtyServed, Snap, Progress;
      DefunctIsDead(s);
      Reach();
      if !s.defunct {
        ClientListed(s);
        OnPty(s, writable, ws, readable, rs);
      } else {
        PtyIgnored(OfPty(s, writable, ws, readable, rs));
      }
      GrownBy();
    }

    method HandleConn(c: Connection, writable: bool, ws: seq<WriteOutcome>, readable: bool, r: ReadOutcome, envs: nat -> Env)
      returns (ghost st: Stage)
      requires Valid() && Quiet() && c in conns
      modifies this, sessions, conns, groups
      ensures Valid() && Quiet() && Grown() && Turnover()
      ensures forall t <- old(sessions) :: t in sessions || t in dead
      ensures forall t <- old(dead) :: t in dead
      ensures forall d <- old(conns) :: d in conns || d == c
      ensures st.end == Snap() && ConnServed(old(Snap()), st, OfConn(c, writable, ws, readable, r, envs))
      ensures Progress(old(Snap()), Snap(), AmpleAll(envs), Calm(envs(0)))
    {
      hide ListsOk, LinksOk, RingsOk, FlowsOk, BooksOk, AmpleAll, Calm, ConnServed, Snap, Onward, OutputKept, InputKept, Rings;
      st := OnConn(c, writable, ws, readable, r, envs);
      ConnKeeps(old(Snap()), st, OfConn(c, writable, ws, readable, r, envs));
      NobodyLost();
      GrownBy();
    }

    twostate lemma NobodyLost()
      requires old(ListsOk()) && old(Snap()).sess.Keys <= Snap().sess.Keys && Onward(old(Snap()), Snap())
      ensures (forall s <- old(sessions) :: s in sessions || s in dead) && (forall s <- old(dead) :: s in dead)
    {
      hide ConnOnward, JoinedSince, Registry.Reaches;
      forall s | s in old(sessions + dead) ensures s in sessions + dead && (s in sessions ==> s in old(sessions)) {
        assert s in old(Snap()).sess.Keys && s in Snap().sess.Keys;
        assert SessOnward(old(Snap()).sess[s], Snap().sess[s]);
      }
    }

    /** One more event, seen from an earlier state. */
    method HandleMore(ev: Event, ghost p: Snapshot, ghost ample: bool, ghost calm: bool) returns (ghost st: Stage)
      requires Valid() && Quiet() && Live(ev)
      requires Progress(p, Snap(), ample, calm) && (ample ==> AmpleEvent(ev)) && (calm ==> CalmEvent(ev))
      modifies Footprint()
      ensures Valid() && Quiet() && Grown()
      ensures forall s <- old(sessions) :: s in sessions || s in dead
      ensures forall s <- old(dead) :: s in dead
      ensures forall c <- old(conns) :: c in conns || (ev.OfConn? && ev.c == c)
      ensures st.end == Snap() && Effect(old(Snap()), st, ev) && Progress(p, Snap(), ample, calm)
    {
      hide ListsOk, LinksOk, RingsOk, FlowsOk, BooksOk, AmpleEvent, CalmEvent, Sound, Grown, Effect, Snap, Progress;
      ghost var q := Snap();
      SnapSound();
      st := Handle(ev);
      SnapSound();
      ProgressLess(q, Snap(), AmpleEvent(ev), CalmEvent(ev), ample, calm);
      ProgressTrans(p, q, Snap(), ample, calm);
    }

    /** What the kernel can report: objects that are live when the batch is
        collected, and a connection's descriptor at most once. */
    predicate Reportable(batch: seq<Event>)
      reads `conns, `sessions, `dead
    {
      && (forall k :: 0 <= k < |batch| ==> Live(batch[k]))
      && (forall i, j :: 0 <= i < j < |batch| && batch[i].OfConn? && batch[j].OfConn? ==> batch[i].c != batch[j].c)
    }

    /** One round of epi_server_run: a batch of events, then the deferred frees and
        the kill deadlines. */
    method RunBatch(batch: seq<Event>, due: nat -> bool) returns (ghost sts: seq<Stage>)
      requires Valid() && Quiet() && Reportable(batch)
      modifies Footprint()
      ensures Valid() && Quiet() && Grown() && dead == [] && Sound(Snap()) && Heard(Snap())
      ensures Rounded(old(Snap()), sts, Snap(), batch, due)
      ensures Progress(old(Snap()), Snap(), AmpleBatch(batch), CalmBatch(batch))
    {
      hide ListsOk, LinksOk, RingsOk, FlowsOk, BooksOk, Sound, Heard, Cleared, Partly, AmpleBatch, CalmBatch, Rounded, Snap, Progress;
      ghost var p := Snap();
      sts := RunEvents(batch);
      PartlyAll(p, sts, Snap(), batch, due);
      Reach();
      label Ran:
      EndBatch(due, p, AmpleBatch(batch), CalmBatch(batch));
      FootprintShrinks@Ran();
    }

    twostate lemma FootprintShrinks()
      requires unchanged(`sessions, `conns, `groups) && dead == [] && forall s <- sessions :: s.out.buf == old(s.out.buf)
      ensures Footprint() <= old(Footprint())
    {
    }

    /** The batch itself. */
    method RunEvents(batch: seq<Event>) returns (ghost sts: seq<Stage>)
      requires Valid() && Quiet() && Reportable(batch)
      modifies Footprint()
      ensures Valid() && Quiet() && Grown() && |sts| == |batch| && Partly(old(Snap()), sts, Snap(), batch)
      ensures Progress(old(Snap()), Snap(), AmpleBatch(batch), CalmBatch(batch))
    {
      hide ListsOk, LinksOk, RingsOk, FlowsOk, BooksOk, AmpleEvent, CalmEvent, Effect, Snap, Progress;
      var i := 0;
      ghost var p, ample, calm := Snap(), AmpleBatch(batch), CalmBatch(batch);
      NothingRead();
      ProgressWeaken(p, p, ample, calm);
      sts := [];
      assert Partly(p, sts, p, batch);
      hide Partly;
      while i < |batch|
        invariant i <= |batch| && Valid() && Quiet() && Grown() && Progress(p, Snap(), ample, calm)
        invariant forall k :: i <= k < |batch| ==> Live(batch[k])
        invariant |sts| == i && Partly(p, sts, Snap(), batch)
      {
        ghost var q := Snap();
        ghost var st := HandleMore(batch[i], p, ample, calm);
        PartlyMore(p, sts, q, st, batch);
        sts := sts + [st];
        i := i + 1;
      }
    }

    /** The deferred frees and the kill deadlines. */
    method EndBatch(due: nat -> bool, ghost p: Snapshot, ghost ample: bool, ghost calm: bool)
      requires Valid() && Quiet() && Progress(p, Snap(), ample, calm)
      modifies `dead, dead`freed, sessions`killing
      ensures Valid() && Quiet() && dead == [] && Sound(Snap()) && Heard(Snap()) && Snap() == Cleared(old(Snap()), due)
      ensures Progress(p, Snap(), ample, calm)
    {
      hide ListsOk, LinksOk, RingsOk, FlowsOk, BooksOk, Sound, Heard, Cleared, Snap, Progress;
      ghost var q := Snap();
      SnapSound();
      FreeAndExpire(due);
      SnapSound();
      SnapHeard();
      ClearedProgress(q, due);
      ProgressLess(q, Snap(), true, true, ample, calm);
      ProgressTrans(p, q, Snap(), ample, calm);
    }

    method FreeAndExpire(due: nat -> bool)
      requires Valid() && Quiet()
      modifies `dead, dead`freed, sessions`killing
      ensures Valid() && Quiet() && dead == [] && Snap() == Cleared(old(Snap()), due)
    {
      hide ListsOk, LinksOk, RingsOk, FlowsOk, BooksOk, Cleared, Snap, Progress;
      ListsApart();
      ReapDead();
      ProcessDeadlines(due);
      ClearedUp(due);
    }

    twostate lemma ClearedUp(due: nat -> bool)
      requires dead == [] && unchanged(`sessions, `conns, `reg, `byId, `nextId, `running) && unchanged(conns)
      requires forall s: Session | s in sessions :: unchanged(s`output, s`typed, s`taken, s`pin, s`inputLost, s`ptyOpen, s`alive, s`removed, s.out`starved)
      requires forall s <- sessions :: s.killing == (old(s.killing) && !(s.alive && due(s.id)))
      ensures Snap() == Cleared(old(Snap()), due)
    {
      hide Snap;
      ClearedSessions(due);
      SameConns();
    }

    twostate lemma SameConns()
      requires unchanged(`conns) && unchanged(conns)
      ensures Snap().conns == old(Snap()).conns
    {
      forall c | c in conns ensures Snap().conns[c] == RecordOf(c) == old(Snap()).conns[c] { SnapConn(c); }
    }

    twostate lemma ClearedSessions(due: nat -> bool)
      requires dead == [] && unchanged(`sessions)
      requires forall s: Session | s in sessions :: unchanged(s`output, s`typed, s`taken, s`pin, s`inputLost, s`ptyOpen, s`alive, s`removed, s.out`starved)
      requires forall s <- sessions :: s.killing == (old(s.killing) && !(s.alive && due(s.id)))
      ensures var p := old(Snap()).sess;
        Snap().sess == map s | s in p && s in old(sessions) :: p[s].(killing := p[s].killing && !(p[s].alive && due(s.id)))
    {
    }

    /** One more round. */
    method ServeRound(reports: seq<Report>, due: nat -> bool, ghost ps: seq<Snapshot>, ghost ample: bool, ghost calm: bool)
      returns (ghost sts: seq<Stage>)
      requires Valid() && Quiet() && dead == [] && Trace(ps, ample, calm) && ps[|ps| - 1] == Snap()
      requires (ample ==> AmpleReports(reports)) && (calm ==> CalmReports(reports))
      modifies Footprint()
      ensures Valid() && Quiet() && Grown() && dead == [] && Trace(ps + [Snap()], ample, calm)
      ensures Rounded(old(Snap()), sts, Snap(), Collected(reports, old(conns), old(sessions)), due)
    {
      hide ListsOk, LinksOk, RingsOk, FlowsOk, BooksOk, AmpleReports, CalmReports, AmpleBatch, CalmBatch, Sound, Heard, Grown, Footprint;
      hide Rounded, Trace, Collected, Snap, Progress;
      var batch := Collected(reports, conns, sessions);
      ListsApart();
      ConnsOnce();
      CollectedFrom(reports, conns, sessions);
      CollectedGrants(reports, conns, sessions);
      sts := RunBatch(batch, due);
      ProgressLess(old(Snap()), Snap(), AmpleBatch(batch), CalmBatch(batch), ample, calm);
      TraceGrows(ps, Snap(), ample, calm);
    }

    /** epi_server_run, for so many rounds or until it is told to stop: whatever the
        kernel reports and the environment answers, each round collects the reports
        about what is listed by then, every event has its effect, and the states
        between the rounds form a run in the sense of the theorems of History. */
    method Serve(next: nat -> seq<Report>, due: nat -> nat -> bool, rounds: nat)
      returns (ghost ps: seq<Snapshot>, ghost sts: seq<seq<Stage>>)
      requires Valid() && Quiet() && dead == [] && Snap() == START
      modifies Footprint()
      ensures Valid() && Quiet() && Ran(ps, sts, next, due) && ps[|ps| - 1] == Snap()
      ensures |sts| <= rounds && (running ==> |sts| == rounds)
      ensures Trace(ps, forall i: nat :: AmpleReports(next(i)), forall i: nat :: CalmReports(next(i)))
    {
      hide ListsOk, LinksOk, RingsOk, FlowsOk, BooksOk, AmpleReports, CalmReports, Sound, Heard, Snap, Progress, Rounded;
      ghost var ample, calm := forall i: nat :: AmpleReports(next(i)), forall i: nat :: CalmReports(next(i));
      ps, sts := [Snap()], [];
      SnapSound();
      SnapHeard();
      assert Trace(ps, ample, calm) && Ran(ps, sts, next, due);
      hide Trace, Ran;
      var i := 0;
      while running && i < rounds
        invariant i <= rounds && Valid() && Quiet() && Grown() && dead == [] && Trace(ps, ample, calm)
        invariant |sts| == i && |ps| == i + 1 && Ran(ps, sts, next, due) && ps[i] == Snap()
      {
        ghost var st := ServeRound(next(i), due(i), ps, ample, calm);
        RanMore(ps, sts, Snap(), st, next, due);
        ps, sts := ps + [Snap()], sts + [st];
        i := i + 1;
      }
    }

    lemma ConnsOnce()
      requires ListsOk()
      ensures NoDup(conns)
    {
    }
  }
}
