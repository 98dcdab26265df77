/** The GUI's half of the group protocol: each tab keeps the id of its group and
    the set of panes it believes enrolled there, and a periodic pass brings the
    daemon's registry in step with the panes on screen. */
module GroupSync {
  import opened Bytes
  import opened Registry

  /** How one request went: answered; not handled (nothing was sent, or the
      daemon ran out of memory); or handled, with the answer lost. */
  datatype Net = Answered | Unhandled | ReplyLost

  class Tab {
    var groupId: nat
    var enrolled: set<nat>
    var panes: seq<nat>
    var zoomed: bool

    constructor (panes: seq<nat>)
      ensures groupId == 0 && enrolled == {} && this.panes == panes && !zoomed
    {
      groupId, enrolled, this.panes, zoomed := 0, {}, panes, false;
    }

    /** A different group: the old enrollments say nothing about it. */
    method SetGroupId(gid: nat)
      modifies `groupId, `enrolled
      ensures groupId == gid
      ensures enrolled == if old(groupId) == gid then old(enrolled) else {}
    {
      if groupId == gid {
        return;
      }
      groupId, enrolled := gid, {};
    }
  }

  /** The sessions of the panes, in order; a pane that got no session has 0. */
  function Sessions(panes: seq<nat>): seq<nat> {
    if panes == [] then [] else (if panes[0] != 0 then [panes[0]] else []) + Sessions(panes[1..])
  }

  lemma {:induction false} SessionsAre(panes: seq<nat>)
    ensures forall x :: x in Sessions(panes) <==> x != 0 && x in panes
  {
    if panes != [] {
      SessionsAre(panes[1..]);
      assert panes == [panes[0]] + panes[1..];
    }
  }

  /** Every pane session the daemon still counts is in the tab's group. */
  ghost predicate Settled(panes: seq<nat>, gid: nat, r: Registry) {
    forall x :: x in panes && x != 0 && x in r.member ==> gid != 0 && r.member[x] == gid
  }

  /** What the tab believes enrolled and still shows is a member, if the daemon
      still counts it. */
  ghost predicate Sound(panes: seq<nat>, enrolled: set<nat>, gid: nat, r: Registry) {
    (gid == 0 ==> enrolled == {}) &&
    forall x :: x in panes && x in enrolled && x in r.member ==> r.member[x] == gid
  }

  lemma Spliced(p: seq<nat>, k: nat, x: nat)
    requires k < |p| && NoRepeat(p) && (x == 0 || x !in p)
    ensures NoRepeat(p[..k + 1] + [x] + p[k + 1..])
    ensures forall y :: y in p[..k + 1] + [x] + p[k + 1..] ==> y in p || y == x
  {
    var q := p[..k + 1] + [x] + p[k + 1..];
    assert forall i :: 0 <= i < |q| ==> q[i] == if i <= k then p[i] else if i == k + 1 then x else p[i - 1];
  }

  lemma Cut(p: seq<nat>, k: nat)
    requires k < |p| && NoRepeat(p)
    ensures NoRepeat(p[..k] + p[k + 1..])
    ensures forall y :: y in p[..k] + p[k + 1..] ==> y in p && (y == 0 || y != p[k])
  {
    var q := p[..k] + p[k + 1..];
    assert forall i :: 0 <= i < |q| ==> q[i] == if i < k then p[i] else p[i + 1];
  }

  /** What one GROUP_ADD does to the registry, seen from the destination. */
  lemma MoveSpares(r: Registry, gid: nat, sid: nat)
    requires Inv(r) && gid in r.groups
    ensures var after := MoveTo(r, gid, sid);
      gid in after.groups && after.groups[gid] == r.groups[gid] && after.nextGroup == r.nextGroup &&
      (forall g :: g in after.groups ==> g in r.groups && after.groups[g] == r.groups[g]) &&
      after.member == if sid in r.member then r.member[sid := gid] else r.member
  {
    if sid in r.member {
      MoveSparesDestination(r, gid, sid);
    }
  }

  lemma SettledGroupExists(panes: seq<nat>, gid: nat, r: Registry, x: nat)
    requires Inv(r) && Settled(panes, gid, r) && x in panes && x != 0 && x in r.member
    ensures gid in r.groups
  {
    assert r.member[x] == gid;
  }

  /** GROUP_SET is answered and finds the group, so the tab keeps it. */
  predicate Keeps(r: Registry, gid: nat, text: seq<byte>, net: Net) {
    gid != 0 && net.Answered? && |text| <= BLOB_MAX && gid in r.groups
  }

  /** The registry behind one GROUP_SET, and behind the GROUP_NEW that follows one
      that did not succeed. */
  function SetOrNew(r: Registry, gid: nat, text: seq<byte>, setNet: Net, newNet: Net): Registry {
    var mid := if gid == 0 || setNet.Unhandled? then r else SetBlobIn(r, gid, text);
    if Keeps(r, gid, text, setNet) || newNet.Unhandled? then mid else NewGroupIn(mid, text)
  }

  /** No group but those the pass is about has another blob, or is new. */
  ghost predicate BlobsStay(r: Registry, t: Registry, ours: set<nat>) {
    forall g :: g in t.groups && g !in ours ==> g in r.groups && t.groups[g] == r.groups[g]
  }

  /** Sessions stay where they are, or go from the panes to the group. */
  ghost predicate OnlyMoves(r: Registry, t: Registry, panes: seq<nat>, gid: nat) {
    t.member.Keys == r.member.Keys
    && forall x :: x in t.member ==> t.member[x] == r.member[x] || (x != 0 && x in panes && gid != 0 && t.member[x] == gid)
  }

  lemma MovesOneMore(r: Registry, s: Registry, t: Registry, panes: seq<nat>, gid: nat, sid: nat)
    requires OnlyMoves(r, s, panes, gid) && BlobsStay(r, s, {}) && BlobsStay(s, t, {}) && sid in panes && sid != 0 && gid != 0
    requires t.member == s.member || (sid in s.member && t.member == s.member[sid := gid])
    ensures OnlyMoves(r, t, panes, gid) && BlobsStay(r, t, {})
  {
  }

  /** One GROUP_SET, perhaps a GROUP_NEW, and then only moves. */
  lemma MovesBehind(r: Registry, s: Registry, t: Registry, panes: seq<nat>, was: nat, gid: nat, text: seq<byte>, setNet: Net, newNet: Net)
    requires s == SetOrNew(r, was, text, setNet, newNet) && (if gid == 0 then t == s else OnlyMoves(s, t, panes, gid) && BlobsStay(s, t, {}))
    ensures OnlyMoves(r, t, panes, gid) && BlobsStay(r, t, {gid, was, r.nextGroup + 1})
  {
  }

  lemma MovesNone(r: Registry, panes: seq<nat>, gid: nat)
    ensures OnlyMoves(r, r, panes, gid) && BlobsStay(r, r, {})
  {
  }

  class Gui {
    var tabs: seq<Tab>
    /** The daemon: its registry and its session counter. */
    var reg: Registry
    var nextSession: nat

    ghost predicate NoTwice()
      reads `tabs
    {
      forall i, j :: 0 <= i < j < |tabs| ==> tabs[i] != tabs[j]
    }

    /** No session is shown in two panes. */
    ghost predicate PanesApart()
      reads `tabs, tabs`panes
    {
      (forall a, b, x :: a in tabs && b in tabs && a != b && x in a.panes && x in b.panes ==> x == 0) &&
      forall a :: a in tabs ==> NoRepeat(a.panes)
    }

    /** Ids in use were handed out by the daemon's counters. */
    ghost predicate IdsKnown()
      reads `tabs, `reg, `nextSession, tabs`panes, tabs`enrolled, tabs`groupId
    {
      (forall x :: x in reg.member ==> 0 < x <= nextSession) &&
      forall a :: a in tabs ==>
        a.groupId <= reg.nextGroup &&
        (forall x :: x in a.panes ==> x <= nextSession) && (forall x :: x in a.enrolled ==> x <= nextSession)
    }

    /** Two tabs never name the same group. */
    ghost predicate GroupsApart()
      reads `tabs, tabs`groupId
    {
      forall a, b :: a in tabs && b in tabs && a != b && a.groupId != 0 ==> a.groupId != b.groupId
    }

    /** The enrolled cache of every tab is sound. */
    ghost predicate CachesSound()
      reads `tabs, `reg, tabs`panes, tabs`enrolled, tabs`groupId
    {
      forall a :: a in tabs ==> Sound(a.panes, a.enrolled, a.groupId, reg)
    }

    ghost predicate Valid()
      reads this, tabs
    {
      Inv(reg) && NoTwice() && PanesApart() && IdsKnown() && GroupsApart() && CachesSound()
    }

    constructor ()
      ensures Valid() && tabs == []
    {
      tabs, reg, nextSession := [], EMPTY, 0;
    }

    // --- the client's three group requests ---

    method GroupSet(gid: nat, text: seq<byte>, net: Net) returns (ok: bool)
      requires Inv(reg)
      modifies `reg
      ensures Inv(reg)
      ensures reg == if net.Unhandled? then old(reg) else SetBlobIn(old(reg), gid, text)
      ensures ok <==> net.Answered? && |text| <= BLOB_MAX && gid in reg.groups
      ensures ok ==> reg.groups[gid] == text
    {
      if |text| > BLOB_MAX {
        return false;
      }
      SetBlobKeeps(reg, gid, text);
      ok := net.Answered? && gid in reg.groups;
      if !net.Unhandled? {
        reg := SetBlobIn(reg, gid, text);
      }
    }

    method GroupNew(text: seq<byte>, net: Net) returns (gid: nat)
      requires Inv(reg)
      modifies `reg
      ensures Inv(reg)
      ensures reg == if net.Unhandled? then old(reg) else NewGroupIn(old(reg), text)
      ensures gid == if net.Answered? && !GroupRefused(old(reg), text) then old(reg).nextGroup + 1 else 0
    {
      if |text| > BLOB_MAX {
        return 0;
      }
      NewGroupKeeps(reg, text);
      gid := if net.Answered? && !GroupRefused(reg, text) then reg.nextGroup + 1 else 0;
      if !net.Unhandled? {
        reg := NewGroupIn(reg, text);
      }
    }

    method GroupAdd(gid: nat, sid: nat, net: Net) returns (ok: bool)
      requires Inv(reg)
      modifies `reg
      ensures Inv(reg)
      ensures reg == if net.Unhandled? then old(reg) else MoveTo(old(reg), gid, sid)
      ensures ok <==> net.Answered? && gid in old(reg).groups && sid in old(reg).member
    {
      MoveKeeps(reg, gid, sid);
      ok := net.Answered? && gid in reg.groups && sid in reg.member;
      if !net.Unhandled? {
        reg := MoveTo(reg, gid, sid);
      }
    }

    // --- the periodic pass over one tab ---

    /** A tab kept its group and cache, or has an empty cache and no group or a
        group the daemon has just numbered. */
    twostate predicate Regrouped(tab: Tab)
      requires tab in tabs
      reads this, tabs
    {
      tabs == old(tabs) && nextSession == old(nextSession) &&
      reg.member == old(reg.member) && reg.nextGroup >= old(reg.nextGroup) &&
      (forall b :: b in tabs ==> b.panes == old(b.panes)) &&
      (forall b :: b in tabs && b != tab ==> b.groupId == old(b.groupId) && b.enrolled == old(b.enrolled)) &&
      ((tab.groupId == old(tab.groupId) && tab.enrolled == old(tab.enrolled)) ||
       (tab.enrolled == {} && (tab.groupId == 0 || (tab.groupId == old(reg.nextGroup) + 1 && tab.groupId <= reg.nextGroup))))
    }

    twostate lemma RegroupedKeeps(tab: Tab)
      requires tab in tabs && old(IdsKnown() && GroupsApart() && CachesSound()) && Regrouped(tab)
      ensures IdsKnown() && GroupsApart() && CachesSound()
    {
      forall a | a in tabs
        ensures Sound(a.panes, a.enrolled, a.groupId, reg)
      {
        assert old(Sound(a.panes, a.enrolled, a.groupId, reg));
      }
    }

    /** Update the tab's group, or make one if it has none or the daemon no
        longer has it. Returns 0 when the tab is left without a group. */
    method UpdateGroup(tab: Tab, text: seq<byte>, setNet: Net, newNet: Net) returns (gid: nat)
      requires Valid() && tab in tabs
      modifies `reg, tab`groupId, tab`enrolled
      ensures Valid()
      ensures reg.member == old(reg).member
      ensures gid == tab.groupId
      ensures gid != 0 ==> gid in reg.groups && reg.groups[gid] == text
      ensures reg == SetOrNew(old(reg), old(tab.groupId), text, setNet, newNet)
      ensures var kept := Keeps(old(reg), old(tab.groupId), text, setNet);
        (kept ==> gid == old(tab.groupId) && tab.enrolled == old(tab.enrolled)) &&
        (!kept ==> tab.enrolled == {} && (gid == 0 || gid == old(reg).nextGroup + 1)) &&
        (gid == 0 <==> !kept && (newNet != Answered || GroupRefused(old(reg), text)))
    {
      hide Inv, NoTwice, PanesApart, IdsKnown, GroupsApart, CachesSound, SetBlobIn, NewGroupIn, GroupRefused;
      gid := KeepGroup(tab, text, setNet);
      if gid == 0 {
        gid := MintGroup(tab, text, newNet);
      }
    }

    /** Store the blob in the tab's group, if it has one, or forget the group. */
    method KeepGroup(tab: Tab, text: seq<byte>, setNet: Net) returns (gid: nat)
      requires Valid() && tab in tabs
      modifies `reg, tab`groupId, tab`enrolled
      ensures Valid() && reg.member == old(reg).member && reg.nextGroup == old(reg).nextGroup && gid == tab.groupId
      ensures GroupRefused(reg, text) == GroupRefused(old(reg), text)
      ensures reg == if old(tab.groupId) == 0 || setNet.Unhandled? then old(reg) else SetBlobIn(old(reg), old(tab.groupId), text)
      ensures var kept := Keeps(old(reg), old(tab.groupId), text, setNet);
        gid == (if kept then old(tab.groupId) else 0) && tab.enrolled == (if kept then old(tab.enrolled) else {})
      ensures gid != 0 ==> gid in reg.groups && reg.groups[gid] == text
    {
      assert Sound(tab.panes, tab.enrolled, tab.groupId, reg);
      hide Inv, NoTwice, PanesApart, IdsKnown, GroupsApart, CachesSound;
      gid := tab.groupId;
      if gid != 0 {
        var ok := GroupSet(gid, text, setNet);
        if !ok {
          tab.SetGroupId(0);
          gid := 0;
        }
      }
      RegroupedKeeps(tab);
    }

    /** Make a group for a tab that has none. */
    method MintGroup(tab: Tab, text: seq<byte>, newNet: Net) returns (gid: nat)
      requires Valid() && tab in tabs && tab.groupId == 0 && tab.enrolled == {}
      modifies `reg, tab`groupId, tab`enrolled
      ensures Valid()
      ensures reg.member == old(reg).member
      ensures gid == tab.groupId && tab.enrolled == {}
      ensures gid == if newNet.Answered? && !GroupRefused(old(reg), text) then old(reg).nextGroup + 1 else 0
      ensures gid != 0 ==> gid in reg.groups && reg.groups[gid] == text
      ensures reg == if newNet.Unhandled? then old(reg) else NewGroupIn(old(reg), text)
    {
      hide Inv, NoTwice, PanesApart, IdsKnown, GroupsApart, CachesSound;
      gid := GroupNew(text, newNet);
      if gid != 0 {
        tab.SetGroupId(gid);
      }
      RegroupedKeeps(tab);
    }

    /** Enroll, by atomic moves, the panes not yet known to be in the group. */
    method EnrollPanes(tab: Tab, gid: nat, addNets: nat -> Net)
      requires Valid() && tab in tabs && gid == tab.groupId && gid != 0 && gid in reg.groups
      modifies `reg, tab`enrolled
      ensures Valid()
      ensures gid in reg.groups && reg.groups[gid] == old(reg).groups[gid]
      ensures OnlyMoves(old(reg), reg, tab.panes, gid) && BlobsStay(old(reg), reg, {}) && reg.nextGroup == old(reg).nextGroup
      ensures old(tab.enrolled) <= tab.enrolled
      ensures (forall x :: x in tab.panes && x != 0 ==> x in old(tab.enrolled)) ==> reg == old(reg) && tab.enrolled == old(tab.enrolled)
      ensures (forall n :: addNets(n).Answered?) ==> Settled(tab.panes, gid, reg)
      ensures (forall n :: addNets(n).Answered?) ==>
        forall x :: x in tab.panes && x != 0 && x in reg.member ==> x in tab.enrolled
    {
      var ids := Sessions(tab.panes);
      SessionsAre(tab.panes);
      assert Sound(tab.panes, tab.enrolled, gid, reg);
      hide NoTwice, PanesApart, IdsKnown, GroupsApart, CachesSound, Inv, MoveTo, Sessions, OnlyMoves, BlobsStay, Sound;
      MovesNone(reg, tab.panes, gid);
      var i := 0;
      while i < |ids|
        invariant 0 <= i <= |ids|
        invariant Inv(reg) && Sound(tab.panes, tab.enrolled, gid, reg)
        invariant gid in reg.groups && reg.groups[gid] == old(reg).groups[gid] && reg.nextGroup == old(reg).nextGroup
        invariant OnlyMoves(old(reg), reg, tab.panes, gid) && BlobsStay(old(reg), reg, {})
        invariant old(tab.enrolled) <= tab.enrolled
        invariant (forall x :: x in ids ==> x in old(tab.enrolled)) ==> reg == old(reg) && tab.enrolled == old(tab.enrolled)
        invariant forall x :: x in tab.enrolled ==> x in old(tab.enrolled) || x in ids
        invariant (forall n :: addNets(n).Answered?) ==>
          forall j :: 0 <= j < i && ids[j] in reg.member ==> ids[j] in tab.enrolled
      {
        ghost var was := reg;
        EnrollPane(tab, gid, ids[i], addNets(i));
        MovesOneMore(old(reg), was, reg, tab.panes, gid, ids[i]);
        i := i + 1;
      }
      Enrolled(tab);
    }

    /** One pane of the pass: nothing if it is known enrolled, else one request. */
    method EnrollPane(tab: Tab, gid: nat, sid: nat, net: Net)
      requires Inv(reg) && gid != 0 && gid in reg.groups && Sound(tab.panes, tab.enrolled, gid, reg)
      modifies `reg, tab`enrolled
      ensures Inv(reg) && Sound(tab.panes, tab.enrolled, gid, reg)
      ensures gid in reg.groups && reg.groups[gid] == old(reg).groups[gid] && reg.nextGroup == old(reg).nextGroup
      ensures reg == if sid in old(tab.enrolled) || net.Unhandled? then old(reg) else MoveTo(old(reg), gid, sid)
      ensures tab.enrolled == old(tab.enrolled) + if net.Answered? && sid in old(reg).member then {sid} else {}
      ensures reg.member == old(reg).member || (sid in old(reg).member && reg.member == old(reg).member[sid := gid])
      ensures BlobsStay(old(reg), reg, {})
    {
      hide Inv, MoveTo;
      if sid !in tab.enrolled {
        MoveSpares(reg, gid, sid);
        var ok := GroupAdd(gid, sid, net);
        if ok {
          tab.enrolled := tab.enrolled + {sid};
        }
      }
    }

    twostate lemma Enrolled(tab: Tab)
      requires tab in tabs && old(IdsKnown() && GroupsApart() && CachesSound() && PanesApart())
      requires tabs == old(tabs) && nextSession == old(nextSession) && reg.nextGroup == old(reg).nextGroup
      requires reg.member.Keys == old(reg).member.Keys
      requires forall x :: x in reg.member && (x == 0 || x !in tab.panes) ==> reg.member[x] == old(reg).member[x]
      requires forall b :: b in tabs ==> b.panes == old(b.panes) && b.groupId == old(b.groupId)
      requires forall b :: b in tabs && b != tab ==> b.enrolled == old(b.enrolled)
      requires forall x :: x in tab.enrolled ==> x in old(tab.enrolled) || x in tab.panes
      requires Sound(tab.panes, tab.enrolled, tab.groupId, reg)
      ensures IdsKnown() && GroupsApart() && CachesSound()
    {
      forall a | a in tabs
        ensures Sound(a.panes, a.enrolled, a.groupId, reg)
      {
        assert old(Sound(a.panes, a.enrolled, a.groupId, reg));
      }
    }

    /** One pass over one tab. With every request answered and the registry not
        full, the tab ends with a group that exists, holds the new blob, and has
        every pane session the daemon still counts. */
    method SyncPageGroup(tab: Tab, text: seq<byte>, setNet: Net, newNet: Net, addNets: nat -> Net)
      requires Valid() && tab in tabs
      modifies `reg, tab`groupId, tab`enrolled
      ensures Valid()
      ensures tab.zoomed || Sessions(tab.panes) == [] ==>
        reg == old(reg) && tab.groupId == old(tab.groupId) && tab.enrolled == old(tab.enrolled)
      ensures !tab.zoomed && Sessions(tab.panes) != [] && tab.groupId != 0 ==>
        tab.groupId in reg.groups && reg.groups[tab.groupId] == text
      ensures !tab.zoomed && Sessions(tab.panes) != [] && tab.groupId != 0 && (forall n :: addNets(n).Answered?) ==>
        Settled(tab.panes, tab.groupId, reg) &&
        forall x :: x in tab.panes && x != 0 && x in reg.member ==> x in tab.enrolled
      ensures !tab.zoomed && Sessions(tab.panes) != [] && newNet.Answered? && !GroupRefused(old(reg), text) ==> tab.groupId != 0
      ensures !tab.zoomed && Sessions(tab.panes) != [] && Keeps(old(reg), old(tab.groupId), text, setNet) ==>
        tab.groupId == old(tab.groupId) && old(tab.enrolled) <= tab.enrolled &&
        ((forall x :: x in tab.panes && x != 0 ==> x in old(tab.enrolled)) ==>
           tab.enrolled == old(tab.enrolled) && reg == old(reg).(groups := old(reg).groups[tab.groupId := text]))
      ensures !tab.zoomed && Sessions(tab.panes) != [] && !Keeps(old(reg), old(tab.groupId), text, setNet) ==>
        tab.groupId == if newNet.Answered? && !GroupRefused(old(reg), text) then old(reg).nextGroup + 1 else 0
      ensures tab.groupId == 0 ==> reg.member == old(reg).member && tab.enrolled == {}
      ensures OnlyMoves(old(reg), reg, tab.panes, tab.groupId)
      ensures BlobsStay(old(reg), reg, {tab.groupId, old(tab.groupId), old(reg).nextGroup + 1})
      ensures forall b :: b in tabs && b != tab && Settled(b.panes, b.groupId, old(reg)) ==> Settled(b.panes, b.groupId, reg)
    {
      if tab.zoomed {
        return;
      }
      var ids := Sessions(tab.panes);
      if |ids| == 0 {
        return;
      }
      hide NoTwice, IdsKnown, GroupsApart, CachesSound, Inv, OnlyMoves, BlobsStay;
      var gid := UpdateGroup(tab, text, setNet, newNet);
      ghost var mid := reg;
      if gid != 0 {
        EnrollPanes(tab, gid, addNets);
      }
      MovesBehind(old(reg), mid, reg, tab.panes, old(tab.groupId), gid, text, setNet, newNet);
    }

    // --- what the user and the daemon do between passes ---

    /** A tab opens with one pane; the daemon numbers the session, unless the
        request fails and the pane has none. */
    method OpenTab(sessionOk: bool) returns (tab: Tab)
      requires Valid()
      modifies this
      ensures Valid() && fresh(tab) && tabs == old(tabs) + [tab]
      ensures tab.panes == [if sessionOk then old(nextSession) + 1 else 0] && tab.groupId == 0
      ensures reg == if sessionOk then SpawnIn(old(reg), old(nextSession) + 1) else old(reg)
      ensures nextSession == old(nextSession) + if sessionOk then 1 else 0
      ensures forall b :: b in old(tabs) && Settled(b.panes, b.groupId, old(reg)) ==> Settled(b.panes, b.groupId, reg)
    {
      var sid := CreateSession(sessionOk);
      tab := AddTab(sid);
    }

    method CreateSession(sessionOk: bool) returns (sid: nat)
      requires Valid()
      modifies `reg, `nextSession
      ensures Valid()
      ensures sid == if sessionOk then old(nextSession) + 1 else 0
      ensures nextSession == old(nextSession) + if sessionOk then 1 else 0
      ensures reg == if sessionOk then SpawnIn(old(reg), sid) else old(reg)
    {
      if !sessionOk {
        return 0;
      }
      sid := nextSession + 1;
      SpawnKeeps(reg, sid);
      nextSession := sid;
      reg := SpawnIn(reg, sid);
    }

    /** A pane is split: a new session right after it. */
    method SplitPane(tab: Tab, k: nat, sessionOk: bool)
      requires Valid() && tab in tabs && k < |tab.panes|
      modifies `reg, `nextSession, tab`panes
      ensures Valid()
      ensures tab.panes == old(tab.panes)[..k + 1] + [if sessionOk then old(nextSession) + 1 else 0] + old(tab.panes)[k + 1..]
      ensures reg == if sessionOk then SpawnIn(old(reg), old(nextSession) + 1) else old(reg)
      ensures forall b :: b in tabs && b != tab && Settled(b.panes, b.groupId, old(reg)) ==> Settled(b.panes, b.groupId, reg)
    {
      var sid := CreateSession(sessionOk);
      InsertPane(tab, k, sid);
    }

    method InsertPane(tab: Tab, k: nat, sid: nat)
      requires Valid() && tab in tabs && k < |tab.panes|
      requires sid <= nextSession && (sid == 0 || forall b :: b in tabs ==> sid !in b.panes && sid !in b.enrolled)
      modifies tab`panes
      ensures Valid()
      ensures tab.panes == old(tab.panes)[..k + 1] + [sid] + old(tab.panes)[k + 1..]
    {
      Spliced(tab.panes, k, sid);
      hide Inv, NoTwice, IdsKnown, GroupsApart, CachesSound, PanesApart, NoRepeat;
      tab.panes := tab.panes[..k + 1] + [sid] + tab.panes[k + 1..];
      Repaned(tab);
    }

    /** The panes of one tab changed: some went, at most one fresh one came. */
    twostate lemma Repaned(tab: Tab)
      requires tab in tabs && old(PanesApart() && IdsKnown() && CachesSound())
      requires tabs == old(tabs) && reg == old(reg) && nextSession == old(nextSession)
      requires forall b :: b in tabs ==> b.groupId == old(b.groupId) && b.enrolled == old(b.enrolled)
      requires forall b :: b in tabs && b != tab ==> b.panes == old(b.panes)
      requires NoRepeat(tab.panes)
      requires forall x :: x in tab.panes && x != 0 && x !in old(tab.panes) ==> x <= nextSession
      requires forall x, b :: x in tab.panes && x != 0 && x !in old(tab.panes) && b in tabs ==> x !in old(b.panes) && x !in b.enrolled
      ensures PanesApart() && IdsKnown() && CachesSound()
    {
      forall a | a in tabs
        ensures Sound(a.panes, a.enrolled, a.groupId, reg)
      {
        assert old(Sound(a.panes, a.enrolled, a.groupId, reg));
      }
    }

    /** A pane is closed: its session goes on without a pane. */
    method ClosePane(tab: Tab, k: nat)
      requires Valid() && tab in tabs && k < |tab.panes|
      modifies tab`panes
      ensures Valid()
      ensures tab.panes == old(tab.panes)[..k] + old(tab.panes)[k + 1..]
      ensures Settled(old(tab.panes), tab.groupId, reg) ==> Settled(tab.panes, tab.groupId, reg)
    {
      Cut(tab.panes, k);
      hide Inv, NoTwice, IdsKnown, GroupsApart, CachesSound, PanesApart, NoRepeat;
      tab.panes := tab.panes[..k] + tab.panes[k + 1..];
      Repaned(tab);
    }

    /** A pane moves to a tab of its own, which has no group yet. */
    method OpenInNewTab(tab: Tab, k: nat) returns (moved: Tab)
      requires Valid() && tab in tabs && k < |tab.panes| && |tab.panes| >= 2
      modifies `tabs, tab`panes
      ensures Valid() && fresh(moved) && tabs == old(tabs) + [moved]
      ensures moved.panes == [old(tab.panes)[k]] && moved.groupId == 0
      ensures tab.panes == old(tab.panes)[..k] + old(tab.panes)[k + 1..]
      ensures Settled(old(tab.panes), tab.groupId, reg) ==> Settled(tab.panes, tab.groupId, reg)
    {
      var sid := tab.panes[k];
      assert sid in tab.panes && NoRepeat(tab.panes);
      Cut(tab.panes, k);
      assert sid <= nextSession && (sid == 0 || forall b :: b in tabs && b != tab ==> sid !in b.panes);
      hide Inv, NoTwice, IdsKnown, GroupsApart, CachesSound, PanesApart, NoRepeat;
      tab.panes := tab.panes[..k] + tab.panes[k + 1..];
      Repaned(tab);
      moved := AddTab(sid);
    }

    /** A tab with one pane that no other tab shows. */
    method AddTab(sid: nat) returns (tab: Tab)
      requires Valid() && sid <= nextSession && (sid == 0 || forall b :: b in tabs ==> sid !in b.panes)
      modifies `tabs
      ensures Valid() && fresh(tab) && tabs == old(tabs) + [tab]
      ensures tab.panes == [sid] && tab.groupId == 0
    {
      tab := new Tab([sid]);
      tabs := tabs + [tab];
    }

    /** A tab goes away with its panes; its group and sessions stay. */
    method CloseTab(k: nat)
      requires Valid() && k < |tabs|
      modifies `tabs
      ensures Valid() && tabs == old(tabs)[..k] + old(tabs)[k + 1..]
    {
      assert forall b :: b in tabs[..k] + tabs[k + 1..] ==> b in tabs;
      tabs := tabs[..k] + tabs[k + 1..];
      assert forall i :: 0 <= i < |tabs| ==> tabs[i] == old(tabs)[if i < k then i else i + 1];
    }

    /** Zooming a pane suspends the passes over its tab. */
    method SetZoomed(tab: Tab, zoomed: bool)
      requires Valid() && tab in tabs
      modifies tab`zoomed
      ensures Valid() && tab.zoomed == zoomed
    {
      tab.zoomed := zoomed;
    }

    /** A session is killed, or ends and is removed; its pane may still be up. */
    method Kill(sid: nat)
      requires Valid()
      modifies `reg
      ensures Valid() && reg == DropFrom(old(reg), sid)
      ensures forall b :: b in tabs && Settled(b.panes, b.groupId, old(reg)) ==> Settled(b.panes, b.groupId, reg)
    {
      DropKeeps(reg, sid);
      reg := DropFrom(reg, sid);
    }
  }

  ghost predicate NoRepeat(s: seq<nat>) {
    forall i, j :: 0 <= i < j < |s| && s[i] != 0 ==> s[i] != s[j]
  }
}
