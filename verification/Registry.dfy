/** Group membership as the daemon keeps it, on values: which listed session is
    in which group, which groups exist, and which have ever had a member.
    The object model in Daemon refines every operation here. */
module Registry {
  import opened Bytes

  const GROUP_MAX: nat := 4096
  const BLOB_MAX: nat := 64 * 1024

  /** member maps every session that is not marked removed to its group, 0 for
      none; seeded is the set of groups that have ever been given a member. */
  datatype Registry = Registry(member: map<nat, nat>, groups: map<nat, seq<byte>>, nextGroup: nat, seeded: set<nat>)

  const EMPTY: Registry := Registry(map[], map[], 0, {})

  predicate HasMember(r: Registry, gid: nat) {
    exists sid :: sid in r.member && r.member[sid] == gid
  }

  /** gc_group_if_empty. */
  function Gc(r: Registry, gid: nat): Registry {
    if gid == 0 || gid !in r.groups || HasMember(r, gid) then r
    else r.(groups := r.groups - {gid})
  }

  datatype Op =
    | Spawn(sid: nat)
    | Drop(sid: nat)
    | NewGroup(blob: seq<byte>)
    | SetBlob(gid: nat, blob: seq<byte>)
    | Move(gid: nat, sid: nat)
    | Leave(sid: nat)

  /** A session appears, ungrouped. */
  function SpawnIn(r: Registry, sid: nat): Registry {
    r.(member := r.member[sid := 0])
  }

  /** A session stops counting as a member: killed, or removed from the list. */
  function DropFrom(r: Registry, sid: nat): Registry {
    if sid !in r.member then r
    else Gc(r.(member := r.member - {sid}), r.member[sid])
  }

  predicate GroupRefused(r: Registry, blob: seq<byte>) {
    |blob| > BLOB_MAX || |r.groups| >= GROUP_MAX
  }

  function NewGroupIn(r: Registry, blob: seq<byte>): Registry {
    if GroupRefused(r, blob) then r
    else r.(nextGroup := r.nextGroup + 1, groups := r.groups[r.nextGroup + 1 := blob])
  }

  function SetBlobIn(r: Registry, gid: nat, blob: seq<byte>): Registry {
    if |blob| > BLOB_MAX || gid !in r.groups then r
    else r.(groups := r.groups[gid := blob])
  }

  /** GROUP_ADD: one step, collecting the old group only if it is another one. */
  function MoveTo(r: Registry, gid: nat, sid: nat): Registry {
    if gid !in r.groups || sid !in r.member then r
    else
      var moved := r.(member := r.member[sid := gid], seeded := r.seeded + {gid});
      if r.member[sid] != gid then Gc(moved, r.member[sid]) else moved
  }

  function LeaveGroup(r: Registry, sid: nat): Registry {
    if sid !in r.member then r
    else Gc(r.(member := r.member[sid := 0]), r.member[sid])
  }

  function Step(r: Registry, op: Op): Registry {
    match op
    case Spawn(sid) => if sid in r.member then r else SpawnIn(r, sid)
    case Drop(sid) => DropFrom(r, sid)
    case NewGroup(blob) => NewGroupIn(r, blob)
    case SetBlob(gid, blob) => SetBlobIn(r, gid, blob)
    case Move(gid, sid) => MoveTo(r, gid, sid)
    case Leave(sid) => LeaveGroup(r, sid)
  }

  function Run(r: Registry, ops: seq<Op>): Registry
    decreases |ops|
  {
    if ops == [] then r else Run(Step(r, ops[0]), ops[1..])
  }

  /** A group that has ever had a member has one now. */
  ghost predicate NoGarbage(r: Registry) {
    forall g :: g in r.groups && g in r.seeded ==> HasMember(r, g)
  }

  /** A session's group exists and has been populated. */
  ghost predicate NoDangling(r: Registry) {
    forall sid :: sid in r.member && r.member[sid] != 0 ==> r.member[sid] in r.groups && r.member[sid] in r.seeded
  }

  /** Every group id in use or ever used was handed out by the counter. */
  ghost predicate Numbered(r: Registry) {
    (forall g :: g in r.groups ==> 0 < g <= r.nextGroup) && (forall g :: g in r.seeded ==> 0 < g <= r.nextGroup)
  }

  ghost predicate Inv(r: Registry) {
    NoGarbage(r) && NoDangling(r) && Numbered(r)
  }

  // --- every step keeps the invariant ---

  /** Collecting the group g, when only g may have become empty. */
  lemma GcKeeps(r: Registry, gid: nat)
    requires Numbered(r)
    requires forall g :: g in r.groups && g in r.seeded && g != gid ==> HasMember(r, g)
    requires gid in r.groups ==> gid in r.seeded
    requires NoDangling(r)
    ensures Inv(Gc(r, gid))
  {
    var r' := Gc(r, gid);
    forall g | g in r'.groups && g in r'.seeded
      ensures HasMember(r', g)
    {
      assert HasMember(r, g);
      var sid :| sid in r.member && r.member[sid] == g;
      assert r'.member[sid] == g;
    }
  }

  /** A member other than sid witnesses its group before and after sid changes. */
  lemma OtherMembersStay(r: Registry, r': Registry, sid: nat, g: nat)
    requires sid in r.member && r.member[sid] != g && HasMember(r, g)
    requires forall k :: k in r.member && k != sid ==> k in r'.member && r'.member[k] == r.member[k]
    ensures HasMember(r', g)
  {
    var k :| k in r.member && r.member[k] == g;
    assert k in r'.member && r'.member[k] == g;
  }

  lemma DropKeeps(r: Registry, sid: nat)
    requires Inv(r)
    ensures Inv(DropFrom(r, sid))
  {
    if sid in r.member {
      var m := r.(member := r.member - {sid});
      forall g | g in m.groups && g in m.seeded && g != r.member[sid] ensures HasMember(m, g) {
        OtherMembersStay(r, m, sid, g);
      }
      if r.member[sid] != 0 {
        GcKeeps(m, r.member[sid]);
      }
    }
  }

  lemma LeaveKeeps(r: Registry, sid: nat)
    requires Inv(r)
    ensures Inv(LeaveGroup(r, sid))
  {
    if sid in r.member {
      var m := r.(member := r.member[sid := 0]);
      forall g | g in m.groups && g in m.seeded && g != r.member[sid] ensures HasMember(m, g) {
        OtherMembersStay(r, m, sid, g);
      }
      if r.member[sid] != 0 {
        GcKeeps(m, r.member[sid]);
      }
    }
  }

  lemma MoveKeeps(r: Registry, gid: nat, sid: nat)
    requires Inv(r)
    ensures Inv(MoveTo(r, gid, sid))
  {
    if gid in r.groups && sid in r.member {
      var m := r.(member := r.member[sid := gid], seeded := r.seeded + {gid});
      assert m.member[sid] == gid;
      forall g | g in m.groups && g in m.seeded && g != r.member[sid] ensures HasMember(m, g) {
        if g != gid { OtherMembersStay(r, m, sid, g); }
      }
      if r.member[sid] != 0 && r.member[sid] != gid {
        GcKeeps(m, r.member[sid]);
      }
    }
  }

  lemma SpawnKeeps(r: Registry, sid: nat)
    requires Inv(r) && sid !in r.member
    ensures Inv(SpawnIn(r, sid))
  {
    var r' := SpawnIn(r, sid);
    forall g | g in r'.groups && g in r'.seeded ensures HasMember(r', g) {
      var k :| k in r.member && r.member[k] == g;
      assert r'.member[k] == g;
    }
  }

  lemma NewGroupKeeps(r: Registry, blob: seq<byte>)
    requires Inv(r)
    ensures Inv(NewGroupIn(r, blob))
  {
    assert forall g :: HasMember(NewGroupIn(r, blob), g) <==> HasMember(r, g);
  }

  lemma SetBlobKeeps(r: Registry, gid: nat, blob: seq<byte>)
    requires Inv(r)
    ensures Inv(SetBlobIn(r, gid, blob))
  {
    assert forall g :: HasMember(SetBlobIn(r, gid, blob), g) <==> HasMember(r, g);
  }

  /** Every operation keeps the invariant. */
  lemma StepKeeps(r: Registry, op: Op)
    requires Inv(r)
    ensures Inv(Step(r, op))
  {
    match op
    case Spawn(sid) => if sid !in r.member { SpawnKeeps(r, sid); }
    case Drop(sid) => DropKeeps(r, sid);
    case NewGroup(blob) => NewGroupKeeps(r, blob);
    case SetBlob(gid, blob) => SetBlobKeeps(r, gid, blob);
    case Move(gid, sid) => MoveKeeps(r, gid, sid);
    case Leave(sid) => LeaveKeeps(r, sid);
  }

  /** After every run from an empty daemon: each stored group is unpopulated or
      has a member, and each session's group exists. */
  lemma {:induction false} RunKeeps(r: Registry, ops: seq<Op>)
    requires Inv(r)
    ensures Inv(Run(r, ops))
    decreases |ops|
  {
    if ops != [] {
      StepKeeps(r, ops[0]);
      RunKeeps(Step(r, ops[0]), ops[1..]);
    }
  }

  lemma NextIsFree(r: Registry)
    requires Inv(r)
    ensures r.nextGroup + 1 !in r.groups && r.nextGroup + 1 !in r.seeded && 0 !in r.groups
  {
  }

  lemma DropAbsent(r: Registry, sid: nat)
    ensures sid !in r.member ==> DropFrom(r, sid) == r
  {
  }

  /** A session that vanishes ungrouped leaves no trace. */
  lemma SpawnThenDrop(r: Registry, sid: nat)
    requires sid !in r.member
    ensures DropFrom(SpawnIn(r, sid), sid) == r
  {
    assert r.member[sid := 0] - {sid} == r.member;
  }

  // --- what a step can and cannot destroy ---

  /** A group disappears in a step exactly when that step takes away its last
      member. */
  lemma DestroyedIffLastMemberLeft(r: Registry, op: Op, g: nat)
    requires Inv(r) && g in r.groups
    ensures g !in Step(r, op).groups <==> HasMember(r, g) && !HasMember(Step(r, op), g)
  {
    var r' := Step(r, op);
    StepKeeps(r, op);
    if HasMember(r, g) {
      var k :| k in r.member && r.member[k] == g;
      assert g in r.seeded;
      assert r.seeded <= r'.seeded;
      if g in r'.groups { assert HasMember(r', g); }
    }
  }

  /** GROUP_ADD never destroys its destination, and the source survives as long
      as it has another member. */
  lemma MoveSparesDestination(r: Registry, gid: nat, sid: nat)
    requires Inv(r) && gid in r.groups && sid in r.member
    ensures var r' := MoveTo(r, gid, sid);
      gid in r'.groups && r'.groups[gid] == r.groups[gid] && r'.member == r.member[sid := gid]
      && forall g :: g in r.groups && g !in r'.groups <==>
                g == r.member[sid] && g in r.groups && g != gid && !(exists k :: k in r.member && k != sid && r.member[k] == g)
  {
    var was := r.member[sid];
    var m := r.(member := r.member[sid := gid], seeded := r.seeded + {gid});
    if was != gid && was != 0 {
      if HasMember(m, was) {
        var k :| k in m.member && m.member[k] == was;
        assert k in r.member && k != sid && r.member[k] == was;
      }
      if k :| k in r.member && k != sid && r.member[k] == was {
        assert k in m.member && m.member[k] == was;
      }
    }
    if was == 0 { assert 0 !in r.groups; }
  }

  /** A group that has been created but not yet populated survives any step. */
  lemma UnseededSurvives(r: Registry, op: Op, g: nat)
    requires Inv(r) && g in r.groups && g !in r.seeded
    ensures g in Step(r, op).groups
  {
    DestroyedIffLastMemberLeft(r, op, g);
  }

  /** Group ids are never reused: once the counter has passed an id that names no
      group, no later state has a group by that id. */
  lemma {:induction false} IdsNeverReused(r: Registry, ops: seq<Op>, g: nat)
    requires g <= r.nextGroup && g !in r.groups
    ensures g !in Run(r, ops).groups
    decreases |ops|
  {
    if ops != [] {
      IdsNeverReused(Step(r, ops[0]), ops[1..], g);
    }
  }

  // --- whole runs, without naming their operations ---

  /** Some run of operations leads from r to t. */
  ghost predicate Reaches(r: Registry, t: Registry) {
    exists ops: seq<Op> :: Run(r, ops) == t
  }

  lemma {:induction false} RunAppend(r: Registry, a: seq<Op>, b: seq<Op>)
    ensures Run(r, a + b) == Run(Run(r, a), b)
    decreases |a|
  {
    if a == [] {
      assert a + b == b;
    } else {
      assert (a + b)[0] == a[0] && (a + b)[1..] == a[1..] + b;
      RunAppend(Step(r, a[0]), a[1..], b);
    }
  }

  lemma ReachesSelf(r: Registry)
    ensures Reaches(r, r)
  {
    assert Run(r, []) == r;
  }

  lemma ReachesStep(r: Registry, op: Op)
    ensures Reaches(r, Step(r, op))
  {
    assert [op][1..] == [];
    assert Run(r, [op]) == Run(Step(r, op), []);
  }

  lemma ReachesTrans(r: Registry, t: Registry, u: Registry)
    requires Reaches(r, t) && Reaches(t, u)
    ensures Reaches(r, u)
  {
    var a :| Run(r, a) == t;
    var b :| Run(t, b) == u;
    RunAppend(r, a, b);
  }

  /** Over any run: the counter and the set of populated groups only grow, an id
      once passed over or given up is never used again, and a group that nobody
      has joined yet stays. */
  lemma {:induction false} RunForward(r: Registry, ops: seq<Op>)
    requires Inv(r)
    ensures r.nextGroup <= Run(r, ops).nextGroup && r.seeded <= Run(r, ops).seeded
    ensures forall g :: g <= r.nextGroup && g !in r.groups ==> g !in Run(r, ops).groups
    ensures forall g :: g in r.groups && g !in Run(r, ops).seeded ==> g in Run(r, ops).groups
    decreases |ops|
  {
    if ops != [] {
      var t := Step(r, ops[0]);
      StepKeeps(r, ops[0]);
      forall g | g in r.groups && g !in r.seeded ensures g in t.groups {
        UnseededSurvives(r, ops[0], g);
      }
      assert r.seeded <= t.seeded && r.nextGroup <= t.nextGroup;
      RunForward(t, ops[1..]);
    }
  }

  lemma ReachesForward(r: Registry, t: Registry)
    requires Inv(r) && Reaches(r, t)
    ensures Inv(t) && r.nextGroup <= t.nextGroup && r.seeded <= t.seeded
    ensures forall g :: g <= r.nextGroup && g !in r.groups ==> g !in t.groups
    ensures forall g :: g in r.groups && g !in t.seeded ==> g in t.groups
  {
    var ops :| Run(r, ops) == t;
    RunForward(r, ops);
    RunKeeps(r, ops);
  }

  /** Dropping a session that no longer counts is a no-op, so reaping a killed
      session after its group has gone changes nothing. */
  lemma LateGcIsIdle(r: Registry, gid: nat)
    requires Inv(r) && (gid == 0 || gid in r.seeded)
    ensures Gc(r, gid) == r
  {
  }
}
