/** Which sessions the overview shows on which card: the reconciliation of a
    group's recorded panes with its live members, and the reload that gives every
    live session one card. Hash tables are keyed by the low 32 bits of an id. */
module Coverage {
  import opened Geometry

  datatype Option<T> = None | Some(value: T)

  datatype Grid = Grid(cols: nat, rows: nat)

  datatype Listed = Listed(id: nat, attached: bool, alive: bool)

  datatype GroupInfo = GroupInfo(id: nat, members: seq<nat>, blob: Blob)

  /** A card: the group it stands for, the one session an orphan card would kill
      (0 on a group card), and the panes it draws. */
  datatype Card = Card(groupId: nat, killSession: nat, leaves: seq<Pane>)

  function Key(id: nat): nat {
    id % ID_SPAN
  }

  function Keys(ids: seq<nat>): set<nat> {
    set x | x in ids :: Key(x)
  }

  /** The sessions a card draws, as the tables see them. */
  function LeafKeys(leaves: seq<Pane>): set<nat> {
    set p | p in leaves :: Key(p.session)
  }

  function AliveKeys(sessions: seq<Listed>): set<nat> {
    set s | s in sessions && s.alive :: Key(s.id)
  }

  /** How many of the cards draw the session. */
  function Holding(cards: seq<Card>, key: nat): nat {
    if cards == [] then 0
    else (if key in LeafKeys(cards[0].leaves) then 1 else 0) + Holding(cards[1..], key)
  }

  lemma {:induction false} HoldingAppend(a: seq<Card>, b: seq<Card>, key: nat)
    ensures Holding(a + b, key) == Holding(a, key) + Holding(b, key)
  {
    if a == [] {
      assert a + b == b;
    } else {
      assert (a + b)[1..] == a[1..] + b;
      HoldingAppend(a[1..], b, key);
    }
  }

  lemma HoldingOne(cards: seq<Card>, c: Card, key: nat)
    ensures Holding(cards + [c], key) == Holding(cards, key) + if key in LeafKeys(c.leaves) then 1 else 0
  {
    HoldingAppend(cards, [c], key);
    assert [c][1..] == [];
  }

  // --- one card ---

  /** The panes whose session is in the set, in their order. */
  function Kept(leaves: seq<Pane>, live: set<nat>): seq<Pane> {
    if leaves == [] then []
    else (if Key(leaves[0].session) in live then [leaves[0]] else []) + Kept(leaves[1..], live)
  }

  lemma {:induction false} KeptAre(leaves: seq<Pane>, live: set<nat>)
    ensures forall p :: p in Kept(leaves, live) <==> p in leaves && Key(p.session) in live
  {
    if leaves != [] {
      KeptAre(leaves[1..], live);
      assert leaves == [leaves[0]] + leaves[1..];
    }
  }

  /** In their order: what is kept of two stretches is what is kept of each. */
  lemma {:induction false} KeptInOrder(a: seq<Pane>, b: seq<Pane>, live: set<nat>)
    ensures Kept(a + b, live) == Kept(a, live) + Kept(b, live)
  {
    if a == [] {
      assert a + b == b && Kept(a, live) == [];
    } else {
      KeptInOrder(a[1..], b, live);
      KeptFront(a[0], a[1..], live);
      KeptFront(a[0], a[1..] + b, live);
      hide Kept;
      assert a == [a[0]] + a[1..] && a + b == [a[0]] + (a[1..] + b);
    }
  }

  lemma KeptFront(p: Pane, rest: seq<Pane>, live: set<nat>)
    ensures Kept([p] + rest, live) == (if Key(p.session) in live then [p] else []) + Kept(rest, live)
  {
    assert ([p] + rest)[1..] == rest;
  }

  lemma KeptNone(live: set<nat>)
    ensures Kept([], live) == []
  {
  }

  /** The first member in the set, 0 for none. */
  function FirstLive(members: seq<nat>, live: set<nat>): nat {
    if members == [] then 0
    else if Key(members[0]) in live then members[0]
    else FirstLive(members[1..], live)
  }

  /** The panes of a card after reconciliation: what the tree and the live
      members agree on, else a single pane for one live member. */
  function Reconciled(leaves: seq<Pane>, members: seq<nat>, live: set<nat>, focused: nat, g: Grid): seq<Pane> {
    if Kept(leaves, live) != [] then Kept(leaves, live)
    else
      var sid := if focused != 0 && Key(focused) in live then focused else FirstLive(members, live);
      if sid == 0 then [] else [Pane(sid, UNIT, g.cols, g.rows)]
  }

  /** A pane without a grid gets the focused pane's, or 80 by 24. */
  function WithGrid(p: Pane, g: Grid): Pane {
    if p.cols == 0 || p.rows == 0
    then p.(cols := if g.cols > 0 then g.cols else 80, rows := if g.rows > 0 then g.rows else 24)
    else p
  }

  /** The members the daemon says are alive. */
  function LiveMembers(members: seq<nat>, alive: set<nat>): set<nat> {
    set m | m in members && Key(m) in alive :: Key(m)
  }

  /** No earlier member is in the set, and if none is, the answer is 0. */
  lemma {:induction false} FirstLiveIs(members: seq<nat>, live: set<nat>, i: nat)
    requires i <= |members| && forall j :: 0 <= j < i ==> Key(members[j]) !in live
    requires i < |members| ==> Key(members[i]) in live
    ensures FirstLive(members, live) == if i < |members| then members[i] else 0
  {
    if i > 0 { FirstLiveIs(members[1..], live, i - 1); }
  }

  lemma {:induction false} FirstLiveFinds(members: seq<nat>, live: set<nat>)
    ensures FirstLive(members, live) != 0 ==> FirstLive(members, live) in members && Key(FirstLive(members, live)) in live
    ensures (forall m :: m in members ==> m != 0) && (exists m :: m in members && Key(m) in live) ==>
              FirstLive(members, live) != 0
  {
    if members != [] {
      FirstLiveFinds(members[1..], live);
      if Key(members[0]) !in live && exists m :: m in members && Key(m) in live {
        var m :| m in members && Key(m) in live;
        assert m in members[1..];
      }
    }
  }

  /** Whatever the blob says, a card draws only live members of its group, and
      it draws something whenever the group has one. */
  lemma ReconciledIsLive(leaves: seq<Pane>, members: seq<nat>, alive: set<nat>, focused: nat, g: Grid)
    ensures LeafKeys(Reconciled(leaves, members, LiveMembers(members, alive), focused, g)) <= LiveMembers(members, alive)
    ensures (forall m :: m in members ==> m != 0) && LiveMembers(members, alive) != {} ==>
              Reconciled(leaves, members, LiveMembers(members, alive), focused, g) != []
  {
    var live := LiveMembers(members, alive);
    KeptAre(leaves, live);
    FirstLiveFinds(members, live);
    if live != {} {
      var k :| k in live;
      var m :| m in members && Key(m) in alive && Key(m) == k;
    }
  }

  /** A card's panes are these, each with a grid. */
  ghost predicate Filled(shown: seq<Pane>, leaves: seq<Pane>, g: Grid) {
    |shown| == |leaves| && forall i :: 0 <= i < |leaves| ==> shown[i] == WithGrid(leaves[i], g)
  }

  /** The card of a group, or of an orphan session: it draws what the blob's
      drawing and the live members agree on, else one live member. */
  ghost predicate CardOf(c: Card, info: GroupInfo, focused: nat, g: Grid, alive: set<nat>, orphan: nat) {
    c.groupId == info.id && c.killSession == orphan &&
    exists drawn :: DrawnFrom(drawn, info.blob) &&
      Filled(c.leaves, Reconciled(drawn, info.members, LiveMembers(info.members, alive), focused, g), g)
  }

  // --- what is drawn is listed ---

  predicate ListedAlive(listed: seq<Listed>, id: nat) {
    exists s :: s in listed && s.alive && s.id == id
  }

  ghost predicate AllListed(leaves: seq<Pane>, listed: seq<Listed>) {
    forall p :: p in leaves ==> ListedAlive(listed, p.session)
  }

  /** Every id the daemon reports is one the tables can tell apart. */
  ghost predicate Narrow(listed: seq<Listed>, members: seq<nat>) {
    (forall s :: s in listed ==> s.id < ID_SPAN) && (forall m :: m in members ==> m < ID_SPAN)
  }

  /** The blob names a wider id that the tables take for a live member: one of
      the panes it draws, or its focused pane where the card falls back on that. */
  predicate Strays(blob: Blob, focused: nat, live: set<nat>) {
    (exists id :: id in DrawnIds(blob) && id >= ID_SPAN && Key(id) in live) ||
    (focused >= ID_SPAN && Key(focused) in live && forall id :: id in DrawnIds(blob) ==> Key(id) !in live)
  }

  lemma NarrowIsListed(listed: seq<Listed>, members: seq<nat>, id: nat)
    requires Narrow(listed, members) && Key(id) in LiveMembers(members, AliveKeys(listed))
    ensures ListedAlive(listed, id) <==> id < ID_SPAN
  {
    if id < ID_SPAN {
      var s :| s in listed && s.alive && Key(s.id) == Key(id);
    }
  }

  lemma SessionsThere(ps: seq<Pane>)
    ensures forall id :: id in SessionsOf(ps) <==> exists p :: p in ps && p.session == id
  {
    forall p | p in ps ensures p.session in SessionsOf(ps) {
      var i :| 0 <= i < |ps| && ps[i] == p;
      assert SessionsOf(ps)[i] == p.session;
    }
    forall id | id in SessionsOf(ps) ensures exists p :: p in ps && p.session == id {
      var i :| 0 <= i < |ps| && SessionsOf(ps)[i] == id;
      assert ps[i] in ps;
    }
  }

  /** A filled pane shows the session it showed. */
  lemma FilledListed(shown: seq<Pane>, leaves: seq<Pane>, g: Grid, listed: seq<Listed>)
    requires Filled(shown, leaves, g)
    ensures AllListed(shown, listed) <==> AllListed(leaves, listed)
  {
    forall i | 0 <= i < |leaves| ensures shown[i] in shown && leaves[i] in leaves && shown[i].session == leaves[i].session {}
  }

  /** For ids the tables can tell apart, a card draws only sessions that LIST
      reports alive exactly when its blob has no stray. */
  lemma ReconciledListed(drawn: seq<Pane>, info: GroupInfo, listed: seq<Listed>, focused: nat, g: Grid)
    requires DrawnFrom(drawn, info.blob) && Narrow(listed, info.members)
    ensures var live := LiveMembers(info.members, AliveKeys(listed));
      AllListed(Reconciled(drawn, info.members, live, focused, g), listed) <==> !Strays(info.blob, focused, live)
  {
    hide DrawnFrom, DrawnIds, Kept, FirstLive, AliveKeys, LiveMembers, SessionsOf, ListedAlive;
    var live := LiveMembers(info.members, AliveKeys(listed));
    KeptAre(drawn, live);
    DrawnInOrder(drawn, info.blob);
    SessionsThere(drawn);
    if Kept(drawn, live) != [] {
      assert Kept(drawn, live)[0] in Kept(drawn, live);
      forall p | p in Kept(drawn, live) ensures ListedAlive(listed, p.session) <==> p.session < ID_SPAN {
        NarrowIsListed(listed, info.members, p.session);
      }
    } else {
      assert forall id :: id in DrawnIds(info.blob) ==> Key(id) !in live by {
        forall p | p in drawn ensures p in Kept(drawn, live) <==> Key(p.session) in live {}
      }
      KeptNone(live);
      FallbackListed(info, listed, focused, g);
    }
  }

  lemma FallbackListed(info: GroupInfo, listed: seq<Listed>, focused: nat, g: Grid)
    requires Narrow(listed, info.members)
    ensures var live := LiveMembers(info.members, AliveKeys(listed));
      AllListed(Reconciled([], info.members, live, focused, g), listed) <==> !(focused >= ID_SPAN && Key(focused) in live)
  {
    hide AliveKeys, LiveMembers, ListedAlive;
    var live := LiveMembers(info.members, AliveKeys(listed));
    var first := FirstLive(info.members, live);
    var one := Reconciled([], info.members, live, focused, g);
    FirstLiveFinds(info.members, live);
    KeptNone(live);
    if first != 0 { NarrowIsListed(listed, info.members, first); }
    if focused != 0 && Key(focused) in live {
      NarrowIsListed(listed, info.members, focused);
    }
    if one != [] { assert one[0] in one; }
  }

  /** Of any card BuildCard makes: for ids the tables can tell apart, it draws only
      sessions that LIST reports alive exactly when its blob has no stray. */
  lemma CardListed(c: Card, info: GroupInfo, focused: nat, g: Grid, listed: seq<Listed>, orphan: nat)
    requires CardOf(c, info, focused, g, AliveKeys(listed), orphan) && Narrow(listed, info.members)
    ensures AllListed(c.leaves, listed) <==> !Strays(info.blob, focused, LiveMembers(info.members, AliveKeys(listed)))
  {
    hide DrawnFrom, Filled, Reconciled, LiveMembers, AliveKeys, AllListed, Strays, Narrow;
    var live := LiveMembers(info.members, AliveKeys(listed));
    var drawn :| DrawnFrom(drawn, info.blob) && Filled(c.leaves, Reconciled(drawn, info.members, live, focused, g), g);
    ReconciledListed(drawn, info, listed, focused, g);
    FilledListed(c.leaves, Reconciled(drawn, info.members, live, focused, g), g, listed);
  }

  /** Build a group's card, or an orphan's when orphan is its session. The card
      draws what the blob's drawing and the live members agree on. */
  method BuildCard(info: GroupInfo, focused: nat, g: Grid, alive: set<nat>, orphan: nat)
    returns (card: Card, ghost drawn: seq<Pane>)
    ensures DrawnFrom(drawn, info.blob)
    ensures Filled(card.leaves, Reconciled(drawn, info.members, LiveMembers(info.members, alive), focused, g), g)
    ensures CardOf(card, info, focused, g, alive, orphan)
    ensures LeafKeys(card.leaves) <= LiveMembers(info.members, alive)
    ensures (forall m :: m in info.members ==> m != 0) && LiveMembers(info.members, alive) != {} ==> card.leaves != []
  {
    var ok, all, seams := BlobGeometry(info.blob, true);
    drawn := all;
    var live := CollectLive(info.members, alive);
    var leaves := DropStale(all, live);
    if |leaves| == 0 {
      var sid := 0;
      if focused != 0 && Key(focused) in live {
        sid := focused;
      } else {
        sid := FindLive(info.members, live);
      }
      if sid != 0 {
        leaves := leaves + [Pane(sid, UNIT, g.cols, g.rows)];
      }
    }
    hide Panes, Drawn, DrawnFrom, LeafKeys, LiveMembers, Kept, FirstLive;
    ReconciledIsLive(all, info.members, alive, focused, g);
    var shown := FillGrids(leaves, g);
    SameKeys(leaves, shown);
    card := Card(info.id, orphan, shown);
  }

  method CollectLive(members: seq<nat>, alive: set<nat>) returns (live: set<nat>)
    ensures live == LiveMembers(members, alive)
  {
    live := {};
    var m := 0;
    while m < |members|
      invariant 0 <= m <= |members|
      invariant live == LiveMembers(members[..m], alive)
    {
      var sid := members[m];
      assert members[..m + 1] == members[..m] + [sid];
      if Key(sid) in alive {
        live := live + {Key(sid)};
      }
      m := m + 1;
    }
    assert members[..m] == members;
  }

  /** Remove the panes of sessions not in the set, from the last to the first. */
  method DropStale(drawn: seq<Pane>, live: set<nat>) returns (leaves: seq<Pane>)
    ensures leaves == Kept(drawn, live)
  {
    leaves := drawn;
    var i := |leaves|;
    while i > 0
      invariant 0 <= i <= |drawn|
      invariant leaves == drawn[..i] + Kept(drawn[i..], live)
    {
      i := i - 1;
      assert leaves[i] == drawn[i];
      assert drawn[i..][1..] == drawn[i + 1..] && drawn[..i + 1] == drawn[..i] + [drawn[i]];
      if Key(leaves[i].session) !in live {
        leaves := leaves[..i] + leaves[i + 1..];
      }
    }
  }

  method FindLive(members: seq<nat>, live: set<nat>) returns (sid: nat)
    ensures sid == FirstLive(members, live)
  {
    sid := 0;
    var m := 0;
    while m < |members|
      invariant 0 <= m <= |members|
      invariant FirstLive(members, live) == FirstLive(members[m..], live)
    {
      var cand := members[m];
      if Key(cand) in live {
        return cand;
      }
      m := m + 1;
    }
  }

  method FillGrids(leaves: seq<Pane>, g: Grid) returns (filled: seq<Pane>)
    ensures |filled| == |leaves| && forall i :: 0 <= i < |leaves| ==> filled[i] == WithGrid(leaves[i], g)
  {
    filled := leaves;
    var i := 0;
    while i < |filled|
      invariant 0 <= i <= |filled| == |leaves|
      invariant forall j :: 0 <= j < |leaves| ==> filled[j] == if j < i then WithGrid(leaves[j], g) else leaves[j]
    {
      if filled[i].cols == 0 || filled[i].rows == 0 {
        filled := filled[i := WithGrid(filled[i], g)];
      }
      i := i + 1;
    }
  }

  lemma SameKeys(a: seq<Pane>, b: seq<Pane>)
    requires |a| == |b| && forall i :: 0 <= i < |a| ==> a[i].session == b[i].session
    ensures LeafKeys(a) == LeafKeys(b)
  {
    forall k | k in LeafKeys(a)
      ensures k in LeafKeys(b)
    {
      var p :| p in a && Key(p.session) == k;
      var i :| 0 <= i < |a| && a[i] == p;
      assert b[i] in b;
    }
    forall k | k in LeafKeys(b)
      ensures k in LeafKeys(a)
    {
      var p :| p in b && Key(p.session) == k;
      var i :| 0 <= i < |b| && b[i] == p;
      assert a[i] in a;
    }
  }

  // --- the reload ---

  /** What LIST said of each session, as the table keeps it: a later entry wins. */
  function AttachedTable(sessions: seq<Listed>): map<nat, bool> {
    if sessions == [] then map[]
    else AttachedTable(sessions[..|sessions| - 1])[Key(sessions[|sessions| - 1].id) := sessions[|sessions| - 1].attached]
  }

  /** The table knows the ids LIST named, and of each what its last entry said. */
  lemma {:induction false} TableSays(sessions: seq<Listed>, i: nat)
    requires i < |sessions| && forall j :: i < j < |sessions| ==> Key(sessions[j].id) != Key(sessions[i].id)
    ensures Key(sessions[i].id) in AttachedTable(sessions) && AttachedTable(sessions)[Key(sessions[i].id)] == sessions[i].attached
    decreases |sessions|
  {
    var n := |sessions| - 1;
    if i < n {
      assert sessions[..n][i] == sessions[i] && Key(sessions[n].id) != Key(sessions[i].id);
      TableSays(sessions[..n], i);
    }
  }

  lemma {:induction false} TableKnows(sessions: seq<Listed>, k: nat)
    requires k in AttachedTable(sessions)
    ensures exists i :: 0 <= i < |sessions| && Key(sessions[i].id) == k
    decreases |sessions|
  {
    var n := |sessions| - 1;
    if k != Key(sessions[n].id) {
      TableKnows(sessions[..n], k);
      var i :| 0 <= i < |sessions[..n]| && Key(sessions[..n][i].id) == k;
      assert sessions[i] == sessions[..n][i];
    }
  }

  /** LIST says that the session is attached. */
  predicate SaysAttached(sessions: seq<Listed>, id: nat) {
    exists s :: s in sessions && s.id == id && s.attached
  }

  /** Every session is listed once, under a key of its own. */
  ghost predicate KeysOnce(sessions: seq<Listed>) {
    forall i, j :: 0 <= i < j < |sessions| ==> Key(sessions[i].id) != Key(sessions[j].id)
  }

  /** For ids the table can tell apart, a session is attached by the table exactly
      if LIST says that it is. */
  lemma TableIsList(sessions: seq<Listed>, id: nat)
    requires KeysOnce(sessions) && Narrow(sessions, [id])
    ensures Key(id) in AttachedTable(sessions) && AttachedTable(sessions)[Key(id)] <==> SaysAttached(sessions, id)
  {
    hide AttachedTable;
    assert id in [id];
    if Key(id) in AttachedTable(sessions) && AttachedTable(sessions)[Key(id)] {
      TableKnows(sessions, Key(id));
      var i :| 0 <= i < |sessions| && Key(sessions[i].id) == Key(id);
      TableSays(sessions, i);
      assert sessions[i] in sessions && sessions[i].id == id;
    }
    if s :| s in sessions && s.id == id && s.attached {
      var i :| 0 <= i < |sessions| && sessions[i] == s;
      TableSays(sessions, i);
    }
  }

  predicate GroupAttached(g: GroupInfo, table: map<nat, bool>) {
    exists m :: m in g.members && Key(m) in table && table[Key(m)]
  }

  /** Some other window shows the group. */
  predicate Elsewhere(g: GroupInfo, table: map<nat, bool>, mine: set<nat>) {
    Key(g.id) !in mine && GroupAttached(g, table)
  }

  /** Some member of the group is listed as attached. */
  predicate AnyAttached(sessions: seq<Listed>, g: GroupInfo) {
    exists m :: m in g.members && SaysAttached(sessions, m)
  }

  lemma AttachedIsList(sessions: seq<Listed>, g: GroupInfo)
    requires KeysOnce(sessions) && Narrow(sessions, g.members)
    ensures GroupAttached(g, AttachedTable(sessions)) <==> AnyAttached(sessions, g)
  {
    hide AttachedTable, SaysAttached, KeysOnce;
    forall m | m in g.members
      ensures Key(m) in AttachedTable(sessions) && AttachedTable(sessions)[Key(m)] <==> SaysAttached(sessions, m)
    {
      TableIsList(sessions, m);
    }
  }

  function ElsewhereKeys(groups: seq<GroupInfo>, table: map<nat, bool>, mine: set<nat>): set<nat> {
    set g, m | g in groups && Elsewhere(g, table, mine) && m in g.members :: Key(m)
  }

  function MemberKeys(groups: seq<GroupInfo>): set<nat> {
    set g, m | g in groups && m in g.members :: Key(m)
  }

  /** No session is listed in two groups. */
  ghost predicate Apart(groups: seq<GroupInfo>) {
    forall i, j :: 0 <= i < j < |groups| ==> Keys(groups[i].members) !! Keys(groups[j].members)
  }

  /** No session is on two cards; a session is accounted for exactly when it is
      on one or another window shows it, and never both. */
  ghost predicate Covered(cards: seq<Card>, shown: set<nat>, foreign: set<nat>) {
    forall key :: Holding(cards, key) <= 1 &&
      (key in shown <==> key in foreign || Holding(cards, key) == 1) &&
      (key in foreign ==> Holding(cards, key) == 0)
  }

  lemma CoverElsewhere(cards: seq<Card>, shown: set<nat>, foreign: set<nat>, more: set<nat>)
    requires Covered(cards, shown, foreign) && shown !! more
    ensures Covered(cards, shown + more, foreign + more)
  {
  }

  lemma CoverCard(cards: seq<Card>, shown: set<nat>, foreign: set<nat>, c: Card)
    requires Covered(cards, shown, foreign) && shown !! LeafKeys(c.leaves)
    ensures Covered(cards + [c], shown + LeafKeys(c.leaves), foreign)
  {
    forall key ensures Holding(cards + [c], key) == Holding(cards, key) + if key in LeafKeys(c.leaves) then 1 else 0 {
      HoldingOne(cards, c, key);
    }
  }

  /** Only how often each session is held matters, not the order of the cards. */
  lemma CoverAgrees(cards: seq<Card>, other: seq<Card>, shown: set<nat>, foreign: set<nat>)
    requires Covered(cards, shown, foreign) && forall key :: Holding(other, key) == Holding(cards, key)
    ensures Covered(other, shown, foreign)
  {
  }

  lemma NextApart(groups: seq<GroupInfo>, i: nat)
    requires i < |groups| && Apart(groups)
    ensures Keys(groups[i].members) !! MemberKeys(groups[..i])
  {
    forall k | k in MemberKeys(groups[..i])
      ensures k !in Keys(groups[i].members)
    {
      var g, m :| g in groups[..i] && m in g.members && Key(m) == k;
      var j :| 0 <= j < i && groups[j] == g;
      assert k in Keys(groups[j].members);
    }
  }

  lemma OneMoreGroup(groups: seq<GroupInfo>, i: nat, table: map<nat, bool>, mine: set<nat>)
    requires i < |groups|
    ensures MemberKeys(groups[..i + 1]) == MemberKeys(groups[..i]) + Keys(groups[i].members)
    ensures ElsewhereKeys(groups[..i + 1], table, mine) ==
              ElsewhereKeys(groups[..i], table, mine) + if Elsewhere(groups[i], table, mine) then Keys(groups[i].members) else {}
  {
    assert groups[..i + 1] == groups[..i] + [groups[i]];
  }

  /** The tables of one LIST reply. */
  method ReadSessions(sessions: seq<Listed>) returns (table: map<nat, bool>, alive: set<nat>)
    ensures table == AttachedTable(sessions) && alive == AliveKeys(sessions)
  {
    table, alive := map[], {};
    var i := 0;
    while i < |sessions|
      invariant 0 <= i <= |sessions|
      invariant table == AttachedTable(sessions[..i]) && alive == AliveKeys(sessions[..i])
    {
      var s := sessions[i];
      assert sessions[..i + 1] == sessions[..i] + [s];
      table := table[Key(s.id) := s.attached];
      if s.alive {
        alive := alive + {Key(s.id)};
      }
      i := i + 1;
    }
    assert sessions[..i] == sessions;
  }

  method IsAttached(g: GroupInfo, table: map<nat, bool>) returns (attached: bool)
    ensures attached == GroupAttached(g, table)
  {
    attached := false;
    var m := 0;
    while m < |g.members|
      invariant 0 <= m <= |g.members|
      invariant forall j :: 0 <= j < m ==> !(Key(g.members[j]) in table && table[Key(g.members[j])])
    {
      if Key(g.members[m]) in table && table[Key(g.members[m])] {
        return true;
      }
      m := m + 1;
    }
  }

  /** The title, focused session and grid a blob records. */
  function Peeked(blob: Blob): (nat, Grid) {
    match blob
    case Unreadable => (0, Grid(0, 0))
    case Blob(_, focused, cols, rows) => (focused, Grid(cols, rows))
  }

  /** The grid a card starts from: the live one of the focused pane for a group
      this window may hold, else the recorded one. */
  function SeedGrid(g: GroupInfo, attached: bool, measured: nat -> Option<Grid>): Grid {
    var (focused, grid) := Peeked(g.blob);
    if attached && focused != 0 && measured(focused).Some? then measured(focused).value else grid
  }

  /** This window's tabs, and the groups no window shows, each in list order. */
  function Tabs(groups: seq<GroupInfo>, mine: set<nat>): seq<GroupInfo> {
    if groups == [] then []
    else
      var n := |groups| - 1;
      Tabs(groups[..n], mine) + if Key(groups[n].id) in mine then [groups[n]] else []
  }

  function Loose(groups: seq<GroupInfo>, table: map<nat, bool>, mine: set<nat>): seq<GroupInfo> {
    if groups == [] then []
    else
      var n := |groups| - 1;
      Loose(groups[..n], table, mine) + if Key(groups[n].id) !in mine && !GroupAttached(groups[n], table) then [groups[n]] else []
  }

  /** The card of a group in this window's overview. */
  ghost predicate TabCard(c: Card, g: GroupInfo, table: map<nat, bool>, alive: set<nat>, measured: nat -> Option<Grid>) {
    CardOf(c, g, Peeked(g.blob).0, SeedGrid(g, GroupAttached(g, table), measured), alive, 0)
  }

  ghost predicate CardsOf(cards: seq<Card>, gs: seq<GroupInfo>, table: map<nat, bool>, alive: set<nat>, measured: nat -> Option<Grid>) {
    |cards| == |gs| && forall i :: 0 <= i < |gs| ==> TabCard(cards[i], gs[i], table, alive, measured)
  }

  lemma OneMoreCard(groups: seq<GroupInfo>, i: nat, table: map<nat, bool>, mine: set<nat>)
    requires i < |groups|
    ensures Tabs(groups[..i + 1], mine) ==
              if Key(groups[i].id) in mine then Tabs(groups[..i], mine) + [groups[i]] else Tabs(groups[..i], mine)
    ensures Loose(groups[..i + 1], table, mine) ==
              if Key(groups[i].id) !in mine && !GroupAttached(groups[i], table) then Loose(groups[..i], table, mine) + [groups[i]]
              else Loose(groups[..i], table, mine)
  {
    assert groups[..i + 1][..i] == groups[..i];
  }

  lemma NoCards(table: map<nat, bool>, alive: set<nat>, mine: set<nat>, measured: nat -> Option<Grid>)
    ensures Covered([], {}, {}) && ElsewhereKeys([], table, mine) == {} && MemberKeys([]) == {}
    ensures CardsOf([], Tabs([], mine), table, alive, measured) && CardsOf([], Loose([], table, mine), table, alive, measured)
  {
  }

  lemma CardsGrow(cards: seq<Card>, gs: seq<GroupInfo>, c: Card, g: GroupInfo, table: map<nat, bool>, alive: set<nat>, measured: nat -> Option<Grid>)
    requires CardsOf(cards, gs, table, alive, measured) && TabCard(c, g, table, alive, measured)
    ensures CardsOf(cards + [c], gs + [g], table, alive, measured)
  {
  }

  method BuildTabCard(info: GroupInfo, attached: bool, ghost table: map<nat, bool>, alive: set<nat>, measured: nat -> Option<Grid>)
    returns (card: Card)
    requires attached == GroupAttached(info, table)
    ensures TabCard(card, info, table, alive, measured) && GroupCard(card, alive) && card.groupId == info.id
    ensures LeafKeys(card.leaves) <= Keys(info.members)
  {
    hide DrawnFrom, Filled, LeafKeys, LiveMembers;
    ghost var drawn;
    card, drawn := BuildCard(info, Peeked(info.blob).0, SeedGrid(info, attached, measured), alive, 0);
    LiveMembersAre(info.members, alive);
  }

  /** A card for every group except those another window shows; what those
      draw, and the members of the others, count as shown. */
  method GroupPass(groups: seq<GroupInfo>, table: map<nat, bool>, alive: set<nat>, mine: set<nat>,
      measured: nat -> Option<Grid>)
    returns (attachedCards: seq<Card>, detachedCards: seq<Card>, shown: set<nat>)
    ensures Apart(groups) ==> Covered(attachedCards + detachedCards, shown, ElsewhereKeys(groups, table, mine))
    ensures forall c :: c in attachedCards ==> GroupCard(c, alive) && Key(c.groupId) in mine
    ensures forall c :: c in detachedCards ==> GroupCard(c, alive) && Key(c.groupId) !in mine
    ensures CardsOf(attachedCards, Tabs(groups, mine), table, alive, measured)
    ensures CardsOf(detachedCards, Loose(groups, table, mine), table, alive, measured)
  {
    hide MemberKeys, ElsewhereKeys, Covered, Keys, Apart, Holding, Elsewhere, GroupCard, CardsOf, TabCard, Tabs, Loose;
    hide GroupAttached, LeafKeys;
    attachedCards, detachedCards, shown := [], [], {};
    ghost var foreign: set<nat> := {};
    NoCards(table, alive, mine, measured);
    assert attachedCards + detachedCards == [] && groups[..0] == [];
    var i := 0;
    while i < |groups|
      invariant 0 <= i <= |groups|
      invariant foreign == ElsewhereKeys(groups[..i], table, mine) && shown <= MemberKeys(groups[..i])
      invariant Apart(groups) ==> Covered(attachedCards + detachedCards, shown, foreign)
      invariant forall c :: c in attachedCards ==> GroupCard(c, alive) && Key(c.groupId) in mine
      invariant forall c :: c in detachedCards ==> GroupCard(c, alive) && Key(c.groupId) !in mine
      invariant CardsOf(attachedCards, Tabs(groups[..i], mine), table, alive, measured)
      invariant CardsOf(detachedCards, Loose(groups[..i], table, mine), table, alive, measured)
    {
      OneMoreCard(groups, i, table, mine);
      var info := groups[i];
      var attached := IsAttached(info, table);
      OneMoreGroup(groups, i, table, mine);
      if Apart(groups) {
        NextApart(groups, i);
      }
      if Key(info.id) !in mine && attached {
        if Apart(groups) {
          CoverElsewhere(attachedCards + detachedCards, shown, foreign, Keys(info.members));
        }
        WhenElsewhere(info, table, mine);
        shown := shown + Keys(info.members);
        foreign := foreign + Keys(info.members);
      } else {
        WhenHere(info, table, mine);
        var card := BuildTabCard(info, attached, table, alive, measured);
        if Apart(groups) {
          CoverCard(attachedCards + detachedCards, shown, foreign, card);
          AddEither(attachedCards, detachedCards, card, shown + LeafKeys(card.leaves), foreign);
        }
        if Key(info.id) in mine {
          CardsGrow(attachedCards, Tabs(groups[..i], mine), card, info, table, alive, measured);
          attachedCards := attachedCards + [card];
        } else {
          CardsGrow(detachedCards, Loose(groups[..i], table, mine), card, info, table, alive, measured);
          detachedCards := detachedCards + [card];
        }
        shown := shown + LeafKeys(card.leaves);
      }
      i := i + 1;
    }
    assert groups[..i] == groups;
  }

  ghost predicate GroupCard(c: Card, alive: set<nat>) {
    c.killSession == 0 && LeafKeys(c.leaves) <= alive
  }

  lemma WhenElsewhere(g: GroupInfo, table: map<nat, bool>, mine: set<nat>)
    requires Key(g.id) !in mine && GroupAttached(g, table)
    ensures Elsewhere(g, table, mine)
  {
  }

  lemma WhenHere(g: GroupInfo, table: map<nat, bool>, mine: set<nat>)
    requires Key(g.id) in mine || !GroupAttached(g, table)
    ensures !Elsewhere(g, table, mine)
  {
  }

  lemma LiveMembersAre(members: seq<nat>, alive: set<nat>)
    ensures LiveMembers(members, alive) <= alive && LiveMembers(members, alive) <= Keys(members)
  {
  }

  lemma AddEither(a: seq<Card>, b: seq<Card>, c: Card, shown: set<nat>, foreign: set<nat>)
    requires Covered(a + b + [c], shown, foreign)
    ensures Covered(a + [c] + b, shown, foreign) && Covered(a + (b + [c]), shown, foreign)
  {
    forall key
      ensures Holding(a + [c] + b, key) == Holding(a + b + [c], key)
      ensures Holding(a + (b + [c]), key) == Holding(a + b + [c], key)
    {
      HoldingOne(a + b, c, key);
      HoldingOne(a, c, key);
      HoldingOne(b, c, key);
      HoldingAppend(a, b, key);
      HoldingAppend(a + [c], b, key);
      HoldingAppend(a, b + [c], key);
    }
    CoverAgrees(a + b + [c], a + [c] + b, shown, foreign);
    CoverAgrees(a + b + [c], a + (b + [c]), shown, foreign);
  }

  /** The group a session is filed under, 0 for none. */
  method GroupOf(groups: seq<GroupInfo>, sid: nat) returns (gid: nat)
    ensures (gid == 0 && forall g :: g in groups && sid in g.members ==> g.id == 0) ||
            exists g :: g in groups && sid in g.members && g.id == gid
  {
    gid := 0;
    var i := 0;
    while i < |groups|
      invariant 0 <= i <= |groups|
      invariant forall j :: 0 <= j < i ==> sid !in groups[j].members
    {
      var m := 0;
      while m < |groups[i].members|
        invariant 0 <= m <= |groups[i].members|
        invariant forall j :: 0 <= j < m ==> groups[i].members[j] != sid
      {
        if groups[i].members[m] == sid {
          assert groups[i] in groups;
          return groups[i].id;
        }
        m := m + 1;
      }
      i := i + 1;
    }
  }

  /** The daemon numbers sessions from 1. */
  ghost predicate Numbered(sessions: seq<Listed>) {
    forall s :: s in sessions ==> s.id != 0
  }

  ghost predicate OrphanCard(c: Card, alive: set<nat>) {
    c.killSession != 0 && |c.leaves| == 1 && c.leaves[0].session == c.killSession &&
    c.leaves[0].rect == UNIT && Key(c.killSession) in alive
  }

  /** A single-pane card of its own for every live session no card shows yet. */
  method OrphanPass(groups: seq<GroupInfo>, sessions: seq<Listed>, alive: set<nat>, before: seq<Card>, shown0: set<nat>,
      ghost foreign: set<nat>)
    returns (orphans: seq<Card>, shown: set<nat>)
    requires alive == AliveKeys(sessions)
    ensures Numbered(sessions) && Covered(before, shown0, foreign) ==> Covered(before + orphans, shown, foreign)
    ensures forall s :: s in sessions && s.alive ==> Key(s.id) in shown
    ensures forall c :: c in orphans ==> LeafKeys(c.leaves) <= alive
    ensures Numbered(sessions) ==> forall c :: c in orphans ==> OrphanCard(c, alive)
    ensures CardsListed(orphans, sessions)
  {
    orphans, shown := [], shown0;
    assert before + orphans == before;
    var i := 0;
    while i < |sessions|
      invariant 0 <= i <= |sessions|
      invariant Numbered(sessions) && Covered(before, shown0, foreign) ==> Covered(before + orphans, shown, foreign)
      invariant forall j :: 0 <= j < i && sessions[j].alive ==> Key(sessions[j].id) in shown
      invariant forall c :: c in orphans ==> LeafKeys(c.leaves) <= alive
      invariant Numbered(sessions) ==> forall c :: c in orphans ==> OrphanCard(c, alive)
      invariant CardsListed(orphans, sessions)
    {
      var s := sessions[i];
      assert s in sessions;
      if s.alive && Key(s.id) !in shown {
        var gid := GroupOf(groups, s.id);
        var card := BuildOrphan(gid, s.id, alive);
        if Numbered(sessions) && Covered(before, shown0, foreign) {
          CoverCard(before + orphans, shown, foreign, card);
          assert before + orphans + [card] == before + (orphans + [card]);
        }
        orphans := orphans + [card];
        shown := shown + {Key(s.id)};
      }
      i := i + 1;
    }
  }

  method BuildOrphan(gid: nat, sid: nat, alive: set<nat>) returns (card: Card)
    requires Key(sid) in alive
    ensures card.groupId == gid && LeafKeys(card.leaves) <= alive
    ensures sid != 0 ==> OrphanCard(card, alive) && LeafKeys(card.leaves) == {Key(sid)}
    ensures forall p :: p in card.leaves ==> p.session == sid
  {
    var info := GroupInfo(gid, [sid], Unreadable);
    ghost var drawn;
    card, drawn := BuildCard(info, sid, Grid(0, 0), alive, sid);
    LiveMembersAre([sid], alive);
    assert Key(sid) in LiveMembers([sid], alive);
  }

  ghost predicate CardsListed(cards: seq<Card>, listed: seq<Listed>) {
    forall c :: c in cards ==> AllListed(c.leaves, listed)
  }

  ghost predicate NarrowIds(listed: seq<Listed>, groups: seq<GroupInfo>) {
    forall g :: g in groups ==> Narrow(listed, g.members)
  }

  /** No blob of these groups names a wider id the tables take for a live member. */
  ghost predicate StrayFree(groups: seq<GroupInfo>, alive: set<nat>) {
    forall g :: g in groups ==> !Strays(g.blob, Peeked(g.blob).0, LiveMembers(g.members, alive))
  }

  lemma CardsListedIff(cards: seq<Card>, gs: seq<GroupInfo>, table: map<nat, bool>, listed: seq<Listed>, measured: nat -> Option<Grid>)
    requires CardsOf(cards, gs, table, AliveKeys(listed), measured) && NarrowIds(listed, gs)
    ensures CardsListed(cards, listed) <==> StrayFree(gs, AliveKeys(listed))
  {
    hide AllListed, Strays, LiveMembers, AliveKeys, Narrow, CardOf, SeedGrid, GroupAttached;
    forall i | 0 <= i < |gs|
      ensures cards[i] in cards && gs[i] in gs
      ensures AllListed(cards[i].leaves, listed) <==> !Strays(gs[i].blob, Peeked(gs[i].blob).0, LiveMembers(gs[i].members, AliveKeys(listed)))
    {
      CardListed(cards[i], gs[i], Peeked(gs[i].blob).0, SeedGrid(gs[i], GroupAttached(gs[i], table), measured), listed, 0);
    }
  }

  lemma {:induction false} FewerGroups(groups: seq<GroupInfo>, table: map<nat, bool>, mine: set<nat>)
    ensures forall g :: g in Tabs(groups, mine) <==> g in groups && Key(g.id) in mine
    ensures forall g :: g in Loose(groups, table, mine) <==> g in groups && Key(g.id) !in mine && !GroupAttached(g, table)
    decreases |groups|
  {
    hide GroupAttached;
    if groups != [] {
      var n := |groups| - 1;
      FewerGroups(groups[..n], table, mine);
      assert groups == groups[..n] + [groups[n]];
    }
  }

  /** In list order: of two stretches of the list they are those of each. */
  lemma {:induction false} GroupsInOrder(a: seq<GroupInfo>, b: seq<GroupInfo>, table: map<nat, bool>, mine: set<nat>)
    ensures Tabs(a + b, mine) == Tabs(a, mine) + Tabs(b, mine)
    ensures Loose(a + b, table, mine) == Loose(a, table, mine) + Loose(b, table, mine)
    decreases |b|
  {
    hide GroupAttached;
    if b == [] {
      assert a + b == a;
    } else {
      var n := |b| - 1;
      GroupsInOrder(a, b[..n], table, mine);
      assert (a + b)[..|a + b| - 1] == a + b[..n] && (a + b)[|a + b| - 1] == b[n];
    }
  }

  ghost predicate AllLive(cards: seq<Card>, alive: set<nat>) {
    forall c :: c in cards ==> LeafKeys(c.leaves) <= alive
  }

  /** Rebuild the grid of cards from one GROUP_LIST and one LIST. The first
      cards, as many as own, are this window's tabs; after them come detached
      groups and orphans. No card draws a session that is not alive, and each
      live session is on exactly one card unless its group is shown elsewhere,
      when it is on none. */
  method Reload(groups: Option<seq<GroupInfo>>, listed: Option<seq<Listed>>, mine: set<nat>, measured: nat -> Option<Grid>)
    returns (flow: seq<Card>, ghost own: nat)
    ensures groups.None? ==> flow == []
    ensures groups.Some? ==> own == |Tabs(groups.value, mine)| && Laid(flow, groups.value, ListedIn(listed), mine, measured)
    ensures AllLive(flow, if listed.Some? then AliveKeys(listed.value) else {})
    ensures own <= |flow|
    ensures forall i :: 0 <= i < own ==> flow[i].killSession == 0 && Key(flow[i].groupId) in mine
    ensures (listed.Some? ==> Numbered(listed.value)) ==>
      forall i :: own <= i < |flow| ==> flow[i].killSession != 0 || Key(flow[i].groupId) !in mine
    ensures groups.Some? && Apart(groups.value) && listed.Some? && Numbered(listed.value) ==>
      forall s :: s in listed.value && s.alive ==>
        Holding(flow, Key(s.id)) == if Key(s.id) in ElsewhereKeys(groups.value, AttachedTable(listed.value), mine) then 0 else 1
    ensures groups.Some? && Apart(groups.value) && (listed.Some? ==> Numbered(listed.value)) ==>
      forall key :: Holding(flow, key) <= 1
    ensures groups.Some? && Legible(groups.value, ListedIn(listed)) ==> ByTheList(flow, groups.value, ListedIn(listed), mine)
  {
    if groups.None? {
      return [], 0;
    }
    hide Laid, Tabs, Loose, AllLive, OnceEach, AliveKeys, AttachedTable, Holding, Legible, ByTheList;
    flow, own := Rebuild(groups.value, ListedIn(listed), mine, measured);
    LaidOwn(flow, groups.value, ListedIn(listed), mine, measured);
    if Legible(groups.value, ListedIn(listed)) { LaidByTheList(flow, groups.value, ListedIn(listed), mine, measured); }
    OnceEachHeld(flow, groups.value, ListedIn(listed), mine);
  }

  /** Sessions and groups are listed once each, a session in one group at most, with
      ids from 1 that the tables can tell apart. */
  ghost predicate Legible(groups: seq<GroupInfo>, said: seq<Listed>) {
    Numbered(said) && Apart(groups) && KeysOnce(said) && NarrowIds(said, groups)
    && forall i, j :: 0 <= i < j < |groups| ==> groups[i].id != groups[j].id
  }

  /** By LIST itself, another window shows the group. */
  predicate InOther(g: GroupInfo, said: seq<Listed>, mine: set<nat>) {
    Key(g.id) !in mine && AnyAttached(said, g)
  }

  ghost predicate HasCard(flow: seq<Card>, g: GroupInfo) {
    exists c :: c in flow && c.killSession == 0 && c.groupId == g.id
  }

  /** A group has its card exactly if it is one of this window's tabs or LIST says
      of none of its members that it is attached; and a live session is on exactly
      one card, but on none if a group without a card lists it. */
  ghost predicate ByTheList(flow: seq<Card>, groups: seq<GroupInfo>, said: seq<Listed>, mine: set<nat>) {
    && (forall g :: g in groups ==> (HasCard(flow, g) <==> !InOther(g, said, mine)))
    && forall s :: s in said && s.alive ==>
         Holding(flow, Key(s.id)) == if exists g :: g in groups && s.id in g.members && InOther(g, said, mine) then 0 else 1
  }

  lemma LaidByTheList(flow: seq<Card>, groups: seq<GroupInfo>, said: seq<Listed>, mine: set<nat>, measured: nat -> Option<Grid>)
    requires Laid(flow, groups, said, mine, measured) && OnceEach(flow, groups, said, mine) && Legible(groups, said)
    ensures ByTheList(flow, groups, said, mine)
  {
    hide Laid, OnceEach, AttachedTable, AnyAttached, Holding, HasCard;
    var table := AttachedTable(said);
    forall g | g in groups
      ensures Elsewhere(g, table, mine) <==> InOther(g, said, mine)
      ensures HasCard(flow, g) <==> !InOther(g, said, mine)
    {
      AttachedIsList(said, g);
      CardIffHere(flow, groups, said, mine, measured, g);
    }
    OnceEachHeld(flow, groups, said, mine);
    forall s | s in said && s.alive
      ensures Key(s.id) in ElsewhereKeys(groups, table, mine) <==> exists g :: g in groups && s.id in g.members && InOther(g, said, mine)
    {
      hide GroupAttached;
      if Key(s.id) in ElsewhereKeys(groups, table, mine) {
        var g, m :| g in groups && Elsewhere(g, table, mine) && m in g.members && Key(m) == Key(s.id);
        assert m == s.id;
      }
    }
  }

  /** A group has a card of its own in a flow laid like this exactly if no other
      window shows it. */
  lemma CardIffHere(flow: seq<Card>, groups: seq<GroupInfo>, said: seq<Listed>, mine: set<nat>, measured: nat -> Option<Grid>, g: GroupInfo)
    requires Laid(flow, groups, said, mine, measured) && Numbered(said) && g in groups
    requires forall i, j :: 0 <= i < j < |groups| ==> groups[i].id != groups[j].id
    ensures HasCard(flow, g) <==> !Elsewhere(g, AttachedTable(said), mine)
  {
    hide StrayFree, NarrowIds, CardsListed, AliveKeys, AttachedTable, Tabs, Loose, DrawnFrom, Filled, GroupAttached;
    var table := AttachedTable(said);
    var tabs, loose := Tabs(groups, mine), Loose(groups, table, mine);
    FewerGroups(groups, table, mine);
    var cards, rest := flow[|tabs|..|tabs| + |loose|], flow[|tabs| + |loose|..];
    if !Elsewhere(g, table, mine) {
      if g in tabs {
        var i :| 0 <= i < |tabs| && tabs[i] == g;
        assert TabCard(flow[..|tabs|][i], tabs[i], table, AliveKeys(said), measured) && flow[i] in flow;
      } else {
        var i :| 0 <= i < |loose| && loose[i] == g;
        assert TabCard(cards[i], loose[i], table, AliveKeys(said), measured) && flow[|tabs| + i] in flow;
      }
    }
    if c :| c in flow && c.killSession == 0 && c.groupId == g.id {
      var i :| 0 <= i < |flow| && flow[i] == c;
      OwnCard(flow, groups, said, mine, measured, i);
    }
  }

  /** A card that is no orphan's is that of a group no other window shows. */
  lemma OwnCard(flow: seq<Card>, groups: seq<GroupInfo>, said: seq<Listed>, mine: set<nat>, measured: nat -> Option<Grid>, i: nat)
    requires Laid(flow, groups, said, mine, measured) && Numbered(said) && i < |flow|
    ensures flow[i].killSession != 0 || exists g :: g in groups && g.id == flow[i].groupId && !Elsewhere(g, AttachedTable(said), mine)
  {
    hide StrayFree, NarrowIds, CardsListed, AliveKeys, AttachedTable, Tabs, Loose, DrawnFrom, Filled, GroupAttached;
    var table := AttachedTable(said);
    var tabs, loose := Tabs(groups, mine), Loose(groups, table, mine);
    FewerGroups(groups, table, mine);
    var cards, rest := flow[|tabs|..|tabs| + |loose|], flow[|tabs| + |loose|..];
    if i < |tabs| {
      assert TabCard(flow[..|tabs|][i], tabs[i], table, AliveKeys(said), measured) && tabs[i] in tabs;
    } else if i < |tabs| + |loose| {
      assert TabCard(cards[i - |tabs|], loose[i - |tabs|], table, AliveKeys(said), measured) && loose[i - |tabs|] in loose;
    } else {
      assert flow[i] == rest[i - |tabs| - |loose|];
      assert OrphanCard(flow[i], AliveKeys(said));
    }
  }

  /** The flow of cards: this window's tabs, the groups no window shows, then
      orphans; and exactly when it draws only what LIST reports alive. */
  ghost predicate Laid(flow: seq<Card>, groups: seq<GroupInfo>, said: seq<Listed>, mine: set<nat>, measured: nat -> Option<Grid>) {
    var table, alive := AttachedTable(said), AliveKeys(said);
    var tabs, loose := Tabs(groups, mine), Loose(groups, table, mine);
    var own := |tabs|;
    own + |loose| <= |flow| &&
    CardsOf(flow[..own], tabs, table, alive, measured) &&
    CardsOf(flow[own..own + |loose|], loose, table, alive, measured) &&
    (Numbered(said) ==> forall c :: c in flow[own + |loose|..] ==> OrphanCard(c, alive)) &&
    (NarrowIds(said, tabs + loose) ==> (CardsListed(flow, said) <==> StrayFree(tabs + loose, alive)))
  }

  /** Each live session is on one card, or on none when another window shows its
      group; and no session is on two. */
  ghost predicate OnceEach(flow: seq<Card>, groups: seq<GroupInfo>, said: seq<Listed>, mine: set<nat>) {
    Apart(groups) && Numbered(said) ==>
      (forall key :: Holding(flow, key) <= 1) &&
      forall s :: s in said && s.alive ==>
        Holding(flow, Key(s.id)) == if Key(s.id) in ElsewhereKeys(groups, AttachedTable(said), mine) then 0 else 1
  }

  /** The groups and sessions were both listed. */
  method Rebuild(groups: seq<GroupInfo>, said: seq<Listed>, mine: set<nat>, measured: nat -> Option<Grid>)
    returns (flow: seq<Card>, ghost own: nat)
    ensures own == |Tabs(groups, mine)| && Laid(flow, groups, said, mine, measured)
    ensures AllLive(flow, AliveKeys(said)) && OnceEach(flow, groups, said, mine)
  {
    hide CardsOf, Tabs, Loose, StrayFree, CardsListed, NarrowIds, Laid, AllLive, OnceEach, ElsewhereKeys, GroupCard, OrphanCard;
    hide LeafKeys, Covered, Apart;
    var table, alive := ReadSessions(said);
    var attachedCards, detachedCards, shown := GroupPass(groups, table, alive, mine, measured);
    ghost var foreign := ElsewhereKeys(groups, table, mine);
    var orphans, covered := OrphanPass(groups, said, alive, attachedCards + detachedCards, shown, foreign);
    flow := attachedCards + detachedCards + orphans;
    own := |attachedCards|;
    CardsLive(attachedCards, detachedCards, orphans, alive);
    FlowLaid(attachedCards, detachedCards, orphans, groups, said, mine, measured);
    FlowOnce(flow, groups, said, mine, covered);
    CardCount(attachedCards, Tabs(groups, mine), table, alive, measured);
  }

  lemma CardCount(cards: seq<Card>, gs: seq<GroupInfo>, table: map<nat, bool>, alive: set<nat>, measured: nat -> Option<Grid>)
    requires CardsOf(cards, gs, table, alive, measured)
    ensures |cards| == |gs|
  {
  }

  lemma FlowLaid(a: seq<Card>, b: seq<Card>, c: seq<Card>, groups: seq<GroupInfo>, said: seq<Listed>, mine: set<nat>, measured: nat -> Option<Grid>)
    requires CardsOf(a, Tabs(groups, mine), AttachedTable(said), AliveKeys(said), measured)
    requires CardsOf(b, Loose(groups, AttachedTable(said), mine), AttachedTable(said), AliveKeys(said), measured)
    requires CardsListed(c, said) && (Numbered(said) ==> forall x :: x in c ==> OrphanCard(x, AliveKeys(said)))
    ensures Laid(a + b + c, groups, said, mine, measured)
  {
    hide CardsOf, Tabs, Loose, StrayFree, CardsListed, NarrowIds, AliveKeys, AttachedTable, OrphanCard;
    var table, alive := AttachedTable(said), AliveKeys(said);
    var tabs, loose, flow := Tabs(groups, mine), Loose(groups, table, mine), a + b + c;
    CardCount(a, tabs, table, alive, measured);
    CardCount(b, loose, table, alive, measured);
    assert flow[..|a|] == a && flow[|a|..|a| + |b|] == b && flow[|a| + |b|..] == c;
    FlowListed(a, b, c, tabs, loose, table, said, measured);
  }

  lemma FlowOnce(flow: seq<Card>, groups: seq<GroupInfo>, said: seq<Listed>, mine: set<nat>, covered: set<nat>)
    requires Apart(groups) && Numbered(said) ==> Covered(flow, covered, ElsewhereKeys(groups, AttachedTable(said), mine))
    requires forall s :: s in said && s.alive ==> Key(s.id) in covered
    ensures OnceEach(flow, groups, said, mine)
  {
  }

  /** What stands where in a flow laid like this. */
  lemma LaidOwn(flow: seq<Card>, groups: seq<GroupInfo>, said: seq<Listed>, mine: set<nat>, measured: nat -> Option<Grid>)
    requires Laid(flow, groups, said, mine, measured)
    ensures |Tabs(groups, mine)| <= |flow|
    ensures forall i :: 0 <= i < |Tabs(groups, mine)| ==> flow[i].killSession == 0 && Key(flow[i].groupId) in mine
    ensures Numbered(said) ==>
      forall i :: |Tabs(groups, mine)| <= i < |flow| ==> flow[i].killSession != 0 || Key(flow[i].groupId) !in mine
  {
    hide StrayFree, NarrowIds, CardsListed, AliveKeys, Tabs, Loose, DrawnFrom, Filled;
    var table := AttachedTable(said);
    var tabs, loose := Tabs(groups, mine), Loose(groups, table, mine);
    FewerGroups(groups, table, mine);
    forall i | 0 <= i < |tabs| ensures flow[i].killSession == 0 && Key(flow[i].groupId) in mine {
      assert tabs[i] in tabs && flow[i] == flow[..|tabs|][i];
    }
    if Numbered(said) {
      forall i | |tabs| <= i < |flow| ensures flow[i].killSession != 0 || Key(flow[i].groupId) !in mine {
        var k := i - |tabs|;
        if k < |loose| {
          var cards := flow[|tabs|..|tabs| + |loose|];
          assert flow[i] == cards[k] && TabCard(cards[k], loose[k], table, AliveKeys(said), measured) && loose[k] in loose;
        } else {
          var rest := flow[|tabs| + |loose|..];
          assert flow[i] == rest[k - |loose|] && rest[k - |loose|] in rest;
          assert OrphanCard(rest[k - |loose|], AliveKeys(said));
        }
      }
    }
  }

  lemma OnceEachHeld(flow: seq<Card>, groups: seq<GroupInfo>, said: seq<Listed>, mine: set<nat>)
    requires OnceEach(flow, groups, said, mine)
    ensures Apart(groups) && Numbered(said) ==> forall key :: Holding(flow, key) <= 1
    ensures Apart(groups) && Numbered(said) ==> forall s :: s in said && s.alive ==>
      Holding(flow, Key(s.id)) == if Key(s.id) in ElsewhereKeys(groups, AttachedTable(said), mine) then 0 else 1
  {
  }

  /** An unanswered LIST counts as an empty one. */
  function ListedIn(listed: Option<seq<Listed>>): seq<Listed> {
    if listed.Some? then listed.value else []
  }

  lemma FlowListed(a: seq<Card>, b: seq<Card>, c: seq<Card>, tabs: seq<GroupInfo>, loose: seq<GroupInfo>,
      table: map<nat, bool>, listed: seq<Listed>, measured: nat -> Option<Grid>)
    requires CardsOf(a, tabs, table, AliveKeys(listed), measured) && CardsOf(b, loose, table, AliveKeys(listed), measured)
    requires CardsListed(c, listed)
    ensures NarrowIds(listed, tabs + loose) ==>
      (CardsListed(a + b + c, listed) <==> StrayFree(tabs + loose, AliveKeys(listed)))
  {
    hide AllListed, Strays, LiveMembers, AliveKeys, Narrow, CardsOf;
    if NarrowIds(listed, tabs + loose) {
      assert forall g :: g in tabs + loose <==> g in tabs || g in loose;
      assert forall x :: x in a + b + c <==> x in a || x in b || x in c;
      CardsListedIff(a, tabs, table, listed, measured);
      CardsListedIff(b, loose, table, listed, measured);
    }
  }

  lemma CardsLive(a: seq<Card>, b: seq<Card>, c: seq<Card>, alive: set<nat>)
    requires forall x :: x in a ==> GroupCard(x, alive)
    requires forall x :: x in b ==> GroupCard(x, alive)
    requires forall x :: x in c ==> LeafKeys(x.leaves) <= alive
    ensures AllLive(a + b + c, alive)
  {
    assert forall x :: x in a + b + c ==> x in a || x in b || x in c;
  }

  /** The condition fails on real input: one live session 1 in one group, whose
      blob draws 2^32 + 1. Whatever else is given, its card draws that pane, which
      is no session at all. */
  lemma WideIdSlips(c: Card, measured: nat -> Option<Grid>)
    requires TabCard(c, WIDE, AttachedTable([ONE]), AliveKeys([ONE]), measured)
    ensures Narrow([ONE], WIDE.members) && !AllListed(c.leaves, [ONE])
  {
    hide CardOf, SeedGrid, AllListed;
    assert ONE in [ONE] && Key(1) in AliveKeys([ONE]);
    assert 1 in [1] && Key(1) in LiveMembers([1], AliveKeys([ONE]));
    assert DrawnIds(WIDE.blob) == [1 + ID_SPAN] && Key(1 + ID_SPAN) == Key(1);
    assert 1 + ID_SPAN in DrawnIds(WIDE.blob);
    CardListed(c, WIDE, Peeked(WIDE.blob).0, SeedGrid(WIDE, GroupAttached(WIDE, AttachedTable([ONE])), measured), [ONE], 0);
  }

  const ONE: Listed := Listed(1, false, true)
  const WIDE: GroupInfo := GroupInfo(1, [1], Blob(Leaf(1 + ID_SPAN), 1, 80, 24))
}
