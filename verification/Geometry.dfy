/** The split tree a layout blob records, and the geometry walk that draws it.

    A blob's tree is untrusted text: a pane with session id 0 is a pruned pane,
    and a node of any other shape draws nothing. The walk appends to two arrays,
    and when one side of a split turns out empty it truncates both arrays and
    walks the survivor again over the whole rectangle. Coordinates are exact
    reals. */
module Geometry {

  datatype Node =
    | Leaf(session: nat)
    | Split(horizontal: bool, ratio: real, first: Node, second: Node)
    | Void

  datatype Rect = Rect(x: real, y: real, w: real, h: real)

  datatype Pane = Pane(session: nat, rect: Rect, cols: nat, rows: nat)

  datatype Seam = Seam(vertical: bool, rect: Rect)

  // --- pruning ---

  /** The tree with every leaf that fails keep removed; a split that loses one
      side becomes its other side, and one that loses both becomes Void. */
  function Prune(n: Node, keep: nat -> bool): Node
  {
    match n
    case Leaf(id) => if keep(id) then n else Void
    case Void => Void
    case Split(o, r, a, b) =>
      var first, second := Prune(a, keep), Prune(b, keep);
      if first.Void? then second
      else if second.Void? then first
      else Split(o, r, first, second)
  }

  function Sessions(n: Node): seq<nat>
  {
    match n
    case Leaf(id) => [id]
    case Void => []
    case Split(_, _, a, b) => Sessions(a) + Sessions(b)
  }

  /** No split of the tree has an empty side. */
  predicate Solid(n: Node)
  {
    n.Split? ==> !n.first.Void? && !n.second.Void? && Solid(n.first) && Solid(n.second)
  }

  function Filter(s: seq<nat>, keep: nat -> bool): seq<nat>
  {
    if s == [] then []
    else if keep(s[0]) then [s[0]] + Filter(s[1..], keep)
    else Filter(s[1..], keep)
  }

  lemma {:induction false} FilterAppend(s: seq<nat>, t: seq<nat>, keep: nat -> bool)
    ensures Filter(s + t, keep) == Filter(s, keep) + Filter(t, keep)
  {
    if s == [] {
      assert s + t == t;
    } else {
      FilterAppend(s[1..], t, keep);
      assert (s + t)[1..] == s[1..] + t;
      Regroup(if keep(s[0]) then [s[0]] else [], Filter(s[1..], keep), Filter(t, keep));
    }
  }

  lemma Regroup<T>(a: seq<T>, b: seq<T>, c: seq<T>)
    ensures a + (b + c) == a + b + c
  {
  }

  lemma TakesBack<T>(a: seq<T>, b: seq<T>, c: seq<T>)
    ensures (a + b + c)[..|a|] == a
  {
  }

  /** Pruning keeps exactly the wanted sessions, in their order, and leaves no
      half-empty split behind; the result is Void only when nothing was wanted. */
  lemma {:induction false} PruneFilters(n: Node, keep: nat -> bool)
    ensures Solid(Prune(n, keep))
    ensures Sessions(Prune(n, keep)) == Filter(Sessions(n), keep)
    ensures Prune(n, keep).Void? <==> Filter(Sessions(n), keep) == []
  {
    if n.Split? {
      PruneFilters(n.first, keep);
      PruneFilters(n.second, keep);
      FilterAppend(Sessions(n.first), Sessions(n.second), keep);
    }
  }

  /** Pruning by one set and then by another is pruning by their intersection. */
  lemma {:induction false} PruneTwice(n: Node, keep: nat -> bool, also: nat -> bool)
    ensures Prune(Prune(n, keep), also) == Prune(n, (id: nat) => keep(id) && also(id))
  {
    if n.Split? {
      PruneTwice(n.first, keep, also);
      PruneTwice(n.second, keep, also);
    }
  }

  /** Only what the tests say about the tree's own sessions matters. */
  lemma {:induction false} PruneAgrees(n: Node, keep: nat -> bool, other: nat -> bool)
    requires forall id :: id in Sessions(n) ==> keep(id) == other(id)
    ensures Prune(n, keep) == Prune(n, other)
  {
    if n.Split? {
      PruneAgrees(n.first, keep, other);
      PruneAgrees(n.second, keep, other);
    }
  }

  lemma PruneIdempotent(n: Node, keep: nat -> bool)
    ensures Prune(Prune(n, keep), keep) == Prune(n, keep)
  {
    PruneTwice(n, keep, keep);
    PruneAgrees(n, keep, (id: nat) => keep(id) && keep(id));
  }

  /** What the walk draws: everything but the panes with session id 0. */
  function Drawn(n: Node): Node
  {
    Prune(n, (id: nat) => id != 0)
  }

  /** The table of live sessions is keyed by the low 32 bits of the id. */
  const ID_SPAN := 0x1_0000_0000

  /** The rebuild of a stored tree, leaf by leaf, that drops dead sessions. */
  function BuildNode(n: Node, alive: set<nat>): (r: Node)
    ensures r == Prune(n, (id: nat) => id != 0 && id % ID_SPAN in alive)
  {
    match n
    case Leaf(id) => if id != 0 && id % ID_SPAN in alive then n else Void
    case Void => Void
    case Split(o, ratio, a, b) =>
      var start, end := BuildNode(a, alive), BuildNode(b, alive);
      if start.Void? && end.Void? then Void
      else if start.Void? then end
      else if end.Void? then start
      else Split(o, ratio, start, end)
  }

  /** The picture and the restored tab have the same leaves in the same order
      and the same splits when every recorded session is still alive. */
  lemma BuildMatchesDrawing(n: Node, alive: set<nat>)
    requires forall id :: id in Sessions(n) && id != 0 ==> id % ID_SPAN in alive
    ensures BuildNode(n, alive) == Drawn(n)
  {
    PruneAgrees(n, (id: nat) => id != 0 && id % ID_SPAN in alive, (id: nat) => id != 0);
  }

  /** Otherwise the restored tab is the picture with the dead panes pruned. */
  lemma BuildPrunesDrawing(n: Node, alive: set<nat>)
    ensures BuildNode(n, alive) == Prune(Drawn(n), (id: nat) => id % ID_SPAN in alive)
    ensures Solid(BuildNode(n, alive))
    ensures Sessions(BuildNode(n, alive)) == Filter(Sessions(n), (id: nat) => id != 0 && id % ID_SPAN in alive)
    ensures BuildNode(BuildNode(n, alive), alive) == BuildNode(n, alive)
  {
    var shown := (id: nat) => id != 0;
    var live := (id: nat) => id % ID_SPAN in alive;
    var kept := (id: nat) => id != 0 && id % ID_SPAN in alive;
    PruneTwice(n, shown, live);
    PruneAgrees(n, kept, (id: nat) => shown(id) && live(id));
    PruneFilters(n, kept);
    PruneIdempotent(n, kept);
  }

  // --- layout ---

  /** A ratio outside the open unit interval is drawn as an even split. */
  function Usable(ratio: real): (r: real)
    ensures 0.0 < r < 1.0
  {
    if ratio <= 0.0 || ratio >= 1.0 then 0.5 else ratio
  }

  function Part(whole: real, ratio: real): (r: real)
    ensures whole > 0.0 && 0.0 < ratio < 1.0 ==> 0.0 < r < whole
  {
    whole * ratio
  }

  /** How far into its rectangle a split puts its seam. */
  function Cut(n: Node, r: Rect): real
    requires n.Split?
  {
    Part(if n.horizontal then r.w else r.h, Usable(n.ratio))
  }

  function FirstPart(n: Node, r: Rect): Rect
    requires n.Split?
  {
    if n.horizontal then r.(w := Cut(n, r)) else r.(h := Cut(n, r))
  }

  function SecondPart(n: Node, r: Rect): Rect
    requires n.Split?
  {
    if n.horizontal then r.(x := r.x + Cut(n, r), w := r.w - Cut(n, r))
    else r.(y := r.y + Cut(n, r), h := r.h - Cut(n, r))
  }

  function OwnSeam(n: Node, r: Rect): Seam
    requires n.Split?
  {
    if n.horizontal then Seam(true, Rect(r.x + Cut(n, r), r.y, 0.0, r.h))
    else Seam(false, Rect(r.x, r.y + Cut(n, r), r.w, 0.0))
  }

  /** The layout of a tree, with no notion of collapsing: each split divides its
      rectangle between its two sides. */
  function Panes(n: Node, r: Rect): seq<Pane>
  {
    match n
    case Leaf(id) => [Pane(id, r, 0, 0)]
    case Void => []
    case Split(_, _, a, b) => Panes(a, FirstPart(n, r)) + Panes(b, SecondPart(n, r))
  }

  function Seams(n: Node, r: Rect): seq<Seam>
  {
    match n
    case Leaf(_) => []
    case Void => []
    case Split(_, _, a, b) => Seams(a, FirstPart(n, r)) + Seams(b, SecondPart(n, r)) + [OwnSeam(n, r)]
  }

  /** The parts depend on the split alone, not on what is below it. */
  lemma SplitParts(n: Node, r: Rect, m: Node)
    requires n.Split? && m.Split? && n.horizontal == m.horizontal && n.ratio == m.ratio
    ensures FirstPart(n, r) == FirstPart(m, r) && SecondPart(n, r) == SecondPart(m, r)
    ensures OwnSeam(n, r) == OwnSeam(m, r)
  {
    hide Part, Usable;
  }

  /** The equations of a drawing, by the kind of node. */
  lemma DrawingOf(n: Node, r: Rect)
    ensures Drawn(Void) == Void && Panes(Void, r) == [] && Seams(Void, r) == []
    ensures n.Void? ==> Drawn(n).Void?
    ensures n.Leaf? && n.session == 0 ==> Drawn(n).Void?
    ensures n.Leaf? && n.session != 0 ==>
      Drawn(n) == n && Panes(n, r) == [Pane(n.session, r, 0, 0)] && Seams(n, r) == []
    ensures n.Split? && Drawn(n.first).Void? ==> Drawn(n) == Drawn(n.second)
    ensures n.Split? && Drawn(n.second).Void? ==> Drawn(n) == Drawn(n.first)
    ensures n.Split? && !Drawn(n.first).Void? && !Drawn(n.second).Void? ==>
      !Drawn(n).Void? &&
      Panes(Drawn(n), r) == Panes(Drawn(n.first), FirstPart(n, r)) + Panes(Drawn(n.second), SecondPart(n, r)) &&
      Seams(Drawn(n), r) ==
        Seams(Drawn(n.first), FirstPart(n, r)) + Seams(Drawn(n.second), SecondPart(n, r)) + [OwnSeam(n, r)]
  {
    if n.Split? {
      SplitParts(n, r, Split(n.horizontal, n.ratio, Drawn(n.first), Drawn(n.second)));
      hide FirstPart, SecondPart, OwnSeam;
      assert !Drawn(n.first).Void? && !Drawn(n.second).Void? ==>
        Drawn(n) == Split(n.horizontal, n.ratio, Drawn(n.first), Drawn(n.second));
    }
  }

  predicate Positive(r: Rect)
  {
    r.w > 0.0 && r.h > 0.0
  }

  /** Half open: the left and top edges belong to the rectangle. */
  predicate Holds(r: Rect, px: real, py: real)
  {
    r.x <= px < r.x + r.w && r.y <= py < r.y + r.h
  }

  predicate Within(inner: Rect, outer: Rect)
  {
    outer.x <= inner.x && inner.x + inner.w <= outer.x + outer.w &&
    outer.y <= inner.y && inner.y + inner.h <= outer.y + outer.h
  }

  /** How many panes hold the point. */
  function Hits(ps: seq<Pane>, px: real, py: real): nat
  {
    if ps == [] then 0
    else (if Holds(ps[0].rect, px, py) then 1 else 0) + Hits(ps[1..], px, py)
  }

  function Extent(r: Rect): real
  {
    r.w * r.h
  }

  function Area(ps: seq<Pane>): real
  {
    if ps == [] then 0.0 else Extent(ps[0].rect) + Area(ps[1..])
  }

  function SessionsOf(ps: seq<Pane>): seq<nat>
  {
    seq(|ps|, i requires 0 <= i < |ps| => ps[i].session)
  }

  lemma {:induction false} HitsAppend(a: seq<Pane>, b: seq<Pane>, px: real, py: real)
    ensures Hits(a + b, px, py) == Hits(a, px, py) + Hits(b, px, py)
  {
    if a == [] {
      assert a + b == b;
    } else {
      HitsAppend(a[1..], b, px, py);
      assert (a + b)[1..] == a[1..] + b;
    }
  }

  lemma {:induction false} AreaAppend(a: seq<Pane>, b: seq<Pane>)
    ensures Area(a + b) == Area(a) + Area(b)
  {
    if a == [] {
      assert a + b == b;
    } else {
      AreaAppend(a[1..], b);
      assert (a + b)[1..] == a[1..] + b;
    }
  }

  lemma CutInside(n: Node, r: Rect)
    requires n.Split? && Positive(r)
    ensures 0.0 < Cut(n, r)
    ensures n.horizontal ==> Cut(n, r) < r.w
    ensures !n.horizontal ==> Cut(n, r) < r.h
  {
    hide Part, Usable;
  }

  /** A split divides its rectangle into two positive parts that meet only at
      the seam, and every point falls in exactly one of them. */
  lemma Halves(n: Node, r: Rect)
    requires n.Split? && Positive(r)
    ensures Positive(FirstPart(n, r)) && Positive(SecondPart(n, r))
    ensures Within(FirstPart(n, r), r) && Within(SecondPart(n, r), r)
    ensures forall px, py :: Holds(r, px, py) <==> (Holds(FirstPart(n, r), px, py) || Holds(SecondPart(n, r), px, py))
    ensures forall px, py :: !(Holds(FirstPart(n, r), px, py) && Holds(SecondPart(n, r), px, py))
  {
    CutInside(n, r);
    hide Cut;
  }

  lemma HalvesArea(n: Node, r: Rect)
    requires n.Split?
    ensures Extent(FirstPart(n, r)) + Extent(SecondPart(n, r)) == Extent(r)
  {
    var c := Cut(n, r);
    if n.horizontal {
      assert c * r.h + (r.w - c) * r.h == r.w * r.h;
    } else {
      assert r.w * c + r.w * (r.h - c) == r.w * r.h;
    }
  }

  /** Every point of the rectangle lies in exactly one pane, and no pane reaches
      outside it. */
  lemma {:induction false} PanesTile(n: Node, r: Rect, px: real, py: real)
    requires Solid(n) && !n.Void? && Positive(r)
    ensures Hits(Panes(n, r), px, py) == if Holds(r, px, py) then 1 else 0
  {
    match n
    case Leaf(_) =>
    case Split(_, _, a, b) =>
      Halves(n, r);
      hide Holds, Positive, FirstPart, SecondPart;
      PanesTile(a, FirstPart(n, r), px, py);
      PanesTile(b, SecondPart(n, r), px, py);
      HitsAppend(Panes(a, FirstPart(n, r)), Panes(b, SecondPart(n, r)), px, py);
  }

  /** The panes are as many as the sessions, in that order. */
  lemma {:induction false} PanesInOrder(n: Node, r: Rect)
    ensures SessionsOf(Panes(n, r)) == Sessions(n)
  {
    if n.Split? {
      PanesInOrder(n.first, FirstPart(n, r));
      PanesInOrder(n.second, SecondPart(n, r));
    }
  }

  /** Each pane has a positive size inside the rectangle. */
  lemma {:induction false} PanesInside(n: Node, r: Rect)
    requires Positive(r)
    ensures forall p :: p in Panes(n, r) ==> Positive(p.rect) && Within(p.rect, r)
  {
    if n.Split? {
      var fst, snd := FirstPart(n, r), SecondPart(n, r);
      Halves(n, r);
      hide FirstPart, SecondPart, Holds;
      PanesInside(n.first, fst);
      PanesInside(n.second, snd);
    }
  }

  /** Together the panes have the rectangle's whole area. */
  lemma {:induction false} PanesFill(n: Node, r: Rect)
    requires Solid(n) && !n.Void?
    ensures Area(Panes(n, r)) == Extent(r)
  {
    hide Extent;
    match n
    case Leaf(_) =>
      assert Panes(n, r)[1..] == [];
    case Split(_, _, a, b) =>
      var fst, snd := FirstPart(n, r), SecondPart(n, r);
      HalvesArea(n, r);
      hide FirstPart, SecondPart;
      PanesFill(a, fst);
      PanesFill(b, snd);
      AreaAppend(Panes(a, fst), Panes(b, snd));
  }

  /** The first side gets the recorded ratio of a split's length if that lies
      between 0 and 1, else one half. */
  function FirstLength(n: Node, r: Rect): real
    requires n.Split?
  {
    (if 0.0 < n.ratio < 1.0 then n.ratio else 0.5) * if n.horizontal then r.w else r.h
  }

  lemma CutIsShare(n: Node, r: Rect)
    requires n.Split?
    ensures Cut(n, r) == FirstLength(n, r)
  {
  }

  /** A split draws its first side from the left, or from the top, as long as its
      share goes, its second side in the rest, and its seam between them. */
  lemma SplitShares(n: Node, r: Rect)
    requires n.Split?
    ensures n.horizontal ==> var c := FirstLength(n, r);
      Panes(n, r) == Panes(n.first, Rect(r.x, r.y, c, r.h)) + Panes(n.second, Rect(r.x + c, r.y, r.w - c, r.h))
    ensures !n.horizontal ==> var c := FirstLength(n, r);
      Panes(n, r) == Panes(n.first, Rect(r.x, r.y, r.w, c)) + Panes(n.second, Rect(r.x, r.y + c, r.w, r.h - c))
    ensures Seams(n, r) != [] && Seams(n, r)[|Seams(n, r)| - 1].vertical == n.horizontal
    ensures n.horizontal ==> Seams(n, r)[|Seams(n, r)| - 1].rect == Rect(r.x + FirstLength(n, r), r.y, 0.0, r.h)
    ensures !n.horizontal ==> Seams(n, r)[|Seams(n, r)| - 1].rect == Rect(r.x, r.y + FirstLength(n, r), r.w, 0.0)
  {
    CutIsShare(n, r);
    hide Cut, FirstLength;
  }

  /** So every pane of the first side ends where that share ends or before, and
      every pane of the second starts there or behind; the first side's come first. */
  lemma PanesDivided(n: Node, r: Rect, i: nat)
    requires n.Split? && Positive(r) && i < |Panes(n, r)|
    ensures |Panes(n, r)| == |Sessions(n.first)| + |Sessions(n.second)|
    ensures n.horizontal && i < |Sessions(n.first)| ==> Panes(n, r)[i].rect.x + Panes(n, r)[i].rect.w <= r.x + FirstLength(n, r)
    ensures n.horizontal && i >= |Sessions(n.first)| ==> Panes(n, r)[i].rect.x >= r.x + FirstLength(n, r)
    ensures !n.horizontal && i < |Sessions(n.first)| ==> Panes(n, r)[i].rect.y + Panes(n, r)[i].rect.h <= r.y + FirstLength(n, r)
    ensures !n.horizontal && i >= |Sessions(n.first)| ==> Panes(n, r)[i].rect.y >= r.y + FirstLength(n, r)
  {
    CutIsShare(n, r);
    var fst, snd := FirstPart(n, r), SecondPart(n, r);
    Halves(n, r);
    PanesInOrder(n.first, fst);
    PanesInOrder(n.second, snd);
    PanesInside(n.first, fst);
    PanesInside(n.second, snd);
    hide Cut, FirstLength, Positive, Holds;
    var k := |Sessions(n.first)|;
    assert |SessionsOf(Panes(n.first, fst))| == k;
    if i < k {
      assert Panes(n, r)[i] in Panes(n.first, fst);
    } else {
      assert Panes(n, r)[i] == Panes(n.second, snd)[i - k];
    }
  }

  /** One seam fewer than panes. */
  lemma {:induction false} SeamsJoinPanes(n: Node, r: Rect)
    requires Solid(n) && !n.Void?
    ensures |Seams(n, r)| + 1 == |Panes(n, r)|
  {
    if n.Split? {
      SeamsJoinPanes(n.first, FirstPart(n, r));
      SeamsJoinPanes(n.second, SecondPart(n, r));
    }
  }

  lemma {:induction false} SeamsInside(n: Node, r: Rect)
    requires Positive(r)
    ensures forall s :: s in Seams(n, r) ==> Within(s.rect, r)
  {
    if n.Split? {
      Halves(n, r);
      CutInside(n, r);
      hide Cut;
      SeamsInside(n.first, FirstPart(n, r));
      SeamsInside(n.second, SecondPart(n, r));
    }
  }

  /** The seam touches no point strictly inside the pane. */
  predicate Clear(s: Rect, p: Rect)
  {
    s.x + s.w <= p.x || p.x + p.w <= s.x || s.y + s.h <= p.y || p.y + p.h <= s.y
  }

  /** No seam is drawn across a pane. */
  lemma {:induction false} SeamsAvoidPanes(n: Node, r: Rect, s: Seam, p: Pane)
    requires Positive(r)
    requires s in Seams(n, r) && p in Panes(n, r)
    ensures Clear(s.rect, p.rect)
  {
    match n
    case Leaf(_) =>
    case Split(_, _, a, b) =>
      var fst, snd := FirstPart(n, r), SecondPart(n, r);
      Halves(n, r);
      CutInside(n, r);
      hide Cut;
      PanesInside(a, fst);
      PanesInside(b, snd);
      SeamsInside(a, fst);
      SeamsInside(b, snd);
      if s in Seams(a, fst) && p in Panes(a, fst) {
        SeamsAvoidPanes(a, fst, s, p);
      } else if s in Seams(b, snd) && p in Panes(b, snd) {
        SeamsAvoidPanes(b, snd, s, p);
      }
  }

  // --- grids ---

  /** A pane's share of the tab's character grid: rounded to nearest, at least 1. */
  function Cells(total: real, part: real): (n: nat)
    requires total >= 0.0 && part >= 0.0
    ensures n >= 1
    ensures if total * part >= 0.5 then -0.5 <= total * part - n as real < 0.5 else n == 1
  {
    assert total * part >= 0.0;
    var cells := (total * part + 0.5).Floor;
    if cells < 1 then 1 else cells
  }

  /** The grid recorded for a pane is the grid given back to it. */
  lemma CellsExact(recorded: nat, part: real)
    requires recorded > 0 && part > 0.0
    ensures recorded as real / part >= 0.0
    ensures Cells(recorded as real / part, part) == recorded
  {
    assert recorded as real / part * part == recorded as real;
  }

  /** More of the tab never means fewer cells. */
  lemma CellsGrow(total: real, part: real, wider: real)
    requires total >= 0.0 && 0.0 <= part <= wider
    ensures Cells(total, part) <= Cells(total, wider)
  {
    var extra := wider - part;
    assert total * extra >= 0.0;
    assert total * wider == total * part + total * extra;
    assert (total * part + 0.5).Floor <= (total * wider + 0.5).Floor;
  }

  /** The pane after it was given its grid. */
  predicate Gridded(before: Pane, after: Pane, totalCols: real, totalRows: real)
  {
    Positive(before.rect) && totalCols >= 0.0 && totalRows >= 0.0 &&
    after == before.(cols := Cells(totalCols, before.rect.w), rows := Cells(totalRows, before.rect.h))
  }

  datatype Blob =
    | Unreadable
    | Blob(tree: Node, focused: nat, cols: nat, rows: nat)

  const UNIT := Rect(0.0, 0.0, 1.0, 1.0)

  /** The first pane of the session, or the number of panes. */
  function FirstOf(ps: seq<Pane>, session: nat): (k: nat)
    ensures k <= |ps|
    ensures k < |ps| ==> ps[k].session == session
    ensures forall i :: 0 <= i < k ==> ps[i].session != session
  {
    if ps == [] then 0
    else if ps[0].session == session then 0
    else 1 + FirstOf(ps[1..], session)
  }

  /** The two growing arrays of one drawing. A caller that wants no seams passes
      no array for them. */
  class Canvas {
    const wantsSeams: bool
    var leaves: seq<Pane>
    var seams: seq<Seam>

    constructor (wantsSeams: bool)
      ensures this.wantsSeams == wantsSeams && leaves == [] && seams == []
    {
      this.wantsSeams := wantsSeams;
      leaves, seams := [], [];
    }

    /** Append the drawing of a subtree, and say whether it drew anything. What
        both arrays held before stays in front, even when the walk truncates and
        redoes a side. */
    method WalkNode(n: Node, r: Rect) returns (emitted: bool)
      modifies this
      ensures emitted == !Drawn(n).Void?
      ensures leaves == old(leaves) + Panes(Drawn(n), r)
      ensures seams == if wantsSeams then old(seams) + Seams(Drawn(n), r) else old(seams)
      decreases n
    {
      hide FirstPart, SecondPart, OwnSeam, Drawn, Panes, Seams;
      DrawingOf(n, r);
      emitted := false;
      match n {
        case Leaf(id) =>
          if id != 0 {
            leaves := leaves + [Pane(id, r, 0, 0)];
            emitted := true;
          }
        case Void =>
        case Split(_, _, start, end) =>
          var leavesBefore, seamsBefore := |leaves|, |seams|;
          var a, b := FirstPart(n, r), SecondPart(n, r);
          DrawingOf(start, a);
          DrawingOf(end, b);
          var gotStart := WalkNode(start, a);
          var gotEnd := WalkNode(end, b);
          TakesBack(old(leaves), Panes(Drawn(start), a), Panes(Drawn(end), b));
          TakesBack(old(seams), Seams(Drawn(start), a), Seams(Drawn(end), b));
          Regroup(old(leaves), Panes(Drawn(start), a), Panes(Drawn(end), b));
          if gotStart != gotEnd {
            leaves := leaves[..leavesBefore];
            if wantsSeams {
              seams := seams[..seamsBefore];
            }
            emitted := WalkNode(if gotStart then start else end, r);
          } else if gotStart && gotEnd {
            if wantsSeams {
              seams := seams + [OwnSeam(n, r)];
              assert seams == old(seams) + Seams(Drawn(n), r);
            }
            emitted := true;
          }
      }
    }

    /** Give every pane the character grid its share of the tab implies. The one
        recorded grid is that of the focused session. */
    method AssignGrids(focused: nat, fcols: nat, frows: nat) returns (ghost totalCols: real, ghost totalRows: real)
      requires forall p :: p in leaves ==> Positive(p.rect)
      requires fcols > 0 && frows > 0
      modifies `leaves
      ensures Totals(old(leaves), focused, fcols, frows, totalCols, totalRows) && |leaves| == |old(leaves)|
      ensures forall i :: 0 <= i < |leaves| ==> Gridded(old(leaves)[i], leaves[i], totalCols, totalRows)
      ensures var k := FirstOf(old(leaves), focused); k < |leaves| ==> leaves[k].cols == fcols && leaves[k].rows == frows
    {
      hide Cells, Totals;
      totalCols, totalRows := ShareOut(focused, fcols, frows);
      FocusedKeeps(old(leaves), focused, fcols, frows, totalCols, totalRows);
    }

    method ShareOut(focused: nat, fcols: nat, frows: nat) returns (ghost totalCols: real, ghost totalRows: real)
      requires forall p :: p in leaves ==> Positive(p.rect)
      requires fcols > 0 && frows > 0
      modifies `leaves
      ensures Totals(old(leaves), focused, fcols, frows, totalCols, totalRows) && |leaves| == |old(leaves)|
      ensures forall i :: 0 <= i < |leaves| ==> Gridded(old(leaves)[i], leaves[i], totalCols, totalRows)
    {
      hide Cells, Totals, Positive;
      var tc, tr := TotalGrid(focused, fcols, frows);
      TotalsPositive(leaves, focused, fcols, frows, tc, tr);
      totalCols, totalRows := tc, tr;
      var j := 0;
      while j < |leaves|
        invariant 0 <= j <= |leaves| == |old(leaves)|
        invariant forall m :: j <= m < |leaves| ==> leaves[m] == old(leaves)[m]
        invariant forall m :: 0 <= m < |leaves| ==> Positive(old(leaves)[m].rect)
        invariant forall m :: 0 <= m < j ==> Gridded(old(leaves)[m], leaves[m], tc, tr)
      {
        PositiveSides(leaves[j].rect);
        var leaf := leaves[j];
        leaves := leaves[j := leaf.(cols := Cells(tc, leaf.rect.w), rows := Cells(tr, leaf.rect.h))];
        j := j + 1;
      }
    }

    /** The tab's whole grid, from that of the focused pane. */
    method TotalGrid(focused: nat, fcols: nat, frows: nat) returns (tc: real, tr: real)
      requires forall p :: p in leaves ==> Positive(p.rect)
      requires fcols > 0 && frows > 0
      ensures Totals(leaves, focused, fcols, frows, tc, tr)
    {
      tc, tr := 0.0, 0.0;
      var i := 0;
      while i < |leaves|
        invariant 0 <= i <= |leaves|
        invariant forall j :: 0 <= j < i ==> leaves[j].session != focused
        invariant tc == 0.0 && tr == 0.0
      {
        assert leaves[i] in leaves;
        if leaves[i].session == focused && leaves[i].rect.w > 0.0 && leaves[i].rect.h > 0.0 {
          tc := fcols as real / leaves[i].rect.w;
          tr := frows as real / leaves[i].rect.h;
          break;
        }
        i := i + 1;
      }
      assert FirstOf(leaves, focused) == i;
      if tc <= 0.0 || tr <= 0.0 {
        assert i == |leaves|;
        tc := fcols as real;
        tr := frows as real;
      }
    }
  }

  /** The focused pane's share of these totals is its recorded grid; where there is
      no focused pane the totals are that grid. */
  ghost predicate Totals(ps: seq<Pane>, focused: nat, fcols: nat, frows: nat, tc: real, tr: real)
  {
    var k := FirstOf(ps, focused);
    if k < |ps| then
      ps[k].rect.w > 0.0 && ps[k].rect.h > 0.0 && tc == fcols as real / ps[k].rect.w && tr == frows as real / ps[k].rect.h
    else tc == fcols as real && tr == frows as real
  }

  lemma TotalsPositive(ps: seq<Pane>, focused: nat, fcols: nat, frows: nat, tc: real, tr: real)
    requires Totals(ps, focused, fcols, frows, tc, tr) && fcols > 0 && frows > 0
    ensures tc > 0.0 && tr > 0.0
  {
  }

  lemma PositiveSides(r: Rect)
    requires Positive(r)
    ensures r.w > 0.0 && r.h > 0.0
  {
  }

  lemma FocusedKeeps(ps: seq<Pane>, focused: nat, fcols: nat, frows: nat, tc: real, tr: real)
    requires Totals(ps, focused, fcols, frows, tc, tr) && fcols > 0 && frows > 0
    ensures var k := FirstOf(ps, focused);
      k < |ps| ==> tc >= 0.0 && tr >= 0.0 && Cells(tc, ps[k].rect.w) == fcols && Cells(tr, ps[k].rect.h) == frows
  {
    var k := FirstOf(ps, focused);
    if k < |ps| {
      CellsExact(fcols, ps[k].rect.w);
      CellsExact(frows, ps[k].rect.h);
    }
  }

  /** The panes are those of the blob's tree laid out over the unit square, in
      order; when the blob records a grid each has one, the focused pane that one. */
  ghost predicate DrawnFrom(leaves: seq<Pane>, blob: Blob)
  {
    match blob
    case Unreadable => leaves == []
    case Blob(tree, focused, cols, rows) =>
      var ps := Panes(Drawn(tree), UNIT);
      |leaves| == |ps| && (forall i :: 0 <= i < |ps| ==> leaves[i].(cols := 0, rows := 0) == ps[i]) &&
      if cols == 0 || rows == 0 then leaves == ps
      else
        var k := FirstOf(leaves, focused);
        (forall i :: 0 <= i < |leaves| ==> leaves[i].cols >= 1 && leaves[i].rows >= 1) &&
        (k < |leaves| ==> leaves[k].cols == cols && leaves[k].rows == rows)
  }

  /** The sessions a stored tab draws, in order. */
  function DrawnIds(blob: Blob): seq<nat>
  {
    if blob.Unreadable? then [] else Sessions(Drawn(blob.tree))
  }

  lemma DrawnInOrder(leaves: seq<Pane>, blob: Blob)
    requires DrawnFrom(leaves, blob)
    ensures SessionsOf(leaves) == DrawnIds(blob)
  {
    if blob.Blob? {
      var ps := Panes(Drawn(blob.tree), UNIT);
      PanesInOrder(Drawn(blob.tree), UNIT);
      forall i | 0 <= i < |leaves| ensures leaves[i].session == SessionsOf(ps)[i] {
        assert leaves[i].(cols := 0, rows := 0) == ps[i];
      }
    }
  }

  /** The drawing of a stored tab whose tree is a split: everything of its first
      side is drawn to the left of the seam, or above it, the rest behind. */
  lemma DrawingDivided(leaves: seq<Pane>, blob: Blob, i: nat)
    requires DrawnFrom(leaves, blob) && blob.Blob? && Drawn(blob.tree).Split? && i < |leaves|
    ensures var n, c, p := Drawn(blob.tree), FirstLength(Drawn(blob.tree), UNIT), leaves[i].rect;
      (if 0.0 < n.ratio < 1.0 then c == n.ratio else c == 0.5)
      && if i < |Sessions(n.first)| then (if n.horizontal then p.x + p.w else p.y + p.h) <= c else (if n.horizontal then p.x else p.y) >= c
  {
    var n := Drawn(blob.tree);
    var ps := Panes(n, UNIT);
    hide Panes, Drawn;
    assert leaves[i].(cols := 0, rows := 0) == ps[i];
    PanesDivided(n, UNIT, i);
  }

  /** The drawing of a stored tab: the layout of its tree over the unit square,
      with a grid for every pane when the blob records one. */
  method BlobGeometry(blob: Blob, wantsSeams: bool) returns (ok: bool, leaves: seq<Pane>, seams: seq<Seam>)
    ensures ok == blob.Blob?
    ensures seams == if ok && wantsSeams then Seams(Drawn(blob.tree), UNIT) else []
    ensures DrawnFrom(leaves, blob)
  {
    hide Panes, Seams, Prune, Drawn, Cells, FirstOf;
    if blob.Unreadable? {
      return false, [], [];
    }
    var canvas := new Canvas(wantsSeams);
    var drawn := canvas.WalkNode(blob.tree, UNIT);
    ghost var ps := Panes(Drawn(blob.tree), UNIT);
    assert canvas.leaves == ps;
    BlankPanes(Drawn(blob.tree), UNIT);
    if blob.cols > 0 && blob.rows > 0 {
      PanesInside(Drawn(blob.tree), UNIT);
      ghost var tc, tr := canvas.AssignGrids(blob.focused, blob.cols, blob.rows);
      SameFirst(canvas.leaves, ps, blob.focused);
    }
    return true, canvas.leaves, canvas.seams;
  }

  lemma {:induction false} BlankPanes(n: Node, r: Rect)
    ensures forall i :: 0 <= i < |Panes(n, r)| ==> Panes(n, r)[i].cols == 0 && Panes(n, r)[i].rows == 0
  {
    if n.Split? {
      BlankPanes(n.first, FirstPart(n, r));
      BlankPanes(n.second, SecondPart(n, r));
    }
  }

  lemma {:induction false} SameFirst(a: seq<Pane>, b: seq<Pane>, session: nat)
    requires |a| == |b|
    requires forall i :: 0 <= i < |a| ==> a[i].session == b[i].session
    ensures FirstOf(a, session) == FirstOf(b, session)
  {
    if a != [] && a[0].session != session {
      SameFirst(a[1..], b[1..], session);
    }
  }

  /** The whole claim about a drawing that shows anything: the panes tile the
      unit square, in the tree's own order, one seam fewer than panes, and no
      seam runs across a pane. */
  lemma DrawingTiles(n: Node, px: real, py: real)
    requires !Drawn(n).Void?
    ensures Hits(Panes(Drawn(n), UNIT), px, py) == if Holds(UNIT, px, py) then 1 else 0
    ensures Area(Panes(Drawn(n), UNIT)) == 1.0
    ensures SessionsOf(Panes(Drawn(n), UNIT)) == Filter(Sessions(n), (id: nat) => id != 0)
    ensures |Seams(Drawn(n), UNIT)| + 1 == |Panes(Drawn(n), UNIT)|
    ensures forall s, p :: s in Seams(Drawn(n), UNIT) && p in Panes(Drawn(n), UNIT) ==> Clear(s.rect, p.rect)
  {
    var shown, r := Drawn(n), UNIT;
    PruneFilters(n, (id: nat) => id != 0);
    PanesTile(shown, r, px, py);
    PanesFill(shown, r);
    PanesInOrder(shown, r);
    SeamsJoinPanes(shown, r);
    forall s, p | s in Seams(shown, r) && p in Panes(shown, r)
      ensures Clear(s.rect, p.rect)
    {
      SeamsAvoidPanes(shown, r, s, p);
    }
  }

  // --- ratios ---

  /** A live split widget: its length along the split, the divider's position in
      pixels, and the ratio a restore asked for. */
  datatype Widget =
    | Terminal(session: nat)
    | Paned(horizontal: bool, dim: nat, position: nat, wanted: real, start: Widget, end: Widget)

  function SavedRatio(position: nat, dim: nat): (r: real)
    ensures dim > 0 && position <= dim ==> 0.0 <= r <= 1.0
  {
    if dim > 0 then position as real / dim as real else 0.5
  }

  function AppliedPosition(ratio: real, dim: nat): nat
    requires ratio >= 0.0
  {
    assert ratio * dim as real >= 0.0;
    (ratio * dim as real + 0.5).Floor
  }

  function NodeToVariant(w: Widget): Node
  {
    match w
    case Terminal(id) => Leaf(id)
    case Paned(o, dim, pos, _, a, b) => Split(o, SavedRatio(pos, dim), NodeToVariant(a), NodeToVariant(b))
  }

  /** Every recorded ratio lies between 0 and 1. */
  predicate Sane(w: Widget)
  {
    w.Paned? ==> 0.0 <= w.wanted <= 1.0 && Sane(w.start) && Sane(w.end)
  }

  function ApplyRatios(w: Widget): Widget
    requires Sane(w)
  {
    match w
    case Terminal(_) => w
    case Paned(_, dim, _, wanted, a, b) =>
      var placed := if dim > 0 then w.(position := AppliedPosition(wanted, dim)) else w;
      placed.(start := ApplyRatios(a), end := ApplyRatios(b))
  }

  /** The saved ratios become the wanted ones of the rebuilt widgets. */
  function Rebuilt(w: Widget, n: Node): Widget
  {
    if w.Paned? && n.Split? then w.(wanted := n.ratio, start := Rebuilt(w.start, n.first), end := Rebuilt(w.end, n.second))
    else w
  }

  /** Save then restore at the same size. */
  lemma PositionSurvives(position: nat, dim: nat)
    requires 0 < dim && position <= dim
    ensures AppliedPosition(SavedRatio(position, dim), dim) == position && SavedRatio(position, dim) * dim as real == position as real
  {
    assert position as real / dim as real * dim as real == position as real;
  }

  /** Restore then save moves a ratio by at most half a pixel. */
  lemma RatioDrift(ratio: real, dim: nat)
    requires 0 < dim && 0.0 <= ratio <= 1.0
    ensures AppliedPosition(ratio, dim) <= dim && -0.5 <= AppliedPosition(ratio, dim) as real - ratio * dim as real <= 0.5
    ensures -1.0 / (2.0 * dim as real) <= SavedRatio(AppliedPosition(ratio, dim), dim) - ratio <= 1.0 / (2.0 * dim as real)
  {
    var d := dim as real;
    var p := AppliedPosition(ratio, dim);
    assert ratio * d <= d by {
      assert (1.0 - ratio) * d >= 0.0;
    }
    assert -0.5 <= p as real - ratio * d <= 0.5;
    var drift := p as real / d - ratio;
    assert drift * d == p as real - ratio * d;
    Half(drift, d);
  }

  lemma Half(drift: real, d: real)
    requires d > 0.0 && -0.5 <= drift * d <= 0.5
    ensures -1.0 / (2.0 * d) <= drift <= 1.0 / (2.0 * d)
  {
    var bound := 1.0 / (2.0 * d);
    assert bound * d == 0.5;
    var above, below := bound - drift, drift + bound;
    assert above * d >= 0.0 && below * d >= 0.0;
    assert above >= 0.0 && below >= 0.0;
  }

  /** The drift of every split of a tree: shape, sessions and orientation are the
      same, and each ratio moves by at most half a pixel of that split. */
  predicate Near(w: Widget, n: Node)
  {
    match w
    case Terminal(id) => n == Leaf(id)
    case Paned(o, dim, _, wanted, a, b) =>
      n.Split? && n.horizontal == o && Near(a, n.first) && Near(b, n.second) &&
      (dim > 0 ==> -1.0 / (2.0 * dim as real) <= n.ratio - wanted <= 1.0 / (2.0 * dim as real))
  }

  predicate Sized(w: Widget)
  {
    w.Paned? ==> w.dim > 0 && Sized(w.start) && Sized(w.end)
  }

  /** At a fixed size, one save after a restore stays within half a pixel of the
      recorded tree, and every later restore puts each divider exactly where it
      already is. */
  lemma {:induction false} RatiosDoNotDrift(w: Widget)
    requires Sane(w) && Sized(w)
    ensures Near(w, NodeToVariant(ApplyRatios(w)))
    ensures var once := ApplyRatios(w);
            var again := Rebuilt(once, NodeToVariant(once));
            Sane(again) && NodeToVariant(ApplyRatios(again)) == NodeToVariant(once)
  {
    match w
    case Terminal(_) =>
    case Paned(_, dim, _, wanted, a, b) =>
      RatiosDoNotDrift(a);
      RatiosDoNotDrift(b);
      RatioDrift(wanted, dim);
      PositionSurvives(AppliedPosition(wanted, dim), dim);
  }
}
