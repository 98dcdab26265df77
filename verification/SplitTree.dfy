/** A tab's panes: a mutable binary tree of widgets with parent links and
    visible flags, and the pointer surgery that splits, closes, moves and zooms
    panes. Each page carries the shape of its tree as a ghost value; every
    operation is proved to do to the pointers what a function does to the shape. */
module SplitTree {

  /** Where a widget is held. A divider (paned) holds two widgets, a page one. */
  datatype Holder = Loose | InPage(page: Page) | InPaned(paned: Widget)

  ghost function Held(w: Widget?): set<Widget>
  {
    if w == null then {} else {w}
  }

  class Widget {
    const isPaned: bool
    /** Of a divider: whether its two sides lie side by side. */
    const horizontal: bool
    const session: nat
    var parent: Holder
    var start: Widget?
    var end: Widget?
    var visible: bool

    constructor (isPaned: bool, horizontal: bool, session: nat)
      ensures this.isPaned == isPaned && this.horizontal == horizontal && this.session == session
      ensures parent == Loose && start == null && end == null && visible
    {
      this.isPaned, this.horizontal, this.session := isPaned, horizontal, session;
      parent, start, end, visible := Loose, null, null, true;
    }

    method Conceal(ghost ws: set<Widget>, ghost hidden: set<Widget>)
      requires ShownBut(ws, hidden)
      modifies `visible
      ensures ShownBut(ws, hidden + {this})
    {
      visible := false;
    }

    /** The child held before is let go. The toolkit refuses a child that is
        still held elsewhere. */
    method SetStart(child: Widget?)
      requires isPaned && child != this
      requires child != null ==> child.parent == Loose
      requires start != this && start != child
      modifies this`start, (Held(start) + Held(child))`parent
      ensures start == child
      ensures old(start) != null ==> old(start).parent == Loose
      ensures child != null ==> child.parent == InPaned(this)
    {
      if start != null {
        start.parent := Loose;
      }
      start := child;
      if child != null {
        child.parent := InPaned(this);
      }
    }

    method SetEnd(child: Widget?)
      requires isPaned && child != this
      requires child != null ==> child.parent == Loose
      requires end != this && end != child
      modifies this`end, (Held(end) + Held(child))`parent
      ensures end == child
      ensures old(end) != null ==> old(end).parent == Loose
      ensures child != null ==> child.parent == InPaned(this)
    {
      if end != null {
        end.parent := Loose;
      }
      end := child;
      if child != null {
        child.parent := InPaned(this);
      }
    }
  }

  // --- shapes ---

  datatype Tree = Tip(leaf: Widget) | Fork(paned: Widget, first: Tree, second: Tree)

  ghost function Top(t: Tree): Widget
  {
    if t.Tip? then t.leaf else t.paned
  }

  ghost function Nodes(t: Tree): (ws: set<Widget>)
    ensures Top(t) in ws
  {
    match t
    case Tip(w) => {w}
    case Fork(p, a, b) => {p} + Nodes(a) + Nodes(b)
  }

  /** The panes, left to right. */
  ghost function Tips(t: Tree): (ws: seq<Widget>)
    ensures ws != []
  {
    match t
    case Tip(w) => [w]
    case Fork(_, a, b) => Tips(a) + Tips(b)
  }

  ghost predicate Distinct(t: Tree)
  {
    t.Fork? ==>
      t.paned !in Nodes(t.first) && t.paned !in Nodes(t.second) && Nodes(t.first) !! Nodes(t.second) &&
      Distinct(t.first) && Distinct(t.second)
  }

  /** The pointers below the top of the tree are those of the shape; ws is any
      set that has all its widgets. */
  ghost predicate Linked(t: Tree, ws: set<Widget>)
    requires Nodes(t) <= ws
    reads ws`start, ws`end, ws`parent
  {
    match t
    case Tip(w) => !w.isPaned && w.start == null && w.end == null
    case Fork(p, a, b) =>
      p.isPaned && p.start == Top(a) && p.end == Top(b) &&
      Top(a).parent == InPaned(p) && Top(b).parent == InPaned(p) &&
      Linked(a, ws) && Linked(b, ws)
  }

  ghost function Sub(t: Tree, w: Widget): (s: Tree)
    requires w in Nodes(t)
    ensures Top(s) == w && Nodes(s) <= Nodes(t)
  {
    if w == Top(t) then t
    else if w in Nodes(t.first) then Sub(t.first, w)
    else Sub(t.second, w)
  }

  /** The tree with the part below w replaced. */
  ghost function Replace(t: Tree, w: Widget, s: Tree): Tree
  {
    if w == Top(t) then s
    else match t
      case Tip(_) => t
      case Fork(p, a, b) => Fork(p, Replace(a, w, s), Replace(b, w, s))
  }

  /** A split of the pane: a new divider in its place, the pane first in it. */
  ghost function Grafted(t: Tree, leaf: Widget, paned: Widget, added: Widget): Tree
  {
    Replace(t, leaf, Fork(paned, Tip(leaf), Tip(added)))
  }

  /** A close of the pane: its divider disappears and the sibling takes over. */
  ghost function Healed(t: Tree, leaf: Widget): Tree
  {
    match t
    case Tip(_) => t
    case Fork(p, a, b) =>
      if a == Tip(leaf) then b
      else if b == Tip(leaf) then a
      else Fork(p, Healed(a, leaf), Healed(b, leaf))
  }

  ghost function InsertedAfter(s: seq<Widget>, x: Widget, y: Widget): seq<Widget>
  {
    if s == [] then []
    else if s[0] == x then [x, y] + s[1..]
    else [s[0]] + InsertedAfter(s[1..], x, y)
  }

  ghost function Without(s: seq<Widget>, x: Widget): seq<Widget>
  {
    if s == [] then []
    else if s[0] == x then Without(s[1..], x)
    else [s[0]] + Without(s[1..], x)
  }

  /** By place: y comes right behind the first x, and the rest stays in order. */
  lemma {:induction false} InsertedAt(s: seq<Widget>, i: nat, y: Widget)
    requires i < |s| && s[i] !in s[..i]
    ensures InsertedAfter(s, s[i], y) == s[..i + 1] + [y] + s[i + 1..]
  {
    if i > 0 {
      assert s[i] == s[1..][i - 1] && s[1..][..i - 1] == s[..i][1..];
      InsertedAt(s[1..], i - 1, y);
      assert s[..i + 1] == [s[0]] + s[1..][..i];
    }
  }

  /** By place: where nothing stands twice, x alone goes. */
  lemma {:induction false} WithoutAt(s: seq<Widget>, i: nat)
    requires i < |s| && s[i] !in s[..i] && s[i] !in s[i + 1..]
    ensures Without(s, s[i]) == s[..i] + s[i + 1..]
  {
    if i > 0 {
      assert s[i] == s[1..][i - 1] && s[1..][..i - 1] == s[..i][1..] && s[0] in s[..i];
      WithoutAt(s[1..], i - 1);
    } else {
      WithoutAppend(s[1..], [], s[0]);
    }
  }

  lemma {:induction false} InsertedAfterAppend(s: seq<Widget>, r: seq<Widget>, x: Widget, y: Widget)
    ensures x in s ==> InsertedAfter(s + r, x, y) == InsertedAfter(s, x, y) + r
    ensures x !in s ==> InsertedAfter(s + r, x, y) == s + InsertedAfter(r, x, y)
  {
    if s == [] {
      assert s + r == r;
    } else {
      assert (s + r)[1..] == s[1..] + r;
      InsertedAfterAppend(s[1..], r, x, y);
      if s[0] == x {
        assert [x, y] + (s[1..] + r) == [x, y] + s[1..] + r;
      } else {
        assert s == [s[0]] + s[1..];
      }
    }
  }

  lemma {:induction false} WithoutAppend(s: seq<Widget>, r: seq<Widget>, x: Widget)
    ensures Without(s + r, x) == Without(s, x) + Without(r, x)
    ensures x !in s ==> Without(s, x) == s
  {
    if s == [] {
      assert s + r == r;
    } else {
      assert (s + r)[1..] == s[1..] + r;
      WithoutAppend(s[1..], r, x);
    }
  }

  lemma {:induction false} TipsAreNodes(t: Tree)
    ensures forall w :: w in Tips(t) ==> w in Nodes(t)
  {
    if t.Fork? {
      TipsAreNodes(t.first);
      TipsAreNodes(t.second);
    }
  }

  lemma {:induction false} ReplaceAbsent(t: Tree, w: Widget, s: Tree)
    requires w !in Nodes(t)
    ensures Replace(t, w, s) == t
  {
    if t.Fork? {
      ReplaceAbsent(t.first, w, s);
      ReplaceAbsent(t.second, w, s);
    }
  }

  lemma {:induction false} HealedAbsent(t: Tree, leaf: Widget)
    requires leaf !in Nodes(t)
    ensures Healed(t, leaf) == t
  {
    if t.Fork? {
      HealedAbsent(t.first, leaf);
      HealedAbsent(t.second, leaf);
    }
  }

  /** Replacing a part keeps the rest of the nodes, and no widget twice. */
  lemma {:induction false} ReplaceNodes(t: Tree, w: Widget, s: Tree)
    requires w in Nodes(t) && Distinct(t) && Distinct(s)
    requires Nodes(s) !! (Nodes(t) - Nodes(Sub(t, w)))
    ensures Distinct(Replace(t, w, s))
    ensures Nodes(Replace(t, w, s)) == Nodes(t) - Nodes(Sub(t, w)) + Nodes(s)
  {
    if w != Top(t) {
      if w in Nodes(t.first) {
        ReplaceNodes(t.first, w, s);
        ReplaceAbsent(t.second, w, s);
      } else {
        ReplaceNodes(t.second, w, s);
        ReplaceAbsent(t.first, w, s);
      }
    }
  }

  lemma {:induction false} TipIsWhole(t: Tree, leaf: Widget)
    requires leaf in Tips(t) && Distinct(t)
    ensures leaf in Nodes(t) && Sub(t, leaf) == Tip(leaf)
  {
    TipsAreNodes(t);
    if t.Fork? {
      TipsAreNodes(t.first);
      TipsAreNodes(t.second);
      if leaf in Tips(t.first) {
        TipIsWhole(t.first, leaf);
      } else {
        TipIsWhole(t.second, leaf);
      }
    }
  }

  /** A split adds exactly one pane, right after the one that was split. */
  lemma {:induction false} GraftedTips(t: Tree, leaf: Widget, paned: Widget, added: Widget)
    requires leaf in Tips(t) && Distinct(t)
    ensures Tips(Grafted(t, leaf, paned, added)) == InsertedAfter(Tips(t), leaf, added)
  {
    var s := Fork(paned, Tip(leaf), Tip(added));
    TipIsWhole(t, leaf);
    if t.Fork? {
      TipsAreNodes(t.first);
      TipsAreNodes(t.second);
      InsertedAfterAppend(Tips(t.first), Tips(t.second), leaf, added);
      if leaf in Tips(t.first) {
        GraftedTips(t.first, leaf, paned, added);
        ReplaceAbsent(t.second, leaf, s);
      } else {
        GraftedTips(t.second, leaf, paned, added);
        TipIsWhole(t.second, leaf);
        ReplaceAbsent(t.first, leaf, s);
      }
    } else {
      assert Tips(t)[1..] == [];
    }
  }

  /** A close removes exactly that pane, and the other panes keep their order. */
  lemma {:induction false} HealedTips(t: Tree, leaf: Widget)
    requires Distinct(t) && t != Tip(leaf)
    ensures Tips(Healed(t, leaf)) == Without(Tips(t), leaf)
  {
    if t.Fork? {
      WithoutAppend(Tips(t.first), Tips(t.second), leaf);
      TipsAreNodes(t.first);
      TipsAreNodes(t.second);
      if t.first == Tip(leaf) {
        WithoutAppend(Tips(t.second), [], leaf);
        assert Without([leaf], leaf) == [];
      } else if t.second == Tip(leaf) {
        WithoutAppend(Tips(t.first), [], leaf);
        assert Without([leaf], leaf) == [];
      } else {
        HealedTips(t.first, leaf);
        HealedTips(t.second, leaf);
      }
    }
  }

  /** Closing the pane a split just made gives back the very tree it split. */
  lemma {:induction false} SplitThenClose(t: Tree, leaf: Widget, paned: Widget, added: Widget)
    requires Distinct(t) && leaf in Tips(t) && paned !in Nodes(t) && added !in Nodes(t) && leaf != added
    ensures Healed(Grafted(t, leaf, paned, added), added) == t
  {
    var s := Fork(paned, Tip(leaf), Tip(added));
    if t.Fork? {
      TipsAreNodes(t.first);
      TipsAreNodes(t.second);
      TipIsWhole(t, leaf);
      if leaf in Tips(t.first) {
        SplitThenClose(t.first, leaf, paned, added);
        ReplaceAbsent(t.second, leaf, s);
        HealedAbsent(t.second, added);
      } else {
        SplitThenClose(t.second, leaf, paned, added);
        ReplaceAbsent(t.first, leaf, s);
        HealedAbsent(t.first, added);
      }
    }
  }

  /** Below the pane's divider the heal is a replacement by the sibling. */
  lemma {:induction false} HealedReplaces(t: Tree, leaf: Widget, p: Widget, sibling: Tree)
    requires Distinct(t) && p in Nodes(t)
    requires Sub(t, p) == Fork(p, Tip(leaf), sibling) || Sub(t, p) == Fork(p, sibling, Tip(leaf))
    ensures Healed(t, leaf) == Replace(t, p, sibling)
  {
    SubInside(t, p);
    if t.Fork? && p != t.paned {
      if p in Nodes(t.first) {
        SubInside(t.first, p);
        HealedReplaces(t.first, leaf, p, sibling);
        HealedAbsent(t.second, leaf);
        ReplaceAbsent(t.second, p, sibling);
      } else {
        SubInside(t.second, p);
        HealedReplaces(t.second, leaf, p, sibling);
        HealedAbsent(t.first, leaf);
        ReplaceAbsent(t.first, p, sibling);
      }
    }
  }

  lemma {:induction false} SubInside(t: Tree, w: Widget)
    requires w in Nodes(t) && Distinct(t)
    ensures Distinct(Sub(t, w))
    ensures forall n :: n in Nodes(Sub(t, w)) ==> n in Nodes(t)
    ensures w != Top(t) ==> Top(t) !in Nodes(Sub(t, w))
  {
    if w != Top(t) {
      if w in Nodes(t.first) {
        SubInside(t.first, w);
      } else {
        SubInside(t.second, w);
      }
    }
  }

  /** What the parent link of a widget below the top tells: the divider it
      names is in the tree and holds the widget on one side. */
  ghost predicate HeldBy(t: Tree, w: Widget, q: Widget)
  {
    q in Nodes(t) && w in Nodes(t) && Sub(t, q).Fork? &&
    (Sub(t, q).first == Sub(t, w) || Sub(t, q).second == Sub(t, w))
  }

  lemma {:induction false} ParentHolds(t: Tree, w: Widget, ws: set<Widget>)
    requires Nodes(t) <= ws && Linked(t, ws) && Distinct(t) && w in Nodes(t) && w != Top(t)
    ensures w.parent.InPaned? && HeldBy(t, w, w.parent.paned)
    ensures var q := w.parent.paned;
            q.isPaned && q.start == Top(Sub(t, q).first) && q.end == Top(Sub(t, q).second) && q != w
    ensures var q := w.parent.paned;
            Distinct(Sub(t, q)) && Linked(Sub(t, q), ws) && w !in Nodes(t) - Nodes(Sub(t, q))
  {
    var side := if w in Nodes(t.first) then t.first else t.second;
    if w == Top(side) {
      assert Sub(t, t.paned) == t;
    } else {
      ParentHolds(side, w, ws);
      SubInside(side, w.parent.paned);
    }
  }

  // --- surgery ---

  /** The three links of a widget, and those of a whole set at one moment. */
  datatype Links = Links(parent: Holder, start: Widget?, end: Widget?)

  ghost function Wiring(ws: set<Widget>): map<Widget, Links>
    reads ws`parent, ws`start, ws`end
  {
    map w | w in ws :: Links(w.parent, w.start, w.end)
  }

  /** The recorded links below the top of the tree are those of the shape. */
  ghost predicate Shaped(t: Tree, m: map<Widget, Links>)
  {
    Nodes(t) <= m.Keys &&
    match t
    case Tip(w) => !w.isPaned && m[w].start == null && m[w].end == null
    case Fork(p, a, b) =>
      p.isPaned && m[p].start == Top(a) && m[p].end == Top(b) &&
      Shaped(a, m) && Shaped(b, m) &&
      m[Top(a)].parent == InPaned(p) && m[Top(b)].parent == InPaned(p)
  }

  lemma {:induction false} LinkedIsShaped(t: Tree, ws: set<Widget>)
    requires Nodes(t) <= ws
    ensures Linked(t, ws) <==> Shaped(t, Wiring(ws))
  {
    if t.Fork? {
      LinkedIsShaped(t.first, ws);
      LinkedIsShaped(t.second, ws);
    }
  }

  /** What the surgery did to the links of one widget: the one child link that
      led to w leads to the new part instead. */
  ghost predicate Redirected(n: Widget, w: Widget, top: Widget, m: map<Widget, Links>, after: map<Widget, Links>)
  {
    n in m && n in after && after[n].parent == m[n].parent &&
    after[n].start == (if m[n].start == w then top else m[n].start) &&
    after[n].end == (if m[n].end == w then top else m[n].end)
  }

  /** A part of the tree the surgery did not reach. */
  lemma {:induction false} Untouched(t: Tree, w: Widget, top: Widget, m: map<Widget, Links>, after: map<Widget, Links>)
    requires Shaped(t, m) && w !in Nodes(t)
    requires forall n :: n in Nodes(t) ==> Redirected(n, w, top, m, after)
    ensures Shaped(t, after)
  {
    if t.Fork? {
      Untouched(t.first, w, top, m, after);
      Untouched(t.second, w, top, m, after);
      assert Redirected(t.paned, w, top, m, after);
      assert Redirected(Top(t.first), w, top, m, after) && Redirected(Top(t.second), w, top, m, after);
    } else {
      assert Redirected(t.leaf, w, top, m, after);
    }
  }

  /** The pointer surgery: when only the divider above w was redirected, to the
      top of a well-linked new part, the links are those of the replaced shape. */
  lemma {:induction false} Relinked(t: Tree, w: Widget, s: Tree, m: map<Widget, Links>, after: map<Widget, Links>)
    requires Shaped(t, m) && Distinct(t) && w in Nodes(t) && Shaped(s, after)
    requires w != Top(t) ==> after[Top(s)].parent == m[w].parent
    requires forall n :: n in Nodes(t) && n !in Nodes(Sub(t, w)) ==> Redirected(n, w, Top(s), m, after)
    ensures Shaped(Replace(t, w, s), after)
    ensures Top(Replace(t, w, s)) == if w == Top(t) then Top(s) else Top(t)
  {
    if w != Top(t) {
      assert Redirected(t.paned, w, Top(s), m, after);
      if w in Nodes(t.first) {
        SubInside(t.first, w);
        ReplaceAbsent(t.second, w, s);
        Untouched(t.second, w, Top(s), m, after);
        Relinked(t.first, w, s, m, after);
        assert Redirected(Top(t.second), w, Top(s), m, after);
      } else {
        SubInside(t.second, w);
        ReplaceAbsent(t.first, w, s);
        Untouched(t.first, w, Top(s), m, after);
        Relinked(t.second, w, s, m, after);
        assert Redirected(Top(t.first), w, Top(s), m, after);
      }
    }
  }

  // --- visibility ---

  ghost predicate AllVisible(ws: set<Widget>)
    reads ws`visible
  {
    forall w :: w in ws ==> w.visible
  }

  /** What zooming a pane hides: the sibling at every divider above it. */
  ghost function Hidden(t: Tree, leaf: Widget): set<Widget>
  {
    match t
    case Tip(_) => {}
    case Fork(_, a, b) =>
      if leaf in Nodes(a) then {Top(b)} + Hidden(a, leaf) else {Top(a)} + Hidden(b, leaf)
  }

  /** The panes the user can see: a hidden widget hides all below it. */
  ghost function Seen(t: Tree): seq<Widget>
    reads Nodes(t)`visible
  {
    if !Top(t).visible then []
    else match t
      case Tip(w) => [w]
      case Fork(_, a, b) => Seen(a) + Seen(b)
  }

  ghost predicate ZoomedOn(t: Tree, leaf: Widget, ws: set<Widget>)
    reads ws`visible
  {
    leaf in Tips(t) && t.Fork? && ShownBut(ws, Hidden(t, leaf))
  }

  ghost predicate ShownBut(ws: set<Widget>, hidden: set<Widget>)
    reads ws`visible
  {
    forall w :: w in ws ==> (w.visible <==> w !in hidden)
  }

  lemma {:induction false} HiddenInside(t: Tree, leaf: Widget)
    requires Distinct(t)
    ensures Hidden(t, leaf) <= Nodes(t) - {Top(t)}
    ensures leaf in Nodes(t) ==> leaf !in Hidden(t, leaf)
  {
    if t.Fork? {
      HiddenInside(t.first, leaf);
      HiddenInside(t.second, leaf);
    }
  }

  lemma {:induction false} AllSeen(t: Tree)
    requires AllVisible(Nodes(t))
    ensures Seen(t) == Tips(t)
  {
    if t.Fork? {
      AllSeen(t.first);
      AllSeen(t.second);
    }
  }

  lemma {:induction false} TipsThere(t: Tree)
    ensures |Tips(t)| >= 1
  {
    if t.Fork? {
      TipsThere(t.first);
    }
  }

  /** Zoomed, exactly the zoomed pane can be seen. */
  lemma {:induction false} OnlyZoomedSeen(t: Tree, leaf: Widget)
    requires Distinct(t) && leaf in Tips(t) && ShownBut(Nodes(t), Hidden(t, leaf))
    ensures Seen(t) == [leaf]
  {
    HiddenInside(t, leaf);
    if t.Fork? {
      var a, b := t.first, t.second;
      TipsAreNodes(a);
      TipsAreNodes(b);
      HiddenInside(a, leaf);
      HiddenInside(b, leaf);
      if leaf in Tips(a) {
        OnlyZoomedSeen(a, leaf);
        assert Seen(b) == [];
      } else {
        OnlyZoomedSeen(b, leaf);
        assert Seen(a) == [];
      }
    }
  }

  // --- pages ---

  class Page {
    var root: Widget?
    var focused: Widget?
    var zoomedLeaf: Widget?
    ghost var tree: Tree
    ghost var nodes: set<Widget>

    /** The pointers are those of the shape, focus and zoom name panes of it,
        and the visible flags are exactly those the zoom state asks for. */
    ghost predicate Valid()
      reads this, nodes
    {
      if root == null then focused == null && zoomedLeaf == null && nodes == {}
      else
        Wired() && (focused != null ==> focused in Tips(tree)) &&
        (if zoomedLeaf == null then AllVisible(nodes) else ZoomedOn(tree, zoomedLeaf, nodes))
    }

    ghost predicate Wired()
      reads `root, `tree, `nodes, nodes`parent, nodes`start, nodes`end
    {
      root != null && nodes == Nodes(tree) && root == Top(tree) && root.parent == InPage(this) &&
      Linked(tree, nodes) && Distinct(tree)
    }

    /** A page without a pane; one is opened or adopted next. The shape means
        nothing until then. */
    constructor (ghost shape: Tree)
      ensures Valid() && root == null
    {
      root, focused, zoomedLeaf := null, null, null;
      tree, nodes := shape, {};
    }

    method SetChild(child: Widget)
      requires child.parent == Loose && root != child
      modifies `root, (Held(root) + Held(child))`parent
      ensures root == child && child.parent == InPage(this)
      ensures old(root) != null ==> old(root).parent == Loose
    {
      if root != null {
        root.parent := Loose;
      }
      root := child;
      child.parent := InPage(this);
    }

    // --- zoom ---

    method ShowAll(w: Widget?, ghost t: Tree, ghost ws: set<Widget>)
      requires w != null ==> w == Top(t) && Nodes(t) <= ws && Linked(t, ws)
      modifies ws`visible
      ensures w != null ==> AllVisible(Nodes(t))
      ensures forall n :: n in ws && old(n.visible) ==> n.visible
      decreases t
    {
      if w == null {
        return;
      }
      w.visible := true;
      if w.isPaned {
        ShowAll(w.start, t.first, ws);
        ShowAll(w.end, t.second, ws);
      }
    }

    method Unzoom()
      requires Valid()
      modifies `zoomedLeaf, nodes`visible
      ensures Valid() && zoomedLeaf == null
    {
      if zoomedLeaf == null {
        return;
      }
      ShowAll(root, tree, nodes);
      zoomedLeaf := null;
    }

    /** A page with a single pane has nothing to zoom. */
    method ApplyZoom(leaf: Widget)
      requires Valid() && root != null && zoomedLeaf == null && leaf in Tips(tree)
      modifies `zoomedLeaf, nodes`visible
      ensures Valid()
      ensures zoomedLeaf == if tree.Fork? then leaf else null
      ensures Seen(tree) == [leaf]
    {
      TipIsWhole(tree, leaf);
      hide Linked, Distinct, Tips, Seen, Nodes, Sub, Hidden, ShownBut;
      var hidAny := HideSiblings(leaf);
      OnlyZoomedSeen(tree, leaf);
      if hidAny {
        zoomedLeaf := leaf;
      }
    }

    /** Hide the sibling at every divider from the pane up to the root. */
    method HideSiblings(leaf: Widget) returns (hidAny: bool)
      requires Wired() && AllVisible(nodes) && leaf in nodes && Sub(tree, leaf) == Tip(leaf)
      modifies nodes`visible
      ensures ShownBut(nodes, Hidden(tree, leaf))
      ensures hidAny <==> tree.Fork?
    {
      assert nodes == Nodes(tree);
      hide Linked, Distinct, Tips, Seen, Nodes, Sub, Wired;
      var w := leaf;
      var parent := w.parent;
      hidAny := false;
      assert Hidden(Tip(leaf), leaf) == {};
      WholeHangs(leaf, leaf);
      while parent.InPaned?
        invariant Wired() && nodes == Nodes(tree) && w in nodes && parent == w.parent
        invariant leaf in Nodes(Sub(tree, w)) && Nodes(Sub(tree, w)) <= nodes
        invariant ShownBut(nodes, Hidden(Sub(tree, w), leaf))
        invariant hidAny <==> Sub(tree, w).Fork?
        decreases nodes - Nodes(Sub(tree, w))
      {
        hide Hidden, ShownBut;
        ClimbStep(w, leaf);
        var p := parent.paned;
        var sibling := if p.start == w then p.end else p.start;
        if sibling != null {
          sibling.Conceal(nodes, Hidden(Sub(tree, w), leaf));
          hidAny := true;
        }
        w := p;
        parent := w.parent;
      }
      TopHangs(w);
    }

    lemma WholeHangs(w: Widget, leaf: Widget)
      requires Wired() && w in nodes && Sub(tree, w) == Tip(leaf)
      ensures leaf in Nodes(Sub(tree, w)) && Nodes(Sub(tree, w)) <= nodes
    {
    }

    /** One divider up from a part of the tree that has the pane. */
    lemma ClimbStep(w: Widget, leaf: Widget)
      requires Wired() && w in nodes && w.parent.InPaned? && leaf in Nodes(Sub(tree, w))
      ensures var p := w.parent.paned;
              p in nodes && Sub(tree, p).Fork? && leaf in Nodes(Sub(tree, p)) && Nodes(Sub(tree, p)) <= nodes
      ensures var p := w.parent.paned;
              nodes - Nodes(Sub(tree, p)) < nodes - Nodes(Sub(tree, w))
      ensures var p := w.parent.paned;
              var sibling := if p.start == w then p.end else p.start;
              sibling != null && sibling in nodes &&
              Hidden(Sub(tree, p), leaf) == Hidden(Sub(tree, w), leaf) + {sibling}
    {
      TopHangs(w);
      ParentHolds(tree, w, nodes);
      var p := w.parent.paned;
      assert p in nodes - Nodes(Sub(tree, w));
      assert Top(Sub(tree, p).first) in nodes && Top(Sub(tree, p).second) in nodes;
    }

    lemma TopHangs(w: Widget)
      requires Wired() && w in nodes
      ensures w.parent.InPaned? <==> w != Top(tree)
      ensures w == Top(tree) ==> Sub(tree, w) == tree
      ensures Distinct(tree) && nodes == Nodes(tree)
    {
      if w != Top(tree) {
        ParentHolds(tree, w, nodes);
      }
    }

    method ToggleZoom()
      requires Valid()
      modifies `zoomedLeaf, nodes`visible
      ensures Valid()
      ensures zoomedLeaf ==
        if old(zoomedLeaf) != null || focused == null || tree.Tip? then null else focused
    {
      if zoomedLeaf != null {
        Unzoom();
      } else if focused != null {
        ApplyZoom(focused);
      }
    }

    /** Zooming in and out, or out and in again, restores every flag exactly when
        the page was not zoomed or is zoomed on the focused pane. Focus can move
        while another pane is zoomed; then the second toggle zooms on the new one. */
    method ToggleTwice()
      requires Valid()
      modifies `zoomedLeaf, nodes`visible
      ensures Valid() && zoomedLeaf == if old(zoomedLeaf) == null then null else focused
      ensures (forall w :: w in nodes ==> w.visible == old(w.visible)) <==> old(zoomedLeaf) == null || old(zoomedLeaf) == focused
    {
      if root != null { ZoomShows(); }
      ToggleZoom();
      ToggleZoom();
      if root != null { ZoomShows(); }
      if root != null && forall w :: w in nodes ==> w.visible == old(w.visible) {
        SameSeen(tree);
      }
    }

    /** What is seen depends on the flags alone. */
    twostate lemma {:induction false} SameSeen(t: Tree)
      requires Nodes(t) <= old(nodes) && forall w :: w in old(nodes) ==> w.visible == old(w.visible)
      ensures Seen(t) == old(Seen(t))
    {
      if t.Fork? {
        SameSeen(t.first);
        SameSeen(t.second);
      }
    }

    /** What the user sees of a valid page. */
    lemma ZoomShows()
      requires Valid() && root != null
      ensures zoomedLeaf != null ==> tree.Fork? && Seen(tree) == [zoomedLeaf]
      ensures zoomedLeaf == null ==> Seen(tree) == Tips(tree) && (tree.Fork? ==> |Tips(tree)| > 1)
    {
      if zoomedLeaf != null {
        OnlyZoomedSeen(tree, zoomedLeaf);
      } else {
        AllSeen(tree);
        if tree.Fork? {
          TipsThere(tree.first);
          TipsThere(tree.second);
        }
      }
    }

    // --- reading ---

    /** The leftmost pane. Under a linked divider the first side always has one. */
    method FirstTerminal(w: Widget?, ghost t: Tree, ghost ws: set<Widget>) returns (first: Widget?)
      requires w != null ==> w == Top(t) && Nodes(t) <= ws && Linked(t, ws)
      ensures first == if w == null then null else Tips(t)[0]
      decreases t
    {
      if w == null || !w.isPaned {
        return w;
      }
      first := FirstTerminal(w.start, t.first, ws);
    }

    /** The panes in order, appended to what was already collected. */
    method CollectTerminals(w: Widget?, out: seq<Widget>, ghost t: Tree, ghost ws: set<Widget>) returns (all: seq<Widget>)
      requires w != null ==> w == Top(t) && Nodes(t) <= ws && Linked(t, ws)
      ensures all == if w == null then out else out + Tips(t)
      decreases t
    {
      if w == null {
        return out;
      }
      if w.isPaned {
        all := CollectTerminals(w.start, out, t.first, ws);
        all := CollectTerminals(w.end, all, t.second, ws);
        assert all == out + Tips(t);
      } else {
        all := out + [w];
      }
    }

    method PaneCount() returns (n: nat)
      requires Valid()
      ensures n == if root == null then 0 else |Tips(tree)|
      ensures n >= 2 <==> root != null && tree.Fork?
    {
      if root == null {
        return 0;
      }
      var all := CollectTerminals(root, [], tree, nodes);
      n := |all|;
    }

    /** Focus may move to any pane at any time, zoomed or not. */
    method FocusPane(leaf: Widget)
      requires Valid() && root != null && leaf in Tips(tree)
      modifies `focused
      ensures Valid() && focused == leaf
    {
      focused := leaf;
    }

    // --- surgery ---

    /** A fresh pane opens in an empty page. */
    method OpenFirst(session: nat) returns (leaf: Widget)
      requires Valid() && root == null
      modifies this
      ensures Valid() && fresh(leaf) && tree == Tip(leaf) && root == leaf && focused == leaf
      ensures leaf.session == session && zoomedLeaf == null
    {
      leaf := new Widget(false, false, session);
      SetChild(leaf);
      focused := leaf;
      tree, nodes := Tip(leaf), {leaf};
    }

    /** What a widget's parent link promises: the one divider of the page that
        holds it, on one side, or the page itself. */
    ghost predicate Hangs(w: Widget)
      reads `root, `nodes, nodes`start, nodes`end, w`parent
    {
      w.parent != Loose &&
      (w.parent.InPaned? ==> root != w && w.parent.paned in nodes && w.parent.paned.isPaned && w.parent.paned != w) &&
      (w.parent.InPaned? ==> (w.parent.paned.start == w) != (w.parent.paned.end == w)) &&
      (w.parent.InPage? ==> root == w && w.parent == InPage(this)) &&
      forall n :: n in nodes && (n.start == w || n.end == w) ==> w.parent == InPaned(n)
    }

    lemma AllHang(w: Widget)
      requires Wired() && w in nodes
      ensures Hangs(w)
      ensures w.parent.InPaned? <==> w != Top(tree)
      ensures w.parent.InPaned? ==> w.parent.paned.parent != Loose
    {
      ChildLinks(tree, nodes);
      if w != Top(tree) {
        ParentHolds(tree, w, nodes);
        if w.parent.paned != Top(tree) {
          ParentHolds(tree, w.parent.paned, nodes);
        }
      }
    }

    /** Hang a loose widget where w hangs, in its divider or in the page, and
        let w go. Every other link stays. */
    method PutInPlace(w: Widget, part: Widget)
      requires Hangs(w) && part.parent == Loose && part != w
      requires w.parent.InPaned? ==> w.parent.paned != part
      modifies `root, nodes`start, nodes`end, {w, part}`parent
      ensures part.parent == old(w.parent) && w.parent == Loose
      ensures root == if old(w.parent).InPage? then part else old(root)
      ensures forall n :: n in nodes ==>
        n.start == (if old(n.start) == w then part else old(n.start)) &&
        n.end == (if old(n.end) == w then part else old(n.end))
    {
      var holder := w.parent;
      if holder.InPaned? {
        if holder.paned.start == w {
          holder.paned.SetStart(part);
        } else {
          holder.paned.SetEnd(part);
        }
      } else {
        SetChild(part);
      }
    }

    /** Put an empty divider in a widget's place, with the widget and a loose one
        on its two sides. */
    method Enclose(oldLeaf: Widget, paned: Widget, newLeaf: Widget)
      requires Hangs(oldLeaf) && oldLeaf in nodes && paned !in nodes && newLeaf !in nodes && paned != newLeaf
      requires paned.isPaned && paned.start == null && paned.end == null
      requires paned.parent == Loose && newLeaf.parent == Loose
      modifies `root, (nodes + {paned})`start, (nodes + {paned})`end, {oldLeaf, paned, newLeaf}`parent
      ensures root == if old(oldLeaf.parent).InPage? then paned else old(root)
      ensures paned.parent == old(oldLeaf.parent) && paned.start == oldLeaf && paned.end == newLeaf
      ensures oldLeaf.parent == InPaned(paned) && newLeaf.parent == InPaned(paned)
      ensures forall n :: n in nodes ==>
        n.start == (if old(n.start) == oldLeaf then paned else old(n.start)) &&
        n.end == (if old(n.end) == oldLeaf then paned else old(n.end))
    {
      PutInPlace(oldLeaf, paned);
      paned.SetStart(oldLeaf);
      paned.SetEnd(newLeaf);
    }

    /** Put the divider where the pane is, with the pane and the new one on its
        two sides. */
    method Graft(oldLeaf: Widget, paned: Widget, newLeaf: Widget)
      requires Wired() && oldLeaf in Tips(tree)
      requires paned !in nodes && newLeaf !in nodes && paned != newLeaf && paned.isPaned && !newLeaf.isPaned
      requires paned.parent == Loose && paned.start == null && paned.end == null
      requires newLeaf.parent == Loose && newLeaf.start == null && newLeaf.end == null
      modifies `root, `tree, `nodes, (nodes + {paned, newLeaf})`parent, (nodes + {paned})`start, (nodes + {paned})`end
      ensures Wired() && root != null && tree == Grafted(old(tree), oldLeaf, paned, newLeaf)
      ensures nodes == old(nodes) + {paned, newLeaf}
      ensures newLeaf in Tips(tree) && Tips(tree) == InsertedAfter(old(Tips(tree)), oldLeaf, newLeaf)
    {
      hide Linked, Distinct, Nodes, Tips, Sub, Replace, Grafted, Shaped, InsertedAfter, Hangs;
      ghost var t, ws, before := tree, nodes, Wiring(nodes);
      TipsAreNodes(t);
      LinkedIsShaped(t, ws);
      TipShaped(t, oldLeaf, before);
      GraftedShape(t, oldLeaf, paned, newLeaf);
      AllHang(oldLeaf);
      Enclose(oldLeaf, paned, newLeaf);
      tree, nodes := Grafted(t, oldLeaf, paned, newLeaf), ws + {paned, newLeaf};
      ghost var after := Wiring(nodes);
      GraftedLinks(t, oldLeaf, paned, newLeaf, before, after);
      LinkedIsShaped(tree, nodes);
    }

    /** Put a new divider where the focused pane is, the pane and a fresh one on
        its two sides. */
    method Split(session: nat, horizontal: bool) returns (added: Widget?, ghost divider: Widget?)
      requires Valid()
      modifies this, nodes
      ensures Valid()
      ensures (added == null) <==> old(focused) == null
      ensures added == null ==> unchanged(this) && unchanged(nodes)
      ensures added != null ==> fresh(added) && added.session == session && focused == added && zoomedLeaf == null
      ensures added != null ==> divider != null && fresh(divider) && divider.horizontal == horizontal && tree == Grafted(old(tree), old(focused), divider, added)
      ensures added != null ==> Tips(tree) == InsertedAfter(old(Tips(tree)), old(focused), added)
      ensures fresh(nodes - old(nodes))
    {
      added, divider := null, null;
      if focused != null {
        Unzoom();
        added, divider := SplitFocused(session, horizontal);
      }
    }

    method SplitFocused(session: nat, horizontal: bool) returns (added: Widget, ghost divider: Widget)
      requires Wired() && AllVisible(nodes) && zoomedLeaf == null && focused != null && focused in Tips(tree)
      modifies this, nodes
      ensures Valid() && root != null
      ensures fresh(added) && added.session == session && focused == added && zoomedLeaf == null
      ensures fresh(divider) && divider.horizontal == horizontal && tree == Grafted(old(tree), old(focused), divider, added)
      ensures Tips(tree) == InsertedAfter(old(Tips(tree)), old(focused), added)
      ensures nodes == old(nodes) + {divider, added}
    {
      hide Wired, Tips, Grafted, InsertedAfter;
      added := new Widget(false, false, session);
      var paned := new Widget(true, horizontal, 0);
      Graft(focused, paned, added);
      divider := paned;
      focused := added;
    }

    /** Empty a divider and put one of its two children in its place. */
    method Collapse(p: Widget, leaf: Widget, sibling: Widget)
      requires Hangs(p) && p.isPaned && p in nodes && leaf in nodes && sibling in nodes
      requires p != leaf && p != sibling && leaf != sibling && leaf.parent != Loose
      requires (p.start == leaf && p.end == sibling) || (p.start == sibling && p.end == leaf)
      requires p.parent.InPaned? ==> p.parent.paned != sibling
      requires Bare(leaf)
      modifies `root, nodes`parent, nodes`start, nodes`end
      ensures leaf.parent == Loose && Bare(leaf)
      ensures root == if old(p.parent).InPage? then sibling else old(root)
      ensures forall n :: n in nodes && n != p && n != leaf ==>
        n.parent == (if n == sibling then old(p.parent) else old(n.parent)) &&
        n.start == (if old(n.start) == p then sibling else old(n.start)) &&
        n.end == (if old(n.end) == p then sibling else old(n.end))
    {
      p.SetStart(null);
      p.SetEnd(null);
      PutInPlace(p, sibling);
    }

    /** Take a pane out of the tree: its divider is emptied and the sibling put
        in the divider's place. The first pane of the sibling is returned. */
    method Excise(leaf: Widget) returns (next: Widget)
      requires Wired() && leaf in Tips(tree) && tree.Fork?
      modifies `root, `tree, `nodes, nodes`parent, nodes`start, nodes`end
      ensures Wired() && root != null && tree == Healed(old(tree), leaf) && next == Heir(old(tree), leaf)
      ensures leaf.parent == Loose && Bare(leaf) && leaf !in nodes && nodes <= old(nodes)
      ensures next in Tips(tree) && Tips(tree) == Without(old(Tips(tree)), leaf)
    {
      hide Linked, Distinct, Nodes, Tips, Shaped, Healed, Heir, Without, Sub, Hangs;
      ghost var rest := ClosePlan(leaf);
      var paned := leaf.parent.paned;
      var sibling := if paned.start == leaf then paned.end else paned.start;
      next := FirstTerminal(sibling, rest, nodes);
      HealedPanes(tree, leaf, paned, rest);
      Heal(leaf, paned, sibling, rest);
    }

    /** The surgery itself: the divider goes and the sibling takes its place. */
    method Heal(leaf: Widget, paned: Widget, sibling: Widget, ghost rest: Tree)
      requires Wired() && leaf in Tips(tree) && tree.Fork? && leaf.parent == InPaned(paned) && paned in nodes && leaf in nodes
      requires paned != leaf && paned.isPaned && (paned.start == leaf || paned.end == leaf)
      requires sibling == (if paned.start == leaf then paned.end else paned.start) == Top(rest) && sibling != leaf && sibling != paned
      requires Sub(tree, paned) == Fork(paned, Tip(leaf), rest) || Sub(tree, paned) == Fork(paned, rest, Tip(leaf))
      requires Nodes(rest) <= nodes && sibling.parent == leaf.parent
      requires paned.parent.InPaned? ==> paned.parent.paned != sibling
      modifies `root, `tree, `nodes, nodes`parent, nodes`start, nodes`end
      ensures Wired() && root != null && tree == Healed(old(tree), leaf)
      ensures leaf.parent == Loose && Bare(leaf) && leaf !in nodes && nodes <= old(nodes)
    {
      hide Linked, Distinct, Nodes, Tips, Shaped, Healed, Sub, Hangs;
      ghost var t, ws, before := tree, nodes, Wiring(nodes);
      LinkedIsShaped(t, ws);
      AllHang(paned);
      PaneHangs(leaf);
      TopThere(rest);
      Collapse(paned, leaf, sibling);
      tree, nodes := Healed(t, leaf), ws - {leaf, paned};
      HealedLinks(t, leaf, paned, rest, before, Wiring(nodes));
      LinkedIsShaped(tree, nodes);
    }

    /** Close one pane. The last pane of the page is not removed: the page gives
        up its focus and asks to be closed instead. */
    method RemoveTerminal(leaf: Widget) returns (closePage: bool)
      requires Valid() && root != null && leaf in Tips(tree)
      modifies this, nodes
      ensures Valid() && root != null && zoomedLeaf == null
      ensures closePage <==> old(tree).Tip?
      ensures closePage ==> tree == old(tree) && focused == null
      ensures !closePage ==> tree == Healed(old(tree), leaf) && Tips(tree) == Without(old(Tips(tree)), leaf)
      ensures !closePage ==> focused == if old(focused) == leaf then Heir(old(tree), leaf) else old(focused)
      ensures !closePage ==> leaf.parent == Loose && leaf !in nodes
      ensures nodes <= old(nodes)
    {
      hide Linked, Distinct, Nodes, Healed, Heir, ZoomedOn;
      Unzoom();
      PaneHangs(leaf);
      var wasFocused := focused == leaf;
      if !leaf.parent.InPaned? {
        focused := null;
        return true;
      }
      var next := Excise(leaf);
      if wasFocused {
        focused := next;
      } else if focused != null {
        WithoutOther(old(Tips(tree)), leaf, focused);
      }
      return false;
    }

    method ClosePane() returns (closePage: bool)
      requires Valid()
      modifies this, nodes
      ensures Valid()
      ensures old(focused) == null ==> !closePage && unchanged(this) && unchanged(nodes)
      ensures old(focused) != null ==> (closePage <==> old(tree).Tip?)
      ensures old(focused) != null && !closePage ==>
        tree == Healed(old(tree), old(focused)) && focused == Heir(old(tree), old(focused))
    {
      if focused == null {
        return false;
      }
      closePage := RemoveTerminal(focused);
    }

    /** Detach the focused pane from this page alive. A lone pane stays. */
    method TakeFocusedLeaf() returns (leaf: Widget?)
      requires Valid()
      modifies this, nodes
      ensures Valid()
      ensures leaf == if old(focused) == null || old(tree).Tip? then null else old(focused)
      ensures leaf == null ==> tree == old(tree) && focused == old(focused)
      ensures leaf != null ==> root != null && tree == Healed(old(tree), leaf) && focused == Heir(old(tree), leaf)
      ensures leaf != null ==> Tips(tree) == Without(old(Tips(tree)), leaf) && zoomedLeaf == null
      ensures leaf != null ==> leaf in old(nodes) && leaf !in nodes
      ensures leaf != null ==> leaf.parent == Loose && leaf.visible && Bare(leaf)
      ensures nodes <= old(nodes)
    {
      leaf := null;
      if focused != null {
        Unzoom();
        leaf := TakeFocused();
      }
    }

    method TakeFocused() returns (leaf: Widget?)
      requires Wired() && AllVisible(nodes) && zoomedLeaf == null && focused != null && focused in Tips(tree)
      modifies this, nodes`parent, nodes`start, nodes`end
      ensures root != null && Valid() && zoomedLeaf == null && nodes <= old(nodes)
      ensures leaf == if old(tree).Tip? then null else old(focused)
      ensures leaf == null ==> tree == old(tree) && focused == old(focused)
      ensures leaf != null ==> tree == Healed(old(tree), leaf) && focused == Heir(old(tree), leaf)
      ensures leaf != null ==> Tips(tree) == Without(old(Tips(tree)), leaf)
      ensures leaf != null ==> leaf in old(nodes) && leaf !in nodes
      ensures leaf != null ==> leaf.parent == Loose && leaf.visible && Bare(leaf)
    {
      hide Linked, Distinct, Nodes, Tips, Healed, Heir, Without;
      leaf := focused;
      PaneHangs(leaf);
      if !leaf.parent.InPaned? {
        return null;
      }
      var next := Excise(leaf);
      focused := next;
    }

    /** A pane has no children, and hangs in a divider unless it is alone. */
    lemma PaneHangs(leaf: Widget)
      requires Wired() && leaf in Tips(tree)
      ensures leaf in nodes && Bare(leaf)
      ensures leaf.parent.InPaned? <==> tree.Fork?
    {
      LinkedIsShaped(tree, nodes);
      TipShaped(tree, leaf, Wiring(nodes));
      TipsAreNodes(tree);
      TipIsWhole(tree, leaf);
      AllHang(leaf);
    }

    /** Root a pane taken from another page in this one, which must be empty. */
    method AdoptLeaf(leaf: Widget)
      requires Valid() && root == null
      requires leaf.parent == Loose && leaf.visible && Bare(leaf)
      modifies this, leaf`parent
      ensures Valid() && root == leaf && focused == leaf && tree == Tip(leaf) && nodes == {leaf}
      ensures zoomedLeaf == null
    {
      SetChild(leaf);
      tree, nodes := Tip(leaf), {leaf};
      focused := leaf;
    }

    /** Where a pane that is not alone hangs, and what hangs beside it. */
    lemma TopThere(t: Tree)
      ensures Top(t) in Nodes(t)
    {
    }

    lemma ClosePlan(leaf: Widget) returns (rest: Tree)
      requires Wired() && leaf in Tips(tree) && tree.Fork?
      ensures leaf.parent.InPaned? && leaf in nodes
      ensures var p := leaf.parent.paned;
              p in nodes && p != leaf && p.isPaned && p.start != null && p.end != null &&
              Top(rest) == (if p.start == leaf then p.end else p.start) && Top(rest) != leaf && Top(rest) != p &&
              (p.start == leaf || p.end == leaf)
      ensures var p := leaf.parent.paned;
              Sub(tree, p) == Fork(p, Tip(leaf), rest) || Sub(tree, p) == Fork(p, rest, Tip(leaf))
      ensures Nodes(rest) <= nodes && Linked(rest, nodes) && Top(rest).parent == leaf.parent
      ensures var up := leaf.parent.paned.parent; up.InPaned? ==> up.paned != Top(rest)
    {
      TipsAreNodes(tree);
      TipIsWhole(tree, leaf);
      assert leaf != Top(tree);
      ParentHolds(tree, leaf, nodes);
      var p := leaf.parent.paned;
      SubInside(tree, p);
      var sub := Sub(tree, p);
      rest := if p.start == leaf then sub.second else sub.first;
      if p != Top(tree) {
        ParentHolds(tree, p, nodes);
      }
    }
  }

  ghost predicate Bare(leaf: Widget)
    reads leaf`start, leaf`end
  {
    !leaf.isPaned && leaf.start == null && leaf.end == null
  }

  lemma {:induction false} WithoutOther(s: seq<Widget>, x: Widget, y: Widget)
    requires x != y
    ensures y in Without(s, x) <==> y in s
  {
    if s != [] {
      WithoutOther(s[1..], x, y);
    }
  }

  /** The user moves the focused pane out of its split into a tab of its own.
      The pane widget itself moves: the two tabs together show the same panes. */
  method OpenInNewTab(page: Page) returns (tab: Page?)
    requires page.Valid()
    modifies page, page.nodes
    ensures page.Valid()
    ensures (tab != null) <==> old(page.focused != null && page.root != null && page.tree.Fork?)
    ensures tab == null ==> unchanged(page) && unchanged(old(page.nodes))
    ensures tab != null ==> fresh(tab) && tab.Valid() && tab.tree == Tip(old(page.focused)) && tab.focused == old(page.focused)
    ensures tab != null ==> page.root != null && page.tree == Healed(old(page.tree), old(page.focused))
    ensures tab != null ==> page.nodes !! tab.nodes && page.zoomedLeaf == null && tab.zoomedLeaf == null
    ensures tab != null ==>
      multiset(Tips(page.tree)) + multiset(Tips(tab.tree)) == multiset(old(Tips(page.tree)))
  {
    var count := page.PaneCount();
    if count < 2 || page.focused == null {
      return null;
    }
    tab := MoveFocused(page);
  }

  method MoveFocused(page: Page) returns (tab: Page)
    requires page.Valid() && page.root != null && page.focused != null && page.tree.Fork?
    modifies page, page.nodes
    ensures page.Valid() && page.root != null && page.tree == Healed(old(page.tree), old(page.focused))
    ensures fresh(tab) && tab.Valid() && tab.tree == Tip(old(page.focused)) && tab.focused == old(page.focused)
    ensures page.nodes !! tab.nodes && page.zoomedLeaf == null && tab.zoomedLeaf == null
    ensures multiset(Tips(page.tree)) + multiset(Tips(tab.tree)) == multiset(old(Tips(page.tree)))
  {
    ghost var t, moved := page.tree, page.focused;
    TipsDistinct(t);
    WithoutConserves(Tips(t), moved);
    assert Tips(Tip(moved)) == [moved];
    hide Distinct, Tips, Nodes, Healed, Heir, Without, Linked, AllVisible, ZoomedOn;
    var leaf := page.TakeFocusedLeaf();
    tab := new Page(t);
    tab.AdoptLeaf(leaf);
  }

  lemma {:induction false} TipsDistinct(t: Tree)
    requires Distinct(t)
    ensures forall i, j :: 0 <= i < j < |Tips(t)| ==> Tips(t)[i] != Tips(t)[j]
  {
    if t.Fork? {
      var a, b := Tips(t.first), Tips(t.second);
      TipsDistinct(t.first);
      TipsDistinct(t.second);
      TipsAreNodes(t.first);
      TipsAreNodes(t.second);
      forall i, j | 0 <= i < j < |a + b|
        ensures (a + b)[i] != (a + b)[j]
      {
        assert (a + b)[i] == if i < |a| then a[i] else b[i - |a|];
        assert (a + b)[j] == if j < |a| then a[j] else b[j - |a|];
        assert i < |a| <= j ==> a[i] in Nodes(t.first) && b[j - |a|] in Nodes(t.second);
      }
    }
  }

  lemma {:induction false} WithoutConserves(s: seq<Widget>, x: Widget)
    requires x in s
    requires forall i, j :: 0 <= i < j < |s| ==> s[i] != s[j]
    ensures multiset(Without(s, x)) + multiset([x]) == multiset(s)
  {
    assert s == [s[0]] + s[1..];
    if s[0] == x {
      WithoutAppend(s[1..], [], x);
    } else {
      WithoutConserves(s[1..], x);
    }
  }

  /** The pane that gets the focus of a closed one: the first of its sibling. */
  ghost function Heir(t: Tree, leaf: Widget): Widget
  {
    match t
    case Tip(w) => w
    case Fork(_, a, b) =>
      if a == Tip(leaf) then Tips(b)[0]
      else if b == Tip(leaf) then Tips(a)[0]
      else if leaf in Nodes(a) then Heir(a, leaf)
      else Heir(b, leaf)
  }

  lemma {:induction false} HeirStays(t: Tree, leaf: Widget)
    requires Distinct(t) && leaf in Tips(t) && t.Fork?
    ensures Heir(t, leaf) in Tips(Healed(t, leaf))
  {
    var a, b := t.first, t.second;
    TipsAreNodes(a);
    TipsAreNodes(b);
    if a != Tip(leaf) && b != Tip(leaf) {
      if leaf in Tips(a) {
        HeirStays(a, leaf);
      } else {
        HeirStays(b, leaf);
      }
    }
  }

  lemma {:induction false} HeirOf(t: Tree, leaf: Widget, p: Widget, sibling: Tree)
    requires Distinct(t) && p in Nodes(t)
    requires Sub(t, p) == Fork(p, Tip(leaf), sibling) || Sub(t, p) == Fork(p, sibling, Tip(leaf))
    ensures Heir(t, leaf) == Tips(sibling)[0] && leaf in Nodes(t)
  {
    SubInside(t, p);
    if t.Fork? && p != t.paned {
      if p in Nodes(t.first) {
        HeirOf(t.first, leaf, p, sibling);
      } else {
        HeirOf(t.second, leaf, p, sibling);
      }
    }
  }

  /** Closing the pane a split made returns the focus to the pane it split. */
  lemma SplitThenCloseFocus(t: Tree, leaf: Widget, paned: Widget, added: Widget)
    requires Distinct(t) && leaf in Tips(t) && paned !in Nodes(t) && added !in Nodes(t) && leaf != added && paned != added
    ensures Heir(Grafted(t, leaf, paned, added), added) == leaf
  {
    var part := Fork(paned, Tip(leaf), Tip(added));
    GraftedShape(t, leaf, paned, added);
    TipIsWhole(t, leaf);
    ReplacedPart(t, leaf, part);
    HeirOf(Grafted(t, leaf, paned, added), added, paned, Tip(leaf));
  }

  lemma {:induction false} ReplacedPart(t: Tree, w: Widget, s: Tree)
    requires Distinct(t) && Distinct(s) && w in Nodes(t) && Nodes(s) !! (Nodes(t) - Nodes(Sub(t, w)))
    ensures Top(s) in Nodes(Replace(t, w, s)) && Sub(Replace(t, w, s), Top(s)) == s
  {
    if w != Top(t) {
      if w in Nodes(t.first) {
        SubInside(t.first, w);
        ReplaceNodes(t.first, w, s);
        ReplacedPart(t.first, w, s);
      } else {
        SubInside(t.second, w);
        ReplaceAbsent(t.first, w, s);
        ReplacedPart(t.second, w, s);
      }
    }
  }

  /** Only the links of the tree's own widgets matter. */
  lemma {:induction false} ShapedDepends(t: Tree, m: map<Widget, Links>, other: map<Widget, Links>)
    requires Nodes(t) <= m.Keys && Nodes(t) <= other.Keys
    requires forall w :: w in Nodes(t) ==> m[w] == other[w]
    ensures Shaped(t, m) <==> Shaped(t, other)
  {
    if t.Fork? {
      ShapedDepends(t.first, m, other);
      ShapedDepends(t.second, m, other);
    }
  }

  /** What closing does to the links of one remaining widget: child links to
      the divider lead to the sibling, which hangs where the divider did. */
  ghost predicate Spliced(n: Widget, p: Widget, top: Widget, m: map<Widget, Links>, after: map<Widget, Links>)
  {
    n in m && p in m && n in after &&
    after[n].parent == (if n == top then m[p].parent else m[n].parent) &&
    after[n].start == (if m[n].start == p then top else m[n].start) &&
    after[n].end == (if m[n].end == p then top else m[n].end)
  }

  /** The panes after a close, and the one that inherits the focus. */
  lemma HealedPanes(t: Tree, leaf: Widget, p: Widget, sibling: Tree)
    requires Distinct(t) && p in Nodes(t) && leaf in Tips(t) && t.Fork?
    requires Sub(t, p) == Fork(p, Tip(leaf), sibling) || Sub(t, p) == Fork(p, sibling, Tip(leaf))
    ensures Heir(t, leaf) == Tips(sibling)[0] && Heir(t, leaf) in Tips(Healed(t, leaf))
    ensures Tips(Healed(t, leaf)) == Without(Tips(t), leaf)
  {
    HealedTips(t, leaf);
    HeirOf(t, leaf, p, sibling);
    HeirStays(t, leaf);
  }

  /** The shape and the links after a close. */
  lemma HealedLinks(t: Tree, leaf: Widget, p: Widget, sibling: Tree, m: map<Widget, Links>, after: map<Widget, Links>)
    requires Distinct(t) && p in Nodes(t) && Shaped(t, m)
    requires Sub(t, p) == Fork(p, Tip(leaf), sibling) || Sub(t, p) == Fork(p, sibling, Tip(leaf))
    requires forall n :: n in Nodes(t) && n != leaf && n != p ==> Spliced(n, p, Top(sibling), m, after)
    ensures Shaped(Healed(t, leaf), after) && Distinct(Healed(t, leaf))
    ensures Top(Healed(t, leaf)) == if p == Top(t) then Top(sibling) else Top(t)
    ensures leaf in Nodes(t) && Nodes(Healed(t, leaf)) == Nodes(t) - {leaf, p}
  {
    SubInside(t, p);
    SubShaped(t, p, m);
    HealedReplaces(t, leaf, p, sibling);
    assert Spliced(Top(sibling), p, Top(sibling), m, after);
    ChildrenInside(sibling, m);
    forall n | n in Nodes(sibling)
      ensures n in after && after[n].start == m[n].start && after[n].end == m[n].end
      ensures n != Top(sibling) ==> after[n].parent == m[n].parent
    {
      assert Spliced(n, p, Top(sibling), m, after);
    }
    ShapedTopFree(sibling, m, after);
    forall n | n in Nodes(t) && n !in Nodes(Sub(t, p))
      ensures Redirected(n, p, Top(sibling), m, after)
    {
      assert Spliced(n, p, Top(sibling), m, after);
    }
    ReplaceNodes(t, p, sibling);
    Relinked(t, p, sibling, m, after);
  }

  lemma {:induction false} SubShaped(t: Tree, w: Widget, m: map<Widget, Links>)
    requires Shaped(t, m) && w in Nodes(t)
    ensures Shaped(Sub(t, w), m)
  {
    if w != Top(t) {
      if w in Nodes(t.first) {
        SubShaped(t.first, w, m);
      } else {
        SubShaped(t.second, w, m);
      }
    }
  }

  lemma {:induction false} ChildrenInside(t: Tree, m: map<Widget, Links>)
    requires Shaped(t, m)
    ensures forall n :: n in Nodes(t) ==>
      (m[n].start != null ==> m[n].start in Nodes(t)) && (m[n].end != null ==> m[n].end in Nodes(t))
  {
    if t.Fork? {
      ChildrenInside(t.first, m);
      ChildrenInside(t.second, m);
    }
  }

  lemma ShapedTopFree(t: Tree, m: map<Widget, Links>, other: map<Widget, Links>)
    requires Shaped(t, m) && Distinct(t) && Nodes(t) <= other.Keys
    requires forall w :: w in Nodes(t) ==> other[w].start == m[w].start && other[w].end == m[w].end
    requires forall w :: w in Nodes(t) && w != Top(t) ==> other[w].parent == m[w].parent
    ensures Shaped(t, other)
  {
    if t.Fork? {
      ShapedDepends(t.first, m, other);
      ShapedDepends(t.second, m, other);
    }
  }

  /** The shape after a split. */
  lemma GraftedShape(t: Tree, leaf: Widget, paned: Widget, added: Widget)
    requires Distinct(t) && leaf in Tips(t) && paned !in Nodes(t) && added !in Nodes(t) && paned != added
    ensures var g := Grafted(t, leaf, paned, added);
            Distinct(g) && Nodes(g) == Nodes(t) + {paned, added} &&
            added in Tips(g) && Tips(g) == InsertedAfter(Tips(t), leaf, added)
  {
    TipIsWhole(t, leaf);
    ReplaceNodes(t, leaf, Fork(paned, Tip(leaf), Tip(added)));
    GraftedTips(t, leaf, paned, added);
    Inserted(Tips(t), leaf, added);
  }

  lemma {:induction false} Inserted(s: seq<Widget>, x: Widget, y: Widget)
    ensures x in s ==> y in InsertedAfter(s, x, y)
  {
    if s != [] {
      Inserted(s[1..], x, y);
    }
  }

  /** The links after a split. */
  lemma GraftedLinks(t: Tree, leaf: Widget, paned: Widget, added: Widget, m: map<Widget, Links>, after: map<Widget, Links>)
    requires Distinct(t) && leaf in Tips(t) && Shaped(t, m) && leaf in m
    requires paned.isPaned && !added.isPaned && {leaf, paned, added} <= after.Keys
    requires after[paned] == Links(m[leaf].parent, leaf, added)
    requires after[leaf] == m[leaf].(parent := InPaned(paned))
    requires after[added] == Links(InPaned(paned), null, null)
    requires forall n :: n in Nodes(t) && n != leaf ==> Redirected(n, leaf, paned, m, after)
    ensures Shaped(Grafted(t, leaf, paned, added), after)
    ensures Top(Grafted(t, leaf, paned, added)) == if leaf == Top(t) then paned else Top(t)
  {
    var part := Fork(paned, Tip(leaf), Tip(added));
    TipIsWhole(t, leaf);
    TipShaped(t, leaf, m);
    assert Shaped(Tip(leaf), after) && Shaped(Tip(added), after);
    assert Shaped(part, after) && Nodes(Sub(t, leaf)) == {leaf} && Top(part) == paned;
    hide Shaped, Nodes, Sub, Replace, Distinct, Tips;
    Relinked(t, leaf, part, m, after);
  }

  lemma {:induction false} TipShaped(t: Tree, leaf: Widget, m: map<Widget, Links>)
    requires Shaped(t, m) && leaf in Tips(t)
    ensures leaf in m && !leaf.isPaned && m[leaf].start == null && m[leaf].end == null
  {
    if t.Fork? {
      if leaf in Tips(t.first) {
        TipShaped(t.first, leaf, m);
      } else {
        TipShaped(t.second, leaf, m);
      }
    }
  }

  /** Every child link leads to a widget of the tree that links back. */
  lemma {:induction false} ChildLinks(t: Tree, ws: set<Widget>)
    requires Nodes(t) <= ws && Linked(t, ws) && Distinct(t)
    ensures forall n :: n in Nodes(t) ==>
      (n.start != null ==> n.start in Nodes(t) && n.start.parent == InPaned(n) && n.isPaned && n.start != n) &&
      (n.end != null ==> n.end in Nodes(t) && n.end.parent == InPaned(n) && n.end != n) &&
      (n.start == null || n.start != n.end)
  {
    if t.Fork? {
      ChildLinks(t.first, ws);
      ChildLinks(t.second, ws);
    }
  }
}
