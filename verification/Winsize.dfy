/** Forwarding a pane's size to its session: changes are held while a divider is
    dragged, debounced by a timer otherwise, and pushed once at the settled size. */
module Winsize {

  /** One resize request sent to the daemon, and whether it got there. */
  datatype Push = Push(rows: int, cols: int, delivered: bool)

  /** One pane's bridge. The terminal's grid changes by itself; told says that
      the toolkit has announced a change since the grid last changed. */
  class Bridge {
    const session: nat
    var dead: bool
    var rows: int
    var cols: int
    ghost var told: bool
    var lastRows: int
    var lastCols: int
    var timer: bool
    var pending: bool
    ghost var pushes: seq<Push>

    constructor (session: nat, rows: int, cols: int)
      ensures this.session == session && !dead && this.rows == rows && this.cols == cols && !told
      ensures lastRows == -1 && lastCols == -1 && !timer && !pending && pushes == []
    {
      this.session, dead, this.rows, this.cols, told := session, false, rows, cols, false;
      lastRows, lastCols, timer, pending, pushes := -1, -1, false, false, [];
    }

    /** The grid has been announced and is not what was last pushed. */
    ghost predicate Owed()
      reads `dead, `told, `rows, `cols, `lastRows, `lastCols
    {
      !dead && session != 0 && told && rows > 0 && cols > 0 && (rows != lastRows || cols != lastCols)
    }

    /** What was last pushed, and that no two pushes in a row are the same. */
    ghost predicate Recorded()
      reads `pushes, `lastRows, `lastCols
    {
      (pushes == [] ==> lastRows == -1 && lastCols == -1) &&
      (pushes != [] ==> lastRows == pushes[|pushes| - 1].rows && lastCols == pushes[|pushes| - 1].cols) &&
      (forall i :: 0 <= i < |pushes| ==> pushes[i].rows > 0 && pushes[i].cols > 0) &&
      (forall i :: 0 < i < |pushes| ==> pushes[i].rows != pushes[i - 1].rows || pushes[i].cols != pushes[i - 1].cols)
    }

    /** The current grid has been pushed, once, if it is one and is not what was last
        pushed, and nothing otherwise. */
    twostate predicate PushedOnce(delivered: bool)
      reads this
    {
      if !dead && session != 0 && rows > 0 && cols > 0 && (rows != old(lastRows) || cols != old(lastCols))
      then pushes == old(pushes) + [Push(rows, cols, delivered)] && lastRows == rows && lastCols == cols
      else pushes == old(pushes) && lastRows == old(lastRows) && lastCols == old(lastCols)
    }

    /** Push the current grid, once. The answer to the request is ignored. */
    method ResizeFlush(delivered: bool)
      requires Recorded()
      modifies `timer, `lastRows, `lastCols, `pushes
      ensures Recorded() && !timer && !Owed() && PushedOnce(delivered)
    {
      timer := false;
      if dead || session == 0 {
        return;
      }
      if rows <= 0 || cols <= 0 {
        return;
      }
      if rows == lastRows && cols == lastCols {
        return;
      }
      lastRows, lastCols := rows, cols;
      pushes := pushes + [Push(rows, cols, delivered)];
    }
  }

  class Page {
    var bridges: seq<Bridge>
    var ptrDown: bool
    var dividerDragging: bool

    constructor ()
      ensures Valid() && bridges == [] && !ptrDown && !dividerDragging
    {
      bridges, ptrDown, dividerDragging := [], false, false;
    }

    /** An owed size will still be pushed: by the timer, or at the drag's end. */
    ghost predicate Kept(b: Bridge)
      reads `dividerDragging, b
    {
      b.Recorded() && (b.Owed() ==> b.timer || (b.pending && dividerDragging))
    }

    ghost predicate Valid()
      reads this, bridges
    {
      (forall i, j :: 0 <= i < j < |bridges| ==> bridges[i] != bridges[j]) &&
      (dividerDragging ==> ptrDown) &&
      forall b :: b in bridges ==> Kept(b)
    }

    /** The terminal's grid changed by itself. */
    method Regrid(b: Bridge, rows: int, cols: int)
      requires Valid() && b in bridges
      modifies b`rows, b`cols, b`told
      ensures Valid() && b.rows == rows && b.cols == cols
    {
      hide Bridge.Recorded;
      if b.rows != rows || b.cols != cols {
        b.rows, b.cols, b.told := rows, cols, false;
      }
    }

    /** The toolkit announces that the contents or the cell size changed. No
        announcement pushes anything by itself. */
    method MaybeResize(b: Bridge)
      requires Valid() && b in bridges
      modifies b`timer, b`pending, b`told
      ensures Valid() && b.told && b.pushes == old(b.pushes)
      ensures b.pending == (old(b.pending) || (!b.dead && b.session != 0 && dividerDragging))
      ensures b.timer == (old(b.timer) || (!b.dead && b.session != 0 && !dividerDragging))
    {
      hide Bridge.Recorded;
      assert Kept(b);
      b.told := true;
      if b.dead || b.session == 0 {
        return;
      }
      if dividerDragging {
        b.pending := true;
        return;
      }
      b.timer := true;
    }

    method TimerFires(b: Bridge, delivered: bool)
      requires Valid() && b in bridges && b.timer
      modifies b`timer, b`lastRows, b`lastCols, b`pushes
      ensures Valid() && !b.timer && !b.Owed() && b.PushedOnce(delivered)
    {
      b.ResizeFlush(delivered);
    }

    /** A divider moved; with the button down that is a drag. */
    method PositionChanged()
      requires Valid()
      modifies `dividerDragging
      ensures Valid() && dividerDragging == (old(dividerDragging) || ptrDown)
    {
      if ptrDown {
        dividerDragging := true;
      }
    }

    /** The drag is over: push once for every pane it resized. */
    method FlushPendingResizes(delivered: nat -> bool)
      requires !dividerDragging
      requires forall i, j :: 0 <= i < j < |bridges| ==> bridges[i] != bridges[j]
      requires forall b :: b in bridges ==> b.Recorded() && (b.Owed() ==> b.timer || b.pending)
      modifies bridges`timer, bridges`pending, bridges`lastRows, bridges`lastCols, bridges`pushes
      ensures Valid()
      ensures forall b :: b in bridges ==> !b.pending
      ensures forall b :: b in bridges ==> |b.pushes| <= |old(b.pushes)| + 1
      ensures forall b :: b in bridges && !old(b.pending) ==> b.pushes == old(b.pushes) && b.timer == old(b.timer)
      ensures forall i :: 0 <= i < |bridges| && old(bridges[i].pending) ==>
        !bridges[i].Owed() && !bridges[i].timer && bridges[i].PushedOnce(delivered(i))
    {
      hide Bridge.Recorded, Bridge.Owed;
      var i := 0;
      while i < |bridges|
        invariant 0 <= i <= |bridges|
        invariant forall j :: i <= j < |bridges| ==> Untouched(bridges[j])
        invariant forall j :: 0 <= j < |bridges| ==> bridges[j].Recorded()
        invariant forall j :: 0 <= j < i ==> Flushed(bridges[j]) && (old(bridges[j].pending) ==> bridges[j].PushedOnce(delivered(j)))
      {
        var b := bridges[i];
        if b.pending {
          b.pending := false;
          b.timer := false;
          b.ResizeFlush(delivered(i));
        }
        i := i + 1;
      }
      assert forall b :: b in bridges ==> Flushed(b);
    }

    twostate predicate Untouched(b: Bridge)
      reads b
    {
      b.pending == old(b.pending) && b.timer == old(b.timer) && b.pushes == old(b.pushes) && b.Owed() == old(b.Owed())
      && b.lastRows == old(b.lastRows) && b.lastCols == old(b.lastCols)
    }

    twostate predicate Flushed(b: Bridge)
      reads b
    {
      !b.pending && |b.pushes| <= |old(b.pushes)| + 1 &&
      (!old(b.pending) ==> b.pushes == old(b.pushes) && b.timer == old(b.timer) && b.Owed() == old(b.Owed())) &&
      (old(b.pending) ==> !b.Owed() && !b.timer)
    }

    /** The primary button goes down or up over the page. A press flushes first
        if the release of an earlier drag was missed. */
    method Button(press: bool, delivered: nat -> bool)
      requires Valid()
      modifies `ptrDown, `dividerDragging
      modifies bridges`timer, bridges`pending, bridges`lastRows, bridges`lastCols, bridges`pushes
      ensures Valid() && ptrDown == press && !dividerDragging
      ensures old(dividerDragging) ==> forall i :: 0 <= i < |bridges| ==>
        if old(bridges[i].pending) then !bridges[i].Owed() && bridges[i].PushedOnce(delivered(i)) else bridges[i].pushes == old(bridges[i].pushes)
      ensures old(dividerDragging) ==> forall b :: b in bridges ==> !b.pending
      ensures !old(dividerDragging) ==> forall b :: b in bridges ==> b.pushes == old(b.pushes)
    {
      if press {
        if dividerDragging {
          dividerDragging := false;
          FlushPendingResizes(delivered);
        }
        ptrDown := true;
      } else {
        ptrDown := false;
        if dividerDragging {
          dividerDragging := false;
          FlushPendingResizes(delivered);
        }
      }
    }

    method AddPane(b: Bridge)
      requires Valid() && b !in bridges && b.Recorded() && (b.Owed() ==> b.timer)
      modifies `bridges
      ensures Valid() && bridges == old(bridges) + [b]
    {
      bridges := bridges + [b];
    }

    /** A bridge dies and its pane leaves the page. */
    method RemovePane(k: nat)
      requires Valid() && k < |bridges|
      modifies `bridges, {bridges[k]}`dead, {bridges[k]}`timer
      ensures Valid() && bridges == old(bridges)[..k] + old(bridges)[k + 1..]
      ensures var b := old(bridges)[k]; b.dead && !b.timer && !b.Owed()
    {
      var b := bridges[k];
      b.dead := true;
      b.timer := false;
      DropPane(k);
    }

    method DropPane(k: nat)
      requires Valid() && k < |bridges|
      modifies `bridges
      ensures Valid() && bridges == old(bridges)[..k] + old(bridges)[k + 1..]
    {
      ghost var all := bridges;
      bridges := bridges[..k] + bridges[k + 1..];
      assert forall i :: 0 <= i < |bridges| ==> bridges[i] == all[if i < k then i else i + 1];
      assert forall b :: b in bridges ==> b in all;
    }

    /** A pane moves to another page with its bridge. Moved out of a drag, a size
        that was only held for the drag's end is no longer going to be pushed;
        otherwise both pages keep theirs. */
    method MovePane(k: nat, to: Page)
      requires Valid() && to.Valid() && to != this && k < |bridges| && bridges[k] !in to.bridges && !to.dividerDragging
      modifies `bridges, to`bridges
      ensures var b := old(bridges)[k];
              Valid() && bridges == old(bridges)[..k] + old(bridges)[k + 1..] && to.bridges == old(to.bridges) + [b]
      ensures var b := old(bridges)[k];
              to.Valid() <==> !(b.Owed() && !b.timer)
      ensures !dividerDragging ==> to.Valid()
    {
      var b := bridges[k];
      assert Kept(b);
      DropPane(k);
      to.bridges := to.bridges + [b];
      assert b in to.bridges;
    }
  }

  /** Nothing is lost: with the button up and no timer armed, every live pane
      whose size has been announced has had exactly that size pushed last. */
  lemma Settled(p: Page, b: Bridge)
    requires p.Valid() && !p.ptrDown && b in p.bridges && !b.timer
    requires !b.dead && b.session != 0 && b.told && b.rows > 0 && b.cols > 0
    ensures b.pushes != [] && var last := b.pushes[|b.pushes| - 1]; last.rows == b.rows && last.cols == b.cols
  {
    assert p.Kept(b);
  }
}
