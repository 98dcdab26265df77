/** The offscreen thumbnail pipeline of the overview: a queue of cards, one
    terminal that draws them pane by pane, and a chain of timers. Allocation,
    drawing and timing answers come from outside and may be adversarial. */
module RenderQueue {
  import opened Geometry
  import opened Lists

  const MAX_ATTEMPTS: nat := 4

  class CardInfo {
    const leaves: seq<Pane>
    const cacheKey: nat
    var curLeaf: nat
    var attempts: nat
    /** One entry per pane drawn so far: whether it could be captured. */
    var nodes: seq<bool>
    /** The pane signatures folded so far, in order, and their number. */
    var sig: seq<nat>
    var sigPanes: nat
    var rendered: bool

    constructor (leaves: seq<Pane>, cacheKey: nat)
      ensures this.leaves == leaves && this.cacheKey == cacheKey
      ensures curLeaf == 0 && attempts == 0 && nodes == [] && sig == [] && sigPanes == 0 && !rendered
    {
      this.leaves, this.cacheKey := leaves, cacheKey;
      curLeaf, attempts, nodes, sig, sigPanes, rendered := 0, 0, [], [], 0, false;
    }

    /** A card in the middle of being drawn has one entry and one signature for
        each pane before the current one. */
    ghost predicate InStep()
      reads this
    {
      curLeaf < |leaves| && |nodes| == curLeaf && |sig| == curLeaf && sigPanes == curLeaf
    }
  }

  /** What a snapshot of the terminal's grid, the renderer and the toolkit answer
      when one pane has settled: the terminal's allocation, and for a compose
      whether there is a renderer, which captured panes have any extent, and
      whether a texture came out. */
  datatype Answer = Answer(w: int, h: int, hasRenderer: bool, extent: nat -> bool, textured: bool)

  datatype Peek = Peek(sig: nat, len: nat)

  /** What the terminal does on its own: its contents change, or the quiet period
      behind the last change ends, with the grid blank or not. */
  datatype Noise = Changed | QuietOver(blank: bool)

  /** Retries the queued cards still have between them. */
  ghost function Retries(s: seq<CardInfo>): nat
    reads s`attempts
  {
    if s == [] then 0
    else (if s[0].attempts < MAX_ATTEMPTS then MAX_ATTEMPTS - s[0].attempts else 0) + Retries(s[1..])
  }

  lemma {:induction false} RetriesAppend(s: seq<CardInfo>, c: CardInfo)
    ensures Retries(s + [c]) == Retries(s) + if c.attempts < MAX_ATTEMPTS then MAX_ATTEMPTS - c.attempts else 0
  {
    if s == [] {
      assert [c][1..] == [];
    } else {
      assert (s + [c])[1..] == s[1..] + [c];
      RetriesAppend(s[1..], c);
    }
  }

  /** Lexicographic order on the measure of the chain. */
  predicate Before(a: (nat, nat, nat, nat), b: (nat, nat, nat, nat)) {
    a.0 < b.0 || (a.0 == b.0 && (a.1 < b.1 || (a.1 == b.1 && (a.2 < b.2 || (a.2 == b.2 && a.3 < b.3)))))
  }

  class Overview {
    var pending: seq<CardInfo>
    var rendering: bool
    /** Which timers are armed. */
    var pump: bool
    var feed: bool
    var backstop: bool
    var quiet: bool
    var fed: bool
    var fedLen: nat
    var lastCols: nat
    var lastRows: nat
    var paneSig: nat
    /** The signature of what each card's texture shows, by cache key. */
    var thumbSig: map<nat, seq<nat>>
    ghost var composed: set<CardInfo>

    ghost predicate QueueOk()
      reads `pending, pending
    {
      NoDup(pending) && forall c :: c in pending ==> |c.leaves| > 0 && c.attempts <= MAX_ATTEMPTS
    }

    /** While rendering, exactly one timer that moves the chain on is armed and
        the head card is in step; otherwise the queue is empty and nothing is
        armed. The quiet timer only ever runs beside the backstop. */
    ghost predicate ChainOk()
      reads this, pending
    {
      (rendering ==> |pending| > 0 && pending[0].InStep()) &&
      (rendering ==> (pump && !feed && !backstop) || (!pump && feed && !backstop) || (!pump && !feed && backstop)) &&
      (!rendering ==> pending == [] && !pump && !feed && !backstop) &&
      (fed <==> backstop) && (quiet ==> backstop)
    }

    ghost predicate Valid()
      reads this, pending
    {
      QueueOk() && ChainOk()
    }

    /** Retries left, cards left, panes left on the head card, stage. */
    ghost function Measure(): (nat, nat, nat, nat)
      reads this, pending
    {
      (Retries(pending),
       |pending|,
       if |pending| > 0 && pending[0].curLeaf < |pending[0].leaves| then |pending[0].leaves| - pending[0].curLeaf else 0,
       if pump then 3 else if feed then 2 else if backstop then 1 else 0)
    }

    constructor ()
      ensures Valid() && pending == [] && !rendering && composed == {} && thumbSig == map[]
    {
      pending, rendering, pump, feed, backstop, quiet, fed := [], false, false, false, false, false, false;
      fedLen, lastCols, lastRows, paneSig, thumbSig, composed := 0, 0, 0, 0, map[], {};
    }

    method SettleCancel()
      modifies `backstop, `quiet, `feed, `fed
      ensures !backstop && !quiet && !feed && !fed
    {
      backstop, quiet, feed, fed := false, false, false, false;
    }

    /** Stop every timer and forget the queue, whatever was under way. */
    method Abort()
      modifies `pending, `rendering, `pump, `backstop, `quiet, `feed, `fed, `lastCols, `lastRows
      ensures Valid() && !rendering && pending == []
    {
      lastCols, lastRows := 0, 0;
      SettleCancel();
      pump := false;
      pending := [];
      rendering := false;
    }

    /** Begin the card at the head, or rest when there is none. */
    method Pump()
      requires QueueOk() && !pump && !feed && !backstop && !quiet && !fed
      modifies `rendering, `pump, pending`curLeaf, pending`sig, pending`sigPanes, pending`nodes
      ensures Valid() && (rendering <==> pending != []) && (rendering ==> pump)
      ensures rendering ==> pending[0].curLeaf == 0
    {
      if |pending| == 0 {
        rendering := false;
        return;
      }
      rendering := true;
      var ci := pending[0];
      ci.curLeaf := 0;
      ci.sig := [];
      ci.sigPanes := 0;
      ci.nodes := [];
      pump := true;
    }

    /** Queue a card that is not queued yet, and start the chain if it rests. */
    method Enqueue(ci: CardInfo)
      requires Valid() && |ci.leaves| > 0 && ci.attempts <= MAX_ATTEMPTS
      modifies `pending, `rendering, `pump, ci`curLeaf, ci`sig, ci`sigPanes, ci`nodes
      ensures Valid() && rendering
      ensures pending == if ci in old(pending) then old(pending) else old(pending) + [ci]
      ensures old(rendering) ==> unchanged(`pump, ci)
    {
      if ci in pending {
        return;
      }
      pending := pending + [ci];
      if !rendering {
        Pump();
      }
    }

    /** The pump timer fired: set the grid for the current pane. A pane of the
        grid just used is fed at once, any other after a frame. */
    method Start(peek: Peek)
      requires Valid() && pump
      modifies this
      ensures Valid() && rendering && pending == old(pending) && composed == old(composed) && thumbSig == old(thumbSig)
      ensures Before(Measure(), old(Measure()))
      ensures var leaf := old(pending[0].leaves[pending[0].curLeaf]);
        if leaf.cols > 0 && leaf.rows > 0 && (leaf.cols != old(lastCols) || leaf.rows != old(lastRows))
        then feed && lastCols == leaf.cols && lastRows == leaf.rows
        else backstop && paneSig == peek.sig && fedLen == peek.len && lastCols == old(lastCols) && lastRows == old(lastRows)
    {
      pump := false;
      var ci := pending[0];
      var leaf := ci.leaves[ci.curLeaf];
      fed := false;
      if leaf.cols > 0 && leaf.rows > 0 && (leaf.cols != lastCols || leaf.rows != lastRows) {
        lastCols, lastRows := leaf.cols, leaf.rows;
        feed := true;
        return;
      }
      Feed(peek);
    }

    /** The grid has been laid out: fill it, and arm the backstop. */
    method Feed(peek: Peek)
      requires QueueOk() && rendering && !pump && !backstop && !quiet && |pending| > 0 && pending[0].InStep()
      modifies `feed, `fed, `fedLen, `backstop, `paneSig
      ensures Valid() && backstop && paneSig == peek.sig && fedLen == peek.len
    {
      feed := false;
      paneSig := peek.sig;
      fed := true;
      fedLen := peek.len;
      backstop := true;
    }

    /** The terminal's contents changed: restart the quiet period, but only after
        a feed. */
    method ContentsChanged()
      requires Valid()
      modifies `quiet
      ensures Valid() && Measure() == old(Measure())
      ensures quiet == (old(quiet) || (rendering && fed))
    {
      if !rendering || !fed {
        return;
      }
      quiet := true;
    }

    /** The quiet period elapsed. If something was fed and the grid is still
        blank this was the reset's quiet: decline, and leave the card to a later
        change or to the backstop. */
    method FinishQuiet(blank: bool, a: Answer)
      requires Valid() && quiet
      modifies this, pending
      ensures Valid()
      ensures StillBlank(old(fedLen), blank) ==> Measure() == old(Measure()) && pending == old(pending) && backstop
      ensures !StillBlank(old(fedLen), blank) ==> Before(Measure(), old(Measure())) && PaneDone(a)
      ensures StillBlank(old(fedLen), blank) ==> rendering == old(rendering) && composed == old(composed)
      ensures old(composed) <= composed
      ensures forall c :: c in old(pending) && c !in composed ==> c in pending
      ensures forall c :: c in pending ==> c in old(pending)
      ensures forall c :: c in old(pending) ==> old(c.attempts) <= c.attempts <= MAX_ATTEMPTS
    {
      quiet := false;
      if fedLen > 0 && blank {
        return;
      }
      Finish(a);
    }

    static predicate StillBlank(len: nat, blank: bool) {
      len > 0 && blank
    }

    /** What becomes of a pane that has settled: without an allocation it is tried
        again while the card has attempts left; else it gets its entry and its
        signature, and is the next pane's turn, or the card is composed. */
    twostate predicate PaneDone(new a: Answer)
      reads *
    {
      |old(pending)| > 0 && var ci, blank := old(pending)[0], a.w <= 0 || a.h <= 0;
      if blank && old(ci.attempts) < MAX_ATTEMPTS then
        pump && pending == old(pending) && ci.attempts == old(ci.attempts) + 1 && ci.curLeaf == old(ci.curLeaf) &&
        ci.nodes == old(ci.nodes) && ci.sig == old(ci.sig) && composed == old(composed) && thumbSig == old(thumbSig)
      else if old(ci.curLeaf) + 1 < |ci.leaves| then
        pump && pending == old(pending) && ci.attempts == old(ci.attempts) && ci.curLeaf == old(ci.curLeaf) + 1 &&
        ci.nodes == old(ci.nodes) + [!blank] && ci.sig == old(ci.sig) + [old(paneSig)] &&
        composed == old(composed) && thumbSig == old(thumbSig)
      else CardDone(a, old(ci.nodes) + [!blank], old(ci.sig) + [old(paneSig)])
    }

    /** What becomes of the head card with these entries and signatures: it leaves
        the queue, but goes to its end if there was a renderer, nothing could be
        drawn and it has attempts left; with a texture its signature is recorded. */
    twostate predicate CardDone(new a: Answer, new nodes: seq<bool>, new sig: seq<nat>)
      requires |old(pending)| > 0
      reads *
    {
      var ci := old(pending)[0];
      var again := a.hasRenderer && !Drawable(ci, nodes, a) && old(ci.attempts) < MAX_ATTEMPTS;
      && pending == old(pending)[1..] + (if again then [ci] else []) && composed == old(composed) + {ci}
      && ci.attempts == old(ci.attempts) + (if again then 1 else 0)
      && (ci.rendered <==> old(ci.rendered) || (a.hasRenderer && Drawable(ci, nodes, a) && a.textured))
      && thumbSig == if ci.rendered then old(thumbSig)[ci.cacheKey := sig] else old(thumbSig)
    }

    /** One pane has settled: capture it, then go on to the next pane or compose
        the card. A pane the terminal has no allocation for is retried while the
        card has attempts left, and recorded as a miss after that. */
    method Finish(a: Answer)
      requires Valid() && backstop
      modifies this, pending
      ensures Valid()
      ensures Before(Measure(), old(Measure()))
      ensures old(composed) <= composed
      ensures forall c :: c in old(pending) && c !in composed ==> c in pending
      ensures forall c :: c in pending ==> c in old(pending)
      ensures forall c :: c in old(pending) ==> old(c.attempts) <= c.attempts <= MAX_ATTEMPTS
      ensures PaneDone(a)
    {
      hide Retries, NoDup, Drawable;
      SettleCancel();
      if a.w <= 0 || a.h <= 0 {
        if pending[0].attempts < MAX_ATTEMPTS {
          RetryPane(pending[0]);
          return;
        }
      }
      PassPane(a);
    }

    /** The pane is to be tried once more. */
    method RetryPane(ci: CardInfo)
      requires QueueOk() && rendering && |pending| > 0 && pending[0] == ci && ci.InStep() && ci.attempts < MAX_ATTEMPTS
      requires !pump && !feed && !backstop && !quiet && !fed
      modifies `pump, ci`attempts
      ensures Valid() && pump && Before(Measure(), old(Measure())) && ci.attempts == old(ci.attempts) + 1
    {
      hide Retries, NoDup;
      RetriesOf(pending);
      ci.attempts := ci.attempts + 1;
      pump := true;
      RetriesOf(pending);
    }

    /** The pane is recorded, and the next one's turn, or the card is composed. */
    method PassPane(a: Answer)
      requires QueueOk() && rendering && |pending| > 0 && pending[0].InStep()
      requires !pump && !feed && !backstop && !quiet && !fed && (a.w <= 0 || a.h <= 0 ==> pending[0].attempts >= MAX_ATTEMPTS)
      modifies this, pending
      ensures Valid() && Before(Measure(), old(Measure())) && PaneDone(a)
      ensures forall c :: c in old(pending) ==> old(c.attempts) <= c.attempts <= MAX_ATTEMPTS
    {
      hide Retries, NoDup, Drawable;
      var ci := pending[0];
      RetriesOf(pending);
      Commit(ci, a.w > 0 && a.h > 0);
      RetriesOf(pending);
      if ci.curLeaf < |ci.leaves| {
        pump := true;
        return;
      }
      FinishCard(a);
    }

    lemma RetriesOf(s: seq<CardInfo>)
      requires |s| > 0
      ensures Retries(s) == (if s[0].attempts < MAX_ATTEMPTS then MAX_ATTEMPTS - s[0].attempts else 0) + Retries(s[1..])
      ensures NoDup(s) ==> s[0] !in s[1..] && NoDup(s[1..])
    {
    }

    /** The pane is done: one more entry and one more signature. */
    method Commit(ci: CardInfo, captured: bool)
      modifies ci`nodes, ci`sig, ci`sigPanes, ci`curLeaf
      ensures ci.nodes == old(ci.nodes) + [captured] && ci.sig == old(ci.sig) + [paneSig]
      ensures ci.sigPanes == old(ci.sigPanes) + 1 && ci.curLeaf == old(ci.curLeaf) + 1
    {
      ci.nodes := ci.nodes + [captured];
      ci.sig := ci.sig + [paneSig];
      ci.sigPanes := ci.sigPanes + 1;
      ci.curLeaf := ci.curLeaf + 1;
    }

    /** Every pane of the head card is done: compose it and go on. */
    method FinishCard(a: Answer)
      requires QueueOk() && rendering && |pending| > 0 && !pump && !feed && !backstop && !quiet && !fed
      requires var ci := pending[0]; |ci.nodes| == |ci.leaves| == |ci.sig| == ci.sigPanes
      modifies this, pending
      ensures Valid()
      ensures Retries(pending) <= old(Retries(pending))
      ensures Retries(pending) == old(Retries(pending)) ==> |pending| < |old(pending)|
      ensures composed == old(composed) + {old(pending)[0]}
      ensures forall c :: c in old(pending)[1..] ==> c in pending
      ensures forall c :: c in pending ==> c in old(pending)
      ensures forall c :: c in old(pending) ==> old(c.attempts) <= c.attempts <= MAX_ATTEMPTS
      ensures CardDone(a, old(pending[0].nodes), old(pending[0].sig))
    {
      hide Retries, QueueOk;
      PopAndCompose(a);
      assert forall k :: 0 <= k < |pending| ==> pending[k] in old(pending);
      Pump();
    }

    /** The head card leaves the queue and is composed. Its signature, one entry
        a pane, is recorded when a texture came of it. */
    method PopAndCompose(a: Answer)
      requires QueueOk() && |pending| > 0
      requires var ci := pending[0]; |ci.nodes| == |ci.leaves| == |ci.sig| == ci.sigPanes
      modifies `pending, `composed, `thumbSig, pending
      ensures QueueOk()
      ensures Retries(pending) <= old(Retries(pending))
      ensures Retries(pending) == old(Retries(pending)) ==> |pending| < |old(pending)|
      ensures composed == old(composed) + {old(pending)[0]}
      ensures forall c :: c in old(pending)[1..] ==> c in pending
      ensures forall c :: c in pending ==> c in old(pending)
      ensures forall c :: c in old(pending) ==> old(c.attempts) <= c.attempts <= MAX_ATTEMPTS
      ensures CardDone(a, old(pending[0].nodes), old(pending[0].sig))
    {
      hide Retries, Drawable;
      var ci := pending[0];
      RetriesOf(pending);
      pending := pending[1..];
      Compose(ci, a);
      RetriesAppend(old(pending)[1..], ci);
      if ci.rendered && ci.sigPanes == |ci.leaves| {
        thumbSig := thumbSig[ci.cacheKey := ci.sig];
      }
    }

    /** Put the captured panes together. A card of which nothing could be drawn
        goes back on the queue while it has attempts left. */
    method Compose(ci: CardInfo, a: Answer)
      requires ci !in pending
      modifies `pending, `composed, ci
      ensures composed == old(composed) + {ci}
      ensures ci.sig == old(ci.sig) && ci.sigPanes == old(ci.sigPanes) && ci.nodes == []
      ensures var tried := a.hasRenderer && old(ci.nodes) != [];
        (ci.rendered <==> old(ci.rendered) || (tried && Drawable(ci, old(ci.nodes), a) && a.textured)) &&
        (if tried && !Drawable(ci, old(ci.nodes), a) && old(ci.attempts) < MAX_ATTEMPTS
         then pending == old(pending) + [ci] && ci.attempts == old(ci.attempts) + 1
         else pending == old(pending) && ci.attempts == old(ci.attempts))
    {
      composed := composed + {ci};
      if !a.hasRenderer || |ci.nodes| == 0 {
        ci.nodes := [];
        return;
      }
      var drawn := 0;
      var i := 0;
      while i < |ci.nodes| && i < |ci.leaves|
        invariant 0 <= i <= |ci.nodes| && i <= |ci.leaves|
        invariant drawn > 0 <==> exists k :: 0 <= k < i && ci.nodes[k] && a.extent(k)
      {
        if ci.nodes[i] && a.extent(i) {
          drawn := drawn + 1;
        }
        i := i + 1;
      }
      if drawn == 0 {
        ci.nodes := [];
        ci.curLeaf := 0;
        if ci.attempts < MAX_ATTEMPTS {
          ci.attempts := ci.attempts + 1;
          pending := pending + [ci];
        }
        return;
      }
      if a.textured {
        ci.rendered := true;
      }
      ci.nodes := [];
    }

    /** Whatever happens on the terminal before the next timer of the chain fires:
        changes, and quiet periods that end. It stops once the chain has moved. */
    method Bustle(noise: seq<Noise>, a: Answer) returns (moved: bool)
      requires Valid()
      modifies this, pending
      ensures Valid()
      ensures if moved then Before(Measure(), old(Measure())) else Measure() == old(Measure()) && rendering == old(rendering)
      ensures old(composed) <= composed
      ensures forall c :: c in old(pending) && c !in composed ==> c in pending
      ensures forall c :: c in pending ==> c in old(pending)
      ensures forall c :: c in old(pending) ==> old(c.attempts) <= c.attempts <= MAX_ATTEMPTS
    {
      moved := false;
      var k := 0;
      while k < |noise| && !moved
        invariant Valid()
        invariant if moved then Before(Measure(), old(Measure())) else
                    Measure() == old(Measure()) && rendering == old(rendering) && pending == old(pending) && composed == old(composed)
        invariant old(composed) <= composed
        invariant forall c :: c in old(pending) && c !in composed ==> c in pending
        invariant forall c :: c in pending ==> c in old(pending)
        invariant forall c :: c in old(pending) ==> old(c.attempts) <= c.attempts <= MAX_ATTEMPTS
      {
        if noise[k].Changed? {
          ContentsChanged();
        } else if quiet {
          moved := !(fedLen > 0 && noise[k].blank);
          FinishQuiet(noise[k].blank, a);
        }
        k := k + 1;
      }
    }

    /** The one armed timer of the chain fires. */
    method Tick(peek: Peek, a: Answer)
      requires Valid() && rendering
      modifies this, pending
      ensures Valid() && Before(Measure(), old(Measure()))
      ensures if old(backstop) then PaneDone(a) else pending == old(pending) && if old(pump) then feed || backstop else backstop
      ensures backstop && !old(backstop) ==> paneSig == peek.sig && fedLen == peek.len
      ensures old(composed) <= composed
      ensures forall c :: c in old(pending) && c !in composed ==> c in pending
      ensures forall c :: c in pending ==> c in old(pending)
      ensures forall c :: c in old(pending) ==> old(c.attempts) <= c.attempts <= MAX_ATTEMPTS
    {
      if pump {
        Start(peek);
      } else if feed {
        Feed(peek);
      } else {
        Finish(a);
      }
    }

    /** Let the chain run, with no card added, whatever the timers are answered and
        however the terminal's changes and quiet periods fall between them: it ends
        with an empty queue, having composed every queued card, and no card was
        retried more than the limit. */
    method Run(peeks: nat -> Peek, answers: nat -> Answer, noise: nat -> seq<Noise>)
      requires Valid()
      modifies this, pending
      ensures Valid() && !rendering && pending == [] && !pump && !feed && !backstop && !quiet
      ensures forall c :: c in old(pending) ==> c in composed && old(c.attempts) <= c.attempts <= MAX_ATTEMPTS
    {
      var i := 0;
      while rendering
        invariant Valid()
        invariant forall c :: c in pending ==> c in old(pending)
        invariant forall c :: c in old(pending) ==> c in pending || c in composed
        invariant forall c :: c in old(pending) ==> old(c.attempts) <= c.attempts <= MAX_ATTEMPTS
        decreases Measure().0, Measure().1, Measure().2, Measure().3
      {
        assert forall k :: 0 <= k < |pending| ==> pending[k] in old(pending);
        ghost var was := pending;
        var moved := Bustle(noise(i), answers(i));
        if !moved {
          assert forall k :: 0 <= k < |pending| ==> pending[k] in was;
          Tick(peeks(i), answers(i));
        }
        i := i + 1;
      }
    }
  }

  /** Some pane was captured with an extent. */
  ghost predicate Drawable(ci: CardInfo, nodes: seq<bool>, a: Answer) {
    exists k :: 0 <= k < |nodes| && k < |ci.leaves| && nodes[k] && a.extent(k)
  }
}
