/** The two ends the daemon shuttles bytes between: a client connection
    (conn_queue and conn_flush of src/daemon/server.c) and a session's keyboard
    queue (src/daemon/session.c).

    The outcome of every system call and allocation is a parameter. A list of
    write outcomes drives a write loop; when the list runs out the descriptor is
    taken to block. */
module Endpoints {
  import opened Bytes
  import opened Framing
  import opened Wire
  import Ring

  const MAX_WBUF: nat := 8 * 1024 * 1024

  datatype WriteOutcome = Accepted(n: nat) | WouldBlock | Interrupted | Broken

  /** How many of `left` pending bytes a write loop hands over, and whether it
      ended on an error. A write that accepts 0 bytes counts as an error. */
  function Drain(left: nat, ws: seq<WriteOutcome>): (r: (nat, bool))
    ensures r.0 <= left
    decreases |ws|
  {
    if left == 0 || ws == [] then (0, false)
    else match ws[0]
      case WouldBlock => (0, false)
      case Interrupted => Drain(left, ws[1..])
      case Broken => (0, true)
      case Accepted(n) =>
        if n == 0 then (0, true)
        else
          var k := if n < left then n else left;
          var (more, bad) := Drain(left - k, ws[1..]);
          (k + more, bad)
  }

  // --- the same from the outcomes alone ---

  /** The write takes something, or is tried again: the loop goes on. */
  predicate GoesOn(w: WriteOutcome) {
    w == Interrupted || (w.Accepted? && w.n > 0)
  }

  /** Everything accepted ahead of the first outcome that ends a loop. */
  function Offer(ws: seq<WriteOutcome>): nat {
    if ws == [] || !GoesOn(ws[0]) then 0 else (if ws[0].Accepted? then ws[0].n else 0) + Offer(ws[1..])
  }

  /** The first outcome that ends a loop is an error. */
  ghost predicate Fails(ws: seq<WriteOutcome>) {
    exists i :: 0 <= i < |ws| && (ws[i] == Broken || ws[i] == Accepted(0)) && forall j :: 0 <= j < i ==> GoesOn(ws[j])
  }

  function Least(a: nat, b: nat): nat {
    if a < b then a else b
  }

  lemma FailsFirst(ws: seq<WriteOutcome>)
    ensures ws == [] ==> !Fails(ws)
    ensures ws != [] ==> (Fails(ws) <==> ws[0] == Broken || ws[0] == Accepted(0) || (GoesOn(ws[0]) && Fails(ws[1..])))
  {
    if ws != [] && GoesOn(ws[0]) && Fails(ws[1..]) {
      var i :| 0 <= i < |ws[1..]| && (ws[1..][i] == Broken || ws[1..][i] == Accepted(0)) && forall j :: 0 <= j < i ==> GoesOn(ws[1..][j]);
      assert ws[i + 1] == ws[1..][i] && forall j :: 1 <= j < i + 1 ==> ws[j] == ws[1..][j - 1];
    }
    if ws != [] && GoesOn(ws[0]) && Fails(ws) {
      var i :| 0 <= i < |ws| && (ws[i] == Broken || ws[i] == Accepted(0)) && forall j :: 0 <= j < i ==> GoesOn(ws[j]);
      assert ws[1..][i - 1] == ws[i] && forall j :: 0 <= j < i - 1 ==> ws[1..][j] == ws[j + 1];
    }
  }

  /** A write loop hands over what is offered as far as there is something left,
      and ends on an error exactly if it meets one with bytes left. */
  lemma {:induction false} DrainOffers(left: nat, ws: seq<WriteOutcome>)
    ensures Drain(left, ws).0 == Least(left, Offer(ws))
    ensures Drain(left, ws).1 <==> Offer(ws) < left && Fails(ws)
    decreases |ws|
  {
    hide Fails;
    FailsFirst(ws);
    if ws != [] && left != 0 && GoesOn(ws[0]) {
      DrainOffers(left - if ws[0].Accepted? then Least(left, ws[0].n) else 0, ws[1..]);
    }
  }

  /** No write in the list fails. */
  ghost predicate Clean(ws: seq<WriteOutcome>) {
    forall w <- ws :: w != Broken && w != Accepted(0)
  }

  lemma {:induction false} CleanDrains(left: nat, ws: seq<WriteOutcome>)
    requires Clean(ws)
    ensures !Drain(left, ws).1
    decreases |ws|
  {
    if left != 0 && ws != [] {
      assert ws[0] in ws && forall w <- ws[1..] :: w in ws;
      CleanDrains(left, ws[1..]);
      if ws[0].Accepted? {
        CleanDrains(left - if ws[0].n < left then ws[0].n else left, ws[1..]);
      }
    }
  }

  class Connection {
    var isData: bool
    var wantClose: bool
    var session: Session?
    var rbuf: seq<byte>
    var wbuf: seq<byte>
    var wpos: nat

    /** Every byte conn_queue has accepted, and every byte write has taken. */
    ghost var queued: seq<byte>
    ghost var sent: seq<byte>
    /** Some output byte was refused for lack of memory. */
    ghost var lossy: bool

    /** Inbound history: everything received; the part of it that has been cut
        into frames; the frames themselves; and, once this is a data connection,
        the raw bytes that followed the ATTACH frame. While conn_read is at work
        the first `used` bytes of rbuf are already dispatched or handed on. */
    ghost var received: seq<byte>
    ghost var consumed: seq<byte>
    ghost var frames: seq<Frame>
    ghost var raw: seq<byte>
    ghost var reading: bool
    ghost var used: nat

    /** Where the raw output begins in `queued`; the index in the session's output
        it starts from; the output and input lengths when this client joined; and
        whether a failed allocation cut the replay short. */
    ghost var mark: nat
    ghost var start: nat
    ghost var joinedAt: nat
    ghost var typedStart: nat
    ghost var shortReplay: bool
    /** The ATTACHED frame that stands right ahead of the raw output. */
    ghost var head: seq<byte>
    ghost var freed: bool

    constructor ()
      ensures Fresh()
    {
      isData, wantClose, session := false, false, null;
      rbuf, wbuf, wpos := [], [], 0;
      queued, sent, lossy := [], [], false;
      received, consumed, frames, raw, reading, used := [], [], [], [], false, 0;
      mark, start, joinedAt, typedStart, shortReplay, head, freed := 0, 0, 0, 0, false, [], false;
    }

    ghost predicate Fresh()
      reads this
    {
      !isData && !wantClose && session == null && !freed && !lossy && wpos == 0 && !reading && used == 0
      && rbuf == wbuf == queued == sent == received == consumed == raw == head == [] && frames == []
      && mark == start == joinedAt == typedStart == 0 && !shortReplay
    }

    function Pending(): seq<byte>
      requires wpos <= |wbuf|
      reads `wbuf, `wpos
    {
      wbuf[wpos..]
    }

    /** Sent and pending bytes together are exactly what was queued. */
    ghost predicate OutOk()
      reads `wbuf, `wpos, `queued, `sent
    {
      wpos <= |wbuf| && queued == sent + Pending()
    }

    /** Every byte received is in exactly one dispatched frame, in order, or comes
        after all of them: handed on raw, or still buffered. */
    ghost predicate CutOk()
      reads `isData, `received, `consumed, `frames, `raw, `rbuf, `used
    {
      used <= |rbuf| && Parse(consumed) == (frames, [])
      && received == consumed + raw + rbuf[used..] && (!isData ==> raw == [])
    }

    /** Only a connection that is to be closed has ever lost an output byte, or
        holds back a complete or an illegal frame between reads; a raw channel
        holds back nothing. */
    ghost predicate OpenOk()
      reads `wantClose, `isData, `lossy, `rbuf, `reading, `used
    {
      && (!wantClose ==> !lossy)
      && (!reading ==> used == 0 && if isData then rbuf == [] else !wantClose ==> Waiting(rbuf))
    }

    /** The frames dispatched and the bytes left over are a function of the
        received bytes alone: those of parsing them all at once. */
    lemma ReceivedParsed()
      requires CutOk() && used == 0 && !isData
      ensures Parse(received) == (frames + Parse(rbuf).0, Parse(rbuf).1)
      ensures Waiting(rbuf) ==> Parse(received) == (frames, rbuf) && |rbuf| < 4 + MAX_FRAME
    {
      ParseAppend(consumed, rbuf);
      assert consumed + [] + rbuf[0..] == consumed + rbuf;
      assert [] + rbuf == rbuf;
      assert frames + [] == frames;
    }

    /** No received byte is lost, repeated or reordered. */
    lemma ReceivedSpelled()
      requires CutOk()
      ensures received == Flatten(frames) + raw + rbuf[used..]
    {
      ParseKeepsBytes(consumed);
      assert Flatten(frames) + [] == consumed;
    }

    /** The start of a control read: new bytes join the inbound buffer. */
    method Accumulate(bytes: seq<byte>)
      requires CutOk() && OpenOk() && !isData && !reading
      modifies `rbuf, `received, `reading
      ensures CutOk() && OpenOk() && reading && used == 0
      ensures rbuf == old(rbuf) + bytes && received == old(received) + bytes
    {
      rbuf := rbuf + bytes;
      received := received + bytes;
      reading := true;
      assert consumed + raw + rbuf[0..] == consumed + raw + old(rbuf)[0..] + bytes;
    }

    /** The frame standing at the front of the undispatched bytes is about to be
        dispatched. */
    ghost method CutFrame()
      requires CutOk() && OpenOk() && reading && !isData && Ready(rbuf[used..])
      modifies `frames, `consumed, `used
      ensures CutOk() && OpenOk() && frames == old(frames) + [FrontFrame(old(rbuf[used..]))]
      ensures used == old(used) + FrontSize(old(rbuf[used..]))
    {
      hide Parse, Ready, FrontSize, FrontFrame;
      var front := rbuf[used..];
      var n := FrontSize(front);
      CutStep(consumed, frames, front);
      assert rbuf[used..][n..] == rbuf[used + n..];
      assert consumed + [] + front == consumed + front[..n] + [] + front[n..];
      frames := frames + [FrontFrame(front)];
      consumed := consumed + front[..n];
      used := used + n;
    }

    /** The end of a control read: dispatched bytes leave the buffer. */
    method Trim(n: nat)
      requires CutOk() && OpenOk() && reading && !isData && n == used
      requires !wantClose ==> Waiting(rbuf[n..])
      modifies `rbuf, `reading, `used
      ensures CutOk() && OpenOk() && !reading && rbuf == old(rbuf[n..])
    {
      if n > 0 {
        rbuf := rbuf[n..];
      }
      used := 0;
      reading := false;
      assert rbuf[0..] == rbuf;
    }

    /** The inbound buffer is released once the connection is a raw channel. */
    method DropInbound()
      requires CutOk() && OpenOk() && isData && used == |rbuf|
      modifies `rbuf, `reading, `used
      ensures CutOk() && OpenOk() && !reading && rbuf == []
    {
      rbuf := [];
      used := 0;
      reading := false;
    }

    /** Raw bytes leave this connection: those buffered behind the ATTACH frame
        while that read is at work, those just received otherwise. */
    ghost method HandOn(data: seq<byte>)
      requires CutOk() && OpenOk() && isData && (reading ==> data == rbuf[used..])
      modifies `raw, `received, `used
      ensures CutOk() && OpenOk() && raw == old(raw) + data
      ensures if reading then received == old(received) && used == |rbuf| else received == old(received) + data && used == old(used)
    {
      raw := raw + data;
      if reading {
        used := |rbuf|;
        assert consumed + (old(raw) + data) + [] == consumed + old(raw) + data;
      } else {
        received := received + data;
        assert consumed + old(raw) + [] + data == consumed + (old(raw) + data) + [];
      }
    }

    /** A control connection turns into a raw channel: what is buffered behind the
        frames cut off so far is about to be handed on. */
    method BecomeData()
      requires CutOk() && OpenOk() && !isData && reading
      modifies `isData
      ensures CutOk() && OpenOk() && isData && raw == []
    {
      isData := true;
    }

    /** conn_queue. */
    method Queue(data: seq<byte>, allocOk: bool)
      requires OutOk()
      modifies `wbuf, `wpos, `wantClose, `queued, `lossy
      ensures OutOk()
      ensures queued == (if allocOk then old(queued) + data else old(queued)) && sent == old(sent)
      ensures Pending() == if allocOk then old(Pending()) + data else old(Pending())
      ensures lossy == (old(lossy) || (!allocOk && data != []))
      ensures wantClose == (old(wantClose) || (data != [] && (!allocOk || |Pending()| > MAX_WBUF)))
    {
      if data == [] {
        return;
      }
      if wpos > 0 {
        wbuf := wbuf[wpos..];
        wpos := 0;
      }
      if !allocOk {
        wantClose := true;
        lossy := true;
        return;
      }
      wbuf := wbuf + data;
      queued := queued + data;
      if |wbuf| - wpos > MAX_WBUF {
        wantClose := true;
      }
    }

    /** conn_flush. */
    method Flush(ws: seq<WriteOutcome>)
      requires OutOk()
      modifies `wbuf, `wpos, `wantClose, `sent
      ensures OutOk()
      ensures sent == old(sent) + old(Pending())[..Drain(|old(Pending())|, ws).0]
      ensures wantClose == (old(wantClose) || Drain(|old(Pending())|, ws).1)
      ensures Drain(|old(Pending())|, ws) == (|old(Pending())|, false) ==> wbuf == [] && wpos == 0
      ensures var pend, n := old(Pending()), Least(|old(Pending())|, Offer(ws)); sent == old(sent) + pend[..n] && Pending() == pend[n..]
      ensures wantClose == (old(wantClose) || (Offer(ws) < |old(Pending())| && Fails(ws)))
    {
      hide Fails;
      ghost var pend := Pending();
      DrainOffers(|pend|, ws);
      var bad := WriteLoop(ws);
      sent := sent + pend[..Drain(|pend|, ws).0];
      assert Pending() == pend[Drain(|pend|, ws).0..];
      if bad {
        wantClose := true;
        return;
      }
      if wpos == |wbuf| {
        wbuf, wpos := [], 0;
      }
    }

    /** The write loop of conn_flush; the result says whether it met an error. */
    method WriteLoop(ws: seq<WriteOutcome>) returns (bad: bool)
      requires wpos <= |wbuf|
      modifies `wpos
      ensures (wpos - old(wpos), bad) == Drain(|wbuf| - old(wpos), ws)
    {
      var i := 0;
      ghost var first := wpos;
      while wpos < |wbuf| && i < |ws|
        invariant i <= |ws| && first <= wpos <= |wbuf|
        invariant Drain(|wbuf| - first, ws) == (wpos - first + Drain(|wbuf| - wpos, ws[i..]).0, Drain(|wbuf| - wpos, ws[i..]).1)
      {
        match ws[i] {
        case Accepted(n) =>
          if n == 0 {
            return true;
          }
          wpos := wpos + if n < |wbuf| - wpos then n else |wbuf| - wpos;
        case WouldBlock =>
          return false;
        case Interrupted =>
        case Broken =>
          return true;
        }
        i := i + 1;
      }
      return false;
    }
  }

  class Session {
    const id: nat
    const pid: nat
    const createdAt: nat
    const cwd: cstring
    const out: Ring.Ring
    var gid: nat
    var ptyOpen: bool
    var alive: bool
    var killing: bool
    var removed: bool
    var defunct: bool
    var pin: seq<byte>
    var client: Connection?

    /** Everything the PTY has ever put out. */
    ghost var output: seq<byte>
    /** Everything clients have typed at this session, what the PTY has taken, and
        whether any of it had to be discarded. */
    ghost var typed: seq<byte>
    ghost var taken: seq<byte>
    ghost var inputLost: bool
    ghost var freed: bool

    /** epi_session_spawn on success; the caller numbers the session. */
    constructor (id: nat, pid: nat, createdAt: nat, cwd: cstring, ring: Ring.Ring)
      ensures this.id == id && this.pid == pid && this.createdAt == createdAt && this.cwd == cwd && out == ring
      ensures gid == 0 && ptyOpen && alive && !killing && !removed && !defunct && !freed && client == null
      ensures pin == typed == taken == output == [] && !inputLost
    {
      this.id, this.pid, this.createdAt, this.cwd, out := id, pid, createdAt, cwd, ring;
      gid, ptyOpen, alive, killing, removed, defunct := 0, true, true, false, false, false;
      pin, client := [], null;
      output, typed, taken, inputLost, freed := [], [], [], false, false;
    }

    /** The ring remembers the newest output, up to the ceiling. */
    ghost predicate RingOk()
      reads `output, out, out.buf
    {
      out.Valid() && out.maxCap == Ring.RING_CAP && out.written == output
    }

    /** One chunk of PTY output goes into the ring. */
    method Emit(chunk: seq<byte>, allocOk: bool)
      requires RingOk()
      modifies `output, out, out.buf
      ensures RingOk() && output == old(output) + chunk
      ensures out.buf == old(out.buf) || fresh(out.buf)
      ensures (old(out.starved) ==> out.starved) && (allocOk ==> out.starved == old(out.starved))
    {
      hide Ring.Ring.Valid;
      out.Write(chunk, allocOk);
      output := output + chunk;
    }

    /** Unless something was discarded, the PTY's share and the queue together
        are everything typed, in order and once. */
    ghost predicate InOk()
      reads `inputLost, `typed, `taken, `pin
    {
      !inputLost ==> typed == taken + pin
    }

    /** The PTY has taken of `all`, on top of what it had, what the outcomes offer;
        the rest waits, unless a write has failed ahead of it. */
    ghost predicate Typed(all: seq<byte>, had: seq<byte>, lost: bool, ws: seq<WriteOutcome>)
      reads `pin, `taken, `inputLost
    {
      var k, bad := Least(|all|, Offer(ws)), Offer(ws) < |all| && Fails(ws);
      taken == had + all[..k] && pin == (if bad then [] else all[k..]) && inputLost == (lost || bad)
    }

    /** epi_session_flush_input. */
    method FlushInput(ws: seq<WriteOutcome>)
      requires InOk()
      modifies `pin, `taken, `inputLost
      ensures InOk()
      ensures old(ptyOpen) ==> var (k, bad) := Drain(|old(pin)|, ws);
        taken == old(taken) + old(pin)[..k]
        && pin == (if bad then [] else old(pin)[k..])
        && inputLost == (old(inputLost) || bad)
      ensures old(ptyOpen) ==> Typed(old(pin), old(taken), old(inputLost), ws)
      ensures !old(ptyOpen) ==> pin == [] && taken == old(taken) && inputLost == (old(inputLost) || old(pin) != [])
    {
      hide Fails;
      DrainOffers(|pin|, ws);
      if !ptyOpen {
        inputLost := inputLost || pin != [];
        pin := [];
        return;
      }
      var off, i := 0, 0;
      ghost var total := Drain(|pin|, ws);
      ghost var bad := false;
      while off < |pin| && i < |ws|
        invariant off <= |pin| && i <= |ws| && !bad
        invariant total == (off + Drain(|pin| - off, ws[i..]).0, Drain(|pin| - off, ws[i..]).1)
      {
        match ws[i] {
        case Accepted(n) =>
          if n == 0 {
            bad := true;
            off := |pin|;
            break;
          }
          off := off + if n < |pin| - off then n else |pin| - off;
        case WouldBlock =>
          break;
        case Interrupted =>
        case Broken =>
          bad := true;
          off := |pin|;
          break;
        }
        i := i + 1;
      }
      taken := taken + pin[..total.0];
      inputLost := inputLost || bad;
      if off > 0 {
        pin := pin[off..];
      }
    }

    /** epi_session_queue_input. */
    method QueueInput(data: seq<byte>, allocOk: bool, ws: seq<WriteOutcome>)
      requires InOk()
      modifies `pin, `typed, `taken, `inputLost
      ensures InOk()
      ensures typed == old(typed) + data
      ensures data == [] ==> unchanged(`pin, `taken, `inputLost)
      ensures data != [] && !allocOk ==> unchanged(`pin, `taken) && inputLost
      ensures data != [] && allocOk && !ptyOpen ==> pin == [] && taken == old(taken) && inputLost
      ensures data != [] && allocOk && ptyOpen ==> var all := old(pin) + data;
        var (k, bad) := Drain(|all|, ws);
        taken == old(taken) + all[..k] && pin == (if bad then [] else all[k..]) && inputLost == (old(inputLost) || bad)
      ensures data != [] && allocOk && ptyOpen ==> Typed(old(pin) + data, old(taken), old(inputLost), ws)
    {
      hide Fails;
      typed := typed + data;
      if data == [] {
        return;
      }
      if !allocOk {
        inputLost := true;
        return;
      }
      pin := pin + data;
      FlushInput(ws);
    }
  }
}
