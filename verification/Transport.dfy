/** One device transport: a lock, a closed flag, and what has been put on the socket.

    An operation asks for the lock and starts at once if the lock is free and nobody waits; otherwise it
    queues.  Starting is where the closed flag is read and written and where the socket call begins. */
module Transport {
  import opened Domain

  datatype Frame = Hello | Ready | Ping | Ack | Execute(ticket: nat) | Rejected | ProtocolError

  datatype Actor = Handler | Heartbeat | Evictor | Sender(ticket: nat)

  datatype Request = Send(frame: Frame) | Close

  /** `sent` is every frame whose send has started; each close that reached the socket left in `closes`
      the number of frames sent before it. */
  datatype Wire = Wire(
    busy: Option<Actor>, queue: map<Actor, Request>, closed: bool, sent: seq<Frame>, closes: seq<nat>)

  const UNUSED := Wire(None, map[], false, [], [])

  predicate Idle(w: Wire) {
    w.busy.None? && w.queue == map[]
  }

  predicate Uses(w: Wire, a: Actor) {
    a in w.queue || w.busy == Some(a)
  }

  /** The lock is obtained: a closed transport refuses a send and ignores a second close. */
  function Start(w: Wire, a: Actor, r: Request): Wire {
    if w.closed then w
    else
      match r
      case Send(f) => w.(busy := Some(a), sent := w.sent + [f])
      case Close => w.(busy := Some(a), closed := true, closes := w.closes + [|w.sent|])
  }

  function Ask(w: Wire, a: Actor, r: Request): Wire {
    if Idle(w) then Start(w, a, r) else w.(queue := w.queue[a := r])
  }

  function Obtain(w: Wire, a: Actor): Wire
    requires a in w.queue
  {
    Start(w.(queue := w.queue - {a}), a, w.queue[a])
  }

  function Done(w: Wire): Wire {
    w.(busy := None)
  }

  /** The actor is cancelled wherever it is. */
  function Withdraw(w: Wire, a: Actor): Wire {
    w.(queue := w.queue - {a}, busy := if w.busy == Some(a) then None else w.busy)
  }

  /** At most one close, and no frame after it. */
  predicate Sound(w: Wire) {
    && w.closed == (w.closes != [])
    && (w.closes == [] || w.closes == [|w.sent|])
    && (w.busy.Some? ==> w.busy.value !in w.queue)
  }

  lemma WireStaysSound(w: Wire, a: Actor, r: Request)
    requires Sound(w)
    ensures !Uses(w, a) ==> Sound(Ask(w, a, r))
    ensures a in w.queue && w.busy.None? ==> Sound(Obtain(w, a))
    ensures Sound(Done(w)) && Sound(Withdraw(w, a))
    ensures w.closed ==> Start(w, a, r) == w
  {}

  /** Obtaining the lock, field by field: the frame is put on the socket, or the close after the frames so far; a
      transport that is closed does neither and gives the lock back. */
  lemma StartEffect(w: Wire, a: Actor, r: Request)
    ensures w.closed ==> Start(w, a, r) == w
    ensures !w.closed && r.Send? ==> Start(w, a, r) == Wire(Some(a), w.queue, false, w.sent + [r.frame], w.closes)
    ensures !w.closed && r == Close ==> Start(w, a, r) == Wire(Some(a), w.queue, true, w.sent, w.closes + [|w.sent|])
  {}

  /** Asking for the lock starts at once exactly if nobody has it or waits for it. */
  lemma AskEffect(w: Wire, a: Actor, r: Request)
    ensures Ask(w, a, r) ==
      if w.busy.None? && w.queue == map[] then Start(w, a, r)
      else Wire(w.busy, w.queue[a := r], w.closed, w.sent, w.closes)
  {}

  lemma LeaveEffect(w: Wire, a: Actor)
    ensures Done(w) == Wire(None, w.queue, w.closed, w.sent, w.closes)
    ensures Withdraw(w, a) ==
      Wire(if w.busy == Some(a) then None else w.busy, w.queue - {a}, w.closed, w.sent, w.closes)
    ensures a in w.queue ==>
      Obtain(w, a) == Start(Wire(w.busy, w.queue - {a}, w.closed, w.sent, w.closes), a, w.queue[a])
  {}

  /** The transport object; each method is the body run under the send lock. */
  class WebSocketTransport {
    var closed: bool
    var sent: seq<Frame>
    ghost var closes: seq<nat>

    ghost predicate Matches(w: Wire)
      reads this
    {
      closed == w.closed && sent == w.sent && closes == w.closes
    }

    constructor ()
      ensures Matches(UNUSED)
    {
      closed, sent, closes := false, [], [];
    }

    method SendMessage(f: Frame) returns (started: bool)
      modifies this
      ensures started == !old(closed)
      ensures forall w, a :: old(Matches(w)) ==> Matches(Start(w, a, Send(f)))
    {
      started := !closed;
      if started {
        sent := sent + [f];
      }
    }

    method Close() returns (issued: bool)
      modifies this
      ensures issued == !old(closed)
      ensures forall w, a :: old(Matches(w)) ==> Matches(Start(w, a, Request.Close))
    {
      issued := !closed;
      if issued {
        closed := true;
        closes := closes + [|sent|];
      }
    }
  }
}
