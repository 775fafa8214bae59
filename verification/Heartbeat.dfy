/** The heartbeat task and the reader task of one connection, sharing a nonce and an event. */
module Heartbeat {
  import opened Domain

  /** Where the heartbeat loop suspends; `Ended` after a timeout, a failed send or a cancellation. */
  datatype Beat = Sleeping | Pinging(nonce: Id) | AwaitingPong(nonce: Id) | Ended

  /** The reader suspends inside mark_seen between checking a pong's nonce and clearing it. */
  datatype Reader = Reading | Marking(nonce: Id) | Stopped

  /** `sent` and `accepted` record the nonces of all pings and of all pongs whose check passed. */
  datatype Pulse = Pulse(nonce: Option<Id>, event: bool, beat: Beat, reader: Reader, sent: seq<Id>, accepted: seq<Id>)

  const INITIAL := Pulse(None, false, Sleeping, Reading, [], [])

  datatype Event =
    | Wake(drawn: Id) | PingWritten | PingFailed | PongSeen | TimedOut | CancelBeat
    | Pong(nonce: Id) | Marked | StopReader

  predicate Enabled(p: Pulse, e: Event) {
    match e
    case Wake(n) => p.beat.Sleeping? && n !in p.sent
    case PingWritten => p.beat.Pinging?
    case PingFailed => p.beat.Pinging?
    case PongSeen => p.beat.AwaitingPong? && p.event
    case TimedOut => p.beat.AwaitingPong?
    case CancelBeat => !p.beat.Ended?
    case Pong(_) => p.reader.Reading?
    case Marked => p.reader.Marking?
    case StopReader => !p.reader.Stopped?
  }

  function Next(p: Pulse, e: Event): Pulse
    requires Enabled(p, e)
  {
    match e
    case Wake(n) => p.(event := false, nonce := Some(n), beat := Pinging(n), sent := p.sent + [n])
    case PingWritten => p.(beat := if p.event then Sleeping else AwaitingPong(p.beat.nonce))
    case PingFailed => p.(beat := Ended)
    case PongSeen => p.(beat := Sleeping)
    case TimedOut => p.(beat := Ended)
    case CancelBeat => p.(beat := Ended)
    case Pong(n) =>
      if p.nonce != Some(n) then p.(reader := Stopped)
      else p.(reader := Marking(n), accepted := p.accepted + [n])
    case Marked => p.(nonce := None, event := true, reader := Reading)
    case StopReader => p.(reader := Stopped)
  }

  ghost predicate Distinct(s: seq<Id>) {
    forall i, j :: 0 <= i < j < |s| ==> s[i] != s[j]
  }

  predicate Latest(sent: seq<Id>, n: Id) {
    sent != [] && sent[|sent| - 1] == n
  }

  ghost predicate Inv(p: Pulse) {
    && (p.beat.Sleeping? ==> p.nonce.None?)
    && ((p.beat.Pinging? || p.beat.AwaitingPong?) ==>
          (p.event <==> p.nonce.None?) && Latest(p.sent, p.beat.nonce))
    && (p.nonce.Some? ==> Latest(p.sent, p.nonce.value))
    && (p.reader.Marking? ==> p.nonce == Some(p.reader.nonce))
    && Distinct(p.sent)
    && Distinct(p.accepted)
    && (forall n <- p.accepted :: n in p.sent)
    && (p.reader.Reading? && p.nonce.Some? ==> p.nonce.value !in p.accepted)
  }

  lemma InvPreserved(p: Pulse, e: Event)
    requires Inv(p) && Enabled(p, e)
    ensures Inv(Next(p, e))
  {}

  ghost predicate IsRun(ps: seq<Pulse>, es: seq<Event>) {
    && |ps| == |es| + 1
    && ps[0] == INITIAL
    && forall i :: 0 <= i < |es| ==> Enabled(ps[i], es[i]) && ps[i + 1] == Next(ps[i], es[i])
  }

  lemma {:induction false} RunInv(ps: seq<Pulse>, es: seq<Event>, i: nat)
    requires IsRun(ps, es) && i < |ps|
    ensures Inv(ps[i])
  {
    if i > 0 {
      RunInv(ps, es, i - 1);
      InvPreserved(ps[i - 1], es[i - 1]);
    }
  }

  /** While a ping is being sent or awaited the event is set exactly when no nonce is outstanding, and the
      outstanding nonce is that ping's; while the loop sleeps none is outstanding. */
  lemma HandshakeAgrees(ps: seq<Pulse>, es: seq<Event>, i: nat)
    requires IsRun(ps, es) && i < |ps|
    ensures ps[i].beat.Sleeping? ==> ps[i].nonce.None?
    ensures ps[i].beat.Pinging? || ps[i].beat.AwaitingPong? ==>
      (ps[i].event <==> ps[i].nonce.None?) && (ps[i].nonce.Some? ==> ps[i].nonce.value == ps[i].beat.nonce)
  {
    RunInv(ps, es, i);
  }

  /** However the tasks interleave while mark_seen is awaited, the reader clears the nonce it checked. */
  lemma ClearsOnlyWhatItChecked(ps: seq<Pulse>, es: seq<Event>, i: nat)
    requires IsRun(ps, es) && i < |es| && es[i] == Marked
    ensures ps[i].reader.Marking? && ps[i].nonce == Some(ps[i].reader.nonce)
  {
    RunInv(ps, es, i);
  }

  /** An accepted pong reaches the loop: once it is marked, a loop still sending its ping goes back to
      sleep as soon as the ping is written, and a loop already waiting can go back to sleep at once. */
  lemma AcceptedPongReachesLoop(ps: seq<Pulse>, es: seq<Event>, i: nat)
    requires IsRun(ps, es) && i < |es| && es[i] == Marked && !ps[i].beat.Ended?
    ensures !ps[i + 1].beat.Sleeping?
    ensures ps[i + 1].beat.Pinging? ==> Next(ps[i + 1], PingWritten).beat == Sleeping
    ensures ps[i + 1].beat.AwaitingPong? ==>
      Enabled(ps[i + 1], PongSeen) && Next(ps[i + 1], PongSeen).beat == Sleeping
  {
    RunInv(ps, es, i);
  }

  /** A pong marked while its ping is still being sent is never waited for again. */
  lemma {:induction false} EarlyPongNeverAwaited(ps: seq<Pulse>, es: seq<Event>, i: nat, j: nat, n: Id)
    requires IsRun(ps, es) && i < j < |ps|
    requires es[i] == Marked && ps[i].beat == Pinging(n)
    ensures ps[j].beat != AwaitingPong(n)
    ensures n in ps[j].sent && (ps[j].beat == Pinging(n) ==> ps[j].event)
    decreases j
  {
    RunInv(ps, es, i);
    RunInv(ps, es, j - 1);
    if j - 1 > i {
      EarlyPongNeverAwaited(ps, es, i, j - 1, n);
    }
  }

  /** Accepted pongs inject into sent pings: at most one acceptance a ping, always of the latest ping. */
  lemma PongsInjectIntoPings(ps: seq<Pulse>, es: seq<Event>, i: nat)
    requires IsRun(ps, es) && i < |ps|
    ensures Distinct(ps[i].sent) && Distinct(ps[i].accepted)
    ensures forall n <- ps[i].accepted :: n in ps[i].sent
    ensures i < |es| && es[i].Pong? && ps[i + 1].accepted != ps[i].accepted ==>
      Latest(ps[i].sent, es[i].nonce) && es[i].nonce !in ps[i].accepted
  {
    RunInv(ps, es, i);
  }

  /** The reader's check: the outstanding nonce is accepted and marked, any other pong stops the reader, and neither
      touches the nonce, the event or the loop. */
  lemma PongEffect(p: Pulse, n: Id)
    requires Enabled(p, Pong(n))
    ensures Next(p, Pong(n)) ==
      if p.nonce == Some(n) then Pulse(p.nonce, p.event, p.beat, Marking(n), p.sent, p.accepted + [n])
      else Pulse(p.nonce, p.event, p.beat, Stopped, p.sent, p.accepted)
  {}

  /** A reader that is reading can always be given a pong, and a pong that passed can always be marked. */
  lemma ReaderGoesOn(p: Pulse, n: Id)
    ensures Enabled(p, Pong(n)) <==> p.reader == Reading
    ensures Enabled(p, Marked) <==> p.reader.Marking?
    ensures p.reader.Marking? ==>
      Next(p, Marked) == Pulse(None, true, p.beat, Reading, p.sent, p.accepted)
  {}

  /** What the loop does when it wakes, when its ping is written or fails, and when it stops waiting. */
  lemma LoopEffect(p: Pulse, n: Id)
    ensures Enabled(p, Wake(n)) ==>
      Next(p, Wake(n)) == Pulse(Some(n), false, Pinging(n), p.reader, p.sent + [n], p.accepted)
    ensures p.beat == Pinging(n) ==>
      && Enabled(p, PingWritten) && Enabled(p, PingFailed)
      && Next(p, PingWritten) == p.(beat := if p.event then Sleeping else AwaitingPong(n))
      && Next(p, PingFailed) == p.(beat := Ended)
    ensures p.beat == AwaitingPong(n) ==>
      && Enabled(p, TimedOut) && Next(p, TimedOut) == p.(beat := Ended)
      && (Enabled(p, PongSeen) <==> p.event)
      && (p.event ==> Next(p, PongSeen) == p.(beat := Sleeping))
    ensures Enabled(p, CancelBeat) ==> Next(p, CancelBeat) == p.(beat := Ended)
    ensures Enabled(p, StopReader) ==> Next(p, StopReader) == p.(reader := Stopped)
  {}

  /** On runs: while a ping is outstanding, being sent or awaited, and the reader reads, a pong with its nonce is
      accepted, and marking it lets the loop go back to sleep, at once or when the ping is written; any other pong
      stops the reader. */
  lemma PongForPing(ps: seq<Pulse>, es: seq<Event>, i: nat, n: Id)
    requires IsRun(ps, es) && i < |ps| && ps[i].reader == Reading && ps[i].nonce == Some(n)
    requires ps[i].beat.Pinging? || ps[i].beat.AwaitingPong?
    ensures Enabled(ps[i], Pong(n))
    ensures var q := Next(ps[i], Pong(n));
      && q.accepted == ps[i].accepted + [n] && Enabled(q, Marked)
      && var r := Next(q, Marked);
         && r.nonce == None && r.reader == Reading
         && (ps[i].beat == AwaitingPong(n) ==> Enabled(r, PongSeen) && Next(r, PongSeen).beat == Sleeping)
         && (ps[i].beat == Pinging(n) ==> Enabled(r, PingWritten) && Next(r, PingWritten).beat == Sleeping)
    ensures ps[i].beat == Pinging(n) || ps[i].beat == AwaitingPong(n)
    ensures forall k: Id :: k != n ==> Enabled(ps[i], Pong(k)) && Next(ps[i], Pong(k)) == ps[i].(reader := Stopped)
  {
    RunInv(ps, es, i);
  }

  /** A round of the handshake, from sleep to sleep, with a pong after the ping is written or before. */
  lemma Rounds(p: Pulse, n: Id)
    requires Inv(p) && p.beat == Sleeping && p.reader == Reading && n !in p.sent
    ensures var back := Pulse(None, true, Sleeping, Reading, p.sent + [n], p.accepted + [n]);
      && Next(Next(Next(Next(Next(p, Wake(n)), PingWritten), Pong(n)), Marked), PongSeen) == back
      && Next(Next(Next(Next(p, Wake(n)), Pong(n)), Marked), PingWritten) == back
  {}

  /** The recorded nonces are those of the run's own pings, and of its pongs that carried the outstanding nonce. */
  lemma {:induction false} NoncesRecorded(ps: seq<Pulse>, es: seq<Event>, i: nat)
    requires IsRun(ps, es) && i < |ps|
    ensures forall n :: n in ps[i].sent <==> exists j :: 0 <= j < i && es[j] == Wake(n)
    ensures forall n :: n in ps[i].accepted <==> exists j :: 0 <= j < i && es[j] == Pong(n) && ps[j].nonce == Some(n)
  {
    if i > 0 {
      NoncesRecorded(ps, es, i - 1);
      assert Enabled(ps[i - 1], es[i - 1]);
    }
  }
}
