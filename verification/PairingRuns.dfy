/** Claims as interleaved steps, and what holds over every run of pairing operations.

    A claim holds the pairing lock from start to end, but may suspend inside the stores, where other tasks
    revoke tokens and save devices.  A device is named by others only once it is visible: after the compensated
    claim has ended, or after the transactional claim has committed, which is before its task resumes.  Two endings
    leave something behind: a cancellation inside issue once the token is filed, which stands outside the
    compensated part, and a commit whose answer never arrives. */
module PairingRuns {
  import opened Domain
  import opened Registry
  import opened Pairing
  import Identity

  /** Compensated: the token is filed; the device is registered as well; the token is revoked again.
      Transactional: both rows are committed, and the task has not resumed. */
  datatype Stage = Issued | Added | Undoing | Unresumed

  datatype InFlight = InFlight(claim: Input, device: Device, issuance: Identity.Issuance, stage: Stage)

  /** `created`, `wins`, `misses` and `enrolled` are kept for the statements: the challenges ever made and,
      for each, credentials handed out, wrong secrets counted, devices left registered. */
  datatype State = State(
    h: Hive<Device>, inFlight: Option<InFlight>,
    created: set<Id>, wins: map<Id, nat>, misses: map<Id, nat>, enrolled: map<Id, nat>, doubts: map<Id, nat>)

  const INITIAL := State(Hive(map[], map[], map[]), None, {}, map[], map[], map[], map[])

  datatype Event =
    | Create(id: Id, challenge: Challenge)
    | Begin(claim: Input)
    | AddDevice
    | Complete
    | Undo                      // the handler's first step
    | RollBack                  // and its second
    | CutIssue                  // cancelled inside issue, after the token is filed
    | Transact(claim: Input)    // a transactional claim up to its commit's effect
    | LoseAnswer                // cancelled inside the commit, after it took effect
    | RevokeTokens(device: Id)
    | SaveDevice(saved: Device)

  function Count(m: map<Id, nat>, id: Id): nat {
    if id in m then m[id] else 0
  }

  /** The claim under way has not shown this device to anybody yet. */
  predicate Hides(s: State, d: Id) {
    s.inFlight.Some? && !s.inFlight.value.stage.Unresumed? && s.inFlight.value.device.id == d
  }

  predicate InStage(s: State, stage: Stage) {
    s.inFlight.Some? && s.inFlight.value.stage == stage
  }

  /** Steps of a claim that is under way. */
  predicate Continues(e: Event) {
    e.AddDevice? || e.Complete? || e.Undo? || e.RollBack? || e.CutIssue? || e.LoseAnswer?
  }

  ghost predicate Enabled(s: State, key: nat, e: Event) {
    match e
    case Create(id, challenge) => s.inFlight.None? && id !in s.created && challenge.failed == 0
    case Begin(c) => s.inFlight.None? && (Judge(s.h.challenges, key, c).Accepted? ==> Drawn(s.h, c))
    case AddDevice => InStage(s, Issued)
    case Complete => InStage(s, Added) || InStage(s, Unresumed)
    case Undo => InStage(s, Issued) || InStage(s, Added)
    case RollBack => InStage(s, Undoing)
    case CutIssue => InStage(s, Issued)
    case Transact(c) => s.inFlight.None? && Judge(s.h.challenges, key, c).Accepted? && Drawn(s.h, c)
    case LoseAnswer => InStage(s, Unresumed)
    case RevokeTokens(d) => !Hides(s, d)
    case SaveDevice(d) => !Hides(s, d.id) && d.id in s.h.devices
  }

  function Next(s: State, key: nat, max: nat, e: Event): State
    requires Continues(e) ==> s.inFlight.Some?
    requires e.Transact? ==> Judge(s.h.challenges, key, e.claim).Accepted?
  {
    match e
    case Create(id, challenge) =>
      s.(h := s.h.(challenges := s.h.challenges[id := challenge]), created := s.created + {id})
    case Begin(c) =>
      var v := Judge(s.h.challenges, key, c);
      if v.Accepted?
      then s.(h := s.h.(live := s.h.live[v.device.id := v.issuance]),
              inFlight := Some(InFlight(c, v.device, v.issuance, Issued)))
      else s.(h := s.h.(challenges := Unaccepted(s.h.challenges, key, max, c)),
              misses := if v.WrongSecret? then s.misses[c.pairing := Count(s.misses, c.pairing) + 1] else s.misses)
    case AddDevice =>
      var f := s.inFlight.value;
      s.(h := s.h.(devices := s.h.devices[f.device.id := f.device]), inFlight := Some(f.(stage := Added)))
    case Complete =>
      var f := s.inFlight.value;
      var p := f.claim.pairing;
      s.(h := s.h.(challenges := s.h.challenges - {p}), inFlight := None, wins := s.wins[p := Count(s.wins, p) + 1],
         enrolled := if f.stage.Unresumed? then s.enrolled else s.enrolled[p := Count(s.enrolled, p) + 1])
    case Undo =>
      var f := s.inFlight.value;
      s.(h := s.h.(live := s.h.live - {f.device.id}), inFlight := Some(f.(stage := Undoing)))
    case RollBack => s.(h := s.h.(devices := s.h.devices - {s.inFlight.value.device.id}), inFlight := None)
    case CutIssue => s.(inFlight := None)
    case Transact(c) =>
      var Accepted(d, x) := Judge(s.h.challenges, key, c);
      s.(h := s.h.(devices := s.h.devices[d.id := d], live := s.h.live[d.id := x]),
         inFlight := Some(InFlight(c, d, x, Unresumed)),
         enrolled := s.enrolled[c.pairing := Count(s.enrolled, c.pairing) + 1])
    case LoseAnswer =>
      var p := s.inFlight.value.claim.pairing;
      s.(inFlight := None, doubts := s.doubts[p := Count(s.doubts, p) + 1])
    case RevokeTokens(d) => s.(h := s.h.(live := s.h.live - {d}))
    case SaveDevice(d) => s.(h := s.h.(devices := s.h.devices[d.id := d]))
  }

  // ---------- The claim in flight is invisible ----------

  /** What can be seen while a claim holds the lock: not the device of a compensated claim, and not the challenge of
      a committed one. */
  function Settled(s: State): Hive<Device> {
    if s.inFlight.None? then s.h
    else
      var f := s.inFlight.value;
      if f.stage.Unresumed? then s.h.(challenges := s.h.challenges - {f.claim.pairing})
      else s.h.(devices := s.h.devices - {f.device.id}, live := s.h.live - {f.device.id})
  }

  /** A claim in flight was accepted; its token is live until it is revoked again, and its device is in the registry
      once added. */
  ghost predicate FlightOk(s: State, key: nat) {
    s.inFlight.Some? ==>
      var f := s.inFlight.value;
      && Judge(s.h.challenges, key, f.claim) == Accepted(f.device, f.issuance)
      && f.device.id == f.claim.device
      && (f.stage.Issued? || f.stage.Added? ==> f.device.id in s.h.live && s.h.live[f.device.id] == f.issuance)
      && (f.stage.Undoing? ==> f.device.id !in s.h.live)
      && (f.stage.Issued? ==> f.device.id !in s.h.devices)
      && (f.stage.Added? ==> f.device.id in s.h.devices && s.h.devices[f.device.id] == f.device)
  }

  lemma FlightStaysOk(s: State, key: nat, max: nat, e: Event)
    requires FlightOk(s, key) && Enabled(s, key, e)
    ensures FlightOk(Next(s, key, max, e), key)
  {
    if e.Begin? || e.Transact? {
      FlightStartsOk(s, key, max, e);
    } else if Continues(e) {
      FlightGoesOnOk(s, key, max, e);
    }
  }

  lemma FlightStartsOk(s: State, key: nat, max: nat, e: Event)
    requires Enabled(s, key, e) && (e.Begin? || e.Transact?)
    ensures FlightOk(Next(s, key, max, e), key)
  {
    MadeDeviceHasId(s.h.challenges, key, e.claim);
  }

  lemma FlightGoesOnOk(s: State, key: nat, max: nat, e: Event)
    requires FlightOk(s, key) && Enabled(s, key, e) && Continues(e)
    ensures FlightOk(Next(s, key, max, e), key)
  {}

  ghost predicate ActsAtomically(key: nat, max: nat, c: Input, before: Hive<Device>, after: Hive<Device>) {
    exists commits :: after == AtomicClaim(before, Same, key, max, c, commits)
  }

  /** On the settled stores a claim acts once, when it ends or is refused, and then as the atomic claim;
      issuing, adding and undoing show nothing. */
  ghost predicate Refines(s: State, key: nat, max: nat, e: Event, before: Hive<Device>, after: Hive<Device>) {
    match e
    case Create(id, challenge) => after == before.(challenges := before.challenges[id := challenge])
    case Begin(c) =>
      if Judge(before.challenges, key, c).Accepted? then after == before
      else after == AtomicClaim(before, Same, key, max, c, false)
    case RevokeTokens(d) => after == before.(live := before.live - {d})
    case SaveDevice(d) => after == before.(devices := before.devices[d.id := d])
    case AddDevice => after == before
    case Undo => after == before
    case Transact(c) => after == AtomicClaim(before, Same, key, max, c, true)
    case _ =>
      if InStage(s, Unresumed) then after == before  // it has acted already
      else s.inFlight.Some? && ActsAtomically(key, max, s.inFlight.value.claim, before, after)
  }

  /** The two endings that leave something behind. */
  predicate CutOff(e: Event) {
    e.CutIssue? || e.LoseAnswer?
  }

  lemma BeginRefines(s: State, key: nat, max: nat, c: Input)
    requires Enabled(s, key, Begin(c))
    ensures Refines(s, key, max, Begin(c), Settled(s), Settled(Next(s, key, max, Begin(c))))
  {
    MadeDeviceHasId(s.h.challenges, key, c);
    var v := Judge(s.h.challenges, key, c);
    if v.Accepted? {
      assert s.h.live[c.device := v.issuance] - {c.device} == s.h.live;
      assert s.h.devices - {c.device} == s.h.devices;
    }
  }

  /** A compensated claim that completes or rolls back is the atomic claim, committed or not. */
  lemma EndRefines(s: State, key: nat, max: nat, e: Event)
    requires FlightOk(s, key) && Enabled(s, key, e) && !InStage(s, Unresumed) && (e.Complete? || e.RollBack?)
    ensures Refines(s, key, max, e, Settled(s), Settled(Next(s, key, max, e)))
  {
    var f := s.inFlight.value;
    var before, after := Settled(s), Settled(Next(s, key, max, e));
    if e.Complete? {
      assert s.h.devices == (s.h.devices - {f.device.id})[f.device.id := f.device];
      assert s.h.live == (s.h.live - {f.device.id})[f.device.id := f.issuance];
    } else {
      assert s.h.live - {f.device.id} == s.h.live;
    }
    assert after == AtomicClaim(before, Same, key, max, f.claim, e.Complete?);
  }

  /** A claim cut off inside issue keeps its token, and the challenge with it: no atomic claim does that. */
  lemma CutIssueNeverRefines(s: State, key: nat, max: nat)
    requires FlightOk(s, key) && Enabled(s, key, CutIssue)
    ensures var f, before, after := s.inFlight.value, Settled(s), Settled(Next(s, key, max, CutIssue));
      && after == before.(live := before.live[f.device.id := f.issuance])
      && !ActsAtomically(key, max, f.claim, before, after)
  {
    var f, before, after := s.inFlight.value, Settled(s), Settled(Next(s, key, max, CutIssue));
    assert s.h.live == before.live[f.device.id := f.issuance] && s.h.devices == before.devices;
    assert f.device.id in after.live && f.device.id !in AtomicClaim(before, Same, key, max, f.claim, false).live;
    assert f.claim.pairing in after.challenges;
    assert f.claim.pairing !in AtomicClaim(before, Same, key, max, f.claim, true).challenges;
  }

  /** A commit whose answer is lost gives the used challenge back. */
  lemma LoseAnswerNeverRefines(s: State, key: nat, max: nat)
    requires FlightOk(s, key) && Enabled(s, key, LoseAnswer)
    ensures var p, before, after := s.inFlight.value.claim.pairing, Settled(s), Settled(Next(s, key, max, LoseAnswer));
      && p !in before.challenges && p in after.challenges
      && after == before.(challenges := before.challenges[p := s.h.challenges[p]])
  {
    var p := s.inFlight.value.claim.pairing;
    assert s.h.challenges == (s.h.challenges - {p})[p := s.h.challenges[p]];
  }

  /** The answer to a commit removes the challenge, which nobody could see since. */
  lemma AnswerRefines(s: State, key: nat, max: nat)
    requires Enabled(s, key, Complete) && InStage(s, Unresumed)
    ensures Settled(Next(s, key, max, Complete)) == Settled(s)
  {}

  /** Up to its answer, a transaction shows as the atomic claim at its commit; with the answer it is the transactional
      claim that commits, without it the one that is cut off. */
  lemma TransactRefines(s: State, key: nat, max: nat, c: Input)
    requires Enabled(s, key, Transact(c))
    ensures var s' := Next(s, key, max, Transact(c));
      && Settled(s') == AtomicClaim(Settled(s), Same, key, max, c, true)
      && Next(s', key, max, Complete).h == TransactionalClaim(s.h, Same, key, max, c, Committed)
      && Next(s', key, max, LoseAnswer).h == TransactionalClaim(s.h, Same, key, max, c, CommittedThenCancelled)
  {
    MadeDeviceHasId(s.h.challenges, key, c);
  }

  /** Other tasks' steps commute with hiding the device in flight, and so do the steps inside a claim. */
  lemma OtherRefines(s: State, key: nat, max: nat, e: Event)
    requires FlightOk(s, key) && Enabled(s, key, e)
    requires e.Create? || e.AddDevice? || e.Undo? || e.RevokeTokens? || e.SaveDevice?
    ensures Refines(s, key, max, e, Settled(s), Settled(Next(s, key, max, e)))
  {
    if s.inFlight.Some? && !InStage(s, Unresumed) {
      var f := s.inFlight.value;
      var d := f.device.id;
      match e {
        case AddDevice => assert s.h.devices[d := f.device] - {d} == s.h.devices - {d};
        case Undo => assert (s.h.live - {d}) - {d} == s.h.live - {d};
        case RevokeTokens(other) => assert (s.h.live - {other}) - {d} == (s.h.live - {d}) - {other};
        case SaveDevice(other) => assert s.h.devices[other.id := other] - {d} == (s.h.devices - {d})[other.id := other];
        case _ =>
      }
    }
  }

  /** Every step of every interleaving refines the atomic claim, except exactly the two that cut a claim off. */
  lemma ClaimRefinesAtomic(s: State, key: nat, max: nat, e: Event)
    requires FlightOk(s, key) && Enabled(s, key, e)
    ensures Refines(s, key, max, e, Settled(s), Settled(Next(s, key, max, e))) <==> !CutOff(e)
  {
    if e.Begin? {
      BeginRefines(s, key, max, e.claim);
    } else if e.Transact? {
      TransactRefines(s, key, max, e.claim);
    } else if InStage(s, Unresumed) && e.Complete? {
      AnswerRefines(s, key, max);
    } else if e.Complete? || e.RollBack? {
      EndRefines(s, key, max, e);
    } else if e.CutIssue? {
      CutIssueNeverRefines(s, key, max);
    } else if e.LoseAnswer? {
      LoseAnswerNeverRefines(s, key, max);
    } else {
      OtherRefines(s, key, max, e);
    }
  }

  /** While a claim hides its device, the ids drawn for it are nobody's. */
  ghost predicate InFlightDrawn(s: State) {
    s.inFlight.Some? && !s.inFlight.value.stage.Unresumed? ==> Drawn(Settled(s), s.inFlight.value.claim)
  }

  lemma InFlightStaysDrawn(s: State, key: nat, max: nat, e: Event)
    requires FlightOk(s, key) && InFlightDrawn(s) && Enabled(s, key, e)
    ensures InFlightDrawn(Next(s, key, max, e))
  {
    ClaimRefinesAtomic(s, key, max, e);
    if e.Begin? {
      MadeDeviceHasId(s.h.challenges, key, e.claim);
    }
    if s.inFlight.Some? && !InStage(s, Unresumed) && e.RevokeTokens? {
      var live, id := Settled(s).live, s.inFlight.value.claim.tokenId;
      forall d | d in live - {e.device}
        ensures live[d].id != id
      {
        assert d in live ==> live[d].id == id ==> TokenTaken(live, id);
      }
    }
  }

  // ---------- Counting ----------

  /** What is known of one created challenge. */
  ghost predicate ChallengeOk(s: State, max: nat, id: Id) {
    var w, m := Count(s.wins, id), Count(s.misses, id);
    && w <= 1 && m <= max
    && (id in s.h.challenges ==> w == 0 && m == s.h.challenges[id].failed && m < max)
    && (w == 1 ==> m < max)
    && Count(s.enrolled, id) == w + Count(s.doubts, id) + Unanswered(s, id)
    && (Unanswered(s, id) == 1 ==> id in s.h.challenges)
  }

  /** Is a transaction on this challenge committed and not answered yet? */
  function Unanswered(s: State, id: Id): nat {
    if InStage(s, Unresumed) && s.inFlight.value.claim.pairing == id then 1 else 0
  }

  predicate Uncounted(s: State, id: Id) {
    Count(s.wins, id) == Count(s.misses, id) == Count(s.enrolled, id) == Count(s.doubts, id) == 0
  }

  /** Nothing is known of a challenge before it is created. */
  ghost predicate OnlyCreated(s: State) {
    && s.h.challenges.Keys <= s.created
    && (s.inFlight.Some? ==> s.inFlight.value.claim.pairing in s.created)
    && forall id :: id !in s.created ==> Uncounted(s, id)
  }

  ghost predicate Counted(s: State, key: nat, max: nat) {
    && FlightOk(s, key)
    && InFlightDrawn(s)
    && OnlyCreated(s)
    && (forall id <- s.created :: ChallengeOk(s, max, id))
  }

  lemma ChallengeStaysOk(s: State, key: nat, max: nat, e: Event, id: Id)
    requires max >= 1 && FlightOk(s, key) && Enabled(s, key, e) && id in Next(s, key, max, e).created
    requires if id in s.created then ChallengeOk(s, max, id) else Uncounted(s, id)
    ensures ChallengeOk(Next(s, key, max, e), max, id)
  {
    if e.Begin? {
      RefusalStaysOk(s, key, max, e.claim, id);
    } else if e.Complete? || e.Transact? || e.LoseAnswer? {
      CommitStaysOk(s, key, max, e, id);
    }
  }

  lemma CommitStaysOk(s: State, key: nat, max: nat, e: Event, id: Id)
    requires FlightOk(s, key) && Enabled(s, key, e) && id in s.created && ChallengeOk(s, max, id)
    requires e.Complete? || e.Transact? || e.LoseAnswer?
    ensures ChallengeOk(Next(s, key, max, e), max, id)
  {}

  /** A refused claim removes an expired challenge, or counts a wrong secret. */
  lemma RefusalStaysOk(s: State, key: nat, max: nat, c: Input, id: Id)
    requires max >= 1 && Enabled(s, key, Begin(c)) && id in s.created && ChallengeOk(s, max, id)
    ensures ChallengeOk(Next(s, key, max, Begin(c)), max, id)
  {}

  lemma UncountedStays(s: State, key: nat, max: nat, e: Event, id: Id)
    requires OnlyCreated(s) && Enabled(s, key, e) && id !in Next(s, key, max, e).created
    ensures Uncounted(Next(s, key, max, e), id)
  {
    assert Uncounted(s, id);
  }

  lemma OnlyCreatedStays(s: State, key: nat, max: nat, e: Event)
    requires FlightOk(s, key) && OnlyCreated(s) && Enabled(s, key, e)
    ensures OnlyCreated(Next(s, key, max, e))
  {
    var s' := Next(s, key, max, e);
    forall id | id !in s'.created
      ensures Uncounted(s', id)
    {
      UncountedStays(s, key, max, e, id);
    }
  }

  lemma CountedPreserved(s: State, key: nat, max: nat, e: Event)
    requires max >= 1 && Counted(s, key, max) && Enabled(s, key, e)
    ensures Counted(Next(s, key, max, e), key, max)
  {
    FlightStaysOk(s, key, max, e);
    InFlightStaysDrawn(s, key, max, e);
    OnlyCreatedStays(s, key, max, e);
    var s' := Next(s, key, max, e);
    forall id <- s'.created
      ensures ChallengeOk(s', max, id)
    {
      ChallengeStaysOk(s, key, max, e, id);
    }
  }

  ghost predicate IsRun(ss: seq<State>, es: seq<Event>, key: nat, max: nat) {
    && |ss| == |es| + 1
    && ss[0] == INITIAL
    && forall i :: 0 <= i < |es| ==>
         Enabled(ss[i], key, es[i]) && ss[i + 1] == Next(ss[i], key, max, es[i])
  }

  lemma {:induction false} RunCounted(ss: seq<State>, es: seq<Event>, key: nat, max: nat, i: nat)
    requires max >= 1 && IsRun(ss, es, key, max) && i < |ss|
    ensures Counted(ss[i], key, max)
  {
    if i > 0 {
      RunCounted(ss, es, key, max, i - 1);
      CountedPreserved(ss[i - 1], key, max, es[i - 1]);
    }
  }

  /** Over every run a challenge hands out at most one credential and counts at most `max` wrong secrets,
      never both a credential and the full count; and it leaves one registered device for each credential
      plus one for each commit whose answer was lost, or has not come yet. */
  lemma OneCredentialAChallenge(ss: seq<State>, es: seq<Event>, key: nat, max: nat, i: nat, id: Id)
    requires max >= 1 && IsRun(ss, es, key, max) && i < |ss|
    ensures Count(ss[i].wins, id) <= 1 && Count(ss[i].misses, id) <= max
    ensures Count(ss[i].wins, id) == 1 ==> Count(ss[i].misses, id) < max && id !in ss[i].h.challenges
    ensures Count(ss[i].enrolled, id) == Count(ss[i].wins, id) + Count(ss[i].doubts, id) + Unanswered(ss[i], id)
    ensures Unanswered(ss[i], id) == 1 ==> Count(ss[i].wins, id) == 0
  {
    RunCounted(ss, es, key, max, i);
    assert if id in ss[i].created then ChallengeOk(ss[i], max, id) else Uncounted(ss[i], id);
  }

  /** Only a lost answer leaves a doubt. */
  lemma {:induction false} NoDoubts(ss: seq<State>, es: seq<Event>, key: nat, max: nat, i: nat)
    requires IsRun(ss, es, key, max) && i < |ss|
    requires forall j :: 0 <= j < i ==> !es[j].LoseAnswer?
    ensures ss[i].doubts == map[]
  {
    if i > 0 {
      NoDoubts(ss, es, key, max, i - 1);
      assert Enabled(ss[i - 1], key, es[i - 1]);
    }
  }

  /** As long as no commit's answer is lost, as it never is in memory, a challenge registers at most one device. */
  lemma OneDeviceAChallenge(ss: seq<State>, es: seq<Event>, key: nat, max: nat, i: nat, id: Id)
    requires max >= 1 && IsRun(ss, es, key, max) && i < |ss|
    requires forall j :: 0 <= j < i ==> !es[j].LoseAnswer?
    ensures Count(ss[i].enrolled, id) == Count(ss[i].wins, id) + Unanswered(ss[i], id) <= 1
  {
    NoDoubts(ss, es, key, max, i);
    OneCredentialAChallenge(ss, es, key, max, i, id);
  }

  /** Along every run a step shows on the settled stores as the atomic claim, or as nothing, if and only if it
      cuts no claim off. */
  lemma RunRefinesAtomic(ss: seq<State>, es: seq<Event>, key: nat, max: nat, i: nat)
    requires max >= 1 && IsRun(ss, es, key, max) && i < |es|
    ensures Refines(ss[i], key, max, es[i], Settled(ss[i]), Settled(ss[i + 1])) <==> !CutOff(es[i])
  {
    RunCounted(ss, es, key, max, i);
    ClaimRefinesAtomic(ss[i], key, max, es[i]);
  }

  // ---------- The counters count ----------

  datatype Mark = Won | Missed | Enrolled | Doubted

  /** What a step is for one challenge. */
  ghost predicate Marks(s: State, key: nat, e: Event, id: Id, mark: Mark) {
    var mine := s.inFlight.Some? && s.inFlight.value.claim.pairing == id;
    match mark
    case Won => e == Complete && mine
    case Missed => e.Begin? && e.claim.pairing == id && Judge(s.h.challenges, key, e.claim).WrongSecret?
    case Enrolled => (e == Complete && mine && InStage(s, Added)) || (e.Transact? && e.claim.pairing == id)
    case Doubted => e == LoseAnswer && mine
  }

  /** How many of the first i steps are such. */
  ghost function Tally(ss: seq<State>, es: seq<Event>, key: nat, i: nat, id: Id, mark: Mark): nat
    requires i <= |es| && i <= |ss|
  {
    if i == 0 then 0
    else Tally(ss, es, key, i - 1, id, mark) + if Marks(ss[i - 1], key, es[i - 1], id, mark) then 1 else 0
  }

  /** The counters say how often a claim on the challenge was answered with a credential, refused for its secret,
      registered a device, and lost its commit's answer. */
  lemma {:induction false} CountersTally(ss: seq<State>, es: seq<Event>, key: nat, max: nat, i: nat, id: Id)
    requires IsRun(ss, es, key, max) && i < |ss|
    ensures Count(ss[i].wins, id) == Tally(ss, es, key, i, id, Won)
    ensures Count(ss[i].misses, id) == Tally(ss, es, key, i, id, Missed)
    ensures Count(ss[i].enrolled, id) == Tally(ss, es, key, i, id, Enrolled)
    ensures Count(ss[i].doubts, id) == Tally(ss, es, key, i, id, Doubted)
  {
    if i > 0 {
      CountersTally(ss, es, key, max, i - 1, id);
      StepTallies(ss[i - 1], es[i - 1], key, max, id);
    }
  }

  ghost function Mine(s: State, key: nat, e: Event, id: Id, mark: Mark): nat {
    if Marks(s, key, e, id, mark) then 1 else 0
  }

  lemma StepTallies(s: State, e: Event, key: nat, max: nat, id: Id)
    requires Enabled(s, key, e)
    ensures var s' := Next(s, key, max, e);
      && Count(s'.wins, id) == Count(s.wins, id) + Mine(s, key, e, id, Won)
      && Count(s'.misses, id) == Count(s.misses, id) + Mine(s, key, e, id, Missed)
      && Count(s'.enrolled, id) == Count(s.enrolled, id) + Mine(s, key, e, id, Enrolled)
      && Count(s'.doubts, id) == Count(s.doubts, id) + Mine(s, key, e, id, Doubted)
  {
    if e.Complete? {
      CompleteTallies(s, key, max, id);
    }
  }

  lemma CompleteTallies(s: State, key: nat, max: nat, id: Id)
    requires Enabled(s, key, Complete)
    ensures var s' := Next(s, key, max, Complete);
      && Count(s'.wins, id) == Count(s.wins, id) + Mine(s, key, Complete, id, Won)
      && s'.misses == s.misses && s'.doubts == s.doubts
      && Count(s'.enrolled, id) == Count(s.enrolled, id) + Mine(s, key, Complete, id, Enrolled)
  {}

  /** A claim that starts has filed its token and nothing else, or is refused; it then adds its device, and completes by
      using the challenge up, or revokes the token, removes the device and leaves the challenge. */
  lemma ClaimStages(s: State, key: nat, max: nat, e: Event)
    requires FlightOk(s, key) && Enabled(s, key, e)
    ensures var s', f := Next(s, key, max, e), s.inFlight;
      match e
      case Begin(c) =>
        var v := Judge(s.h.challenges, key, c);
        if v.Accepted? then
          && s'.inFlight == Some(InFlight(c, v.device, v.issuance, Issued))
          && s'.h == Hive(s.h.challenges, s.h.devices, s.h.live[c.device := v.issuance])
        else s'.inFlight == None && s'.h == Hive(Unaccepted(s.h.challenges, key, max, c), s.h.devices, s.h.live)
      case AddDevice =>
        && s'.inFlight == Some(f.value.(stage := Added))
        && s'.h == Hive(s.h.challenges, s.h.devices[f.value.claim.device := f.value.device], s.h.live)
      case Complete =>
        s'.inFlight == None && s'.h == Hive(s.h.challenges - {f.value.claim.pairing}, s.h.devices, s.h.live)
      case Undo =>
        && s'.inFlight == Some(f.value.(stage := Undoing))
        && s'.h == Hive(s.h.challenges, s.h.devices, s.h.live - {f.value.claim.device})
      case RollBack =>
        s'.inFlight == None && s'.h == Hive(s.h.challenges, s.h.devices - {f.value.claim.device}, s.h.live)
      case CutIssue => s'.inFlight == None && s'.h == s.h
      case LoseAnswer => s'.inFlight == None && s'.h == s.h
      case Transact(c) =>
        var v := Judge(s.h.challenges, key, c);
        && s'.inFlight == Some(InFlight(c, v.device, v.issuance, Unresumed))
        && s'.h == Hive(s.h.challenges, s.h.devices[c.device := v.device], s.h.live[c.device := v.issuance])
      case Create(id, challenge) =>
        s'.inFlight == f && s'.h == Hive(s.h.challenges[id := challenge], s.h.devices, s.h.live)
      case RevokeTokens(d) => s'.inFlight == f && s'.h == Hive(s.h.challenges, s.h.devices, s.h.live - {d})
      case SaveDevice(d) => s'.inFlight == f && s'.h == Hive(s.h.challenges, s.h.devices[d.id := d], s.h.live)
  {
    if e.Begin? || e.Transact? {
      MadeDeviceHasId(s.h.challenges, key, e.claim);
    }
  }

  /** What can happen at each stage of a claim: nothing of another claim or creation while one is under way, its next
      step or its failure, and what others do to devices they can see. */
  lemma StageAllows(s: State, key: nat, e: Event)
    ensures Enabled(s, key, e) <==>
      match s.inFlight
      case None =>
        || (e.Create? && e.id !in s.created && e.challenge.failed == 0)
        || (e.Begin? && (Judge(s.h.challenges, key, e.claim).Accepted? ==> Drawn(s.h, e.claim)))
        || (e.Transact? && Judge(s.h.challenges, key, e.claim).Accepted? && Drawn(s.h, e.claim))
        || e.RevokeTokens?
        || (e.SaveDevice? && e.saved.id in s.h.devices)
      case Some(f) =>
        || (f.stage == Issued && (e == AddDevice || e == Undo || e == CutIssue))
        || (f.stage == Added && (e == Complete || e == Undo))
        || (f.stage == Undoing && e == RollBack)
        || (f.stage == Unresumed && (e == Complete || e == LoseAnswer))
        || (e.RevokeTokens? && (f.stage == Unresumed || e.device != f.device.id))
        || (e.SaveDevice? && e.saved.id in s.h.devices && (f.stage == Unresumed || e.saved.id != f.device.id))
  {}
}
