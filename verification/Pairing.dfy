/** One-time pairing: the claim that compensates over two stores, the claim in one transaction, and the
    atomic claim that both are meant to be. */
module Pairing {
  import opened Domain
  import opened Registry
  import Tokens
  import Identity

  datatype Challenge = Challenge(digest: Identity.Digest, granted: set<Capability>, expiresAt: int, failed: nat)

  /** The challenges and the two stores; D is what a registry keeps of a device. */
  datatype Hive<D> = Hive(challenges: map<Id, Challenge>, devices: map<Id, D>, live: map<Id, Identity.Issuance>)

  /** A claim with the ids, the token secret and the clock readings it draws. */
  datatype Input = Input(
    pairing: Id, secret: string, name: string, now: int, pairedAt: Stamp,
    device: Id, tokenId: Tokens.Uuid, tokenSecret: string)

  datatype Verdict =
    | NoChallenge | Expired | WrongSecret
    | Unusable                                              // the name or the token is refused
    | Accepted(device: Device, issuance: Identity.Issuance)

  const MIN_SECRET: nat := 16

  function Judge(challenges: map<Id, Challenge>, key: nat, c: Input): Verdict {
    if c.pairing !in challenges then NoChallenge
    else
      var record := challenges[c.pairing];
      if c.now >= record.expiresAt then Expired
      else if record.digest != Identity.Hmac(key, c.secret) then WrongSecret
      else
        var device := MakeDevice(c.device, c.name, record.granted, c.pairedAt, Offline, {}, None, None);
        match (device, Tokens.IssueToken(c.tokenId, c.tokenSecret))
        case (Some(d), Issued(token)) => Accepted(d, Identity.Issuance(c.tokenId, c.tokenSecret, token))
        case _ => Unusable
  }

  /** A wrong secret is counted; the last permitted one removes the challenge. */
  function Miss(challenges: map<Id, Challenge>, max: nat, id: Id): map<Id, Challenge>
    requires id in challenges
  {
    var failed := challenges[id].failed + 1;
    if failed >= max then challenges - {id} else challenges[id := challenges[id].(failed := failed)]
  }

  /** What every claim does short of an accepted one. */
  function Unaccepted(challenges: map<Id, Challenge>, key: nat, max: nat, c: Input): map<Id, Challenge> {
    match Judge(challenges, key, c)
    case Expired => challenges - {c.pairing}
    case WrongSecret => Miss(challenges, max, c.pairing)
    case _ => challenges
  }

  /** The in-memory registry keeps the device itself. */
  function Same(d: Device): Device {
    d
  }

  /** The claim as one atomic action that either happens or does not. */
  function AtomicClaim<D>(h: Hive<D>, store: Device -> D, key: nat, max: nat, c: Input, commits: bool): Hive<D> {
    match Judge(h.challenges, key, c)
    case Accepted(d, x) =>
      if commits then Hive(h.challenges - {c.pairing}, h.devices[d.id := store(d)], h.live[d.id := x]) else h
    case _ => h.(challenges := Unaccepted(h.challenges, key, max, c))
  }

  /** The ids drawn for a claim are nobody's. */
  ghost predicate Drawn<D>(h: Hive<D>, c: Input) {
    c.device !in h.devices && c.device !in h.live && !TokenTaken(h.live, c.tokenId)
  }

  ghost predicate TokenTaken(live: map<Id, Identity.Issuance>, id: Tokens.Uuid) {
    exists d :: d in live && live[d].id == id
  }

  /** Where devices.add fails, or the task is cancelled, around its effect. */
  datatype Fault = NoFault | BeforeAdd | AfterAdd

  predicate AddFails<D>(h: Hive<D>, c: Input, fault: Fault) {
    fault != NoFault || c.device in h.devices
  }

  /** Issue, add, and on any failure revoke and remove: exactly what the in-memory claim leaves behind. */
  ghost function CompensatedClaim<D>(h: Hive<D>, store: Device -> D, key: nat, max: nat, c: Input, fault: Fault)
    : Hive<D>
  {
    match Judge(h.challenges, key, c)
    case Accepted(d, x) =>
      if TokenTaken(h.live, c.tokenId) then h
      else if AddFails(h, c, fault) then h.(devices := h.devices - {c.device}, live := h.live - {c.device})
      else Hive(h.challenges - {c.pairing}, h.devices[d.id := store(d)], h.live[d.id := x])
    case _ => h.(challenges := Unaccepted(h.challenges, key, max, c))
  }

  /** With fresh ids the compensated claim is the atomic one, which commits exactly if nothing failed. */
  lemma CompensatedIsAtomic<D>(h: Hive<D>, store: Device -> D, key: nat, max: nat, c: Input, fault: Fault)
    requires Drawn(h, c)
    ensures CompensatedClaim(h, store, key, max, c, fault) == AtomicClaim(h, store, key, max, c, fault == NoFault)
  {}

  /** The rollback restores both stores exactly when the drawn device id was nobody's; otherwise it takes
      the other device's registration or credential with it. */
  lemma RollbackRestoresIffFresh<D>(h: Hive<D>, store: Device -> D, key: nat, max: nat, c: Input, fault: Fault)
    requires Judge(h.challenges, key, c).Accepted? && !TokenTaken(h.live, c.tokenId) && AddFails(h, c, fault)
    ensures CompensatedClaim(h, store, key, max, c, fault) == h <==> c.device !in h.devices && c.device !in h.live
  {}

  /** How a transaction's commit can end; the last one is a commit whose answer never arrives. */
  datatype Commit = Committed | RolledBack | CommittedThenCancelled

  /** A primary key is taken, so the transaction aborts. */
  ghost predicate KeysTaken<D>(h: Hive<D>, c: Input) {
    c.device in h.devices || c.device in h.live || TokenTaken(h.live, c.tokenId)
  }

  ghost function TransactionalClaim<D>(h: Hive<D>, store: Device -> D, key: nat, max: nat, c: Input, commit: Commit)
    : Hive<D>
  {
    match Judge(h.challenges, key, c)
    case Accepted(d, x) =>
      if KeysTaken(h, c) || commit == RolledBack then h
      else Hive(if commit == Committed then h.challenges - {c.pairing} else h.challenges,
                h.devices[d.id := store(d)], h.live[d.id := x])
    case _ => h.(challenges := Unaccepted(h.challenges, key, max, c))
  }

  /** The transaction is the atomic claim exactly when its commit is not left in doubt. */
  lemma TransactionIsAtomicIffAnswered<D>(h: Hive<D>, store: Device -> D, key: nat, max: nat, c: Input, commit: Commit)
    requires Drawn(h, c) && Judge(h.challenges, key, c).Accepted?
    ensures
      (exists commits ::
         TransactionalClaim(h, store, key, max, c, commit) == AtomicClaim(h, store, key, max, c, commits))
      <==> commit != CommittedThenCancelled
  {
    var t := TransactionalClaim(h, store, key, max, c, commit);
    if commit != CommittedThenCancelled {
      assert t == AtomicClaim(h, store, key, max, c, commit == Committed);
    } else {
      assert c.device in t.devices && c.pairing in t.challenges;
      assert c.device !in AtomicClaim(h, store, key, max, c, false).devices;
      assert c.pairing !in AtomicClaim(h, store, key, max, c, true).challenges;
    }
  }

  /** In doubt, the challenge can be claimed a second time: one challenge, two devices. */
  lemma InDoubtEnrolsTwice<D>(h: Hive<D>, store: Device -> D, key: nat, max: nat, c: Input, again: Input)
    requires Judge(h.challenges, key, c).Accepted? && Drawn(h, c)
    requires again == c.(device := again.device, tokenId := again.tokenId)
    requires again.device != c.device && again.tokenId != c.tokenId
    requires Drawn(h, again)
    ensures var h1 := TransactionalClaim(h, store, key, max, c, CommittedThenCancelled);
      var h2 := TransactionalClaim(h1, store, key, max, again, Committed);
      h2.devices.Keys == h.devices.Keys + {c.device, again.device}
  {}

  lemma MadeDeviceHasId(challenges: map<Id, Challenge>, key: nat, c: Input)
    ensures var v := Judge(challenges, key, c);
      v.Accepted? ==> v.device.id == c.device && v.issuance.id == c.tokenId && Identity.Proper(v.issuance)
  {}

  // ---------- What a claim is judged by ----------

  function TokenOf(c: Input): string {
    "jv1." + Tokens.Canonical(c.tokenId) + "." + c.tokenSecret
  }

  function DeviceOf(c: Input, granted: set<Capability>): Device {
    Device(c.device, Strip(c.name), granted, c.pairedAt, Offline, {}, None, None)
  }

  /** A claim is accepted exactly for a live challenge, its own secret, a usable name and stamp, and a usable token
      secret; the device paired then has the stripped name, the challenge's grant and nothing live, and the issuance is
      the one drawn. */
  lemma AcceptedExactly(challenges: map<Id, Challenge>, key: nat, c: Input)
    ensures var v := Judge(challenges, key, c);
      && (v.Accepted? <==>
            && c.pairing in challenges && c.now < challenges[c.pairing].expiresAt
            && challenges[c.pairing].digest == Identity.Hmac(key, c.secret)
            && 1 <= |Strip(c.name)| <= 120 && c.pairedAt.Aware?
            && |c.tokenSecret| >= 16 && '.' !in c.tokenSecret)
      && (v.Accepted? ==>
            && v.device == DeviceOf(c, challenges[c.pairing].granted)
            && v.issuance == Identity.Issuance(c.tokenId, c.tokenSecret, TokenOf(c)))
  {}

  /** And what a claim that is not accepted is refused for. */
  lemma RefusedExactly(challenges: map<Id, Challenge>, key: nat, c: Input)
    ensures var v := Judge(challenges, key, c);
      && (v.NoChallenge? <==> c.pairing !in challenges)
      && (v.Expired? <==> c.pairing in challenges && challenges[c.pairing].expiresAt <= c.now)
      && (v.WrongSecret? <==>
            && c.pairing in challenges && c.now < challenges[c.pairing].expiresAt
            && challenges[c.pairing].digest != Identity.Hmac(key, c.secret))
  {}

  /** What a claim that is not accepted does to the challenges: an expired one goes, a wrong secret is counted or is the
      last one permitted, and everything else stays. */
  lemma RefusalEffect(challenges: map<Id, Challenge>, key: nat, max: nat, c: Input)
    requires !Judge(challenges, key, c).Accepted?
    ensures var after := Unaccepted(challenges, key, max, c);
      && after - {c.pairing} == challenges - {c.pairing}
      && (c.pairing in after <==>
            && c.pairing in challenges && c.now < challenges[c.pairing].expiresAt
            && (challenges[c.pairing].digest != Identity.Hmac(key, c.secret) ==>
                  challenges[c.pairing].failed + 1 < max))
      && (c.pairing in after ==>
            var r := challenges[c.pairing];
            after[c.pairing] == Challenge(r.digest, r.granted, r.expiresAt,
              if r.digest != Identity.Hmac(key, c.secret) then r.failed + 1 else r.failed))
  {}

  /** The atomic claim: it uses the challenge up and adds one device and one credential, or it leaves all three as they
      were but for the refusals. */
  lemma AtomicEffect<D>(h: Hive<D>, store: Device -> D, key: nat, max: nat, c: Input, commits: bool)
    ensures var h', v := AtomicClaim(h, store, key, max, c, commits), Judge(h.challenges, key, c);
      && (v.Accepted? && !commits ==> h' == h)
      && (v.Accepted? && commits ==>
            && h'.challenges == h.challenges - {c.pairing}
            && h'.devices == h.devices[c.device := store(v.device)]
            && h'.live == h.live[c.device := v.issuance])
      && (!v.Accepted? ==> h' == Hive(Unaccepted(h.challenges, key, max, c), h.devices, h.live))
  {}

  /** A claim that is not accepted does the same in both services, and touches neither store. */
  lemma UnacceptedAlike<D>(h: Hive<D>, store: Device -> D, key: nat, max: nat, c: Input, fault: Fault, commit: Commit)
    requires !Judge(h.challenges, key, c).Accepted?
    ensures CompensatedClaim(h, store, key, max, c, fault) == TransactionalClaim(h, store, key, max, c, commit)
         == Hive(Unaccepted(h.challenges, key, max, c), h.devices, h.live)
  {}
}
