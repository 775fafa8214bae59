/** The two pairing services, each with its stores; their challenges are kept in the same way. */
module PairingStores {
  import opened Domain
  import opened Registry
  import opened Pairing
  import PairingRuns
  import Tokens
  import Identity

  datatype Creation = Created(secret: string, expiresAt: int) | BadLifetime | SecretTooShort | IdTaken

  datatype ClaimOutcome = Credential(device: Device, token: string) | Declined | Raised

  /** Answered with nothing, rather than with an error. */
  predicate Declines(v: Verdict) {
    v.NoChallenge? || v.Expired? || v.WrongSecret?
  }

  /** A credential is filed under a token id exactly if some device's live token has it. */
  lemma TakenIsIndexed(key: nat, credentials: map<Tokens.Uuid, Identity.Credential>,
                       deviceTokens: map<Id, set<Tokens.Uuid>>, live: map<Id, Identity.Issuance>, id: Tokens.Uuid)
    requires Identity.Indexed(key, credentials, deviceTokens, live)
    ensures id in credentials <==> TokenTaken(live, id)
  {}

  /** A row has a token id exactly if some device's live token has it. */
  lemma TakenIsOwned(rows: map<Id, Identity.CredentialRow>, live: map<Id, Identity.Issuance>, key: nat, id: Tokens.Uuid)
    requires Identity.Tabled(key, rows, live)
    ensures Identity.Owners(rows, id) != {} <==> TokenTaken(live, id)
  {
    assert forall d <- live :: live[d].id == id ==> d in Identity.Owners(rows, id);
  }

  lemma RemovedAgain<V>(m: map<Id, V>, k: Id, v: V)
    ensures m[k := v] - {k} == m - {k}
  {}

  /** The challenge lets in exactly its secret until it expires, and grants what it was created with. */
  ghost predicate Opens(challenges: map<Id, Challenge>, key: nat, id: Id, secret: string, granted: set<Capability>,
                        expiresAt: int)
  {
    forall c: Input :: c.pairing == id ==>
      var v := Judge(challenges, key, c);
      && !v.NoChallenge?
      && (v.Expired? <==> c.now >= expiresAt)
      && (v.WrongSecret? <==> c.now < expiresAt && c.secret != secret)
      && (v.Accepted? ==> v.device.granted == granted)
  }

  lemma FiledOpens(challenges: map<Id, Challenge>, key: nat, id: Id, secret: string, granted: set<Capability>,
                   expiresAt: int)
    requires id in challenges && challenges[id] == Challenge(Identity.Hmac(key, secret), granted, expiresAt, 0)
    ensures Opens(challenges, key, id, secret, granted, expiresAt)
  {}

  /** The table of challenges, and what both services do to it short of an accepted claim. */
  class Challenges {
    const key: nat
    const max: nat
    var pairings: map<Id, Challenge>

    constructor (key: nat, max: nat)
      ensures this.key == key && this.max == max && pairings == map[]
    {
      this.key, this.max, pairings := key, max, map[];
    }

    /** File a challenge, unless the lifetime, the secret or the drawn id is refused. */
    method Create(id: Id, secret: string, granted: set<Capability>, ttl: int, now: int) returns (outcome: Creation)
      modifies this
      ensures outcome.BadLifetime? <==> ttl <= 0
      ensures outcome.SecretTooShort? <==> ttl > 0 && |secret| < MIN_SECRET
      ensures outcome.IdTaken? <==> ttl > 0 && |secret| >= MIN_SECRET && id in old(pairings)
      ensures !outcome.Created? ==> pairings == old(pairings)
      ensures outcome.Created? ==>
        && outcome.secret == secret && outcome.expiresAt == now + ttl
        && id in pairings && pairings - {id} == old(pairings)
        && Opens(pairings, key, id, secret, granted, outcome.expiresAt)
        && IsCreated(key, max, old(pairings), id, pairings)
    {
      if ttl <= 0 {
        return BadLifetime;
      }
      if |secret| < MIN_SECRET {
        return SecretTooShort;
      }
      if id in pairings {
        return IdTaken;
      }
      pairings := pairings[id := Challenge(Identity.Hmac(key, secret), granted, now + ttl, 0)];
      outcome := Created(secret, now + ttl);
      FiledOpens(pairings, key, id, secret, granted, now + ttl);
    }

    /** Expire, or count a wrong secret; what an unaccepted claim does to the challenges. */
    method Refuse(c: Input, verdict: Verdict)
      requires verdict == Judge(pairings, key, c) && !verdict.Accepted?
      modifies this`pairings
      ensures pairings == Unaccepted(old(pairings), key, max, c)
    {
      if verdict.Expired? {
        pairings := pairings - {c.pairing};
      } else if verdict.WrongSecret? {
        var failed := pairings[c.pairing].failed + 1;
        pairings := pairings[c.pairing := pairings[c.pairing].(failed := failed)];
        if failed >= max {
          pairings := pairings - {c.pairing};
        }
      }
    }
  }

  /** The creation event of the pairing machine. */
  ghost predicate IsCreated(key: nat, max: nat, before: map<Id, Challenge>, id: Id, after: map<Id, Challenge>) {
    && id in after && after[id].failed == 0
    && forall s: PairingRuns.State :: s.h.challenges == before ==>
         PairingRuns.Next(s, key, max, PairingRuns.Create(id, after[id])).h.challenges == after
  }

  class MemoryPairing {
    const challenges: Challenges
    const registry: MemoryRegistry
    const identity: Identity.MemoryIdentity

    ghost predicate Valid()
      reads identity
    {
      challenges.max >= 1 && identity.Valid()
    }

    ghost function View(): Hive<Device>
      reads challenges, registry, identity
    {
      Hive(challenges.pairings, registry.devices, identity.live)
    }

    constructor (challenges: Challenges, registry: MemoryRegistry, identity: Identity.MemoryIdentity)
      requires challenges.max >= 1 && identity.Valid()
      ensures Valid() && this.challenges == challenges && this.registry == registry && this.identity == identity
    {
      this.challenges, this.registry, this.identity := challenges, registry, identity;
    }

    /** Both undo steps run, whatever was done. */
    method Compensate(device: Id)
      requires identity.Valid()
      modifies registry, identity
      ensures identity.Valid() && identity.live == old(identity.live) - {device}
      ensures registry.devices == old(registry.devices) - {device}
    {
      identity.Revoke(device);
      var _ := registry.Remove(device);
    }

    /** The id and secret were drawn so that the codec issues a token for them. */
    method Grant(device: Id, x: Identity.Issuance) returns (granted: bool)
      requires identity.Valid() && Identity.Proper(x)
      modifies identity
      ensures identity.Valid()
      ensures granted <==> old(x.id !in identity.credentials)
      ensures identity.live == if granted then old(identity.live)[device := x] else old(identity.live)
    {
      var issued := identity.Issue(device, x.id, x.secret);
      granted := issued.Ok?;
    }

    /** Add the device, unless the task fails before it; a failure after it leaves the device behind. */
    method Add(device: Device, fault: Fault) returns (added: bool)
      modifies registry
      ensures added <==> fault == NoFault && device.id !in old(registry.devices)
      ensures
        || registry.devices == old(registry.devices)
        || registry.devices == old(registry.devices)[device.id := device]
      ensures added ==> device.id in registry.devices && registry.devices[device.id] == device
    {
      added := fault == NoFault;
      if fault != BeforeAdd {
        var outcome := registry.Add(device);
        added := added && outcome == Done;
      }
    }

    /** Issue, add, and compensate if adding fails or is cancelled. */
    method Enroll(device: Device, x: Identity.Issuance, fault: Fault) returns (enrolled: bool)
      requires identity.Valid() && Identity.Proper(x)
      modifies registry, identity
      ensures identity.Valid()
      ensures enrolled <==>
        old(x.id !in identity.credentials) && fault == NoFault && device.id !in old(registry.devices)
      ensures registry.devices ==
        if enrolled then old(registry.devices)[device.id := device]
        else if old(x.id in identity.credentials) then old(registry.devices)
        else old(registry.devices) - {device.id}
      ensures identity.live ==
        if enrolled then old(identity.live)[device.id := x]
        else if old(x.id in identity.credentials) then old(identity.live)
        else old(identity.live) - {device.id}
    {
      RemovedAgain(identity.live, device.id, x);
      RemovedAgain(registry.devices, device.id, device);
      var granted := Grant(device.id, x);
      if !granted {
        return false;
      }
      enrolled := Add(device, fault);
      if !enrolled {
        Compensate(device.id);
      }
    }

    /** The challenge goes last, and only if both stores hold the device. */
    method Claim(c: Input, fault: Fault) returns (outcome: ClaimOutcome)
      requires Valid()
      modifies challenges, registry, identity
      ensures Valid()
      ensures View() == CompensatedClaim(old(View()), Same, challenges.key, challenges.max, c, fault)
      ensures outcome.Credential? <==>
        && Judge(old(challenges.pairings), challenges.key, c).Accepted?
        && !TokenTaken(old(identity.live), c.tokenId) && !AddFails(old(View()), c, fault)
      ensures outcome.Declined? <==> Declines(Judge(old(challenges.pairings), challenges.key, c))
      ensures outcome.Credential? ==>
        && c.pairing in old(challenges.pairings) && c.pairing !in challenges.pairings
        && outcome.device == DeviceOf(c, old(challenges.pairings)[c.pairing].granted) && outcome.token == TokenOf(c)
        && c.device in registry.devices && registry.devices[c.device] == outcome.device
        && c.device in identity.live && identity.live[c.device].token == outcome.token
    {
      var verdict := Judge(challenges.pairings, challenges.key, c);
      if !verdict.Accepted? {
        challenges.Refuse(c, verdict);
        return if Declines(verdict) then Declined else Raised;
      }
      MadeDeviceHasId(challenges.pairings, challenges.key, c);
      AcceptedExactly(challenges.pairings, challenges.key, c);
      TakenIsIndexed(identity.key, identity.credentials, identity.deviceTokens, identity.live, c.tokenId);
      var enrolled := Enroll(verdict.device, verdict.issuance, fault);
      if !enrolled {
        return Raised;
      }
      challenges.pairings := challenges.pairings - {c.pairing};
      outcome := Credential(verdict.device, verdict.issuance.token);
    }
  }

  class SqlPairing {
    const challenges: Challenges
    const registry: SqlRegistry
    const identity: Identity.SqlIdentity

    ghost predicate Valid()
      reads identity
    {
      challenges.max >= 1 && identity.Valid()
    }

    ghost function View(): Hive<Record>
      reads challenges, registry, identity
    {
      Hive(challenges.pairings, registry.rows, identity.live)
    }

    constructor (challenges: Challenges, registry: SqlRegistry, identity: Identity.SqlIdentity)
      requires challenges.max >= 1 && identity.Valid()
      ensures Valid() && this.challenges == challenges && this.registry == registry && this.identity == identity
    {
      this.challenges, this.registry, this.identity := challenges, registry, identity;
    }

    /** One transaction of both rows: a taken key or a failed commit leaves neither. */
    method Insert(device: Device, x: Identity.Issuance, commit: Commit) returns (inserted: bool)
      requires identity.Valid() && Identity.Proper(x)
      modifies registry, identity
      ensures identity.Valid()
      ensures inserted <==>
        && device.id !in old(registry.rows) && device.id !in old(identity.rows)
        && old(Identity.Owners(identity.rows, x.id)) == {} && commit != RolledBack
      ensures registry.rows ==
        if inserted then old(registry.rows)[device.id := RecordFromDomain(device)] else old(registry.rows)
      ensures identity.live == if inserted then old(identity.live)[device.id := x] else old(identity.live)
    {
      var owners := Identity.Owners(identity.rows, x.id);
      if device.id in registry.rows || device.id in identity.rows || owners != {} || commit == RolledBack {
        return false;
      }
      var _ := registry.Add(device);
      identity.Insert(device.id, x);
      inserted := true;
    }

    /** Both rows in one transaction; the same clock reading serves for expiry and for paired_at. */
    method Claim(c: Input, commit: Commit) returns (outcome: ClaimOutcome)
      requires Valid() && c.pairedAt.Aware? && c.pairedAt.instant == c.now
      modifies challenges, registry, identity
      ensures Valid()
      ensures View() == TransactionalClaim(old(View()), RecordFromDomain, challenges.key, challenges.max, c, commit)
      ensures outcome.Credential? <==>
        && Judge(old(challenges.pairings), challenges.key, c).Accepted?
        && !KeysTaken(old(View()), c) && commit == Committed
      ensures outcome.Declined? <==> Declines(Judge(old(challenges.pairings), challenges.key, c))
      ensures outcome.Credential? ==>
        && c.pairing in old(challenges.pairings) && c.pairing !in challenges.pairings
        && outcome.device == DeviceOf(c, old(challenges.pairings)[c.pairing].granted) && outcome.token == TokenOf(c)
        && c.device in registry.rows && registry.rows[c.device] == RecordFromDomain(outcome.device)
        && c.device in identity.live && identity.live[c.device].token == outcome.token
        && outcome.device.pairedAt.Aware?
        && outcome.device.pairedAt.instant < old(challenges.pairings)[c.pairing].expiresAt
    {
      var verdict := Judge(challenges.pairings, challenges.key, c);
      if !verdict.Accepted? {
        challenges.Refuse(c, verdict);
        return if Declines(verdict) then Declined else Raised;
      }
      MadeDeviceHasId(challenges.pairings, challenges.key, c);
      AcceptedExactly(challenges.pairings, challenges.key, c);
      TakenIsOwned(identity.rows, identity.live, identity.key, c.tokenId);
      var inserted := Insert(verdict.device, verdict.issuance, commit);
      if !inserted || commit == CommittedThenCancelled {
        return Raised;
      }
      challenges.pairings := challenges.pairings - {c.pairing};
      outcome := Credential(verdict.device, verdict.issuance.token);
    }
  }

  /** A device's whole enrolment: a challenge is created, claimed once with its secret, and the token that comes back
      authenticates as the device that was registered with the name, the grant and the time of the claim; the
      challenge is used up. */
  method Pair(p: MemoryPairing, secret: string, granted: set<Capability>, ttl: int, now: int, c: Input, again: Input)
    returns (device: Option<Id>, second: ClaimOutcome)
    requires p.Valid() && ttl > 0 && |secret| >= 16 && c.pairing !in p.challenges.pairings && again.pairing == c.pairing
    requires c.secret == secret && c.now < now + ttl && 1 <= |Strip(c.name)| <= 120 && c.pairedAt.Aware?
    requires 16 <= |c.tokenSecret| <= 215 && '.' !in c.tokenSecret && Drawn(p.View(), c)
    modifies p.challenges, p.registry, p.identity
    ensures p.Valid() && device == Some(c.device) && second == Declined
    ensures p.registry.devices == old(p.registry.devices)[c.device := DeviceOf(c, granted)]
    ensures p.challenges.pairings == old(p.challenges.pairings)
  {
    var created := p.challenges.Create(c.pairing, secret, granted, ttl, now);
    JudgedByOwnSecret(p.challenges.pairings, p.challenges.key, c, secret, granted, now + ttl);
    var claimed := p.Claim(c, NoFault);
    Identity.NamesIsLive(p.identity.history, claimed.token, c.device);
    device := p.identity.Authenticate(claimed.token);
    second := p.Claim(again, NoFault);
  }

  lemma JudgedByOwnSecret(challenges: map<Id, Challenge>, key: nat, c: Input, secret: string,
                          granted: set<Capability>, expiresAt: int)
    requires Opens(challenges, key, c.pairing, secret, granted, expiresAt)
    requires c.secret == secret && c.now < expiresAt && 1 <= |Strip(c.name)| <= 120 && c.pairedAt.Aware?
    requires 16 <= |c.tokenSecret| && '.' !in c.tokenSecret
    ensures Judge(challenges, key, c).Accepted? && c.pairing in challenges && challenges[c.pairing].granted == granted
  {
    RefusedExactly(challenges, key, c);
    AcceptedExactly(challenges, key, c);
  }
}
