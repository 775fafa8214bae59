/** The two identity stores: an in-memory two-way index and a table with one row a device.  Both refine one
    map, from each device to its latest unrevoked token. */
module Identity {
  import opened Domain
  import opened Tokens

  /** A keyed HMAC digest, uninterpreted: equal digests come from equal keys and equal messages. */
  datatype Digest = Hmac(key: nat, message: string)

  datatype Issuance = Issuance(id: Uuid, secret: string, token: string)

  /** Issued by the codec: the token is built from the id and an acceptable secret. */
  predicate Proper(x: Issuance) {
    IssueToken(x.id, x.secret) == Issued(x.token)
  }

  /** What has successfully happened to the store, in order. */
  datatype Change = Grant(device: Id, issuance: Issuance) | Revocation(device: Id)

  /** The abstract store. */
  function Live(history: seq<Change>): map<Id, Issuance> {
    if history == [] then map[] else After(Live(history[..|history| - 1]), history[|history| - 1])
  }

  function After(live: map<Id, Issuance>, c: Change): map<Id, Issuance> {
    if c.Grant? then live[c.device := c.issuance] else live - {c.device}
  }

  /** Said of the history alone: x was issued to d and nothing has happened to d since. */
  ghost predicate LatestUnrevoked(history: seq<Change>, d: Id, x: Issuance) {
    exists i :: 0 <= i < |history| && history[i] == Grant(d, x)
      && forall j :: i < j < |history| ==> history[j].device != d
  }

  lemma {:induction false} LiveIsLatest(history: seq<Change>, d: Id, x: Issuance)
    ensures LatestUnrevoked(history, d, x) <==> d in Live(history) && Live(history)[d] == x
  {
    if history != [] {
      var before, last := history[..|history| - 1], history[|history| - 1];
      LiveIsLatest(before, d, x);
      if LatestUnrevoked(before, d, x) && last.device != d {
        var i :| 0 <= i < |before| && before[i] == Grant(d, x)
          && forall j :: i < j < |before| ==> before[j].device != d;
        assert history[i] == Grant(d, x);
        assert forall j :: i < j < |history| ==> history[j].device != d;
      }
      if LatestUnrevoked(history, d, x) && last.device != d {
        var i :| 0 <= i < |history| && history[i] == Grant(d, x)
          && forall j :: i < j < |history| ==> history[j].device != d;
        assert before[i] == Grant(d, x);
        assert forall j :: i < j < |before| ==> before[j].device != d;
      }
      if last == Grant(d, x) {
        assert history[|history| - 1] == Grant(d, x);
      }
    }
  }

  lemma LiveGrows(history: seq<Change>, c: Change)
    ensures Live(history + [c]) == After(Live(history), c)
  {}

  /** Only tokens that can be parsed back can authenticate. */
  predicate Presentable(x: Issuance) {
    |x.secret| <= MAX_SECRET
  }

  /** The token is d's latest unrevoked one, and short enough to be looked at. */
  ghost predicate Names(history: seq<Change>, token: string, d: Id) {
    exists x :: LatestUnrevoked(history, d, x) && Presentable(x) && token == x.token
  }

  lemma NamesIsLive(history: seq<Change>, token: string, d: Id)
    ensures Names(history, token, d) <==>
      d in Live(history) && Presentable(Live(history)[d]) && token == Live(history)[d].token
  {
    if d in Live(history) {
      LiveIsLatest(history, d, Live(history)[d]);
    }
    forall x | LatestUnrevoked(history, d, x)
      ensures d in Live(history) && Live(history)[d] == x
    {
      LiveIsLatest(history, d, x);
    }
  }

  datatype Outcome = Ok(token: string) | CodecRefused | IdTaken | UnknownDevice

  datatype Credential = Credential(device: Id, digest: Digest)

  /** The two maps are inverse to each other, and each device has a single token: its live one. */
  ghost predicate Indexed(key: nat, credentials: map<Uuid, Credential>, deviceTokens: map<Id, set<Uuid>>,
                          live: map<Id, Issuance>)
  {
    && deviceTokens.Keys == live.Keys
    && (forall d <- live ::
          && Proper(live[d])
          && deviceTokens[d] == {live[d].id}
          && live[d].id in credentials
          && credentials[live[d].id] == Credential(d, Hmac(key, live[d].token)))
    && (forall id <- credentials :: credentials[id].device in live && live[credentials[id].device].id == id)
  }

  function TokensOf(deviceTokens: map<Id, set<Uuid>>, d: Id): set<Uuid> {
    if d in deviceTokens then deviceTokens[d] else {}
  }

  lemma PoppingKeepsIndexed(key: nat, credentials: map<Uuid, Credential>, deviceTokens: map<Id, set<Uuid>>,
                            live: map<Id, Issuance>, d: Id)
    requires Indexed(key, credentials, deviceTokens, live)
    ensures Indexed(key, credentials - TokensOf(deviceTokens, d), deviceTokens - {d}, live - {d})
  {
    forall e | e in live - {d}
      ensures live[e].id !in TokensOf(deviceTokens, d)
    {
      assert credentials[live[e].id].device == e;
    }
  }

  lemma AddingKeepsIndexed(key: nat, credentials: map<Uuid, Credential>, deviceTokens: map<Id, set<Uuid>>,
                           live: map<Id, Issuance>, d: Id, x: Issuance)
    requires Indexed(key, credentials, deviceTokens, live) && d !in live && x.id !in credentials && Proper(x)
    ensures Indexed(key, credentials[x.id := Credential(d, Hmac(key, x.token))], deviceTokens[d := {x.id}],
                    live[d := x])
  {}

  class MemoryIdentity {
    const key: nat
    var credentials: map<Uuid, Credential>
    var deviceTokens: map<Id, set<Uuid>>
    ghost var history: seq<Change>
    ghost var live: map<Id, Issuance>

    ghost predicate Valid()
      reads this
    {
      live == Live(history) && Indexed(key, credentials, deviceTokens, live)
    }

    constructor (key: nat)
      ensures Valid() && history == []
    {
      this.key, credentials, deviceTokens, history, live := key, map[], map[], [], map[];
    }

    ghost method Record(c: Change)
      requires live == Live(history)
      modifies this`history, this`live
      ensures history == old(history) + [c] && live == Live(history) == After(old(live), c)
    {
      LiveGrows(history, c);
      history := history + [c];
      live := After(live, c);
    }

    /** Drop every credential of a device from both maps. */
    method PopTokens(device: Id)
      modifies this`credentials, this`deviceTokens
      ensures deviceTokens == old(deviceTokens) - {device}
      ensures credentials == old(credentials) - TokensOf(old(deviceTokens), device)
    {
      var ids := TokensOf(deviceTokens, device);
      ghost var all := ids;
      deviceTokens := deviceTokens - {device};
      while ids != {}
        invariant ids <= all
        invariant credentials == old(credentials) - (all - ids)
        invariant deviceTokens == old(deviceTokens) - {device}
        decreases ids
      {
        var id :| id in ids;
        credentials := credentials - {id};
        ids := ids - {id};
      }
    }

    /** Issue the id and secret drawn for it; all earlier tokens of the device stop working. */
    method Issue(device: Id, id: Uuid, secret: string) returns (outcome: Outcome)
      requires Valid()
      modifies this
      ensures Valid()
      ensures outcome ==
        if !IssueToken(id, secret).Issued? then CodecRefused
        else if id in old(credentials) then IdTaken
        else Ok(Token(id, secret))
      ensures history == old(history) + if outcome.Ok? then [Grant(device, Issuance(id, secret, outcome.token))] else []
      ensures live == if outcome.Ok? then old(live)[device := Issuance(id, secret, outcome.token)] else old(live)
    {
      var issued := IssueToken(id, secret);
      if !issued.Issued? {
        return CodecRefused;
      }
      if id in credentials {
        return IdTaken;
      }
      ghost var x := Issuance(id, secret, issued.token);
      PoppingKeepsIndexed(key, credentials, deviceTokens, live, device);
      PopTokens(device);
      AddingKeepsIndexed(key, credentials, deviceTokens, live - {device}, device, x);
      assert (live - {device})[device := x] == live[device := x];
      credentials := credentials[id := Credential(device, Hmac(key, issued.token))];
      deviceTokens := deviceTokens[device := {id}];
      Record(Grant(device, Issuance(id, secret, issued.token)));
      outcome := Ok(issued.token);
    }

    method Revoke(device: Id)
      requires Valid()
      modifies this
      ensures Valid() && history == old(history) + [Revocation(device)] && live == old(live) - {device}
    {
      PoppingKeepsIndexed(key, credentials, deviceTokens, live, device);
      PopTokens(device);
      Record(Revocation(device));
    }

    /** Some device exactly when the token is that device's latest unrevoked one. */
    method Authenticate(token: string) returns (device: Option<Id>)
      requires Valid()
      ensures forall d: Id :: device == Some(d) <==> Names(history, token, d)
    {
      forall d: Id
        ensures Names(history, token, d) <==>
          d in Live(history) && token == Live(history)[d].token && ParseTokenId(token) == Some(Live(history)[d].id)
      {
        LookupIsNames(history, token, d);
      }
      device := None;
      var id := ParseTokenId(token);
      if id.Some? && id.value in credentials {
        var record := credentials[id.value];
        if record.digest == Hmac(key, token) {
          device := Some(record.device);
        }
      }
    }
  }

  /** Looking a token up by its parsed id finds exactly the device whose live token it is. */
  lemma LookupIsNames(history: seq<Change>, token: string, d: Id)
    requires d in Live(history) ==> Proper(Live(history)[d])
    ensures Names(history, token, d) <==>
      d in Live(history) && token == Live(history)[d].token && ParseTokenId(token) == Some(Live(history)[d].id)
  {
    NamesIsLive(history, token, d);
    if d in Live(history) {
      IssuedTokenParses(Live(history)[d].id, Live(history)[d].secret);
    }
  }

  /** A credential row; device_id is unique, so the table is a map from it, and id is the primary key. */
  datatype CredentialRow = CredentialRow(id: Uuid, digest: Digest)

  /** One row a device, holding its live token; no two rows share a primary key. */
  ghost predicate Tabled(key: nat, rows: map<Id, CredentialRow>, live: map<Id, Issuance>) {
    && rows.Keys == live.Keys
    && (forall d <- live :: Proper(live[d]) && rows[d] == CredentialRow(live[d].id, Hmac(key, live[d].token)))
    && (forall d, e | d in rows && e in rows :: rows[d].id == rows[e].id ==> d == e)
  }

  /** The devices whose row has this primary key: at most one. */
  function Owners(rows: map<Id, CredentialRow>, id: Uuid): set<Id> {
    set d | d in rows && rows[d].id == id
  }

  lemma UpsertKeepsTabled(key: nat, rows: map<Id, CredentialRow>, live: map<Id, Issuance>, d: Id, x: Issuance)
    requires Tabled(key, rows, live) && Owners(rows, x.id) - {d} == {} && Proper(x)
    ensures Tabled(key, rows[d := CredentialRow(x.id, Hmac(key, x.token))], live[d := x])
  {
    forall e | e in rows && e != d
      ensures rows[e].id != x.id
    {
      assert e !in Owners(rows, x.id) - {d};
    }
  }

  class SqlIdentity {
    const key: nat
    var rows: map<Id, CredentialRow>
    ghost var history: seq<Change>
    ghost var live: map<Id, Issuance>

    ghost predicate Valid()
      reads this
    {
      live == Live(history) && Tabled(key, rows, live)
    }

    constructor (key: nat)
      ensures Valid() && history == []
    {
      this.key, rows, history, live := key, map[], [], map[];
    }

    ghost method Record(c: Change)
      requires live == Live(history)
      modifies this`history, this`live
      ensures history == old(history) + [c] && live == Live(history) == After(old(live), c)
    {
      LiveGrows(history, c);
      history := history + [c];
      live := After(live, c);
    }

    /** Insert the row of a credential prepared for a new device, inside a larger transaction. */
    method Insert(device: Id, x: Issuance)
      requires Valid() && Proper(x) && device !in rows && Owners(rows, x.id) == {}
      modifies this
      ensures Valid() && history == old(history) + [Grant(device, x)] && live == old(live)[device := x]
    {
      UpsertKeepsTabled(key, rows, live, device, x);
      rows := rows[device := CredentialRow(x.id, Hmac(key, x.token))];
      Record(Grant(device, x));
    }

    /** One upsert on device_id: the whole statement is committed or nothing is. */
    method Issue(device: Id, registered: bool, id: Uuid, secret: string) returns (outcome: Outcome)
      requires Valid()
      modifies this
      ensures Valid()
      ensures outcome ==
        if !IssueToken(id, secret).Issued? then CodecRefused
        else if !registered then UnknownDevice
        else if Owners(old(rows), id) - {device} != {} then IdTaken
        else Ok(Token(id, secret))
      ensures history == old(history) + if outcome.Ok? then [Grant(device, Issuance(id, secret, outcome.token))] else []
      ensures live == if outcome.Ok? then old(live)[device := Issuance(id, secret, outcome.token)] else old(live)
    {
      var issued := IssueToken(id, secret);
      if !issued.Issued? {
        return CodecRefused;
      }
      if !registered {
        return UnknownDevice;
      }
      if Owners(rows, id) - {device} != {} {
        return IdTaken;
      }
      UpsertKeepsTabled(key, rows, live, device, Issuance(id, secret, issued.token));
      rows := rows[device := CredentialRow(id, Hmac(key, issued.token))];
      Record(Grant(device, Issuance(id, secret, issued.token)));
      outcome := Ok(issued.token);
    }

    method Revoke(device: Id)
      requires Valid()
      modifies this
      ensures Valid() && history == old(history) + [Revocation(device)] && live == old(live) - {device}
    {
      rows := rows - {device};
      Record(Revocation(device));
    }

    method Authenticate(token: string) returns (device: Option<Id>)
      requires Valid()
      ensures forall d: Id :: device == Some(d) <==> Names(history, token, d)
    {
      forall d: Id
        ensures Names(history, token, d) <==>
          d in Live(history) && token == Live(history)[d].token && ParseTokenId(token) == Some(Live(history)[d].id)
      {
        LookupIsNames(history, token, d);
      }
      device := None;
      var id := ParseTokenId(token);
      if id.Some? {
        var owners := Owners(rows, id.value);
        assert forall d <- rows :: rows[d].id == id.value ==> d in owners;
        if owners != {} {
          var d :| d in owners;
          if rows[d].digest == Hmac(key, token) {
            device := Some(d);
          }
        }
      }
    }
  }
}
