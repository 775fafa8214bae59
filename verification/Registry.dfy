/** Devices and their two registries: one keeps device values, the other durable rows. */
module Registry {
  import opened Domain

  /** A datetime with or without a zone; offsets are in the unit of instants. */
  datatype Stamp = Naive(wall: int) | Aware(instant: int, offset: int)

  /** Python's ==: two aware values are equal when they are the same instant. */
  predicate SameStamp(a: Stamp, b: Stamp) {
    if a.Aware? && b.Aware? then a.instant == b.instant else a == b
  }

  predicate SameOptional(a: Option<Stamp>, b: Option<Stamp>) {
    if a.Some? && b.Some? then SameStamp(a.value, b.value) else a == b
  }

  function AsUtc(s: Stamp): Stamp {
    match s
    case Naive(wall) => Aware(wall, 0)
    case Aware(instant, _) => Aware(instant, 0)
  }

  function AsUtcOptional(s: Option<Stamp>): Option<Stamp> {
    if s.Some? then Some(AsUtc(s.value)) else None
  }

  datatype Device = Device(
    id: Id, name: string, granted: set<Capability>, pairedAt: Stamp, status: Status,
    advertised: set<Capability>, lastSeenAt: Option<Stamp>, revokedAt: Option<Stamp>)

  const MAX_NAME: nat := 120

  /** What Device's own checks let through; None where they raise. */
  function MakeDevice(id: Id, name: string, granted: set<Capability>, pairedAt: Stamp, status: Status,
                      advertised: set<Capability>, lastSeenAt: Option<Stamp>, revokedAt: Option<Stamp>): Option<Device>
  {
    var normalized := Strip(name);
    if normalized == [] || |normalized| > MAX_NAME then None
    else if pairedAt.Naive? then None
    else if (lastSeenAt.Some? && lastSeenAt.value.Naive?) || (revokedAt.Some? && revokedAt.value.Naive?) then None
    else if (status == Revoked) != revokedAt.Some? then None
    else Some(Device(id, normalized, granted, pairedAt, status, advertised, lastSeenAt, revokedAt))
  }

  /** A device is made exactly if its stripped name has 1 to 120 characters, its stamps are aware, and it is revoked
      exactly if it has a revocation time; it is what was given, with the name stripped. */
  lemma MadeExactly(id: Id, name: string, granted: set<Capability>, pairedAt: Stamp, status: Status,
                    advertised: set<Capability>, lastSeenAt: Option<Stamp>, revokedAt: Option<Stamp>)
    ensures var d := MakeDevice(id, name, granted, pairedAt, status, advertised, lastSeenAt, revokedAt);
      && (d.Some? <==>
            && 1 <= |Strip(name)| <= 120
            && pairedAt.Aware? && (lastSeenAt.Some? ==> lastSeenAt.value.Aware?)
            && (revokedAt.Some? ==> revokedAt.value.Aware?)
            && (status == Revoked <==> revokedAt.Some?))
      && (d.Some? ==> d.value == Device(id, Strip(name), granted, pairedAt, status, advertised, lastSeenAt, revokedAt))
  {}

  /** A device that exists has passed its checks. */
  predicate WellMade(d: Device) {
    MakeDevice(d.id, d.name, d.granted, d.pairedAt, d.status, d.advertised, d.lastSeenAt, d.revokedAt) == Some(d)
  }

  lemma MadeIsWellMade(id: Id, name: string, granted: set<Capability>, pairedAt: Stamp, status: Status,
                       advertised: set<Capability>, lastSeenAt: Option<Stamp>, revokedAt: Option<Stamp>)
    ensures var d := MakeDevice(id, name, granted, pairedAt, status, advertised, lastSeenAt, revokedAt);
      d.Some? ==> WellMade(d.value)
  {
    StripProjects(name);
    StripProjects(Strip(name));
  }

  /** Dataclass equality. */
  predicate SameDevice(a: Device, b: Device) {
    && a.id == b.id && a.name == b.name && a.granted == b.granted && SameStamp(a.pairedAt, b.pairedAt)
    && a.status == b.status && a.advertised == b.advertised
    && SameOptional(a.lastSeenAt, b.lastSeenAt) && SameOptional(a.revokedAt, b.revokedAt)
  }

  // ---------- Rows ----------

  datatype Record = Record(id: Id, name: string, granted: seq<Capability>, pairedAt: Stamp, revokedAt: Option<Stamp>)

  /** Capabilities in the order of their values: "files", "open_app", "system". */
  function SortedGrants(s: set<Capability>): seq<Capability> {
    (if Files in s then [Files] else [])
    + (if OpenApp in s then [OpenApp] else [])
    + (if System in s then [System] else [])
  }

  function GrantSet(s: seq<Capability>): set<Capability> {
    set c <- s
  }

  lemma GrantsRoundTrip(s: set<Capability>)
    ensures GrantSet(SortedGrants(s)) == s
  {
    forall c: Capability
      ensures c in SortedGrants(s) <==> c in s
    {
      match c
      case OpenApp =>
      case Files =>
      case System =>
    }
  }

  function RecordFromDomain(d: Device): Record {
    Record(d.id, d.name, SortedGrants(d.granted), d.pairedAt, d.revokedAt)
  }

  /** How a datetime column comes back: with a zone of the server's choosing, or as its bare wall clock. */
  datatype Backend = Zoned(serverOffset: int) | WallClock

  function Column(b: Backend, s: Stamp): Stamp {
    match b
    case Zoned(o) => if s.Aware? then Aware(s.instant, o) else s
    case WallClock => if s.Aware? then Naive(s.instant + s.offset) else s
  }

  function Fetched(b: Backend, r: Record): Record {
    r.(pairedAt := Column(b, r.pairedAt),
       revokedAt := if r.revokedAt.Some? then Some(Column(b, r.revokedAt.value)) else None)
  }

  function ToDomain(r: Record): Option<Device> {
    var revokedAt := AsUtcOptional(r.revokedAt);
    MakeDevice(r.id, r.name, GrantSet(r.granted), AsUtc(r.pairedAt),
               if revokedAt.Some? then Revoked else Offline, {}, None, revokedAt)
  }

  /** The device that a row written from d gives back. */
  function ReadBack(b: Backend, d: Device): Option<Device> {
    ToDomain(Fetched(b, RecordFromDomain(d)))
  }

  predicate ZeroOffset(s: Stamp) {
    s.Aware? && s.offset == 0
  }

  /** No live state, and stamps the backend keeps. */
  predicate Durable(b: Backend, d: Device) {
    && (d.status == Offline || d.status == Revoked)
    && d.advertised == {}
    && d.lastSeenAt.None?
    && (b.WallClock? ==> ZeroOffset(d.pairedAt) && (d.revokedAt.Some? ==> ZeroOffset(d.revokedAt.value)))
  }

  /** A device survives the row exactly when it carries no live state and, on a backend that keeps only
      the wall clock, its stamps are in UTC. */
  lemma SurvivesRowIffDurable(b: Backend, d: Device)
    requires WellMade(d)
    ensures ReadBack(b, d).Some?
    ensures SameDevice(ReadBack(b, d).value, d) <==> Durable(b, d)
  {
    GrantsRoundTrip(d.granted);
  }

  // ---------- The two stores ----------

  datatype Outcome = Done | AlreadyRegistered | NotFound

  datatype Operation = Add(device: Device) | Save(device: Device) | Remove(id: Id)

  /** What an operation answers, by the ids that are stored. */
  function Answer(stored: set<Id>, op: Operation): Outcome {
    match op
    case Add(d) => if d.id in stored then AlreadyRegistered else Done
    case Save(d) => if d.id in stored then Done else NotFound
    case Remove(id) => if id in stored then Done else NotFound
  }

  function InMemory(devices: map<Id, Device>, op: Operation): map<Id, Device> {
    if Answer(devices.Keys, op) != Done then devices
    else
      match op
      case Add(d) => devices[d.id := d]
      case Save(d) => devices[d.id := d]
      case Remove(id) => devices - {id}
  }

  function InRows(rows: map<Id, Record>, op: Operation): map<Id, Record> {
    if Answer(rows.Keys, op) != Done then rows
    else
      match op
      case Add(d) => rows[d.id := RecordFromDomain(d)]
      case Save(d) => rows[d.id := RecordFromDomain(d)]
      case Remove(id) => rows - {id}
  }

  /** Adding needs a new id, saving and removing a known one; done, the id has that device or is gone, and no other id
      is touched; refused, nothing is. */
  lemma OperationEffect(devices: map<Id, Device>, rows: map<Id, Record>, op: Operation)
    ensures var id := if op.Remove? then op.id else op.device.id;
      var m, r := InMemory(devices, op), InRows(rows, op);
      && (Answer(devices.Keys, op) ==
            if op.Add? then (if id in devices then AlreadyRegistered else Done)
            else (if id in devices then Done else NotFound))
      && (Answer(devices.Keys, op) != Done ==> m == devices)
      && (Answer(devices.Keys, op) == Done ==> m - {id} == devices - {id})
      && (Answer(devices.Keys, op) == Done ==> if op.Remove? then id !in m else id in m && m[id] == op.device)
      && (Answer(rows.Keys, op) != Done ==> r == rows)
      && (Answer(rows.Keys, op) ==
            if op.Add? then (if id in rows then AlreadyRegistered else Done)
            else (if id in rows then Done else NotFound))
      && (Answer(rows.Keys, op) == Done ==> r - {id} == rows - {id})
      && (Answer(rows.Keys, op) == Done ==>
            if op.Remove? then id !in r else id in r && r[id] == RecordFromDomain(op.device))
  {}

  /** What a row keeps, and what comes back from one: the name, the grant, the two stamps in UTC, and a status that the
      revocation time decides. */
  lemma RowEffect(d: Device, r: Record)
    ensures var row := RecordFromDomain(d);
      row.id == d.id && row.name == d.name && GrantSet(row.granted) == d.granted
      && row.pairedAt == d.pairedAt && row.revokedAt == d.revokedAt
    ensures var back := ToDomain(r);
      back.Some? ==>
        && back.value.id == r.id && back.value.name == Strip(r.name) && back.value.granted == GrantSet(r.granted)
        && back.value.pairedAt == AsUtc(r.pairedAt)
        && back.value.revokedAt == (if r.revokedAt.Some? then Some(AsUtc(r.revokedAt.value)) else None)
        && back.value.status == (if r.revokedAt.Some? then Revoked else Offline)
        && back.value.advertised == {} && back.value.lastSeenAt == None
  {
    GrantsRoundTrip(d.granted);
  }

  /** Reading as UTC: a bare wall clock is taken for UTC, and an aware stamp stays the same instant. */
  lemma UtcEffect(s: Stamp)
    ensures AsUtc(s) == Aware(if s.Naive? then s.wall else s.instant, 0)
  {}

  /** Grants are stored in the order of their values. */
  lemma GrantsSorted(s: set<Capability>)
    ensures var g := SortedGrants(s);
      forall i, j :: 0 <= i < j < |g| ==> ValueOrder(g[i]) < ValueOrder(g[j])
  {}

  /** "files" < "open_app" < "system". */
  function ValueOrder(c: Capability): nat {
    match c
    case Files => 0
    case OpenApp => 1
    case System => 2
  }

  /** The row gives back an equal device. */
  predicate GivesBack(b: Backend, r: Record, d: Device) {
    var fetched := ToDomain(Fetched(b, r));
    fetched.Some? && SameDevice(fetched.value, d)
  }

  /** Reads cannot tell the stores apart: the same ids, and equal devices for each. */
  ghost predicate Indistinguishable(b: Backend, devices: map<Id, Device>, rows: map<Id, Record>) {
    && devices.Keys == rows.Keys
    && forall id <- devices :: GivesBack(b, rows[id], devices[id])
  }

  /** A device that is added or saved exists. */
  predicate OnDevice(op: Operation) {
    !op.Remove? ==> WellMade(op.device)
  }

  predicate DurableOperation(b: Backend, op: Operation) {
    !op.Remove? ==> WellMade(op.device) && Durable(b, op.device)
  }

  /** Writing a durable device under its id into both stores. */
  lemma WrittenIsIndistinguishable(b: Backend, devices: map<Id, Device>, rows: map<Id, Record>, d: Device)
    requires Indistinguishable(b, devices, rows) && WellMade(d) && Durable(b, d)
    ensures Indistinguishable(b, devices[d.id := d], rows[d.id := RecordFromDomain(d)])
  {
    SurvivesRowIffDurable(b, d);
    assert GivesBack(b, RecordFromDomain(d), d);
  }

  /** An operation keeps the stores indistinguishable exactly if it writes nothing or something durable. */
  lemma OperationKeepsIndistinguishable(b: Backend, devices: map<Id, Device>, rows: map<Id, Record>, op: Operation)
    requires Indistinguishable(b, devices, rows) && OnDevice(op)
    ensures Answer(devices.Keys, op) == Answer(rows.Keys, op)
    ensures Indistinguishable(b, InMemory(devices, op), InRows(rows, op))
      <==> (Answer(devices.Keys, op) == Done ==> DurableOperation(b, op))
  {
    if !op.Remove? {
      SurvivesRowIffDurable(b, op.device);
      assert ToDomain(Fetched(b, RecordFromDomain(op.device))) == ReadBack(b, op.device);
      if Durable(b, op.device) {
        WrittenIsIndistinguishable(b, devices, rows, op.device);
      } else if Answer(devices.Keys, op) == Done {
        assert InMemory(devices, op)[op.device.id] == op.device;
      }
    }
  }

  function RunInMemory(ops: seq<Operation>): map<Id, Device> {
    if ops == [] then map[] else InMemory(RunInMemory(ops[..|ops| - 1]), ops[|ops| - 1])
  }

  function RunInRows(ops: seq<Operation>): map<Id, Record> {
    if ops == [] then map[] else InRows(RunInRows(ops[..|ops| - 1]), ops[|ops| - 1])
  }

  /** Reads cannot tell the stores apart after any prefix of the run. */
  ghost predicate AgreeThroughout(b: Backend, ops: seq<Operation>) {
    forall n: nat :: n <= |ops| ==> Indistinguishable(b, RunInMemory(ops[..n]), RunInRows(ops[..n]))
  }

  /** What an operation of the run writes is durable. */
  ghost predicate WritesDurably(b: Backend, ops: seq<Operation>) {
    forall n: nat :: n < |ops| && Answer(RunInMemory(ops[..n]).Keys, ops[n]) == Done ==> DurableOperation(b, ops[n])
  }

  /** Over any run of operations on devices the registries agree exactly if everything written is durable. */
  lemma {:induction false} RegistriesAgree(b: Backend, ops: seq<Operation>)
    requires forall op <- ops :: OnDevice(op)
    ensures AgreeThroughout(b, ops) <==> WritesDurably(b, ops)
  {
    if ops != [] {
      var before, op := ops[..|ops| - 1], ops[|ops| - 1];
      RegistriesAgree(b, before);
      AgreementSplits(b, ops);
      DurabilitySplits(b, ops);
      if AgreeThroughout(b, before) {
        AgreeAtEnd(b, before);
        OperationKeepsIndistinguishable(b, RunInMemory(before), RunInRows(before), op);
      }
    }
  }

  lemma AgreeAtEnd(b: Backend, ops: seq<Operation>)
    requires AgreeThroughout(b, ops)
    ensures Indistinguishable(b, RunInMemory(ops), RunInRows(ops))
  {
    assert ops[..|ops|] == ops;
  }

  lemma AgreementSplits(b: Backend, ops: seq<Operation>)
    requires ops != []
    ensures AgreeThroughout(b, ops) <==>
      AgreeThroughout(b, ops[..|ops| - 1]) && Indistinguishable(b, RunInMemory(ops), RunInRows(ops))
  {
    var before := ops[..|ops| - 1];
    assert ops[..|ops|] == ops;
    forall n: nat | n < |ops|
      ensures before[..n] == ops[..n]
    {}
    if AgreeThroughout(b, ops) {
      forall n: nat | n <= |before|
        ensures Indistinguishable(b, RunInMemory(before[..n]), RunInRows(before[..n]))
      {
        assert before[..n] == ops[..n];
      }
      assert Indistinguishable(b, RunInMemory(ops[..|ops|]), RunInRows(ops[..|ops|]));
    }
    if AgreeThroughout(b, before) && Indistinguishable(b, RunInMemory(ops), RunInRows(ops)) {
      forall n: nat | n <= |ops|
        ensures Indistinguishable(b, RunInMemory(ops[..n]), RunInRows(ops[..n]))
      {
        assert n < |ops| ==> before[..n] == ops[..n];
      }
    }
  }

  lemma DurabilitySplits(b: Backend, ops: seq<Operation>)
    requires ops != []
    ensures var before, op := ops[..|ops| - 1], ops[|ops| - 1];
      WritesDurably(b, ops) <==>
        WritesDurably(b, before) && (Answer(RunInMemory(before).Keys, op) == Done ==> DurableOperation(b, op))
  {
    var before := ops[..|ops| - 1];
    forall n: nat | n < |ops|
      ensures before[..n] == ops[..n]
    {}
    if WritesDurably(b, before) {
      forall n: nat | n < |ops| - 1
        ensures Answer(RunInMemory(ops[..n]).Keys, ops[n]) == Done ==> DurableOperation(b, ops[n])
      {
        assert before[n] == ops[n] && before[..n] == ops[..n];
      }
    }
    if WritesDurably(b, ops) {
      forall n: nat | n < |before|
        ensures Answer(RunInMemory(before[..n]).Keys, before[n]) == Done ==> DurableOperation(b, before[n])
      {
        assert before[n] == ops[n] && before[..n] == ops[..n];
      }
    }
  }

  class MemoryRegistry {
    var devices: map<Id, Device>

    constructor ()
      ensures devices == map[]
    {
      devices := map[];
    }

    method Add(device: Device) returns (outcome: Outcome)
      modifies this
      ensures outcome == Answer(old(devices.Keys), Operation.Add(device))
      ensures devices == InMemory(old(devices), Operation.Add(device))
    {
      if device.id in devices {
        return AlreadyRegistered;
      }
      devices := devices[device.id := device];
      outcome := Done;
    }

    method Get(id: Id) returns (device: Option<Device>)
      ensures device == if id in devices then Some(devices[id]) else None
    {
      device := if id in devices then Some(devices[id]) else None;
    }

    method Save(device: Device) returns (outcome: Outcome)
      modifies this
      ensures outcome == Answer(old(devices.Keys), Operation.Save(device))
      ensures devices == InMemory(old(devices), Operation.Save(device))
    {
      if device.id !in devices {
        return NotFound;
      }
      devices := devices[device.id := device];
      outcome := Done;
    }

    method Remove(id: Id) returns (removed: bool)
      modifies this
      ensures removed == (Answer(old(devices.Keys), Operation.Remove(id)) == Done)
      ensures devices == InMemory(old(devices), Operation.Remove(id))
    {
      removed := id in devices;
      devices := devices - {id};
    }
  }

  class SqlRegistry {
    const backend: Backend
    var rows: map<Id, Record>

    constructor (backend: Backend)
      ensures rows == map[] && this.backend == backend
    {
      this.backend, rows := backend, map[];
    }

    method Add(device: Device) returns (outcome: Outcome)
      modifies this
      ensures outcome == Answer(old(rows.Keys), Operation.Add(device))
      ensures rows == InRows(old(rows), Operation.Add(device))
    {
      var record := RecordFromDomain(device);
      if record.id in rows {
        return AlreadyRegistered;
      }
      rows := rows[record.id := record];
      outcome := Done;
    }

    method Get(id: Id) returns (device: Option<Device>)
      ensures device == if id in rows then ToDomain(Fetched(backend, rows[id])) else None
    {
      device := if id in rows then ToDomain(Fetched(backend, rows[id])) else None;
    }

    /** UPDATE … WHERE id: the row count says whether the device exists. */
    method Save(device: Device) returns (outcome: Outcome)
      modifies this
      ensures outcome == Answer(old(rows.Keys), Operation.Save(device))
      ensures rows == InRows(old(rows), Operation.Save(device))
    {
      if device.id !in rows {
        return NotFound;
      }
      rows := rows[device.id := RecordFromDomain(device)];
      outcome := Done;
    }

    method Remove(id: Id) returns (removed: bool)
      modifies this
      ensures removed == (Answer(old(rows.Keys), Operation.Remove(id)) == Done)
      ensures rows == InRows(old(rows), Operation.Remove(id))
    {
      removed := id in rows;
      rows := rows - {id};
    }
  }

  // ---------- Listings ----------

  /** Code-point order of strings. */
  predicate TextBefore(a: string, b: string) {
    if a == [] then b != []
    else b != [] && (a[0] < b[0] || (a[0] == b[0] && TextBefore(a[1..], b[1..])))
  }

  lemma TextTrichotomous(a: string, b: string)
    ensures TextBefore(a, b) || TextBefore(b, a) || a == b
    ensures !(TextBefore(a, b) && TextBefore(b, a)) && !TextBefore(a, a)
  {}

  /** One string is before another exactly if it is a shorter beginning of it, or has the smaller character at the
      first place where they differ. */
  lemma {:induction false} TextBeforeExactly(a: string, b: string)
    ensures TextBefore(a, b) <==> exists n: nat :: DiffersFirst(a, b, n)
  {
    if a == [] || b == [] {
      assert a == [] && b != [] ==> DiffersFirst(a, b, 0);
    } else if a[0] != b[0] {
      assert a[0] < b[0] ==> DiffersFirst(a, b, 0);
    } else {
      TextBeforeExactly(a[1..], b[1..]);
      assert a == [a[0]] + a[1..] && b == [b[0]] + b[1..];
      forall n: nat | DiffersFirst(a[1..], b[1..], n)
        ensures DiffersFirst(a, b, n + 1)
      {
        assert a[..n + 1] == [a[0]] + a[1..][..n] && b[..n + 1] == [b[0]] + b[1..][..n];
      }
      forall n: nat | DiffersFirst(a, b, n)
        ensures n > 0 && DiffersFirst(a[1..], b[1..], n - 1)
      {
        assert n > 0 ==> a[..n] == [a[0]] + a[1..][..n - 1] && b[..n] == [b[0]] + b[1..][..n - 1];
      }
    }
  }

  predicate DiffersFirst(a: string, b: string, n: nat) {
    n <= |a| && n < |b| && a[..n] == b[..n] && (n == |a| || a[n] < b[n])
  }

  /** The service sorts by folded name first and by the id's text among equal names. */
  lemma BeforeExactly(k: Keys, a: Device, b: Device)
    ensures k.fold(a.name) != k.fold(b.name) ==> (Before(k, a, b) <==> TextBefore(k.fold(a.name), k.fold(b.name)))
    ensures k.fold(a.name) == k.fold(b.name) ==> (Before(k, a, b) <==> TextBefore(k.text(a.id), k.text(b.id)))
  {
    TextTrichotomous(k.fold(a.name), k.fold(b.name));
  }

  /** How the service reads a device's sort key: its name's case folding and its id's text. */
  datatype Keys = Keys(fold: string -> string, text: Id -> string)

  predicate Before(k: Keys, a: Device, b: Device) {
    || TextBefore(k.fold(a.name), k.fold(b.name))
    || (k.fold(a.name) == k.fold(b.name) && TextBefore(k.text(a.id), k.text(b.id)))
  }

  ghost predicate Listing(k: Keys, xs: seq<Device>) {
    forall i, j :: 0 <= i < j < |xs| ==> Before(k, xs[i], xs[j])
  }

  lemma BeforeAsymmetric(k: Keys, a: Device, b: Device)
    ensures !(Before(k, a, b) && Before(k, b, a))
    ensures Before(k, a, b) ==> !SameDevice(a, b)
  {
    TextTrichotomous(k.fold(a.name), k.fold(b.name));
    TextTrichotomous(k.text(a.id), k.text(b.id));
  }

  /** What sorting by the key promises, ties and all: nothing stands after something it is before. */
  ghost predicate Sorted(k: Keys, xs: seq<Device>) {
    forall i, j :: 0 <= i < j < |xs| ==> !Before(k, xs[j], xs[i])
  }

  ghost predicate DistinctIds(xs: seq<Device>) {
    forall i, j :: 0 <= i < j < |xs| ==> xs[i].id != xs[j].id
  }

  /** Different ids print differently. */
  ghost predicate TextInjective(k: Keys) {
    forall a: Id, b: Id :: k.text(a) == k.text(b) ==> a == b
  }

  lemma BeforeTotal(k: Keys, a: Device, b: Device)
    requires TextInjective(k) && a.id != b.id
    ensures Before(k, a, b) || Before(k, b, a)
  {
    TextTrichotomous(k.fold(a.name), k.fold(b.name));
    TextTrichotomous(k.text(a.id), k.text(b.id));
  }

  /** The key leaves no ties: sorting distinct devices by it gives a strict listing. */
  lemma SortedIsListing(k: Keys, xs: seq<Device>)
    requires TextInjective(k) && DistinctIds(xs)
    ensures Sorted(k, xs) <==> Listing(k, xs)
  {
    forall i, j | 0 <= i < j < |xs|
      ensures Before(k, xs[i], xs[j]) <==> !Before(k, xs[j], xs[i])
    {
      BeforeTotal(k, xs[i], xs[j]);
      BeforeAsymmetric(k, xs[i], xs[j]);
    }
  }

  ghost predicate Holds(ys: seq<Device>, x: Device) {
    exists j :: 0 <= j < |ys| && SameDevice(x, ys[j])
  }

  /** Every device of one list is equal to one of the other. */
  ghost predicate Covered(xs: seq<Device>, ys: seq<Device>) {
    forall i {:trigger Holds(ys, xs[i])} :: 0 <= i < |xs| ==> Holds(ys, xs[i])
  }

  lemma FirstIsFirst(k: Keys, xs: seq<Device>, ys: seq<Device>)
    requires Listing(k, xs) && Listing(k, ys) && Covered(xs, ys) && Covered(ys, xs)
    requires xs != [] && ys != []
    ensures SameDevice(xs[0], ys[0])
  {
    assert Holds(ys, xs[0]) && Holds(xs, ys[0]);
    var j :| 0 <= j < |ys| && SameDevice(xs[0], ys[j]);
    var i :| 0 <= i < |xs| && SameDevice(ys[0], xs[i]);
    BeforeAsymmetric(k, xs[0], xs[i]);
    BeforeAsymmetric(k, ys[0], ys[j]);
    BeforeAsymmetric(k, xs[0], ys[0]);
  }

  lemma TailIsCovered(k: Keys, xs: seq<Device>, ys: seq<Device>)
    requires Listing(k, xs) && Listing(k, ys) && Covered(xs, ys) && Covered(ys, xs)
    requires xs != [] && ys != []
    ensures Covered(xs[1..], ys[1..])
  {
    FirstIsFirst(k, xs, ys);
    forall i | 0 <= i < |xs[1..]|
      ensures Holds(ys[1..], xs[1..][i])
    {
      var x := xs[i + 1];
      assert Holds(ys, x);
      var j :| 0 <= j < |ys| && SameDevice(x, ys[j]);
      BeforeAsymmetric(k, xs[0], x);
      assert j > 0;
      assert ys[1..][j - 1] == ys[j];
    }
  }

  /** However the registries order their answers, and whichever of two indistinguishable ones is asked,
      the service's listing is the same list. */
  lemma {:induction false} ListingIsUnique(k: Keys, xs: seq<Device>, ys: seq<Device>)
    requires Listing(k, xs) && Listing(k, ys) && Covered(xs, ys) && Covered(ys, xs)
    ensures |xs| == |ys| && forall i :: 0 <= i < |xs| ==> SameDevice(xs[i], ys[i])
  {
    assert xs != [] ==> Holds(ys, xs[0]);
    assert ys != [] ==> Holds(xs, ys[0]);
    if xs != [] && ys != [] {
      FirstIsFirst(k, xs, ys);
      TailIsCovered(k, xs, ys);
      TailIsCovered(k, ys, xs);
      ListingIsUnique(k, xs[1..], ys[1..]);
      forall i | 0 < i < |xs|
        ensures SameDevice(xs[i], ys[i])
      {
        assert xs[i] == xs[1..][i - 1] && ys[i] == ys[1..][i - 1];
      }
    }
  }
}
