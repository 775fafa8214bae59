/** Runs of pairing and service operations over the two registries.  Each store's later writes come from its own
    earlier reads, so equal reads have to lead to equal writes. */
module RegistryRuns {
  import opened Domain
  import opened Registry

  /** What pairing and the service do to a registry.  Revoking is two steps, a read and a write. */
  datatype Act =
    | Pair(id: Id, name: string, granted: set<Capability>, now: Stamp)
    | Unpair(id: Id)      // the rollback of a claim
    | Look(id: Id)        // revoke_device reads the device
    | Revoke(now: Stamp)  // and saves it as revoked, unless it was already

  /** A store, and the device that a revocation under way has read from it. */
  datatype Store<D> = Store(kept: map<Id, D>, held: Option<Device>)

  datatype Reply = Found(device: Option<Device>) | Wrote(outcome: Outcome) | NothingToDo

  function GetInMemory(devices: map<Id, Device>, id: Id): Option<Device> {
    if id in devices then Some(devices[id]) else None
  }

  function GetFromRows(b: Backend, rows: map<Id, Record>, id: Id): Option<Device> {
    if id in rows then ToDomain(Fetched(b, rows[id])) else None
  }

  /** replace(device, status=REVOKED, …), which makes the device anew. */
  function MadeRevoked(d: Device, now: Stamp): Option<Device> {
    MakeDevice(d.id, d.name, d.granted, d.pairedAt, Revoked, {}, d.lastSeenAt, Some(now))
  }

  /** The write an act comes to; a device that cannot be made is not written. */
  function Write(held: Option<Device>, a: Act): Option<Operation> {
    match a
    case Pair(id, name, granted, now) =>
      var d := MakeDevice(id, name, granted, now, Offline, {}, None, None);
      if d.Some? then Some(Add(d.value)) else None
    case Unpair(id) => Some(Remove(id))
    case Look(_) => None
    case Revoke(now) =>
      var d := if held.Some? then MadeRevoked(held.value, now) else None;
      if d.Some? then Some(Save(d.value)) else None
  }

  /** A device that is revoked already is not revoked again. */
  function Holding(held: Option<Device>, a: Act, found: Option<Device>): Option<Device> {
    match a
    case Look(_) => if found.Some? && found.value.status != Revoked then found else None
    case Revoke(_) => None
    case _ => held
  }

  function Replied(op: Option<Operation>, a: Act, found: Option<Device>, stored: set<Id>): Reply {
    if a.Look? then Found(found) else if op.Some? then Wrote(Answer(stored, op.value)) else NothingToDo
  }

  function StepInMemory(s: Store<Device>, a: Act): (Store<Device>, Reply) {
    var op := Write(s.held, a);
    var found := if a.Look? then GetInMemory(s.kept, a.id) else None;
    (Store(if op.Some? then InMemory(s.kept, op.value) else s.kept, Holding(s.held, a, found)),
     Replied(op, a, found, s.kept.Keys))
  }

  function StepInRows(b: Backend, s: Store<Record>, a: Act): (Store<Record>, Reply) {
    var op := Write(s.held, a);
    var found := if a.Look? then GetFromRows(b, s.kept, a.id) else None;
    (Store(if op.Some? then InRows(s.kept, op.value) else s.kept, Holding(s.held, a, found)),
     Replied(op, a, found, s.kept.Keys))
  }

  function AfterInMemory(acts: seq<Act>): Store<Device> {
    if acts == [] then Store(map[], None) else StepInMemory(AfterInMemory(acts[..|acts| - 1]), acts[|acts| - 1]).0
  }

  function AfterInRows(b: Backend, acts: seq<Act>): Store<Record> {
    if acts == [] then Store(map[], None) else StepInRows(b, AfterInRows(b, acts[..|acts| - 1]), acts[|acts| - 1]).0
  }

  // ---------- What every act keeps ----------

  predicate SameFound(x: Option<Device>, y: Option<Device>) {
    if x.Some? && y.Some? then SameDevice(x.value, y.value) else x == y
  }

  predicate SameReply(x: Reply, y: Reply) {
    if x.Found? && y.Found? then SameFound(x.device, y.device) else x == y
  }

  /** The device is its own construction and survives a row. */
  predicate Lasting(b: Backend, d: Device) {
    WellMade(d) && Durable(b, d)
  }

  ghost predicate AllLasting(b: Backend, devices: map<Id, Device>) {
    forall id <- devices :: devices[id].id == id && Lasting(b, devices[id])
  }

  predicate Unrevoked(b: Backend, held: Option<Device>) {
    held.Some? ==> Lasting(b, held.value) && held.value.status == Offline
  }

  ghost predicate Alike(b: Backend, m: Store<Device>, r: Store<Record>) {
    && Indistinguishable(b, m.kept, r.kept)
    && AllLasting(b, m.kept)
    && SameFound(m.held, r.held) && Unrevoked(b, m.held) && Unrevoked(b, r.held)
  }

  /** The clock reads UTC, if the backend keeps nothing but its wall clock. */
  predicate Clocked(b: Backend, a: Act) {
    (a.Pair? || a.Revoke?) && b.WallClock? && a.now.Aware? ==> a.now.offset == 0
  }

  lemma RowsReadLasting(b: Backend, r: Record)
    ensures var d := ToDomain(Fetched(b, r)); d.Some? ==> Lasting(b, d.value)
  {
    var f := Fetched(b, r);
    var revokedAt := AsUtcOptional(f.revokedAt);
    MadeIsWellMade(f.id, f.name, GrantSet(f.granted), AsUtc(f.pairedAt), if revokedAt.Some? then Revoked else Offline,
                   {}, None, revokedAt);
  }

  /** Two equal devices revoked at the same moment are equal again, and last exactly if the clock was right. */
  lemma RevokedAlike(b: Backend, x: Device, y: Device, now: Stamp)
    requires Lasting(b, x) && Lasting(b, y) && SameDevice(x, y) && x.status == Offline
    ensures SameFound(MadeRevoked(x, now), MadeRevoked(y, now))
    ensures var d := MadeRevoked(x, now);
      d.Some? ==> WellMade(d.value) && (Durable(b, d.value) <==> Clocked(b, Revoke(now)))
    ensures var d := MadeRevoked(y, now);
      d.Some? ==> WellMade(d.value) && (Durable(b, d.value) <==> Clocked(b, Revoke(now)))
  {
    MadeIsWellMade(x.id, x.name, x.granted, x.pairedAt, Revoked, {}, x.lastSeenAt, Some(now));
    MadeIsWellMade(y.id, y.name, y.granted, y.pairedAt, Revoked, {}, y.lastSeenAt, Some(now));
  }

  lemma PairedLasts(b: Backend, a: Act)
    requires a.Pair?
    ensures var op := Write(None, a);
      op.Some? ==>
        var d := op.value.device;
        d.id == a.id && WellMade(d) && (Durable(b, d) <==> Clocked(b, a))
  {
    MadeIsWellMade(a.id, a.name, a.granted, a.now, Offline, {}, None, None);
  }

  lemma RowsGiveBack(b: Backend, x: Device, y: Device)
    requires WellMade(x) && WellMade(y) && SameDevice(x, y)
    ensures GivesBack(b, RecordFromDomain(y), x) <==> Durable(b, y)
  {
    SurvivesRowIffDurable(b, y);
    assert ToDomain(Fetched(b, RecordFromDomain(y))) == ReadBack(b, y);
  }

  lemma PutAlike(b: Backend, devices: map<Id, Device>, rows: map<Id, Record>, x: Device, r: Record)
    requires Indistinguishable(b, devices, rows)
    ensures Indistinguishable(b, devices[x.id := x], rows[x.id := r]) <==> GivesBack(b, r, x)
  {
    var devices' := devices[x.id := x];
    assert devices'[x.id] == x;
  }

  /** Equal devices written under their id, each to its store: seen alike exactly if they are durable. */
  lemma WrittenAlike(b: Backend, devices: map<Id, Device>, rows: map<Id, Record>, x: Device, y: Device)
    requires Indistinguishable(b, devices, rows) && AllLasting(b, devices)
    requires WellMade(x) && WellMade(y) && SameDevice(x, y) && (Durable(b, x) <==> Durable(b, y))
    ensures Indistinguishable(b, devices[x.id := x], rows[y.id := RecordFromDomain(y)]) <==> Durable(b, y)
    ensures Durable(b, x) ==> AllLasting(b, devices[x.id := x])
  {
    RowsGiveBack(b, x, y);
    PutAlike(b, devices, rows, x, RecordFromDomain(y));
  }

  /** The act is a write, and the store accepts it. */
  predicate Effective(m: Store<Device>, a: Act) {
    var op := Write(m.held, a);
    op.Some? && Answer(m.kept.Keys, op.value) == Done
  }

  /** What an act does to two stores that are alike. */
  ghost predicate AgreesIffClocked(b: Backend, m: Store<Device>, r: Store<Record>, a: Act) {
    var (m', x), (r', y) := StepInMemory(m, a), StepInRows(b, r, a);
    && (Indistinguishable(b, m'.kept, r'.kept) <==> (Effective(m, a) ==> Clocked(b, a)))
    && ((Effective(m, a) ==> Clocked(b, a)) ==> Alike(b, m', r'))
    && SameReply(x, y)
  }

  /** The two stores are given the same kind of write, with equal devices. */
  predicate WritesSame(x: Option<Operation>, y: Option<Operation>) {
    && x.Some? && y.Some? && !x.value.Remove?
    && (if x.value.Add? then y.value.Add? else y.value.Save?)
    && WellMade(x.value.device) && WellMade(y.value.device) && SameDevice(x.value.device, y.value.device)
  }

  lemma WrittenStores(b: Backend, devices: map<Id, Device>, rows: map<Id, Record>, x: Operation, y: Operation)
    requires Indistinguishable(b, devices, rows) && AllLasting(b, devices) && WritesSame(Some(x), Some(y))
    requires Durable(b, x.device) <==> Durable(b, y.device)
    ensures Answer(devices.Keys, x) == Answer(rows.Keys, y)
    ensures Indistinguishable(b, InMemory(devices, x), InRows(rows, y))
      <==> (Answer(devices.Keys, x) == Done ==> Durable(b, x.device))
    ensures (Answer(devices.Keys, x) == Done ==> Durable(b, x.device)) ==> AllLasting(b, InMemory(devices, x))
  {
    if Answer(devices.Keys, x) == Done {
      WrittenAlike(b, devices, rows, x.device, y.device);
      assert InMemory(devices, x) == devices[x.device.id := x.device];
      assert InRows(rows, y) == rows[y.device.id := RecordFromDomain(y.device)];
    }
  }

  lemma WriteAgrees(b: Backend, m: Store<Device>, r: Store<Record>, a: Act)
    requires Alike(b, m, r) && (a.Pair? || a.Revoke?) && WritesSame(Write(m.held, a), Write(r.held, a))
    requires Durable(b, Write(m.held, a).value.device) <==> Clocked(b, a)
    requires Durable(b, Write(r.held, a).value.device) <==> Clocked(b, a)
    ensures AgreesIffClocked(b, m, r, a)
  {
    WrittenStores(b, m.kept, r.kept, Write(m.held, a).value, Write(r.held, a).value);
  }

  lemma PairAgrees(b: Backend, m: Store<Device>, r: Store<Record>, a: Act)
    requires Alike(b, m, r) && a.Pair?
    ensures AgreesIffClocked(b, m, r, a)
  {
    PairedLasts(b, a);
    if Write(None, a).Some? {
      assert Write(m.held, a) == Write(None, a) == Write(r.held, a);
      WriteAgrees(b, m, r, a);
    }
  }

  /** The devices found are equal, and last. */
  lemma FoundAlike(b: Backend, devices: map<Id, Device>, rows: map<Id, Record>, id: Id)
    requires Indistinguishable(b, devices, rows) && AllLasting(b, devices)
    ensures var x, y := GetInMemory(devices, id), GetFromRows(b, rows, id);
      && SameFound(x, y)
      && (x.Some? ==> Lasting(b, x.value) && Lasting(b, y.value))
  {
    if id in devices {
      assert GivesBack(b, rows[id], devices[id]);
      RowsReadLasting(b, rows[id]);
    }
  }

  lemma LookAgrees(b: Backend, m: Store<Device>, r: Store<Record>, a: Act)
    requires Alike(b, m, r) && a.Look?
    ensures AgreesIffClocked(b, m, r, a)
  {
    FoundAlike(b, m.kept, r.kept, a.id);
    assert StepInMemory(m, a).0.kept == m.kept && StepInRows(b, r, a).0.kept == r.kept;
  }

  lemma RevokeAgrees(b: Backend, m: Store<Device>, r: Store<Record>, a: Act)
    requires Alike(b, m, r) && a.Revoke?
    ensures AgreesIffClocked(b, m, r, a)
  {
    if m.held.Some? {
      RevokedAlike(b, m.held.value, r.held.value, a.now);
      if MadeRevoked(m.held.value, a.now).Some? {
        WriteAgrees(b, m, r, a);
      }
    }
  }

  lemma UnpairAgrees(b: Backend, m: Store<Device>, r: Store<Record>, a: Act)
    requires Alike(b, m, r) && a.Unpair?
    ensures AgreesIffClocked(b, m, r, a)
  {}

  /** One act is answered alike, and leaves the stores indistinguishable exactly if it writes nothing or its clock
      was right. */
  lemma ActAgreesIffClocked(b: Backend, m: Store<Device>, r: Store<Record>, a: Act)
    requires Alike(b, m, r)
    ensures AgreesIffClocked(b, m, r, a)
  {
    match a
    case Pair(_, _, _, _) => PairAgrees(b, m, r, a);
    case Unpair(_) => UnpairAgrees(b, m, r, a);
    case Look(_) => LookAgrees(b, m, r, a);
    case Revoke(_) => RevokeAgrees(b, m, r, a);
  }

  // ---------- Whole runs ----------

  /** Reads cannot tell the stores apart at any moment of the run. */
  ghost predicate AgreeThroughout(b: Backend, acts: seq<Act>) {
    forall n: nat :: n <= |acts| ==> AgreeAfter(b, acts[..n])
  }

  ghost predicate AgreeAfter(b: Backend, acts: seq<Act>) {
    Indistinguishable(b, AfterInMemory(acts).kept, AfterInRows(b, acts).kept)
  }

  /** Whenever an act writes, the clock is right. */
  ghost predicate WritesClocked(b: Backend, acts: seq<Act>) {
    forall n: nat :: n < |acts| ==> ClockedAfter(b, acts[..n], acts[n])
  }

  ghost predicate ClockedAfter(b: Backend, before: seq<Act>, a: Act) {
    Effective(AfterInMemory(before), a) ==> Clocked(b, a)
  }

  lemma AgreementSplits(b: Backend, acts: seq<Act>)
    requires acts != []
    ensures AgreeThroughout(b, acts) <==> AgreeThroughout(b, acts[..|acts| - 1]) && AgreeAfter(b, acts)
  {
    var last := |acts| - 1;
    var before := acts[..last];
    assert acts[..|acts|] == acts;
    assert forall n: nat :: n <= last ==> before[..n] == acts[..n];
    if AgreeThroughout(b, acts) {
      assert AgreeAfter(b, acts[..|acts|]);
      forall n: nat | n <= last
        ensures AgreeAfter(b, before[..n])
      {
        assert AgreeAfter(b, acts[..n]);
      }
    }
    if AgreeThroughout(b, before) && AgreeAfter(b, acts) {
      forall n: nat | n <= |acts|
        ensures AgreeAfter(b, acts[..n])
      {
        assert n <= last ==> AgreeAfter(b, before[..n]);
      }
    }
  }

  lemma ClockingSplits(b: Backend, acts: seq<Act>)
    requires acts != []
    ensures var before, a := acts[..|acts| - 1], acts[|acts| - 1];
      WritesClocked(b, acts) <==> WritesClocked(b, before) && ClockedAfter(b, before, a)
  {
    var last := |acts| - 1;
    var before := acts[..last];
    assert forall n: nat :: n <= last ==> before[..n] == acts[..n];
    if WritesClocked(b, acts) {
      assert ClockedAfter(b, acts[..last], acts[last]);
      forall n: nat | n < last
        ensures ClockedAfter(b, before[..n], before[n])
      {
        assert ClockedAfter(b, acts[..n], acts[n]);
      }
    }
    if WritesClocked(b, before) && ClockedAfter(b, before, acts[last]) {
      forall n: nat | n < |acts|
        ensures ClockedAfter(b, acts[..n], acts[n])
      {
        assert n < last ==> ClockedAfter(b, before[..n], before[n]);
      }
    }
  }

  /** Over every run of pairing and service operations from empty stores, reads can never tell the registries apart
      exactly if every act that writes does so under the right clock; and then every stored device equals what its
      row gives back, and one more act is answered alike. */
  lemma {:induction false} ServiceRunsAgree(b: Backend, acts: seq<Act>)
    ensures AgreeThroughout(b, acts) <==> WritesClocked(b, acts)
    ensures WritesClocked(b, acts) ==> Alike(b, AfterInMemory(acts), AfterInRows(b, acts))
    ensures WritesClocked(b, acts) ==> FixedByRows(b, AfterInMemory(acts).kept)
    ensures WritesClocked(b, acts) ==> forall a ::
      SameReply(StepInMemory(AfterInMemory(acts), a).1, StepInRows(b, AfterInRows(b, acts), a).1)
  {
    if acts != [] {
      var before, a := acts[..|acts| - 1], acts[|acts| - 1];
      ServiceRunsAgree(b, before);
      AgreementSplits(b, acts);
      ClockingSplits(b, acts);
      if WritesClocked(b, before) {
        ActAgreesIffClocked(b, AfterInMemory(before), AfterInRows(b, before), a);
      }
    } else {
      assert AgreeAfter(b, []);
    }
    if WritesClocked(b, acts) {
      LastingIsFixed(b, AfterInMemory(acts).kept);
      forall a
        ensures SameReply(StepInMemory(AfterInMemory(acts), a).1, StepInRows(b, AfterInRows(b, acts), a).1)
      {
        ActAgreesIffClocked(b, AfterInMemory(acts), AfterInRows(b, acts), a);
      }
    }
  }

  /** Each device equals what the row written from it gives back. */
  ghost predicate FixedByRows(b: Backend, devices: map<Id, Device>) {
    forall id <- devices :: ReadBack(b, devices[id]).Some? && SameDevice(ReadBack(b, devices[id]).value, devices[id])
  }

  lemma LastingIsFixed(b: Backend, devices: map<Id, Device>)
    requires AllLasting(b, devices)
    ensures FixedByRows(b, devices)
  {
    forall id <- devices
      ensures ReadBack(b, devices[id]).Some? && SameDevice(ReadBack(b, devices[id]).value, devices[id])
    {
      SurvivesRowIffDurable(b, devices[id]);
    }
  }

  /** Both registries, asked for the same device. */
  method GetBoth(m: MemoryRegistry, r: SqlRegistry, id: Id) returns (x: Option<Device>, y: Option<Device>)
    requires Indistinguishable(r.backend, m.devices, r.rows)
    ensures SameFound(x, y) && (x.Some? <==> id in m.devices)
    ensures x.Some? && AllLasting(r.backend, m.devices) ==> x.value.id == id
  {
    x := m.Get(id);
    y := r.Get(id);
  }

  // ---------- Listings ----------

  datatype Runtime = Runtime(status: Status, advertised: set<Capability>, lastSeenAt: Stamp)

  /** _with_runtime_state, on what the manager says of each device. */
  function Hydrated(live: map<Id, Runtime>, d: Device): Device {
    if d.status == Revoked then d
    else if d.id !in live then d.(status := Offline, advertised := {})
    else d.(status := live[d.id].status, advertised := live[d.id].advertised, lastSeenAt := Some(live[d.id].lastSeenAt))
  }

  /** A list of exactly these devices, each once, in whatever order. */
  ghost predicate Lists(devices: map<Id, Device>, xs: seq<Device>) {
    && DistinctIds(xs)
    && (forall i :: 0 <= i < |xs| ==> xs[i].id in devices && devices[xs[i].id] == xs[i])
    && (forall id <- devices :: exists i :: 0 <= i < |xs| && xs[i] == devices[id])
  }

  function AllHydrated(live: map<Id, Runtime>, devices: map<Id, Device>): map<Id, Device> {
    map id | id in devices :: Hydrated(live, devices[id])
  }

  function AllFromRows(b: Backend, rows: map<Id, Record>): map<Id, Device> {
    map id | id in rows && GetFromRows(b, rows, id).Some? :: GetFromRows(b, rows, id).value
  }

  ghost predicate SameMap(ds: map<Id, Device>, es: map<Id, Device>) {
    ds.Keys == es.Keys && forall id <- ds :: SameDevice(ds[id], es[id])
  }

  lemma ListsCover(ds: map<Id, Device>, es: map<Id, Device>, xs: seq<Device>, ys: seq<Device>)
    requires SameMap(ds, es) && Lists(ds, xs) && Lists(es, ys)
    ensures Covered(xs, ys)
  {
    forall i | 0 <= i < |xs|
      ensures Holds(ys, xs[i])
    {
      assert xs[i].id in es;
      var j :| 0 <= j < |ys| && ys[j] == es[xs[i].id];
      assert SameDevice(xs[i], ys[j]);
    }
  }

  lemma HydratedSame(live: map<Id, Runtime>, x: Device, y: Device)
    requires SameDevice(x, y)
    ensures SameDevice(Hydrated(live, x), Hydrated(live, y))
  {}

  lemma ReadSame(b: Backend, devices: map<Id, Device>, rows: map<Id, Record>, id: Id)
    requires Indistinguishable(b, devices, rows) && id in devices
    ensures GetFromRows(b, rows, id).Some? && SameDevice(GetFromRows(b, rows, id).value, devices[id])
  {
    assert GivesBack(b, rows[id], devices[id]);
  }

  lemma AllReadSame(b: Backend, devices: map<Id, Device>, rows: map<Id, Record>)
    requires Indistinguishable(b, devices, rows)
    ensures SameMap(AllFromRows(b, rows), devices)
  {
    var read := AllFromRows(b, rows);
    assert read.Keys <= rows.Keys;
    forall id <- devices
      ensures id in read && SameDevice(read[id], devices[id])
    {
      ReadSame(b, devices, rows, id);
    }
  }

  lemma AllHydratedSame(live: map<Id, Runtime>, ds: map<Id, Device>, es: map<Id, Device>)
    requires SameMap(ds, es)
    ensures SameMap(AllHydrated(live, ds), AllHydrated(live, es))
  {
    forall id <- ds
      ensures SameDevice(AllHydrated(live, ds)[id], AllHydrated(live, es)[id])
    {
      HydratedSame(live, ds[id], es[id]);
    }
  }

  lemma SameIsSymmetric(ds: map<Id, Device>, es: map<Id, Device>)
    requires SameMap(ds, es)
    ensures SameMap(es, ds)
  {}

  /** Whichever registry is asked after a run, and however it orders its answer, sorting the hydrated devices by
      folded name and id gives the same list. */
  lemma ServiceListingsAgree(b: Backend, k: Keys, acts: seq<Act>, live: map<Id, Runtime>,
                             xs: seq<Device>, ys: seq<Device>)
    requires TextInjective(k) && WritesClocked(b, acts)
    requires Lists(AllHydrated(live, AfterInMemory(acts).kept), xs) && Sorted(k, xs)
    requires Lists(AllHydrated(live, AllFromRows(b, AfterInRows(b, acts).kept)), ys) && Sorted(k, ys)
    ensures |xs| == |ys| && forall i :: 0 <= i < |xs| ==> SameDevice(xs[i], ys[i])
  {
    ServiceRunsAgree(b, acts);
    var kept, read := AfterInMemory(acts).kept, AllFromRows(b, AfterInRows(b, acts).kept);
    var ds, es := AllHydrated(live, kept), AllHydrated(live, read);
    AllReadSame(b, kept, AfterInRows(b, acts).kept);
    AllHydratedSame(live, read, kept);
    SameIsSymmetric(es, ds);
    ListsCover(ds, es, xs, ys);
    ListsCover(es, ds, ys, xs);
    SortedIsListing(k, xs);
    SortedIsListing(k, ys);
    ListingIsUnique(k, xs, ys);
  }

  // ---------- What the acts are ----------

  /** Revoking makes the device anew with the revocation time and nothing advertised; it fails exactly for a bare wall
      clock. */
  lemma RevokedExactly(d: Device, now: Stamp)
    requires WellMade(d)
    ensures MadeRevoked(d, now) ==
      if now.Naive? then None
      else Some(Device(d.id, d.name, d.granted, d.pairedAt, Revoked, {}, d.lastSeenAt, Some(now)))
  {
    MadeExactly(d.id, d.name, d.granted, d.pairedAt, d.status, d.advertised, d.lastSeenAt, d.revokedAt);
    MadeExactly(d.id, d.name, d.granted, d.pairedAt, Revoked, {}, d.lastSeenAt, Some(now));
  }

  /** In memory: what is stored after pairing, rolling back, reading for revocation and revoking, and what each
      answers. */
  lemma ActsInMemory(s: Store<Device>, a: Act)
    requires AllWellMade(s)
    ensures var (s', reply) := StepInMemory(s, a);
      match a
      case Pair(id, name, granted, now) =>
        if now.Naive? || !(1 <= |Strip(name)| <= 120) then s' == s && reply == NothingToDo
        else if id in s.kept then s' == s && reply == Wrote(AlreadyRegistered)
        else
          && reply == Wrote(Done)
          && s' == s.(kept := s.kept[id := Device(id, Strip(name), granted, now, Offline, {}, None, None)])
      case Unpair(id) => s' == s.(kept := s.kept - {id}) && reply == Wrote(if id in s.kept then Done else NotFound)
      case Look(id) =>
        && s'.kept == s.kept
        && reply == Found(if id in s.kept then Some(s.kept[id]) else None)
        && s'.held == (if id in s.kept && s.kept[id].status != Revoked then Some(s.kept[id]) else None)
      case Revoke(now) =>
        && s'.held == None
        && if s.held.None? || now.Naive? then s'.kept == s.kept && reply == NothingToDo
           else if s.held.value.id !in s.kept then s'.kept == s.kept && reply == Wrote(NotFound)
           else
             var d := s.held.value;
             && reply == Wrote(Done)
             && s'.kept == s.kept[d.id :=
                  Device(d.id, d.name, d.granted, d.pairedAt, Revoked, {}, d.lastSeenAt, Some(now))]
  {
    if a.Pair? {
      MadeExactly(a.id, a.name, a.granted, a.now, Offline, {}, None, None);
    } else if a.Revoke? && s.held.Some? {
      RevokedExactly(s.held.value, a.now);
    }
  }

  ghost predicate AllWellMade(s: Store<Device>) {
    (forall id <- s.kept :: WellMade(s.kept[id])) && (s.held.Some? ==> WellMade(s.held.value))
  }

  /** The service shows a revoked device as it is stored, an unconnected one as offline with nothing advertised, and a
      connected one with its connection's status, capabilities and time. */
  lemma HydratedExactly(live: map<Id, Runtime>, d: Device)
    ensures Hydrated(live, d) ==
      if d.status == Revoked then d
      else if d.id in live
      then Device(d.id, d.name, d.granted, d.pairedAt, live[d.id].status, live[d.id].advertised,
                  Some(live[d.id].lastSeenAt), d.revokedAt)
      else Device(d.id, d.name, d.granted, d.pairedAt, Offline, {}, d.lastSeenAt, d.revokedAt)
  {}
}
