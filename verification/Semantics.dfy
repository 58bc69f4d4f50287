/** What a list of operations means: run directly on a store, run into a private
    write buffer, and run on the combined store of all cohorts. */
module Semantics {
  import opened Common

  type Store = map<Key, int>

  /** What a cohort's database offers: concurrent writers or one writer, and the
      status it reports for a missing key. */
  datatype DbKind = DbKind(concurrentWrites: bool, reportsNotFound: bool) {
    function MissingStatus(): Status {
      if reportsNotFound then NotFound else Internal
    }
  }

  const LMDB := DbKind(false, false)

  datatype ValueOrStatus = Value(value: int) | Missing(status: Status)

  function Find(kind: DbKind, store: Store, key: Key): ValueOrStatus {
    if key in store then Value(store[key]) else Missing(kind.MissingStatus())
  }

  /** The value a put writes, given what a read of its key reported. */
  function NewValue(current: ValueOrStatus, put: PutValue): ValueOrStatus {
    match put
    case Constant(v) => Value(v)
    case Relative(delta, default) =>
      match current
      case Value(v) => Value(v + delta)
      case Missing(status) =>
        if status == NotFound && default.Some? then Value(default.value + delta) else current
  }

  // ----- direct execution on a store: the reference -----

  datatype Outcome = Done(store: Store, results: seq<GetResponse>) | Failed(status: Status)

  function RunOp(kind: DbKind, store: Store, op: Op): Outcome {
    match op.action
    case NoOp => Done(store, [])
    case Get(key) =>
      (match Find(kind, store, key)
       case Value(v) => Done(store, [GetResponse(op.ns, key, v)])
       case Missing(status) => Failed(status))
    case Put(key, value) =>
      match NewValue(Find(kind, store, key), value)
      case Value(v) => Done(store[key := v], [])
      case Missing(status) => Failed(status)
  }

  /** One more operation after an outcome; a failure stays. */
  function RunNext(kind: DbKind, o: Outcome, op: Op): Outcome {
    if o.Failed? then o else
    match RunOp(kind, o.store, op)
    case Failed(status) => Failed(status)
    case Done(st, more) => Done(st, o.results + more)
  }

  function Run(kind: DbKind, store: Store, ops: seq<Op>): Outcome {
    if ops == [] then Done(store, []) else
    RunNext(kind, Run(kind, store, ops[..|ops| - 1]), ops[|ops| - 1])
  }

  /** The default of a relative put is NOT always honoured: on a missing key it
      is exactly when the database reports the key as not found. */
  lemma DefaultNeedsNotFound(kind: DbKind, store: Store, ns: Namespace, key: Key, delta: int, default: int)
    requires key !in store
    ensures var put := Op(ns, Put(key, Relative(delta, Some(default))));
            && (Run(kind, store, [put]).Done? <==> kind.reportsNotFound)
            && (kind.reportsNotFound ==> Run(kind, store, [put]) == Done(store[key := default + delta], []))
            && Run(LMDB, store, [put]) == Failed(Internal)
  {
    var put := Op(ns, Put(key, Relative(delta, Some(default))));
    RunSnoc(kind, store, [], put);
    RunSnoc(LMDB, store, [], put);
    assert [] + [put] == [put];
  }

  // ----- execution into a write buffer over a committed store -----

  datatype Buffered = Buffered(buffer: Store, results: seq<GetResponse>) | Refused(status: Status)

  function Exec(kind: DbKind, base: Store, ops: seq<Op>): Buffered {
    if ops == [] then Buffered(map[], []) else
    match Exec(kind, base, ops[..|ops| - 1])
    case Refused(status) => Refused(status)
    case Buffered(buffer, results) => ExecOp(kind, base, buffer, results, ops[|ops| - 1])
  }

  function ExecOp(kind: DbKind, base: Store, buffer: Store, results: seq<GetResponse>, op: Op): Buffered {
    match op.action
    case NoOp => Buffered(buffer, results)
    case Get(key) =>
      (match Find(kind, base + buffer, key)
       case Value(v) => Buffered(buffer, results + [GetResponse(op.ns, key, v)])
       case Missing(status) => Refused(status))
    case Put(key, value) =>
      match NewValue(Find(kind, base + buffer, key), value)
      case Value(v) => Buffered(buffer[key := v], results)
      case Missing(status) => Refused(status)
  }

  /** The committed store after a buffer is applied: a commit overwrites. */
  function Applied(base: Store, b: Buffered): Outcome {
    match b
    case Refused(status) => Failed(status)
    case Buffered(buffer, results) => Done(base + buffer, results)
  }

  /** Buffering and then committing is direct execution, failures included. */
  lemma {:induction false} BufferingIsInvisible(kind: DbKind, base: Store, ops: seq<Op>)
    ensures Applied(base, Exec(kind, base, ops)) == Run(kind, base, ops)
  {
    if ops == [] {
      assert base + map[] == base;
    } else {
      BufferingIsInvisible(kind, base, ops[..|ops| - 1]);
      var b := Exec(kind, base, ops[..|ops| - 1]);
      var op := ops[|ops| - 1];
      if b.Buffered? && op.action.Put? {
        var v := NewValue(Find(kind, base + b.buffer, op.action.key), op.action.value);
        assert v.Value? ==> base + b.buffer[op.action.key := v.value] == (base + b.buffer)[op.action.key := v.value];
      }
    }
  }

  // ----- the keys an operation list touches -----

  function PutKeys(ops: seq<Op>): set<Key> {
    set i | 0 <= i < |ops| && ops[i].action.Put? :: ops[i].action.key
  }

  function GetKeys(ops: seq<Op>): set<Key> {
    set i | 0 <= i < |ops| && ops[i].action.Get? :: ops[i].action.key
  }

  predicate AgreeOn(a: Store, b: Store, keys: set<Key>) {
    forall k | k in keys :: (k in a <==> k in b) && (k in a ==> a[k] == b[k])
  }

  /** Only put keys enter the buffer. */
  lemma {:induction false} BufferWithinPuts(kind: DbKind, base: Store, ops: seq<Op>)
    requires Exec(kind, base, ops).Buffered?
    ensures Exec(kind, base, ops).buffer.Keys <= PutKeys(ops)
  {
    if ops != [] {
      var last := |ops| - 1;
      BufferWithinPuts(kind, base, ops[..last]);
      assert forall i | 0 <= i < last :: ops[..last][i] == ops[i];
    }
  }

  /** Execution depends on the store only through the keys it touches. */
  lemma {:induction false} ExecFrame(kind: DbKind, a: Store, b: Store, ops: seq<Op>)
    requires AgreeOn(a, b, PutKeys(ops) + GetKeys(ops))
    ensures Exec(kind, a, ops) == Exec(kind, b, ops)
  {
    if ops != [] {
      var last := |ops| - 1;
      var init := ops[..last];
      assert forall i | 0 <= i < last :: init[i] == ops[i];
      assert PutKeys(init) <= PutKeys(ops) && GetKeys(init) <= GetKeys(ops);
      ExecFrame(kind, a, b, init);
      var key := if ops[last].action.NoOp? then "" else ops[last].action.key;
      assert !ops[last].action.NoOp? ==> key in PutKeys(ops) + GetKeys(ops);
    }
  }

  // ----- what an operation does, after those before it -----

  /** One more operation after a list that succeeded, spelled out. A get reports the
      value that its key then has; a put sets it, or adds to it, or adds to the
      default where the database says not-found; a missing key fails otherwise. */
  lemma RunLaw(kind: DbKind, store: Store, ops: seq<Op>, op: Op)
    requires Run(kind, store, ops).Done?
    ensures var o, after := Run(kind, store, ops), Run(kind, store, ops + [op]);
            var missing := Failed(if kind.reportsNotFound then NotFound else Internal);
            match op.action
            case NoOp => after == o
            case Get(key) =>
              after == if key in o.store then Done(o.store, o.results + [GetResponse(op.ns, key, o.store[key])])
                       else missing
            case Put(key, Constant(c)) => after == Done(o.store[key := c], o.results)
            case Put(key, Relative(delta, default)) =>
              after == if key in o.store then Done(o.store[key := o.store[key] + delta], o.results)
                       else if default.Some? && kind.reportsNotFound
                       then Done(o.store[key := default.value + delta], o.results)
                       else missing
  {
    RunSnoc(kind, store, ops, op);
  }

  /** The first failure is the outcome of the whole list. */
  lemma {:induction false} RunFailureLaw(kind: DbKind, store: Store, ops: seq<Op>, more: seq<Op>)
    requires Run(kind, store, ops).Failed?
    ensures Run(kind, store, ops + more) == Run(kind, store, ops)
  {
    if more == [] {
      assert ops + more == ops;
    } else {
      var init := more[..|more| - 1];
      RunFailureLaw(kind, store, ops, init);
      RunSnoc(kind, store, ops + init, more[|more| - 1]);
      assert ops + more == (ops + init) + [more[|more| - 1]];
    }
  }

  lemma PrefixSucceeds(kind: DbKind, store: Store, ops: seq<Op>, more: seq<Op>)
    requires Run(kind, store, ops + more).Done?
    ensures Run(kind, store, ops).Done?
  {
    if Run(kind, store, ops).Failed? {
      RunFailureLaw(kind, store, ops, more);
    }
  }

  predicate PutsOnlyRelatively(ops: seq<Op>, key: Key) {
    forall i | 0 <= i < |ops| && ops[i].action.Put? && ops[i].action.key == key :: ops[i].action.value.Relative?
  }

  /** The sum of what the relative puts add to a key. */
  function SumOfDeltas(ops: seq<Op>, key: Key): int {
    if ops == [] then 0 else
    var last := ops[|ops| - 1].action;
    SumOfDeltas(ops[..|ops| - 1], key)
      + (if last.Put? && last.key == key && last.value.Relative? then last.value.delta else 0)
  }

  /** A key that is only put relatively ends at its first value plus all deltas. */
  lemma {:induction false} RelativePutsAddUp(kind: DbKind, store: Store, ops: seq<Op>, key: Key)
    requires key in store && PutsOnlyRelatively(ops, key) && Run(kind, store, ops).Done?
    ensures key in Run(kind, store, ops).store
    ensures Run(kind, store, ops).store[key] == store[key] + SumOfDeltas(ops, key)
  {
    if ops != [] {
      var init, last := ops[..|ops| - 1], ops[|ops| - 1];
      assert forall i | 0 <= i < |init| :: init[i] == ops[i];
      assert init + [last] == ops;
      RelativePutsAddUp(kind, store, init, key);
      RunLaw(kind, store, init, last);
    }
  }

  /** A key that is not put keeps its value, or stays missing. */
  lemma {:induction false} UnputKeysStay(kind: DbKind, store: Store, ops: seq<Op>, key: Key)
    requires key !in PutKeys(ops) && Run(kind, store, ops).Done?
    ensures key in Run(kind, store, ops).store <==> key in store
    ensures key in store ==> Run(kind, store, ops).store[key] == store[key]
  {
    if ops != [] {
      var init, last := ops[..|ops| - 1], ops[|ops| - 1];
      assert forall i | 0 <= i < |init| :: init[i] == ops[i];
      assert init + [last] == ops;
      assert last.action.Put? ==> last.action.key in PutKeys(ops);
      UnputKeysStay(kind, store, init, key);
      RunLaw(kind, store, init, last);
    }
  }

  /** The last constant put of a key decides its value, up to later deltas. */
  lemma {:induction false} LastConstantDecides(kind: DbKind, store: Store, before: seq<Op>, put: Op, after: seq<Op>)
    requires put.action.Put? && put.action.value.Constant? && PutsOnlyRelatively(after, put.action.key)
    requires Run(kind, store, before + [put] + after).Done?
    ensures var key, final := put.action.key, Run(kind, store, before + [put] + after).store;
            key in final && final[key] == put.action.value.value + SumOfDeltas(after, key)
  {
    var ops := before + [put] + after;
    assert ops == before + ([put] + after);
    PrefixSucceeds(kind, store, before, [put] + after);
    if after == [] {
      assert ops == before + [put];
      RunLaw(kind, store, before, put);
    } else {
      var init, last := after[..|after| - 1], after[|after| - 1];
      assert ops == (before + [put] + init) + [last];
      PrefixSucceeds(kind, store, before + [put] + init, [last]);
      assert forall i | 0 <= i < |init| :: init[i] == after[i];
      LastConstantDecides(kind, store, before, put, init);
      RunLaw(kind, store, before + [put] + init, last);
    }
  }

  // ----- the combined store -----

  type GStore = map<(Address, Key), int>

  type Kinds = map<Address, DbKind>

  function KindOf(kinds: Kinds, a: Address): DbKind {
    if a in kinds then kinds[a] else LMDB
  }

  datatype GOutcome = GDone(store: GStore, results: seq<GetResponse>) | GFailed(status: Status)

  function GFind(kinds: Kinds, g: GStore, a: Address, key: Key): ValueOrStatus {
    if (a, key) in g then Value(g[(a, key)]) else Missing(KindOf(kinds, a).MissingStatus())
  }

  function GRunOp(kinds: Kinds, g: GStore, op: Op): GOutcome {
    var a := op.ns.address;
    match op.action
    case NoOp => GDone(g, [])
    case Get(key) =>
      (match GFind(kinds, g, a, key)
       case Value(v) => GDone(g, [GetResponse(op.ns, key, v)])
       case Missing(status) => GFailed(status))
    case Put(key, value) =>
      match NewValue(GFind(kinds, g, a, key), value)
      case Value(v) => GDone(g[(a, key) := v], [])
      case Missing(status) => GFailed(status)
  }

  function GRunNext(kinds: Kinds, o: GOutcome, op: Op): GOutcome {
    if o.GFailed? then o else
    match GRunOp(kinds, o.store, op)
    case GFailed(status) => GFailed(status)
    case GDone(g, more) => GDone(g, o.results + more)
  }

  /** A client transaction run in order on the combined store. */
  function GRun(kinds: Kinds, g: GStore, ops: seq<Op>): GOutcome {
    if ops == [] then GDone(g, []) else
    GRunNext(kinds, GRun(kinds, g, ops[..|ops| - 1]), ops[|ops| - 1])
  }

  /** One cohort's part of the combined store. */
  function Slice(g: GStore, a: Address): Store {
    map p | p in g && p.0 == a :: p.1 := g[p]
  }

  /** One cohort's part of an operation list. */
  function OpsFor(ops: seq<Op>, a: Address): seq<Op> {
    if ops == [] then [] else
    var last := ops[|ops| - 1];
    OpsFor(ops[..|ops| - 1], a) + (if last.ns.address == a then [last] else [])
  }

  /** The responses that come from one cohort. */
  function ResultsFor(results: seq<GetResponse>, a: Address): seq<GetResponse> {
    if results == [] then [] else
    var last := results[|results| - 1];
    ResultsFor(results[..|results| - 1], a) + (if last.ns.address == a then [last] else [])
  }

  function Addresses(ops: seq<Op>): set<Address> {
    set i | 0 <= i < |ops| :: ops[i].ns.address
  }

  function GSlice(o: GOutcome, a: Address): Outcome {
    match o
    case GFailed(status) => Failed(status)
    case GDone(g, results) => Done(Slice(g, a), ResultsFor(results, a))
  }

  lemma SliceFind(kinds: Kinds, g: GStore, a: Address, key: Key)
    ensures GFind(kinds, g, a, key) == Find(KindOf(kinds, a), Slice(g, a), key)
  {
    assert (a, key) in g <==> key in Slice(g, a);
  }

  lemma SliceUpdate(g: GStore, b: Address, key: Key, v: int, a: Address)
    ensures Slice(g[(b, key) := v], a) == if a == b then Slice(g, a)[key := v] else Slice(g, a)
  {
    var l := Slice(g[(b, key) := v], a);
    var r := if a == b then Slice(g, a)[key := v] else Slice(g, a);
    assert forall k :: k in l <==> (a, k) in g[(b, key) := v];
    assert forall k :: k in Slice(g, a) <==> (a, k) in g;
    assert forall k :: k in l <==> k in r;
  }

  lemma {:induction false} ResultsForConcat(r1: seq<GetResponse>, r2: seq<GetResponse>, a: Address)
    ensures ResultsFor(r1 + r2, a) == ResultsFor(r1, a) + ResultsFor(r2, a)
  {
    if r2 == [] {
      assert r1 + r2 == r1;
    } else {
      var init := r2[..|r2| - 1];
      assert (r1 + r2)[..|r1 + r2| - 1] == r1 + init;
      ResultsForConcat(r1, init, a);
    }
  }

  lemma ResultsForOne(r: GetResponse, a: Address)
    ensures ResultsFor([r], a) == if r.ns.address == a then [r] else []
  {
    assert [r][..0] == [];
  }

  /** One operation on the combined store is that operation at its cohort and
      nothing anywhere else. */
  lemma SliceOp(kinds: Kinds, g: GStore, op: Op, a: Address)
    ensures a == op.ns.address ==> GSlice(GRunOp(kinds, g, op), a) == RunOp(KindOf(kinds, a), Slice(g, a), op)
    ensures a != op.ns.address && GRunOp(kinds, g, op).GDone? ==>
              GSlice(GRunOp(kinds, g, op), a) == Done(Slice(g, a), [])
  {
    if !op.action.NoOp? {
      var key := op.action.key;
      SliceFind(kinds, g, op.ns.address, key);
      var found := GFind(kinds, g, op.ns.address, key);
      if op.action.Get? && found.Value? {
        ResultsForOne(GetResponse(op.ns, key, found.value), a);
      }
      if op.action.Put? {
        var v := NewValue(GFind(kinds, g, op.ns.address, key), op.action.value);
        if v.Value? {
          SliceUpdate(g, op.ns.address, key, v.value, a);
        }
      }
    }
  }

  lemma SliceNext(kinds: Kinds, o: GOutcome, op: Op, a: Address)
    ensures a == op.ns.address ==> GSlice(GRunNext(kinds, o, op), a) == RunNext(KindOf(kinds, a), GSlice(o, a), op)
    ensures a != op.ns.address && GRunNext(kinds, o, op).GDone? ==> GSlice(GRunNext(kinds, o, op), a) == GSlice(o, a)
  {
    if o.GDone? {
      SliceOp(kinds, o.store, op, a);
      var one := GRunOp(kinds, o.store, op);
      if one.GDone? {
        ResultsForConcat(o.results, one.results, a);
      }
    }
  }

  lemma RunSnoc(kind: DbKind, store: Store, ops: seq<Op>, op: Op)
    ensures Run(kind, store, ops + [op]) == RunNext(kind, Run(kind, store, ops), op)
  {
    assert (ops + [op])[..|ops|] == ops;
  }

  /** Splitting preserves meaning, part 1: a successful combined run is, at every
      address, the successful run of that address's sub-list on that address's
      store, with the same Get results. */
  lemma {:induction false} SplitSuccess(kinds: Kinds, g: GStore, ops: seq<Op>, a: Address)
    requires GRun(kinds, g, ops).GDone?
    ensures Run(KindOf(kinds, a), Slice(g, a), OpsFor(ops, a)) == GSlice(GRun(kinds, g, ops), a)
  {
    if ops != [] {
      var init, last := ops[..|ops| - 1], ops[|ops| - 1];
      SplitSuccess(kinds, g, init, a);
      SliceNext(kinds, GRun(kinds, g, init), last, a);
      if last.ns.address == a {
        RunSnoc(KindOf(kinds, a), Slice(g, a), OpsFor(init, a), last);
      } else {
        assert OpsFor(ops, a) == OpsFor(init, a);
      }
    }
  }

  /** The same law for the combined store, where each cohort has its keys. */
  lemma GRunLaw(kinds: Kinds, g: GStore, ops: seq<Op>, op: Op)
    requires GRun(kinds, g, ops).GDone?
    ensures var o, after := GRun(kinds, g, ops), GRun(kinds, g, ops + [op]);
            var a, reports := op.ns.address, KindOf(kinds, op.ns.address).reportsNotFound;
            var missing := GFailed(if reports then NotFound else Internal);
            match op.action
            case NoOp => after == o
            case Get(key) =>
              after == if (a, key) in o.store
                       then GDone(o.store, o.results + [GetResponse(op.ns, key, o.store[(a, key)])])
                       else missing
            case Put(key, Constant(c)) => after == GDone(o.store[(a, key) := c], o.results)
            case Put(key, Relative(delta, default)) =>
              after == if (a, key) in o.store then GDone(o.store[(a, key) := o.store[(a, key)] + delta], o.results)
                       else if default.Some? && reports then GDone(o.store[(a, key) := default.value + delta], o.results)
                       else missing
  {
    assert (ops + [op])[..|ops|] == ops;
  }

  /** So at every address relative puts of a whole client transaction add up. */
  lemma GRelativePutsAddUp(kinds: Kinds, g: GStore, ops: seq<Op>, a: Address, key: Key)
    requires GRun(kinds, g, ops).GDone? && (a, key) in g && PutsOnlyRelatively(OpsFor(ops, a), key)
    ensures var final := GRun(kinds, g, ops).store;
            (a, key) in final && final[(a, key)] == g[(a, key)] + SumOfDeltas(OpsFor(ops, a), key)
  {
    SplitSuccess(kinds, g, ops, a);
    assert key in Slice(g, a);
    RelativePutsAddUp(KindOf(kinds, a), Slice(g, a), OpsFor(ops, a), key);
    assert key in Slice(GRun(kinds, g, ops).store, a);
  }

  lemma SnocAddress(ops: seq<Op>)
    requires ops != []
    ensures Addresses(ops) == Addresses(ops[..|ops| - 1]) + {ops[|ops| - 1].ns.address}
  {
    var init := ops[..|ops| - 1];
    assert forall i | 0 <= i < |init| :: init[i] == ops[i];
    assert forall x | x in Addresses(ops) :: x in Addresses(init) + {ops[|ops| - 1].ns.address};
  }

  lemma {:induction false} OpsForNobody(ops: seq<Op>, a: Address)
    requires a !in Addresses(ops)
    ensures OpsFor(ops, a) == []
  {
    if ops != [] {
      SnocAddress(ops);
      OpsForNobody(ops[..|ops| - 1], a);
    }
  }

  /** Part 2: the combined run succeeds exactly when every sub-list does. */
  lemma {:induction false} SplitSuccessIff(kinds: Kinds, g: GStore, ops: seq<Op>)
    ensures GRun(kinds, g, ops).GDone? <==>
            forall a | a in Addresses(ops) :: Run(KindOf(kinds, a), Slice(g, a), OpsFor(ops, a)).Done?
  {
    if ops != [] {
      var init, last := ops[..|ops| - 1], ops[|ops| - 1];
      SplitSuccessIff(kinds, g, init);
      SnocAddress(ops);
      forall a | a in Addresses(ops)
        ensures Run(KindOf(kinds, a), Slice(g, a), OpsFor(ops, a)).Done? ==>
                a in Addresses(init) ==> Run(KindOf(kinds, a), Slice(g, a), OpsFor(init, a)).Done?
      {
        if a == last.ns.address {
          RunSnoc(KindOf(kinds, a), Slice(g, a), OpsFor(init, a), last);
        } else {
          assert OpsFor(ops, a) == OpsFor(init, a);
        }
      }
      if GRun(kinds, g, ops).GDone? {
        forall a | a in Addresses(ops) ensures Run(KindOf(kinds, a), Slice(g, a), OpsFor(ops, a)).Done? {
          SplitSuccess(kinds, g, ops, a);
        }
      } else if GRun(kinds, g, init).GDone? {
        var a := last.ns.address;
        SplitSuccess(kinds, g, init, a);
        SliceNext(kinds, GRun(kinds, g, init), last, a);
        RunSnoc(KindOf(kinds, a), Slice(g, a), OpsFor(init, a), last);
      }
    }
  }
}
