/** A cohort that serves one request undisturbed: the steps that take it to the last
    operation and to its vote. */
module Undisturbed {
  import opened Common
  import opened Semantics
  import C = CohortProtocol
  import P = CohortProofs
  import D = Database

  type Cohort = C.Cohort

  /** Every key that the operations touch has a value. */
  predicate AllKeys(ops: seq<Op>, store: Store) {
    PutKeys(ops) + GetKeys(ops) <= store.Keys
  }

  lemma {:induction false} AlwaysSucceeds(base: Store, ops: seq<Op>)
    requires AllKeys(ops, base)
    ensures Exec(LMDB, base, ops).Buffered?
  {
    if ops != [] {
      var last := |ops| - 1;
      P.PrefixKeys(ops, last);
      AlwaysSucceeds(base, ops[..last]);
      assert ops[last].action.Put? ==> ops[last].action.key in PutKeys(ops);
      assert ops[last].action.Get? ==> ops[last].action.key in GetKeys(ops);
    }
  }

  /** An open transaction part way through operations that all succeed. */
  ghost predicate Underway(c: Cohort, id: TxnId) {
    && c.kind == LMDB && id in c.live && c.live[id].phase.Executing?
    && C.ExecutedTo(c, c.live[id], c.live[id].phase.done) && AllKeys(c.live[id].req.ops, c.store)
  }

  lemma NextSucceeds(c: Cohort, id: TxnId)
    requires Underway(c, id) && c.live[id].phase.done < |c.live[id].req.ops|
    ensures var p := c.live[id];
            var answer := C.NextOperation(c, p);
            && answer.error == None && answer.db.Open? && answer.db.readOnly == p.db.readOnly
            && Exec(c.kind, c.store, p.req.ops[..p.phase.done + 1]) == Buffered(answer.db.buffer, answer.results)
            && (!p.req.ops[p.phase.done].action.Get? ==> answer.results == C.Gets(p.response))
  {
    var p := c.live[id];
    var n, ops := p.phase.done, p.req.ops;
    P.LocksCoverAccesses(c.kind, ops, n);
    D.ProcessOperationIsExec(c.kind, c.store, p.db, C.Gets(p.response), ops[n]);
    P.PrefixKeys(ops, n + 1);
    AlwaysSucceeds(c.store, ops[..n + 1]);
    assert ops[..n + 1][..n] == ops[..n];
    assert ops[..n + 1][n] == ops[n];
  }

  lemma ExecuteOne(c: Cohort, id: TxnId)
    requires Underway(c, id) && c.live[id].phase.done < |c.live[id].req.ops|
    ensures C.Enabled(c, C.Execute(id)) && Underway(C.Next(c, C.Execute(id)), id)
    ensures var p := C.Next(c, C.Execute(id)).live[id];
            p.req == c.live[id].req && p.phase.done == c.live[id].phase.done + 1
  {
    NextSucceeds(c, id);
  }

  /** Steps that only the cohort itself notices. */
  predicate Silent(steps: seq<C.Step>, id: TxnId) {
    forall i | 0 <= i < |steps| ::
      && (|| steps[i].LockRead? || steps[i].LockWrite? || steps[i].Begin? || steps[i].Execute?
          || steps[i].SaveResponse? || steps[i].Persist?)
      && steps[i].id == id
  }

  /** The request has run to its last operation. */
  ghost predicate RanAll(c: Cohort, id: TxnId, req: Request) {
    id in c.live && c.live[id].req == req && c.live[id].phase == C.Executing(|req.ops|) && c.live[id].db.Open?
  }

  ghost predicate RunsTo(c: Cohort, id: TxnId, req: Request, steps: seq<C.Step>) {
    P.CanRun(c, steps) && Silent(steps, id) && RanAll(P.RunSteps(c, steps), id, req)
  }

  lemma {:induction false} ExecuteRest(c: Cohort, id: TxnId) returns (steps: seq<C.Step>)
    requires Underway(c, id)
    ensures RunsTo(c, id, c.live[id].req, steps)
    decreases |c.live[id].req.ops| - c.live[id].phase.done
  {
    steps := [];
    if c.live[id].phase.done < |c.live[id].req.ops| {
      ExecuteOne(c, id);
      var rest := ExecuteRest(C.Next(c, C.Execute(id)), id);
      steps := FirstThen(c, id, C.Execute(id), rest, c.live[id].req);
    }
  }

  lemma FirstThen(c: Cohort, id: TxnId, step: C.Step, rest: seq<C.Step>, req: Request) returns (steps: seq<C.Step>)
    requires C.Enabled(c, step) && Silent([step], id) && RunsTo(C.Next(c, step), id, req, rest)
    ensures RunsTo(c, id, req, steps)
  {
    steps := [step] + rest;
    assert steps[1..] == rest && [step][0] == step;
  }

  /** A request just received, with no lock taken by anybody. */
  ghost predicate Startable(c: Cohort, id: TxnId, req: Request) {
    && id in c.live && c.live[id] == C.Part(req, C.Locking, {}, {}, D.Closed, Pending)
    && c.kind == LMDB && c.readers == {} && c.writers == map[] && AllKeys(req.ops, c.store)
  }

  /** The same with all its locks. */
  ghost predicate Locked(c: Cohort, id: TxnId, req: Request) {
    && id in c.live && c.live[id].req == req && c.live[id].phase == C.Locking && C.AllLocked(c.kind, c.live[id])
    && c.live[id].db == D.Closed && c.live[id].response == Pending
    && c.kind == LMDB && AllKeys(req.ops, c.store)
  }

  lemma BeginNow(c: Cohort, id: TxnId, req: Request) returns (steps: seq<C.Step>)
    requires Locked(c, id, req)
    ensures RunsTo(c, id, req, steps)
  {
    var n := C.Next(c, C.Begin(id));
    assert req.ops[..0] == [];
    assert Underway(n, id);
    var rest := ExecuteRest(n, id);
    steps := FirstThen(c, id, C.Begin(id), rest, req);
  }

  /** Undisturbed, a request whose keys all have values runs to its end. */
  lemma RunUndisturbed(c: Cohort, id: TxnId, req: Request) returns (steps: seq<C.Step>)
    requires Startable(c, id, req)
    ensures RunsTo(c, id, req, steps)
  {
    WholeDbLocks(req.ops);
    if C.WriteLocks(LMDB, req.ops) != {} {
      var rest := BeginNow(C.Next(c, C.LockWrite(id, C.WholeDb)), id, req);
      steps := FirstThen(c, id, C.LockWrite(id, C.WholeDb), rest, req);
    } else if C.ReadLocks(LMDB, req.ops) != {} {
      var rest := BeginNow(C.Next(c, C.LockRead(id, C.WholeDb)), id, req);
      steps := FirstThen(c, id, C.LockRead(id, C.WholeDb), rest, req);
    } else {
      steps := BeginNow(c, id, req);
    }
  }

  lemma WholeDbLocks(ops: seq<Op>)
    ensures C.WriteLocks(LMDB, ops) == {} || C.WriteLocks(LMDB, ops) == {C.WholeDb}
    ensures C.ReadLocks(LMDB, ops) == {} || C.ReadLocks(LMDB, ops) == {C.WholeDb}
    ensures C.WriteLocks(LMDB, ops) == {} || C.ReadLocks(LMDB, ops) == {}
  {
  }

  /** Persisted, ready to vote. */
  ghost predicate CanVote(c: Cohort, id: TxnId, req: Request) {
    id in c.live && c.live[id].req == req && c.live[id].phase == C.Persisted && c.live[id].db.Open?
  }

  lemma RunAndPersist(c: Cohort, id: TxnId, req: Request) returns (steps: seq<C.Step>)
    requires Startable(c, id, req) && !req.onlyCohort
    ensures P.CanRun(c, steps) && Silent(steps, id) && CanVote(P.RunSteps(c, steps), id, req)
  {
    var ran := RunUndisturbed(c, id, req);
    var d := P.RunSteps(c, ran);
    var saves := PersistNow(d, id, req);
    P.RunOn(c, ran, saves);
    steps := ran + saves;
  }

  lemma PersistNow(d: Cohort, id: TxnId, req: Request) returns (saves: seq<C.Step>)
    requires RanAll(d, id, req) && !req.onlyCohort
    ensures P.CanRun(d, saves) && Silent(saves, id) && CanVote(P.RunSteps(d, saves), id, req)
  {
    saves := [C.SaveResponse(id), C.Persist(id)];
    var e := C.Next(d, C.SaveResponse(id));
    assert saves[1..] == [C.Persist(id)] && [C.Persist(id)][1..] == [];
    assert C.Enabled(e, C.Persist(id));
    var f := C.Next(e, C.Persist(id));
    assert P.CanRun(f, []) && P.RunSteps(f, []) == f;
    assert P.CanRun(e, saves[1..]) && P.RunSteps(e, saves[1..]) == f;
  }

  /** What such steps leave alone. */
  ghost predicate Keeps(c: Cohort, d: Cohort) {
    d.kind == c.kind && d.store == c.store && d.log == c.log && d.final == c.final && d.live.Keys == c.live.Keys
  }

  lemma SilentKeepsOne(c: Cohort, step: C.Step, id: TxnId)
    requires C.Enabled(c, step) && Silent([step], id)
    ensures Keeps(c, C.Next(c, step))
  {
    assert [step][0] == step;
  }

  lemma {:induction false} SilentKeeps(c: Cohort, steps: seq<C.Step>, id: TxnId)
    requires P.CanRun(c, steps) && Silent(steps, id)
    ensures Keeps(c, P.RunSteps(c, steps))
    decreases |steps|
  {
    if steps != [] {
      assert [steps[0]][0] == steps[0];
      SilentKeepsOne(c, steps[0], id);
      SilentKeeps(C.Next(c, steps[0]), steps[1..], id);
    }
  }
}

/** Runs put together step by step: a cohort that serves a request undisturbed, a
    submission that is promised everywhere, and what may follow a second submission
    of the same id. */
module Paths {
  import opened Common
  import opened Semantics
  import opened Voting
  import opened CoordinatorProtocol
  import opened System
  import opened SystemSafety
  import opened Serializability
  import opened ClientTruth
  import opened Undisturbed
  import C = CohortProtocol
  import P = CohortProofs
  import D = Database

  // ----- paths -----

  /** Enabled steps that keep the discipline lead from s to n. */
  ghost predicate Path(s: State, steps: seq<SysStep>, n: State)
    decreases |steps|
  {
    if steps == [] then n == s
    else Enabled(s, steps[0]) && Disciplined(s, steps[0]) && Path(Next(s, steps[0]), steps[1..], n)
  }

  lemma {:induction false} PathOn(s: State, steps: seq<SysStep>, m: State, more: seq<SysStep>, n: State)
    requires Path(s, steps, m) && Path(m, more, n)
    ensures Path(s, steps + more, n)
    decreases |steps|
  {
    if steps == [] {
      assert steps + more == more;
    } else {
      assert (steps + more)[1..] == steps[1..] + more;
      PathOn(Next(s, steps[0]), steps[1..], m, more, n);
    }
  }

  lemma PathOne(s: State, step: SysStep)
    requires Enabled(s, step) && Disciplined(s, step)
    ensures Path(s, [step], Next(s, step))
  {
    assert [step][1..] == [];
  }

  /** Safe, serialized and honest. */
  ghost predicate Sane(s: State) {
    Safe(s) && Serialized(s) && Honest(s)
  }

  lemma SaneStep(s: State, step: SysStep)
    requires Sane(s) && Enabled(s, step) && Disciplined(s, step)
    ensures Sane(Next(s, step))
  {
    SafeStep(s, step);
    SerializedStep(s, step);
    HonestStep(s, step);
  }

  lemma {:induction false} SanePath(s: State, steps: seq<SysStep>, n: State)
    requires Sane(s) && Path(s, steps, n)
    ensures Sane(n)
    decreases |steps|
  {
    if steps != [] {
      SaneStep(s, steps[0]);
      SanePath(Next(s, steps[0]), steps[1..], n);
    }
  }

  lemma InitialSane(s: State)
    requires Initial(s)
    ensures Sane(s)
  {
    InitialSafe(s);
    InitialSerialized(s);
  }

  // ----- after a second submission -----

  /** A cohort does not look whether it has served an id before: a second request
      for an id whose reply is published is processed like a first one. `Again` is
      the receipt of request i of a second submission. */
  datatype Later = Usual(step: SysStep) | Again(a: Address, i: nat)

  ghost predicate LaterEnabled(s: State, t: TxnId, resent: bool, later: Later) {
    match later
    case Usual(step) => Enabled(s, step) && Disciplined(s, step)
    case Again(a, i) =>
      resent && Participant(s, t, i, a) && a in s.cohorts && t in s.cohorts[a].final && t !in s.cohorts[a].live
  }

  ghost function LaterNext(s: State, t: TxnId, resent: bool, later: Later): State
    requires LaterEnabled(s, t, resent, later)
  {
    match later
    case Usual(step) => Next(s, step)
    case Again(a, i) =>
      var received := C.Part(s.prepares[t][i].req, C.Locking, {}, {}, D.Closed, Pending);
      s.(cohorts := s.cohorts[a := C.Set(s.cohorts[a], t, received)])
  }

  ghost predicate LaterPath(s: State, t: TxnId, resent: bool, steps: seq<Later>, n: State)
    decreases |steps|
  {
    if steps == [] then n == s
    else && LaterEnabled(s, t, resent, steps[0])
         && LaterPath(LaterNext(s, t, resent, steps[0]), t, resent, steps[1..], n)
  }

  function Usuals(steps: seq<SysStep>): seq<Later> {
    seq(|steps|, i requires 0 <= i < |steps| => Usual(steps[i]))
  }

  lemma {:induction false} UsualPath(s: State, t: TxnId, resent: bool, steps: seq<SysStep>, n: State)
    requires Path(s, steps, n)
    ensures LaterPath(s, t, resent, Usuals(steps), n)
    decreases |steps|
  {
    if steps != [] {
      assert Usuals(steps)[1..] == Usuals(steps[1..]);
      UsualPath(Next(s, steps[0]), t, resent, steps[1..], n);
    }
  }

  /** What a caller can see before submitting: the abort time is accepted, there is
      something to do, and it is for one cohort alone or the contract would accept
      the start. Whether the start reaches the contract, and what is reported of
      it, is not known yet. */
  predicate MayReopen(step: SysStep, now: nat)
    requires step.Submit?
  {
    var config := ComputeFinalConfig(step.asked, step.clock, step.dflt);
    && config.Some? && step.subs != []
    && (|step.subs| == 1 || StartAccepted(now, VotingCall(config.value.seconds, |step.subs|)))
  }

  // ----- a cohort that runs undisturbed, inside the system -----

  function Lift(a: Address, steps: seq<C.Step>): seq<SysStep> {
    seq(|steps|, i requires 0 <= i < |steps| => Local(a, steps[i]))
  }

  function With(s: State, a: Address, c: Cohort): State {
    s.(cohorts := s.cohorts[a := c])
  }

  lemma SilentStep(s: State, a: Address, step: C.Step, id: TxnId)
    requires a in s.cohorts && C.Enabled(s.cohorts[a], step) && Silent([step], id)
    ensures Enabled(s, Local(a, step)) && Next(s, Local(a, step)) == With(s, a, C.Next(s.cohorts[a], step))
  {
    assert [step][0] == step;
    assert s.ballots + {} == s.ballots;
  }

  lemma {:induction false} SilentPath(s: State, a: Address, steps: seq<C.Step>, id: TxnId)
    requires a in s.cohorts && P.CanRun(s.cohorts[a], steps) && Silent(steps, id)
    ensures Path(s, Lift(a, steps), With(s, a, P.RunSteps(s.cohorts[a], steps)))
    decreases |steps|
  {
    if steps == [] {
      assert s.cohorts[a := s.cohorts[a]] == s.cohorts;
    } else {
      var d := C.Next(s.cohorts[a], steps[0]);
      assert [steps[0]][0] == steps[0];
      SilentPath(With(s, a, d), a, steps[1..], id);
      WithTwice(s, a, d, P.RunSteps(d, steps[1..]));
      SilentThen(s, a, steps[0], id, Lift(a, steps[1..]), With(s, a, P.RunSteps(d, steps[1..])));
      assert Lift(a, steps) == [Local(a, steps[0])] + Lift(a, steps[1..]);
    }
  }

  lemma SilentThen(s: State, a: Address, step: C.Step, id: TxnId, rest: seq<SysStep>, n: State)
    requires a in s.cohorts && C.Enabled(s.cohorts[a], step) && Silent([step], id)
    requires Path(With(s, a, C.Next(s.cohorts[a], step)), rest, n)
    ensures Path(s, [Local(a, step)] + rest, n)
  {
    SilentStep(s, a, step, id);
    PathOne(s, Local(a, step));
    PathOn(s, [Local(a, step)], With(s, a, C.Next(s.cohorts[a], step)), rest, n);
  }

  lemma WithTwice(s: State, a: Address, c: Cohort, d: Cohort)
    ensures With(With(s, a, c), a, d) == With(s, a, d)
  {
    assert s.cohorts[a := c][a := d] == s.cohorts[a := d];
  }

  // ----- all participants promise, no ballot arrives -----

  ghost predicate SharedWork(s: State, t: TxnId) {
    && t in s.prepares && |s.prepares[t]| > 1
    && (forall i, j | 0 <= i < j < |s.prepares[t]| :: s.prepares[t][i].address != s.prepares[t][j].address)
    && (forall j | 0 <= j < |s.prepares[t]| ::
          var req := s.prepares[t][j].req;
          req.id == t && req.index == j && !req.onlyCohort && s.prepares[t][j].address in s.cohorts)
  }

  /** Participant j has not got its request, and could run it. */
  ghost predicate Idle(s: State, t: TxnId, j: nat)
    requires SharedWork(s, t) && j < |s.prepares[t]|
  {
    var c := s.cohorts[s.prepares[t][j].address];
    && c.live == map[] && t !in c.final
    && c.kind == LMDB && c.readers == {} && c.writers == map[] && AllKeys(s.prepares[t][j].req.ops, c.store)
  }

  /** Participant j waits for the decision, its commit ballot on the way. */
  ghost predicate Waits(s: State, t: TxnId, j: nat)
    requires SharedWork(s, t) && j < |s.prepares[t]|
  {
    var c := s.cohorts[s.prepares[t][j].address];
    && c.live.Keys == {t} && c.live[t].req == s.prepares[t][j].req
    && c.live[t].phase == C.Voted && c.live[t].db.Open?
    && c.kind == LMDB && AllKeys(s.prepares[t][j].req.ops, c.store)
    && BallotMsg(t, j, CommitBallot) in s.ballots
  }

  ghost predicate Staged(s: State, t: TxnId, i: nat) {
    && SharedWork(s, t) && i <= |s.prepares[t]|
    && (forall j: nat | j < i :: Waits(s, t, j))
    && (forall j: nat | i <= j < |s.prepares[t]| :: Idle(s, t, j))
  }

  /** One cohort and the ballots differ. */
  ghost predicate OnlyAt(s: State, n: State, a: Address) {
    && a in s.cohorts && n.cohorts.Keys == s.cohorts.Keys
    && (forall b | b in s.cohorts && b != a :: n.cohorts[b] == s.cohorts[b])
    && s.ballots <= n.ballots
    && n == s.(cohorts := n.cohorts, ballots := n.ballots)
  }

  lemma ReceiveStep(s: State, t: TxnId, i: nat)
    requires SharedWork(s, t) && i < |s.prepares[t]| && Idle(s, t, i)
    ensures var a, req := s.prepares[t][i].address, s.prepares[t][i].req;
            var d := C.Next(s.cohorts[a], C.Receive(req));
            && Enabled(s, Local(a, C.Receive(req))) && Next(s, Local(a, C.Receive(req))) == With(s, a, d)
            && Startable(d, t, req) && d.live.Keys == {t}
  {
    var a, req := s.prepares[t][i].address, s.prepares[t][i].req;
    assert Participant(s, req.id, i, a);
    assert s.ballots + {} == s.ballots;
  }

  ghost predicate ReadyToVote(c: Cohort, t: TxnId, req: Request) {
    CanVote(c, t, req) && c.live.Keys == {t} && c.kind == LMDB && AllKeys(req.ops, c.store)
  }

  lemma PromiseStep(s: State, a: Address, t: TxnId, req: Request)
    requires a in s.cohorts && CanVote(s.cohorts[a], t, req)
    ensures var n := Next(s, Local(a, C.Promise(t)));
            && Enabled(s, Local(a, C.Promise(t))) && OnlyAt(s, n, a) && Keeps(s.cohorts[a], n.cohorts[a])
            && t in n.cohorts[a].live && n.cohorts[a].live[t].req == req
            && n.cohorts[a].live[t].phase == C.Voted && n.cohorts[a].live[t].db.Open?
            && BallotMsg(t, req.index, CommitBallot) in n.ballots
  {
  }

  lemma StagedNext(s: State, n: State, t: TxnId, i: nat)
    requires Staged(s, t, i) && i < |s.prepares[t]| && OnlyAt(s, n, s.prepares[t][i].address)
    requires SharedWork(n, t) && Waits(n, t, i)
    ensures Staged(n, t, i + 1)
  {
    forall j: nat | j < i ensures Waits(n, t, j) {
      assert Waits(s, t, j);
    }
    forall j: nat | i < j < |n.prepares[t]| ensures Idle(n, t, j) {
      assert Idle(s, t, j);
    }
  }

  lemma GetReady(s: State, t: TxnId, i: nat) returns (steps: seq<SysStep>, n: State)
    requires SharedWork(s, t) && i < |s.prepares[t]| && Idle(s, t, i)
    ensures Path(s, steps, n) && OnlyAt(s, n, s.prepares[t][i].address)
    ensures ReadyToVote(n.cohorts[s.prepares[t][i].address], t, s.prepares[t][i].req)
  {
    var a, req := s.prepares[t][i].address, s.prepares[t][i].req;
    ReceiveStep(s, t, i);
    PathOne(s, Local(a, C.Receive(req)));
    var received := Next(s, Local(a, C.Receive(req)));
    var run := RunAndPersist(received.cohorts[a], t, req);
    SilentPath(received, a, run, t);
    SilentKeeps(received.cohorts[a], run, t);
    n := With(received, a, P.RunSteps(received.cohorts[a], run));
    steps := [Local(a, C.Receive(req))] + Lift(a, run);
    PathOn(s, [Local(a, C.Receive(req))], received, Lift(a, run), n);
  }

  lemma PromiseNext(s: State, t: TxnId, i: nat) returns (steps: seq<SysStep>, n: State)
    requires Staged(s, t, i) && i < |s.prepares[t]|
    ensures Path(s, steps, n) && Staged(n, t, i + 1) && OnlyAt(s, n, s.prepares[t][i].address)
  {
    var a, req := s.prepares[t][i].address, s.prepares[t][i].req;
    assert Idle(s, t, i);
    var first, ready := GetReady(s, t, i);
    PromiseStep(ready, a, t, req);
    PathOne(ready, Local(a, C.Promise(t)));
    n := Next(ready, Local(a, C.Promise(t)));
    steps := first + [Local(a, C.Promise(t))];
    PathOn(s, first, ready, [Local(a, C.Promise(t))], n);
    OnlyAtTwice(s, ready, n, a);
    StagedNext(s, n, t, i);
  }

  lemma OnlyAtTwice(s: State, m: State, n: State, a: Address)
    requires OnlyAt(s, m, a) && OnlyAt(m, n, a)
    ensures OnlyAt(s, n, a)
  {
  }

  lemma {:induction false} AllPromise(s: State, t: TxnId, i: nat) returns (steps: seq<SysStep>, n: State)
    requires Staged(s, t, i)
    ensures Path(s, steps, n) && n == s.(cohorts := n.cohorts, ballots := n.ballots)
    ensures Staged(n, t, |s.prepares[t]|)
    decreases |s.prepares[t]| - i
  {
    if i == |s.prepares[t]| {
      steps, n := [], s;
    } else {
      var first, m := PromiseNext(s, t, i);
      var rest;
      rest, n := AllPromise(m, t, i + 1);
      steps := first + rest;
      PathOn(s, first, m, rest, n);
    }
  }

  lemma StagedStays(s: State, n: State, t: TxnId, i: nat)
    requires Staged(s, t, i) && n.cohorts == s.cohorts && n.ballots == s.ballots && n.prepares == s.prepares
    ensures Staged(n, t, i)
  {
    forall j: nat | j < i ensures Waits(n, t, j) { assert Waits(s, t, j); }
    forall j: nat | i <= j < |n.prepares[t]| ensures Idle(n, t, j) { assert Idle(s, t, j); }
  }

  // ----- ballots arrive -----

  /** A round of k that is still open, a commit ballot on the way for every index,
      and a cohort that waits for its decision. */
  ghost predicate Armed(s: State, t: TxnId, k: nat, a: Address) {
    && t in s.rounds && |s.rounds[t].ballots| == k > 0 && s.now < s.rounds[t].timeout
    && (forall j: nat | j < k :: BallotMsg(t, j, CommitBallot) in s.ballots)
    && a in s.cohorts && t in s.cohorts[a].live
    && s.cohorts[a].live[t].phase == C.Voted && s.cohorts[a].live[t].db.Open?
  }

  ghost predicate ArrivedTo(s: State, t: TxnId, i: nat) {
    t in s.rounds && i <= |s.rounds[t].ballots| && forall j | 0 <= j < i :: s.rounds[t].ballots[j] == CommitBallot
  }

  lemma DeliverNext(s: State, t: TxnId, k: nat, a: Address, i: nat)
    requires Armed(s, t, k, a) && ArrivedTo(s, t, i) && i < k
    ensures var n := Next(s, Deliver(BallotMsg(t, i, CommitBallot)));
            && Enabled(s, Deliver(BallotMsg(t, i, CommitBallot))) && Armed(n, t, k, a) && ArrivedTo(n, t, i + 1)
            && n == s.(rounds := n.rounds, order := n.order)
  {
  }

  lemma {:induction false} DeliverRest(s: State, t: TxnId, k: nat, a: Address, i: nat)
    returns (steps: seq<SysStep>, n: State)
    requires Armed(s, t, k, a) && ArrivedTo(s, t, i)
    ensures Path(s, steps, n) && Armed(n, t, k, a) && ArrivedTo(n, t, k)
    ensures n == s.(rounds := n.rounds, order := n.order)
    decreases k - i
  {
    if i == k {
      steps, n := [], s;
    } else {
      var first := Deliver(BallotMsg(t, i, CommitBallot));
      DeliverNext(s, t, k, a, i);
      PathOne(s, first);
      var rest;
      rest, n := DeliverRest(Next(s, first), t, k, a, i + 1);
      steps := [first] + rest;
      PathOn(s, [first], Next(s, first), rest, n);
    }
  }

  /** The cohort's database has committed the transaction once more. */
  ghost predicate AppliedAt(c: Cohort, d: Cohort, t: TxnId) {
    && t in c.live && t in d.applied
    && d.log == c.log + [C.Entry(c.live[t].req, C.Gets(c.live[t].response))]
  }

  /** What a database commit does to its cohort, field by field. */
  ghost predicate ApplyFields(c: Cohort, d: Cohort, t: TxnId) {
    && t in c.live && c.live[t].db.Open?
    && var p := c.live[t];
       && d.kind == c.kind && d.final == c.final && t in d.applied && d.store == c.store + p.db.buffer
       && d.log == c.log + [C.Entry(p.req, C.Gets(p.response))]
       && d.live == c.live[t := p.(phase := C.Applied, db := D.Closed, response := Committed(C.Gets(p.response)))]
  }

  lemma ApplyHasFields(c: Cohort, t: TxnId)
    requires C.Enabled(c, C.Apply(t))
    ensures ApplyFields(c, C.Next(c, C.Apply(t)), t)
  {
  }

  lemma ApplyInDb(s: State, a: Address, t: TxnId)
    requires a in s.cohorts && C.Enabled(s.cohorts[a], C.Apply(t))
    ensures var n := Next(s, Local(a, C.Apply(t)));
            && Path(s, [Local(a, C.Apply(t))], n) && n == s.(cohorts := n.cohorts, order := n.order)
            && n.cohorts == s.cohorts[a := C.Next(s.cohorts[a], C.Apply(t))]
            && ApplyFields(s.cohorts[a], n.cohorts[a], t)
  {
    ApplyHasFields(s.cohorts[a], t);
    PathOne(s, Local(a, C.Apply(t)));
    assert s.ballots + {} == s.ballots;
  }

  lemma LearnAndApply(s: State, t: TxnId, k: nat, a: Address) returns (steps: seq<SysStep>, n: State)
    requires Armed(s, t, k, a) && ArrivedTo(s, t, k)
    ensures Path(s, steps, n) && a in n.cohorts && AppliedAt(s.cohorts[a], n.cohorts[a], t)
  {
    CommitIsAllCommit(s.rounds[t], s.now);
    var learn, apply := Local(a, C.LearnCommit(t)), Local(a, C.Apply(t));
    PathOne(s, learn);
    var m := Next(s, learn);
    assert C.Enabled(m.cohorts[a], C.Apply(t));
    PathOne(m, apply);
    n := Next(m, apply);
    steps := [learn] + [apply];
    PathOn(s, [learn], m, [apply], n);
  }

  lemma ArmedCommits(s: State, t: TxnId, k: nat, a: Address) returns (steps: seq<SysStep>, n: State)
    requires Armed(s, t, k, a)
    ensures Path(s, steps, n) && a in n.cohorts && AppliedAt(s.cohorts[a], n.cohorts[a], t)
  {
    var first, m := DeliverRest(s, t, k, a, 0);
    var rest;
    rest, n := LearnAndApply(m, t, k, a);
    steps := first + rest;
    PathOn(s, first, m, rest, n);
  }

  // ----- beginnings -----

  /** A store with a value for every key that the operations touch. */
  function Filled(ops: seq<Op>): GStore {
    map i | 0 <= i < |ops| && !ops[i].action.NoOp? :: (ops[i].ns.address, ops[i].action.key) := 0
  }

  function Beginning(ops: seq<Op>): State {
    State(map a | a in Addresses(ops) :: C.Fresh(LMDB, Slice(Filled(ops), a)), map[], 0, {}, Coord(map[], map[]),
          map[], map[], [], Filled(ops))
  }

  lemma BeginningIsInitial(ops: seq<Op>)
    ensures Initial(Beginning(ops))
  {
  }

  lemma {:induction false} OpsForAreOps(ops: seq<Op>, a: Address, i: nat) returns (j: nat)
    requires i < |OpsFor(ops, a)|
    ensures j < |ops| && ops[j] == OpsFor(ops, a)[i] && ops[j].ns.address == a
  {
    var init := ops[..|ops| - 1];
    if i < |OpsFor(init, a)| {
      j := OpsForAreOps(init, a, i);
    } else {
      j := |ops| - 1;
    }
  }

  lemma FilledHasKeys(ops: seq<Op>, a: Address)
    ensures AllKeys(OpsFor(ops, a), Slice(Filled(ops), a))
  {
    var own := OpsFor(ops, a);
    forall i | 0 <= i < |own| && !own[i].action.NoOp? ensures own[i].action.key in Slice(Filled(ops), a) {
      var j := OpsForAreOps(ops, a, i);
      assert (a, own[i].action.key) in Filled(ops);
    }
  }

  /** The same transaction, first submitted at time 0 to be decided by second 1. */
  function FirstTry(step: SysStep): SysStep
    requires step.Submit?
  {
    Submit(step.id, step.ops, step.subs, Some(Timestamp(1, 0)), 0, 0, true, true)
  }

  // ----- a first submission to several cohorts -----

  /** The coordinator has sent the transaction and knows no more of it. */
  ghost predicate JustSent(m: Coord, id: TxnId) {
    && !Complete(m, id) && StoredOf(m, id).response == Unset && id in m.metadata && m.metadata[id].single.None?
    && m.metadata[id].decision == UnknownDecision && m.metadata[id].responded == {}
  }

  /** Request j is sub-transaction j. */
  ghost predicate SentTo(s: State, t: TxnId, subs: seq<SubTransaction>) {
    && t in s.prepares && |s.prepares[t]| == |subs|
    && forall j | 0 <= j < |subs| ::
         && s.prepares[t][j].address == subs[j].ns.address
         && s.prepares[t][j].req == Request(t, subs[j].ops, j, |subs| == 1)
  }

  lemma FirstTrySends(step: SysStep)
    requires step.Submit? && IsSplit(step.ops, step.subs) && 1 < |step.subs| <= MAX_COHORTS
    ensures var s, first := Beginning(step.ops), FirstTry(step);
            && Enabled(s, first) && Disciplined(s, first)
            && Submission(s, first).prepares != []
            && Submission(s, first).voting == Some(VotingCall(1, |step.subs|))
  {
  }

  lemma FirstTryStages(step: SysStep)
    requires step.Submit? && IsSplit(step.ops, step.subs) && 1 < |step.subs| <= MAX_COHORTS
    ensures var n := Next(Beginning(step.ops), FirstTry(step));
            && Path(Beginning(step.ops), [FirstTry(step)], n)
            && Staged(n, step.id, 0) && |n.prepares[step.id]| == |step.subs| && JustSent(n.coord, step.id)
            && n.coord.metadata[step.id].namespaces == NamespacesOf(step.subs) && SentTo(n, step.id, step.subs)
            && step.id in n.rounds && n.rounds[step.id] == NewRound(|step.subs|, 1) && n.now == 0
  {
    var s, first := Beginning(step.ops), FirstTry(step);
    FirstTrySends(step);
    PathOne(s, first);
    SubmitEffect(s, first);
    StartsRecord(s, Next(s, first), first, Submission(s, first));
    StartsWork(Next(s, first), first);
  }

  lemma StartsRecord(s: State, n: State, first: SysStep, out: CommitOutcome)
    requires Submitted(s, n, first, out) && s.coord == Coord(map[], map[]) && |first.subs| > 1
    requires out.prepares != [] && out.voting == Some(VotingCall(1, |first.subs|)) && first.executed
    requires s.now == 0 && |first.subs| <= MAX_COHORTS
    ensures JustSent(n.coord, first.id) && n.coord.metadata[first.id].namespaces == NamespacesOf(first.subs)
    ensures SentTo(n, first.id, first.subs) && n.cohorts == s.cohorts && n.now == 0
    ensures first.id in n.rounds && n.rounds[first.id] == NewRound(|first.subs|, 1)
  {
    assert n.prepares[first.id] == out.prepares;
    var meta := n.coord.metadata[first.id];
    assert meta.namespaces == [] + NamespacesOf(first.subs);
  }

  /** Every participant is there, fresh, with a value for each key. */
  lemma StartsWork(n: State, first: SysStep)
    requires first.Submit? && |first.subs| > 1 && IsSplit(first.ops, first.subs) && SentTo(n, first.id, first.subs)
    requires n.cohorts == Beginning(first.ops).cohorts
    ensures Staged(n, first.id, 0)
  {
    var t := first.id;
    forall j | 0 <= j < |n.prepares[t]|
      ensures n.prepares[t][j].address in n.cohorts
      ensures n.prepares[t][j].req == Request(t, OpsFor(first.ops, n.prepares[t][j].address), j, false)
    {
      assert n.prepares[t][j].address == first.subs[j].ns.address;
    }
    assert SharedWork(n, t);
    forall j: nat | j < |n.prepares[t]| ensures Idle(n, t, j) {
      FilledHasKeys(first.ops, n.prepares[t][j].address);
    }
  }

  // ----- a submission to one cohort alone -----

  /** The cohort has nothing in hand but may have published a reply. */
  ghost predicate Free(c: Cohort, t: TxnId, ops: seq<Op>) {
    t !in c.live && c.kind == LMDB && c.readers == {} && c.writers == map[] && AllKeys(ops, c.store)
  }

  ghost predicate SoleWork(s: State, t: TxnId, a: Address, ops: seq<Op>) {
    && t in s.prepares && |s.prepares[t]| == 1 && s.prepares[t][0].address == a
    && s.prepares[t][0].req == Request(t, ops, 0, true)
    && a in s.cohorts && Free(s.cohorts[a], t, ops)
  }

  ghost predicate JustSentTo(m: Coord, id: TxnId, a: Address) {
    && !Complete(m, id) && StoredOf(m, id).response == Unset && id in m.metadata
    && m.metadata[id].single.Some? && m.metadata[id].single.value.address == a
  }

  lemma FirstSoleSends(step: SysStep)
    requires step.Submit? && IsSplit(step.ops, step.subs) && |step.subs| == 1
    ensures var s, first := Beginning(step.ops), FirstTry(step);
            Enabled(s, first) && Disciplined(s, first) && Submission(s, first).prepares != []
  {
  }

  lemma FirstSoleTry(step: SysStep)
    requires step.Submit? && IsSplit(step.ops, step.subs) && |step.subs| == 1
    ensures var n, a := Next(Beginning(step.ops), FirstTry(step)), step.subs[0].ns.address;
            && Path(Beginning(step.ops), [FirstTry(step)], n)
            && SoleWork(n, step.id, a, step.subs[0].ops) && step.id !in n.cohorts[a].final
            && JustSentTo(n.coord, step.id, a) && n.now == 0
  {
    var s, first := Beginning(step.ops), FirstTry(step);
    FirstSoleSends(step);
    PathOne(s, first);
    SubmitEffect(s, first);
    SoleStages(s, Next(s, first), first, Submission(s, first));
  }

  lemma SoleStages(s: State, n: State, first: SysStep, out: CommitOutcome)
    requires first.Submit? && s == Beginning(first.ops) && Submitted(s, n, first, out) && |first.subs| == 1
    requires out.prepares != []
    ensures var a := first.subs[0].ns.address;
            && SoleWork(n, first.id, a, first.subs[0].ops) && first.id !in n.cohorts[a].final
            && JustSentTo(n.coord, first.id, a) && n.now == 0
  {
    FilledHasKeys(first.ops, first.subs[0].ns.address);
    assert out.prepares[0].address == first.subs[0].ns.address;
  }

  lemma SoleReceiveStep(s: State, t: TxnId, a: Address, ops: seq<Op>)
    requires SoleWork(s, t, a, ops) && t !in s.cohorts[a].final
    ensures var receive := Local(a, C.Receive(s.prepares[t][0].req));
            && Path(s, [receive], Next(s, receive)) && OnlyAt(s, Next(s, receive), a)
            && Startable(Next(s, receive).cohorts[a], t, s.prepares[t][0].req)
  {
    assert Participant(s, t, 0, a);
    PathOne(s, Local(a, C.Receive(s.prepares[t][0].req)));
  }

  /** It has run alone to its database commit. */
  ghost predicate CommittedAlone(c: Cohort, d: Cohort, t: TxnId, req: Request) {
    && t in d.applied && |d.log| == |c.log| + 1 && d.log[..|c.log|] == c.log && d.log[|c.log|].req == req
    && d.final == c.final && d.kind == c.kind && d.live.Keys == c.live.Keys && c.store.Keys <= d.store.Keys
    && t in d.live && d.live[t].phase == C.Applied && d.live[t].response.Committed?
  }

  lemma SoleCommits(s: State, t: TxnId, a: Address, req: Request) returns (steps: seq<SysStep>, n: State)
    requires a in s.cohorts && Startable(s.cohorts[a], t, req) && req.onlyCohort
    ensures Path(s, steps, n) && n == s.(cohorts := n.cohorts, order := n.order)
    ensures a in n.cohorts && CommittedAlone(s.cohorts[a], n.cohorts[a], t, req)
  {
    var run := RunUndisturbed(s.cohorts[a], t, req);
    SilentPath(s, a, run, t);
    SilentKeeps(s.cohorts[a], run, t);
    var m := With(s, a, P.RunSteps(s.cohorts[a], run));
    var rest;
    rest, n := CommitsAlone(m, t, a, req);
    steps := Lift(a, run) + rest;
    PathOn(s, Lift(a, run), m, rest, n);
  }

  lemma AloneStep(m: State, t: TxnId, a: Address, req: Request)
    requires a in m.cohorts && RanAll(m.cohorts[a], t, req) && req.onlyCohort
    ensures var n, c := Next(m, Local(a, C.CommitAlone(t))), m.cohorts[a];
            && Path(m, [Local(a, C.CommitAlone(t))], n)
            && n == With(m, a, C.Set(c, t, c.live[t].(phase := C.Committing)))
  {
    PathOne(m, Local(a, C.CommitAlone(t)));
    assert m.ballots + {} == m.ballots;
  }

  lemma CommitsAlone(m: State, t: TxnId, a: Address, req: Request) returns (steps: seq<SysStep>, n: State)
    requires a in m.cohorts && RanAll(m.cohorts[a], t, req) && req.onlyCohort
    ensures Path(m, steps, n) && n == m.(cohorts := n.cohorts, order := n.order)
    ensures a in n.cohorts && CommittedAlone(m.cohorts[a], n.cohorts[a], t, req)
  {
    var commit, apply := Local(a, C.CommitAlone(t)), Local(a, C.Apply(t));
    AloneStep(m, t, a, req);
    var e := Next(m, commit);
    assert C.Enabled(e.cohorts[a], C.Apply(t));
    ApplyInDb(e, a, t);
    n := Next(e, apply);
    steps := [commit] + [apply];
    PathOn(m, [commit], e, [apply], n);
  }

  lemma SecondSoleTry(s: State, step: SysStep, a: Address, ops: seq<Op>)
    requires step.Submit? && IsSplit(step.ops, step.subs) && |step.subs| == 1
    requires ComputeFinalConfig(step.asked, step.clock, step.dflt).Some? && step.id !in s.coord.metadata
    requires a == step.subs[0].ns.address && ops == step.subs[0].ops && SoleWork(s, step.id, a, ops)
    ensures Enabled(s, step) && Submission(s, step).prepares != []
    ensures SoleWork(Next(s, step), step.id, a, ops) && Next(s, step).cohorts == s.cohorts
  {
    SendsExactlyWhen(s.coord, step.id, step.subs, step.asked, step.clock, step.dflt, step.votingOk);
    SubmitEffect(s, step);
    SecondSoleEffect(s, Next(s, step), step, Submission(s, step), a, ops);
  }

  lemma SecondSoleEffect(s: State, n: State, step: SysStep, out: CommitOutcome, a: Address, ops: seq<Op>)
    requires Submitted(s, n, step, out) && out.prepares != [] && |step.subs| == 1
    requires a == step.subs[0].ns.address && ops == step.subs[0].ops && SoleWork(s, step.id, a, ops)
    ensures SoleWork(n, step.id, a, ops) && n.cohorts == s.cohorts
  {
  }

  /** The request is received a second time and runs to a database commit. */
  lemma SecondSoleRun(s: State, t: TxnId, a: Address, ops: seq<Op>) returns (steps: seq<Later>, n: State)
    requires SoleWork(s, t, a, ops) && t in s.cohorts[a].final
    ensures LaterPath(s, t, true, steps, n) && a in n.cohorts && t in n.cohorts[a].applied
    ensures var c, d := s.cohorts[a], n.cohorts[a];
            |d.log| == |c.log| + 1 && d.log[..|c.log|] == c.log && d.log[|c.log|].req.id == t
  {
    var req := s.prepares[t][0].req;
    assert Participant(s, t, 0, a);
    var m := LaterNext(s, t, true, Again(a, 0));
    assert Startable(m.cohorts[a], t, req);
    var path;
    path, n := SoleCommits(m, t, a, req);
    UsualPath(m, t, true, path, n);
    steps := [Again(a, 0)] + Usuals(path);
    assert steps[1..] == Usuals(path);
  }
}

/** What a second submission of an id does to an aborted reply: exactly when the
    reply stays true in every state that may follow. */
module Resubmission {
  import opened Common
  import opened Semantics
  import opened Voting
  import opened CoordinatorProtocol
  import opened System
  import opened SystemSafety
  import opened ClientTruth
  import opened Undisturbed
  import opened Paths
  import C = CohortProtocol
  import D = Database

  // ----- the property -----

  /** At contract time `now` the client, told that the id aborted, submits it. */
  ghost predicate Resubmits(s: State, step: SysStep, now: nat) {
    && step.Submit? && s.now == now && Enabled(s, step)
    && Complete(s.coord, step.id) && StoredOf(s.coord, step.id).response.AbortedResponse?
  }

  /** A whole story: a run up to the second submission, and what follows it. */
  ghost predicate Story(step: SysStep, now: nat, s0: State, before: seq<SysStep>, s: State, after: seq<Later>, n: State) {
    && Initial(s0) && Path(s0, before, s) && Resubmits(s, step, now)
    && LaterPath(Next(s, step), step.id, Submission(s, step).prepares != [], after, n)
  }

  ghost predicate AppliedNowhere(s: State, t: TxnId) {
    forall a | a in s.cohorts :: t !in s.cohorts[a].applied
  }

  /** The submission leaves aborted replies true: whatever happened before and
      whatever happens afterwards, no database commits the transaction. */
  ghost predicate AbortStands(step: SysStep, now: nat)
    requires step.Submit?
  {
    forall s0, before, s, after, n :: Story(step, now, s0, before, s, after, n) ==> AppliedNowhere(n, step.id)
  }

  /** The abort time is accepted, there is something to do, and it is for one cohort
      alone or reaches the contract, which accepts it. */
  predicate Reopens(step: SysStep, now: nat)
    requires step.Submit?
  {
    var config := ComputeFinalConfig(step.asked, step.clock, step.dflt);
    && config.Some? && step.subs != []
    && (|step.subs| == 1 || (step.executed && StartAccepted(now, VotingCall(config.value.seconds, |step.subs|))))
  }

  // ----- when nothing reopens -----

  /** Told aborted, and safely so. */
  ghost predicate Gone(s: State, t: TxnId) {
    Safe(s) && Complete(s.coord, t) && (t in s.prepares ==> Doomed(s, t))
  }

  lemma FirmerGone(s: State, n: State, t: TxnId)
    requires Gone(s, t) && Safe(n) && Firmer(s, n, t)
    ensures Gone(n, t)
  {
  }

  lemma SubmitGone(s: State, step: SysStep, t: TxnId)
    requires Gone(s, t) && step.Submit? && Enabled(s, step) && Disciplined(s, step) && Safe(Next(s, step))
    ensures Gone(Next(s, step), t)
  {
    SubmitEffect(s, step);
    SubmittedGone(s, Next(s, step), step, Submission(s, step), t);
  }

  lemma SubmittedGone(s: State, n: State, step: SysStep, out: CommitOutcome, t: TxnId)
    requires Gone(s, t) && Submitted(s, n, step, out) && step.id != t && Safe(n)
    ensures Gone(n, t)
  {
    assert SameRecord(s.coord, out.coord, t);
    SubmitOtherNetwork(s, n, step, out, t);
    Untouched(s, n, t);
    FirmerGone(s, n, t);
  }

  lemma GoneStep(s: State, step: SysStep, t: TxnId)
    requires Gone(s, t) && Enabled(s, step) && Disciplined(s, step)
    ensures Gone(Next(s, step), t)
  {
    var n := Next(s, step);
    SafeStep(s, step);
    match step
    case Tick(now) =>
      TickFirmer(s, now, t);
      FirmerGone(s, n, t);
    case Submit(_, _, _, _, _, _, _, _) => SubmitGone(s, step, t);
    case Local(a, local) =>
      LocalFirmer(s, a, local, t);
      FirmerGone(s, n, t);
    case Deliver(msg) =>
      DeliverFirmer(s, msg, t);
      FirmerGone(s, n, t);
    case Ask(_, _, _) => CompleteStaysInStep(s, step, t);
  }

  lemma {:induction false} GonePath(s: State, t: TxnId, steps: seq<Later>, n: State)
    requires Gone(s, t) && LaterPath(s, t, false, steps, n)
    ensures Gone(n, t)
    decreases |steps|
  {
    if steps != [] {
      GoneStep(s, steps[0].step, t);
      GonePath(LaterNext(s, t, false, steps[0]), t, steps[1..], n);
    }
  }

  /** Only the coordinator's record changes. */
  lemma CoordOnlySafe(s: State, n: State)
    requires Safe(s) && n == s.(coord := n.coord) && forall t :: FlagOk(n, t)
    ensures Safe(n)
  {
    SentHaveTxns(s);
    KeepsNetwork(s, n);
    forall t ensures RoundOk(n, t) { assert RoundOk(s, t); }
    forall a, t ensures FollowsOk(n, a, t) { assert FollowsOk(s, a, t); }
    forall t ensures t in n.order <==> InOrder(n, t) { assert t in s.order <==> InOrder(s, t); }
  }

  /** A submission that reopens nothing touches the coordinator only. */
  lemma ClosedSubmission(s: State, step: SysStep)
    requires step.Submit? && Enabled(s, step) && !Reopens(step, s.now) && step.id !in s.coord.metadata
    ensures Submission(s, step).prepares == []
    ensures Next(s, step) == s.(coord := Submission(s, step).coord)
  {
  }

  lemma ClosedGone(s: State, step: SysStep)
    requires Sane(s) && Resubmits(s, step, s.now) && !Reopens(step, s.now)
    ensures Submission(s, step).prepares == [] && Gone(Next(s, step), step.id)
  {
    var n, t := Next(s, step), step.id;
    assert Told(s, t);
    ClosedSubmission(s, step);
    CommitIsSound(s.coord, t, step.subs, step.asked, step.clock, step.dflt, step.votingOk);
    forall u ensures FlagOk(n, u) {
      assert FlagOk(s, u);
      assert u != t ==> SameRecord(s.coord, n.coord, u);
    }
    CoordOnlySafe(s, n);
  }

  lemma ClosedStands(step: SysStep, now: nat, s0: State, before: seq<SysStep>, s: State, after: seq<Later>, n: State)
    requires Story(step, now, s0, before, s, after, n) && !Reopens(step, now)
    ensures AppliedNowhere(n, step.id)
  {
    InitialSane(s0);
    SanePath(s0, before, s);
    ClosedGone(s, step);
    GonePath(Next(s, step), step.id, after, n);
    forall a | a in n.cohorts ensures step.id !in n.cohorts[a].applied {
      DoomedNeverApplied(n, step.id, a);
    }
  }

  // ----- late ballots in a new round -----

  /** The clock passes second 1 and the client asks: it is told aborted. */
  lemma ToldAborted(s: State, t: TxnId, k: nat, now: nat) returns (n: State)
    requires JustSent(s.coord, t) && t in s.rounds && s.rounds[t] == NewRound(k, 1) && k > 0 && s.now == 0 < now
    ensures Path(s, [Tick(now)] + [Ask(t, true, {})], n)
    ensures n == s.(now := now, coord := n.coord)
    ensures Complete(n.coord, t) && StoredOf(n.coord, t).response.AbortedResponse? && t !in n.coord.metadata
  {
    var ticked := Next(s, Tick(now));
    PathOne(s, Tick(now));
    PathOne(ticked, Ask(t, true, {}));
    n := Next(ticked, Ask(t, true, {}));
    PathOn(s, [Tick(now)], ticked, [Ask(t, true, {})], n);
    var round := s.rounds[t];
    assert round.ballots[0] == NoBallot;
    assert Decide(round, now) == AbortDecision;
    PollShared(s.coord, t, ReadDecision(ticked, t, true), Answers(ticked, t, {}));
  }

  /** The second submission opens a new round under the old ballots. */
  lemma SecondTryArms(s: State, step: SysStep, now: nat)
    requires step.Submit? && IsSplit(step.ops, step.subs) && |step.subs| > 1 && Reopens(step, now) && s.now == now
    requires Staged(s, step.id, |step.subs|) && |s.prepares[step.id]| == |step.subs|
    requires Complete(s.coord, step.id) && StoredOf(s.coord, step.id).response.AbortedResponse?
    requires step.id !in s.coord.metadata
    ensures Resubmits(s, step, now)
    ensures Armed(Next(s, step), step.id, |step.subs|, s.prepares[step.id][0].address)
  {
    SecondTryEnabled(s, step, now);
    SubmitEffect(s, step);
    SecondTryEffect(s, Next(s, step), step, Submission(s, step), now);
  }

  lemma SecondTryEnabled(s: State, step: SysStep, now: nat)
    requires step.Submit? && IsSplit(step.ops, step.subs) && |step.subs| > 1 && Reopens(step, now) && s.now == now
    requires step.id !in s.coord.metadata
    ensures Enabled(s, step)
    ensures Submission(s, step).voting ==
            Some(VotingCall(ComputeFinalConfig(step.asked, step.clock, step.dflt).value.seconds, |step.subs|))
  {
  }

  lemma SecondTryEffect(s: State, n: State, step: SysStep, out: CommitOutcome, now: nat)
    requires Effects(s, n, step, out) && Reopens(step, now) && s.now == now && |step.subs| > 1
    requires out.voting ==
             Some(VotingCall(ComputeFinalConfig(step.asked, step.clock, step.dflt).value.seconds, |step.subs|))
    requires Staged(s, step.id, |step.subs|) && |s.prepares[step.id]| == |step.subs|
    ensures Armed(n, step.id, |step.subs|, s.prepares[step.id][0].address)
  {
    var t, k := step.id, |step.subs|;
    assert n.rounds[t] == NewRound(k, out.voting.value.timeout);
    assert Waits(s, t, 0);
    forall j: nat | j < k ensures BallotMsg(t, j, CommitBallot) in n.ballots {
      assert Waits(s, t, j);
    }
  }

  /** Every shared submission that reopens makes some aborted reply untrue. The
      ballots of the first round come too late for it, the client is told aborted
      and submits again, and the same ballots carry the second round. */
  lemma SharedBreaks(step: SysStep, now: nat)
    returns (s0: State, before: seq<SysStep>, s: State, after: seq<Later>, n: State)
    requires step.Submit? && IsSplit(step.ops, step.subs) && now > 0 && |step.subs| > 1 && Reopens(step, now)
    ensures Story(step, now, s0, before, s, after, n) && !AppliedNowhere(n, step.id)
  {
    var t := step.id;
    s0 := Beginning(step.ops);
    BeginningIsInitial(step.ops);
    FirstTryStages(step);
    var sent := Next(s0, FirstTry(step));
    var promises, waiting := AllPromise(sent, t, 0);
    PathOn(s0, [FirstTry(step)], sent, promises, waiting);
    s := ToldAborted(waiting, t, |step.subs|, now);
    before := [FirstTry(step)] + promises + ([Tick(now)] + [Ask(t, true, {})]);
    PathOn(s0, [FirstTry(step)] + promises, waiting, [Tick(now)] + [Ask(t, true, {})], s);
    StagedStays(waiting, s, t, |step.subs|);
    SecondTryArms(s, step, now);
    var a := s.prepares[t][0].address;
    var commits;
    commits, n := ArmedCommits(Next(s, step), t, |step.subs|, a);
    after := Usuals(commits);
    UsualPath(Next(s, step), t, Submission(s, step).prepares != [], commits, n);
  }

  // ----- a cohort that serves twice -----

  lemma RefuseStep(s: State, t: TxnId, a: Address, req: Request)
    requires a in s.cohorts && t in s.cohorts[a].live
    requires s.cohorts[a].live[t] == C.Part(req, C.Locking, {}, {}, D.Closed, Pending)
    ensures var refuse := Local(a, C.Refuse(t, DeadlineExceeded));
            && Path(s, [refuse], Next(s, refuse)) && OnlyAt(s, Next(s, refuse), a)
            && var c, d := s.cohorts[a], Next(s, refuse).cohorts[a];
               && d.kind == c.kind && d.store == c.store && d.readers == c.readers && d.writers == c.writers
               && t in d.live && d.live[t] == C.Part(req, C.Dropped, {}, {}, D.Closed, Aborted(TimestampReached))
  {
    PathOne(s, Local(a, C.Refuse(t, DeadlineExceeded)));
  }

  lemma ReleaseStep(s: State, t: TxnId, a: Address, req: Request, reply: Reply)
    requires a in s.cohorts && t in s.cohorts[a].live
    requires s.cohorts[a].live[t] == C.Part(req, C.Dropped, {}, {}, D.Closed, reply)
    ensures var release := Local(a, C.Release(t));
            && Path(s, [release], Next(s, release)) && OnlyAt(s, Next(s, release), a)
            && var c, d := s.cohorts[a], Next(s, release).cohorts[a];
               && d.kind == c.kind && d.store == c.store && d.readers == c.readers && d.writers == c.writers
               && t !in d.live && t in d.final && d.final[t] == reply
  {
    PathOne(s, Local(a, C.Release(t)));
  }

  /** The cohort gets no lock in time and publishes its refusal. */
  lemma Refuses(s: State, t: TxnId, a: Address, ops: seq<Op>) returns (steps: seq<SysStep>, n: State)
    requires SoleWork(s, t, a, ops) && t !in s.cohorts[a].final
    ensures Path(s, steps, n) && n == s.(cohorts := n.cohorts, ballots := n.ballots)
    ensures SoleWork(n, t, a, ops) && t in n.cohorts[a].final && n.cohorts[a].final[t].Aborted?
  {
    var req := s.prepares[t][0].req;
    var receive, refuse := Local(a, C.Receive(req)), Local(a, C.Refuse(t, DeadlineExceeded));
    var release := Local(a, C.Release(t));
    SoleReceiveStep(s, t, a, ops);
    var received := Next(s, receive);
    RefuseStep(received, t, a, req);
    var refused := Next(received, refuse);
    ReleaseStep(refused, t, a, req, Aborted(TimestampReached));
    n := Next(refused, release);
    PathOn(received, [refuse], refused, [release], n);
    steps := [receive] + ([refuse] + [release]);
    PathOn(s, [receive], received, [refuse] + [release], n);
  }

  lemma SoleToldAborted(s: State, t: TxnId, a: Address, now: nat) returns (n: State)
    requires JustSentTo(s.coord, t, a) && s.now <= now
    requires a in s.cohorts && t in s.cohorts[a].final && s.cohorts[a].final[t].Aborted?
    ensures Path(s, [Tick(now)] + [Ask(t, false, {a})], n) && n == s.(now := now, coord := n.coord)
    ensures Complete(n.coord, t) && StoredOf(n.coord, t).response.AbortedResponse? && t !in n.coord.metadata
  {
    var ticked := Next(s, Tick(now));
    PathOne(s, Tick(now));
    PathOne(ticked, Ask(t, false, {a}));
    n := Next(ticked, Ask(t, false, {a}));
    PathOn(s, [Tick(now)], ticked, [Ask(t, false, {a})], n);
    assert Answers(ticked, t, {a})[a] == s.cohorts[a].final[t];
    PollAlone(s.coord, t, ReadDecision(ticked, t, false), Answers(ticked, t, {a}));
  }

  /** Every submission for one cohort that reopens makes some aborted reply untrue:
      the cohort refused the first request and serves the second. */
  lemma SoleBreaks(step: SysStep, now: nat)
    returns (s0: State, before: seq<SysStep>, s: State, after: seq<Later>, n: State)
    requires step.Submit? && IsSplit(step.ops, step.subs) && |step.subs| == 1 && Reopens(step, now)
    ensures Story(step, now, s0, before, s, after, n) && !AppliedNowhere(n, step.id)
  {
    var t, a, ops := step.id, step.subs[0].ns.address, step.subs[0].ops;
    s0 := Beginning(step.ops);
    BeginningIsInitial(step.ops);
    FirstSoleTry(step);
    var sent := Next(s0, FirstTry(step));
    var refusal, refused := Refuses(sent, t, a, ops);
    PathOn(s0, [FirstTry(step)], sent, refusal, refused);
    s := SoleToldAborted(refused, t, a, now);
    before := [FirstTry(step)] + refusal + ([Tick(now)] + [Ask(t, false, {a})]);
    PathOn(s0, [FirstTry(step)] + refusal, refused, [Tick(now)] + [Ask(t, false, {a})], s);
    SecondSoleTry(s, step, a, ops);
    after, n := SecondSoleRun(Next(s, step), t, a, ops);
  }

  // ----- the exact condition -----

  /** An aborted reply survives a second submission of its id, over every run before
      it and every continuation after it, if and only if the submission does not
      reopen the transaction. The contract's clock has left zero. */
  lemma AbortStandsExactly(step: SysStep, now: nat)
    requires step.Submit? && IsSplit(step.ops, step.subs) && now > 0
    ensures AbortStands(step, now) <==> !Reopens(step, now)
  {
    if Reopens(step, now) {
      var s0, before, s, after, n;
      if |step.subs| == 1 {
        s0, before, s, after, n := SoleBreaks(step, now);
      } else {
        s0, before, s, after, n := SharedBreaks(step, now);
      }
      assert Story(step, now, s0, before, s, after, n);
    } else {
      forall s0, before, s, after, n | Story(step, now, s0, before, s, after, n) ensures AppliedNowhere(n, step.id) {
        ClosedStands(step, now, s0, before, s, after, n);
      }
    }
  }

  /** The condition as the caller has it: however the start fares, an aborted reply
      survives if and only if the abort time is refused, there is nothing to do, or
      the contract would not accept the start. */
  lemma AbortStandsForCallers(step: SysStep, now: nat)
    requires step.Submit? && IsSplit(step.ops, step.subs) && now > 0
    ensures (forall reaches, ok :: AbortStands(step.(executed := reaches, votingOk := ok), now))
       <==> !MayReopen(step, now)
  {
    forall reaches, ok
      ensures AbortStands(step.(executed := reaches, votingOk := ok), now) <==>
              !Reopens(step.(executed := reaches, votingOk := ok), now)
    {
      AbortStandsExactly(step.(executed := reaches, votingOk := ok), now);
    }
    assert MayReopen(step, now) <==> Reopens(step.(executed := true, votingOk := true), now);
  }

  /** One instance: two puts at two cohorts, submitted again at time 5 after the
      client was told they aborted, until some database has committed one. */
  lemma AbortedThenCommitted(id: TxnId)
    returns (step: SysStep, s0: State, before: seq<SysStep>, s: State, after: seq<Later>, n: State)
    ensures step.Submit? && step.id == id && |step.ops| == 2
    ensures Story(step, 5, s0, before, s, after, n)
    ensures StoredOf(s.coord, id).response.AbortedResponse? && exists a :: a in n.cohorts && id in n.cohorts[a].applied
  {
    var left, right := Op(Namespace("", "a"), Put("x", Constant(1))), Op(Namespace("", "b"), Put("y", Constant(2)));
    var subs := [SubTransaction(left.ns, [left]), SubTransaction(right.ns, [right])];
    TwoOpsSplit(left, right);
    step := Submit(id, [left, right], subs, Some(Timestamp(9, 0)), 5 * SECOND, 0, true, true);
    s0, before, s, after, n := SharedBreaks(step, 5);
  }

  lemma TwoOpsSplit(left: Op, right: Op)
    requires left.ns.address != right.ns.address
    ensures IsSplit([left, right], [SubTransaction(left.ns, [left]), SubTransaction(right.ns, [right])])
  {
    var ops, subs := [left, right], [SubTransaction(left.ns, [left]), SubTransaction(right.ns, [right])];
    assert ops[..1] == [left] && [left][..0] == [];
    forall a ensures OpsFor([left], a) == (if left.ns.address == a then [left] else []) {
      assert OpsFor([left][..0], a) == [];
    }
    assert LastNamespace([left], left.ns.address) == left.ns;
    assert ops[0] == left && ops[1] == right && subs[0].ns == left.ns && subs[1].ns == right.ns;
    assert OpsFor(ops, left.ns.address) == [left] && OpsFor(ops, right.ns.address) == [right];
    assert LastNamespace(ops, right.ns.address) == right.ns && LastNamespace(ops, left.ns.address) == left.ns;
  }
}

/** What a second submission of an id does after a complete commit reply: exactly
    when no database commits the transaction a second time. */
module Repetition {
  import opened Common
  import opened Semantics
  import opened Voting
  import opened CoordinatorProtocol
  import opened System
  import opened SystemSafety
  import opened Serializability
  import opened ClientTruth
  import opened Undisturbed
  import opened Paths
  import C = CohortProtocol
  import P = CohortProofs

  // ----- the property -----

  /** How often a log has the transaction. */
  function Times(log: seq<C.Entry>, t: TxnId): nat {
    if log == [] then 0
    else Times(log[..|log| - 1], t) + (if log[|log| - 1].req.id == t then 1 else 0)
  }

  ghost predicate OnceEach(s: State, t: TxnId) {
    forall a | a in s.cohorts :: Times(s.cohorts[a].log, t) <= 1
  }

  /** The client holds a complete commit reply and submits the id again. */
  ghost predicate Repeats(s: State, step: SysStep, now: nat) {
    && step.Submit? && s.now == now && Enabled(s, step)
    && Complete(s.coord, step.id) && StoredOf(s.coord, step.id).response.CommittedResponse?
  }

  ghost predicate Tale(step: SysStep, now: nat, s0: State, before: seq<SysStep>, s: State, after: seq<Later>, n: State) {
    && Initial(s0) && Path(s0, before, s) && Repeats(s, step, now)
    && LaterPath(Next(s, step), step.id, Submission(s, step).prepares != [], after, n)
  }

  /** Whatever happened before and whatever happens afterwards, no database commits
      the transaction twice. */
  ghost predicate CommitsOnce(step: SysStep, now: nat)
    requires step.Submit?
  {
    forall s0, before, s, after, n :: Tale(step, now, s0, before, s, after, n) ==> OnceEach(n, step.id)
  }

  /** The requests go out again. */
  predicate Resends(step: SysStep, now: nat)
    requires step.Submit?
  {
    var config := ComputeFinalConfig(step.asked, step.clock, step.dflt);
    && config.Some? && step.subs != []
    && (|step.subs| == 1
        || (step.votingOk && step.executed && StartAccepted(now, VotingCall(config.value.seconds, |step.subs|))))
  }

  // ----- when nothing is sent -----

  /** Served everywhere, and nowhere in hand. */
  ghost predicate Served(s: State, t: TxnId) {
    && CohortsOk(s) && Complete(s.coord, t)
    && (forall a | a in s.cohorts :: t !in s.cohorts[a].live && Times(s.cohorts[a].log, t) <= 1)
    && (forall x, a | Participant(s, t, x, a) && a in s.cohorts :: t in s.cohorts[a].final)
  }

  lemma {:induction false} TimesIn(log: seq<C.Entry>, t: TxnId)
    requires forall i, j | 0 <= i < j < |log| :: log[i].req.id != log[j].req.id
    ensures Times(log, t) <= 1
    ensures (forall i | 0 <= i < |log| :: log[i].req.id != t) ==> Times(log, t) == 0
  {
    if log != [] {
      TimesIn(log[..|log| - 1], t);
    }
  }

  lemma TimesMore(log: seq<C.Entry>, entry: C.Entry, t: TxnId)
    ensures Times(log + [entry], t) == Times(log, t) + (if entry.req.id == t then 1 else 0)
  {
    assert (log + [entry])[..|log|] == log;
  }

  lemma ServedAt(s: State, t: TxnId, a: Address)
    requires Sane(s) && Complete(s.coord, t) && StoredOf(s.coord, t).response.CommittedResponse? && a in s.cohorts
    ensures t !in s.cohorts[a].live && Times(s.cohorts[a].log, t) <= 1
  {
    assert Told(s, t) && CohortOk(s, a) && KnownOk(s, a, t);
    At(s, a, t);
    TimesIn(s.cohorts[a].log, t);
    if t in s.cohorts[a].live {
      var x :| Participant(s, t, x, a);
      CommittedApplied(s, t, x, a);
    }
  }

  lemma CommittedIsServed(s: State, t: TxnId)
    requires Sane(s) && Complete(s.coord, t) && StoredOf(s.coord, t).response.CommittedResponse?
    ensures Served(s, t)
  {
    assert Told(s, t);
    forall a | a in s.cohorts ensures t !in s.cohorts[a].live && Times(s.cohorts[a].log, t) <= 1 {
      ServedAt(s, t, a);
    }
    forall x, a | Participant(s, t, x, a) && a in s.cohorts ensures t in s.cohorts[a].final {
      CommittedApplied(s, t, x, a);
    }
  }

  /** A step about another transaction does not log this one. */
  lemma OthersTimes(c: Cohort, step: C.Step, t: TxnId)
    requires C.Inv(c) && C.Enabled(c, step) && C.IdOf(step) != t
    ensures Times(C.Next(c, step).log, t) == Times(c.log, t)
  {
    if step.Apply? {
      assert C.PartAt(c, step.id);
      TimesMore(c.log, C.Entry(c.live[step.id].req, C.Gets(c.live[step.id].response)), t);
    }
  }

  lemma LocalServed(s: State, a: Address, step: C.Step, t: TxnId)
    requires Served(s, t) && Enabled(s, Local(a, step))
    ensures Served(Next(s, Local(a, step)), t)
  {
    assert CohortOk(s, a);
    assert C.IdOf(step) != t;
    OthersTimes(s.cohorts[a], step, t);
    P.OthersSame(s.cohorts[a], step, t);
    P.InvStep(s.cohorts[a], step);
    OneServed(s, Next(s, Local(a, step)), a, C.Next(s.cohorts[a], step), t);
  }

  lemma OneServed(s: State, n: State, a: Address, d: Cohort, t: TxnId)
    requires Served(s, t) && a in s.cohorts && n.cohorts == s.cohorts[a := d] && C.Inv(d)
    requires n.prepares == s.prepares && n.coord == s.coord
    requires P.SameFor(s.cohorts[a], d, t) && Times(d.log, t) == Times(s.cohorts[a].log, t)
    ensures Served(n, t)
  {
    CohortsStay(s, n, a, d);
    forall x, b | Participant(n, t, x, b) && b in n.cohorts ensures t in n.cohorts[b].final {
      assert Participant(s, t, x, b);
    }
  }

  lemma SameServed(s: State, n: State, t: TxnId)
    requires Served(s, t) && n.cohorts == s.cohorts && Complete(n.coord, t)
    requires (t in n.prepares <==> t in s.prepares) && (t in s.prepares ==> n.prepares[t] == s.prepares[t])
    ensures Served(n, t)
  {
    forall a ensures CohortOk(n, a) { assert CohortOk(s, a); }
    forall x, b | Participant(n, t, x, b) && b in n.cohorts ensures t in n.cohorts[b].final {
      assert Participant(s, t, x, b);
    }
  }

  lemma SubmitServed(s: State, n: State, step: SysStep, out: CommitOutcome, t: TxnId)
    requires Served(s, t) && Submitted(s, n, step, out) && step.id != t
    ensures Served(n, t)
  {
    assert SameRecord(s.coord, out.coord, t);
    SubmitOtherNetwork(s, n, step, out, t);
    SameServed(s, n, t);
  }

  lemma ServedStep(s: State, step: SysStep, t: TxnId)
    requires Served(s, t) && Enabled(s, step) && Disciplined(s, step)
    ensures Served(Next(s, step), t)
  {
    match step
    case Local(a, local) => LocalServed(s, a, local, t);
    case Submit(_, _, _, _, _, _, _, _) =>
      SubmitEffect(s, step);
      SubmitServed(s, Next(s, step), step, Submission(s, step), t);
    case Ask(_, _, _) =>
      CompleteStaysInStep(s, step, t);
      SameServed(s, Next(s, step), t);
    case Tick(_) => SameServed(s, Next(s, step), t);
    case Deliver(_) => SameServed(s, Next(s, step), t);
  }

  lemma {:induction false} ServedPath(s: State, t: TxnId, steps: seq<Later>, n: State)
    requires Served(s, t) && LaterPath(s, t, false, steps, n)
    ensures Served(n, t)
    decreases |steps|
  {
    if steps != [] {
      ServedStep(s, steps[0].step, t);
      ServedPath(LaterNext(s, t, false, steps[0]), t, steps[1..], n);
    }
  }

  lemma NothingSent(s: State, step: SysStep)
    requires step.Submit? && Enabled(s, step) && !Resends(step, s.now) && step.id !in s.coord.metadata
    ensures Submission(s, step).prepares == []
  {
  }

  lemma UnsentServed(s: State, n: State, step: SysStep, out: CommitOutcome)
    requires Submitted(s, n, step, out) && out.prepares == [] && Served(s, step.id)
    ensures Served(n, step.id)
  {
    SameServed(s, n, step.id);
  }

  lemma UnsentOnce(step: SysStep, now: nat, s0: State, before: seq<SysStep>, s: State, after: seq<Later>, n: State)
    requires Tale(step, now, s0, before, s, after, n) && !Resends(step, now)
    ensures OnceEach(n, step.id)
  {
    InitialSane(s0);
    SanePath(s0, before, s);
    assert Told(s, step.id);
    CommittedIsServed(s, step.id);
    NothingSent(s, step);
    SubmitEffect(s, step);
    UnsentServed(s, Next(s, step), step, Submission(s, step));
    ServedPath(Next(s, step), step.id, after, n);
  }

  // ----- everybody commits and the client is told -----

  /** Participant j has committed and published, and holds nothing. */
  ghost predicate Finished(s: State, t: TxnId, j: nat)
    requires SharedWork(s, t) && j < |s.prepares[t]|
  {
    var c := s.cohorts[s.prepares[t][j].address];
    && c.live == map[] && t in c.final && c.final[t].Committed? && Times(c.log, t) >= 1 && t in c.applied
    && c.kind == LMDB && AllKeys(s.prepares[t][j].req.ops, c.store)
    && BallotMsg(t, j, CommitBallot) in s.ballots
  }

  ghost predicate FinishedTo(s: State, t: TxnId, i: nat) {
    && SharedWork(s, t) && i <= |s.prepares[t]|
    && t in s.rounds && |s.rounds[t].ballots| > 0 && AllCommit(s.rounds[t])
    && (forall j: nat | j < i :: Finished(s, t, j))
    && (forall j: nat | i <= j < |s.prepares[t]| :: Waits(s, t, j))
  }

  /** One cohort and the decision order differ. */
  ghost predicate OnlyThere(s: State, n: State, a: Address) {
    && a in s.cohorts && n.cohorts.Keys == s.cohorts.Keys
    && (forall b | b in s.cohorts && b != a :: n.cohorts[b] == s.cohorts[b])
    && n == s.(cohorts := n.cohorts, order := n.order)
  }

  lemma LearnStep(s: State, a: Address, t: TxnId)
    requires a in s.cohorts && t in s.cohorts[a].live && s.cohorts[a].live[t].phase == C.Voted
    requires t in s.rounds && |s.rounds[t].ballots| > 0 && AllCommit(s.rounds[t])
    ensures var n, c := Next(s, Local(a, C.LearnCommit(t))), s.cohorts[a];
            && Path(s, [Local(a, C.LearnCommit(t))], n) && OnlyThere(s, n, a)
            && n.cohorts[a] == C.Set(c, t, c.live[t].(phase := C.Committing))
  {
    CommitIsAllCommit(s.rounds[t], s.now);
    PathOne(s, Local(a, C.LearnCommit(t)));
  }

  /** What a database commit does to its cohort. */
  ghost predicate CommittedHere(c: Cohort, d: Cohort, t: TxnId) {
    && d.live.Keys == c.live.Keys && t in d.live && d.live[t].phase == C.Applied && d.live[t].response.Committed?
    && t in d.applied && d.kind == c.kind && c.store.Keys <= d.store.Keys && Times(d.log, t) == Times(c.log, t) + 1
  }

  lemma CommitHere(c: Cohort, d: Cohort, t: TxnId)
    requires ApplyFields(c, d, t) && c.live[t].req.id == t
    ensures CommittedHere(c, d, t)
  {
    TimesMore(c.log, C.Entry(c.live[t].req, C.Gets(c.live[t].response)), t);
  }

  lemma CommitStep(s: State, a: Address, t: TxnId)
    requires a in s.cohorts && t in s.cohorts[a].live && s.cohorts[a].live[t].req.id == t
    requires s.cohorts[a].live[t].phase == C.Committing && s.cohorts[a].live[t].db.Open?
    ensures var n := Next(s, Local(a, C.Apply(t)));
            && Path(s, [Local(a, C.Apply(t))], n) && OnlyThere(s, n, a)
            && CommittedHere(s.cohorts[a], n.cohorts[a], t)
  {
    ApplyInDb(s, a, t);
    CommitHere(s.cohorts[a], Next(s, Local(a, C.Apply(t))).cohorts[a], t);
  }

  lemma PublishStep(s: State, a: Address, t: TxnId)
    requires a in s.cohorts && s.cohorts[a].live.Keys == {t} && s.cohorts[a].live[t].phase == C.Applied
    ensures var n, c := Next(s, Local(a, C.Release(t))), s.cohorts[a];
            && Path(s, [Local(a, C.Release(t))], n) && OnlyThere(s, n, a)
            && var d := n.cohorts[a];
               && d.live == map[] && t in d.final && d.final[t] == c.live[t].response
               && d.kind == c.kind && d.store == c.store && d.log == c.log && d.applied == c.applied
  {
    PathOne(s, Local(a, C.Release(t)));
  }

  lemma FinishOne(s: State, t: TxnId, a: Address) returns (steps: seq<SysStep>, n: State)
    requires a in s.cohorts && s.cohorts[a].live.Keys == {t} && s.cohorts[a].live[t].req.id == t
    requires s.cohorts[a].live[t].phase == C.Voted && s.cohorts[a].live[t].db.Open?
    requires t in s.rounds && |s.rounds[t].ballots| > 0 && AllCommit(s.rounds[t])
    ensures Path(s, steps, n) && OnlyThere(s, n, a)
    ensures var c, d := s.cohorts[a], n.cohorts[a];
            && d.live == map[] && t in d.final && d.final[t].Committed? && Times(d.log, t) >= 1 && t in d.applied
            && d.kind == c.kind && c.store.Keys <= d.store.Keys
  {
    var learn, apply, release := Local(a, C.LearnCommit(t)), Local(a, C.Apply(t)), Local(a, C.Release(t));
    LearnStep(s, a, t);
    var learned := Next(s, learn);
    CommitStep(learned, a, t);
    var applied := Next(learned, apply);
    PublishStep(applied, a, t);
    n := Next(applied, release);
    steps := [learn] + ([apply] + [release]);
    PathOn(learned, [apply], applied, [release], n);
    PathOn(s, [learn], learned, [apply] + [release], n);
  }

  lemma FinishNext(s: State, t: TxnId, i: nat) returns (steps: seq<SysStep>, n: State)
    requires FinishedTo(s, t, i) && i < |s.prepares[t]|
    ensures Path(s, steps, n) && FinishedTo(n, t, i + 1) && OnlyThere(s, n, s.prepares[t][i].address)
  {
    assert Waits(s, t, i);
    steps, n := FinishOne(s, t, s.prepares[t][i].address);
    FinishedNext(s, n, t, i);
  }

  lemma FinishedNext(s: State, n: State, t: TxnId, i: nat)
    requires FinishedTo(s, t, i) && i < |s.prepares[t]| && OnlyThere(s, n, s.prepares[t][i].address)
    requires SharedWork(n, t) && Finished(n, t, i)
    ensures FinishedTo(n, t, i + 1)
  {
    forall j: nat | j < i ensures Finished(n, t, j) { assert Finished(s, t, j); }
    forall j: nat | i < j < |n.prepares[t]| ensures Waits(n, t, j) { assert Waits(s, t, j); }
  }

  lemma {:induction false} AllFinish(s: State, t: TxnId, i: nat) returns (steps: seq<SysStep>, n: State)
    requires FinishedTo(s, t, i)
    ensures Path(s, steps, n) && FinishedTo(n, t, |s.prepares[t]|) && n == s.(cohorts := n.cohorts, order := n.order)
    decreases |s.prepares[t]| - i
  {
    if i == |s.prepares[t]| {
      steps, n := [], s;
    } else {
      var first, m := FinishNext(s, t, i);
      var rest;
      rest, n := AllFinish(m, t, i + 1);
      steps := first + rest;
      PathOn(s, first, m, rest, n);
    }
  }

  /** The client asks when all have published: the reply is complete. */
  lemma ToldCommitted(s: State, t: TxnId, subs: seq<SubTransaction>, now: nat) returns (steps: seq<SysStep>, n: State)
    requires FinishedTo(s, t, |subs|) && SentTo(s, t, subs) && s.now <= now && JustSent(s.coord, t)
    requires s.coord.metadata[t].namespaces == NamespacesOf(subs)
    ensures Path(s, steps, n) && n == s.(now := now, coord := n.coord)
    ensures Complete(n.coord, t) && StoredOf(n.coord, t).response.CommittedResponse? && t !in n.coord.metadata
  {
    var ticked, ask := Next(s, Tick(now)), Ask(t, true, s.cohorts.Keys);
    PathOne(s, Tick(now));
    PathOne(ticked, ask);
    n := Next(ticked, ask);
    steps := [Tick(now)] + [ask];
    PathOn(s, [Tick(now)], ticked, [ask], n);
    var answers := Answers(ticked, t, s.cohorts.Keys);
    CommitIsAllCommit(s.rounds[t], now);
    AllAnswer(s, t, subs, answers, StoredOf(s.coord, t).response);
    PollShared(s.coord, t, ReadDecision(ticked, t, true), answers);
  }

  lemma AllAnswer(s: State, t: TxnId, subs: seq<SubTransaction>, answers: map<Address, Reply>, response: Response)
    requires FinishedTo(s, t, |subs|) && SentTo(s, t, subs)
    requires forall a | a in s.cohorts :: a in answers && answers[a] == C.Published(s.cohorts[a], t)
    ensures Collect(NamespacesOf(subs), {}, response, answers, |subs|).count == |subs|
  {
    var namespaces := NamespacesOf(subs);
    assert DistinctAddresses(namespaces);
    forall j: nat | j < |subs| ensures namespaces[j].address in Answering(namespaces, answers, |subs|) {
      assert Finished(s, t, j);
    }
    CollectResponded(namespaces, {}, response, answers, |subs|);
    CollectCounts(namespaces, {}, response, answers, |subs|);
  }

  /** The state in which the client holds the reply. */
  ghost predicate ReplyHeld(s: State, step: SysStep, now: nat) {
    && step.Submit? && s.now == now && FinishedTo(s, step.id, |step.subs|) && SentTo(s, step.id, step.subs)
    && Complete(s.coord, step.id) && StoredOf(s.coord, step.id).response.CommittedResponse?
    && step.id !in s.coord.metadata
  }

  lemma AllWait(step: SysStep) returns (before: seq<SysStep>, n: State)
    requires step.Submit? && IsSplit(step.ops, step.subs) && 1 < |step.subs| <= MAX_COHORTS
    ensures Path(Beginning(step.ops), before, n) && Staged(n, step.id, |step.subs|) && SentTo(n, step.id, step.subs)
    ensures JustSent(n.coord, step.id) && n.coord.metadata[step.id].namespaces == NamespacesOf(step.subs)
    ensures step.id in n.rounds && n.rounds[step.id] == NewRound(|step.subs|, 1) && n.now == 0
  {
    var s0 := Beginning(step.ops);
    FirstTryStages(step);
    var sent := Next(s0, FirstTry(step));
    var promises;
    promises, n := AllPromise(sent, step.id, 0);
    before := [FirstTry(step)] + promises;
    PathOn(s0, [FirstTry(step)], sent, promises, n);
  }

  lemma StagedIsArmed(s: State, t: TxnId, k: nat)
    requires Staged(s, t, k) && k == |s.prepares[t]| && t in s.rounds && s.rounds[t] == NewRound(k, 1) && s.now == 0
    ensures Armed(s, t, k, s.prepares[t][0].address) && ArrivedTo(s, t, 0)
  {
    assert Waits(s, t, 0);
    forall j: nat | j < k ensures BallotMsg(t, j, CommitBallot) in s.ballots { assert Waits(s, t, j); }
  }

  lemma CarriedStarts(s: State, n: State, t: TxnId, k: nat)
    requires Staged(s, t, k) && k == |s.prepares[t]| && n == s.(rounds := n.rounds, order := n.order)
    requires ArrivedTo(n, t, k) && |n.rounds[t].ballots| == k
    ensures FinishedTo(n, t, 0)
  {
    forall j: nat | j < k ensures Waits(n, t, j) { assert Waits(s, t, j); }
  }

  lemma CommitAndTell(step: SysStep, now: nat) returns (before: seq<SysStep>, s: State)
    requires step.Submit? && IsSplit(step.ops, step.subs) && 1 < |step.subs| <= MAX_COHORTS
    ensures Path(Beginning(step.ops), before, s) && ReplyHeld(s, step, now)
  {
    var s0, t, k := Beginning(step.ops), step.id, |step.subs|;
    var promises, waiting := AllWait(step);
    StagedIsArmed(waiting, t, k);
    var delivers, carried := DeliverRest(waiting, t, k, waiting.prepares[t][0].address, 0);
    PathOn(s0, promises, waiting, delivers, carried);
    CarriedStarts(waiting, carried, t, k);
    var commits, finished := AllFinish(carried, t, 0);
    PathOn(s0, promises + delivers, carried, commits, finished);
    var asks;
    asks, s := ToldCommitted(finished, t, step.subs, now);
    before := promises + delivers + commits + asks;
    PathOn(s0, promises + delivers + commits, finished, asks, s);
    forall j: nat | j < k ensures Finished(s, t, j) { assert Finished(finished, t, j); }
  }

  // ----- the second submission is served -----

  lemma NoLocks(c: Cohort)
    requires C.Inv(c) && c.live == map[]
    ensures c.readers == {} && c.writers == map[]
  {
    forall r ensures r !in c.readers {
      assert r == (r.0, r.1) && C.Listed(c, r.0, r.1);
    }
    forall l ensures l !in c.writers {
      assert l in c.writers ==> C.Listed(c, l, c.writers[l]);
    }
  }

  /** A round of k that is open, with a commit ballot on the way for every index. */
  ghost predicate Open(s: State, t: TxnId, k: nat) {
    && t in s.rounds && |s.rounds[t].ballots| == k > 0 && s.now < s.rounds[t].timeout
    && forall j: nat | j < k :: BallotMsg(t, j, CommitBallot) in s.ballots
  }

  lemma ServeAgain(s: State, t: TxnId, a: Address, req: Request, k: nat) returns (steps: seq<SysStep>, n: State)
    requires a in s.cohorts && Startable(s.cohorts[a], t, req) && req.id == t && !req.onlyCohort && Open(s, t, k)
    ensures Path(s, steps, n) && a in n.cohorts && Times(n.cohorts[a].log, t) == Times(s.cohorts[a].log, t) + 1
  {
    var run := RunAndPersist(s.cohorts[a], t, req);
    SilentPath(s, a, run, t);
    SilentKeeps(s.cohorts[a], run, t);
    var ready := With(s, a, P.RunSteps(s.cohorts[a], run));
    PromiseStep(ready, a, t, req);
    PathOne(ready, Local(a, C.Promise(t)));
    var voted := Next(ready, Local(a, C.Promise(t)));
    PathOn(s, Lift(a, run), ready, [Local(a, C.Promise(t))], voted);
    var rest;
    rest, n := ArmedCommits(voted, t, k, a);
    steps := Lift(a, run) + [Local(a, C.Promise(t))] + rest;
    PathOn(s, Lift(a, run) + [Local(a, C.Promise(t))], voted, rest, n);
    var p := voted.cohorts[a].live[t];
    TimesMore(voted.cohorts[a].log, C.Entry(p.req, C.Gets(p.response)), t);
  }

  lemma SentAgain(s: State, step: SysStep, now: nat)
    requires ReplyHeld(s, step, now) && IsSplit(step.ops, step.subs) && |step.subs| > 1 && Resends(step, now)
    ensures Enabled(s, step) && Submission(s, step).prepares != []
    ensures Submission(s, step).voting ==
            Some(VotingCall(ComputeFinalConfig(step.asked, step.clock, step.dflt).value.seconds, |step.subs|))
  {
  }

  lemma AgainEffect(s: State, n: State, step: SysStep, out: CommitOutcome, now: nat)
    requires Submitted(s, n, step, out) && ReplyHeld(s, step, now) && out.prepares != [] && |step.subs| > 1
    requires Resends(step, now)
    requires out.voting ==
             Some(VotingCall(ComputeFinalConfig(step.asked, step.clock, step.dflt).value.seconds, |step.subs|))
    ensures n.cohorts == s.cohorts && Open(n, step.id, |step.subs|) && SentTo(n, step.id, step.subs)
  {
    var t, k := step.id, |step.subs|;
    assert n.rounds[t] == NewRound(k, out.voting.value.timeout);
    forall j: nat | j < k ensures BallotMsg(t, j, CommitBallot) in n.ballots { assert Finished(s, t, j); }
    assert n.prepares[t] == out.prepares;
  }

  /** The first participant gets the second request. */
  lemma ReceiveAgain(s: State, n: State, t: TxnId, subs: seq<SubTransaction>) returns (m: State)
    requires FinishedTo(s, t, |subs|) && SentTo(s, t, subs) && |subs| > 1 && CohortsOk(s)
    requires n.cohorts == s.cohorts && Open(n, t, |subs|) && SentTo(n, t, subs)
    ensures var a := subs[0].ns.address;
            && LaterEnabled(n, t, true, Again(a, 0)) && m == LaterNext(n, t, true, Again(a, 0))
            && Startable(m.cohorts[a], t, n.prepares[t][0].req) && Open(m, t, |subs|)
            && Times(m.cohorts[a].log, t) >= 1
  {
    var a := subs[0].ns.address;
    assert Finished(s, t, 0) && CohortOk(s, a) && s.prepares[t][0].address == a;
    NoLocks(s.cohorts[a]);
    assert Participant(n, t, 0, a);
    m := LaterNext(n, t, true, Again(a, 0));
  }

  /** Every shared submission that sends has a run in which a database commits the
      transaction twice. */
  lemma SharedTwice(step: SysStep, now: nat)
    returns (s0: State, before: seq<SysStep>, s: State, after: seq<Later>, n: State)
    requires step.Submit? && IsSplit(step.ops, step.subs) && |step.subs| > 1 && Resends(step, now)
    ensures Tale(step, now, s0, before, s, after, n) && !OnceEach(n, step.id)
  {
    var t, a := step.id, step.subs[0].ns.address;
    s0 := Beginning(step.ops);
    BeginningIsInitial(step.ops);
    before, s := CommitAndTell(step, now);
    InitialSane(s0);
    SanePath(s0, before, s);
    SentAgain(s, step, now);
    SubmitEffect(s, step);
    AgainEffect(s, Next(s, step), step, Submission(s, step), now);
    var m := ReceiveAgain(s, Next(s, step), t, step.subs);
    var path;
    path, n := ServeAgain(m, t, a, Next(s, step).prepares[t][0].req, |step.subs|);
    after := AgainThen(Next(s, step), t, a, m, path, n);
    assert Times(n.cohorts[a].log, t) >= 2;
  }

  lemma AgainThen(s: State, t: TxnId, a: Address, m: State, path: seq<SysStep>, n: State) returns (steps: seq<Later>)
    requires LaterEnabled(s, t, true, Again(a, 0)) && m == LaterNext(s, t, true, Again(a, 0)) && Path(m, path, n)
    ensures LaterPath(s, t, true, steps, n)
  {
    UsualPath(m, t, true, path, n);
    steps := [Again(a, 0)] + Usuals(path);
    assert steps[1..] == Usuals(path);
  }

  // ----- one cohort alone -----

  /** The cohort serves the first request and publishes. */
  lemma CommitsFirst(s: State, t: TxnId, a: Address, ops: seq<Op>) returns (steps: seq<SysStep>, n: State)
    requires SoleWork(s, t, a, ops) && t !in s.cohorts[a].final && s.cohorts[a].live == map[]
    ensures Path(s, steps, n) && a in n.cohorts && n == s.(cohorts := n.cohorts, order := n.order)
    ensures var d := n.cohorts[a];
            && d.live.Keys == {t} && d.live[t].phase == C.Applied && d.live[t].response.Committed? && t in d.applied
            && d.kind == LMDB && AllKeys(ops, d.store) && Times(d.log, t) >= 1
  {
    var req := s.prepares[t][0].req;
    SoleReceiveStep(s, t, a, ops);
    var received := Next(s, Local(a, C.Receive(req)));
    var run;
    run, n := SoleCommits(received, t, a, req);
    steps := [Local(a, C.Receive(req))] + run;
    PathOn(s, [Local(a, C.Receive(req))], received, run, n);
    LoggedOnceMore(received.cohorts[a], n.cohorts[a], t, req);
  }

  lemma ServesAlone(s: State, t: TxnId, a: Address, ops: seq<Op>) returns (steps: seq<SysStep>, n: State)
    requires SoleWork(s, t, a, ops) && t !in s.cohorts[a].final && s.cohorts[a].live == map[]
    ensures Path(s, steps, n) && a in n.cohorts && n == s.(cohorts := n.cohorts, order := n.order)
    ensures var d := n.cohorts[a];
            && d.live == map[] && d.kind == LMDB && AllKeys(ops, d.store) && Times(d.log, t) >= 1
            && t in d.final && d.final[t].Committed? && t in d.applied
  {
    var run, committed := CommitsFirst(s, t, a, ops);
    PublishStep(committed, a, t);
    n := Next(committed, Local(a, C.Release(t)));
    steps := run + [Local(a, C.Release(t))];
    PathOn(s, run, committed, [Local(a, C.Release(t))], n);
  }

  lemma LoggedOnceMore(c: Cohort, d: Cohort, t: TxnId, req: Request)
    requires req.id == t && |d.log| == |c.log| + 1 && d.log[..|c.log|] == c.log && d.log[|c.log|].req == req
    ensures Times(d.log, t) == Times(c.log, t) + 1
  {
  }

  lemma SoleToldCommitted(s: State, t: TxnId, a: Address, now: nat) returns (steps: seq<SysStep>, n: State)
    requires JustSentTo(s.coord, t, a) && s.now <= now
    requires a in s.cohorts && t in s.cohorts[a].final && s.cohorts[a].final[t].Committed?
    ensures Path(s, steps, n) && n == s.(now := now, coord := n.coord)
    ensures Complete(n.coord, t) && StoredOf(n.coord, t).response.CommittedResponse? && t !in n.coord.metadata
  {
    var ticked, ask := Next(s, Tick(now)), Ask(t, false, {a});
    PathOne(s, Tick(now));
    PathOne(ticked, ask);
    n := Next(ticked, ask);
    steps := [Tick(now)] + [ask];
    PathOn(s, [Tick(now)], ticked, [ask], n);
    assert Answers(ticked, t, {a})[a] == s.cohorts[a].final[t];
    PollAlone(s.coord, t, ReadDecision(ticked, t, false), Answers(ticked, t, {a}));
  }

  lemma CommitAloneAndTell(step: SysStep, now: nat) returns (before: seq<SysStep>, s: State)
    requires step.Submit? && IsSplit(step.ops, step.subs) && |step.subs| == 1
    ensures Path(Beginning(step.ops), before, s) && s.now == now
    ensures Complete(s.coord, step.id) && StoredOf(s.coord, step.id).response.CommittedResponse?
    ensures step.id !in s.coord.metadata && SoleWork(s, step.id, step.subs[0].ns.address, step.subs[0].ops)
    ensures step.id in s.cohorts[step.subs[0].ns.address].final
    ensures Times(s.cohorts[step.subs[0].ns.address].log, step.id) >= 1
  {
    var s0, t, a, ops := Beginning(step.ops), step.id, step.subs[0].ns.address, step.subs[0].ops;
    FirstSoleTry(step);
    var sent := Next(s0, FirstTry(step));
    var run, served := ServesAlone(sent, t, a, ops);
    PathOn(s0, [FirstTry(step)], sent, run, served);
    var asks;
    asks, s := SoleToldCommitted(served, t, a, now);
    before := [FirstTry(step)] + run + asks;
    PathOn(s0, [FirstTry(step)] + run, served, asks, s);
    LocksAreGone(step.ops, before, s, a);
  }

  lemma LocksAreGone(ops: seq<Op>, before: seq<SysStep>, s: State, a: Address)
    requires Path(Beginning(ops), before, s) && a in s.cohorts && s.cohorts[a].live == map[]
    ensures s.cohorts[a].readers == {} && s.cohorts[a].writers == map[]
  {
    BeginningIsInitial(ops);
    InitialSane(Beginning(ops));
    SanePath(Beginning(ops), before, s);
    assert CohortOk(s, a);
    NoLocks(s.cohorts[a]);
  }

  lemma SoleTwice(step: SysStep, now: nat)
    returns (s0: State, before: seq<SysStep>, s: State, after: seq<Later>, n: State)
    requires step.Submit? && IsSplit(step.ops, step.subs) && |step.subs| == 1 && Resends(step, now)
    ensures Tale(step, now, s0, before, s, after, n) && !OnceEach(n, step.id)
  {
    var t, a, ops := step.id, step.subs[0].ns.address, step.subs[0].ops;
    s0 := Beginning(step.ops);
    BeginningIsInitial(step.ops);
    before, s := CommitAloneAndTell(step, now);
    SecondSoleTry(s, step, a, ops);
    after, n := SecondSoleRun(Next(s, step), t, a, ops);
    LoggedOnceMore(s.cohorts[a], n.cohorts[a], t, n.cohorts[a].log[|s.cohorts[a].log|].req);
    assert Times(n.cohorts[a].log, t) >= 2;
  }

  // ----- the exact condition -----

  /** After a complete commit reply, no database commits the transaction a second
      time, over every run before the second submission and every continuation
      after it, if and only if the requests do not go out again. */
  lemma CommitsOnceExactly(step: SysStep, now: nat)
    requires step.Submit? && IsSplit(step.ops, step.subs)
    ensures CommitsOnce(step, now) <==> !Resends(step, now)
  {
    if Resends(step, now) {
      var s0, before, s, after, n;
      if |step.subs| == 1 {
        s0, before, s, after, n := SoleTwice(step, now);
      } else {
        s0, before, s, after, n := SharedTwice(step, now);
      }
      assert Tale(step, now, s0, before, s, after, n);
    } else {
      forall s0, before, s, after, n | Tale(step, now, s0, before, s, after, n) ensures OnceEach(n, step.id) {
        UnsentOnce(step, now, s0, before, s, after, n);
      }
    }
  }

  /** As the caller has it: however the start fares. */
  lemma CommitsOnceForCallers(step: SysStep, now: nat)
    requires step.Submit? && IsSplit(step.ops, step.subs)
    ensures (forall reaches, ok :: CommitsOnce(step.(executed := reaches, votingOk := ok), now))
       <==> !MayReopen(step, now)
  {
    forall reaches, ok
      ensures CommitsOnce(step.(executed := reaches, votingOk := ok), now) <==>
              !Resends(step.(executed := reaches, votingOk := ok), now)
    {
      CommitsOnceExactly(step.(executed := reaches, votingOk := ok), now);
    }
    assert MayReopen(step, now) <==> Resends(step.(executed := true, votingOk := true), now);
  }
}

/** What can always happen: every transaction of up to 120 cohorts can commit, and
    from every reachable state every cohort and every client can come to an end. */
module Progress {
  import opened Common
  import opened Semantics
  import opened Voting
  import opened CoordinatorProtocol
  import opened System
  import opened SystemSafety
  import opened Serializability
  import opened ClientTruth
  import opened Undisturbed
  import opened Paths
  import opened Repetition
  import C = CohortProtocol
  import P = CohortProofs

  // ----- paths are runs -----

  /** A path from an initial state, written as a run. */
  lemma {:induction false} PathIsRun(s: State, steps: seq<SysStep>, n: State) returns (run: seq<State>)
    requires Path(s, steps, n)
    ensures |run| == |steps| + 1 && run[0] == s && run[|steps|] == n
    ensures forall i | 0 <= i < |steps| :: Taken(run, steps, i)
    decreases |steps|
  {
    if steps == [] {
      run := [s];
    } else {
      var rest := PathIsRun(Next(s, steps[0]), steps[1..], n);
      run := [s] + rest;
      forall i | 0 <= i < |steps| ensures Taken(run, steps, i) {
        if i > 0 {
          assert Taken(rest, steps[1..], i - 1);
        }
      }
    }
  }

  // ----- everybody can commit -----

  ghost predicate CommittedBy(s: State, t: TxnId, subs: seq<SubTransaction>) {
    forall i | 0 <= i < |subs| ::
      && subs[i].ns.address in s.cohorts
      && t in s.cohorts[subs[i].ns.address].applied
      && C.Published(s.cohorts[subs[i].ns.address], t).Committed?
  }

  lemma FinishedIsCommitted(s: State, t: TxnId, subs: seq<SubTransaction>)
    requires FinishedTo(s, t, |subs|) && SentTo(s, t, subs)
    ensures CommittedBy(s, t, subs)
  {
    forall i: nat | i < |subs| ensures t in s.cohorts[subs[i].ns.address].applied
      && C.Published(s.cohorts[subs[i].ns.address], t).Committed?
    {
      assert Finished(s, t, i);
    }
  }

  lemma SharedCanCommit(step: SysStep) returns (steps: seq<SysStep>, s: State)
    requires step.Submit? && IsSplit(step.ops, step.subs) && 1 < |step.subs| <= 120
    ensures Path(Beginning(step.ops), steps, s) && CommittedBy(s, step.id, step.subs)
  {
    steps, s := CommitAndTell(step, 0);
    FinishedIsCommitted(s, step.id, step.subs);
  }

  lemma SoleCanCommit(step: SysStep) returns (steps: seq<SysStep>, s: State)
    requires step.Submit? && IsSplit(step.ops, step.subs) && |step.subs| == 1
    ensures Path(Beginning(step.ops), steps, s) && CommittedBy(s, step.id, step.subs)
  {
    FirstSoleTry(step);
    var sent := Next(Beginning(step.ops), FirstTry(step));
    var run;
    run, s := ServesAlone(sent, step.id, step.subs[0].ns.address, step.subs[0].ops);
    steps := [FirstTry(step)] + run;
    PathOn(Beginning(step.ops), [FirstTry(step)], sent, run, s);
  }

  /** For every operation list over at least one and at most 120 addresses, however
      it is split and indexed, there is a run in which the databases of all of them
      commit it. With more, no run even sends it. */
  lemma EverybodyCanCommit(id: TxnId, ops: seq<Op>, subs: seq<SubTransaction>)
    returns (run: seq<State>, steps: seq<SysStep>)
    requires IsSplit(ops, subs) && 1 <= |subs| <= 120
    ensures IsRun(run, steps) && CommittedBy(run[|steps|], id, subs)
  {
    var step := Submit(id, ops, subs, None, 0, 0, true, true);
    var s;
    BeginningIsInitial(ops);
    if |subs| == 1 {
      steps, s := SoleCanCommit(step);
    } else {
      steps, s := SharedCanCommit(step);
    }
    run := PathIsRun(Beginning(ops), steps, s);
  }

  // ----- every cohort can finish -----

  /** How far a transaction is from its end. */
  function Distance(s: State, a: Address, t: TxnId): nat
    requires a in s.cohorts && t in s.cohorts[a].live
  {
    match s.cohorts[a].live[t].phase
    case Applied => 0
    case Dropped => 0
    case Committing => 1
    case Voted => if t in s.rounds && Final(Decide(s.rounds[t], s.now)) then 2 else 3
    case Persisted => 4
    case _ => 5
  }

  /** Only this cohort, the ballots, the order and the clock differ. */
  ghost predicate Beside(s: State, n: State, a: Address) {
    && a in s.cohorts && n.cohorts.Keys == s.cohorts.Keys
    && (forall b | b in s.cohorts && b != a :: n.cohorts[b] == s.cohorts[b])
    && n.coord == s.coord && n.prepares == s.prepares && n.rounds == s.rounds && n.txns == s.txns && s.now <= n.now
  }

  /** One step closer. */
  ghost predicate Closer(s: State, n: State, a: Address, t: TxnId)
    requires a in s.cohorts && t in s.cohorts[a].live
  {
    && Beside(s, n, a)
    && if t in n.cohorts[a].live then Distance(n, a, t) < Distance(s, a, t) else t in n.cohorts[a].final
  }

  /** What the cohort itself can do next, the decision being known where needed. */
  function Onward(s: State, a: Address, t: TxnId): C.Step
    requires a in s.cohorts && t in s.cohorts[a].live
  {
    var p := s.cohorts[a].live[t];
    match p.phase
    case Applied => C.Release(t)
    case Dropped => C.Release(t)
    case Committing => C.Apply(t)
    case Voted => if t in s.rounds && Decide(s.rounds[t], s.now) == CommitDecision then C.LearnCommit(t)
                  else C.LearnAbort(t, Unspecified)
    case Persisted => C.Promise(t)
    case _ => if p.req.onlyCohort && p.phase == C.Executing(|p.req.ops|) then C.CommitAlone(t) else C.Refuse(t, Internal)
  }

  lemma OnwardStep(s: State, a: Address, t: TxnId)
    requires Safe(s) && a in s.cohorts && t in s.cohorts[a].live
    requires s.cohorts[a].live[t].phase == C.Voted ==> t in s.rounds && Final(Decide(s.rounds[t], s.now))
    ensures Enabled(s, Local(a, Onward(s, a, t))) && Closer(s, Next(s, Local(a, Onward(s, a, t))), a, t)
  {
    SystemSafety.At(s, a, t);
    OnwardInCohort(s, a, t);
    var step := Onward(s, a, t);
    LocalIsBeside(s, a, step);
    CloserByPhase(s, Next(s, Local(a, step)), a, t, step, C.Next(s.cohorts[a], step));
  }

  lemma LocalIsBeside(s: State, a: Address, step: C.Step)
    requires Enabled(s, Local(a, step))
    ensures Beside(s, Next(s, Local(a, step)), a)
    ensures Next(s, Local(a, step)).cohorts[a] == C.Next(s.cohorts[a], step)
    ensures Next(s, Local(a, step)).now == s.now
  {
  }

  lemma CloserByPhase(s: State, n: State, a: Address, t: TxnId, step: C.Step, d: Cohort)
    requires a in s.cohorts && t in s.cohorts[a].live && step == Onward(s, a, t)
    requires s.cohorts[a].live[t].phase == C.Voted ==> t in s.rounds && Final(Decide(s.rounds[t], s.now))
    requires Beside(s, n, a) && n.cohorts[a] == d && n.now == s.now
    requires if step.Release? then t in d.final && t !in d.live else t in d.live && d.live[t].phase == PhaseAfter(step)
    ensures Closer(s, n, a, t)
  {
  }

  function PhaseAfter(step: C.Step): C.Phase {
    match step
    case Apply(_) => C.Applied
    case LearnCommit(_) => C.Committing
    case CommitAlone(_) => C.Committing
    case Promise(_) => C.Voted
    case _ => C.Dropped
  }

  lemma OnwardInCohort(s: State, a: Address, t: TxnId)
    requires a in s.cohorts && t in s.cohorts[a].live && C.PartAt(s.cohorts[a], t)
    requires s.cohorts[a].live[t].phase == C.Voted ==> t in s.rounds && Final(Decide(s.rounds[t], s.now))
    ensures var step, c := Onward(s, a, t), s.cohorts[a];
            && C.Enabled(c, step) && LocalAllowed(s, a, step)
            && var d := C.Next(c, step);
               if step.Release? then t in d.final && t !in d.live
               else t in d.live && d.live[t].phase == PhaseAfter(step)
  {
  }

  lemma WaitForTimeout(s: State, a: Address, t: TxnId)
    requires Safe(s) && a in s.cohorts && t in s.cohorts[a].live && s.cohorts[a].live[t].phase == C.Voted
    requires !(t in s.rounds && Final(Decide(s.rounds[t], s.now)))
    ensures t in s.rounds && s.now <= s.rounds[t].timeout
    ensures var tick := Tick(s.rounds[t].timeout); Enabled(s, tick) && Closer(s, Next(s, tick), a, t)
  {
    var i := LiveRequest(s, a, t);
    At(s, a, t);
    assert RoundOk(s, t);
    DecidedAtTimeout(s.rounds[t], s.rounds[t].timeout);
  }

  lemma StepCloser(s: State, a: Address, t: TxnId) returns (step: SysStep)
    requires Safe(s) && a in s.cohorts && t in s.cohorts[a].live
    ensures Enabled(s, step) && Disciplined(s, step) && Closer(s, Next(s, step), a, t)
  {
    if s.cohorts[a].live[t].phase == C.Voted && !(t in s.rounds && Final(Decide(s.rounds[t], s.now))) {
      WaitForTimeout(s, a, t);
      step := Tick(s.rounds[t].timeout);
    } else {
      OnwardStep(s, a, t);
      step := Local(a, Onward(s, a, t));
    }
  }

  lemma BesideTwice(s: State, m: State, n: State, a: Address)
    requires Beside(s, m, a) && Beside(m, n, a)
    ensures Beside(s, n, a)
  {
  }

  /** Nobody is stuck: from every safe state, a transaction in hand at any cohort can
      come to a published reply, by the cohort's own steps and the passing of time. */
  lemma {:induction false} CohortCanFinish(s: State, a: Address, t: TxnId) returns (steps: seq<SysStep>, n: State)
    requires Safe(s) && a in s.cohorts && t in s.cohorts[a].live
    ensures Path(s, steps, n) && Safe(n) && Beside(s, n, a) && t in n.cohorts[a].final
    decreases Distance(s, a, t)
  {
    var step := StepCloser(s, a, t);
    SafeStep(s, step);
    PathOne(s, step);
    var m := Next(s, step);
    if t in m.cohorts[a].live {
      var rest;
      rest, n := CohortCanFinish(m, a, t);
      steps := [step] + rest;
      PathOn(s, [step], m, rest, n);
      BesideTwice(s, m, n, a);
    } else {
      steps, n := [step], m;
    }
  }

  // ----- every client can learn the outcome -----

  /** What the cohorts do by themselves. */
  ghost predicate CohortsOnly(s: State, n: State) {
    n.cohorts.Keys == s.cohorts.Keys && n.coord == s.coord && n.prepares == s.prepares && n.rounds == s.rounds
    && s.now <= n.now
  }

  ghost predicate PublishedTo(s: State, t: TxnId, i: nat) {
    t in s.prepares && i <= |s.prepares[t]|
    && forall j | 0 <= j < i :: s.prepares[t][j].address in s.cohorts && t in s.cohorts[s.prepares[t][j].address].final
  }

  /** Once the commit is carried, all participants can publish. */
  lemma {:induction false} AllCanPublish(s: State, t: TxnId, i: nat) returns (steps: seq<SysStep>, n: State)
    requires Safe(s) && PublishedTo(s, t, i) && |s.prepares[t]| > 1 && Carried(s.rounds, t)
    ensures Path(s, steps, n) && Safe(n) && CohortsOnly(s, n) && PublishedTo(n, t, |s.prepares[t]|)
    decreases |s.prepares[t]| - i
  {
    if i == |s.prepares[t]| {
      steps, n := [], s;
    } else {
      var first, m := PublishNext(s, t, i);
      var rest;
      rest, n := AllCanPublish(m, t, i + 1);
      steps := first + rest;
      PathOn(s, first, m, rest, n);
    }
  }

  lemma PublishNext(s: State, t: TxnId, i: nat) returns (steps: seq<SysStep>, n: State)
    requires Safe(s) && PublishedTo(s, t, i) && i < |s.prepares[t]| && |s.prepares[t]| > 1 && Carried(s.rounds, t)
    ensures Path(s, steps, n) && Safe(n) && CohortsOnly(s, n) && PublishedTo(n, t, i + 1)
  {
    var a := s.prepares[t][i].address;
    assert Participant(s, t, i, a);
    CarriedParticipant(s, t, i, a);
    if t in s.cohorts[a].live {
      steps, n := CohortCanFinish(s, a, t);
    } else {
      steps, n := [], s;
    }
  }

  lemma PublishedCommit(s: State, t: TxnId, i: nat)
    requires Safe(s) && t in s.prepares && PublishedTo(s, t, |s.prepares[t]|) && i < |s.prepares[t]|
    requires |s.prepares[t]| > 1 && Carried(s.rounds, t)
    ensures C.Published(s.cohorts[s.prepares[t][i].address], t).Committed?
  {
    var a := s.prepares[t][i].address;
    assert Participant(s, t, i, a);
    CarriedParticipant(s, t, i, a);
    SystemSafety.At(s, a, t);
  }

  /** Asking everybody then finds a commit everywhere. */
  lemma AllHaveAnswers(s: State, t: TxnId)
    requires Sane(s) && t in s.prepares && PublishedTo(s, t, |s.prepares[t]|) && |s.prepares[t]| > 1
    requires Carried(s.rounds, t) && !Complete(s.coord, t)
    ensures t in s.coord.metadata && s.coord.metadata[t].single.None?
    ensures !StoredOf(s.coord, t).response.AbortedResponse? && DistinctAddresses(s.coord.metadata[t].namespaces)
    ensures KnownDecision(s.coord.metadata[t], ReadDecision(s, t, true)) == Some(CommitDecision)
    ensures var namespaces, answers := s.coord.metadata[t].namespaces, Answers(s, t, s.cohorts.Keys);
            forall i | 0 <= i < |namespaces| ::
              namespaces[i].address in answers && answers[namespaces[i].address].Committed?
  {
    assert Tracked(s, t) && SentOk(s, t);
    var namespaces, answers := s.coord.metadata[t].namespaces, Answers(s, t, s.cohorts.Keys);
    forall i | 0 <= i < |namespaces|
      ensures namespaces[i].address in answers && answers[namespaces[i].address].Committed?
    {
      PublishedCommit(s, t, i);
    }
    KnownIsCarried(s, t, true);
  }

  lemma AllTellCommit(s: State, t: TxnId)
    requires Sane(s) && t in s.prepares && PublishedTo(s, t, |s.prepares[t]|) && |s.prepares[t]| > 1
    requires Carried(s.rounds, t) && !Complete(s.coord, t)
    ensures Complete(Next(s, Ask(t, true, s.cohorts.Keys)).coord, t)
  {
    AllHaveAnswers(s, t);
    EveryoneCompletes(s.coord, t, ReadDecision(s, t, true), Answers(s, t, s.cohorts.Keys));
  }

  /** A poll that knows the commit and hears all cohorts completes the reply. */
  lemma EveryoneCompletes(m: Coord, t: TxnId, decision: Option<Decision>, answers: map<Address, Reply>)
    requires t in m.metadata && m.metadata[t].single.None? && !Complete(m, t)
    requires !StoredOf(m, t).response.AbortedResponse? && DistinctAddresses(m.metadata[t].namespaces)
    requires KnownDecision(m.metadata[t], decision) == Some(CommitDecision)
    requires var namespaces := m.metadata[t].namespaces;
             forall i | 0 <= i < |namespaces| ::
               namespaces[i].address in answers && answers[namespaces[i].address].Committed?
    ensures Complete(Poll(m, t, decision, answers).coord, t)
  {
    var meta := m.metadata[t];
    EveryoneCounts(meta.namespaces, meta.responded, StoredOf(m, t).response, answers);
    PollShared(m, t, decision, answers);
  }

  lemma EveryoneCounts(namespaces: seq<Namespace>, responded: set<Address>, response: Response,
                       answers: map<Address, Reply>)
    requires DistinctAddresses(namespaces)
    requires forall i | 0 <= i < |namespaces| ::
               namespaces[i].address in answers && answers[namespaces[i].address].Committed?
    ensures Collect(namespaces, responded, response, answers, |namespaces|).count == |namespaces|
  {
    forall i | 0 <= i < |namespaces| ensures namespaces[i].address in Answering(namespaces, answers, |namespaces|) {
    }
    CollectResponded(namespaces, responded, response, answers, |namespaces|);
    CollectCounts(namespaces, responded, response, answers, |namespaces|);
  }

  lemma TimedOutTellsAbort(s: State, t: TxnId)
    requires Sane(s) && t in s.prepares && |s.prepares[t]| > 1 && !Complete(s.coord, t)
    requires t in s.rounds && Decide(s.rounds[t], s.now) == AbortDecision
    ensures Complete(Next(s, Ask(t, true, {})).coord, t)
  {
    assert Tracked(s, t) && RoundOk(s, t);
    CommitIsAllCommit(s.rounds[t], s.now);
    PollShared(s.coord, t, ReadDecision(s, t, true), Answers(s, t, {}));
  }

  lemma SharedClientCanLearn(s: State, t: TxnId) returns (steps: seq<SysStep>, n: State)
    requires Sane(s) && t in s.prepares && |s.prepares[t]| > 1 && !Complete(s.coord, t)
    ensures Path(s, steps, n) && Complete(n.coord, t)
  {
    assert RoundOk(s, t);
    var later := if s.now < s.rounds[t].timeout then s.rounds[t].timeout else s.now;
    PathOne(s, Tick(later));
    SaneStep(s, Tick(later));
    var m := Next(s, Tick(later));
    DecidedAtTimeout(m.rounds[t], m.now);
    var ask;
    if Decide(m.rounds[t], m.now) == AbortDecision {
      ask := [Ask(t, true, {})];
      TimedOutTellsAbort(m, t);
      PathOne(m, ask[0]);
      steps, n := [Tick(later)] + ask, Next(m, ask[0]);
      PathOn(s, [Tick(later)], m, ask, n);
    } else {
      CommitIsAllCommit(m.rounds[t], m.now);
      var publish, p := AllCanPublish(m, t, 0);
      SanePath(m, publish, p);
      ask := [Ask(t, true, p.cohorts.Keys)];
      AllTellCommit(p, t);
      PathOne(p, ask[0]);
      n := Next(p, ask[0]);
      steps := [Tick(later)] + publish + ask;
      PathOn(s, [Tick(later)], m, publish, p);
      PathOn(s, [Tick(later)] + publish, p, ask, n);
    }
  }

  /** The cohort of a transaction alone can publish, having received the request
      first if it has not. */
  lemma SoleCanPublish(s: State, t: TxnId, a: Address) returns (steps: seq<SysStep>, n: State)
    requires Safe(s) && t in s.prepares && |s.prepares[t]| == 1 && s.prepares[t][0].address == a && a in s.cohorts
    ensures Path(s, steps, n) && CohortsOnly(s, n) && a in n.cohorts && t in n.cohorts[a].final
  {
    if t in s.cohorts[a].final {
      steps, n := [], s;
    } else if t in s.cohorts[a].live {
      steps, n := CohortCanFinish(s, a, t);
    } else {
      var receive := Local(a, C.Receive(s.prepares[t][0].req));
      CanReceive(s, t, a);
      var rest;
      rest, n := CohortCanFinish(Next(s, receive), a, t);
      steps := [receive] + rest;
      PathOn(s, [receive], Next(s, receive), rest, n);
    }
  }

  lemma CanReceive(s: State, t: TxnId, a: Address)
    requires Safe(s) && t in s.prepares && |s.prepares[t]| == 1 && s.prepares[t][0].address == a && a in s.cohorts
    requires t !in s.cohorts[a].live && t !in s.cohorts[a].final
    ensures var receive := Local(a, C.Receive(s.prepares[t][0].req));
            && Enabled(s, receive)
            && Path(s, [receive], Next(s, receive)) && Safe(Next(s, receive)) && Beside(s, Next(s, receive), a)
            && t in Next(s, receive).cohorts[a].live
  {
    assert SentOk(s, t) && Participant(s, t, 0, a);
    var receive := C.Receive(s.prepares[t][0].req);
    PathOne(s, Local(a, receive));
    SafeStep(s, Local(a, receive));
    LocalIsBeside(s, a, receive);
  }

  lemma SoleTells(s: State, t: TxnId, a: Address)
    requires Sane(s) && t in s.prepares && |s.prepares[t]| == 1 && s.prepares[t][0].address == a && a in s.cohorts
    requires t in s.cohorts[a].final && !Complete(s.coord, t)
    ensures Complete(Next(s, Ask(t, true, {a})).coord, t)
  {
    assert Tracked(s, t);
    SystemSafety.At(s, a, t);
    assert Answers(s, t, {a})[a] == s.cohorts[a].final[t];
    PollAlone(s.coord, t, ReadDecision(s, t, true), Answers(s, t, {a}));
  }

  /** No client waits for ever: from every state of every run, the reply about a
      transaction that was sent can be completed, by time passing, by the cohorts'
      own steps and by asking. One cohort alone must exist for that; of several,
      the contract answers for those that do not. */
  lemma ClientCanLearn(run: seq<State>, steps: seq<SysStep>, i: nat, t: TxnId) returns (more: seq<SysStep>, n: State)
    requires IsRun(run, steps) && i < |run| && t in run[i].prepares
    requires |run[i].prepares[t]| == 1 ==> run[i].prepares[t][0].address in run[i].cohorts
    ensures Path(run[i], more, n) && Complete(n.coord, t)
  {
    var s := run[i];
    SafeRun(run, steps, i);
    SerializedRun(run, steps, i);
    HonestRun(run, steps, i);
    assert SentOk(s, t);
    if Complete(s.coord, t) {
      more, n := [], s;
    } else if |s.prepares[t]| > 1 {
      more, n := SharedClientCanLearn(s, t);
    } else {
      var a := s.prepares[t][0].address;
      var publish, p := SoleCanPublish(s, t, a);
      SanePath(s, publish, p);
      SoleTells(p, t, a);
      var ask := Ask(t, true, {a});
      PathOne(p, ask);
      n := Next(p, ask);
      more := publish + [ask];
      PathOn(s, publish, p, [ask], n);
    }
  }
}
