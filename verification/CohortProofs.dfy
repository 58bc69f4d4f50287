/** What every step of a cohort keeps, and what follows over every run of one
    cohort: lock conservation, local serializability, no early exposure. */
module CohortProofs {
  import opened Common
  import opened Semantics
  import opened Database
  import opened CohortProtocol

  // ----- what a step leaves alone -----

  /** Nothing about u differs. */
  ghost predicate SameFor(c: Cohort, n: Cohort, u: TxnId) {
    && (u in n.live <==> u in c.live) && (u in c.live ==> n.live[u] == c.live[u])
    && (u in n.final <==> u in c.final) && (u in c.final ==> n.final[u] == c.final[u])
    && SameFiles(c, n, u) && SameHistory(c, n, u)
  }

  ghost predicate SameFiles(c: Cohort, n: Cohort, u: TxnId) {
    && (u in n.savedRequests <==> u in c.savedRequests)
    && (u in c.savedRequests ==> n.savedRequests[u] == c.savedRequests[u])
    && (u in n.savedResponses <==> u in c.savedResponses)
    && (u in c.savedResponses ==> n.savedResponses[u] == c.savedResponses[u])
  }

  ghost predicate SameHistory(c: Cohort, n: Cohort, u: TxnId) {
    && (u in n.applied <==> u in c.applied)
    && (u in n.dropped <==> u in c.dropped)
    && (u in n.promised <==> u in c.promised)
  }

  lemma OthersHistory(c: Cohort, step: Step, u: TxnId)
    requires Enabled(c, step) && u != IdOf(step)
    ensures SameHistory(c, Next(c, step), u)
  {
  }

  lemma OthersFiles(c: Cohort, step: Step, u: TxnId)
    requires Enabled(c, step) && u != IdOf(step)
    ensures SameFiles(c, Next(c, step), u)
  {
  }

  lemma OthersSame(c: Cohort, step: Step, u: TxnId)
    requires Enabled(c, step) && u != IdOf(step)
    ensures SameFor(c, Next(c, step), u)
  {
    OthersHistory(c, step, u);
    OthersFiles(c, step, u);
  }

  lemma SameSeen(c: Cohort, n: Cohort, u: TxnId)
    requires SameFor(c, n, u)
    ensures SeenOk(c, u) ==> SeenOk(n, u)
    ensures SavedAt(c, u) ==> SavedAt(n, u)
  {
  }

  // ----- locks cover accesses -----

  /** Which locks a list takes, key by key or for the whole database: to write what
      is put, to read what is got and never put. */
  lemma LocksAre(kind: DbKind, ops: seq<Op>)
    ensures kind.concurrentWrites ==> forall k: Key ::
              && (KeyLock(k) in WriteLocks(kind, ops) <==>
                    exists i :: 0 <= i < |ops| && ops[i].action.Put? && ops[i].action.key == k)
              && (KeyLock(k) in ReadLocks(kind, ops) <==>
                    && (exists i :: 0 <= i < |ops| && ops[i].action.Get? && ops[i].action.key == k)
                    && !exists i :: 0 <= i < |ops| && ops[i].action.Put? && ops[i].action.key == k)
    ensures kind.concurrentWrites ==> WholeDb !in WriteLocks(kind, ops) + ReadLocks(kind, ops)
    ensures !kind.concurrentWrites ==> forall k: Key :: KeyLock(k) !in WriteLocks(kind, ops) + ReadLocks(kind, ops)
    ensures !kind.concurrentWrites ==>
              && (WholeDb in WriteLocks(kind, ops) <==> exists i :: 0 <= i < |ops| && ops[i].action.Put?)
              && (WholeDb in ReadLocks(kind, ops) <==>
                    && (exists i :: 0 <= i < |ops| && ops[i].action.Get?)
                    && forall i | 0 <= i < |ops| :: !ops[i].action.Put?)
  {
    assert forall i | 0 <= i < |ops| && ops[i].action.Put? :: ops[i].action.key in PutKeys(ops);
    assert forall i | 0 <= i < |ops| && ops[i].action.Get? :: ops[i].action.key in GetKeys(ops);
  }

  /** The two lock sets are disjoint, and every later access hits a lock held in
      a sufficient mode. */
  lemma LocksCoverAccesses(kind: DbKind, ops: seq<Op>, i: nat)
    requires i < |ops|
    ensures ReadLocks(kind, ops) !! WriteLocks(kind, ops)
    ensures ops[i].action.Put? ==> LockOf(kind, ops[i].action.key) in WriteLocks(kind, ops)
    ensures ops[i].action.Get? ==> LockOf(kind, ops[i].action.key) in ReadLocks(kind, ops) + WriteLocks(kind, ops)
  {
    assert ops[i].action.Put? ==> ops[i].action.key in PutKeys(ops);
    assert ops[i].action.Get? ==> ops[i].action.key in GetKeys(ops);
  }

  lemma GetsAreLocked(kind: DbKind, ops: seq<Op>, key: Key)
    ensures key in GetKeys(ops) ==> LockOf(kind, key) in ReadLocks(kind, ops) + WriteLocks(kind, ops)
  {
  }

  /** Two transactions past locking never meet on a key that one of them writes. */
  lemma WritesAreAlone(c: Cohort, t: TxnId, u: TxnId, key: Key)
    requires LockTable(c) && Exclusive(c)
    requires t in c.live && u in c.live && t != u
    requires AllLocked(c.kind, c.live[t]) && AllLocked(c.kind, c.live[u])
    requires key in PutKeys(c.live[t].req.ops)
    ensures key !in PutKeys(c.live[u].req.ops) && key !in GetKeys(c.live[u].req.ops)
  {
    var lock := LockOf(c.kind, key);
    assert lock in c.live[t].writeHeld;
    assert Listed(c, lock, t) && Listed(c, lock, u) && Apart(c, lock, u);
    GetsAreLocked(c.kind, c.live[u].req.ops, key);
  }

  /** Releasing removes every lock of the transaction and touches no other. */
  lemma ReleaseIsExact(c: Cohort, id: TxnId, l: Lock, t: TxnId)
    requires LockTable(c) && Enabled(c, Release(id))
    ensures var n := Next(c, Release(id));
            && ((l, t) in n.readers <==> (l, t) in c.readers && t != id)
            && (l in n.writers <==> l in c.writers && c.writers[l] != id)
            && (l in n.writers ==> n.writers[l] == c.writers[l])
  {
    assert Listed(c, l, t) && Listed(c, l, id);
    if l in c.writers {
      assert Listed(c, l, c.writers[l]);
    }
  }

  lemma AcquireStep(c: Cohort, step: Step, l: Lock, t: TxnId)
    requires LockTable(c) && Exclusive(c) && Enabled(c, step) && (step.LockRead? || step.LockWrite?)
    ensures Listed(Next(c, step), l, t) && Apart(Next(c, step), l, t)
  {
    assert Listed(c, l, t) && Apart(c, l, t) && Listed(c, l, step.id);
    assert (l, t).0 == l;
  }

  /** How a step changes the holders of one lock by one transaction. */
  lemma LockStep(c: Cohort, step: Step, l: Lock, t: TxnId)
    requires LockTable(c) && Exclusive(c) && Enabled(c, step)
    ensures Listed(Next(c, step), l, t) && Apart(Next(c, step), l, t)
  {
    if step.LockRead? || step.LockWrite? {
      AcquireStep(c, step, l, t);
    } else if step.Release? {
      assert Listed(c, l, t) && Apart(c, l, t);
      ReleaseIsExact(c, step.id, l, t);
    } else {
      assert Listed(c, l, t) && Apart(c, l, t);
      HeldStays(c, step, t);
    }
  }

  function ReadHeld(c: Cohort, t: TxnId): set<Lock> {
    if t in c.live then c.live[t].readHeld else {}
  }

  function WriteHeld(c: Cohort, t: TxnId): set<Lock> {
    if t in c.live then c.live[t].writeHeld else {}
  }

  /** The other steps have nothing to do with locks. */
  lemma HeldStays(c: Cohort, step: Step, t: TxnId)
    requires Enabled(c, step) && !step.LockRead? && !step.LockWrite? && !step.Release?
    ensures Next(c, step).readers == c.readers && Next(c, step).writers == c.writers
    ensures ReadHeld(Next(c, step), t) == ReadHeld(c, t) && WriteHeld(Next(c, step), t) == WriteHeld(c, t)
  {
  }

  lemma LocksStep(c: Cohort, step: Step)
    requires LockTable(c) && Exclusive(c) && Enabled(c, step)
    ensures LockTable(Next(c, step)) && Exclusive(Next(c, step))
  {
    forall l, t ensures Listed(Next(c, step), l, t) && Apart(Next(c, step), l, t) {
      LockStep(c, step, l, t);
    }
  }

  // ----- the running transactions -----

  lemma PrefixKeys(ops: seq<Op>, n: nat)
    requires n <= |ops|
    ensures PutKeys(ops[..n]) <= PutKeys(ops) && GetKeys(ops[..n]) <= GetKeys(ops)
  {
    assert forall i | 0 <= i < n :: ops[..n][i] == ops[i];
  }

  /** A commit by `t` does not disturb what `u` has executed. */
  lemma CommitFrame(c: Cohort, t: TxnId, u: TxnId, n: nat)
    requires Inv(c) && Enabled(c, Apply(t)) && u in c.live && u != t
    requires AllLocked(c.kind, c.live[u]) && ExecutedTo(c, c.live[u], n)
    ensures ExecutedTo(Next(c, Apply(t)), c.live[u], n)
  {
    var p, ops := c.live[t], c.live[u].req.ops;
    var after := c.store + p.db.buffer;
    assert PartAt(c, t);
    assert p.req.ops[..|p.req.ops|] == p.req.ops;
    BufferWithinPuts(c.kind, c.store, p.req.ops);
    PrefixKeys(ops, n);
    forall k | k in PutKeys(ops[..n]) + GetKeys(ops[..n]) ensures k !in p.db.buffer {
      if k in p.db.buffer {
        WritesAreAlone(c, t, u, k);
      }
    }
    ExecFrame(c.kind, c.store, after, ops[..n]);
  }

  lemma ExecuteStep(c: Cohort, id: TxnId)
    requires Inv(c) && Enabled(c, Execute(id))
    ensures PartOk(c, id, Executed(c, c.live[id]))
  {
    var p := c.live[id];
    var n := p.phase.done;
    assert PartAt(c, id);
    LocksCoverAccesses(c.kind, p.req.ops, n);
    ProcessOperationIsExec(c.kind, c.store, p.db, Gets(p.response), p.req.ops[n]);
    assert p.req.ops[..n + 1][..n] == p.req.ops[..n];
    assert p.req.ops[..n + 1][n] == p.req.ops[n];
  }

  lemma StoreStays(c: Cohort, step: Step)
    requires Enabled(c, step) && !step.Apply?
    ensures Next(c, step).store == c.store && Next(c, step).kind == c.kind
  {
  }

  lemma PartFrame(c: Cohort, n: Cohort, u: TxnId, p: Part)
    requires PartOk(c, u, p) && n.store == c.store && n.kind == c.kind
    ensures PartOk(n, u, p)
  {
  }

  /** A commit keeps every other transaction. */
  lemma CommitParts(c: Cohort, t: TxnId, u: TxnId)
    requires Inv(c) && Enabled(c, Apply(t)) && u in c.live && u != t
    ensures PartOk(Next(c, Apply(t)), u, c.live[u])
  {
    var p := c.live[u];
    assert PartAt(c, u);
    if p.db.Open? {
      CommitFrame(c, t, u, Reached(p));
    }
    OpenFrame(c, Next(c, Apply(t)), u, p);
  }

  /** How many operations are done. */
  function Reached(p: Part): nat {
    if p.phase.Executing? then p.phase.done else |p.req.ops|
  }

  lemma OpenFrame(c: Cohort, n: Cohort, u: TxnId, p: Part)
    requires PartOk(c, u, p) && n.kind == c.kind && (p.db.Open? ==> ExecutedTo(n, p, Reached(p)))
    ensures PartOk(n, u, p)
  {
  }

  /** A step of one transaction keeps every other one. */
  lemma OtherParts(c: Cohort, step: Step, u: TxnId)
    requires Inv(c) && Enabled(c, step) && u in c.live && u != IdOf(step)
    ensures u in Next(c, step).live && PartOk(Next(c, step), u, Next(c, step).live[u])
  {
    OthersSame(c, step, u);
    if step.Apply? {
      CommitParts(c, step.id, u);
    } else {
      assert PartAt(c, u);
      StoreStays(c, step);
      PartFrame(c, Next(c, step), u, c.live[u]);
    }
  }

  lemma OwnPart(c: Cohort, step: Step)
    requires Inv(c) && Enabled(c, step) && !step.Release?
    ensures IdOf(step) in Next(c, step).live
    ensures PartOk(Next(c, step), IdOf(step), Next(c, step).live[IdOf(step)])
  {
    var id := IdOf(step);
    if !step.Receive? {
      assert PartAt(c, id);
    }
    if step.Execute? {
      ExecuteStep(c, id);
    } else if step.Begin? {
      assert c.live[id].req.ops[..0] == [];
    }
  }

  lemma PartsStep(c: Cohort, step: Step)
    requires Inv(c) && Enabled(c, step)
    ensures PartsOk(Next(c, step))
  {
    var n := Next(c, step);
    forall u ensures PartAt(n, u) {
      if u == IdOf(step) {
        if u in n.live {
          OwnPart(c, step);
        }
      } else if u in c.live {
        OtherParts(c, step, u);
      }
    }
  }

  lemma OwnHistory(c: Cohort, step: Step)
    requires Inv(c) && Enabled(c, step)
    ensures SeenOk(Next(c, step), IdOf(step))
  {
    assert SeenOk(c, IdOf(step));
    if !step.Receive? {
      assert PartAt(c, step.id);
      if step.Release? {
        ReleaseHistory(c, step.id);
      } else {
        RunningHistory(c, step);
      }
    }
  }

  lemma ReleaseHistory(c: Cohort, id: TxnId)
    requires Enabled(c, Release(id)) && SeenOk(c, id) && PartAt(c, id)
    ensures SeenOk(Next(c, Release(id)), id)
  {
  }

  lemma RunningHistory(c: Cohort, step: Step)
    requires Enabled(c, step) && !step.Receive? && !step.Release? && SeenOk(c, step.id) && PartAt(c, step.id)
    ensures SeenOk(Next(c, step), step.id)
  {
  }

  lemma OtherHistory(c: Cohort, step: Step, u: TxnId)
    requires SeenOk(c, u) && Enabled(c, step) && u != IdOf(step)
    ensures SeenOk(Next(c, step), u)
  {
    OthersSame(c, step, u);
    SameSeen(c, Next(c, step), u);
  }

  lemma HistoryStep(c: Cohort, step: Step)
    requires Inv(c) && Enabled(c, step)
    ensures HistoryOk(Next(c, step))
  {
    forall u ensures SeenOk(Next(c, step), u) {
      assert SeenOk(c, u);
      if u == IdOf(step) {
        OwnHistory(c, step);
      } else {
        OtherHistory(c, step, u);
      }
    }
  }

  // ----- the log -----

  /** Committing a buffer that was filled over the current store is running the
      operations on it. */
  lemma ApplyRuns(c: Cohort, id: TxnId)
    requires Inv(c) && Enabled(c, Apply(id))
    ensures var p := c.live[id];
            Run(c.kind, c.store, p.req.ops) == Done(c.store + p.db.buffer, Gets(p.response))
  {
    var p := c.live[id];
    assert PartAt(c, id);
    assert p.req.ops[..|p.req.ops|] == p.req.ops;
    BufferingIsInvisible(c.kind, c.store, p.req.ops);
  }

  lemma LoggedStep(c: Cohort, step: Step, t: TxnId)
    requires Logged(c, t) && Enabled(c, step) && (step.Apply? ==> c.live[step.id].req.id == step.id)
    ensures Logged(Next(c, step), t)
  {
    var n := Next(c, step);
    if t in c.applied {
      var i :| 0 <= i < |c.log| && c.log[i].req.id == t;
      assert n.log[i].req.id == t;
    } else if t in n.applied {
      assert n.log[|c.log|].req.id == t;
    }
  }

  lemma ReplayMore(kind: DbKind, from: Store, log: seq<Entry>, mid: Store, entry: Entry, to: Store)
    requires Replay(kind, from, log) == Some(mid) && Run(kind, mid, entry.req.ops) == Done(to, entry.results)
    ensures Replay(kind, from, log + [entry]) == Some(to)
  {
    assert (log + [entry])[..|log|] == log;
  }

  lemma ApplyLogs(c: Cohort, id: TxnId)
    requires Inv(c) && Enabled(c, Apply(id))
    ensures var n := Next(c, Apply(id));
            && Replay(n.kind, n.genesis, n.log) == Some(n.store)
            && (forall i | 0 <= i < |n.log| :: n.log[i].req.id in n.applied)
            && (forall i, j | 0 <= i < j < |n.log| :: n.log[i].req.id != n.log[j].req.id)
  {
    var p := c.live[id];
    ApplyRuns(c, id);
    assert PartAt(c, id) && SeenOk(c, id);
    ReplayMore(c.kind, c.genesis, c.log, c.store, Entry(p.req, Gets(p.response)), c.store + p.db.buffer);
  }

  lemma AnsweredStep(c: Cohort, step: Step, entry: Entry)
    requires Enabled(c, step) && Answered(c, entry) && SeenOk(c, entry.req.id) && entry.req.id in c.applied
    ensures Answered(Next(c, step), entry)
  {
  }

  lemma AnsweredAfter(c: Cohort, step: Step)
    requires Inv(c) && Enabled(c, step)
    ensures forall i | 0 <= i < |Next(c, step).log| :: Answered(Next(c, step), Next(c, step).log[i])
  {
    forall i | 0 <= i < |Next(c, step).log| ensures Answered(Next(c, step), Next(c, step).log[i]) {
      if i < |c.log| {
        assert SeenOk(c, c.log[i].req.id);
        AnsweredStep(c, step, c.log[i]);
      } else {
        assert PartAt(c, step.id) && SeenOk(c, step.id);
      }
    }
  }

  lemma LoggedAfter(c: Cohort, step: Step)
    requires Inv(c) && Enabled(c, step)
    ensures forall t :: Logged(Next(c, step), t)
  {
    if step.Apply? {
      assert PartAt(c, step.id);
    }
    forall t ensures Logged(Next(c, step), t) {
      assert Logged(c, t);
      LoggedStep(c, step, t);
    }
  }

  lemma LogStep(c: Cohort, step: Step)
    requires Inv(c) && Enabled(c, step)
    ensures LogOk(Next(c, step))
  {
    if step.Apply? {
      ApplyLogs(c, step.id);
    }
    AnsweredAfter(c, step);
    LoggedAfter(c, step);
  }

  // ----- the disk -----

  lemma OwnSaved(c: Cohort, step: Step)
    requires Inv(c) && Enabled(c, step)
    ensures SavedAt(Next(c, step), IdOf(step))
  {
    assert SavedAt(c, IdOf(step)) && SeenOk(c, IdOf(step));
    if !step.Receive? {
      assert PartAt(c, step.id);
    }
  }

  lemma OtherSaved(c: Cohort, step: Step, u: TxnId)
    requires SavedAt(c, u) && Enabled(c, step) && u != IdOf(step)
    ensures SavedAt(Next(c, step), u)
  {
    OthersSame(c, step, u);
    SameSeen(c, Next(c, step), u);
  }

  lemma SavedStep(c: Cohort, step: Step)
    requires Inv(c) && Enabled(c, step)
    ensures SavedOk(Next(c, step))
  {
    forall u ensures SavedAt(Next(c, step), u) {
      assert SavedAt(c, u);
      if u == IdOf(step) {
        OwnSaved(c, step);
      } else {
        OtherSaved(c, step, u);
      }
    }
  }

  /** Every step keeps the cohort invariant. */
  lemma InvStep(c: Cohort, step: Step)
    requires Inv(c) && Enabled(c, step)
    ensures Inv(Next(c, step))
  {
    LocksStep(c, step);
    PartsStep(c, step);
    HistoryStep(c, step);
    LogStep(c, step);
    SavedStep(c, step);
  }

  // ----- runs of one cohort -----

  /** A run: each step is enabled where it is taken. */
  predicate CanRun(c: Cohort, steps: seq<Step>)
    decreases |steps|
  {
    steps == [] || (Enabled(c, steps[0]) && CanRun(Next(c, steps[0]), steps[1..]))
  }

  function RunSteps(c: Cohort, steps: seq<Step>): Cohort
    requires CanRun(c, steps)
    decreases |steps|
  {
    if steps == [] then c else RunSteps(Next(c, steps[0]), steps[1..])
  }

  lemma {:induction false} RunOn(c: Cohort, trace: seq<Step>, more: seq<Step>)
    requires CanRun(c, trace) && CanRun(RunSteps(c, trace), more)
    ensures CanRun(c, trace + more) && RunSteps(c, trace + more) == RunSteps(RunSteps(c, trace), more)
    decreases |trace|
  {
    if trace == [] {
      assert trace + more == more;
    } else {
      assert (trace + more)[1..] == trace[1..] + more;
      RunOn(Next(c, trace[0]), trace[1..], more);
    }
  }

  lemma {:induction false} InvRun(c: Cohort, steps: seq<Step>)
    requires Inv(c) && CanRun(c, steps)
    ensures Inv(RunSteps(c, steps))
    decreases |steps|
  {
    if steps != [] {
      InvStep(c, steps[0]);
      InvRun(Next(c, steps[0]), steps[1..]);
    }
  }

  lemma {:induction false} KindAndGenesisStay(c: Cohort, steps: seq<Step>)
    requires CanRun(c, steps)
    ensures RunSteps(c, steps).kind == c.kind && RunSteps(c, steps).genesis == c.genesis
    decreases |steps|
  {
    if steps != [] {
      NextKeepsKindAndGenesis(c, steps[0]);
      KindAndGenesisStay(Next(c, steps[0]), steps[1..]);
    }
  }

  lemma NextKeepsKindAndGenesis(c: Cohort, step: Step)
    requires Enabled(c, step)
    ensures Next(c, step).kind == c.kind && Next(c, step).genesis == c.genesis
  {
  }

  /** Local serializability: after any interleaving, in either locking mode, the
      committed store and all committed Get results are those of running the
      committed transactions one after the other in commit order; each appears
      once, and refused or aborted ones left no trace. */
  lemma LocalSerializability(kind: DbKind, store: Store, steps: seq<Step>)
    requires CanRun(Fresh(kind, store), steps)
    ensures var c := RunSteps(Fresh(kind, store), steps);
            && Replay(kind, store, c.log) == Some(c.store)
            && (forall i, j | 0 <= i < j < |c.log| :: c.log[i].req.id != c.log[j].req.id)
            && (forall i | 0 <= i < |c.log| :: c.log[i].req.id in c.applied && c.log[i].req.id !in c.dropped)
            && (forall i | 0 <= i < |c.log| :: Published(c, c.log[i].req.id) in {Pending, Committed(c.log[i].results)})
            && (forall t | t in c.applied :: exists i :: 0 <= i < |c.log| && c.log[i].req.id == t)
  {
    FreshInv(kind, store);
    InvRun(Fresh(kind, store), steps);
    KindAndGenesisStay(Fresh(kind, store), steps);
    var c := RunSteps(Fresh(kind, store), steps);
    assert forall i | 0 <= i < |c.log| :: SeenOk(c, c.log[i].req.id) && Answered(c, c.log[i]);
    assert forall t | t in c.applied :: Logged(c, t);
  }

  lemma FreshInv(kind: DbKind, store: Store)
    ensures Inv(Fresh(kind, store))
  {
  }

  /** Lock conservation: in every reachable state the holders of a lock are
      exactly the running transactions that list it, a lock has one writer or only
      readers, and a transaction that ended holds none. */
  lemma LockConservation(kind: DbKind, store: Store, steps: seq<Step>, lock: Lock, t: TxnId)
    requires CanRun(Fresh(kind, store), steps)
    ensures var c := RunSteps(Fresh(kind, store), steps);
            && ((lock, t) in c.readers <==> t in c.live && lock in c.live[t].readHeld)
            && (lock in c.writers && c.writers[lock] == t <==> t in c.live && lock in c.live[t].writeHeld)
            && !((lock, t) in c.readers && lock in c.writers)
            && (t in c.final ==> (lock, t) !in c.readers && (lock in c.writers ==> c.writers[lock] != t))
  {
    FreshInv(kind, store);
    InvRun(Fresh(kind, store), steps);
    var c := RunSteps(Fresh(kind, store), steps);
    assert Listed(c, lock, t) && Apart(c, lock, t) && SeenOk(c, t);
  }

  /** No early exposure: a reply is published only when the database outcome is
      fixed, and says what the database did. */
  lemma NoEarlyExposure(kind: DbKind, store: Store, steps: seq<Step>, id: TxnId)
    requires CanRun(Fresh(kind, store), steps)
    ensures var c := RunSteps(Fresh(kind, store), steps);
            && (Published(c, id).Committed? ==> id in c.applied && id !in c.dropped)
            && (Published(c, id).Aborted? ==> id in c.dropped && id !in c.applied)
            && (id in c.live ==> Published(c, id) == Pending)
  {
    FreshInv(kind, store);
    InvRun(Fresh(kind, store), steps);
    assert SeenOk(RunSteps(Fresh(kind, store), steps), id);
  }

  /** Persisted before promised: a transaction that cast a commit ballot has its
      request and its Get results on disk, and a committed reply published for it
      is the persisted one. */
  lemma PublishedIsPersisted(kind: DbKind, store: Store, steps: seq<Step>, id: TxnId)
    requires CanRun(Fresh(kind, store), steps) && id in RunSteps(Fresh(kind, store), steps).promised
    ensures var c := RunSteps(Fresh(kind, store), steps);
            && id in c.savedRequests && id in c.savedResponses
            && (Published(c, id).Committed? ==> Published(c, id) == Committed(c.savedResponses[id]))
            && (id in c.live && c.live[id].phase != Dropped ==>
                  c.savedRequests[id] == c.live[id].req && c.savedResponses[id] == Gets(c.live[id].response))
  {
    FreshInv(kind, store);
    InvRun(Fresh(kind, store), steps);
    assert SavedAt(RunSteps(Fresh(kind, store), steps), id);
  }

  /** A published reply never changes. */
  lemma {:induction false} AnswersAreFinal(c: Cohort, steps: seq<Step>, id: TxnId)
    requires Inv(c) && CanRun(c, steps) && id in c.final
    ensures id in RunSteps(c, steps).final && Published(RunSteps(c, steps), id) == Published(c, id)
    decreases |steps|
  {
    if steps != [] {
      InvStep(c, steps[0]);
      AnswerStays(c, steps[0], id);
      AnswersAreFinal(Next(c, steps[0]), steps[1..], id);
    }
  }

  /** A published transaction has no more steps. */
  lemma AnswerStays(c: Cohort, step: Step, id: TxnId)
    requires HistoryOk(c) && Enabled(c, step) && id in c.final
    ensures id != IdOf(step) && SameFor(c, Next(c, step), id)
  {
    assert SeenOk(c, id);
    OthersSame(c, step, id);
  }

  /** The adapter is never misused: no reachable operation, begin or commit finds
      the database transaction in the wrong state. */
  lemma AdapterNeverMisused(kind: DbKind, store: Store, steps: seq<Step>, id: TxnId)
    requires CanRun(Fresh(kind, store), steps)
    requires id in RunSteps(Fresh(kind, store), steps).live
    ensures var c := RunSteps(Fresh(kind, store), steps);
            var p := c.live[id];
            && (p.phase == Locking ==> AfterBegin(p.db, p.writeHeld == {}).error == None)
            && (p.phase.Executing? && p.phase.done < |p.req.ops| ==>
                  NextOperation(c, p).error != Some(FailedPrecondition))
            && (p.phase == Committing ==> AfterClose(p.db).error == None)
  {
    FreshInv(kind, store);
    InvRun(Fresh(kind, store), steps);
    var c := RunSteps(Fresh(kind, store), steps);
    var p := c.live[id];
    assert PartAt(c, id);
    if p.phase.Executing? && p.phase.done < |p.req.ops| {
      LocksCoverAccesses(c.kind, p.req.ops, p.phase.done);
      ProcessOperationIsExec(c.kind, c.store, p.db, Gets(p.response), p.req.ops[p.phase.done]);
    }
  }
}
