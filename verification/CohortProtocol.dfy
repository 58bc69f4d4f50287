/** A cohort as a step machine: any number of transactions, each at its own
    point of ProcessTransaction, interleaved step by step. */
module CohortProtocol {
  import opened Common
  import opened Semantics
  import opened Database

  // ----- locks -----

  datatype Lock = KeyLock(key: Key) | WholeDb

  /** The lock that guards a key. */
  function LockOf(kind: DbKind, key: Key): Lock {
    if kind.concurrentWrites then KeyLock(key) else WholeDb
  }

  function WriteLocks(kind: DbKind, ops: seq<Op>): set<Lock> {
    set k | k in PutKeys(ops) :: LockOf(kind, k)
  }

  function ReadLocks(kind: DbKind, ops: seq<Op>): set<Lock> {
    (set k | k in GetKeys(ops) :: LockOf(kind, k)) - WriteLocks(kind, ops)
  }

  // ----- state -----

  /** Where ProcessTransaction stands. `Executing(n)`: the database transaction is
      open and n operations are done. `Applied` and `Dropped`: the database has
      committed or aborted, the locks are not released yet. */
  datatype Phase = Locking | Executing(done: nat) | Persisted | Voted | Committing | Applied | Dropped

  datatype Part = Part(
    req: Request, phase: Phase, readHeld: set<Lock>, writeHeld: set<Lock>, db: Adapter, response: Reply)

  datatype Entry = Entry(req: Request, results: seq<GetResponse>)

  /** `live` is the metadata of running transactions and `final` the published
      replies; `readers` and `writers` are the lock table; `savedResponses` and
      `savedRequests` are the files on disk. `genesis`, `log`,
      `applied`, `dropped` and `promised` only record history: the first store,
      the database commits in order, the transactions whose database transaction
      committed or aborted, and those that cast a commit ballot. */
  datatype Cohort = Cohort(
    kind: DbKind, store: Store, live: map<TxnId, Part>, final: map<TxnId, Reply>,
    readers: set<(Lock, TxnId)>, writers: map<Lock, TxnId>,
    savedResponses: map<TxnId, seq<GetResponse>>, savedRequests: map<TxnId, Request>,
    genesis: Store, log: seq<Entry>, applied: set<TxnId>, dropped: set<TxnId>, promised: set<TxnId>)

  function Fresh(kind: DbKind, store: Store): Cohort {
    Cohort(kind, store, map[], map[], {}, map[], map[], map[], store, [], {}, {}, {})
  }

  /** The Get results gathered so far. */
  function Gets(reply: Reply): seq<GetResponse> {
    if reply.Committed? then reply.results else []
  }

  function ReasonOf(status: Status): AbortReason {
    match status
    case DeadlineExceeded => TimestampReached
    case NotFound => NonExistentValue
    case _ => Unspecified
  }

  /** A cohort answers from its published replies and is pending otherwise. */
  function Published(c: Cohort, id: TxnId): Reply {
    if id in c.final then c.final[id] else Pending
  }

  // ----- steps -----

  /** `Refuse` is every failure before the commit ballot: a lock not granted, an
      operation or a write to disk that failed. `SaveResponse` and `Persist` are
      the two writes. */
  datatype Step =
    | Receive(req: Request)
    | LockRead(id: TxnId, lock: Lock)
    | LockWrite(id: TxnId, lock: Lock)
    | Begin(id: TxnId)
    | Execute(id: TxnId)
    | Refuse(id: TxnId, status: Status)
    | SaveResponse(id: TxnId)
    | Persist(id: TxnId)
    | Promise(id: TxnId)
    | CommitAlone(id: TxnId)
    | LearnCommit(id: TxnId)
    | LearnAbort(id: TxnId, reason: AbortReason)
    | Apply(id: TxnId)
    | Release(id: TxnId)

  function IdOf(step: Step): TxnId {
    if step.Receive? then step.req.id else step.id
  }

  predicate AllLocked(kind: DbKind, p: Part) {
    p.readHeld == ReadLocks(kind, p.req.ops) && p.writeHeld == WriteLocks(kind, p.req.ops)
  }

  function NextOperation(c: Cohort, p: Part): OpAnswer
    requires p.phase.Executing? && p.phase.done < |p.req.ops|
  {
    ProcessOperation(c.kind, c.store, p.db, Gets(p.response), p.req.ops[p.phase.done])
  }

  predicate Enabled(c: Cohort, step: Step) {
    if step.Receive? then step.req.id !in c.live && step.req.id !in c.final
    else
      && step.id in c.live
      && var p := c.live[step.id];
         match step
         case LockRead(_, lock) =>
           p.phase == Locking && lock in ReadLocks(c.kind, p.req.ops) - p.readHeld && lock !in c.writers
         case LockWrite(_, lock) =>
           && p.phase == Locking && p.readHeld == ReadLocks(c.kind, p.req.ops)
           && lock in WriteLocks(c.kind, p.req.ops) - p.writeHeld
           && lock !in c.writers && forall r | r in c.readers :: r.0 != lock
         case Begin(_) => p.phase == Locking && AllLocked(c.kind, p)
         case Execute(_) =>
           p.phase.Executing? && p.phase.done < |p.req.ops| && NextOperation(c, p).error.None?
         case Refuse(_, _) =>
           p.phase == Locking || (p.phase.Executing? && (p.phase.done < |p.req.ops| || !p.req.onlyCohort))
         case SaveResponse(_) => p.phase == Executing(|p.req.ops|) && !p.req.onlyCohort
         case Persist(_) => p.phase == Executing(|p.req.ops|) && !p.req.onlyCohort && step.id in c.savedResponses
         case Promise(_) => p.phase == Persisted
         case CommitAlone(_) => p.phase == Executing(|p.req.ops|) && p.req.onlyCohort
         case LearnCommit(_) => p.phase == Voted
         case LearnAbort(_, _) => p.phase == Voted
         case Apply(_) => p.phase == Committing && p.db.Open?
         case Release(_) => p.phase == Applied || p.phase == Dropped
  }

  function Next(c: Cohort, step: Step): Cohort
    requires Enabled(c, step)
  {
    match step
    case Receive(req) => Set(c, req.id, Part(req, Locking, {}, {}, Closed, Pending))
    case LockRead(id, lock) =>
      Set(c, id, c.live[id].(readHeld := c.live[id].readHeld + {lock})).(readers := c.readers + {(lock, id)})
    case LockWrite(id, lock) =>
      Set(c, id, c.live[id].(writeHeld := c.live[id].writeHeld + {lock})).(writers := c.writers[lock := id])
    case Begin(id) =>
      Set(c, id, c.live[id].(phase := Executing(0), db := AfterBegin(c.live[id].db, c.live[id].writeHeld == {}).db))
    case Execute(id) => Set(c, id, Executed(c, c.live[id]))
    case Refuse(id, status) => Drop(c, id, ReasonOf(status))
    case SaveResponse(id) => c.(savedResponses := c.savedResponses[id := Gets(c.live[id].response)])
    case Persist(id) =>
      Set(c, id, c.live[id].(phase := Persisted)).(savedRequests := c.savedRequests[id := c.live[id].req])
    case Promise(id) => Set(c, id, c.live[id].(phase := Voted)).(promised := c.promised + {id})
    case CommitAlone(id) => Set(c, id, c.live[id].(phase := Committing))
    case LearnCommit(id) => Set(c, id, c.live[id].(phase := Committing))
    case LearnAbort(id, reason) => Drop(c, id, reason)
    case Apply(id) =>
      var p := c.live[id];
      Set(c, id, p.(phase := Applied, db := Closed, response := Committed(Gets(p.response))))
        .(store := c.store + p.db.buffer, log := c.log + [Entry(p.req, Gets(p.response))],
          applied := c.applied + {id})
    case Release(id) =>
      c.(live := c.live - {id}, final := c.final[id := c.live[id].response],
         readers := c.readers - (set l | l in c.live[id].readHeld :: (l, id)),
         writers := c.writers - c.live[id].writeHeld)
  }

  function Set(c: Cohort, id: TxnId, p: Part): Cohort {
    c.(live := c.live[id := p])
  }

  function Executed(c: Cohort, p: Part): Part
    requires p.phase.Executing? && p.phase.done < |p.req.ops|
  {
    var answer := NextOperation(c, p);
    p.(phase := Executing(p.phase.done + 1), db := answer.db,
       response := if p.req.ops[p.phase.done].action.Get? then Committed(answer.results) else p.response)
  }

  function Drop(c: Cohort, id: TxnId, reason: AbortReason): Cohort
    requires id in c.live
  {
    Set(c, id, c.live[id].(phase := Dropped, db := Closed, response := Aborted(reason)))
      .(dropped := c.dropped + {id})
  }

  // ----- invariants -----

  /** The lock table lists a holder exactly if the running transaction lists the
      lock. */
  ghost predicate Listed(c: Cohort, l: Lock, t: TxnId) {
    && ((l, t) in c.readers <==> t in c.live && l in c.live[t].readHeld)
    && (l in c.writers && c.writers[l] == t <==> t in c.live && l in c.live[t].writeHeld)
  }

  ghost predicate LockTable(c: Cohort) {
    forall l, t :: Listed(c, l, t)
  }

  /** Every lock has one writer or only readers. */
  ghost predicate Apart(c: Cohort, l: Lock, t: TxnId) {
    (l, t) in c.readers ==> l !in c.writers
  }

  ghost predicate Exclusive(c: Cohort) {
    forall l, t :: Apart(c, l, t)
  }

  /** The buffer and the results are those of the first n operations run on the
      committed store as it is NOW, not as it was when they ran. */
  ghost predicate ExecutedTo(c: Cohort, p: Part, n: nat) {
    && n <= |p.req.ops|
    && p.db.Open?
    && p.db.readOnly == (WriteLocks(c.kind, p.req.ops) == {})
    && !p.response.Aborted?
    && Exec(c.kind, c.store, p.req.ops[..n]) == Buffered(p.db.buffer, Gets(p.response))
  }

  ghost predicate PartOk(c: Cohort, id: TxnId, p: Part) {
    && p.req.id == id
    && p.readHeld <= ReadLocks(c.kind, p.req.ops)
    && p.writeHeld <= WriteLocks(c.kind, p.req.ops)
    && (p.phase != Locking && p.phase != Dropped ==> AllLocked(c.kind, p))
    && match p.phase
       case Locking => p.db == Closed && p.response == Pending
       case Executing(n) => ExecutedTo(c, p, n)
       case Persisted => !p.req.onlyCohort && ExecutedTo(c, p, |p.req.ops|)
       case Voted => !p.req.onlyCohort && ExecutedTo(c, p, |p.req.ops|)
       case Committing => ExecutedTo(c, p, |p.req.ops|)
       case Applied => p.db == Closed && p.response.Committed?
       case Dropped => p.db == Closed && p.response.Aborted?
  }

  ghost predicate PartAt(c: Cohort, t: TxnId) {
    t in c.live ==> PartOk(c, t, c.live[t])
  }

  ghost predicate PartsOk(c: Cohort) {
    forall t :: PartAt(c, t)
  }

  /** What the history says about one transaction. */
  ghost predicate SeenOk(c: Cohort, t: TxnId) {
    && !(t in c.live && t in c.final)
    && !(t in c.applied && t in c.dropped)
    && (t !in c.live && t !in c.final ==> t !in c.applied && t !in c.dropped && t !in c.promised)
    && (t in c.live ==>
          var phase := c.live[t].phase;
          && (t in c.applied <==> phase == Applied)
          && (t in c.dropped <==> phase == Dropped)
          && (phase == Locking || phase == Persisted || phase.Executing? ==> t !in c.promised)
          && (phase == Voted ==> t in c.promised)
          && (phase == Committing || phase == Applied ==> (t in c.promised <==> !c.live[t].req.onlyCohort)))
    && (t in c.final ==>
          && (t in c.applied <==> c.final[t].Committed?)
          && (t in c.dropped <==> c.final[t].Aborted?)
          && !c.final[t].Pending?)
  }

  ghost predicate HistoryOk(c: Cohort) {
    forall t :: SeenOk(c, t)
  }

  /** The store that a log leads to, if every entry succeeds with exactly the
      Get results it recorded. */
  function Replay(kind: DbKind, from: Store, log: seq<Entry>): Option<Store> {
    if log == [] then Some(from) else
    var last := log[|log| - 1];
    match Replay(kind, from, log[..|log| - 1])
    case None => None
    case Some(mid) =>
      var outcome := Run(kind, mid, last.req.ops);
      if outcome.Done? && outcome.results == last.results then Some(outcome.store) else None
  }

  ghost predicate Logged(c: Cohort, t: TxnId) {
    t in c.applied ==> exists i :: 0 <= i < |c.log| && c.log[i].req.id == t
  }

  /** The reply to a committed transaction carries exactly the results that the
      log recorded for it. */
  ghost predicate Answered(c: Cohort, entry: Entry) {
    var t := entry.req.id;
    && (t in c.live ==> c.live[t].response == Committed(entry.results))
    && (t in c.final ==> c.final[t] == Committed(entry.results))
  }

  ghost predicate LogOk(c: Cohort) {
    && Replay(c.kind, c.genesis, c.log) == Some(c.store)
    && (forall i | 0 <= i < |c.log| :: c.log[i].req.id in c.applied)
    && (forall t :: Logged(c, t))
    && (forall i, j | 0 <= i < j < |c.log| :: c.log[i].req.id != c.log[j].req.id)
    && (forall i | 0 <= i < |c.log| :: Answered(c, c.log[i]))
  }

  /** What is on disk about one transaction: nothing before it has run to the end,
      then its request and its results; both are there when it has promised, and
      the reply published later is the saved one. */
  ghost predicate SavedAt(c: Cohort, t: TxnId) {
    && (t !in c.live && t !in c.final ==> t !in c.savedResponses && t !in c.savedRequests)
    && (t in c.live ==>
          var p := c.live[t];
          && (t in c.savedResponses && p.phase != Dropped ==>
                && p.phase != Locking && (p.phase.Executing? ==> p.phase.done == |p.req.ops|)
                && c.savedResponses[t] == Gets(p.response))
          && (t in c.savedRequests ==> c.savedRequests[t] == p.req && t in c.savedResponses)
          && (p.phase == Persisted ==> t in c.savedRequests))
    && (t in c.promised ==> t in c.savedRequests && t in c.savedResponses)
    && (t in c.final && c.final[t].Committed? && t in c.savedResponses ==> c.final[t].results == c.savedResponses[t])
  }

  ghost predicate SavedOk(c: Cohort) {
    forall t :: SavedAt(c, t)
  }

  ghost predicate Inv(c: Cohort) {
    LockTable(c) && Exclusive(c) && PartsOk(c) && HistoryOk(c) && LogOk(c) && SavedOk(c)
  }
}
