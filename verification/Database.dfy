/** The database adapter of one transaction: closed, open read-only or open for
    writing, over a committed store that it shares with other transactions. */
module Database {
  import opened Common
  import opened Semantics

  /** The write buffer is private until commit. */
  datatype Adapter = Closed | Open(readOnly: bool, buffer: Store)

  /** `error` is None when the call succeeded. */
  datatype Answer = Answer(error: Option<Status>, db: Adapter)

  function AfterBegin(db: Adapter, readOnly: bool): Answer {
    if db.Open? then Answer(Some(FailedPrecondition), db) else Answer(None, Open(readOnly, map[]))
  }

  function AfterClose(db: Adapter): Answer {
    if db.Closed? then Answer(Some(FailedPrecondition), db) else Answer(None, Closed)
  }

  function Read(kind: DbKind, base: Store, db: Adapter, key: Key): ValueOrStatus {
    if db.Closed? then Missing(FailedPrecondition) else Find(kind, base + db.buffer, key)
  }

  function Write(db: Adapter, key: Key, value: int): Answer {
    if db.Closed? || db.readOnly
    then Answer(Some(FailedPrecondition), db)
    else Answer(None, db.(buffer := db.buffer[key := value]))
  }

  /** One operation of a transaction through the adapter. */
  datatype OpAnswer = OpAnswer(error: Option<Status>, db: Adapter, results: seq<GetResponse>)

  function ProcessOperation(kind: DbKind, base: Store, db: Adapter, results: seq<GetResponse>, op: Op): OpAnswer {
    match op.action
    case NoOp => OpAnswer(None, db, results)
    case Get(key) =>
      (match Read(kind, base, db, key)
       case Missing(status) => OpAnswer(Some(status), db, results)
       case Value(v) => OpAnswer(None, db, results + [GetResponse(op.ns, key, v)]))
    case Put(key, value) =>
      match NewValue(Read(kind, base, db, key), value)
      case Missing(status) => OpAnswer(Some(status), db, results)
      case Value(v) =>
        var put := Write(db, key, v);
        OpAnswer(put.error, put.db, results)
  }

  /** With an open transaction, writable when the operation is a put, the adapter
      does what buffered execution does and never reports a misuse. */
  lemma ProcessOperationIsExec(kind: DbKind, base: Store, db: Adapter, results: seq<GetResponse>, op: Op)
    requires db.Open? && (op.action.Put? ==> !db.readOnly)
    ensures var answer := ProcessOperation(kind, base, db, results, op);
            && answer.error != Some(FailedPrecondition)
            && match ExecOp(kind, base, db.buffer, results, op)
               case Refused(status) => answer.error == Some(status)
               case Buffered(buffer, results') => answer == OpAnswer(None, Open(db.readOnly, buffer), results')
  {
  }

  /** The environment that all adapters of one database share. */
  class Environment {
    var data: Store
    constructor (data: Store)
      ensures this.data == data
    {
      this.data := data;
    }
  }

  /** `dbi` is the handle through which an open transaction reads the committed
      values. */
  class LmdbAdapter {
    const env: Environment
    var txn: Option<Store>
    var dbi: Option<Environment>
    var isReadonly: bool

    ghost predicate Valid()
      reads this
    {
      dbi == if txn.Some? then Some(env) else None
    }

    ghost function State(): Adapter
      reads this
    {
      if txn.None? then Closed else Open(isReadonly, txn.value)
    }

    constructor (env: Environment)
      ensures Valid() && State() == Closed && this.env == env
    {
      this.env := env;
      txn, dbi, isReadonly := None, None, false;
    }

    method Begin() returns (error: Option<Status>)
      requires Valid()
      modifies this
      ensures Valid() && Answer(error, State()) == AfterBegin(old(State()), false)
      ensures if old(State()).Open? then error == Some(FailedPrecondition) && State() == old(State())
              else error == None && State() == Open(false, map[])
    {
      if txn.Some? {
        return Some(FailedPrecondition);
      }
      isReadonly := false;
      txn, dbi := Some(map[]), Some(env);
      return None;
    }

    method BeginReadOnly() returns (error: Option<Status>)
      requires Valid()
      modifies this
      ensures Valid() && Answer(error, State()) == AfterBegin(old(State()), true)
      ensures if old(State()).Open? then error == Some(FailedPrecondition) && State() == old(State())
              else error == None && State() == Open(true, map[])
    {
      if txn.Some? {
        return Some(FailedPrecondition);
      }
      isReadonly := true;
      txn, dbi := Some(map[]), Some(env);
      return None;
    }

    /** Commit overwrites the committed values of the buffered keys. */
    method Commit() returns (error: Option<Status>)
      requires Valid()
      modifies this, env
      ensures Valid() && Answer(error, State()) == AfterClose(old(State()))
      ensures State() == Closed && error == (if old(State()).Open? then None else Some(FailedPrecondition))
      ensures env.data == if old(State()).Open? then old(env.data) + old(State()).buffer else old(env.data)
    {
      if txn.None? {
        return Some(FailedPrecondition);
      }
      env.data := env.data + txn.value;
      ReleaseTransaction();
      return None;
    }

    method Abort() returns (error: Option<Status>)
      requires Valid()
      modifies this
      ensures Valid() && Answer(error, State()) == AfterClose(old(State()))
      ensures State() == Closed && error == (if old(State()).Open? then None else Some(FailedPrecondition))
    {
      if txn.None? {
        return Some(FailedPrecondition);
      }
      ReleaseTransaction();
      return None;
    }

    method Get(key: Key) returns (r: ValueOrStatus)
      requires Valid()
      ensures r == Read(LMDB, env.data, State(), key)
      ensures r == if State().Closed? then Missing(FailedPrecondition)
                   else if key in State().buffer then Value(State().buffer[key])
                   else if key in env.data then Value(env.data[key])
                   else Missing(Internal)
    {
      if txn.None? {
        return Missing(FailedPrecondition);
      }
      if key in txn.value {
        return Value(txn.value[key]);
      }
      if key in dbi.value.data {
        return Value(dbi.value.data[key]);
      }
      return Missing(Internal);
    }

    /** `stored` is what the library reports of the write itself. */
    method Put(key: Key, value: int, stored: bool) returns (error: Option<Status>)
      requires Valid()
      modifies this
      ensures Valid()
      ensures Answer(error, State()) ==
              if stored || Write(old(State()), key, value).error.Some? then Write(old(State()), key, value)
              else Answer(Some(Internal), old(State()))
      ensures if old(State()).Closed? || old(State()).readOnly then error == Some(FailedPrecondition)
              else if !stored then error == Some(Internal)
              else error == None
      ensures State() == if error == None then Open(false, old(State()).buffer[key := value]) else old(State())
    {
      if txn.None? {
        return Some(FailedPrecondition);
      }
      if isReadonly {
        return Some(FailedPrecondition);
      }
      if !stored {
        return Some(Internal);
      }
      txn := Some(txn.value[key := value]);
      return None;
    }

    method ReleaseTransaction()
      modifies this
      ensures Valid() && State() == Closed
    {
      txn, dbi := None, None;
    }
  }
}
