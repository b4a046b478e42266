/** The abstract contract of the ledger store: the `DBService` and `Transaction`
    interfaces, reduced to one committed table, one transaction-local copy of it
    and the state of the current transaction. A failure oracle decides which
    store calls fail. */
module Store {
  import opened Models

  datatype TxStatus = NoTx | Open | Committed | RolledBack

  /** `committed` is what other transactions see; `pending` is the table as
      the open transaction sees it (its own writes included). */
  datatype Ledger = Ledger(committed: map<int, int>, pending: map<int, int>, status: TxStatus)

  datatype StoreError = NotFound | Fault | TxClosed

  datatype Result<T> = Ok(value: T) | Err(error: StoreError)

  /** What a store call returns, together with the store it leaves behind. */
  datatype Step<T> = Step(result: Result<T>, store: Ledger)

  /** Which of the fallible store calls of one request fail. */
  datatype Oracle = Oracle(beginFails: bool, getFails: bool, updateFails: bool, commitFails: bool)

  /** One call made on the store, with the oracle's answer for it. */
  datatype Call =
    | BeginCall(fails: bool)
    | GetCall(id: int, fails: bool)
    | UpdateCall(id: int, balance: int, fails: bool)
    | CommitCall(fails: bool)
    | RollbackCall

  /** `DBService.Begin`: opens a transaction that starts from the committed table. */
  function Begin(s: Ledger, fails: bool): (r: Step<()>)
    ensures r.store.committed == s.committed
    ensures r.result.Ok? <==> !fails
    ensures r.result.Ok? ==> r.store.status == Open && r.store.pending == s.committed
    ensures r.result.Err? ==> r.store == s
  {
    if fails then Step(Err(Fault), s)
    else Step(Ok(()), Ledger(s.committed, s.committed, Open))
  }

  /** `DBService.GetAccount`: a point read inside the open transaction. A missing
      row is `NotFound`, distinct from a backend `Fault`. */
  function GetAccount(s: Ledger, id: int, fails: bool): (r: Step<Account>)
    ensures r.store == s
    ensures r.result.Ok? <==> !fails && s.status == Open && id in s.pending
    ensures r.result.Ok? ==> id in s.pending && r.result.value == Account(id, s.pending[id])
    ensures r.result == Err(NotFound) <==> !fails && s.status == Open && id !in s.pending
  {
    if fails then Step(Err(Fault), s)
    else if s.status != Open then Step(Err(TxClosed), s)
    else if id !in s.pending then Step(Err(NotFound), s)
    else Step(Ok(Account(id, s.pending[id])), s)
  }

  /** `DBService.UpdateAccount`: an unconditional overwrite of one balance inside
      the open transaction; an `UPDATE` that matches no row is not an error. */
  function UpdateAccount(s: Ledger, id: int, balance: int, fails: bool): (r: Step<()>)
    ensures r.store.committed == s.committed && r.store.status == s.status
    ensures r.result.Ok? <==> !fails && s.status == Open
    ensures r.result.Ok? ==> r.store.pending.Keys == s.pending.Keys
    ensures r.result.Ok? && id in s.pending ==> r.store.pending[id] == balance
    ensures forall k | k in s.pending && k != id :: k in r.store.pending && r.store.pending[k] == s.pending[k]
    ensures r.result.Err? ==> r.store == s
  {
    if fails then Step(Err(Fault), s)
    else if s.status != Open then Step(Err(TxClosed), s)
    else if id !in s.pending then Step(Ok(()), s)
    else Step(Ok(()), s.(pending := s.pending[id := balance]))
  }

  /** `Transaction.Commit`: makes the transaction's writes durable. A failed
      commit terminates the transaction without publishing anything. */
  function Commit(s: Ledger, fails: bool): (r: Step<()>)
    ensures r.store.status != Open
    ensures r.result.Ok? <==> !fails && s.status == Open
    ensures r.result.Ok? ==> r.store.committed == s.pending && r.store.status == Committed
    ensures r.result.Err? ==> r.store.committed == s.committed
  {
    if s.status != Open then Step(Err(TxClosed), s)
    else if fails then Step(Err(Fault), Ledger(s.committed, s.committed, RolledBack))
    else Step(Ok(()), Ledger(s.pending, s.pending, Committed))
  }

  /** `Transaction.Rollback`: discards the transaction's writes; on a transaction
      that is already committed or rolled back it does nothing. Its error is
      never observed by the caller, so only the resulting store is modelled. */
  function Rollback(s: Ledger): (r: Ledger)
    ensures r.committed == s.committed
    ensures r.status != Open
    ensures s.status == Open ==> r.status == RolledBack && r.pending == s.committed
    ensures s.status != Open ==> r == s
  {
    if s.status == Open then Ledger(s.committed, s.committed, RolledBack) else s
  }

  /** The store effect of one recorded call. */
  function Effect(s: Ledger, call: Call): Ledger
  {
    match call
    case BeginCall(fails) => Begin(s, fails).store
    case GetCall(id, fails) => GetAccount(s, id, fails).store
    case UpdateCall(id, balance, fails) => UpdateAccount(s, id, balance, fails).store
    case CommitCall(fails) => Commit(s, fails).store
    case RollbackCall => Rollback(s)
  }

  /** The store reached by performing `calls` in order, starting from `s`. */
  function Replay(s: Ledger, calls: seq<Call>): Ledger
    decreases |calls|
  {
    if calls == [] then s else Replay(Effect(s, calls[0]), calls[1..])
  }

  /** Performing two call sequences one after the other is performing their
      concatenation. */
  lemma {:induction false} ReplayAppend(s: Ledger, a: seq<Call>, b: seq<Call>)
    ensures Replay(s, a + b) == Replay(Replay(s, a), b)
    decreases |a|
  {
    if a == [] {
      assert a + b == b;
    } else {
      assert (a + b)[0] == a[0];
      assert (a + b)[1..] == a[1..] + b;
      ReplayAppend(Effect(s, a[0]), a[1..], b);
    }
  }

  /** Only a successful commit changes what other transactions see: a call
      sequence without one leaves the committed table as it was. */
  lemma {:induction false} ReplayWithoutCommitKeepsCommitted(s: Ledger, calls: seq<Call>)
    requires CommitCall(false) !in calls
    ensures Replay(s, calls).committed == s.committed
    decreases |calls|
  {
    if calls != [] {
      assert calls[0] != CommitCall(false);
      assert CommitCall(false) !in calls[1..] by {
        assert forall i | 0 <= i < |calls[1..]| :: calls[1..][i] == calls[i + 1];
      }
      ReplayWithoutCommitKeepsCommitted(Effect(s, calls[0]), calls[1..]);
    }
  }

  /** The discipline a caller keeps with one transaction: `Begin` comes first and
      only once; after a successful `Begin` the last call is `Rollback`, made
      exactly once; `Commit`, if made, comes directly before it. */
  predicate Disciplined(calls: seq<Call>)
  {
    && (calls != [] ==> calls[0].BeginCall?)
    && (calls != [] && calls[0].BeginCall? && calls[0].fails ==> |calls| == 1)
    && (calls != [] && calls[0].BeginCall? && !calls[0].fails ==> |calls| >= 2 && calls[|calls| - 1] == RollbackCall)
    && (forall i | 0 < i < |calls| :: !calls[i].BeginCall?)
    && (forall i | 0 <= i < |calls| - 1 :: !calls[i].RollbackCall?)
    && (forall i | 0 <= i < |calls| && calls[i].CommitCall? :: i == |calls| - 2)
  }

  /** The calls a caller makes between `Begin` and the deferred `Rollback`:
      a read, then possibly a write, then possibly a commit. */
  predicate InnerShape(calls: seq<Call>)
  {
    && 1 <= |calls| <= 3
    && calls[0].GetCall?
    && (|calls| >= 2 ==> calls[1].UpdateCall?)
    && (|calls| == 3 ==> calls[2].CommitCall?)
  }

  /** Bracketing such calls between a successful `Begin` and a `Rollback`
      keeps the discipline. */
  lemma BracketDisciplined(calls: seq<Call>)
    requires InnerShape(calls)
    ensures Disciplined([BeginCall(false)] + calls + [RollbackCall])
  {
  }
}
