/** `BankHandler.HandleBankRequest`: one balance mutation on account 1. */
module Handler {
  import opened Models
  import opened Store
  import opened Http

  /** The role the middleware left in the context, if any. */
  function RoleOf(c: Context): Option<string>
  {
    c.Get("role")
  }

  /** The handler's own role test: a missing role or one other than "admin"
      and "client" is rejected. */
  function RoleRejected(role: Option<string>): (rejected: bool)
    ensures rejected <==> role.None? || !IsKnownRole(role.value)
  {
    role.None? || (role.value != Admin && role.value != Client)
  }

  /** The request passes the checks made before any store call. */
  predicate Admitted(c: Context)
  {
    c.body.Parsed? && c.body.amount >= 0 && !RoleRejected(RoleOf(c))
  }

  /** Every account except account 1 keeps its committed balance, and no
      account appears or disappears. */
  predicate OthersUnchanged(before: map<int, int>, after: map<int, int>)
  {
    && after.Keys == before.Keys
    && forall k | k in before && k != TheAccount :: after[k] == before[k]
  }

  /** Account 1 can be read and the request is not a withdrawal beyond its
      committed balance: the request gets past the funds check. */
  predicate PassesFundsCheck(c: Context, committed: map<int, int>)
  {
    && Admitted(c) && TheAccount in committed
    && (RoleOf(c).value == Admin ==> committed[TheAccount] >= c.body.amount)
  }

  /** The body of the handler from the read of account 1 to the commit, inside
      a transaction that is already open. The deferred rollback is added by
      the caller. */
  function Transact(role: string, amount: int, s: Ledger, f: Oracle): (r: Run)
    requires s.status == Open
    ensures InnerShape(r.trace) && r.trace[0] == GetCall(TheAccount, f.getFails)
  {
    var read := GetAccount(s, TheAccount, f.getFails);
    var get := GetCall(TheAccount, f.getFails);
    if read.result.Err? then Run(DatabaseError, read.store, [get])
    else
      var account := read.result.value;
      if role == Admin && account.balance < amount then Run(InsufficientFunds, read.store, [get])
      else
        var change := if role == Admin then -amount else amount;
        var updated := account.(balance := account.balance + change);
        var write := UpdateAccount(read.store, updated.id, updated.balance, f.updateFails);
        var put := UpdateCall(updated.id, updated.balance, f.updateFails);
        if write.result.Err? then Run(UpdateFailed, write.store, [get, put])
        else
          var done := Commit(write.store, f.commitFails);
          var commit := CommitCall(f.commitFails);
          if done.result.Err? then Run(CommitFailed, done.store, [get, put, commit])
          else Run(Success(updated), done.store, [get, put, commit])
  }

  /** One request: bind, reject a negative amount, check the role, then read,
      adjust, write and commit account 1 inside a transaction whose rollback
      is deferred. */
  function HandleBankRequest(c: Context, s: Ledger, f: Oracle): (r: Run)
    // validation comes before any store call and touches nothing
    ensures c.body.Malformed? ==> r == Run(InvalidJson, s, [])
    ensures c.body.Parsed? && c.body.amount < 0 ==> r == Run(NegativeAmount, s, [])
    ensures c.body.Parsed? && c.body.amount >= 0 && RoleRejected(RoleOf(c)) ==> r == Run(AccessDenied, s, [])
    ensures r.response == AccessDenied <==> c.body.Parsed? && c.body.amount >= 0 && RoleRejected(RoleOf(c))
    ensures r.trace == [] <==> !Admitted(c)
    ensures r.trace == [] ==> r.store == s
    // a failed begin ends the request with nothing to roll back
    ensures Admitted(c) && f.beginFails ==> r == Run(BeginFailed, s, [BeginCall(true)])
    // the transaction discipline, with the deferred rollback on every exit
    ensures Disciplined(r.trace)
    ensures Admitted(c) && !f.beginFails ==> r.store.status != Open
    ensures Admitted(c) && !f.beginFails ==> |r.trace| >= 3 && r.trace[1] == GetCall(TheAccount, f.getFails)
    ensures forall i | 0 <= i < |r.trace| && r.trace[i].UpdateCall? :: r.trace[i].id == TheAccount
    // only a fully successful request changes the committed table
    ensures !r.response.Success? ==> r.store.committed == s.committed
    ensures r.response.Success? <==>
      && PassesFundsCheck(c, s.committed)
      && !f.beginFails && !f.getFails && !f.updateFails && !f.commitFails
    ensures r.response.Success? ==>
      && CommitCall(false) in r.trace
      && TheAccount in s.committed
      && r.response.account.id == TheAccount
      && r.store.committed == s.committed[TheAccount := r.response.account.balance]
    // the balance arithmetic
    ensures r.response.Success? && RoleOf(c).value == Admin ==>
      r.response.account.balance == s.committed[TheAccount] - c.body.amount && r.response.account.balance >= 0
    ensures r.response.Success? && RoleOf(c).value == Client ==>
      r.response.account.balance == s.committed[TheAccount] + c.body.amount
    // a withdrawal beyond the balance writes nothing and rolls back once
    ensures r.response == InsufficientFunds <==>
      && Admitted(c) && RoleOf(c).value == Admin && !f.beginFails && !f.getFails
      && TheAccount in s.committed && s.committed[TheAccount] < c.body.amount
    ensures r.response == InsufficientFunds ==>
      r.trace == [BeginCall(false), GetCall(TheAccount, false), RollbackCall]
    // every store failure after validation is a 500, each with its own message
    ensures r.response.Status() == StatusInternalServerError <==>
      && Admitted(c)
      && (|| f.beginFails || f.getFails || TheAccount !in s.committed
          || (PassesFundsCheck(c, s.committed) && (f.updateFails || f.commitFails)))
    ensures Admitted(c) && !f.beginFails && (f.getFails || TheAccount !in s.committed) ==>
      && r.response == DatabaseError
      && r.trace == [BeginCall(false), GetCall(TheAccount, f.getFails), RollbackCall]
    ensures PassesFundsCheck(c, s.committed) && !f.beginFails && !f.getFails && f.updateFails ==>
      && r.response == UpdateFailed
      && |r.trace| == 4 && r.trace[2].UpdateCall? && r.trace[2].fails
      && (forall i | 0 <= i < |r.trace| :: !r.trace[i].CommitCall?)
    ensures PassesFundsCheck(c, s.committed) && !f.beginFails && !f.getFails && !f.updateFails && f.commitFails ==>
      && r.response == CommitFailed
      && |r.trace| == 5 && r.trace[3] == CommitCall(true)
    // the rest of the table, and non-negativity of account 1
    ensures OthersUnchanged(s.committed, r.store.committed)
    ensures TheAccount in s.committed && s.committed[TheAccount] >= 0 ==> r.store.committed[TheAccount] >= 0
  {
    match c.body
    case Malformed => Run(InvalidJson, s, [])
    case Parsed(_, amount) =>
      if amount < 0 then Run(NegativeAmount, s, [])
      else if RoleRejected(RoleOf(c)) then Run(AccessDenied, s, [])
      else
        var begun := Begin(s, f.beginFails);
        if begun.result.Err? then Run(BeginFailed, begun.store, [BeginCall(f.beginFails)])
        else
          var inner := Transact(RoleOf(c).value, amount, begun.store, f);
          BracketDisciplined(inner.trace);
          // the deferred tx.Rollback runs on every return after a successful begin
          Run(inner.response, Rollback(inner.store), [BeginCall(f.beginFails)] + inner.trace + [RollbackCall])
  }

  /** The store a request leaves behind is exactly the effect of the calls it
      recorded: the handler reaches the store through those calls only. */
  lemma HandlerTraceReplays(c: Context, s: Ledger, f: Oracle)
    ensures Replay(s, HandleBankRequest(c, s, f).trace) == HandleBankRequest(c, s, f).store
  {
    var r := HandleBankRequest(c, s, f);
    if Admitted(c) && !f.beginFails {
      var begun := Begin(s, false);
      var inner := Transact(RoleOf(c).value, c.body.amount, begun.store, f);
      assert r.trace == [BeginCall(false)] + inner.trace + [RollbackCall];
      ReplayAppend(s, [BeginCall(false)] + inner.trace, [RollbackCall]);
      ReplayAppend(s, [BeginCall(false)], inner.trace);
      TransactReplays(RoleOf(c).value, c.body.amount, begun.store, f);
    }
  }

  /** The part of the handler inside the transaction reaches the store only
      through the calls it records. */
  lemma TransactReplays(role: string, amount: int, s: Ledger, f: Oracle)
    requires s.status == Open
    ensures Replay(s, Transact(role, amount, s, f).trace) == Transact(role, amount, s, f).store
  {
    var t := Transact(role, amount, s, f).trace;
    var s1 := Effect(s, t[0]);
    assert Replay(s, t) == Replay(s1, t[1..]);
    if |t| >= 2 {
      var s2 := Effect(s1, t[1]);
      assert Replay(s1, t[1..]) == Replay(s2, t[2..]);
      if |t| == 3 {
        assert Replay(s2, t[2..]) == Replay(Effect(s2, t[2]), t[3..]);
      }
    }
  }
}
