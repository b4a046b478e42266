/** The route wiring of the service (`POST /bank` behind the role gate) and
    what any sequence of requests served one after another does to the ledger. */
module Server {
  import opened Models
  import opened Store
  import opened Http
  import opened Middleware
  import opened Handler

  /** The signed change a successful request makes: an admin withdraws, a
      client deposits. */
  function Delta(role: string, amount: int): int
  {
    if role == Admin then -amount else amount
  }

  /** One request through the middleware and then the handler, on a fresh
      context that holds no values yet. */
  function Serve(header: string, body: Body, s: Ledger, f: Oracle): (r: Run)
    // the gate and the handler accept the same roles
    ensures r.response == AccessDenied <==> !IsKnownRole(header)
    ensures !IsKnownRole(header) ==> r.store == s && r.trace == []
    ensures Disciplined(r.trace)
    ensures !r.response.Success? ==> r.store.committed == s.committed
    ensures r.response.Success? ==>
      && body.Parsed? && body.amount >= 0 && IsKnownRole(header) && TheAccount in s.committed
      && r.response.account == Account(TheAccount, s.committed[TheAccount] + Delta(header, body.amount))
      && r.store.committed == s.committed[TheAccount := s.committed[TheAccount] + Delta(header, body.amount)]
    ensures OthersUnchanged(s.committed, r.store.committed)
    ensures TheAccount in s.committed && s.committed[TheAccount] >= 0 ==> r.store.committed[TheAccount] >= 0
    ensures s.status != Open ==> r.store.status != Open
  {
    UserRoleMiddleware((c, st) => HandleBankRequest(c, st, f), Context(header, body, map[]), s)
  }

  /** A request as it arrives, with the oracle for its store calls. */
  datatype Incoming = Incoming(header: string, body: Body, oracle: Oracle)

  /** The store after a session, and the response to each request in order. */
  datatype Session = Session(store: Ledger, responses: seq<Response>)

  /** Requests served one after another, each seeing the store the previous
      one left. */
  function ServeAll(s: Ledger, reqs: seq<Incoming>): (r: Session)
    ensures |r.responses| == |reqs|
    decreases |reqs|
  {
    if reqs == [] then Session(s, [])
    else
      var first := Serve(reqs[0].header, reqs[0].body, s, reqs[0].oracle);
      var rest := ServeAll(first.store, reqs[1..]);
      Session(rest.store, [first.response] + rest.responses)
  }

  /** The sum of the signed changes of the requests that succeeded. */
  function NetChange(reqs: seq<Incoming>, responses: seq<Response>): int
    requires |responses| == |reqs|
    decreases |reqs|
  {
    if reqs == [] then 0
    else
      var d := if responses[0].Success? && reqs[0].body.Parsed?
        then Delta(reqs[0].header, reqs[0].body.amount) else 0;
      d + NetChange(reqs[1..], responses[1..])
  }

  /** Money is neither created nor destroyed: after any session, account 1
      holds its opening balance plus exactly the signed amounts of the
      requests that succeeded. */
  lemma {:induction false} ServeAllConservesMoney(s: Ledger, reqs: seq<Incoming>)
    requires TheAccount in s.committed
    ensures TheAccount in ServeAll(s, reqs).store.committed
    ensures ServeAll(s, reqs).store.committed[TheAccount]
         == s.committed[TheAccount] + NetChange(reqs, ServeAll(s, reqs).responses)
    decreases |reqs|
  {
    if reqs != [] {
      var first := Serve(reqs[0].header, reqs[0].body, s, reqs[0].oracle);
      ServeAllConservesMoney(first.store, reqs[1..]);
      var r := ServeAll(s, reqs);
      assert r.responses[0] == first.response;
      assert r.responses[1..] == ServeAll(first.store, reqs[1..]).responses;
    }
  }

  /** A non-negative balance stays non-negative through any session. */
  lemma {:induction false} ServeAllKeepsBalanceNonNegative(s: Ledger, reqs: seq<Incoming>)
    requires TheAccount in s.committed && s.committed[TheAccount] >= 0
    ensures TheAccount in ServeAll(s, reqs).store.committed
    ensures ServeAll(s, reqs).store.committed[TheAccount] >= 0
    decreases |reqs|
  {
    if reqs != [] {
      var first := Serve(reqs[0].header, reqs[0].body, s, reqs[0].oracle);
      ServeAllKeepsBalanceNonNegative(first.store, reqs[1..]);
    }
  }

  /** No session touches any account other than account 1. */
  lemma {:induction false} ServeAllLeavesOtherAccounts(s: Ledger, reqs: seq<Incoming>)
    ensures OthersUnchanged(s.committed, ServeAll(s, reqs).store.committed)
    decreases |reqs|
  {
    if reqs != [] {
      var first := Serve(reqs[0].header, reqs[0].body, s, reqs[0].oracle);
      ServeAllLeavesOtherAccounts(first.store, reqs[1..]);
    }
  }

  /** Starting with no transaction open, no session leaves one open. */
  lemma {:induction false} ServeAllClosesTransactions(s: Ledger, reqs: seq<Incoming>)
    requires s.status != Open
    ensures ServeAll(s, reqs).store.status != Open
    decreases |reqs|
  {
    if reqs != [] {
      var first := Serve(reqs[0].header, reqs[0].body, s, reqs[0].oracle);
      ServeAllClosesTransactions(first.store, reqs[1..]);
    }
  }

  /** The gate and the handler's own role test agree: a header the gate
      refuses is exactly a role the handler would reject. */
  lemma GateMatchesHandler(header: string)
    ensures Refuses(header) <==> RoleRejected(Some(header))
  {
  }

  /** A store where account 1 holds 100, and an oracle under which no store
      call fails. */
  const Ledger100: Ledger := Ledger(map[TheAccount := 100], map[], NoTx)

  const NoFaults: Oracle := Oracle(false, false, false, false)

  /** The three cases of the handler's tests: a body that does not bind is a
      400 before the role is looked at, on the handler called directly with no
      role in the context and no store call (TestHandleBankRequest_InvalidJSON);
      the role "guest" is refused by the gate with
      "access denied" before the store (TestHandleBankRequest_InvalidRole); an
      admin withdrawing 150 from 100, on the handler called directly with "role"
      set to "admin", is refused with "Insufficient funds" after a begin and a
      read of account 1, with one rollback, no write, and 100 left
      (TestHandleBankRequest_InsufficientFunds). */
  lemma HandlerTestScenarios()
    ensures HandleBankRequest(Context("", Malformed, map[]), Ledger100, NoFaults) == Run(InvalidJson, Ledger100, [])
    ensures Serve("guest", Parsed(1, 100), Ledger100, NoFaults) == Run(AccessDenied, Ledger100, [])
    ensures var r := HandleBankRequest(Context(Admin, Parsed(1, 150), map["role" := Admin]), Ledger100, NoFaults);
      && r.response == InsufficientFunds && r.store.committed[TheAccount] == 100
      && r.trace == [BeginCall(false), GetCall(TheAccount, false), RollbackCall]
  {
  }

  /** Further examples, not taken from the tests: from 100, an admin
      withdrawing 40 leaves 60, a client depositing 40 leaves 140, and an
      amount of -5 is refused before the store. */
  lemma BalanceExamples()
    ensures Serve(Admin, Parsed(1, 40), Ledger100, NoFaults).response == Success(Account(TheAccount, 60))
    ensures Serve(Client, Parsed(1, 40), Ledger100, NoFaults).store.committed[TheAccount] == 140
    ensures Serve(Client, Parsed(1, -5), Ledger100, NoFaults) == Run(NegativeAmount, Ledger100, [])
  {
  }
}
