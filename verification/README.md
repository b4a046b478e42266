# bank-service balance handler, modelled in Dafny

The service has one route, `POST /bank`. A role gate sits in front of it and
checks the `User-Role` header. The handler then moves money on account 1. An
`admin` withdraws the requested `sum`, and is refused with "Insufficient funds"
when the balance is smaller. A `client` deposits it. The read, the write and the
commit run inside one database transaction, and a deferred rollback closes that
transaction on every exit.

This project models that protocol as pure functions over immutable data:

- `models.dfy` (`Models`): the `Account` row. Money is an integer count of minor units.
- `store.dfy` (`Store`): the abstract contract of `DBService`/`Transaction`. The store has a
  committed table, the open transaction's own copy of it, and a transaction status
  (none, open, committed, rolled back). A failure oracle (`Oracle`) decides whether
  `Begin`, `GetAccount`, `UpdateAccount` or `Commit` fails. Each store call is recorded as a
  `Call`. `Replay` re-performs a recorded call sequence. `Disciplined` is the transaction
  discipline, written as an independent predicate on call sequences.
- `http.dfy` (`Http`): the request context, the bound body, the responses with their status
  codes and messages, and `Run`. A `Run` is a response, the store afterwards and the calls made.
- `middleware.dfy` (`Middleware`): `UserRoleMiddleware`.
- `handler.dfy` (`Handler`): `HandleBankRequest`. The deferred `tx.Rollback` is applied to every
  return that follows a successful `Begin`.
- `server.dfy` (`Server`): the route wiring (gate, then handler). It also covers sessions, meaning
  requests served one after another. Lemmas proved by induction cover conservation of money,
  non-negativity, the frame on other accounts, and closed transactions. Two lemmas check concrete
  cases: the three cases of the handler's tests, and a few further examples.

## Model

| member | source | states |
|---|---|---|
| Store.Begin | internal/db/db.go:21-27 | a successful begin opens a transaction that sees exactly the committed table; a failed begin changes nothing; nothing becomes durable |
| Store.GetAccount | internal/db/db.go:50-58 | a read never changes the store; it returns the row with the requested id and its transaction-local balance; a missing row is NotFound, distinct from a backend fault |
| Store.UpdateAccount | internal/db/db.go:60-63 | a write changes only the given id's transaction-local balance; it never changes the committed table; a failed write changes nothing |
| Store.Commit | internal/db/db.go:34-36 | a successful commit publishes the transaction's table; a failed commit publishes nothing; either way the transaction is no longer open |
| Store.Rollback | internal/db/db.go:38-40 | rollback never changes the committed table and discards pending writes; on a committed or rolled-back transaction it does nothing |
| Store.ReplayWithoutCommitKeepsCommitted | internal/db/dbservice.go:17-23 | any sequence of store calls without a successful commit leaves the committed table unchanged |
| Middleware.Refuses | middleware/userRole.go:11-12 | the gate refuses exactly the headers other than "admin" and "client" (the empty header included) |
| Middleware.UserRoleMiddleware | middleware/userRole.go:9-19 | an unknown role gets 403 "access denied" with the store untouched, no store call and a result independent of `next`; a known role gets `next`'s answer on the context whose "role" is the header |
| Handler.Transact | internal/handler/handler.go:47-73 | inside the transaction the handler reads account 1 first, then may write, then may commit, and never begins or rolls back |
| Handler.HandleBankRequest | internal/handler/handler.go:21-77 | a bind failure (400), a negative amount (400) or a rejected role (403) means no store call; a failed begin means 500 and nothing else; a failed or missing read gives 500 "database error" followed only by the rollback, a failed write gives 500 "failed to update account" with no commit, and a failed commit gives 500 "failed to commit transaction"; a 500 happens exactly on these store failures; after a successful begin the calls are disciplined and end in exactly one rollback; the committed table changes only when read, write and commit all succeed; success gives old − amount (≥ 0) for admin and old + amount for client, on account 1; "Insufficient funds" happens exactly when an admin asks for more than the balance, and then there is no write and one rollback; other accounts are untouched; a non-negative balance stays non-negative |
| Handler.TransactReplays | internal/handler/handler.go:47-73 | the store after the in-transaction steps is exactly the effect of the calls they record |
| Handler.HandlerTraceReplays | internal/handler/handler.go:39-73 | the store a request leaves is exactly the replay of its recorded calls, so the handler reaches the store through those calls only |
| Server.Serve | cmd/main.go:47-50 | through the gate, "access denied" happens exactly when the header is not a known role, so any request the gate admits also passes the handler's role check; success changes account 1 by exactly −amount (admin) or +amount (client); failure changes nothing committed |
| Server.GateMatchesHandler | middleware/userRole.go:12 | the gate refuses a header exactly when the handler's role check (internal/handler/handler.go:34) would reject that role |
| Server.HandlerTestScenarios | internal/handler/handler_test.go:20-113 | the three tested cases: the handler called directly with no role in the context and a body that does not bind gives 400 "invalid JSON" with no store call, so binding comes before the role check (lines 20-52); role "guest" gives 403 "access denied" with no store call (lines 55-73); the handler called directly with role "admin", balance 100 and amount 150 gives 403 "Insufficient funds" after exactly begin, read of account 1 and one rollback, with no write and the balance still 100 (lines 76-113) |
| Server.BalanceExamples | internal/handler/handler.go:28-63 | further examples, not from the tests: from 100, admin 40 gives 60, client 40 gives 140, and amount −5 gives 400 before the store |
| Server.ServeAllConservesMoney | internal/handler/handler.go:53-73 | after any session, account 1 holds its opening balance plus the signed amounts of the successful requests, and nothing else |
| Server.ServeAllKeepsBalanceNonNegative | internal/handler/handler.go:54-63 | a non-negative balance stays non-negative through any session |
| Server.ServeAllLeavesOtherAccounts | internal/handler/handler.go:47-64 | no session adds, removes or changes any account other than account 1 |
| Server.ServeAllClosesTransactions | internal/handler/handler.go:45 | starting with no open transaction, no session leaves one open |

Behaviour of the code worth noting:

- The deferred `tx.Rollback` also runs after a failed commit and after a successful one. The
  model applies it on those paths too, where it does nothing.
- A missing row and a backend fault in `GetAccount` both become 500 "database error".
- The handler hard-codes account id 1 and ignores the request's `id`. The write goes to the id
  that the read returned.
- The handler checks the role again even behind the gate. A missing or unknown role in the
  context gives 403.
- Nothing checks that the stored balance is non-negative. Non-negativity is preserved only when
  it holds to begin with.

## Left out

- Monetary values are `float64` in the service. The model uses unbounded integers (minor units), so rounding, overflow to infinity and NaN are not modelled.
- JSON binding and response encoding are reduced to the body variants `Malformed` and `Parsed(id, amount)`. The response is the `Response` value, not the encoded JSON.
- Logging through zap is left out. It has no effect on the outcome.
- The pgx adapter and its SQL text are reduced to the abstract store contract in `Store`.
- The generated mocks are left out. They are test scaffolding.
- Process start-up, environment loading, the database pool and graceful shutdown in cmd/main.go are left out.
- Concurrency, isolation and row locking are left out. `GetAccount` is a plain `SELECT`, so no serialisation of concurrent withdrawals is claimed. Sessions are strictly sequential.
- The request context's cancellation and deadlines are left out.
- Store.Commit: a failed commit is modelled as publishing nothing. A commit whose error is returned after the database already applied it is not modelled. This can happen when the connection drops or the request context is cancelled while waiting for the reply. In that case the service answers 500 "failed to commit transaction" while the balance has changed. The failure clauses of Handler.HandleBankRequest and Server.Serve ("a failure changes nothing committed") hold only under this abstraction.
- Store.Rollback: the error it may return is not modelled, because the deferred call discards it.
- Middleware.UserRoleMiddleware: "`next` is invoked once" is stated as "the result is exactly `next`'s result". The number of invocations is not observable in a pure model.
- Http.Context.Get: the context holds only string values, so the handler's type assertion `.(string)` fails only when the key is absent.
