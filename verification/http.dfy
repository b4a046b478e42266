/** The parts of the HTTP framework the balance service touches: the request
    context, the bound request body, the response, and the run of one request
    against the store. */
module Http {
  import opened Models
  import opened Store

  datatype Option<T> = None | Some(value: T)

  const StatusOK: int := 200
  const StatusBadRequest: int := 400
  const StatusForbidden: int := 403
  const StatusInternalServerError: int := 500

  const Admin: string := "admin"
  const Client: string := "client"

  /** The two roles the service recognises. */
  predicate IsKnownRole(role: string)
  {
    role == Admin || role == Client
  }

  /** The JSON body `{"id": …, "sum": …}` after binding, or a body that does
      not bind. */
  datatype Body = Malformed | Parsed(id: int, amount: int)

  /** A request context: the `User-Role` header (empty when absent), the body,
      and the per-request values set by middleware. */
  datatype Context = Context(roleHeader: string, body: Body, values: map<string, string>)
  {
    function Get(key: string): (v: Option<string>)
      ensures v.Some? <==> key in values
      ensures v.Some? ==> v.value == values[key]
    {
      if key in values then Some(values[key]) else None
    }

    function Set(key: string, value: string): (c: Context)
      ensures c.Get(key) == Some(value)
      ensures forall k | k != key :: c.Get(k) == Get(k)
      ensures c.roleHeader == roleHeader && c.body == body
    {
      this.(values := values[key := value])
    }
  }

  /** A `200` with the updated account, or an HTTP error with its message. */
  datatype Response = Success(account: Account) | HttpError(code: int, message: string)
  {
    function Status(): int
    {
      if Success? then StatusOK else code
    }
  }

  const InvalidJson: Response := HttpError(StatusBadRequest, "invalid JSON")
  const NegativeAmount: Response := HttpError(StatusBadRequest, "Negative values are not allowed")
  const AccessDenied: Response := HttpError(StatusForbidden, "access denied")
  const BeginFailed: Response := HttpError(StatusInternalServerError, "failed to begin transaction")
  const DatabaseError: Response := HttpError(StatusInternalServerError, "database error")
  const InsufficientFunds: Response := HttpError(StatusForbidden, "Insufficient funds")
  const UpdateFailed: Response := HttpError(StatusInternalServerError, "failed to update account")
  const CommitFailed: Response := HttpError(StatusInternalServerError, "failed to commit transaction")

  /** One request served: its response, the store it leaves, and the store
      calls it made, in order. */
  datatype Run = Run(response: Response, store: Ledger, trace: seq<Call>)
}
