/** The role gate placed in front of every route. */
module Middleware {
  import opened Store
  import opened Http

  /** The refusal test on the `User-Role` header, as the gate writes it (an
      absent header reads as the empty string). */
  function Refuses(role: string): (refused: bool)
    ensures refused <==> !IsKnownRole(role)
  {
    role == "" || (role != Admin && role != Client)
  }

  /** `UserRoleMiddleware(next)` applied to a context: an unknown role is
      refused with 403 "access denied" before `next` runs (the result does not
      depend on `next`, the store is untouched and no store call is made); a
      known role is stored under the context key "role" and the answer is
      exactly that of `next`. */
  function UserRoleMiddleware(next: (Context, Ledger) -> Run, c: Context, s: Ledger): (r: Run)
    ensures !IsKnownRole(c.roleHeader) ==> r == Run(AccessDenied, s, [])
    ensures IsKnownRole(c.roleHeader) ==> r == next(c.Set("role", c.roleHeader), s)
  {
    if Refuses(c.roleHeader) then Run(AccessDenied, s, [])
    else next(c.Set("role", c.roleHeader), s)
  }
}
