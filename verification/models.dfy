/** The persistent entity of the service: one row of the `bank_account` table. */
module Models {

  /** An account row. Money is held in integer minor units (the service itself
      stores a floating-point number). */
  datatype Account = Account(id: int, balance: int)

  /** The only account the balance handler ever reads. */
  const TheAccount: int := 1
}
