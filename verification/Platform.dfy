/** Names and small types shared by every component of the model. */
module Platform {
  /** Identifiers are only ever compared, so they are tokens here; NO_ID is the empty string. */
  datatype Id = NO_ID | Id(number: nat)
  type UserId = Id
  type TxId = Id
  type BetId = Id
  type CallId = nat
  type Time = int

  datatype Option<+T> = None | Some(value: T)

  datatype MarketStatus = Open | Suspended | Closed | Settled
}
