/** Application data carried by the protocols; the numbered texts of the source are never empty. */
module Messages {
  datatype Data = Empty | Tx(n: nat) | Msg(n: nat)
}
