/**
 What a session is for: to be resumed, to be disconnected, or to end for good.
 */
module Intents {
  datatype Intent = Resume | Disconnect | Terminal

  /** Intent only ever climbs. */
  function IntentRank(i: Intent): nat {
    match i
    case Resume => 0
    case Disconnect => 1
    case Terminal => 2
  }
}
