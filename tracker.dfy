/**
 * The trader's `orderId: string | null` field: what each order placement and the
 * cancel step do to it, and which exchange calls they issue on the way.
 */
module Tracker {
  import opened Wrappers
  import opened Exchange

  /** `if (this.orderId)`: an id is held when it is neither null nor the empty string. */
  predicate Held(orderId: Option<string>)
  {
    orderId.Some? && orderId.value != ""
  }

  /** The effect of one step: the new `orderId`, the calls issued, and whether the step returned normally. */
  datatype Effect = Effect(orderId: Option<string>, calls: seq<Call>, ok: bool)

  /**
   * placeBuyOrder, placeSellOrder and placeStopLossOrder: issue the order call; when it
   * settles, the new order's id replaces whatever was held; when it throws, `orderId` is untouched.
   */
  function Place(orderId: Option<string>, call: Call, reply: Reply<string>): (e: Effect)
    ensures e.calls == [call]
    ensures e.ok <==> reply.Ok?
    ensures e.ok ==> e.orderId == Some(reply.value)
    ensures !e.ok ==> e.orderId == orderId
  {
    match reply
    case Ok(id) => Effect(Some(id), [call], true)
    case Threw => Effect(orderId, [call], false)
  }

  /**
   * cancelOrder: only when an id is held, cancel it on the exchange and, once that settles, set
   * `orderId` to null. With nothing held it issues no call and changes nothing.
   */
  function CancelHeld(orderId: Option<string>, symbol: string, reply: Reply<()>): (e: Effect)
    ensures Held(orderId) ==> e.calls == [CancelRequest(orderId.value, symbol)]
    ensures !Held(orderId) ==> e == Effect(orderId, [], true)
    ensures e.ok ==> !Held(e.orderId)
    ensures Held(orderId) && e.ok ==> e.orderId == None
    ensures e.ok <==> !Held(orderId) || reply.Ok?
    ensures !e.ok ==> e.orderId == orderId
  {
    if Held(orderId) then
      match reply
      case Ok(_) => Effect(None, [CancelRequest(orderId.value, symbol)], true)
      case Threw => Effect(orderId, [CancelRequest(orderId.value, symbol)], false)
    else Effect(orderId, [], true)
  }

  /**
   * Two cancels in a row, the first returning normally: the second issues nothing, at most
   * one cancel reaches the exchange, and no id is held afterwards.
   */
  lemma CancelTwice(orderId: Option<string>, symbol: string, first: Reply<()>, second: Reply<()>)
    requires CancelHeld(orderId, symbol, first).ok
    ensures var e1 := CancelHeld(orderId, symbol, first);
            var e2 := CancelHeld(e1.orderId, symbol, second);
            e2 == Effect(e1.orderId, [], true) && |e1.calls + e2.calls| <= 1 && !Held(e2.orderId)
  {
  }

  /** Two placements in a row that both settle: the id of the later one is what is held. */
  lemma LastPlacementWins(orderId: Option<string>, c1: Call, c2: Call, id1: string, id2: string)
    ensures Place(Place(orderId, c1, Ok(id1)).orderId, c2, Ok(id2)).orderId == Some(id2)
  {
  }
}
