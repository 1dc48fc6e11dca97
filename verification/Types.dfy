/** Values shared by the engine's modules (src/Order.h, src/OrderQueue.h). Prices and
    quantities are exact reals. */
module Types {
  datatype Option<+T> = None | Some(value: T)

  datatype Side = BUY | SELL {
    /** The side of the book that an aggressor on this side consumes. */
    function Opposite(): (r: Side)
      ensures r != this
    {
      if BUY? then SELL else BUY
    }
  }

  datatype OrderType = LIMIT | MARKET

  datatype Trade = Trade(aggressorId: nat, passiveId: nat, price: real, quantity: real)

  datatype IncomingOrder = IncomingOrder(
    traderId: string, orderId: string, side: Side, kind: OrderType, price: real, qty: real)

  function Min(a: real, b: real): real { if b < a then b else a }
}
