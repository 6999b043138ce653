/** The client side enumerations of an order. */
module Enums {
  datatype Side = UNDEFINED | BUY | SELL

  datatype OrderType = UNDEFINED | MARKET | LIMIT

  datatype TimeInForce =
    | UNDEFINED | GFD | GTC | OPG | IOC | FOK | GTX | GTD | AT_THE_CLOSE
    | GOOD_THROUGH_CROSSING | AT_CROSSING | GOOD_FOR_TIME | GFA | GFM

  datatype MarginMode = UNDEFINED | ISOLATED | CROSS | PORTFOLIO

  datatype ExecutionInstruction =
    | UNDEFINED | PARTICIPATE_DO_NOT_INITIATE | CANCEL_IF_NOT_BEST | DO_NOT_INCREASE | DO_NOT_REDUCE

  datatype OrderStatus = UNDEFINED | WORKING | COMPLETED | CANCELED
}
