/** The daily decision cycle (`Trading.RunAutomation_Daily`): a freshness
    check with at most one refresh, three tri-state predicates, and at most
    one market order. */
module DailyCycle {
  import opened Wrappers
  import opened Data
  import Funds

  /** A `DateTime`, as its count of 100-nanosecond ticks on one UTC axis,
      the unit `DateTime.CompareTo` compares. */
  type Timestamp = int

  /** `new TimeSpan(1, 0, 0, 0)`: how far before now the last market close
      is assumed to be when the broker's clock query fails. */
  const OneDay: int := 864_000_000_000

  /** `new DateTime()` (DateTime.MinValue): what the validity lookup yields
      when no validity row exists or the database cannot be reached. */
  const MinTime: Timestamp := 0

  /** `Trading.OrderResult`: the broker's answer to an order submission. */
  datatype OrderResult = Success | Fail | FailInsufficientFunds

  /** The collaborator replies one cycle reads, in the order it reads them. */
  datatype World = World(
    now: Timestamp,                     // DateTime.UtcNow
    marketClose: Option<Timestamp>,     // GetTime_LastMarketClose; None when not a DateTime
    validity: Timestamp,                // first GetValidity_Daily
    validityAfterRefresh: Timestamp,    // GetValidity_Daily after Update_TSD and the pause
    entry: Option<bool>,                // ScalarQuery of the entry predicate
    exitGain: Option<bool>,             // ScalarQuery of the exit-on-gain predicate
    exitLoss: Option<bool>,             // ScalarQuery of the stop-loss predicate
    account: Funds.Account,             // what GetAvailableCash reads
    lastPrice: Option<Money>,           // GetLastPrice(asset).Close
    buyResult: OrderResult,             // PlaceOrder_BuyMarket
    sellResult: OrderResult)            // PlaceOrder_SellMarket

  /** How one cycle ends. */
  datatype Outcome =
    | NotFresh                             // data not newer than the last close
    | EvalError                            // some predicate unknown
    | Conflict                             // entry together with an exit
    | AlreadyHeld                          // buy signal, long position held
    | DuplicateOrder                       // buy signal, identical open buy order
    | CashUnknown                           // no margin, available cash unknown
    | PriceUnknown                         // no margin, last price unknown
    | Insufficient                         // no margin, cash below estimated cost
    | Buy(quantity: int, result: OrderResult)
    | NothingToSell                        // sell signal, nothing held
    | Sell(quantity: int, result: OrderResult)
    | NoTrigger                            // no signal

  /** Collaborator calls made, and the outcome. */
  datatype Trace = Trace(refreshes: nat, validityReads: nat, evaluations: nat, outcome: Outcome)

  predicate PlacesOrder(o: Outcome)
  {
    o.Buy? || o.Sell?
  }

  /** The last market close, or one day before now when it is unknown. */
  function LastClose(w: World): Timestamp
  {
    match w.marketClose
    case Some(t) => t
    case None => w.now - OneDay
  }

  /** The data predates the last close and must be refreshed. */
  predicate Stale(w: World)
  {
    w.validity < LastClose(w)
  }

  /** The validity the freshness decision rests on: the re-read one when a
      refresh was made, the first one otherwise. */
  function CheckedValidity(w: World): Timestamp
  {
    if Stale(w) then w.validityAfterRefresh else w.validity
  }

  /** The predicates are evaluated only on data strictly newer than the close. */
  predicate Fresh(w: World)
  {
    CheckedValidity(w) > LastClose(w)
  }

  /** A long position is held. */
  predicate Holds(position: Option<Position>)
  {
    position.Some? && position.value.quantity > 0
  }

  /** Estimated cost of buying the instruction's quantity at `price`. */
  function OrderCost(instr: Instruction, price: Money): Money
  {
    instr.quantity as real * price
  }

  /** Without margin, a buy needs known cash covering the known cost. */
  predicate Affordable(instr: Instruction, w: World)
  {
    var cash := Funds.AvailableCash(w.account);
    cash.Some? && w.lastPrice.Some? && cash.value >= OrderCost(instr, w.lastPrice.value)
  }

  /** The decision once the data is fresh. The C# method's third buy branch
      (no order and no long position) always holds after the first two, so
      it is the plain `else` here. */
  function Decide(instr: Instruction, position: Option<Position>, order: Option<Order>,
                  w: World, useMargin: bool): (o: Outcome)
    ensures o.Buy? ==> o.quantity == instr.quantity && !Holds(position) && order.None?
    ensures o.Buy? && !useMargin ==> Affordable(instr, w)
    ensures o.Sell? ==> Holds(position) && o.quantity == position.value.quantity
    ensures PlacesOrder(o) ==> w.entry.Some? && w.exitGain.Some? && w.exitLoss.Some?
  {
    if w.entry.None? || w.exitGain.None? || w.exitLoss.None? then EvalError
    else if w.entry.value && (w.exitGain.value || w.exitLoss.value) then Conflict
    else if w.entry.value then
      if Holds(position) then AlreadyHeld
      else if order.Some? then DuplicateOrder
      else
        var cash := Funds.AvailableCash(w.account);
        if !useMargin && cash.None? then CashUnknown
        else if !useMargin && w.lastPrice.None? then PriceUnknown
        else if !useMargin && cash.value < OrderCost(instr, w.lastPrice.value) then Insufficient
        else Buy(instr.quantity, w.buyResult)
    else if w.exitGain.value || w.exitLoss.value then
      if Holds(position) then Sell(position.value.quantity, w.sellResult) else NothingToSell
    else NoTrigger
  }

  /** `RunAutomation_Daily` for one instruction, with its matched position
      and matched open buy order (None for null). */
  function RunDaily(instr: Instruction, position: Option<Position>, order: Option<Order>,
                    w: World, useMargin: bool): (t: Trace)
    ensures t.refreshes <= 1 && t.validityReads == t.refreshes + 1
    ensures t.evaluations == 0 || t.evaluations == 3
    ensures t.evaluations == 0 <==> t.outcome == NotFresh
    ensures t.evaluations == 3 <==> Fresh(w)
    ensures t.outcome.Buy? ==> t.outcome.quantity == instr.quantity && !Holds(position) && order.None?
    ensures t.outcome.Sell? ==> Holds(position) && t.outcome.quantity == position.value.quantity
  {
    var refreshes := if Stale(w) then 1 else 0;
    if Fresh(w) then Trace(refreshes, refreshes + 1, 3, Decide(instr, position, order, w, useMargin))
    else Trace(refreshes, refreshes + 1, 0, NotFresh)
  }

  /** Data older than the close: exactly one refresh and one re-read happen
      before anything is evaluated; if the re-read is still not newer than
      the close, nothing is evaluated and no order is placed. */
  lemma StaleDataRefreshedOnce(instr: Instruction, position: Option<Position>, order: Option<Order>,
                               w: World, useMargin: bool)
    requires w.validity < LastClose(w)
    ensures RunDaily(instr, position, order, w, useMargin).refreshes == 1
    ensures RunDaily(instr, position, order, w, useMargin).validityReads == 2
    ensures w.validityAfterRefresh <= LastClose(w) ==>
              RunDaily(instr, position, order, w, useMargin) == Trace(1, 2, 0, NotFresh)
  {
  }

  /** The refresh happens exactly when the first validity predates the close. */
  lemma RefreshIff(instr: Instruction, position: Option<Position>, order: Option<Order>,
                   w: World, useMargin: bool)
    ensures RunDaily(instr, position, order, w, useMargin).refreshes == 1 <==> w.validity < LastClose(w)
  {
  }

  /** Validity equal to the close: neither a refresh nor an evaluation. */
  lemma ValidityAtCloseIsIdle(instr: Instruction, position: Option<Position>, order: Option<Order>,
                              w: World, useMargin: bool)
    requires w.validity == LastClose(w)
    ensures RunDaily(instr, position, order, w, useMargin) == Trace(0, 1, 0, NotFresh)
  {
  }

  /** A missing validity row (the minimal timestamp) always triggers the
      refresh, unless the close itself is the minimal timestamp. */
  lemma MissingValidityIsStale(instr: Instruction, position: Option<Position>, order: Option<Order>,
                               w: World, useMargin: bool)
    requires w.validity == MinTime && LastClose(w) > MinTime
    ensures RunDaily(instr, position, order, w, useMargin).refreshes == 1
  {
  }

  /** With the broker's clock unavailable, data counts as stale exactly when
      it is more than a day old. */
  lemma UnknownCloseIsOneDayBack(w: World)
    requires w.marketClose.None?
    ensures Stale(w) <==> w.validity < w.now - OneDay
  {
  }

  /** A buy happens exactly when the data is fresh, entry is the only
      signal, nothing is held, no identical open buy order exists and,
      without margin, the known cash covers the known cost; it is always
      for the instruction's quantity. */
  lemma BuyIff(instr: Instruction, position: Option<Position>, order: Option<Order>,
               w: World, useMargin: bool)
    ensures var o := RunDaily(instr, position, order, w, useMargin).outcome;
            o.Buy? <==> Fresh(w) && w.entry == Some(true) && w.exitGain == Some(false)
                        && w.exitLoss == Some(false) && !Holds(position) && order.None?
                        && (useMargin || Affordable(instr, w))
    ensures var o := RunDaily(instr, position, order, w, useMargin).outcome;
            o.Buy? ==> o == Buy(instr.quantity, w.buyResult)
  {
  }

  /** A sell happens exactly when the data is fresh, all three predicates
      are known, entry is false, some exit is true and a long position is
      held; it is always for the held quantity. */
  lemma SellIff(instr: Instruction, position: Option<Position>, order: Option<Order>,
                w: World, useMargin: bool)
    ensures var o := RunDaily(instr, position, order, w, useMargin).outcome;
            o.Sell? <==> Fresh(w) && w.entry == Some(false) && w.exitGain.Some? && w.exitLoss.Some?
                         && (w.exitGain.value || w.exitLoss.value) && Holds(position)
    ensures var o := RunDaily(instr, position, order, w, useMargin).outcome;
            o.Sell? ==> o == Sell(position.value.quantity, w.sellResult)
  {
  }

  /** Unknown or conflicting signals never lead to an order. */
  lemma BadSignalsPlaceNoOrder(instr: Instruction, position: Option<Position>, order: Option<Order>,
                               w: World, useMargin: bool)
    requires Fresh(w)
    ensures w.entry.None? || w.exitGain.None? || w.exitLoss.None? ==>
              RunDaily(instr, position, order, w, useMargin).outcome == EvalError
    ensures w.entry == Some(true) && w.exitGain.Some? && w.exitLoss.Some?
            && (w.exitGain.value || w.exitLoss.value) ==>
              RunDaily(instr, position, order, w, useMargin).outcome == Conflict
    ensures w.entry == Some(false) && w.exitGain == Some(false) && w.exitLoss == Some(false) ==>
              RunDaily(instr, position, order, w, useMargin).outcome == NoTrigger
  {
  }

  /** Holding 7 shares under an instruction for 10, an exit-on-gain signal
      sells exactly 7. */
  lemma SellsHeldNotInstructedQuantity(instr: Instruction, p: Position, w: World)
    requires instr.quantity == 10 && p.quantity == 7
    requires Fresh(w) && w.entry == Some(false) && w.exitGain == Some(true) && w.exitLoss.Some?
    ensures RunDaily(instr, Some(p), None, w, false).outcome == Sell(7, w.sellResult)
  {
  }

  /** A zero position and a stop-loss signal place no sell order. */
  lemma NoHoldingNoSell(instr: Instruction, p: Position, w: World)
    requires p.quantity == 0
    requires Fresh(w) && w.entry == Some(false) && w.exitGain.Some? && w.exitLoss == Some(true)
    ensures RunDaily(instr, Some(p), None, w, false).outcome == NothingToSell
  {
  }

  /** Cash 1000 and one open buy order that cannot be valued (no asset, or
      no price entry for it): the available cash is unknown, and a buy
      signal without margin is blocked. */
  lemma UnresolvableReservationBlocksBuy(instr: Instruction, o: Order, w: World)
    requires w.account.tradeableCash == Some(1000.0) && w.account.openBuyOrders == Some([o])
    requires !Funds.Resolvable(o, w.account.catalogue, w.account.prices)
    requires Fresh(w) && w.entry == Some(true) && w.exitGain == Some(false) && w.exitLoss == Some(false)
    ensures Funds.AvailableCash(w.account).None?
    ensures RunDaily(instr, None, None, w, false).outcome == CashUnknown
  {
  }
}
