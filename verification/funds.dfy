/** Fund availability (`Trading.GetAvailableCash`): the broker's tradeable
    cash minus the value reserved by open buy orders. */
module Funds {
  import opened Wrappers
  import opened Data
  import Lists

  /** What an order adds to the reserved value when its price entry exists
      but holds no price (`?? 999999m`). It is NOT scaled by the quantity:
      `q * null` is null, and the coalescing replaces the whole product. */
  const UnpricedSentinel: Money := 999999.0

  /** `GetLastPrices`: last price per asset id; an id may map to no price. */
  type PriceMap = map<string, Option<Money>>

  /** The collaborator replies GetAvailableCash reads. */
  datatype Account = Account(
    tradeableCash: Option<Money>,       // GetTradeableCash; None when not a decimal
    openBuyOrders: Option<seq<Order>>,  // GetOrders_OpenBuy; None when not a list
    catalogue: seq<Asset>,              // GetAssets
    prices: Option<PriceMap>)           // GetLastPrices; None when null

  /** The first asset in the list whose symbol is `symbol`, as the
      lookup by symbol in `Trading.GetAvailableCash` finds it. */
  function AssetFor(assets: seq<Asset>, symbol: string): Option<Asset>
  {
    Lists.Find(assets, (a: Asset) => a.symbol == symbol)
  }

  /** The symbols the orders refer to. */
  function Symbols(orders: seq<Order>): set<string>
  {
    set i | 0 <= i < |orders| :: orders[i].symbol
  }

  /** The catalogue cut down to assets some order refers to. */
  function Referenced(catalogue: seq<Asset>, orders: seq<Order>): seq<Asset>
  {
    Lists.Filter(catalogue, (a: Asset) => a.symbol in Symbols(orders))
  }

  /** An order can be valued: its symbol names an asset and the price map
      has a key for that asset's id. */
  predicate Resolvable(o: Order, assets: seq<Asset>, prices: Option<PriceMap>)
  {
    var a := AssetFor(assets, o.symbol);
    a.Some? && prices.Some? && a.value.id in prices.value
  }

  /** The value one resolvable order reserves. */
  function Mark(o: Order, assets: seq<Asset>, prices: Option<PriceMap>): Money
    requires Resolvable(o, assets, prices)
  {
    match prices.value[AssetFor(assets, o.symbol).value.id]
    case Some(p) => o.quantity as real * p
    case None => UnpricedSentinel
  }

  /** Total value reserved by `orders`; None as soon as one cannot be valued. */
  function MarkedValue(orders: seq<Order>, assets: seq<Asset>, prices: Option<PriceMap>): Option<Money>
  {
    if |orders| == 0 then Some(0.0)
    else if !Resolvable(orders[0], assets, prices) then None
    else match MarkedValue(orders[1..], assets, prices)
      case None => None
      case Some(rest) => Some(Mark(orders[0], assets, prices) + rest)
  }

  /** The reserved value is known exactly when every order can be valued. */
  lemma {:induction false} MarkedValueKnownIff(orders: seq<Order>, assets: seq<Asset>, prices: Option<PriceMap>)
    ensures MarkedValue(orders, assets, prices).Some? <==>
              forall i :: 0 <= i < |orders| ==> Resolvable(orders[i], assets, prices)
  {
    if |orders| > 0 {
      MarkedValueKnownIff(orders[1..], assets, prices);
      forall i | 0 < i < |orders|
        ensures Resolvable(orders[i], assets, prices) == Resolvable(orders[1..][i - 1], assets, prices)
      {
      }
    }
  }

  /** Reference definition of the available cash, stated on the whole
      catalogue: tradeable cash minus the reserved value, or None when the
      cash, the order list or any order's valuation is unknown. */
  function AvailableCash(acct: Account): (r: Option<Money>)
    ensures acct.tradeableCash.None? || acct.openBuyOrders.None? ==> r.None?
    ensures acct.tradeableCash.Some? && acct.openBuyOrders.Some? ==>
              (r.None? <==> exists i :: 0 <= i < |acct.openBuyOrders.value|
                                        && !Resolvable(acct.openBuyOrders.value[i], acct.catalogue, acct.prices))
    ensures acct.tradeableCash.Some? && acct.openBuyOrders == Some([]) ==> r == acct.tradeableCash
  {
    if acct.tradeableCash.None? || acct.openBuyOrders.None? then None
    else
      MarkedValueKnownIff(acct.openBuyOrders.value, acct.catalogue, acct.prices);
      match MarkedValue(acct.openBuyOrders.value, acct.catalogue, acct.prices)
      case None => None
      case Some(m) => Some(acct.tradeableCash.value - m)
  }

  /** An order's asset is the same whether it is looked up in the referenced
      part of the catalogue or in all of it. */
  lemma ReferencedAssetFor(catalogue: seq<Asset>, orders: seq<Order>, i: nat)
    requires i < |orders|
    ensures AssetFor(Referenced(catalogue, orders), orders[i].symbol) == AssetFor(catalogue, orders[i].symbol)
  {
    var keep := (a: Asset) => a.symbol in Symbols(orders);
    var p := (a: Asset) => a.symbol == orders[i].symbol;
    assert orders[i].symbol in Symbols(orders);
    Lists.FindThroughFilter(catalogue, keep, p);
  }

  /** Appending a resolvable order adds its mark to the reserved value. */
  lemma {:induction false} MarkedValueSnoc(orders: seq<Order>, o: Order, assets: seq<Asset>, prices: Option<PriceMap>)
    requires Resolvable(o, assets, prices)
    ensures MarkedValue(orders + [o], assets, prices) ==
              match MarkedValue(orders, assets, prices)
              case None => None
              case Some(m) => Some(m + Mark(o, assets, prices))
  {
    if |orders| == 0 {
      assert orders + [o] == [o];
      assert [o][1..] == [];
    } else {
      assert (orders + [o])[1..] == orders[1..] + [o];
      MarkedValueSnoc(orders[1..], o, assets, prices);
    }
  }

  /** Valuing an order against the referenced part of the catalogue gives
      the same answer as valuing it against all of it. */
  lemma ReferencedValuation(catalogue: seq<Asset>, orders: seq<Order>, i: nat, prices: Option<PriceMap>)
    requires i < |orders|
    ensures Resolvable(orders[i], Referenced(catalogue, orders), prices) == Resolvable(orders[i], catalogue, prices)
    ensures Resolvable(orders[i], catalogue, prices) ==>
              Mark(orders[i], Referenced(catalogue, orders), prices) == Mark(orders[i], catalogue, prices)
  {
    ReferencedAssetFor(catalogue, orders, i);
  }

  /** A loop step that meets an order which cannot be valued against the
      referenced part of the catalogue: the whole reserved value is unknown. */
  lemma ScanStepUnknown(orders: seq<Order>, i: nat, catalogue: seq<Asset>, prices: Option<PriceMap>)
    requires i < |orders|
    requires !Resolvable(orders[i], Referenced(catalogue, orders), prices)
    ensures MarkedValue(orders, catalogue, prices).None?
  {
    ReferencedValuation(catalogue, orders, i, prices);
    MarkedValueKnownIff(orders, catalogue, prices);
  }

  /** A loop step that values its order against the referenced part of the
      catalogue: the total over the prefix grows by that order's mark. */
  lemma ScanStepKnown(orders: seq<Order>, i: nat, catalogue: seq<Asset>, prices: Option<PriceMap>, marked: Money)
    requires i < |orders|
    requires MarkedValue(orders[..i], catalogue, prices) == Some(marked)
    requires Resolvable(orders[i], Referenced(catalogue, orders), prices)
    ensures MarkedValue(orders[..i + 1], catalogue, prices)
            == Some(marked + Mark(orders[i], Referenced(catalogue, orders), prices))
  {
    ReferencedValuation(catalogue, orders, i, prices);
    assert orders[..i + 1] == orders[..i] + [orders[i]];
    MarkedValueSnoc(orders[..i], orders[i], catalogue, prices);
  }

  /** `Trading.GetAvailableCash`, shaped as the C# method: two fetch
      checks, then one pass over the orders with a running total and an
      early exit. */
  method GetAvailableCash(acct: Account) returns (r: Option<Money>)
    ensures r == AvailableCash(acct)
  {
    if acct.tradeableCash.None? {
      return None;
    }
    var cash := acct.tradeableCash.value;
    if acct.openBuyOrders.None? {
      return None;
    }
    var orders := acct.openBuyOrders.value;
    var marked: Money := 0.0;
    var assets := Referenced(acct.catalogue, orders);
    var i := 0;
    assert orders[..0] == [];
    while i < |orders|
      invariant 0 <= i <= |orders|
      invariant MarkedValue(orders[..i], acct.catalogue, acct.prices) == Some(marked)
    {
      if !Resolvable(orders[i], assets, acct.prices) {
        ScanStepUnknown(orders, i, acct.catalogue, acct.prices);
        return None;
      }
      ScanStepKnown(orders, i, acct.catalogue, acct.prices, marked);
      marked := marked + Mark(orders[i], assets, acct.prices);
      i := i + 1;
    }
    assert orders[..i] == orders;
    return Some(cash - marked);
  }

  /** With non-negative quantities and prices, every reservation is
      non-negative. */
  lemma {:induction false} MarkedValueNonNegative(orders: seq<Order>, assets: seq<Asset>, prices: Option<PriceMap>)
    requires forall i :: 0 <= i < |orders| ==> orders[i].quantity >= 0
    requires prices.Some? ==> forall id :: id in prices.value && prices.value[id].Some? ==> prices.value[id].value >= 0.0
    ensures MarkedValue(orders, assets, prices).Some? ==> MarkedValue(orders, assets, prices).value >= 0.0
  {
    if |orders| > 0 && Resolvable(orders[0], assets, prices) {
      MarkedValueNonNegative(orders[1..], assets, prices);
      var id := AssetFor(assets, orders[0].symbol).value.id;
      match prices.value[id]
      case Some(p) =>
        assert p >= 0.0;
        assert orders[0].quantity as real >= 0.0;
        assert orders[0].quantity as real * p >= 0.0;
      case None =>
    }
  }

  /** Open buy orders can only reduce the cash deemed available. */
  lemma ReservationsNeverAddCash(acct: Account)
    requires acct.openBuyOrders.Some? ==> forall i :: 0 <= i < |acct.openBuyOrders.value| ==> acct.openBuyOrders.value[i].quantity >= 0
    requires acct.prices.Some? ==> forall id :: id in acct.prices.value && acct.prices.value[id].Some? ==> acct.prices.value[id].value >= 0.0
    ensures AvailableCash(acct).Some? ==> AvailableCash(acct).value <= acct.tradeableCash.value
  {
    if acct.openBuyOrders.Some? {
      MarkedValueNonNegative(acct.openBuyOrders.value, acct.catalogue, acct.prices);
    }
  }

  /** A single open order that cannot be valued makes the result unknown. */
  lemma SingleUnresolvableOrder(cash: Money, o: Order, catalogue: seq<Asset>, prices: Option<PriceMap>)
    requires !Resolvable(o, catalogue, prices)
    ensures AvailableCash(Account(Some(cash), Some([o]), catalogue, prices)).None?
  {
  }

  /** A single priced open order reserves quantity × price. */
  lemma SinglePricedOrder(cash: Money, o: Order, catalogue: seq<Asset>, prices: PriceMap, a: Asset, p: Money)
    requires AssetFor(catalogue, o.symbol) == Some(a)
    requires a.id in prices && prices[a.id] == Some(p)
    ensures AvailableCash(Account(Some(cash), Some([o]), catalogue, Some(prices))) == Some(cash - o.quantity as real * p)
  {
    assert [o][0] == o && [o][1..] == [];
    assert Resolvable(o, catalogue, Some(prices));
    assert Mark(o, catalogue, Some(prices)) == o.quantity as real * p;
    assert MarkedValue([o], catalogue, Some(prices)) == Some(o.quantity as real * p + 0.0);
  }

  /** A single open order whose price key holds no price reserves the
      sentinel, whatever its quantity. */
  lemma SingleUnpricedOrder(cash: Money, o: Order, catalogue: seq<Asset>, prices: PriceMap, a: Asset)
    requires AssetFor(catalogue, o.symbol) == Some(a)
    requires a.id in prices && prices[a.id].None?
    ensures AvailableCash(Account(Some(cash), Some([o]), catalogue, Some(prices))) == Some(cash - UnpricedSentinel)
  {
    assert [o][0] == o && [o][1..] == [];
    assert Resolvable(o, catalogue, Some(prices));
    assert MarkedValue([o], catalogue, Some(prices)) == Some(UnpricedSentinel + 0.0);
  }
}
