/**
 * The rebalancing planner: the trades that move the current holdings to a
 * set of target weights. Holdings are collected from the positions, every
 * ticker that is held or targeted is priced, and a BUY or SELL is proposed
 * when the gap to the target is large enough to be worth trading. The
 * proposals are returned largest amount first.
 */
module Rebalancing {
  import opened Numerics
  import opened Wrappers
  import opened Models
  import opened Sorting

  datatype Action = Buy | Sell

  /** One proposed trade; `shares` and `amount` are magnitudes, the direction is `action`. */
  datatype Trade = Trade(
    ticker: string,
    action: Action,
    shares: real,
    amount: real,
    price: real,
    currentWeight: real,
    targetWeight: real)

  /** Python's float division by zero: `current_val / total_value` raises when a trade is proposed. */
  datatype RebalanceError = ZeroTotalValue

  /** `d.get(key, 0)`. */
  function Lookup(m: map<string, real>, key: string): (r: real)
    ensures key in m ==> r == m[key]
    ensures key !in m ==> r == 0.0
  {
    if key in m then m[key] else 0.0
  }

  // ----- Holdings -----

  /** The holdings map built position by position: a later position overwrites an earlier one. */
  function Holdings(positions: seq<Position>): map<string, real>
  {
    if |positions| == 0 then map[]
    else
      var last := positions[|positions| - 1];
      Holdings(positions[..|positions| - 1])[last.ticker := last.quantity]
  }

  /** The held tickers are exactly the tickers of the positions. */
  lemma {:induction false} HoldingsKeys(positions: seq<Position>, t: string)
    ensures t in Holdings(positions) <==> exists i :: 0 <= i < |positions| && positions[i].ticker == t
  {
    if |positions| > 0 {
      var init := positions[..|positions| - 1];
      HoldingsKeys(init, t);
      if t in Holdings(init) {
        var i :| 0 <= i < |init| && init[i].ticker == t;
        assert positions[i].ticker == t;
      }
      if exists i :: 0 <= i < |positions| && positions[i].ticker == t {
        var i :| 0 <= i < |positions| && positions[i].ticker == t;
        if i < |init| {
          assert init[i].ticker == t;
        }
      }
    }
  }

  /** When the same ticker is listed more than once, the quantity of its last position wins. */
  lemma {:induction false} HoldingsLastWins(positions: seq<Position>, i: nat)
    requires i < |positions|
    requires forall j :: i < j < |positions| ==> positions[j].ticker != positions[i].ticker
    ensures positions[i].ticker in Holdings(positions)
    ensures Holdings(positions)[positions[i].ticker] == positions[i].quantity
  {
    var init := positions[..|positions| - 1];
    if i < |positions| - 1 {
      assert forall j :: i < j < |init| ==> init[j] == positions[j];
      HoldingsLastWins(init, i);
      assert init[i] == positions[i];
    }
  }

  /** The holdings loop: one map update per position, in input order. */
  method HoldingsOf(positions: seq<Position>) returns (holdings: map<string, real>)
    ensures holdings == Holdings(positions)
  {
    holdings := map[];
    var i := 0;
    while i < |positions|
      invariant 0 <= i <= |positions|
      invariant holdings == Holdings(positions[..i])
    {
      assert positions[..i + 1][..i] == positions[..i];
      holdings := holdings[positions[i].ticker := positions[i].quantity];
      i := i + 1;
    }
    assert positions[..|positions|] == positions;
  }

  // ----- One ticker -----

  /** Target value minus current value, with a missing holding, target or price counting as 0. */
  function DiffValue(t: string, holdings: map<string, real>, targets: map<string, real>,
                     total: real, prices: map<string, real>): real
  {
    total * Lookup(targets, t) - Lookup(holdings, t) * Lookup(prices, t)
  }

  /**
   * A ticker gets a trade when it has a non-zero price and the gap to its
   * target is more than $10 and at least 0.1 shares.
   */
  predicate Emits(t: string, holdings: map<string, real>, targets: map<string, real>,
                  total: real, prices: map<string, real>)
  {
    Lookup(prices, t) != 0.0
    && Abs(DiffValue(t, holdings, targets, total, prices)) > 10.0
    && Abs(DiffValue(t, holdings, targets, total, prices) / Lookup(prices, t)) >= 0.1
  }

  /** The trade proposed for a ticker that passes the thresholds. */
  function TradeOf(t: string, holdings: map<string, real>, targets: map<string, real>,
                   total: real, prices: map<string, real>): (trade: Trade)
    requires Emits(t, holdings, targets, total, prices) && total != 0.0
    ensures trade.ticker == t && trade.price == Lookup(prices, t)
    ensures trade.amount > 10.0 && trade.shares >= 0.1
    ensures trade.amount == Abs(total * Lookup(targets, t) - Lookup(holdings, t) * Lookup(prices, t))
    ensures trade.shares == Abs((total * Lookup(targets, t) - Lookup(holdings, t) * Lookup(prices, t)) / Lookup(prices, t))
    ensures trade.action == Buy <==> total * Lookup(targets, t) > Lookup(holdings, t) * Lookup(prices, t)
    ensures trade.currentWeight * total == Lookup(holdings, t) * Lookup(prices, t)
    ensures trade.targetWeight == Lookup(targets, t)
  {
    var price := Lookup(prices, t);
    var diff := DiffValue(t, holdings, targets, total, prices);
    Trade(t, if diff > 0.0 then Buy else Sell, Abs(diff / price), Abs(diff), price,
          Lookup(holdings, t) * price / total, Lookup(targets, t))
  }

  /** The quantity change a trade stands for: positive for a buy, negative for a sell. */
  function SignedShares(trade: Trade): real
  {
    if trade.action == Buy then trade.shares else -trade.shares
  }

  /** With a positive price, carrying out the proposed trade lands exactly on the target value. */
  lemma TradeReachesTarget(t: string, holdings: map<string, real>, targets: map<string, real>,
                           total: real, prices: map<string, real>)
    requires Emits(t, holdings, targets, total, prices) && total != 0.0
    requires Lookup(prices, t) > 0.0
    ensures var trade := TradeOf(t, holdings, targets, total, prices);
      (Lookup(holdings, t) + SignedShares(trade)) * trade.price == total * trade.targetWeight
  {
    var trade := TradeOf(t, holdings, targets, total, prices);
    var d := DiffValue(t, holdings, targets, total, prices);
    var p := Lookup(prices, t);
    QuotientSign(d, p);
    assert SignedShares(trade) == d / p;
    assert (Lookup(holdings, t) + d / p) * p == Lookup(holdings, t) * p + d;
  }

  /**
   * A held ticker that has no target weight, with a positive quantity and
   * price, is sold in full: all its shares, for its whole current value.
   */
  lemma UntargetedHoldingSold(t: string, holdings: map<string, real>, targets: map<string, real>,
                              total: real, prices: map<string, real>)
    requires Emits(t, holdings, targets, total, prices) && total != 0.0
    requires t in holdings && t !in targets
    requires holdings[t] > 0.0 && Lookup(prices, t) > 0.0
    ensures var trade := TradeOf(t, holdings, targets, total, prices);
      trade.action == Sell && trade.targetWeight == 0.0
      && trade.shares == holdings[t] && trade.amount == holdings[t] * Lookup(prices, t)
  {
    var p := Lookup(prices, t);
    var q := holdings[t];
    ProductPositive(q, p);
    assert DiffValue(t, holdings, targets, total, prices) == -(q * p);
    assert -(q * p) / p == -q;
  }

  // ----- The whole plan -----

  /** Every ticker that is held or has a target weight. */
  function Universe(holdings: map<string, real>, targets: map<string, real>): set<string>
  {
    holdings.Keys + targets.Keys
  }

  /**
   * `trades` is a plan for the given holdings: exactly the tickers that pass
   * the thresholds, each once with its proposed trade, largest amount first.
   */
  predicate Rebalanced(trades: seq<Trade>, holdings: map<string, real>, targets: map<string, real>,
                       total: real, prices: map<string, real>)
  {
    (forall k :: 0 <= k < |trades| ==>
       trades[k].ticker in Universe(holdings, targets)
       && Emits(trades[k].ticker, holdings, targets, total, prices) && total != 0.0
       && trades[k] == TradeOf(trades[k].ticker, holdings, targets, total, prices))
    && (forall t :: t in Universe(holdings, targets) && Emits(t, holdings, targets, total, prices) ==>
         exists k :: 0 <= k < |trades| && trades[k].ticker == t)
    && (forall i, j :: 0 <= i < j < |trades| ==> trades[i].ticker != trades[j].ticker)
    && (forall i, j :: 0 <= i < j < |trades| ==> trades[i].amount >= trades[j].amount)
  }

  function AmountKeys(trades: seq<Trade>): (keys: seq<Float>)
    ensures |keys| == |trades|
    ensures forall k :: 0 <= k < |trades| ==> keys[k] == Finite(trades[k].amount)
  {
    seq(|trades|, k requires 0 <= k < |trades| => Finite(trades[k].amount))
  }

  /** `sorted(trades, key=amount, reverse=True)`. */
  function SortedByAmount(trades: seq<Trade>): seq<Trade>
  {
    Permute(trades, SortIndicesDesc(AmountKeys(trades), |trades|))
  }

  /**
   * Sorting by amount reorders the trades without losing, adding or
   * repeating any, and puts them in non-increasing amount order.
   */
  lemma SortedByAmountCorrect(trades: seq<Trade>)
    ensures |SortedByAmount(trades)| == |trades|
    ensures forall k :: 0 <= k < |trades| ==> SortedByAmount(trades)[k] in trades
    ensures forall m :: 0 <= m < |trades| ==> trades[m] in SortedByAmount(trades)
    ensures forall i, j :: 0 <= i < j < |trades| ==> SortedByAmount(trades)[i].amount >= SortedByAmount(trades)[j].amount
    ensures (forall i, j :: 0 <= i < j < |trades| ==> trades[i].ticker != trades[j].ticker) ==>
            (forall i, j :: 0 <= i < j < |trades| ==> SortedByAmount(trades)[i].ticker != SortedByAmount(trades)[j].ticker)
  {
    var keys := AmountKeys(trades);
    var order := SortIndicesDesc(keys, |trades|);
    var r := SortedByAmount(trades);
    SortIndicesDescCorrect(keys, |trades|);
    forall k | 0 <= k < |trades|
      ensures r[k] in trades
    {
      assert r[k] == trades[order[k]];
    }
    forall m | 0 <= m < |trades|
      ensures trades[m] in r
    {
      assert m in order;
      var k :| 0 <= k < |order| && order[k] == m;
      assert r[k] == trades[m];
    }
    forall i, j | 0 <= i < j < |trades|
      ensures r[i].amount >= r[j].amount
    {
      assert !Below(keys[order[i]], keys[order[j]]);
    }
  }

  /** A trade built field by field from the locals of the walk is the proposed trade. */
  lemma SameTrade(trade: Trade, t: string, holdings: map<string, real>, targets: map<string, real>,
                  total: real, prices: map<string, real>)
    requires Emits(t, holdings, targets, total, prices) && total != 0.0
    requires var d := DiffValue(t, holdings, targets, total, prices);
      trade == Trade(t, if d > 0.0 then Buy else Sell, Abs(d / Lookup(prices, t)), Abs(d),
                     Lookup(prices, t), Lookup(holdings, t) * Lookup(prices, t) / total, Lookup(targets, t))
    ensures trade == TradeOf(t, holdings, targets, total, prices)
  {
  }

  /**
   * The body of the walk for one ticker: no trade when the price is missing
   * or zero or the gap is below the thresholds, a failure when a trade is due
   * but the total value is zero.
   */
  method ProposeTrade(ticker: string, holdings: map<string, real>, targets: map<string, real>,
                      totalValue: real, prices: map<string, real>)
    returns (r: Result<Option<Trade>, RebalanceError>)
    ensures r.Err? <==> Emits(ticker, holdings, targets, totalValue, prices) && totalValue == 0.0
    ensures r.Ok? ==> (r.value.Some? <==> Emits(ticker, holdings, targets, totalValue, prices))
    ensures r.Ok? && r.value.Some? ==>
      totalValue != 0.0 && r.value.value == TradeOf(ticker, holdings, targets, totalValue, prices)
  {
    var price := Lookup(prices, ticker);
    if price == 0.0 {
      return Ok(None);
    }
    var currentQty := Lookup(holdings, ticker);
    var currentVal := currentQty * price;
    var targetWeight := Lookup(targets, ticker);
    var targetVal := totalValue * targetWeight;
    var diffVal := targetVal - currentVal;
    var diffShares := diffVal / price;
    assert diffVal == DiffValue(ticker, holdings, targets, totalValue, prices);
    if Abs(diffVal) > 10.0 && Abs(diffShares) >= 0.1 {
      if totalValue == 0.0 {
        return Err(ZeroTotalValue);
      }
      var trade := Trade(ticker, if diffVal > 0.0 then Buy else Sell, Abs(diffShares), Abs(diffVal),
                         price, currentVal / totalValue, targetWeight);
      SameTrade(trade, ticker, holdings, targets, totalValue, prices);
      return Ok(Some(trade));
    }
    return Ok(None);
  }

  /**
   * The rebalancing plan. The union of tickers is walked in an unspecified
   * order (a Python set); a zero total value fails as soon as a trade is
   * proposed, and otherwise the plan holds every ticker that passes the
   * thresholds.
   */
  method CalculateRebalancingTrades(positions: seq<Position>, targets: map<string, real>,
                                    totalValue: real, prices: map<string, real>)
    returns (r: Result<seq<Trade>, RebalanceError>)
    ensures r.Err? <==> (totalValue == 0.0 &&
      exists t :: t in Universe(Holdings(positions), targets) && Emits(t, Holdings(positions), targets, totalValue, prices))
    ensures r.Ok? ==> Rebalanced(r.value, Holdings(positions), targets, totalValue, prices)
  {
    var holdings := HoldingsOf(positions);
    var all := holdings.Keys + targets.Keys;
    var pending := all;
    var trades: seq<Trade> := [];
    while pending != {}
      invariant pending <= all
      invariant forall k :: 0 <= k < |trades| ==> trades[k].ticker in all - pending
      invariant forall k :: 0 <= k < |trades| ==>
        Emits(trades[k].ticker, holdings, targets, totalValue, prices) && totalValue != 0.0
      invariant forall k :: 0 <= k < |trades| ==>
        trades[k] == TradeOf(trades[k].ticker, holdings, targets, totalValue, prices)
      invariant forall t :: t in all - pending && Emits(t, holdings, targets, totalValue, prices) ==>
        exists k :: 0 <= k < |trades| && trades[k].ticker == t
      invariant forall i, j :: 0 <= i < j < |trades| ==> trades[i].ticker != trades[j].ticker
      decreases pending
    {
      var ticker :| ticker in pending;
      pending := pending - {ticker};
      var proposal := ProposeTrade(ticker, holdings, targets, totalValue, prices);
      if proposal.Err? {
        return Err(proposal.error);
      }
      if proposal.value.Some? {
        ghost var before := trades;
        trades := trades + [proposal.value.value];
        assert forall k :: 0 <= k < |before| ==> trades[k] == before[k];
        assert trades[|trades| - 1].ticker == ticker;
        assert Emits(ticker, holdings, targets, totalValue, prices);
      }
    }
    var plan := SortedByAmount(trades);
    SortedByAmountCorrect(trades);
    r := Ok(plan);
  }
}
