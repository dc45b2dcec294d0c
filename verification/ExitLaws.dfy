/** What every trade of a backtest is: which signal it follows, at which price and size it was entered, and on which bar,
    for which reason and at which price it was closed, stated on the bars alone. */
module ExitLaws {
  import opened Backtest
  import opened ControlModels

  /* ---------- What closes a position ---------- */

  predicate StopMet(bar: Bar, stop: real) { bar.open <= stop || bar.low <= stop }

  predicate TargetMet(bar: Bar, target: real) { bar.open >= target || bar.high >= target }

  /** The bar leaves a position open. */
  predicate Stays(bar: Bar, index: nat, entered: nat, stop: real, target: real) {
    !StopMet(bar, stop) && !TargetMet(bar, target) && index < entered + 78
  }

  function Lesser(a: real, b: real): real { if a <= b then a else b }

  function Greater(a: real, b: real): real { if a >= b then a else b }

  /** A stop comes before a target, and both before the time limit; a gap is filled at the open. */
  predicate ClosedBy(e: Engine, bar: Bar, index: nat, entered: nat, stop: real, target: real, price: real, reason: ExitReason) {
    var kept := 1.0 - e.slippageBps / 10000.0;
    match reason
    case StopGap => bar.open <= stop && price == Lesser(bar.open, stop) * kept
    case StopIntrabar => bar.open > stop && bar.low <= stop && price == Lesser(bar.open, stop) * kept
    case TargetGap => !StopMet(bar, stop) && bar.open >= target && price == Greater(bar.open, target) * kept
    case TargetHit => !StopMet(bar, stop) && bar.open < target && bar.high >= target && price == Greater(bar.open, target) * kept
    case TimeLimit => !StopMet(bar, stop) && !TargetMet(bar, target) && index >= entered + 78 && price == bar.close * kept
  }

  /** The exit rule, exactly. */
  lemma ExitExactly(e: Engine, bar: Bar, index: nat, p: Position)
    ensures ExitOf(e, bar, index, p).None? <==> Stays(bar, index, p.entryIndex, p.stop, p.target)
    ensures ExitOf(e, bar, index, p).Some? ==>
              ClosedBy(e, bar, index, p.entryIndex, p.stop, p.target, ExitOf(e, bar, index, p).value.0, ExitOf(e, bar, index, p).value.1)
  {
  }

  /* ---------- How a position is entered ---------- */

  function Charge(e: Engine, quantity: nat): real { Greater(1.0, quantity as real * e.commissionPerShare) }

  /** The risk, the cash and the price allow this quantity: what it would lose at the stop is within the share of the cash to
      risk, and the cash covers it and its commission. */
  predicate Allows(e: Engine, cash: real, price: real, stop: real, quantity: nat)
    requires price != 0.0
  {
    && Times(Greater(0.01, price - stop), quantity) <= cash * e.riskPerTrade
    && (if price > 0.0 then Times(price, quantity) <= cash - 1.0 else Times(price, quantity) >= cash - 1.0)
    && Times(price, quantity) + Charge(e, quantity) <= cash
  }

  /** The greatest quantity that is allowed. */
  ghost predicate Sized(e: Engine, cash: real, price: real, stop: real, quantity: nat)
    requires price != 0.0
  {
    Allows(e, cash, price, stop, quantity) && forall more: nat :: more > quantity ==> !Allows(e, cash, price, stop, more)
  }

  function EntryPrice(e: Engine, bar: Bar): real { bar.open * (1.0 + e.slippageBps / 10000.0) }

  /** A position entered on this bar follows the buy signal of the bar before, at the open, as large as is allowed. */
  ghost predicate Enters(e: Engine, strategy: Strategy, m: Market, warmup: nat, entered: nat, time: Time, price: real, quantity: nat)
    requires |m.bars| == |m.benchmark|
  {
    && warmup < entered < |m.bars| && SignalAt(strategy, m, entered - 1).BuySignal?
    && time == m.bars[entered].timestamp && price == EntryPrice(e, m.bars[entered]) && price != 0.0 && quantity > 0
    && Sized(e, StateBefore(e, strategy, m, warmup, entered).cash, price, SignalAt(strategy, m, entered - 1).stop, quantity)
  }

  lemma FeeIsCharge(e: Engine, quantity: nat)
    ensures Fee(e, quantity) == Charge(e, quantity)
  {
  }

  lemma AllowedIsAffordable(e: Engine, cash: real, price: real, stop: real, quantity: nat)
    requires price != 0.0 && quantity > 0
    ensures Allows(e, cash, price, stop, quantity) <==> quantity <= WantedQuantity(e, price, stop, cash) && Cost(e, price, quantity) <= cash
  {
    var risked := MaxReal(0.01, price - stop);
    assert risked == Greater(0.01, price - stop) > 0.0;
    assert RiskBudget(e, cash) == cash * e.riskPerTrade;
    FeeIsCharge(e, quantity);
    PartsExactly(RiskBudget(e, cash), risked, quantity);
    PartsExactly(cash - 1.0, price, quantity);
    hide RiskBudget, Charge, Fee, Parts, MaxReal, Greater, Times;
  }

  /** A number of parts fits an amount if and only if together they do not exceed it; of a negative size, if and only if they
      do not fall below it. */
  lemma PartsExactly(amount: real, size: real, n: int)
    requires size != 0.0
    ensures n <= Parts(amount, size) <==> if size > 0.0 then Times(size, n) <= amount else Times(size, n) >= amount
  {
    var ratio := amount / size;
    assert ratio * size == amount;
    assert n <= ratio.Floor <==> n as real <= ratio;
    Scaled(n as real, ratio, size);
  }

  lemma Scaled(x: real, y: real, size: real)
    requires size != 0.0
    ensures x <= y <==> if size > 0.0 then x * size <= y * size else x * size >= y * size
  {
    assert (y - x) * size == y * size - x * size;
  }

  /** The countdown finds the greatest allowed quantity, if there is one. */
  lemma SizeExactly(e: Engine, cash: real, price: real, stop: real)
    requires price != 0.0
    ensures var quantity := Affordable(e, price, cash, WantedQuantity(e, price, stop, cash));
            && (quantity > 0 ==> Sized(e, cash, price, stop, quantity))
            && (quantity <= 0 ==> forall more: nat :: more > 0 ==> !Allows(e, cash, price, stop, more))
  {
    hide Allows, WantedQuantity, Affordable, Cost;
    var wanted := WantedQuantity(e, price, stop, cash);
    var quantity := Affordable(e, price, cash, wanted);
    AffordableIsLargest(e, price, cash, wanted);
    forall more: nat | more > 0
      ensures Allows(e, cash, price, stop, more) <==> more <= wanted && Cost(e, price, more) <= cash
    {
      AllowedIsAffordable(e, cash, price, stop, more);
    }
  }

  /* ---------- What the strategy is shown ---------- */

  /** The catalysts that are known by now, in their order. */
  function Known(catalysts: seq<Catalyst>, now: Time): seq<Catalyst> {
    if catalysts == [] then []
    else if now < catalysts[0].availableAt then Known(catalysts[1..], now)
    else [catalysts[0]] + Known(catalysts[1..], now)
  }

  lemma {:induction false} KnownMore(catalysts: seq<Catalyst>, last: Catalyst, now: Time)
    ensures Known(catalysts + [last], now) == Known(catalysts, now) + if now < last.availableAt then [] else [last]
  {
    if catalysts != [] {
      assert (catalysts + [last])[1..] == catalysts[1..] + [last];
      KnownMore(catalysts[1..], last, now);
    }
  }

  lemma {:induction false} AvailableExactly(catalysts: seq<Catalyst>, now: Time)
    ensures Available(catalysts, now) == Known(catalysts, now)
  {
    if catalysts != [] {
      var n := |catalysts| - 1;
      assert catalysts == catalysts[..n] + [catalysts[n]];
      AvailableExactly(catalysts[..n], now);
      KnownMore(catalysts[..n], catalysts[n], now);
    }
  }

  /** The strategy is shown both series up to and with the current bar, the catalysts known at its time, and that time. */
  lemma SignalExactly(strategy: Strategy, m: Market, index: nat)
    requires index < |m.bars| == |m.benchmark|
    ensures var now := m.bars[index].timestamp;
            SignalAt(strategy, m, index) == strategy(m.bars[..index + 1], m.benchmark[..index + 1], Known(m.catalysts, now), now)
  {
    AvailableExactly(m.catalysts, m.bars[index].timestamp);
  }

  /* ---------- Every position and every trade ---------- */

  /** An open position before bar n: entered as it should be, and no bar since has closed it. */
  ghost predicate PositionRight(e: Engine, strategy: Strategy, m: Market, warmup: nat, p: Position, n: nat)
    requires n <= |m.bars| == |m.benchmark|
  {
    && p.entryIndex < n && Enters(e, strategy, m, warmup, p.entryIndex, p.entryTime, p.entryPrice, p.quantity)
    && SignalAt(strategy, m, p.entryIndex - 1) == BuySignal(p.stop, p.target) && p.entryCommission == Charge(e, p.quantity)
    && forall i :: p.entryIndex <= i < n ==> Stays(m.bars[i], i, p.entryIndex, p.stop, p.target)
  }

  predicate PendingRight(strategy: Strategy, m: Market, warmup: nat, pending: PendingEntry, n: nat)
    requires n <= |m.bars| == |m.benchmark|
  {
    pending.activateIndex == n && warmup < n && SignalAt(strategy, m, n - 1) == BuySignal(pending.stop, pending.target)
  }

  /** A trade that was entered on one bar and closed on another: entered and closed as it should be, and on no bar in
      between. */
  ghost predicate TradeOf(e: Engine, strategy: Strategy, m: Market, warmup: nat, t: Trade, exit: nat, entered: nat)
    requires |m.bars| == |m.benchmark|
  {
    && entered <= exit < |m.bars| && Enters(e, strategy, m, warmup, entered, t.entryTime, t.entryPrice, t.quantity)
    && t.exitTime == m.bars[exit].timestamp
    && t.pnl == (t.exitPrice - t.entryPrice) * t.quantity as real - Charge(e, t.quantity) - Charge(e, t.quantity)
    && var signal := SignalAt(strategy, m, entered - 1);
    && ClosedBy(e, m.bars[exit], exit, entered, signal.stop, signal.target, t.exitPrice, t.reason)
    && forall i :: entered <= i < exit ==> Stays(m.bars[i], i, entered, signal.stop, signal.target)
  }

  ghost predicate TradeRight(e: Engine, strategy: Strategy, m: Market, warmup: nat, t: Trade, exit: nat)
    requires |m.bars| == |m.benchmark|
  {
    exists entered :: TradeOf(e, strategy, m, warmup, t, exit, entered)
  }

  ghost predicate TradesRight(e: Engine, strategy: Strategy, m: Market, warmup: nat, trades: seq<Trade>, exits: seq<nat>)
    requires |m.bars| == |m.benchmark|
  {
    |trades| == |exits| && forall i :: 0 <= i < |trades| ==> TradeRight(e, strategy, m, warmup, trades[i], exits[i])
  }

  ghost predicate Right(e: Engine, strategy: Strategy, m: Market, warmup: nat, s: State, n: nat)
    requires n <= |m.bars| == |m.benchmark|
  {
    && TradesRight(e, strategy, m, warmup, s.trades, s.exits)
    && (!s.failed ==>
          && (s.position.Some? ==> s.pending.None? && PositionRight(e, strategy, m, warmup, s.position.value, n))
          && (s.pending.Some? ==> PendingRight(strategy, m, warmup, s.pending.value, n)))
  }

  /** After the entry a position is right up to the bar before. */
  lemma EntryRight(e: Engine, strategy: Strategy, m: Market, warmup: nat, n: nat, s: State)
    requires n < |m.bars| == |m.benchmark| && s == StateBefore(e, strategy, m, warmup, n) && Right(e, strategy, m, warmup, s, n) && !s.failed
    requires !Entered(e, m.bars[n], n, s).failed
    ensures var after := Entered(e, m.bars[n], n, s);
            && after.pending.None? && after.trades == s.trades && after.exits == s.exits
            && (after.position.Some? ==>
                  var p := after.position.value;
                  && p.entryIndex <= n && Enters(e, strategy, m, warmup, p.entryIndex, p.entryTime, p.entryPrice, p.quantity)
                  && SignalAt(strategy, m, p.entryIndex - 1) == BuySignal(p.stop, p.target) && p.entryCommission == Charge(e, p.quantity)
                  && forall i :: p.entryIndex <= i < n ==> Stays(m.bars[i], i, p.entryIndex, p.stop, p.target))
  {
    hide TradesRight, SignalAt, Affordable, WantedQuantity, Sized, Cost, Stays, StateBefore;
    if s.pending.Some? {
      var price := EntryPrice(e, m.bars[n]);
      SizeExactly(e, s.cash, price, s.pending.value.stop);
      var quantity := Affordable(e, price, s.cash, WantedQuantity(e, price, s.pending.value.stop, s.cash));
      if quantity > 0 { FeeIsCharge(e, quantity); }
    }
  }

  lemma ExitRight(e: Engine, strategy: Strategy, m: Market, warmup: nat, n: nat, s: State, p: Position)
    requires n < |m.bars| == |m.benchmark| && s.position == Some(p)
    requires p.entryIndex <= n && Enters(e, strategy, m, warmup, p.entryIndex, p.entryTime, p.entryPrice, p.quantity)
    requires SignalAt(strategy, m, p.entryIndex - 1) == BuySignal(p.stop, p.target) && p.entryCommission == Charge(e, p.quantity)
    requires forall i :: p.entryIndex <= i < n ==> Stays(m.bars[i], i, p.entryIndex, p.stop, p.target)
    ensures var after := Exited(e, m.bars[n], n, s);
            if after.position.Some? then after == s && PositionRight(e, strategy, m, warmup, p, n + 1)
            else
              && |after.trades| == |s.trades| + 1 && after.trades[..|s.trades|] == s.trades && after.exits == s.exits + [n]
              && after.pending == s.pending && TradeOf(e, strategy, m, warmup, after.trades[|s.trades|], n, p.entryIndex)
  {
    hide ExitOf, Enters, SignalAt, Stays, ClosedBy, Charge, Fee, PnL, Times;
    ExitExactly(e, m.bars[n], n, p);
    FeeIsCharge(e, p.quantity);
    if ExitOf(e, m.bars[n], n, p).Some? { ProfitIs(p, ExitOf(e, m.bars[n], n, p).value.0, Fee(e, p.quantity)); }
  }

  lemma ProfitIs(p: Position, price: real, fee: real)
    ensures PnL(p, price, fee) == (price - p.entryPrice) * p.quantity as real - p.entryCommission - fee
  {
  }

  lemma MoreTrades(e: Engine, strategy: Strategy, m: Market, warmup: nat, trades: seq<Trade>, exits: seq<nat>, after: seq<Trade>, exit: nat, entered: nat)
    requires |m.bars| == |m.benchmark| && TradesRight(e, strategy, m, warmup, trades, exits)
    requires |after| == |trades| + 1 && after[..|trades|] == trades && TradeOf(e, strategy, m, warmup, after[|trades|], exit, entered)
    ensures TradesRight(e, strategy, m, warmup, after, exits + [exit])
  {
    hide TradeOf;
    assert TradeRight(e, strategy, m, warmup, after[|trades|], exit);
    forall i | 0 <= i < |after|
      ensures TradeRight(e, strategy, m, warmup, after[i], (exits + [exit])[i])
    {
      if i < |trades| { assert after[i] == after[..|trades|][i]; }
    }
  }

  lemma MoveRight(e: Engine, strategy: Strategy, m: Market, warmup: nat, n: nat, s: State)
    requires n < |m.bars| == |m.benchmark| && s == StateBefore(e, strategy, m, warmup, n) && Right(e, strategy, m, warmup, s, n)
    ensures var after := Moved(e, m.bars[n], n, s);
            && TradesRight(e, strategy, m, warmup, after.trades, after.exits)
            && (!after.failed ==>
                  after.pending.None? && (after.position.Some? ==> PositionRight(e, strategy, m, warmup, after.position.value, n + 1)))
  {
    hide TradesRight, Entered, Exited, TradeOf, PositionRight, Enters, Stays, StateBefore, SignalAt;
    var entered := Entered(e, m.bars[n], n, s);
    if !s.failed && !entered.failed {
      EntryRight(e, strategy, m, warmup, n, s);
      if entered.position.Some? {
        var p := entered.position.value;
        ExitRight(e, strategy, m, warmup, n, entered, p);
        var after := Exited(e, m.bars[n], n, entered);
        if after.position.None? { MoreTrades(e, strategy, m, warmup, s.trades, s.exits, after.trades, n, p.entryIndex); }
      } else {
        FlatStays(e, m.bars[n], n, entered);
      }
    }
  }

  lemma FlatStays(e: Engine, bar: Bar, index: nat, s: State)
    requires s.position.None?
    ensures Exited(e, bar, index, s) == s
  {
  }

  lemma StepRight(e: Engine, strategy: Strategy, m: Market, warmup: nat, n: nat, s: State)
    requires warmup <= n < |m.bars| == |m.benchmark| && s == StateBefore(e, strategy, m, warmup, n) && Right(e, strategy, m, warmup, s, n)
    ensures Right(e, strategy, m, warmup, BarStep(e, strategy, m, n, s), n + 1)
    ensures var last := LastStep(e, strategy, m, n, s);
            && TradesRight(e, strategy, m, warmup, last.trades, last.exits)
            && (!last.failed && last.position.Some? ==> PositionRight(e, strategy, m, warmup, last.position.value, n + 1))
  {
    hide TradesRight, Moved, PositionRight, StateBefore, SignalAt, Mark;
    MoveRight(e, strategy, m, warmup, n, s);
  }

  lemma {:induction false} StatesRight(e: Engine, strategy: Strategy, m: Market, warmup: nat, n: nat)
    requires n <= |m.bars| == |m.benchmark|
    ensures Right(e, strategy, m, warmup, StateBefore(e, strategy, m, warmup, n), n)
    decreases n
  {
    hide BarStep, LastStep, PositionRight, TradeOf, PendingRight;
    if n > warmup {
      StatesRight(e, strategy, m, warmup, n - 1);
      StepRight(e, strategy, m, warmup, n - 1, StateBefore(e, strategy, m, warmup, n - 1));
    }
  }

  /** Every trade of a run, exactly: entered on the bar after a buy signal, at the open slipped up and as large as risk
      and cash allow; closed on the first bar that meets its stop, its target or the time limit, a stop before a target,
      at the worse of open and stop, the better of open and target, or the close, slipped down. A position still open at
      the end has met none of these. */
  lemma TradesExactly(e: Engine, strategy: Strategy, m: Market, warmup: nat)
    requires Runnable(m, warmup)
    ensures var s := RunBars(e, strategy, m, warmup);
            && |s.trades| == |s.exits|
            && (forall i :: 0 <= i < |s.trades| ==> TradeRight(e, strategy, m, warmup, s.trades[i], s.exits[i]))
            && (!s.failed && s.position.Some? ==> PositionRight(e, strategy, m, warmup, s.position.value, |m.bars|))
  {
    hide BarStep, LastStep, PositionRight, TradeOf, StateBefore;
    var n := |m.bars| - 1;
    StatesRight(e, strategy, m, warmup, n);
    StepRight(e, strategy, m, warmup, n, StateBefore(e, strategy, m, warmup, n));
  }

  /* ---------- When orders are placed and how a bar is marked ---------- */

  /** In the middle of a run an order waits before a bar exactly when the account is flat and the bar before gave a buy
      signal, and it fails exactly on an entry price of zero. */
  lemma PendingExactly(e: Engine, strategy: Strategy, m: Market, warmup: nat, n: nat)
    requires warmup < n <= |m.bars| == |m.benchmark|
    ensures var s := StateBefore(e, strategy, m, warmup, n);
            !s.failed ==> (s.pending.Some? <==> s.position.None? && SignalAt(strategy, m, n - 1).BuySignal?)
  {
    hide BarStep, SignalAt, Moved, StateBefore;
    StatesRight(e, strategy, m, warmup, n - 1);
    var before := StateBefore(e, strategy, m, warmup, n - 1);
    MoveRight(e, strategy, m, warmup, n - 1, before);
    NextState(e, strategy, m, warmup, n);
    PlacedExactly(e, strategy, m, n - 1, before);
  }

  lemma PlacedExactly(e: Engine, strategy: Strategy, m: Market, index: nat, s: State)
    requires index < |m.bars| == |m.benchmark| && (!Moved(e, m.bars[index], index, s).failed ==> Moved(e, m.bars[index], index, s).pending.None?)
    ensures var after := BarStep(e, strategy, m, index, s);
            !after.failed ==> (after.pending.Some? <==> after.position.None? && SignalAt(strategy, m, index).BuySignal?)
  {
    hide Moved, SignalAt, Mark;
  }

  /** A waiting order fails on an entry price of zero, and otherwise opens a position on its bar exactly when one share
      or more is allowed. */
  lemma EntryExactly(e: Engine, strategy: Strategy, m: Market, warmup: nat, n: nat)
    requires n < |m.bars| == |m.benchmark|
    ensures var s, price := StateBefore(e, strategy, m, warmup, n), EntryPrice(e, m.bars[n]);
            var after := Entered(e, m.bars[n], n, s);
            !s.failed && s.pending.Some? ==>
              && (after.failed <==> price == 0.0)
              && (price != 0.0 ==>
                    (after.position.Some? <==> exists quantity: nat :: quantity > 0 && Allows(e, s.cash, price, s.pending.value.stop, quantity)))
              && (after.position.Some? ==> after.cash == s.cash - price * after.position.value.quantity as real - Charge(e, after.position.value.quantity))
  {
    hide StateBefore, Allows, TradesRight, Entered, PositionRight, SignalAt;
    StatesRight(e, strategy, m, warmup, n);
    var s := StateBefore(e, strategy, m, warmup, n);
    if !s.failed && s.pending.Some? { PendingEnters(e, m.bars[n], n, s); }
  }

  lemma PendingEnters(e: Engine, bar: Bar, index: nat, s: State)
    requires !s.failed && s.pending.Some? && s.pending.value.activateIndex == index && s.position.None?
    ensures var price, after := EntryPrice(e, bar), Entered(e, bar, index, s);
            && (after.failed <==> price == 0.0)
            && (price != 0.0 ==>
                  (after.position.Some? <==> exists quantity: nat :: quantity > 0 && Allows(e, s.cash, price, s.pending.value.stop, quantity)))
            && (after.position.Some? ==> after.cash == s.cash - price * after.position.value.quantity as real - Charge(e, after.position.value.quantity))
  {
    hide Allows, Affordable, WantedQuantity, Sized, Slipped, EntryPrice, Fee, Charge;
    var price, stop := EntryPrice(e, bar), s.pending.value.stop;
    PriceIs(e, bar);
    if price != 0.0 {
      SizeExactly(e, s.cash, price, stop);
      var quantity := Affordable(e, price, s.cash, WantedQuantity(e, price, stop, s.cash));
      if quantity > 0 {
        FeeIsCharge(e, quantity);
        SizedAllows(e, s.cash, price, stop, quantity);
        var q: nat := quantity;
        assert q > 0 && Allows(e, s.cash, price, s.pending.value.stop, q);
      } else {
        assert Entered(e, bar, index, s) == s.(pending := None);
      }
    }
  }

  lemma PriceIs(e: Engine, bar: Bar)
    ensures Slipped(e, bar.open) == EntryPrice(e, bar)
  {
  }

  lemma SizedAllows(e: Engine, cash: real, price: real, stop: real, quantity: nat)
    requires price != 0.0 && Sized(e, cash, price, stop, quantity)
    ensures Allows(e, cash, price, stop, quantity)
  {
  }

  /** The curve starts with the starting cash and gets, for each bar, the cash and the shares at the close. */
  lemma MarkExactly(e: Engine, strategy: Strategy, m: Market, warmup: nat, n: nat)
    requires warmup <= n < |m.bars| == |m.benchmark|
    ensures var s, after := StateBefore(e, strategy, m, warmup, n), StateBefore(e, strategy, m, warmup, n + 1);
            !after.failed ==>
              after.curve == s.curve + [after.cash + if after.position.Some? then m.bars[n].close * after.position.value.quantity as real else 0.0]
    ensures StateBefore(e, strategy, m, warmup, warmup).curve == [e.startingCash]
  {
    hide SignalAt, Affordable, WantedQuantity, Slipped, SlippedDown, PnL, Fee, Cost;
  }
}
