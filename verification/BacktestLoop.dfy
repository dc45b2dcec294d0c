/** The backtest loop as it runs: one pass over the bars that updates cash, position, pending order, trades and
    equity curve. */
module BacktestLoop {
  import opened Backtest
  import opened ControlModels

  /** The stamped curve: the first point before the first bar, then one point per marked bar. */
  predicate Stamps(stamped: seq<(Time, real)>, m: Market, warmup: nat, curve: seq<real>)
    requires Runnable(m, warmup)
  {
    && 0 < |stamped| == |curve| <= |m.bars| - warmup + 1
    && (forall i :: 0 <= i < |stamped| ==> stamped[i].1 == curve[i])
    && stamped[0].0 == FirstStamp(m, warmup)
    && forall i :: 0 < i < |stamped| ==> stamped[i].0 == m.bars[warmup + i - 1].timestamp
  }

  class BacktestEngine {
    const engine: Engine
    var lastEquityCurve: seq<(Time, real)>

    constructor (engine: Engine)
      ensures this.engine == engine && lastEquityCurve == []
    {
      this.engine := engine;
      lastEquityCurve := [];
    }

    /** Counts the quantity down until the cash covers the order. None stands for the division by zero. */
    method SizeOrder(price: real, stop: real, cash: real) returns (sized: Option<(int, real)>)
      ensures sized.None? <==> price == 0.0
      ensures sized.Some? ==>
                && sized.value.0 == Affordable(engine, price, cash, WantedQuantity(engine, price, stop, cash))
                && sized.value.1 == Fee(engine, sized.value.0)
                && (sized.value.0 > 0 ==> Times(price, sized.value.0) + sized.value.1 <= cash)
    {
      hide Fee, Times, RiskQuantity, CashQuantity;
      if price == 0.0 { return None; }
      var riskQuantity := RiskQuantity(engine, price, stop, cash);
      var affordable := Max(0, CashQuantity(price, cash));
      var quantity := Min(riskQuantity, affordable);
      var commission := Fee(engine, quantity);
      ghost var wanted := quantity;
      assert wanted == WantedQuantity(engine, price, stop, cash);
      while quantity > 0 && Times(price, quantity) + commission > cash
        invariant Affordable(engine, price, cash, quantity) == Affordable(engine, price, cash, wanted)
        invariant commission == Fee(engine, quantity)
        decreases quantity
      {
        assert Cost(engine, price, quantity) > cash;
        quantity := quantity - 1;
        commission := Fee(engine, quantity);
      }
      assert quantity > 0 ==> Cost(engine, price, quantity) <= cash;
      sized := Some((quantity, commission));
    }

    /** Closes an open position if this bar says so. */
    static method ClosePosition(e: Engine, bar: Bar, index: nat, ghost s: State, cash: real, position: Option<Position>, trades: seq<Trade>)
      returns (newCash: real, newPosition: Option<Position>, newTrades: seq<Trade>)
      requires s.cash == cash && s.position == position && s.trades == trades
      ensures var after := Exited(e, bar, index, s);
              after.cash == newCash && after.position == newPosition && after.trades == newTrades
    {
      hide Fee, SlippedDown, Times;
      newCash, newPosition, newTrades := cash, position, trades;
      if position.Some? {
        var p := position.value;
        var exit := None;
        if bar.open <= p.stop {
          exit := Some((SlippedDown(e, bar.open), StopGap));
        } else if bar.low <= p.stop {
          exit := Some((SlippedDown(e, p.stop), StopIntrabar));
        } else if bar.open >= p.target {
          exit := Some((SlippedDown(e, bar.open), TargetGap));
        } else if bar.high >= p.target {
          exit := Some((SlippedDown(e, p.target), TargetHit));
        } else if index - p.entryIndex >= TIME_LIMIT_BARS {
          exit := Some((SlippedDown(e, bar.close), TimeLimit));
        }
        if exit.Some? {
          var (price, reason) := exit.value;
          var commission := Fee(e, p.quantity);
          newCash := cash + Times(price, p.quantity) - commission;
          var pnl := Times(price - p.entryPrice, p.quantity) - p.entryCommission - commission;
          assert pnl == PnL(p, price, commission);
          newTrades := trades + [Trade(p.entryTime, bar.timestamp, p.entryPrice, price, p.quantity, pnl, reason)];
          newPosition := None;
        }
      }
    }

    /** The whole loop. None stands for misaligned or insufficient bars, or for a run that fails on its way; the
        curve up to there is kept. */
    method Run(m: Market, strategy: Strategy, warmup: nat) returns (r: Option<(real, seq<Trade>)>)
      modifies this
      ensures r.Some? <==> Runnable(m, warmup) && !RunBars(engine, strategy, m, warmup).failed
      ensures Runnable(m, warmup) ==>
                var s := RunBars(engine, strategy, m, warmup);
                && Stamps(lastEquityCurve, m, warmup, s.curve) && s.curve != []
                && (r.Some? ==> r.value == (s.curve[|s.curve| - 1], s.trades))
    {
      hide Entered, Exited, Moved, Affordable, WantedQuantity, Slipped, SlippedDown, Fee, Cost, SignalAt, Mark, Times;
      hide BarStep, LastStep, StateBefore, RunBars, Stamps;
      if |m.bars| != |m.benchmark| || |m.bars| <= warmup { return None; }
      var cash := engine.startingCash;
      var curve := [cash];
      var stamped := [(if warmup > 0 then m.bars[warmup - 1].timestamp else m.bars[|m.bars| - 1].timestamp, cash)];
      var trades: seq<Trade> := [];
      var position: Option<Position> := None;
      var pending: Option<PendingEntry> := None;
      ghost var exits: seq<nat> := [];
      var index := warmup;
      var cut := false;
      LoopStarts(engine, strategy, m, warmup, stamped, curve);
      while index < |m.bars| && !cut
        invariant warmup <= index <= |m.bars|
        invariant !cut && index < |m.bars| ==>
                    State(cash, position, pending, trades, exits, curve, false) == StateBefore(engine, strategy, m, warmup, index)
        invariant cut || index == |m.bars| ==>
                    index == |m.bars| && State(cash, position, pending, trades, exits, curve, false) == RunBars(engine, strategy, m, warmup)
        invariant Stamps(stamped, m, warmup, curve) && |curve| <= index - warmup + 1 && (!cut ==> |curve| == index - warmup + 1)
        decreases |m.bars| - index, !cut
      {
        var bar := m.bars[index];
        ghost var before := State(cash, position, pending, trades, exits, curve, false);
        if pending.Some? && pending.value.activateIndex == index {
          var price := Slipped(engine, bar.open);
          var sized := SizeOrder(price, pending.value.stop, cash);
          if sized.None? {
            lastEquityCurve := stamped;
            RunFails(engine, strategy, m, warmup, index, before);
            StampsNonEmpty(stamped, m, warmup, curve);
            return None;
          }
          var (quantity, commission) := sized.value;
          if quantity > 0 {
            cash := cash - (Times(price, quantity) + commission);
            position := Some(Position(bar.timestamp, price, quantity, pending.value.stop, pending.value.target, index, commission));
          }
          pending := None;
        }
        ghost var entered := Entered(engine, bar, index, before);
        EnteredAs(engine, bar, index, before, State(cash, position, pending, trades, exits, curve, false));
        cash, position, trades := ClosePosition(engine, bar, index, entered, cash, position, trades);
        ghost var moved := Exited(engine, bar, index, entered);
        ExitedAs(engine, bar, index, entered);
        exits := moved.exits;
        if position.None? && pending.None? {
          var signal := strategy(m.bars[..index + 1], m.benchmark[..index + 1], Available(m.catalysts, bar.timestamp), bar.timestamp);
          SignalIs(strategy, m, index);
          if signal.BuySignal? {
            if index + 1 >= |m.bars| { cut := true; }
            else { pending := Some(PendingEntry(index + 1, signal.stop, signal.target)); }
          }
        }
        if !cut {
          var mark := cash;
          if position.Some? { mark := mark + Times(bar.close, position.value.quantity); }
          MarkIs(bar, moved, cash, position);
          StampsMore(stamped, m, warmup, curve, mark);
          curve := curve + [mark];
          stamped := stamped + [(bar.timestamp, mark)];
        }
        IterationEnds(engine, strategy, m, warmup, index, before, State(cash, position, pending, trades, exits, curve, false), cut);
        index := index + 1;
      }
      StampsNonEmpty(stamped, m, warmup, curve);
      lastEquityCurve := stamped;
      r := Some((curve[|curve| - 1], trades));
    }
  }

  /** A division by zero ends the run with the books as they were before the bar. */
  lemma RunFails(e: Engine, strategy: Strategy, m: Market, warmup: nat, index: nat, before: State)
    requires Runnable(m, warmup) && warmup <= index < |m.bars|
    requires before == StateBefore(e, strategy, m, warmup, index) && !before.failed
    requires before.pending.Some? && before.pending.value.activateIndex == index && Slipped(e, m.bars[index].open) == 0.0
    ensures RunBars(e, strategy, m, warmup) == before.(failed := true)
  {
    hide BarStep, LastStep, StateBefore, Slipped;
    var n := |m.bars|;
    BarFails(e, strategy, m, index, before);
    LastFails(e, strategy, m, index, before);
    if index < n - 1 {
      NextState(e, strategy, m, warmup, index + 1);
      FailureStays(e, strategy, m, warmup, index + 1, n - 1);
      LastFails(e, strategy, m, n - 1, StateBefore(e, strategy, m, warmup, n - 1));
    }
  }

  lemma BarFails(e: Engine, strategy: Strategy, m: Market, index: nat, s: State)
    requires index < |m.bars| == |m.benchmark|
    requires s.pending.Some? && s.pending.value.activateIndex == index && Slipped(e, m.bars[index].open) == 0.0
    ensures BarStep(e, strategy, m, index, s) == s.(failed := true)
  {
    hide Exited, SignalAt, Mark, Slipped, Affordable, WantedQuantity;
  }

  /** The stamped curve of a run on a prefix is a prefix of the full one exactly when there is a warm-up, or both end
      at the same time: without a warm-up the first stamp is the time of the last bar. */
  lemma StampedPrefixExactly(
    e: Engine, strategy: Strategy, m: Market, warmup: nat, p: nat, part: seq<(Time, real)>, full: seq<(Time, real)>)
    requires Runnable(m, warmup) && warmup < p <= |m.bars|
    requires Stamps(part, Prefix(m, p), warmup, RunBars(e, strategy, Prefix(m, p), warmup).curve)
    requires Stamps(full, m, warmup, RunBars(e, strategy, m, warmup).curve)
    ensures part <= full <==> warmup > 0 || m.bars[p - 1].timestamp == m.bars[|m.bars| - 1].timestamp
  {
    NoLookAhead(e, strategy, m, warmup, p);
    hide RunBars;
    if warmup > 0 || m.bars[p - 1].timestamp == m.bars[|m.bars| - 1].timestamp {
      forall i | 0 <= i < |part|
        ensures part[i] == full[i]
      {
        if i > 0 { assert part[i].0 == m.bars[..p][warmup + i - 1].timestamp && full[i].0 == m.bars[warmup + i - 1].timestamp; }
        assert part[i].1 == full[i].1;
      }
    }
  }

  lemma EnteredAs(e: Engine, bar: Bar, index: nat, s: State, after: State)
    requires after.trades == s.trades && after.exits == s.exits && after.curve == s.curve && after.failed == s.failed
    requires if s.pending.Some? && s.pending.value.activateIndex == index then
               var price := Slipped(e, bar.open);
               price != 0.0 &&
               var quantity := Affordable(e, price, s.cash, WantedQuantity(e, price, s.pending.value.stop, s.cash));
               && after.pending == None
               && after.cash == (if quantity > 0 then s.cash - (Times(price, quantity) + Fee(e, quantity)) else s.cash)
               && after.position == (if quantity > 0 then
                                       Some(Position(bar.timestamp, price, quantity, s.pending.value.stop, s.pending.value.target, index, Fee(e, quantity)))
                                     else s.position)
             else after == s
    ensures after == Entered(e, bar, index, s)
  {
    hide Affordable, WantedQuantity, Slipped, Fee, Times;
  }

  lemma ExitedAs(e: Engine, bar: Bar, index: nat, s: State)
    ensures var after := Exited(e, bar, index, s); after.pending == s.pending && after.curve == s.curve && after.failed == s.failed
  {
  }

  lemma SignalIs(strategy: Strategy, m: Market, index: nat)
    requires index < |m.bars| == |m.benchmark|
    ensures SignalAt(strategy, m, index) ==
            strategy(m.bars[..index + 1], m.benchmark[..index + 1], Available(m.catalysts, m.bars[index].timestamp), m.bars[index].timestamp)
  {
  }

  lemma MarkIs(bar: Bar, s: State, cash: real, position: Option<Position>)
    requires s.cash == cash && s.position == position
    ensures Mark(bar, s) == if position.Some? then cash + Times(bar.close, position.value.quantity) else cash
  {
  }

  lemma LoopStarts(e: Engine, strategy: Strategy, m: Market, warmup: nat, stamped: seq<(Time, real)>, curve: seq<real>)
    requires Runnable(m, warmup) && curve == [e.startingCash] && stamped == [(FirstStamp(m, warmup), e.startingCash)]
    ensures StateBefore(e, strategy, m, warmup, warmup) == State(e.startingCash, None, None, [], [], curve, false)
    ensures Stamps(stamped, m, warmup, curve)
  {
  }

  lemma StampsMore(stamped: seq<(Time, real)>, m: Market, warmup: nat, curve: seq<real>, mark: real)
    requires Runnable(m, warmup) && Stamps(stamped, m, warmup, curve) && |curve| <= |m.bars| - warmup
    ensures Stamps(stamped + [(m.bars[warmup + |curve| - 1].timestamp, mark)], m, warmup, curve + [mark])
  {
  }

  lemma StampsNonEmpty(stamped: seq<(Time, real)>, m: Market, warmup: nat, curve: seq<real>)
    requires Runnable(m, warmup) && Stamps(stamped, m, warmup, curve)
    ensures curve != []
  {
  }

  /** What one pass through the loop has made of the state before the bar. */
  lemma IterationEnds(e: Engine, strategy: Strategy, m: Market, warmup: nat, index: nat, before: State, after: State, cut: bool)
    requires Runnable(m, warmup) && warmup <= index < |m.bars|
    requires !before.failed && !Entered(e, m.bars[index], index, before).failed && before == StateBefore(e, strategy, m, warmup, index)
    requires var bar := m.bars[index];
             var moved := Exited(e, bar, index, Entered(e, bar, index, before));
             var signal := SignalAt(strategy, m, index);
             var buys := moved.position.None? && moved.pending.None? && signal.BuySignal?;
             && (cut <==> buys && index + 1 == |m.bars|)
             && after == if cut then moved
                         else moved.(pending := if buys then Some(PendingEntry(index + 1, signal.stop, signal.target)) else moved.pending,
                                     curve := moved.curve + [Mark(bar, moved)])
    ensures index + 1 < |m.bars| ==> after == StateBefore(e, strategy, m, warmup, index + 1)
    ensures index + 1 == |m.bars| ==> after == RunBars(e, strategy, m, warmup)
  {
    hide Entered, Exited, SignalAt, Mark;
    ExitedAs(e, m.bars[index], index, Entered(e, m.bars[index], index, before));
  }
}
