/** The long-only, one-position backtest loop. Prices and cash are reals; the strategy is any function of the
    bars seen so far. */
module Backtest {
  import opened ControlModels

  datatype Bar = Bar(timestamp: Time, open: real, high: real, low: real, close: real)

  datatype Catalyst = Catalyst(availableAt: Time, content: Digest)

  datatype Signal = NoSignal | BuySignal(stop: real, target: real) | OtherSignal

  /** A strategy sees the bars, benchmark bars and catalysts available now, and the time. */
  type Strategy = (seq<Bar>, seq<Bar>, seq<Catalyst>, Time) -> Signal

  datatype Engine = Engine(startingCash: real, riskPerTrade: real, slippageBps: real, commissionPerShare: real)

  datatype ExitReason = StopGap | StopIntrabar | TargetGap | TargetHit | TimeLimit

  datatype Trade = Trade(
    entryTime: Time, exitTime: Time, entryPrice: real, exitPrice: real, quantity: nat, pnl: real, reason: ExitReason)

  datatype Position = Position(
    entryTime: Time, entryPrice: real, quantity: nat, stop: real, target: real, entryIndex: nat, entryCommission: real)

  datatype PendingEntry = PendingEntry(activateIndex: nat, stop: real, target: real)

  /** The loop's variables; `exits` lists the bar index at which each trade was closed. A run that has failed, by
      dividing the cash by an entry price of zero, stays as it was. */
  datatype State = State(
    cash: real,
    position: Option<Position>,
    pending: Option<PendingEntry>,
    trades: seq<Trade>,
    exits: seq<nat>,
    curve: seq<real>,
    failed: bool)

  const TIME_LIMIT_BARS: nat := 78

  function Slipped(e: Engine, price: real): real { price * (1.0 + e.slippageBps / 10000.0) }

  function SlippedDown(e: Engine, price: real): real { price * (1.0 - e.slippageBps / 10000.0) }

  /** The value of a number of shares. */
  function Times(price: real, quantity: int): real { price * quantity as real }

  function MaxReal(a: real, b: real): real { if a <= b then b else a }

  function Fee(e: Engine, quantity: int): real { MaxReal(1.0, quantity as real * e.commissionPerShare) }

  function Cost(e: Engine, price: real, quantity: int): real { Times(price, quantity) + Fee(e, quantity) }

  /** The first quantity, counting down, whose cost the cash covers. */
  function Affordable(e: Engine, price: real, cash: real, quantity: int): int
    decreases if quantity < 0 then 0 else quantity
  {
    if quantity > 0 && Cost(e, price, quantity) > cash then Affordable(e, price, cash, quantity - 1) else quantity
  }

  /** How many whole parts of this size an amount has. */
  function Parts(amount: real, size: real): int
    requires size != 0.0
  {
    (amount / size).Floor
  }

  /** The share of the cash that one trade may risk. */
  function RiskBudget(e: Engine, cash: real): real { cash * e.riskPerTrade }

  /** The quantity that risks this share. */
  function RiskQuantity(e: Engine, price: real, stop: real, cash: real): int {
    Parts(RiskBudget(e, cash), MaxReal(0.01, price - stop))
  }

  function CashQuantity(price: real, cash: real): int
    requires price != 0.0
  {
    Parts(cash - 1.0, price)
  }

  function WantedQuantity(e: Engine, price: real, stop: real, cash: real): int
    requires price != 0.0
  {
    Min(RiskQuantity(e, price, stop, cash), Max(0, CashQuantity(price, cash)))
  }

  /** Entering a pending order at the open. */
  function Entered(e: Engine, bar: Bar, index: nat, s: State): State
  {
    if s.pending.None? || s.pending.value.activateIndex != index then s
    else if Slipped(e, bar.open) == 0.0 then s.(failed := true)
    else
      var price := Slipped(e, bar.open);
      var quantity := Affordable(e, price, s.cash, WantedQuantity(e, price, s.pending.value.stop, s.cash));
      if quantity > 0 then
        s.(
          cash := s.cash - Cost(e, price, quantity),
          position := Some(Position(bar.timestamp, price, quantity, s.pending.value.stop, s.pending.value.target, index, Fee(e, quantity))),
          pending := None)
      else s.(pending := None)
  }

  /** Where, and why, an open position is closed on this bar. */
  function ExitOf(e: Engine, bar: Bar, index: nat, p: Position): Option<(real, ExitReason)> {
    if bar.open <= p.stop then Some((SlippedDown(e, bar.open), StopGap))
    else if bar.low <= p.stop then Some((SlippedDown(e, p.stop), StopIntrabar))
    else if bar.open >= p.target then Some((SlippedDown(e, bar.open), TargetGap))
    else if bar.high >= p.target then Some((SlippedDown(e, p.target), TargetHit))
    else if index - p.entryIndex >= TIME_LIMIT_BARS then Some((SlippedDown(e, bar.close), TimeLimit))
    else None
  }

  function PnL(p: Position, exitPrice: real, fee: real): real {
    Times(exitPrice - p.entryPrice, p.quantity) - p.entryCommission - fee
  }

  function Exited(e: Engine, bar: Bar, index: nat, s: State): State {
    if s.position.None? then s
    else
      var p := s.position.value;
      match ExitOf(e, bar, index, p)
      case None => s
      case Some((price, reason)) =>
        var fee := Fee(e, p.quantity);
        s.(
          cash := s.cash + Times(price, p.quantity) - fee,
          position := None,
          trades := s.trades + [Trade(p.entryTime, bar.timestamp, p.entryPrice, price, p.quantity, PnL(p, price, fee), reason)],
          exits := s.exits + [index])
  }

  function Available(catalysts: seq<Catalyst>, now: Time): seq<Catalyst> {
    if catalysts == [] then []
    else
      var last := catalysts[|catalysts| - 1];
      Available(catalysts[..|catalysts| - 1], now) + if last.availableAt <= now then [last] else []
  }

  datatype Market = Market(bars: seq<Bar>, benchmark: seq<Bar>, catalysts: seq<Catalyst>)

  function SignalAt(strategy: Strategy, m: Market, index: nat): Signal
    requires index < |m.bars| == |m.benchmark|
  {
    var now := m.bars[index].timestamp;
    strategy(m.bars[..index + 1], m.benchmark[..index + 1], Available(m.catalysts, now), now)
  }

  /** The strategy is asked only when there is neither a position nor a pending order. */
  predicate Buys(strategy: Strategy, m: Market, index: nat, s: State)
    requires index < |m.bars| == |m.benchmark|
  {
    s.position.None? && s.pending.None? && SignalAt(strategy, m, index).BuySignal?
  }

  function Mark(bar: Bar, s: State): real {
    if s.position.Some? then s.cash + Times(bar.close, s.position.value.quantity) else s.cash
  }

  /** The bar moves the books: an entry, then an exit. */
  function Moved(e: Engine, bar: Bar, index: nat, s: State): State {
    if s.failed || Entered(e, bar, index, s).failed then s.(failed := true)
    else Exited(e, bar, index, Entered(e, bar, index, s))
  }

  /** One bar in the middle of a run. */
  function BarStep(e: Engine, strategy: Strategy, m: Market, index: nat, s: State): State
    requires index < |m.bars| == |m.benchmark|
  {
    var bar := m.bars[index];
    var moved := Moved(e, bar, index, s);
    var signal := SignalAt(strategy, m, index);
    if moved.failed then moved
    else
      moved.(
        pending := if Buys(strategy, m, index, moved) then Some(PendingEntry(index + 1, signal.stop, signal.target)) else moved.pending,
        curve := moved.curve + [Mark(bar, moved)])
  }

  /** The last bar: an order that could not be activated any more ends the run before the bar is marked. */
  function LastStep(e: Engine, strategy: Strategy, m: Market, index: nat, s: State): State
    requires index < |m.bars| == |m.benchmark|
  {
    var moved := Moved(e, m.bars[index], index, s);
    if !moved.failed && Buys(strategy, m, index, moved) then moved else BarStep(e, strategy, m, index, s)
  }

  function Initial(e: Engine): State { State(e.startingCash, None, None, [], [], [e.startingCash], false) }

  /** The state before bar n. */
  function StateBefore(e: Engine, strategy: Strategy, m: Market, warmup: nat, n: nat): State
    requires n <= |m.bars| == |m.benchmark|
    decreases n
  {
    if n <= warmup then Initial(e) else BarStep(e, strategy, m, n - 1, StateBefore(e, strategy, m, warmup, n - 1))
  }

  predicate Runnable(m: Market, warmup: nat) { |m.bars| == |m.benchmark| && |m.bars| > warmup }

  /** The final state of a run. */
  function RunBars(e: Engine, strategy: Strategy, m: Market, warmup: nat): State
    requires Runnable(m, warmup)
  {
    LastStep(e, strategy, m, |m.bars| - 1, StateBefore(e, strategy, m, warmup, |m.bars| - 1))
  }

  /* ---------- No look-ahead ---------- */

  function Prefix(m: Market, p: nat): Market
    requires p <= |m.bars| == |m.benchmark|
  {
    Market(m.bars[..p], m.benchmark[..p], m.catalysts)
  }

  lemma PrefixBar(e: Engine, strategy: Strategy, m: Market, p: nat, index: nat, s: State)
    requires index < p <= |m.bars| == |m.benchmark|
    ensures BarStep(e, strategy, Prefix(m, p), index, s) == BarStep(e, strategy, m, index, s)
    ensures LastStep(e, strategy, Prefix(m, p), index, s) == LastStep(e, strategy, m, index, s)
  {
    assert m.bars[..p][..index + 1] == m.bars[..index + 1];
    assert m.benchmark[..p][..index + 1] == m.benchmark[..index + 1];
    assert SignalAt(strategy, Prefix(m, p), index) == SignalAt(strategy, m, index);
    hide Moved, Mark, SignalAt;
  }

  lemma {:induction false} PrefixStates(e: Engine, strategy: Strategy, m: Market, warmup: nat, p: nat, n: nat)
    requires n <= p <= |m.bars| == |m.benchmark|
    ensures StateBefore(e, strategy, Prefix(m, p), warmup, n) == StateBefore(e, strategy, m, warmup, n)
    decreases n
  {
    hide BarStep, LastStep;
    if n > warmup {
      PrefixStates(e, strategy, m, warmup, p, n - 1);
      PrefixBar(e, strategy, m, p, n - 1, StateBefore(e, strategy, m, warmup, n - 1));
    }
  }

  /** A later state of the same run: closed trades and marked equity are never revised. */
  predicate Extends(s: State, later: State, index: nat) {
    && s.trades <= later.trades && s.exits <= later.exits && s.curve <= later.curve
    && |s.trades| == |s.exits| && |later.trades| == |later.exits|
    && forall i :: |s.exits| <= i < |later.exits| ==> later.exits[i] >= index
  }

  lemma StepExtends(e: Engine, strategy: Strategy, m: Market, index: nat, s: State)
    requires index < |m.bars| == |m.benchmark| && |s.trades| == |s.exits|
    ensures Extends(s, BarStep(e, strategy, m, index, s), index)
    ensures Extends(s, LastStep(e, strategy, m, index, s), index)
  {
    hide Affordable, WantedQuantity, SignalAt, Slipped, SlippedDown, PnL, Fee, Cost, Mark;
  }

  lemma ExtendsTwice(a: State, b: State, c: State, index: nat, later: nat)
    requires Extends(a, b, index) && Extends(b, c, later) && index <= later
    ensures Extends(a, c, index)
  {
  }

  lemma {:induction false} StatesExtend(e: Engine, strategy: Strategy, m: Market, warmup: nat, n: nat, later: nat)
    requires warmup <= n <= later <= |m.bars| == |m.benchmark|
    ensures Extends(StateBefore(e, strategy, m, warmup, n), StateBefore(e, strategy, m, warmup, later), n)
    decreases later
  {
    hide BarStep, LastStep;
    if n == later {
      StatesPaired(e, strategy, m, warmup, n);
    } else {
      StatesExtend(e, strategy, m, warmup, n, later - 1);
      var before := StateBefore(e, strategy, m, warmup, later - 1);
      StepExtends(e, strategy, m, later - 1, before);
      ExtendsTwice(StateBefore(e, strategy, m, warmup, n), before, StateBefore(e, strategy, m, warmup, later), n, later - 1);
    }
  }

  /** Each trade has its exit index, before the current bar; one point of the curve per bar. */
  lemma {:induction false} StatesPaired(e: Engine, strategy: Strategy, m: Market, warmup: nat, n: nat)
    requires warmup <= n <= |m.bars| == |m.benchmark|
    ensures var s := StateBefore(e, strategy, m, warmup, n);
            && |s.trades| == |s.exits| && (forall i :: 0 <= i < |s.exits| ==> s.exits[i] < n)
            && |s.curve| <= n - warmup + 1 && (!s.failed ==> |s.curve| == n - warmup + 1)
    decreases n
  {
    hide BarStep, LastStep;
    if n > warmup {
      StatesPaired(e, strategy, m, warmup, n - 1);
      StepPaired(e, strategy, m, n - 1, StateBefore(e, strategy, m, warmup, n - 1));
    }
  }

  lemma StepPaired(e: Engine, strategy: Strategy, m: Market, index: nat, s: State)
    requires index < |m.bars| == |m.benchmark|
    requires |s.trades| == |s.exits| && forall i :: 0 <= i < |s.exits| ==> s.exits[i] < index
    ensures var after := BarStep(e, strategy, m, index, s);
            && |after.trades| == |after.exits| && (forall i :: 0 <= i < |after.exits| ==> after.exits[i] < index + 1)
            && |s.curve| <= |after.curve| <= |s.curve| + 1 && (!after.failed ==> !s.failed && |after.curve| == |s.curve| + 1)
    ensures var after := LastStep(e, strategy, m, index, s);
            && |after.trades| == |after.exits| && (forall i :: 0 <= i < |after.exits| ==> after.exits[i] < index + 1)
            && |s.curve| <= |after.curve| <= |s.curve| + 1
            && after.trades == BarStep(e, strategy, m, index, s).trades
            && after.curve <= BarStep(e, strategy, m, index, s).curve
  {
    hide Affordable, WantedQuantity, SignalAt, Slipped, SlippedDown, PnL, Fee, Cost, Mark;
  }

  /** No look-ahead: running on a prefix longer than the warm-up yields exactly the trades of the full run that
      were closed within the prefix, and a prefix of its equity curve, with at most the last bar unmarked. A run
      that fails within the prefix fails the same way in full. */
  lemma NoLookAhead(e: Engine, strategy: Strategy, m: Market, warmup: nat, p: nat)
    requires Runnable(m, warmup) && warmup < p <= |m.bars|
    ensures var full := RunBars(e, strategy, m, warmup);
            var part := RunBars(e, strategy, Prefix(m, p), warmup);
            && part.trades <= full.trades && part.exits <= full.exits && |full.trades| == |full.exits|
            && (forall i :: 0 <= i < |full.exits| ==> (full.exits[i] < p <==> i < |part.trades|))
            && part.curve <= full.curve
            && (if part.failed then full == part else p - warmup <= |part.curve| <= p - warmup + 1)
  {
    hide BarStep, LastStep, StateBefore;
    var n := |m.bars|;
    var s := StateBefore(e, strategy, m, warmup, p - 1);
    PrefixStates(e, strategy, m, warmup, p, p - 1);
    PrefixBar(e, strategy, m, p, p - 1, s);
    StatesPaired(e, strategy, m, warmup, p - 1);
    StepPaired(e, strategy, m, p - 1, s);
    StepExtends(e, strategy, m, p - 1, s);
    LastFails(e, strategy, m, p - 1, s);
    if p < n {
      NextState(e, strategy, m, warmup, p);
      StatesExtend(e, strategy, m, warmup, p, n - 1);
      FailureStays(e, strategy, m, warmup, p, n - 1);
      var last := StateBefore(e, strategy, m, warmup, n - 1);
      StatesPaired(e, strategy, m, warmup, n - 1);
      StepExtends(e, strategy, m, n - 1, last);
      LastFails(e, strategy, m, n - 1, last);
      ExtendsTwice(StateBefore(e, strategy, m, warmup, p), last, LastStep(e, strategy, m, n - 1, last), p, n - 1);
      CutHere(LastStep(e, strategy, m, p - 1, s), StateBefore(e, strategy, m, warmup, p), LastStep(e, strategy, m, n - 1, last), p);
    }
    assert p == n ==> Prefix(m, p) == m;
  }

  /** Marking the last bar or not makes no difference to whether, and how, the run has failed. */
  lemma LastFails(e: Engine, strategy: Strategy, m: Market, index: nat, s: State)
    requires index < |m.bars| == |m.benchmark|
    ensures LastStep(e, strategy, m, index, s).failed <==> BarStep(e, strategy, m, index, s).failed
    ensures LastStep(e, strategy, m, index, s).failed ==> LastStep(e, strategy, m, index, s) == BarStep(e, strategy, m, index, s)
    ensures s.failed ==> BarStep(e, strategy, m, index, s) == s == LastStep(e, strategy, m, index, s)
  {
    hide Entered, Exited, SignalAt, Mark;
    assert s.failed ==> s.(failed := true) == s;
  }

  lemma {:induction false} FailureStays(e: Engine, strategy: Strategy, m: Market, warmup: nat, n: nat, later: nat)
    requires warmup <= n <= later <= |m.bars| == |m.benchmark|
    ensures StateBefore(e, strategy, m, warmup, n).failed ==> StateBefore(e, strategy, m, warmup, later) == StateBefore(e, strategy, m, warmup, n)
    decreases later
  {
    hide BarStep, LastStep;
    if n < later {
      FailureStays(e, strategy, m, warmup, n, later - 1);
      LastFails(e, strategy, m, later - 1, StateBefore(e, strategy, m, warmup, later - 1));
    }
  }

  lemma NextState(e: Engine, strategy: Strategy, m: Market, warmup: nat, p: nat)
    requires warmup < p <= |m.bars| == |m.benchmark|
    ensures StateBefore(e, strategy, m, warmup, p) == BarStep(e, strategy, m, p - 1, StateBefore(e, strategy, m, warmup, p - 1))
  {
  }

  lemma CutHere(part: State, at: State, full: State, p: nat)
    requires part.trades == at.trades && |part.trades| == |part.exits| && part.exits <= at.exits && part.curve <= at.curve
    requires Extends(at, full, p) && forall i :: 0 <= i < |at.exits| ==> at.exits[i] < p
    ensures part.trades <= full.trades && part.exits <= full.exits && part.curve <= full.curve
    ensures forall i :: 0 <= i < |full.exits| ==> (full.exits[i] < p <==> i < |part.trades|)
  {
  }

  /* ---------- The stamped curve ---------- */

  /** The first stamped point carries the timestamp of the bar before the warm-up ends; with no warm-up at all
      that index is -1, which names the last bar. */
  function FirstStamp(m: Market, warmup: nat): Time
    requires Runnable(m, warmup)
  {
    if warmup > 0 then m.bars[warmup - 1].timestamp else m.bars[|m.bars| - 1].timestamp
  }

  /* ---------- Accounting ---------- */

  function TotalPnL(trades: seq<Trade>): real {
    if trades == [] then 0.0 else TotalPnL(trades[..|trades| - 1]) + trades[|trades| - 1].pnl
  }

  /** What an open position has cost. */
  function Invested(s: State): real {
    if s.position.Some? then Times(s.position.value.entryPrice, s.position.value.quantity) + s.position.value.entryCommission else 0.0
  }

  predicate Balanced(e: Engine, s: State) { s.cash + Invested(s) == e.startingCash + TotalPnL(s.trades) }

  lemma EntryBalances(e: Engine, bar: Bar, index: nat, s: State)
    requires Balanced(e, s) && (s.pending.Some? ==> s.position.None?)
    ensures Balanced(e, Entered(e, bar, index, s))
  {
    hide Affordable, WantedQuantity, Slipped, Fee;
  }

  lemma ExitBalances(e: Engine, bar: Bar, index: nat, s: State)
    requires Balanced(e, s)
    ensures Balanced(e, Exited(e, bar, index, s))
  {
    hide SlippedDown, Fee;
    if s.position.Some? && ExitOf(e, bar, index, s.position.value).Some? {
      var p := s.position.value;
      var price := ExitOf(e, bar, index, p).value.0;
      var after := Exited(e, bar, index, s);
      assert after.trades[..|after.trades| - 1] == s.trades;
      assert Times(price - p.entryPrice, p.quantity) == Times(price, p.quantity) - Times(p.entryPrice, p.quantity);
      hide Times;
    }
  }

  /** At every iteration cash plus the open position's entry cost and commission is starting cash plus the sum of
      recorded profits, and there is never both a position and a pending order. */
  lemma {:induction false} BooksBalance(e: Engine, strategy: Strategy, m: Market, warmup: nat, n: nat)
    requires n <= |m.bars| == |m.benchmark|
    ensures var s := StateBefore(e, strategy, m, warmup, n); Balanced(e, s) && (s.pending.Some? ==> s.position.None?)
    decreases n
  {
    hide BarStep, LastStep, Balanced;
    if n <= warmup {
      InitialBalances(e);
    } else {
      BooksBalance(e, strategy, m, warmup, n - 1);
      StepBalances(e, strategy, m, n - 1, StateBefore(e, strategy, m, warmup, n - 1));
    }
  }

  lemma InitialBalances(e: Engine)
    ensures Balanced(e, Initial(e))
  {
  }

  /** Entering uses the pending order up, and exiting brings none. */
  lemma NeverBoth(e: Engine, bar: Bar, index: nat, s: State)
    requires s.pending.Some? ==> s.position.None?
    ensures var moved := Moved(e, bar, index, s); moved.pending.Some? ==> moved.position.None?
  {
    hide Affordable, WantedQuantity, Slipped, SlippedDown, Fee, PnL;
  }

  lemma SameBalance(e: Engine, s: State, pending: Option<PendingEntry>, curve: seq<real>)
    requires Balanced(e, s)
    ensures Balanced(e, s.(pending := pending, curve := curve))
  {
  }

  lemma StepBalances(e: Engine, strategy: Strategy, m: Market, index: nat, s: State)
    requires index < |m.bars| == |m.benchmark|
    requires Balanced(e, s) && (s.pending.Some? ==> s.position.None?)
    ensures var after := BarStep(e, strategy, m, index, s); Balanced(e, after) && (after.pending.Some? ==> after.position.None?)
    ensures Balanced(e, LastStep(e, strategy, m, index, s))
  {
    hide Entered, Exited, SignalAt, Mark, Balanced, Moved;
    var bar := m.bars[index];
    MoveBalances(e, bar, index, s);
    NeverBoth(e, bar, index, s);
    var after := BarStep(e, strategy, m, index, s);
    SameBalance(e, Moved(e, bar, index, s), after.pending, after.curve);
  }

  lemma MoveBalances(e: Engine, bar: Bar, index: nat, s: State)
    requires Balanced(e, s) && (s.pending.Some? ==> s.position.None?)
    ensures Balanced(e, Moved(e, bar, index, s))
  {
    hide Entered, Exited, Balanced;
    EntryBalances(e, bar, index, s);
    ExitBalances(e, bar, index, Entered(e, bar, index, s));
    FailureBalances(e, s);
  }

  lemma FailureBalances(e: Engine, s: State)
    requires Balanced(e, s)
    ensures Balanced(e, s.(failed := true))
  {
  }

  /** A run that ends flat has earned exactly its recorded profits. */
  lemma FlatRunEarnsItsTrades(e: Engine, strategy: Strategy, m: Market, warmup: nat)
    requires Runnable(m, warmup)
    ensures var s := RunBars(e, strategy, m, warmup);
            s.position.None? ==> s.cash == e.startingCash + TotalPnL(s.trades)
  {
    BooksBalance(e, strategy, m, warmup, |m.bars| - 1);
    StepBalances(e, strategy, m, |m.bars| - 1, StateBefore(e, strategy, m, warmup, |m.bars| - 1));
    hide LastStep, StateBefore;
  }

  /** The countdown stops at the largest affordable quantity not above the wanted one. */
  lemma {:induction false} AffordableIsLargest(e: Engine, price: real, cash: real, wanted: int)
    ensures var quantity := Affordable(e, price, cash, wanted);
            && quantity <= wanted
            && (quantity > 0 ==> Cost(e, price, quantity) <= cash)
            && forall q :: 0 < q && quantity < q <= wanted ==> Cost(e, price, q) > cash
    decreases if wanted < 0 then 0 else wanted
  {
    hide Cost;
    if wanted > 0 && Cost(e, price, wanted) > cash { AffordableIsLargest(e, price, cash, wanted - 1); }
  }
}
