/** One automation run (`Trading.RunAutomation`): fetch a snapshot, check it
    in a fixed order, then walk the format's instructions in catalogue order. */
module Automation {
  import opened Wrappers
  import opened Data
  import Lists
  import Funds
  import opened DailyCycle

  /** Everything the run fetches once, before its loop. None stands for a
      null list or a broker reply that is not a list. */
  datatype Snapshot = Snapshot(
    instructions: Option<seq<Instruction>>,  // GetInstructions, all formats
    strategies: Option<seq<Strategy>>,       // GetStrategies
    assets: Option<seq<Asset>>,              // GetAssets
    positions: Option<seq<Position>>,        // GetPositions
    openBuyOrders: Option<seq<Order>>)       // GetOrders_OpenBuy

  /** Why a run stopped before any per-instruction work. */
  datatype Abort = PositionsUnavailable | OrdersUnavailable | NoAssets | NoInstructions | NoStrategies

  /** What happened to one instruction. */
  datatype Step =
    | StrategyMissing
    | AssetMissing
    | NotDaily
    | Inactive
    | Ran(trace: Trace)

  datatype Run = Aborted(reason: Abort) | Completed(steps: seq<Step>)

  /** A list that was fetched and is not empty. */
  predicate Present<T>(list: Option<seq<T>>)
  {
    list.Some? && |list.value| > 0
  }

  /** The fetched instructions of one format, as the run walks them: an
      unfetched list stays unfetched, and each instruction of the format
      is kept as often as the fetched list holds it. */
  function ForFormat(instructions: Option<seq<Instruction>>, format: Format): (r: Option<seq<Instruction>>)
    ensures r.Some? <==> instructions.Some?
    ensures r.Some? ==> forall i :: i in r.value <==> i in instructions.value && i.format == format
    ensures r.Some? ==> forall i :: multiset(r.value)[i] == if i.format == format then multiset(instructions.value)[i] else 0
  {
    match instructions
    case None => None
    case Some(all) =>
      var ofFormat := (i: Instruction) => i.format == format;
      Lists.FilterMembers(all, ofFormat);
      Lists.FilterCounts(all, ofFormat);
      Some(Lists.Filter(all, ofFormat))
  }

  /** The selection keeps the fetched order: the instructions selected from
      an earlier part of the list come before those from a later part. */
  lemma ForFormatAppend(a: seq<Instruction>, b: seq<Instruction>, format: Format)
    ensures ForFormat(Some(a + b), format).value == ForFormat(Some(a), format).value + ForFormat(Some(b), format).value
  {
    Lists.FilterAppend(a, b, (i: Instruction) => i.format == format);
  }

  /** One instruction is selected exactly when it has the run's format. */
  lemma ForFormatSingle(x: Instruction, format: Format)
    ensures ForFormat(Some([x]), format).value == if x.format == format then [x] else []
  {
    Lists.FilterSingle(x, (i: Instruction) => i.format == format);
  }

  /** The instructions a completed run walks through. */
  function Scheduled(snap: Snapshot, format: Format): seq<Instruction>
  {
    match ForFormat(snap.instructions, format)
    case None => []
    case Some(list) => list
  }

  function StrategyFor(strategies: seq<Strategy>, instr: Instruction): Option<Strategy>
  {
    Lists.Find(strategies, (s: Strategy) => s.name == instr.strategy)
  }

  function PositionFor(positions: seq<Position>, instr: Instruction): Option<Position>
  {
    Lists.Find(positions, (p: Position) => p.symbol == instr.symbol)
  }

  /** The open buy order for the same symbol AND the same quantity. */
  function OrderFor(orders: seq<Order>, instr: Instruction): Option<Order>
  {
    Lists.Find(orders, (o: Order) => o.symbol == instr.symbol && o.quantity == instr.quantity)
  }

  /** One loop iteration: strategy first, then asset; only an active Daily
      instruction runs the daily cycle, always without margin. */
  function Process(instr: Instruction, strategies: seq<Strategy>, assets: seq<Asset>,
                   positions: seq<Position>, orders: seq<Order>, w: World): (s: Step)
    ensures s.Ran? <==> StrategyFor(strategies, instr).Some? && Funds.AssetFor(assets, instr.symbol).Some?
                        && instr.frequency == Daily && instr.active
    ensures s.Ran? ==> s.trace == RunDaily(instr, PositionFor(positions, instr), OrderFor(orders, instr), w, false)
  {
    if StrategyFor(strategies, instr).None? then StrategyMissing
    else if Funds.AssetFor(assets, instr.symbol).None? then AssetMissing
    else if instr.frequency != Daily then NotDaily
    else if !instr.active then Inactive
    else Ran(RunDaily(instr, PositionFor(positions, instr), OrderFor(orders, instr), w, false))
  }

  /** All five prechecks pass: both broker fetches succeeded and the
      assets, the instructions of the format and the strategies are all
      non-empty. */
  predicate Ready(format: Format, snap: Snapshot)
  {
    snap.positions.Some? && snap.openBuyOrders.Some? && Present(snap.assets)
    && Present(ForFormat(snap.instructions, format)) && Present(snap.strategies)
  }

  /** `RunAutomation(format, day)`. `worlds(i)` holds the collaborator
      replies the i-th scheduled instruction's daily cycle would read. */
  function RunAutomation(format: Format, snap: Snapshot, worlds: nat -> World): (r: Run)
    ensures snap.positions.None? ==> r == Aborted(PositionsUnavailable)
    ensures snap.positions.Some? && snap.openBuyOrders.None? ==> r == Aborted(OrdersUnavailable)
    ensures snap.positions.Some? && snap.openBuyOrders.Some? && !Present(snap.assets) ==>
              r == Aborted(NoAssets)
    ensures snap.positions.Some? && snap.openBuyOrders.Some? && Present(snap.assets)
            && !Present(ForFormat(snap.instructions, format)) ==>
              r == Aborted(NoInstructions)
    ensures snap.positions.Some? && snap.openBuyOrders.Some? && Present(snap.assets)
            && Present(ForFormat(snap.instructions, format)) && !Present(snap.strategies) ==>
              r == Aborted(NoStrategies)
    ensures r.Completed? <==> Ready(format, snap)
    ensures r.Completed? ==> |r.steps| == |Scheduled(snap, format)| > 0
    ensures r.Completed? ==> forall i :: 0 <= i < |r.steps| ==>
              r.steps[i] == Process(Scheduled(snap, format)[i], snap.strategies.value, snap.assets.value,
                                    snap.positions.value, snap.openBuyOrders.value, worlds(i))
  {
    if snap.positions.None? then Aborted(PositionsUnavailable)
    else if snap.openBuyOrders.None? then Aborted(OrdersUnavailable)
    else if !Present(snap.assets) then Aborted(NoAssets)
    else if !Present(ForFormat(snap.instructions, format)) then Aborted(NoInstructions)
    else if !Present(snap.strategies) then Aborted(NoStrategies)
    else
      var step := (instr: Instruction, k: nat) =>
        Process(instr, snap.strategies.value, snap.assets.value, snap.positions.value, snap.openBuyOrders.value, worlds(k));
      Completed(Lists.MapWithIndex(ForFormat(snap.instructions, format).value, step, 0))
  }

  /** Every instruction a run walks through has the run's format. */
  lemma ScheduledHaveFormat(format: Format, snap: Snapshot, i: nat)
    requires i < |Scheduled(snap, format)|
    ensures Scheduled(snap, format)[i].format == format
  {
    assert Scheduled(snap, format)[i] in ForFormat(snap.instructions, format).value;
  }

  /** An inactive or non-Daily instruction gets no daily cycle, so no
      collaborator is consulted for it. */
  lemma OnlyActiveDailyInstructionsRun(format: Format, snap: Snapshot, worlds: nat -> World, i: nat)
    requires Ready(format, snap)
    requires i < |Scheduled(snap, format)|
    ensures RunAutomation(format, snap, worlds).steps[i].Ran? ==>
              Scheduled(snap, format)[i].active && Scheduled(snap, format)[i].frequency == Daily
  {
  }

  /** An open buy order for the same symbol and quantity in the snapshot
      prevents a second buy for that instruction. */
  lemma OpenOrderPreventsRepeatBuy(format: Format, snap: Snapshot, worlds: nat -> World, i: nat, k: nat)
    requires Ready(format, snap)
    requires i < |Scheduled(snap, format)|
    requires k < |snap.openBuyOrders.value|
    requires snap.openBuyOrders.value[k].symbol == Scheduled(snap, format)[i].symbol
    requires snap.openBuyOrders.value[k].quantity == Scheduled(snap, format)[i].quantity
    ensures var s := RunAutomation(format, snap, worlds).steps[i];
            !(s.Ran? && s.trace.outcome.Buy?)
  {
  }

  /** Every buy in a run is for an active Daily instruction of the run's
      format, for the instruction's quantity, and was affordable: runs never
      trade on margin. */
  lemma RunBuysFollowInstruction(format: Format, snap: Snapshot, worlds: nat -> World, i: nat)
    requires Ready(format, snap)
    requires i < |Scheduled(snap, format)|
    ensures var s := RunAutomation(format, snap, worlds).steps[i];
            var instr := Scheduled(snap, format)[i];
            s.Ran? && s.trace.outcome.Buy? ==>
              && instr.active && instr.frequency == Daily && instr.format == format
              && s.trace.outcome.quantity == instr.quantity
              && Affordable(instr, worlds(i))
  {
    ScheduledHaveFormat(format, snap, i);
    var instr := Scheduled(snap, format)[i];
    var s := RunAutomation(format, snap, worlds).steps[i];
    if s.Ran? && s.trace.outcome.Buy? {
      assert s.trace.outcome == Decide(instr, PositionFor(snap.positions.value, instr),
                                       OrderFor(snap.openBuyOrders.value, instr), worlds(i), false);
    }
  }

  /** Every sell in a run is sized to the position first matched by the
      instruction's symbol, which is a long holding. */
  lemma RunSellsFollowHolding(format: Format, snap: Snapshot, worlds: nat -> World, i: nat)
    requires Ready(format, snap)
    requires i < |Scheduled(snap, format)|
    ensures var s := RunAutomation(format, snap, worlds).steps[i];
            var instr := Scheduled(snap, format)[i];
            var held := PositionFor(snap.positions.value, instr);
            s.Ran? && s.trace.outcome.Sell? ==>
              && held.Some? && held.value.symbol == instr.symbol && held.value.quantity > 0
              && s.trace.outcome.quantity == held.value.quantity
  {
  }

  /** A default-constructed instruction is inactive and Paper: whatever the
      strategies, assets, positions and orders, it never reaches the daily
      cycle. */
  lemma NewInstructionNeverRuns(strategies: seq<Strategy>, assets: seq<Asset>,
                                positions: seq<Position>, orders: seq<Order>, w: World)
    ensures !Process(NewInstruction(), strategies, assets, positions, orders, w).Ran?
    ensures NewInstruction().format == Paper
  {
  }
}
