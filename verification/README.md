# Marana daily trade-decision engine, in Dafny

A model of the core of Marana's unattended trading automation: the run
orchestrator (`Trading.RunAutomation`), the daily decision cycle
(`Trading.RunAutomation_Daily`), the available-cash calculation
(`Trading.GetAvailableCash`), the symbol-range trimming of the asset list
(`Data.Select_Assets`) and the records of the `Data` class.

Every collaborator reply (database lists, broker positions and orders, the
market clock, validity timestamps, predicate results, prices, order
submission results) is an input. A run is a pure function of a `Snapshot`
(what is fetched before the loop) and one `World` per scheduled
instruction (what that instruction's daily cycle reads). `null` and
"not the expected type" are `None`; C# `decimal` is `real`; `DateTime` is
an integer count of 100-nanosecond ticks, with `DateTime.MinValue` as 0.

Modules, one per concept:

- `Wrappers`: `Option`.
- `Lists`: `List<T>.Find`, first-match index, and LINQ `Where`.
- `Data`: `Asset`, `Strategy`, `Instruction`, `Position`, `Order`, `Format`,
  `Frequency`, and the `Instruction()` defaults.
- `AssetSelection`: `Select_Assets` with `Trim`/`ToUpper`.
- `Funds`: `GetAvailableCash`. It has a reference definition on the whole
  catalogue (`AvailableCash`) and a loop method shaped as the C# method
  (`GetAvailableCash`) proved equal to it.
- `DailyCycle`: the freshness check, the single refresh, the decision and
  the call counts (`Trace`).
- `Automation`: the prechecks in their fixed order and the per-instruction
  fold.

Behaviour worth knowing, all as the code does it:

- An open order whose price entry exists but holds no price adds 999999 to
  the reserved value. It is not multiplied by the quantity, because
  `q * null ?? 999999m` coalesces the whole product.
- Validity equal to the last close leads to neither a refresh nor an
  evaluation.
- In `Select_Assets`, an unknown start symbol leaves the start index at -1.
  The kept length is then one more than the end index suggests. With one
  argument that means only the first asset is kept, and an empty list makes
  `RemoveRange` throw. With an end symbol at index `ej`, the first `ej + 2`
  assets are kept, and the call throws when the end symbol is the last
  asset (`SelectUnknownStart`).

## Model

| member | source | states |
|---|---|---|
| `Lists.FirstIndex` | Marana/Classes/Data.cs:150-163 | the index found holds a match and no earlier element does; None means no element matches |
| `Lists.Find` | marana/Classes/Trading.cs:107-110 | None exactly when nothing matches; otherwise the element at the first matching index |
| `Lists.Filter` | marana/Classes/Trading.cs:66 | never longer than the input |
| `Lists.FilterCounts` | marana/Classes/Trading.cs:66 | each element satisfying the predicate is kept as many times as the input holds it; the others are dropped entirely |
| `Lists.FilterAppend` | marana/Classes/Trading.cs:66 | filtering a concatenation is the concatenation of the filtered parts, so the input order is kept |
| `Lists.FilterSingle` | marana/Classes/Trading.cs:66 | a one-element list survives whole exactly when its element satisfies the predicate |
| `Lists.MapWithIndex` | marana/Classes/Trading.cs:106-132 | the loop as a fold: one result per element, in order, the i-th computed from the i-th element and its position |
| `Lists.FilterMembers` | marana/Classes/Trading.cs:66 | an element is kept exactly when it is in the input and satisfies the predicate |
| `Lists.FindThroughFilter` | marana/Classes/Trading.cs:47-51 | searching a filtered list for something the filter always keeps finds the same element as searching the whole list |
| `Data.NewInstruction` | Marana/Classes/Data.cs:118-121 | a default instruction is inactive, Paper, Daily (the enum default), quantity 0 |
| `AssetSelection.TrimStart` | Marana/Classes/Data.cs:152 | the result is a suffix of the input with no leading white space; everything dropped is white space |
| `AssetSelection.TrimEnd` | Marana/Classes/Data.cs:152 | the result is a prefix of the input with no trailing white space; everything dropped is white space |
| `AssetSelection.Trim` | Marana/Classes/Data.cs:152 | the result is a contiguous part of the input; everything before and after it is white space, and a non-empty result starts and ends with a non-white-space character |
| `AssetSelection.TrimWindow` | Marana/Classes/Data.cs:152 | trimming the start and then the end leaves a contiguous part of the input with only white space around it |
| `AssetSelection.ToUpper` | Marana/Classes/Data.cs:152 | same length; no lower-case letter remains; each lower-case letter becomes the upper-case letter at the same alphabet position; every other character is unchanged |
| `AssetSelection.UpperKeepsEnds` | Marana/Classes/Data.cs:152 | upper-casing a trimmed string leaves no white space at either end |
| `AssetSelection.UpperIsFixed` | Marana/Classes/Data.cs:152 | a string without lower-case letters is its own upper-casing |
| `AssetSelection.TrimmedIsFixed` | Marana/Classes/Data.cs:152 | a string with no white space at either end is its own trim |
| `AssetSelection.NormalizeIdempotent` | Marana/Classes/Data.cs:152 | trimming and upper-casing an already normalized argument changes nothing |
| `AssetSelection.IndexOfSymbol` | Marana/Classes/Data.cs:150-163 | the first asset with the symbol, or -1 exactly when no asset has it |
| `AssetSelection.FirstMatchIsIndex` | Marana/Classes/Data.cs:163 | the first asset carrying a symbol is the index IndexOf reports |
| `AssetSelection.SelectAssets` | Marana/Classes/Data.cs:140-143 | with no arguments the list is unchanged |
| `AssetSelection.SelectBetween` | Marana/Classes/Data.cs:150-169 | both (normalized) symbols found, first matches at si <= ej: the inclusive range `assets[si..ej]` |
| `AssetSelection.SelectFrom` | Marana/Classes/Data.cs:156-168 | start found, and no end symbol, an unknown one or one before the start: the suffix from the start |
| `AssetSelection.SelectUnknownStart` | Marana/Classes/Data.cs:150-169 | unknown start: the first `endAt + 2` assets, or the exception when the list is shorter (endAt is -1 without a usable end) |
| `AssetSelection.SelectFailsOnlyOnUnknownStart` | Marana/Classes/Data.cs:163-169 | the second `RemoveRange` can only throw when the start symbol is unknown |
| `AssetSelection.TrimmedIsWindow` | Marana/Classes/Data.cs:163-169 | a successful pair of `RemoveRange` calls leaves one contiguous run of the list |
| `AssetSelection.SelectBySymbolsIsWindow` | Marana/Classes/Data.cs:150-169 | for any start and end symbol, a selection that does not throw is a contiguous slice of the list |
| `AssetSelection.SelectIsWindow` | Marana/Classes/Data.cs:140-171 | whenever the trimming does not throw, the result is a contiguous, order-preserving slice of the input |
| `Funds.MarkedValueKnownIff` | marana/Classes/Trading.cs:45-57 | the reserved value is known exactly when every open order has an asset and a price key |
| `Funds.AvailableCash` | marana/Classes/Trading.cs:26-59 | unknown when the cash or the order list is unknown or some order cannot be valued, and in no other case; equals the cash when there are no open orders |
| `Funds.ReferencedAssetFor` | marana/Classes/Trading.cs:47-51 | an order's asset is the same in the catalogue cut to the orders' symbols as in the whole catalogue |
| `Funds.ReferencedValuation` | marana/Classes/Trading.cs:47-56 | valuing an order against the cut catalogue gives the same answer as against the whole one |
| `Funds.MarkedValueSnoc` | marana/Classes/Trading.cs:50-57 | one more resolvable order adds its mark to the running total |
| `Funds.ScanStepKnown` | marana/Classes/Trading.cs:50-57 | a loop step that values its order against the cut catalogue extends the total over the prefix by that order's mark |
| `Funds.ScanStepUnknown` | marana/Classes/Trading.cs:50-54 | a loop step that cannot value its order against the cut catalogue means the reserved value over all orders is unknown |
| `Funds.GetAvailableCash` | marana/Classes/Trading.cs:26-60 | the loop with early exits, shaped as `Trading.GetAvailableCash`, returns exactly the reference available cash |
| `Funds.MarkedValueNonNegative` | marana/Classes/Trading.cs:45-57 | with non-negative quantities and prices the reserved value is non-negative |
| `Funds.ReservationsNeverAddCash` | marana/Classes/Trading.cs:45-59 | under the same condition the available cash never exceeds the tradeable cash |
| `Funds.SingleUnresolvableOrder` | marana/Classes/Trading.cs:50-54 | one open order without an asset or a price key makes the available cash unknown |
| `Funds.SinglePricedOrder` | marana/Classes/Trading.cs:50-59 | one priced open order: cash minus quantity × price |
| `Funds.SingleUnpricedOrder` | marana/Classes/Trading.cs:56-59 | one open order whose price key holds no price: cash minus 999999, whatever the quantity |
| `DailyCycle.Decide` | marana/Classes/Trading.cs:165-245 | a buy is for the instruction's quantity with nothing held and no identical order, and affordable without margin; a sell is for the held quantity of a long position; orders need all three predicates known |
| `DailyCycle.RunDaily` | marana/Classes/Trading.cs:138-247 | at most one refresh and one extra validity read; predicates evaluated (three reads) exactly when the outcome is not NotFresh, and exactly when the checked validity is newer than the close; the buy and sell sizing rules |
| `DailyCycle.StaleDataRefreshedOnce` | marana/Classes/Trading.cs:150-160 | stale data: exactly one refresh and two validity reads; still stale after the re-read means no evaluation and no order |
| `DailyCycle.RefreshIff` | marana/Classes/Trading.cs:153-158 | a refresh happens exactly when the first validity predates the close |
| `DailyCycle.ValidityAtCloseIsIdle` | marana/Classes/Trading.cs:153-160 | validity equal to the close: no refresh, no evaluation, no order |
| `DailyCycle.MissingValidityIsStale` | Marana/Classes/Database.cs:263-283 | the minimal timestamp of a missing validity row triggers the refresh whenever the close is later |
| `DailyCycle.UnknownCloseIsOneDayBack` | marana/Classes/Trading.cs:144-148 | with the clock query failed, data is stale exactly when older than now minus one day |
| `DailyCycle.BuyIff` | marana/Classes/Trading.cs:175-211 | buy exactly when fresh, entry the only signal, no long position, no identical order, and (without margin) known cash covering the known cost; always for the instruction quantity |
| `DailyCycle.SellIff` | marana/Classes/Trading.cs:225-242 | sell exactly when fresh, predicates known, entry false, some exit true and a long position held; always for the held quantity |
| `DailyCycle.BadSignalsPlaceNoOrder` | marana/Classes/Trading.cs:165-245 | an unknown predicate gives EvalError, entry with an exit gives Conflict, no signal gives NoTrigger |
| `DailyCycle.SellsHeldNotInstructedQuantity` | marana/Classes/Trading.cs:228-233 | holding 7 under an instruction for 10, an exit-on-gain signal sells 7 |
| `DailyCycle.NoHoldingNoSell` | marana/Classes/Trading.cs:228-229 | a zero position with a stop-loss signal places no sell |
| `DailyCycle.UnresolvableReservationBlocksBuy` | marana/Classes/Trading.cs:189-194 | cash 1000 with one open order that has no asset or no price entry: cash unknown, and a buy without margin is blocked |
| `Automation.ForFormat` | marana/Classes/Trading.cs:66 | null stays null; otherwise an instruction is selected exactly when it was fetched and has the run's format, and as many times as it was fetched |
| `Automation.ForFormatAppend` | marana/Classes/Trading.cs:66 | the selection keeps the fetched order: selecting from a concatenation concatenates the selections |
| `Automation.ForFormatSingle` | marana/Classes/Trading.cs:66 | a single fetched instruction is selected exactly when it has the run's format |
| `Automation.Process` | marana/Classes/Trading.cs:106-131 | the daily cycle runs exactly for a resolved, active, Daily instruction, without margin, with the position matched by symbol and the order matched by symbol and quantity |
| `Automation.RunAutomation` | marana/Classes/Trading.cs:62-136 | aborts for positions, then orders, then assets, then instructions, then strategies; reaches the instructions exactly when all five prechecks pass, with one step per scheduled instruction, in order |
| `Automation.ScheduledHaveFormat` | marana/Classes/Trading.cs:66 | every instruction a run walks through has the run's format |
| `Automation.OnlyActiveDailyInstructionsRun` | marana/Classes/Trading.cs:125-130 | an inactive or non-Daily instruction gets no daily cycle and no collaborator call |
| `Automation.OpenOrderPreventsRepeatBuy` | marana/Classes/Trading.cs:110-182 | an open buy order with the same symbol and quantity in the snapshot prevents a second buy |
| `Automation.RunBuysFollowInstruction` | marana/Classes/Trading.cs:125-211 | every buy in a run is for an active Daily instruction of the run's format, for its quantity, and affordable |
| `Automation.RunSellsFollowHolding` | marana/Classes/Trading.cs:109-233 | every sell in a run is sized to the first position with the instruction's symbol, a long holding |
| `Automation.NewInstructionNeverRuns` | Marana/Classes/Data.cs:118-121 | a default-constructed instruction is Paper and never reaches the daily cycle |

## Left out

- Console output (`Prompt.WriteLine`) and message text, including the
  "Both/Gain/Stop-Loss" label: they do not affect any decision.
- `Strategy.Interpret` and `Database.ScalarQuery`: the three predicate
  results are `Option<bool>` inputs.
- Broker and library calls (`GetTradeableCash`, `GetOrders_OpenBuy`,
  `GetPositions`, `GetTime_LastMarketClose`, `GetAssets`, `GetLastPrice`,
  `GetLastPrices`, `Update_TSD`, order placement): foreign I/O. Their replies
  are inputs. The refresh is counted in `Trace.refreshes`.
- `Task.Delay(10000)`, `DateTime.UtcNow` and async/await: the pause has no
  effect on the decision, and "now" is an input.
- Database access (`Marana/Classes/Database.cs`): only the minimal timestamp
  that `GetValidity` yields for a missing row or a failed connection is kept
  (`MinTime`).
- `Data.Order` is used by Trading.cs but not declared in Data.cs; it is
  modelled from its uses: symbol, integer quantity, format.
- `Data.Daily`, `Price` and `Metric`: they carry data for an indicator
  library, and the core never reads them.
- The Settings form, CSV export and help text: UI and I/O.
- Funds.GetAvailableCash: a null `GetAssets()` reply is not modelled (the
  catalogue is a list). With open orders present, `Trading.GetAvailableCash` throws a
  NullReferenceException in that case.
- Funds.AvailableCash: `decimal` overflow and rounding are not modelled.
  Amounts are exact rationals.
- AssetSelection.Trim and AssetSelection.ToUpper: white space follows
  `char.IsWhiteSpace`, but upper-casing covers ASCII letters only. Culture
  rules and non-ASCII case mappings are not modelled.
- AssetSelection.IndexOfSymbol: `IndexOf` compares references. The model
  uses the index of the first symbol match, which is what `Select_Assets` gets,
  because the searched object is the first match or a fresh `new Asset()`.
  Null list entries are not modelled.
- DailyCycle.LastClose: `DateTime` range limits are not modelled, including
  the exception when now minus one day would fall below `DateTime.MinValue`.
- Data.NewInstruction: the string properties are null in C# and empty here.
- DailyCycle.Decide: `lastPrice` None stands for the `lastPrice == null`
  test at Trading.cs:199. That test cannot fire when the bar is a
  `Data.Daily.Price`, whose `Close` is a non-nullable `decimal`. A null bar
  from `GetLastPrice` throws a NullReferenceException at Trading.cs:196 and
  ends the whole run; the model does not represent that throw and instead
  records `PriceUnknown` for the instruction and goes on to the next one.
- Exceptions thrown by collaborators are not modelled. No failure path in
  `Trading.RunAutomation` or `RunAutomation_Daily` catches them.
