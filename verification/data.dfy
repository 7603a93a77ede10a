/** The records and enums of the engine (the `Data` class), as immutable values. */
module Data {

  /** C# `decimal` amounts (cash, prices), held exactly as rationals. */
  type Money = real

  /** Trading environment: simulated or real funds. */
  datatype Format = Paper | Live

  /** Instruction cadence; the first member is the enum's default. */
  datatype Frequency = Daily | Intraday

  datatype Asset = Asset(
    id: string,
    symbol: string,
    assetClass: string,
    exchange: string,
    status: string,
    tradeable: bool,
    marginable: bool,
    shortable: bool,
    easyToBorrow: bool)

  /** A named strategy: the query texts of its entry, exit-on-gain and
      exit-on-stop-loss predicates. */
  datatype Strategy = Strategy(name: string, entry: string, exitGain: string, exitLoss: string)

  /** A per-symbol automation rule. `quantity` is the policy's share count,
      not a holding. */
  datatype Instruction = Instruction(
    active: bool,
    description: string,
    format: Format,
    symbol: string,
    strategy: string,
    quantity: int,
    frequency: Frequency)

  /** A broker position; a positive quantity is a long holding. */
  datatype Position = Position(id: string, symbol: string, quantity: int)

  /** An open (unfilled) buy order as the broker reports it. */
  datatype Order = Order(symbol: string, quantity: int, format: Format)

  /** `new Instruction()`: the constructor sets Active to false and Format to
      Paper; every other property keeps its type's default, which for the
      Frequency enum is Daily. Strings, null in C#, are empty here. */
  function NewInstruction(): (r: Instruction)
    ensures !r.active && r.format == Paper
    ensures r.frequency == Daily && r.quantity == 0
  {
    Instruction(false, "", Paper, "", "", 0, Daily)
  }
}
