/**
 * The player's persistent progress: currency, upgrade levels, unlocks and the
 * log of the last battle, with the stat calculators derived from the levels.
 * The crit chance, a double in [0, 0.5], is kept as an integer percent.
 */
module GameStates {

  /** Java's `long`. */
  newtype Int64 = x: int | -0x8000_0000_0000_0000 <= x < 0x8000_0000_0000_0000

  /** One timeline entry: task label, start offset, duration and category tag. */
  datatype LogEntry = LogEntry(task: string, start: Int64, dur: Int64, category: string)

  datatype GameState = GameState(
    currency: int,
    levelFreq: int,
    levelRAM: int,
    levelStorage: int,
    levelCache: int,
    levelCooling: int,
    unlockHyperThreading: bool,
    currentGPUSkin: string,
    lastBattleLogs: seq<LogEntry>)

  const StartingCurrency := 600
  const CritCapPercent := 50

  /** A fresh state: starting cash, every level 0, nothing unlocked, no log. */
  function Initial(): GameState {
    GameState(StartingCurrency, 0, 0, 0, 0, 0, false, "Integrated Graphics", [])
  }

  /** Extra damage: 20 per frequency level. */
  function BonusDamage(g: GameState): int {
    g.levelFreq * 20
  }

  /** Extra RAM: 40 per RAM level. */
  function BonusRAM(g: GameState): int {
    g.levelRAM * 40
  }

  /** Extra HP: 150 per storage level. */
  function BonusHP(g: GameState): int {
    g.levelStorage * 150
  }

  /** Critical-hit chance in percent: 5 per cache level, at most 50. */
  function CritChancePercent(g: GameState): (r: int)
    ensures r <= CritCapPercent
    ensures r == CritCapPercent <==> g.levelCache >= 10
    ensures g.levelCache <= 10 ==> r == 5 * g.levelCache
    ensures g.levelCache >= 0 ==> r >= 0
  {
    if CritCapPercent <= g.levelCache * 5 then CritCapPercent else g.levelCache * 5
  }

  /** HP regenerated per turn: 15 per cooling level. */
  function RegenAmount(g: GameState): int {
    g.levelCooling * 15
  }

  /** A state whose every level is at least the corresponding level of `a`. */
  predicate LevelsAtLeast(a: GameState, b: GameState) {
    a.levelFreq <= b.levelFreq && a.levelRAM <= b.levelRAM && a.levelStorage <= b.levelStorage
    && a.levelCache <= b.levelCache && a.levelCooling <= b.levelCooling
  }

  /** Raising a level never lowers the bonus it feeds. */
  lemma CalculatorsMonotone(a: GameState, b: GameState)
    requires LevelsAtLeast(a, b)
    ensures BonusDamage(a) <= BonusDamage(b)
    ensures BonusRAM(a) <= BonusRAM(b)
    ensures BonusHP(a) <= BonusHP(b)
    ensures CritChancePercent(a) <= CritChancePercent(b)
    ensures RegenAmount(a) <= RegenAmount(b)
  {
  }

  /** Each bonus is exactly its per-level step times the level, the crit chance capped. */
  lemma CalculatorSteps(g: GameState)
    ensures BonusDamage(g.(levelFreq := g.levelFreq + 1)) == BonusDamage(g) + 20
    ensures BonusRAM(g.(levelRAM := g.levelRAM + 1)) == BonusRAM(g) + 40
    ensures BonusHP(g.(levelStorage := g.levelStorage + 1)) == BonusHP(g) + 150
    ensures RegenAmount(g.(levelCooling := g.levelCooling + 1)) == RegenAmount(g) + 15
    ensures 0 <= g.levelCache < 10 ==>
      CritChancePercent(g.(levelCache := g.levelCache + 1)) == CritChancePercent(g) + 5
    ensures g.levelCache >= 10 ==>
      CritChancePercent(g.(levelCache := g.levelCache + 1)) == CritChancePercent(g)
  {
  }

  /** A fresh state has 600 currency, no log, and every bonus and the crit chance at 0. */
  lemma InitialStateHasNoBonuses()
    ensures Initial().currency == 600 && Initial().lastBattleLogs == []
    ensures !Initial().unlockHyperThreading
    ensures BonusDamage(Initial()) == 0 && BonusRAM(Initial()) == 0 && BonusHP(Initial()) == 0
    ensures CritChancePercent(Initial()) == 0 && RegenAmount(Initial()) == 0
  {
  }
}
