# CPU Quest battle engine and scheduling demo, in Dafny

A model of the core of CPU Quest, a turn-based game in which a player's CPU
build fights "process" monsters with skills named after scheduling algorithms.

- **Battle engine** (`battle.dfy`, module `CyberQuestRpg`, class `Battle`). The
  session holds HP, RAM, action points (threads), two item stocks, a game-over
  flag, the turn phase, the firewall, boost and hyperthreading flags, and the
  arena: an ordered roster of monsters.
  - A skill is first committed (`TryAction`: guards, then RAM cost and one
    thread) and then resolved (`ExecuteSkill`):
    - FCFS hits the head for 30;
    - RR hits every entry for 15;
    - SJF hits the earliest entry of least HP for 50;
    - ULT hits every entry for 100;
    - DEFEND raises the firewall.
  - Spending the last thread on a skill ends the turn (`ExecuteSkill`). An item
    spent with the last thread does not end it; the player must press End Turn.
    `EndTurn` culls the dead and hands over to `EnemyPhase`: every monster waits one phase longer and hits for
    `5 + waitingTime`, the sum halved under hyperthreading, nothing when the
    firewall is up. RAM then regenerates by 15, threads refill to the core
    count, hyperthreading ends, a monster may spawn, and the game ends once HP
    is gone. `StartPlayerPhase` hands the turn back.
  - `UseItem` and `ActivateHyperthreading` complete the actions.
  - `Battle.Valid()` is the session invariant. It says `0 <= RAM <= maxRAM`,
    `HP <= maxHP`, `0 <= AP <= cores` (twice the cores while hyperthreading is
    on), non-negative stocks, and for every monster: flagged dead exactly when
    its HP is at or below 0. The thread bound holds with hyperthreading's
    one-second delay collapsed into the activation step; with the delay, the
    game can exceed it (see "Left out").
- **Monsters and archetypes** (`monster.dfy`, `enemy_type.dfy`). The ten
  archetypes are kept in declaration order. HP and damage multipliers are
  integer tenths; `maxHP` is `base * hpMult` truncated.
- **Scheduling demo** (`scheduler.dfy`, module `SchedulerSimulator`, class
  `Simulator`). A queue of `Process(name, burst, progress)` and one CPU. Each
  tick dispatches by FCFS, SJF or round robin (quantum 30), advances the running
  process by one unit, and retires it when its burst is done. The total work
  left falls by exactly one per tick, so a run always drains.
- **Player progress** (`game_state.dfy`, module `GameStates`). Currency, upgrade
  levels, the five stat calculators, and the battle log record.
- `cpu_profile.dfy` holds the CPU profile record the battle starts from.
  `text.dfy` renders counters in decimal for names.

Random draws are parameters of the operations that use them:
- a `SpawnRoll` (archetype index below 10, base HP in 40..69);
- whether an enemy phase spawns;
- the 0..99 draw behind a process burst.

The battle code has no crits, instability, overheat, or stage or boss waves: the
three boss archetypes spawn at random like any other.
The broadcast skill deals a flat 15 to every entry, enemy damage is
`5 + waitingTime`, and the damage multipliers are never read by the battle code.

The class comment of the archetype table bounds non-boss HP multipliers by
3.0. The table lists Adobe Premiere at 3.5, and the model follows the table.

## Model

| member | source | states |
|---|---|---|
| `Monsters.Scale` | Monster.java:16 | `(int)(base * mult)` for a multiplier in tenths: the exact product divided by 10, truncated toward zero (bounds on both sides, for either sign); equal to the double arithmetic for the bases 40..69 the spawner draws |
| `EnemyTypes.Label` | EnemyType.java:19-47 | each archetype's display name, as listed (no contract of its own; `Monsters.NewMonsterFields` states that a monster carries it) |
| `EnemyTypes.HpTenths` | EnemyType.java:19-47 | each archetype's HP multiplier in tenths (no contract of its own; its ranges are stated by `NonBossHpMultipliersInRange`, `BossesOutweighNonBosses` and `BossesGrowInStageOrder`) |
| `EnemyTypes.DmgTenths` | EnemyType.java:19-47 | each archetype's damage multiplier in tenths (no contract of its own; its range is stated by `DamageMultipliersInRange`) |
| `EnemyTypes.Ordinal` | EnemyType.java:19-47 | every archetype has a position in the declaration-order table, and the table holds it there |
| `EnemyTypes.AllTypesAreDistinct` | EnemyType.java:19-47 | the table has exactly ten archetypes, none twice, and every archetype occurs in it |
| `EnemyTypes.DamageMultipliersInRange` | EnemyType.java:9-47 | every damage multiplier lies in [2.0, 15.0] |
| `EnemyTypes.NonBossHpMultipliersInRange` | EnemyType.java:19-37 | every non-boss HP multiplier lies in [0.5, 3.5] |
| `EnemyTypes.NonBossHpMultiplierAboveCommentedCap` | EnemyType.java:7-37 | some non-boss HP multiplier exceeds the 3.0 the class comment claims |
| `EnemyTypes.BossesOutweighNonBosses` | EnemyType.java:19-47 | every boss HP multiplier exceeds every non-boss one |
| `EnemyTypes.BossesGrowInStageOrder` | EnemyType.java:39-47 | a boss listed later has a larger HP multiplier than a boss listed earlier |
| `Monsters.CyberpunkWorkedExamples` | EnemyType.java:54-61 | 140 x 10.0 = 1400 HP and 25 x 15.0 = 375 damage for Cyberpunk |
| `Monsters.NewMonster` | Monster.java:13-18 | a new monster's `maxHP` is its base times the archetype's HP multiplier, truncated (the exact tenths product; equal to the double arithmetic for the bases 40..69 the spawner draws) |
| `Monsters.NewMonsterFields` | Monster.java:10-17 | a new monster is named after its archetype whatever its id, starts with `currentHP == maxHP`, is neither hit nor dead, and has waited 0 phases |
| `Monsters.SpawnedHealthBounds` | Monster.java:13-17 | for every base the spawner draws (40..69) and every archetype, `maxHP` lies in [20, 690], so a spawned monster is alive |
| `CpuProfiles.OfferedBuildsUsable` | CyberQuestRPG.java:54-63 | the three offered builds have 1 to 3 cores and non-negative RAM |
| `Text.Decimal` | SchedulerSimulator.java:58 | a counter renders as decimal digits with no leading zero, and the digits denote exactly the counter |
| `Text.DecimalInjective` | SchedulerSimulator.java:58 | different counters render as different strings |
| `CyberQuestRpg.Cost` | CyberQuestRPG.java:122-138 | the RAM price of each skill button: only FCFS is free, and none costs more than 60 |
| `CyberQuestRpg.Damage` | CyberQuestRPG.java:215-225 | the damage of each skill: only DEFEND deals none, and none deals more than 100 |
| `CyberQuestRpg.ApplyDamage` | CyberQuestRPG.java:332-335 | a hit lowers `currentHP` by exactly the damage, with no clamp, sets the death flag when HP reaches 0 or below, and changes nothing else |
| `CyberQuestRpg.ApplyDamageKeepsConsistent` | CyberQuestRPG.java:332-335 | a non-negative hit keeps "dead exactly when HP <= 0" |
| `CyberQuestRpg.Spawned` | CyberQuestRPG.java:312-317 | the monster a spawner draw produces, its id the spawn counter (no contract of its own; `SpawnedConsistent` states its meaning) |
| `CyberQuestRpg.SpawnedConsistent` | CyberQuestRPG.java:312-317 | every monster the spawner can produce is of the drawn archetype, at full health, alive and consistent |
| `CyberQuestRpg.MinHpIndex` | CyberQuestRPG.java:221 | the priority target has the least `currentHP` in the roster, and every earlier entry has strictly more (ties go to the earliest; dead entries are eligible) |
| `CyberQuestRpg.Resolve` | CyberQuestRPG.java:214-229 | resolving a skill keeps the roster's length; which entries change and how is stated by `ResolveHitsExactlyTargets` |
| `CyberQuestRpg.ResolveHitsExactlyTargets` | CyberQuestRPG.java:214-226 | after a skill resolves, each entry is hit for the skill's damage if the skill targets it and is unchanged otherwise. The targets, stated independently: FCFS the head, RR and ULT everyone, DEFEND nobody, SJF the earliest entry of least HP |
| `CyberQuestRpg.ResolveKeepsConsistent` | CyberQuestRPG.java:214-226 | resolving any skill keeps every roster entry consistent |
| `CyberQuestRpg.Survivors` | CyberQuestRPG.java:237 | culling keeps only entries with HP above 0, all of them from the roster |
| `CyberQuestRpg.SurvivorsCount` | CyberQuestRPG.java:237 | culling keeps every living entry as many times as it occurs and removes every entry with HP <= 0 |
| `CyberQuestRpg.SurvivorsAppend` | CyberQuestRPG.java:237 | culling distributes over concatenation, so survivors keep their original order |
| `CyberQuestRpg.Incoming` | CyberQuestRPG.java:249-253 | the summed enemy damage of a phase (no contract of its own; `IncomingAppend` and `IncomingAtLeastSix` state its meaning) |
| `CyberQuestRpg.IncomingAppend` | CyberQuestRPG.java:249-253 | the enemy damage total is the sum of the monsters' individual hits |
| `CyberQuestRpg.IncomingAtLeastSix` | CyberQuestRPG.java:250-253 | each monster hits for at least 6 (5 plus a waiting time of at least 1) |
| `CyberQuestRpg.PhaseDamage` | CyberQuestRPG.java:245-263 | the player's HP loss in an enemy phase is never negative. It is 0 exactly when the roster is empty or the firewall is up, and at least 6 per monster when not halved |
| `CyberQuestRpg.Min` | CyberQuestRPG.java:269 | `Math.min`: the result is at most both arguments and is one of them |
| `CyberQuestRpg.Battle.constructor` | CyberQuestRPG.java:78-113 | boot state: full HP and RAM, one thread per core, 3 of each item, two spawned monsters (spawn counter 2), player phase, all flags down |
| `CyberQuestRpg.Battle.StartPlayerPhase` | CyberQuestRPG.java:159-166 | phase becomes PLAYER, boost and firewall flags are cleared, nothing else changes |
| `CyberQuestRpg.Battle.ActivateHyperthreading` | CyberQuestRPG.java:169-191 | refused, with nothing changed, when RAM < 30 or the mode is on (no phase or thread check). Otherwise it takes exactly 30 RAM, sets the flag and boost, and sets threads to twice the cores. The invariant is kept |
| `CyberQuestRpg.Battle.TryAction` | CyberQuestRPG.java:194-209 | accepted exactly when the game is not over, the phase is PLAYER, threads > 0, RAM covers the cost (FCFS 0, RR 10, SJF 20, DEFEND 15, ULT 60) and the roster is non-empty unless DEFEND. Accepted: RAM falls by exactly the cost, threads by exactly 1, nothing else changes. Refused: nothing changes |
| `CyberQuestRpg.Battle.HitAll` | CyberQuestRPG.java:217-225 | every roster entry is hit for the damage, in place, the rest of the session unchanged |
| `CyberQuestRpg.Battle.ExecuteSkill` | CyberQuestRPG.java:211-232 | the roster becomes the resolved roster and DEFEND raises the firewall. If no threads are left, the turn then ends: survivors only, phase ENEMY. Nothing else changes |
| `CyberQuestRpg.Battle.ApplySkill` | CyberQuestRPG.java:214-229 | the roster becomes the resolved roster and DEFEND raises the firewall; nothing else changes |
| `CyberQuestRpg.Battle.EndTurn` | CyberQuestRPG.java:234-242 | the roster is culled to its survivors in order and the phase becomes ENEMY, nothing else changes |
| `CyberQuestRpg.Battle.SpawnMonster` | CyberQuestRPG.java:312-319 | unless the game is over, the spawn counter rises by 1 and the drawn monster is appended at the tail; otherwise nothing changes |
| `CyberQuestRpg.Battle.AgeRoster` | CyberQuestRPG.java:249-253 | every monster's waiting time rises by 1 and the returned total is the phase damage sum |
| `CyberQuestRpg.Battle.Strike` | CyberQuestRPG.java:245-266 | with a non-empty roster and no firewall, monsters age and HP falls by the (possibly halved) total. Otherwise HP and waiting times are unchanged |
| `CyberQuestRpg.Battle.Recover` | CyberQuestRPG.java:268-273 | RAM becomes `min(maxRAM, RAM + 15)`, threads reset to the core count and hyperthreading ends; nothing else changes |
| `CyberQuestRpg.Battle.CheckGameOver` | CyberQuestRPG.java:278-282 | the game is over once HP is at or below 0, and a player phase follows exactly when HP > 0; nothing else changes |
| `CyberQuestRpg.Battle.EnemyPhase` | CyberQuestRPG.java:244-283 | HP falls by the phase damage and RAM becomes `min(maxRAM, RAM + 15)`. Threads reset to the core count and hyperthreading ends. The drawn monster is appended when a spawn is due and the game was not over. The game is over exactly when it was or HP <= 0, and a player phase follows exactly when HP > 0. The invariant is kept |
| `CyberQuestRpg.Battle.UseItem` | CyberQuestRPG.java:321-330 | nothing happens unless threads > 0 in the player phase. Otherwise one thread is spent even with no stock. With stock, the item is used up and HP (or RAM) becomes `min(max, value + 50)` |
| `GameStates.Initial` | GameState.java:7-22 | the fresh progress record (no contract of its own; `InitialStateHasNoBonuses` states its meaning) |
| `GameStates.BonusDamage` | GameState.java:33 | 20 damage per frequency level (no contract of its own; stated by `CalculatorSteps` and `CalculatorsMonotone`) |
| `GameStates.BonusRAM` | GameState.java:36 | 40 RAM per RAM level (no contract of its own; stated by `CalculatorSteps` and `CalculatorsMonotone`) |
| `GameStates.BonusHP` | GameState.java:39 | 150 HP per storage level (no contract of its own; stated by `CalculatorSteps` and `CalculatorsMonotone`) |
| `GameStates.RegenAmount` | GameState.java:45 | 15 HP regenerated per cooling level (no contract of its own; stated by `CalculatorSteps` and `CalculatorsMonotone`) |
| `GameStates.CritChancePercent` | GameState.java:42 | crit chance never exceeds 50%, is 5% per level up to level 10, reaches the cap exactly from level 10, and is non-negative for non-negative levels |
| `GameStates.CalculatorsMonotone` | GameState.java:33-45 | every calculator is non-decreasing in its level |
| `GameStates.CalculatorSteps` | GameState.java:32-45 | one more level adds exactly 20 damage, 40 RAM, 150 HP, 15 regen, and 5% crit below level 10 (0% from there) |
| `GameStates.InitialStateHasNoBonuses` | GameState.java:7-22 | a fresh state has 600 currency, nothing unlocked, an empty log, and every bonus and the crit chance at 0 |
| `SchedulerSimulator.RemoveAt` | SchedulerSimulator.java:77-86 | removing the dispatched entry shortens the queue by one and keeps the others in order |
| `SchedulerSimulator.RemoveAtLosesOnlyThatProcess` | SchedulerSimulator.java:77-86 | dispatching loses exactly the dispatched process from the queue and no other |
| `SchedulerSimulator.ShortestJobIndex` | SchedulerSimulator.java:81-82 | SJF picks an entry of least burst, every earlier entry having a strictly larger burst |
| `SchedulerSimulator.DispatchIndex` | SchedulerSimulator.java:77-86 | FCFS and round robin dispatch the head; the index is always in the queue |
| `SchedulerSimulator.NextName` | SchedulerSimulator.java:58 | the name of the next added process (no contract of its own; `NextNamesDistinct` states its meaning) |
| `SchedulerSimulator.NextNamesDistinct` | SchedulerSimulator.java:58 | the name is "P" followed by digits denoting the new queue length, so adds to queues of different lengths give different names; a dispatch shortens the queue, so a later name can repeat an earlier one |
| `SchedulerSimulator.Preempted` | SchedulerSimulator.java:92 | round robin sends a process back at a multiple of 30 that leaves work (no contract of its own; `Simulator.Tick` states the re-queue) |
| `SchedulerSimulator.WorkAppend` | SchedulerSimulator.java:91-95 | re-queueing at the tail adds exactly the process's remaining work |
| `SchedulerSimulator.WorkRemoveAt` | SchedulerSimulator.java:77-86 | dispatching moves exactly the dispatched process's remaining work out of the queue |
| `SchedulerSimulator.WorkAtLeastLength` | SchedulerSimulator.java:58 | a queue of unfinished processes holds at least one unit of work per process |
| `SchedulerSimulator.Simulator.constructor` | SchedulerSimulator.java:8-13 | a new simulator has an empty queue, an idle CPU, FCFS selected and no timer running |
| `SchedulerSimulator.Simulator.ResetSim` | SchedulerSimulator.java:62-67 | the timer stops, the queue empties and the CPU idles |
| `SchedulerSimulator.Simulator.SelectAlgorithm` | SchedulerSimulator.java:23 | choosing an algorithm selects it and resets the simulation |
| `SchedulerSimulator.Simulator.AddRandomProcess` | SchedulerSimulator.java:57-60 | exactly one process is appended at the tail, named "P" plus the new queue length, with progress 0 and burst in [20, 119]. Total work rises by its burst |
| `SchedulerSimulator.Simulator.StartSim` | SchedulerSimulator.java:69-70 | starting leaves the timer running and changes nothing else, whether or not it was running |
| `SchedulerSimulator.Simulator.Tick` | SchedulerSimulator.java:72-102 | An idle CPU with an empty queue stops the timer and nothing else changes. Otherwise the running process, or the one dispatched (head, or first least burst under SJF, removed with the rest kept in order), advances by exactly 1. Under round robin it is re-queued at the tail at a multiple of 30 that leaves work, and it leaves only when progress >= burst. Total work falls by exactly 1 |
| `SchedulerSimulator.Simulator.RunToCompletion` | SchedulerSimulator.java:69-104 | left to tick, the simulation always stops with an empty queue and an idle CPU |

## Left out

- The Swing user interface and its presentation state are not modelled: setup
  screens, buttons, progress bars, the log text area, `updateUI`, `repaint`,
  `GamePanel`, `BackgroundPanel`, `GanttChartPanel`, the simulator's
  `DrawPanel` and `updateText`.
- Log lines written by the battle are not modelled. They are text only and
  change no state.
- `triggerShake`, the hit-flash and the animation loops are not modelled. They
  are presentation driven by random jitter.
- Timers become explicit steps, and the 200 ms and 1000 ms delays are not
  modelled.
  - The End Turn button is not phase-guarded. While an enemy phase is pending,
    it can schedule a second one. That race is a timing artefact and is not
    modelled.
- CyberQuestRpg.Battle.ActivateHyperthreading: collapses the one-second delay
  before the thread pool doubles into the same step. Two interleavings inside
  that second are not captured.
  - A player action in that second spends threads before the pool is reset.
  - The button has no phase guard (CyberQuestRPG.java:169-171). Pressed just
    after End Turn, the enemy phase can run first: it resets threads to the core
    count and clears the mode flag (CyberQuestRPG.java:270, 273). The delayed
    timer then sets threads to twice the cores with the flag off
    (CyberQuestRPG.java:182-183), and the player can activate the mode again on
    top. The thread bound of `Battle.Valid()` holds only because the model has
    no such interleaving.
- CyberQuestRpg.Battle.ActivateHyperthreading: requires an x86-64 build,
  because the button exists only for that architecture (CyberQuestRPG.java:131).
  The ARM button only writes a log line.
- CyberQuestRpg.Battle.constructor: requires a profile with non-negative cores
  and RAM. The RAM and thread invariants need this, and every offered build has
  it.
- Random numbers (`Math.random`, `new Random()`) are not modelled. Each draw is
  a parameter restricted to the range the game draws from.
- The operating-system choice is not modelled. It is stored but never read by
  the battle code.
- `Hardware.java`, `Motherboard.java`, `OperatingSystem.java` and
  `MainMenu.java` (shop, power check, upgrade purchases) are not part of this
  model. They are constant tables or dialog code, and the power check calls
  members that exist in none of the files.
- Crits, instability, overheat, stage or boss waves and currency rewards have
  no implementation in the battle code, so they are not modelled. The three
  boss archetypes are drawn at random like the others (CyberQuestRPG.java:314-316).
- The `GameState.get()` singleton is not modelled. The state is an explicit
  value.
- The log record's `type` field is named `category`, because `type` is a Dafny
  keyword.
- GameStates.CritChancePercent: an integer percent stands for the double
  `min(0.50, levelCache * 0.05)`. The tiny rounding of the double product is
  not modelled (for example, 0.15000000000000002 at level 3).
- Damage multipliers (`dmgMult`) are kept in the table but nothing in the
  battle reads them.
- Archetype colours and descriptions, and the CPU profile's colour, are not
  modelled. They are presentation only.
- Monsters.Scale: HP multipliers are integer tenths, and the product is exact.
  It agrees with Java's double arithmetic only for the bases 40..69 that the
  spawner draws. Outside that range the two can differ. For base 90 and
  Notepad, Java gives 62, because the double 0.7 lies just below 0.7, while
  `Scale(90, 7)` is 63.
- Java's 32-bit `int` overflow is not modelled. The model's integers are
  unbounded, and every quantity the game produces stays far below 2^31.
- The upgrade calculators in `GameStates` follow the same unbounded-integer
  rule.
- Processes and monsters are values held in sequences, not shared objects. The
  Java code never holds one object in two places, so no aliasing is lost.
- SchedulerSimulator.Simulator.RunToCompletion: covers only the timer firing
  with no button pressed in between. Adding or resetting while it runs is an
  ordinary call to the other methods.
