/**
 * The battle engine: the player's CPU against a roster of process monsters.
 * Skills are bought with RAM and one action point (thread) each; at the end of
 * a turn the dead are culled, the survivors strike back, RAM regenerates and the
 * thread pool refills.
 *
 * Random draws (which archetype spawns, its base HP, whether an enemy phase
 * spawns at all) are parameters. Each timer of the game is a separate step:
 * TryAction commits and ExecuteSkill resolves; EndTurn, then EnemyPhase, then
 * StartPlayerPhase. Hyperthreading's one-second delay is collapsed into one step.
 */
module CyberQuestRpg {
  import opened EnemyTypes
  import opened Monsters
  import opened CpuProfiles
  import opened Text

  datatype Skill = Fcfs | RoundRobin | Sjf | Defend | Ult

  /** The two consumables: cooling paste ("HEAL") and RAM sticks ("RAM"). */
  datatype Item = Heal | RamStick

  datatype Phase = PlayerTurn | EnemyTurn

  /** One spawner draw: an index into the archetype table and a base HP. */
  datatype SpawnRoll = SpawnRoll(typeIndex: nat, base: int)

  predicate ValidRoll(r: SpawnRoll) {
    r.typeIndex < |AllTypes| && MinSpawnBase <= r.base <= MaxSpawnBase
  }

  const HyperthreadingCost := 30
  const RamRegen := 15
  const ItemRestore := 50
  const StartingStock := 3

  /** The RAM price each skill button passes along. */
  function Cost(s: Skill): (r: nat)
    ensures r == 0 <==> s == Fcfs
    ensures r <= 60
  {
    match s
    case Fcfs => 0
    case RoundRobin => 10
    case Sjf => 20
    case Defend => 15
    case Ult => 60
  }

  /** The damage each skill deals to each target it hits. */
  function Damage(s: Skill): (d: nat)
    ensures d == 0 <==> s == Defend
    ensures d <= 100
  {
    match s
    case Fcfs => 30
    case RoundRobin => 15
    case Sjf => 50
    case Ult => 100
    case Defend => 0
  }

  /** A monster after a hit for `dmg`: HP lowered without clamp, marked dead once at or below 0. */
  function ApplyDamage(m: Monster, dmg: int): (r: Monster)
    ensures r.currentHP == m.currentHP - dmg
    ensures r.isDead <==> m.isDead || r.currentHP <= 0
    ensures r == m.(currentHP := r.currentHP, isDead := r.isDead)
  {
    var hp := m.currentHP - dmg;
    m.(currentHP := hp, isDead := m.isDead || hp <= 0)
  }

  /** The roster invariant: a monster is flagged dead exactly when its HP is gone. */
  predicate Consistent(m: Monster) {
    (m.isDead <==> m.currentHP <= 0) && m.waitingTime >= 0
  }

  predicate AllConsistent(roster: seq<Monster>) {
    forall i :: 0 <= i < |roster| ==> Consistent(roster[i])
  }

  /** A non-negative hit keeps the death flag in step with HP. */
  lemma ApplyDamageKeepsConsistent(m: Monster, dmg: int)
    requires Consistent(m) && dmg >= 0
    ensures Consistent(ApplyDamage(m, dmg))
  {
  }

  /** The monster a spawner draw produces, its id being the spawn counter. */
  function Spawned(roll: SpawnRoll, time: nat): Monster
    requires ValidRoll(roll)
  {
    NewMonster(Decimal(time), AllTypes[roll.typeIndex], roll.base)
  }

  /** A spawn is of the drawn archetype, unhurt, alive and consistent. */
  lemma SpawnedConsistent(roll: SpawnRoll, time: nat)
    requires ValidRoll(roll)
    ensures Spawned(roll, time).kind == AllTypes[roll.typeIndex]
    ensures 0 < Spawned(roll, time).currentHP == Spawned(roll, time).maxHP
    ensures Consistent(Spawned(roll, time))
  {
    SpawnedHealthBounds(AllTypes[roll.typeIndex], roll.base);
    assert Spawned(roll, time) == NewMonster("", AllTypes[roll.typeIndex], roll.base);
  }

  /**
   * The target of the priority skill: the minimum of `currentHP` over the roster
   * taken left to right, an earlier entry winning a tie.
   */
  function MinHpIndex(roster: seq<Monster>): (k: nat)
    requires roster != []
    ensures k < |roster|
    ensures forall j :: 0 <= j < |roster| ==> roster[k].currentHP <= roster[j].currentHP
    ensures forall j :: 0 <= j < k ==> roster[j].currentHP > roster[k].currentHP
  {
    if |roster| == 1 then 0
    else
      var k := MinHpIndex(roster[..|roster| - 1]);
      if roster[k].currentHP <= roster[|roster| - 1].currentHP then k else |roster| - 1
  }

  /** Every entry hit for `dmg`. */
  function Struck(roster: seq<Monster>, dmg: int): (r: seq<Monster>)
    ensures |r| == |roster|
  {
    seq(|roster|, i requires 0 <= i < |roster| => ApplyDamage(roster[i], dmg))
  }

  /** The roster after a skill resolves. */
  function Resolve(skill: Skill, roster: seq<Monster>): (r: seq<Monster>)
    ensures |r| == |roster|
  {
    match skill
    case Fcfs => if roster == [] then roster else roster[0 := ApplyDamage(roster[0], Damage(Fcfs))]
    case RoundRobin => Struck(roster, Damage(RoundRobin))
    case Sjf =>
      if roster == [] then roster
      else var k := MinHpIndex(roster); roster[k := ApplyDamage(roster[k], Damage(Sjf))]
    case Ult => Struck(roster, Damage(Ult))
    case Defend => roster
  }

  /**
   * Which entries a skill hits, stated without reference to how the target is
   * found: the head, everyone, nobody, or the earliest entry of least HP.
   */
  predicate Targeted(skill: Skill, roster: seq<Monster>, i: nat)
    requires i < |roster|
  {
    match skill
    case Fcfs => i == 0
    case RoundRobin => true
    case Ult => true
    case Defend => false
    case Sjf =>
      && (forall j :: 0 <= j < |roster| ==> roster[i].currentHP <= roster[j].currentHP)
      && (forall j :: 0 <= j < i ==> roster[j].currentHP > roster[i].currentHP)
  }

  /** Exactly the targeted entries lose the skill's damage; the others are unchanged. */
  lemma ResolveHitsExactlyTargets(skill: Skill, roster: seq<Monster>, i: nat)
    requires i < |roster|
    ensures Resolve(skill, roster)[i] ==
      if Targeted(skill, roster, i) then ApplyDamage(roster[i], Damage(skill)) else roster[i]
  {
  }

  /** A skill never breaks the roster invariant. */
  lemma ResolveKeepsConsistent(skill: Skill, roster: seq<Monster>)
    requires AllConsistent(roster)
    ensures AllConsistent(Resolve(skill, roster))
  {
    forall i | 0 <= i < |roster| ensures Consistent(Resolve(skill, roster)[i]) {
      ResolveHitsExactlyTargets(skill, roster, i);
      ApplyDamageKeepsConsistent(roster[i], Damage(skill));
    }
  }

  /** `removeIf(m -> m.currentHP <= 0)`: the survivors, in their original order. */
  function Survivors(roster: seq<Monster>): (r: seq<Monster>)
    ensures |r| <= |roster|
    ensures forall i :: 0 <= i < |r| ==> r[i].currentHP > 0 && r[i] in roster
  {
    if roster == [] then []
    else (if roster[0].currentHP > 0 then [roster[0]] else []) + Survivors(roster[1..])
  }

  /** Culling keeps every living entry as often as it occurs and drops every dead one. */
  lemma {:induction false} SurvivorsCount(roster: seq<Monster>, m: Monster)
    ensures multiset(Survivors(roster))[m] == if m.currentHP > 0 then multiset(roster)[m] else 0
  {
    if roster != [] {
      var head := if roster[0].currentHP > 0 then [roster[0]] else [];
      assert multiset(Survivors(roster)) == multiset(head) + multiset(Survivors(roster[1..]));
      assert roster == [roster[0]] + roster[1..];
      assert multiset(roster) == multiset([roster[0]]) + multiset(roster[1..]);
      SurvivorsCount(roster[1..], m);
    }
  }

  /** Culling distributes over concatenation, so survivors keep their relative order. */
  lemma {:induction false} SurvivorsAppend(a: seq<Monster>, b: seq<Monster>)
    ensures Survivors(a + b) == Survivors(a) + Survivors(b)
  {
    if a == [] {
      assert a + b == b;
    } else {
      assert (a + b)[1..] == a[1..] + b;
      SurvivorsAppend(a[1..], b);
    }
  }

  /** A monster after surviving one more enemy phase. */
  function Aged(m: Monster): Monster {
    m.(waitingTime := m.waitingTime + 1)
  }

  /** The raw damage a roster deals in one enemy phase: 5 plus the new waiting time, per monster. */
  function Incoming(roster: seq<Monster>): int {
    if roster == [] then 0
    else Incoming(roster[..|roster| - 1]) + 5 + Aged(roster[|roster| - 1]).waitingTime
  }

  /** The phase damage is additive over the roster. */
  lemma {:induction false} IncomingAppend(a: seq<Monster>, b: seq<Monster>)
    ensures Incoming(a + b) == Incoming(a) + Incoming(b)
  {
    if b != [] {
      var c := b[..|b| - 1];
      assert (a + b)[..|a + b| - 1] == a + c;
      IncomingAppend(a, c);
    } else {
      assert a + b == a;
    }
  }

  /** Each monster of a consistent roster deals at least 6. */
  lemma {:induction false} IncomingAtLeastSix(roster: seq<Monster>)
    requires AllConsistent(roster)
    ensures Incoming(roster) >= 6 * |roster|
  {
    if roster != [] {
      IncomingAtLeastSix(roster[..|roster| - 1]);
    }
  }

  /** Every monster one phase older. */
  function AgedAll(roster: seq<Monster>): (r: seq<Monster>)
    ensures |r| == |roster|
  {
    seq(|roster|, i requires 0 <= i < |roster| => Aged(roster[i]))
  }

  /**
   * The HP the player loses in an enemy phase: nothing against an empty roster
   * or a raised firewall, otherwise the incoming damage, halved (rounding down)
   * under hyperthreading.
   */
  function PhaseDamage(roster: seq<Monster>, defending: bool, halved: bool): (d: int)
    requires AllConsistent(roster)
    ensures d >= 0
    ensures d == 0 <==> roster == [] || defending
    ensures !halved && roster != [] && !defending ==> d >= 6 * |roster|
  {
    IncomingAtLeastSix(roster);
    if roster == [] || defending then 0
    else if halved then Incoming(roster) / 2
    else Incoming(roster)
  }

  /** `Math.min`: the smaller of the two. */
  function Min(a: int, b: int): (r: int)
    ensures r <= a && r <= b
    ensures r == a || r == b
  {
    if b < a then b else a
  }

  /** The live battle session. */
  class Battle {
    const cpu: CpuProfile
    var arena: seq<Monster>
    var hp: int
    var ram: int
    var ap: int
    var coolingPotions: int
    var ramSticks: int
    var isGameOver: bool
    var globalTime: nat
    var phase: Phase
    var isDefending: bool
    var isBoosted: bool
    var htActive: bool

    /** Every mutable field, for stating what a step leaves alone. */
    ghost function Snapshot(): Session
      reads this
    {
      Session(arena, hp, ram, ap, coolingPotions, ramSticks, isGameOver, globalTime, phase,
              isDefending, isBoosted, htActive)
    }

    /** The thread budget: the core count, doubled while hyperthreading is active. */
    function ThreadCap(): int
      reads this
    {
      if htActive then 2 * cpu.physicalCores else cpu.physicalCores
    }

    ghost predicate Valid()
      reads this
    {
      && Usable(cpu)
      && 0 <= ram <= cpu.maxRAM
      && hp <= cpu.maxHP
      && 0 <= ap <= ThreadCap()
      && coolingPotions >= 0 && ramSticks >= 0
      && AllConsistent(arena)
    }

    /** Boot: full HP and RAM, one thread per core, two spawns, player to move. */
    constructor (profile: CpuProfile, first: SpawnRoll, second: SpawnRoll)
      requires Usable(profile) && ValidRoll(first) && ValidRoll(second)
      ensures Valid() && cpu == profile
      ensures Snapshot() == Session(
        [Spawned(first, 1), Spawned(second, 2)], profile.maxHP, profile.maxRAM,
        profile.physicalCores, StartingStock, StartingStock, false, 2, PlayerTurn,
        false, false, false)
    {
      cpu := profile;
      hp := profile.maxHP;
      ram := profile.maxRAM;
      ap := profile.physicalCores;
      coolingPotions, ramSticks := StartingStock, StartingStock;
      isGameOver := false;
      SpawnedConsistent(first, 1);
      SpawnedConsistent(second, 2);
      arena := [Spawned(first, 1), Spawned(second, 2)];
      globalTime := 2;
      phase := PlayerTurn;
      isDefending, isBoosted, htActive := false, false, false;
    }

    /** Resets the per-turn flags and hands the turn to the player. */
    method StartPlayerPhase()
      requires Valid()
      modifies this
      ensures Valid()
      ensures Snapshot() == old(Snapshot()).(phase := PlayerTurn, isBoosted := false, isDefending := false)
    {
      phase := PlayerTurn;
      isBoosted := false;
      isDefending := false;
    }

    /**
     * Splits the cores: costs 30 RAM and sets the thread pool to twice the core
     * count. Refused when RAM is short or the mode is already on; there is no
     * phase or thread check. Only offered on x86-64 builds.
     */
    method ActivateHyperthreading() returns (activated: bool)
      requires Valid() && cpu.arch == X86_64
      modifies this
      ensures Valid()
      ensures activated == (old(ram) >= HyperthreadingCost && !old(htActive))
      ensures activated ==> Snapshot() == old(Snapshot()).(
        ram := old(ram) - HyperthreadingCost, htActive := true,
        ap := 2 * cpu.physicalCores, isBoosted := true)
      ensures !activated ==> Snapshot() == old(Snapshot())
    {
      if ram < HyperthreadingCost { return false; }
      if htActive { return false; }
      ram := ram - HyperthreadingCost;
      htActive := true;
      ap := cpu.physicalCores * 2;
      isBoosted := true;
      return true;
    }

    /**
     * The guard and commit of a skill: when accepted, its RAM cost and one thread
     * are spent; otherwise nothing changes.
     */
    method TryAction(skill: Skill) returns (accepted: bool)
      requires Valid()
      modifies this
      ensures Valid()
      ensures accepted == (
        && !old(isGameOver) && old(phase) == PlayerTurn
        && old(ap) > 0 && old(ram) >= Cost(skill)
        && (old(arena) != [] || skill == Defend))
      ensures accepted ==> Snapshot() == old(Snapshot()).(ram := old(ram) - Cost(skill), ap := old(ap) - 1)
      ensures !accepted ==> Snapshot() == old(Snapshot())
    {
      if isGameOver || phase != PlayerTurn { return false; }
      if ap <= 0 { return false; }
      if ram < Cost(skill) { return false; }
      if arena == [] && skill != Defend { return false; }
      ram := ram - Cost(skill);
      ap := ap - 1;
      return true;
    }

    /** Hits every monster in the arena for `dmg`, in roster order. */
    method HitAll(dmg: int)
      requires Valid() && dmg >= 0
      modifies this
      ensures Valid()
      ensures Snapshot() == old(Snapshot()).(arena := Struck(old(arena), dmg))
    {
      ghost var before := arena;
      var i := 0;
      while i < |arena|
        invariant 0 <= i <= |arena| == |before|
        invariant forall j :: 0 <= j < i ==> arena[j] == ApplyDamage(before[j], dmg)
        invariant forall j :: i <= j < |arena| ==> arena[j] == before[j]
        invariant Snapshot() == old(Snapshot()).(arena := arena)
      {
        arena := arena[i := ApplyDamage(arena[i], dmg)];
        i := i + 1;
      }
      forall j | 0 <= j < |arena| ensures Consistent(arena[j]) {
        ApplyDamageKeepsConsistent(before[j], dmg);
      }
    }

    /**
     * The resolution of a committed skill; when it used the last thread, the turn
     * ends at once.
     */
    method ExecuteSkill(skill: Skill)
      requires Valid()
      modifies this
      ensures Valid()
      ensures var r := Resolve(skill, old(arena));
        var s := old(Snapshot()).(arena := r, isDefending := old(isDefending) || skill == Defend);
        Snapshot() == if old(ap) <= 0 then s.(arena := Survivors(r), phase := EnemyTurn) else s
    {
      ApplySkill(skill);
      if ap <= 0 {
        EndTurn();
      }
    }

    /** The skill's effect on the roster, or the firewall for DEFEND. */
    method ApplySkill(skill: Skill)
      requires Valid()
      modifies this
      ensures Valid()
      ensures Snapshot() == old(Snapshot()).(
        arena := Resolve(skill, old(arena)), isDefending := old(isDefending) || skill == Defend)
    {
      match skill {
      case Fcfs =>
        if arena != [] {
          ApplyDamageKeepsConsistent(arena[0], Damage(Fcfs));
          arena := arena[0 := ApplyDamage(arena[0], Damage(Fcfs))];
        }
      case RoundRobin =>
        HitAll(Damage(RoundRobin));
      case Sjf =>
        if arena != [] {
          var k := MinHpIndex(arena);
          ApplyDamageKeepsConsistent(arena[k], Damage(Sjf));
          arena := arena[k := ApplyDamage(arena[k], Damage(Sjf))];
        }
      case Ult =>
        HitAll(Damage(Ult));
      case Defend =>
        isDefending := true;
      }
    }

    /** Ends the player's turn: culls the dead and hands over to the enemies. */
    method EndTurn()
      requires Valid()
      modifies this
      ensures Valid()
      ensures Snapshot() == old(Snapshot()).(arena := Survivors(old(arena)), phase := EnemyTurn)
    {
      phase := EnemyTurn;
      arena := Survivors(arena);
    }

    /**
     * Adds one monster at the end of the roster, unless the game is over. The
     * spawner's random archetype and base are the draw `roll`.
     */
    method SpawnMonster(roll: SpawnRoll)
      requires Valid() && ValidRoll(roll)
      modifies this
      ensures Valid()
      ensures old(isGameOver) ==> Snapshot() == old(Snapshot())
      ensures !old(isGameOver) ==> Snapshot() == old(Snapshot()).(
        globalTime := old(globalTime) + 1,
        arena := old(arena) + [Spawned(roll, old(globalTime) + 1)])
    {
      if isGameOver { return; }
      globalTime := globalTime + 1;
      SpawnedConsistent(roll, globalTime);
      arena := arena + [Spawned(roll, globalTime)];
    }

    /** Every monster waits one phase longer; returns the total damage they deal. */
    method AgeRoster() returns (total: int)
      requires Valid()
      modifies this
      ensures Valid()
      ensures Snapshot() == old(Snapshot()).(arena := AgedAll(old(arena)))
      ensures total == Incoming(old(arena))
    {
      ghost var before := arena;
      total := 0;
      var i := 0;
      while i < |arena|
        invariant 0 <= i <= |arena| == |before|
        invariant forall j :: 0 <= j < i ==> arena[j] == Aged(before[j])
        invariant forall j :: i <= j < |arena| ==> arena[j] == before[j]
        invariant Snapshot() == old(Snapshot()).(arena := arena)
        invariant total == Incoming(before[..i])
      {
        assert before[..i + 1][..i] == before[..i];
        arena := arena[i := Aged(arena[i])];
        total := total + 5 + arena[i].waitingTime;
        i := i + 1;
      }
      assert before[..i] == before;
      assert arena == AgedAll(before);
    }

    /**
     * The damage half of the enemies' turn: unless the roster is empty or the
     * firewall is up, every monster ages and the player takes the phase damage.
     */
    method Strike()
      requires Valid()
      modifies this
      ensures Valid()
      ensures Snapshot() == old(Snapshot()).(
        arena := if old(arena) != [] && !old(isDefending) then AgedAll(old(arena)) else old(arena),
        hp := old(hp) - PhaseDamage(old(arena), old(isDefending), old(htActive)))
    {
      if arena != [] {
        if !isDefending {
          IncomingAtLeastSix(arena);
          var total := AgeRoster();
          if htActive {
            total := total / 2;
          }
          hp := hp - total;
        }
      }
    }

    /** The reset for the next turn: RAM regenerates, the thread pool refills, hyperthreading ends. */
    method Recover()
      requires Valid()
      modifies this
      ensures Valid()
      ensures Snapshot() == old(Snapshot()).(
        ram := Min(cpu.maxRAM, old(ram) + RamRegen), ap := cpu.physicalCores, htActive := false)
    {
      ram := Min(cpu.maxRAM, ram + RamRegen);
      ap := cpu.physicalCores;
      htActive := false;
    }

    /**
     * The enemies' turn. Unless the roster is empty or the firewall is up, every
     * monster waits one phase longer and the player loses the summed damage,
     * halved while hyperthreading is active. Then RAM regenerates by 15 up to
     * the cap, the thread pool refills to the core count, hyperthreading ends, a
     * monster spawns when `spawn` holds, and the game is over once HP is gone.
     * `resume` says whether a player phase follows.
     */
    method EnemyPhase(spawn: bool, roll: SpawnRoll) returns (resume: bool)
      requires Valid() && ValidRoll(roll)
      modifies this
      ensures Valid()
      ensures var hit := old(arena) != [] && !old(isDefending);
        var spawns := spawn && !old(isGameOver);
        var hpAfter := old(hp) - PhaseDamage(old(arena), old(isDefending), old(htActive));
        Snapshot() == old(Snapshot()).(
          arena := (if hit then AgedAll(old(arena)) else old(arena))
                   + (if spawns then [Spawned(roll, old(globalTime) + 1)] else []),
          globalTime := if spawns then old(globalTime) + 1 else old(globalTime),
          hp := hpAfter,
          ram := Min(cpu.maxRAM, old(ram) + RamRegen),
          ap := cpu.physicalCores,
          htActive := false,
          isGameOver := old(isGameOver) || hpAfter <= 0)
      ensures resume <==> hp > 0
    {
      ghost var s0 := Snapshot();
      Strike();
      Recover();
      ghost var s2 := Snapshot();
      assert s2 == s0.(
        arena := if s0.arena != [] && !s0.isDefending then AgedAll(s0.arena) else s0.arena,
        hp := s0.hp - PhaseDamage(s0.arena, s0.isDefending, s0.htActive),
        ram := Min(cpu.maxRAM, s0.ram + RamRegen), ap := cpu.physicalCores, htActive := false);
      if spawn {
        SpawnMonster(roll);
      }
      resume := CheckGameOver();
    }

    /** The game ends once HP is gone; otherwise a player phase follows. */
    method CheckGameOver() returns (resume: bool)
      requires Valid()
      modifies this
      ensures Valid()
      ensures Snapshot() == old(Snapshot()).(isGameOver := old(isGameOver) || hp <= 0)
      ensures resume <==> hp > 0
    {
      if hp <= 0 {
        isGameOver := true;
        resume := false;
      } else {
        resume := true;
      }
    }

    /**
     * Spends a thread on a consumable during the player's phase. With stock left,
     * the item is used up and restores 50 HP (or RAM), clamped at the maximum; with
     * none, the thread is spent for nothing.
     */
    method UseItem(item: Item)
      requires Valid()
      modifies this
      ensures Valid()
      ensures old(ap) <= 0 || old(phase) != PlayerTurn ==> Snapshot() == old(Snapshot())
      ensures old(ap) > 0 && old(phase) == PlayerTurn ==>
        var s := old(Snapshot()).(ap := old(ap) - 1);
        Snapshot() ==
          if item == Heal && old(coolingPotions) > 0 then
            s.(coolingPotions := old(coolingPotions) - 1,
               hp := Min(cpu.maxHP, old(hp) + ItemRestore))
          else if item == RamStick && old(ramSticks) > 0 then
            s.(ramSticks := old(ramSticks) - 1,
               ram := Min(cpu.maxRAM, old(ram) + ItemRestore))
          else s
    {
      if ap <= 0 || phase != PlayerTurn { return; }
      ap := ap - 1;
      if item == Heal && coolingPotions > 0 {
        coolingPotions := coolingPotions - 1;
        hp := Min(cpu.maxHP, hp + ItemRestore);
      } else if item == RamStick && ramSticks > 0 {
        ramSticks := ramSticks - 1;
        ram := Min(cpu.maxRAM, ram + ItemRestore);
      }
    }
  }

  /** The mutable part of a battle, as one value. */
  datatype Session = Session(
    arena: seq<Monster>,
    hp: int,
    ram: int,
    ap: int,
    coolingPotions: int,
    ramSticks: int,
    isGameOver: bool,
    globalTime: nat,
    phase: Phase,
    isDefending: bool,
    isBoosted: bool,
    htActive: bool)
}
