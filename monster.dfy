/** A spawned enemy. Its later changes (damage, ageing) are made by the battle engine. */
module Monsters {
  import opened EnemyTypes

  datatype Monster = Monster(
    name: string,
    kind: EnemyType,
    maxHP: int,
    currentHP: int,
    isHit: bool,
    isDead: bool,
    waitingTime: int)

  /** The smallest and largest base HP the spawner draws. */
  const MinSpawnBase := 40
  const MaxSpawnBase := 69

  /**
   * Java's `(int)(base * mult)` with `mult` given in tenths: the exact product
   * `base * tenths / 10`, truncated toward zero.
   */
  function Scale(base: int, tenths: nat): (r: int)
    ensures var p := base * tenths;
      (p >= 0 ==> 0 <= r && 10 * r <= p < 10 * r + 10) &&
      (p < 0 ==> r <= 0 && 10 * r - 10 < p <= 10 * r)
  {
    var p := base * tenths;
    if p >= 0 then p / 10 else -((-p) / 10)
  }

  /** The worked examples of the archetype table's comments: 140 x 10.0 and 25 x 15.0 for Cyberpunk. */
  lemma CyberpunkWorkedExamples()
    ensures Scale(140, HpTenths(Cyberpunk)) == 1400
    ensures Scale(25, DmgTenths(Cyberpunk)) == 375
  {
  }

  /** `new Monster(id, type, base)`: health is the base scaled by the archetype's HP multiplier. */
  function NewMonster(id: string, kind: EnemyType, base: int): (m: Monster)
    ensures base >= 0 ==> 10 * m.maxHP <= base * HpTenths(kind) < 10 * m.maxHP + 10
  {
    var hp := Scale(base, HpTenths(kind));
    Monster(Label(kind), kind, hp, hp, false, false, 0)
  }

  /**
   * A new monster is named after its archetype whatever its id, starts at full
   * health with both flags down and has not waited yet.
   */
  lemma NewMonsterFields(id: string, kind: EnemyType, base: int)
    ensures var m := NewMonster(id, kind, base);
      && m.name == Label(kind) && m.kind == kind
      && m.currentHP == m.maxHP
      && !m.isHit && !m.isDead && m.waitingTime == 0
      && NewMonster("", kind, base) == m
  {
  }

  /** For every base the spawner draws, maxHP lies in [20, 690] and the monster is alive. */
  lemma SpawnedHealthBounds(kind: EnemyType, base: int)
    requires MinSpawnBase <= base <= MaxSpawnBase
    ensures 20 <= NewMonster("", kind, base).maxHP <= 690
    ensures NewMonster("", kind, base).currentHP > 0
  {
    var t := HpTenths(kind);
    assert 5 <= t <= 100 by { HpTenthsRange(kind); }
    assert 200 <= base * t by { MulMono(40, base, 5, t); }
    assert base * t <= 6900 by { MulMono(base, 69, t, 100); }
  }

  lemma HpTenthsRange(kind: EnemyType)
    ensures 5 <= HpTenths(kind) <= 100
  {
  }

  lemma MulMono(a: int, b: int, c: int, d: int)
    requires 0 <= a <= b && 0 <= c <= d
    ensures a * c <= b * d
  {
    assert a * c <= b * c;
    assert b * c <= b * d;
  }
}
