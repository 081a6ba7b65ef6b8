/**
 * The enemy archetype table: display label, HP multiplier and damage multiplier.
 * The multipliers all have one decimal place and are kept here as integer tenths
 * (0.5 is 5, 15.0 is 150).
 */
module EnemyTypes {

  datatype EnemyType =
    | Calculator | Notepad
    | Chrome | VsCode
    | Android | Blender | Premiere
    | ZipBomb | Ransomware | Cyberpunk

  /** Every archetype, in declaration order: the order `values()` returns them in. */
  const AllTypes: seq<EnemyType> :=
    [Calculator, Notepad, Chrome, VsCode, Android, Blender, Premiere, ZipBomb, Ransomware, Cyberpunk]

  function Label(t: EnemyType): string {
    match t
    case Calculator => "Calc.exe"
    case Notepad => "Notepad"
    case Chrome => "Chrome Tab"
    case VsCode => "VS Code"
    case Android => "Android Studio"
    case Blender => "Blender Render"
    case Premiere => "Adobe Premiere"
    case ZipBomb => "ZipBomb.rar"
    case Ransomware => "WannaCry"
    case Cyberpunk => "Cyberpunk 2077"
  }

  /** hpMult, in tenths. */
  function HpTenths(t: EnemyType): nat {
    match t
    case Calculator => 5
    case Notepad => 7
    case Chrome => 15
    case VsCode => 12
    case Android => 30
    case Blender => 25
    case Premiere => 35
    case ZipBomb => 60
    case Ransomware => 80
    case Cyberpunk => 100
  }

  /** dmgMult, in tenths. */
  function DmgTenths(t: EnemyType): nat {
    match t
    case Calculator => 20
    case Notepad => 22
    case Chrome => 40
    case VsCode => 45
    case Android => 60
    case Blender => 80
    case Premiere => 30
    case ZipBomb => 30
    case Ransomware => 50
    case Cyberpunk => 150
  }

  /** The floor-finale archetypes. */
  predicate IsBoss(t: EnemyType) {
    t.ZipBomb? || t.Ransomware? || t.Cyberpunk?
  }

  /** The position of `t` in declaration order. */
  function Ordinal(t: EnemyType): (i: nat)
    ensures i < |AllTypes| && AllTypes[i] == t
  {
    match t
    case Calculator => 0
    case Notepad => 1
    case Chrome => 2
    case VsCode => 3
    case Android => 4
    case Blender => 5
    case Premiere => 6
    case ZipBomb => 7
    case Ransomware => 8
    case Cyberpunk => 9
  }

  /** The table lists ten archetypes, each exactly once. */
  lemma AllTypesAreDistinct()
    ensures |AllTypes| == 10
    ensures forall i, j :: 0 <= i < j < |AllTypes| ==> AllTypes[i] != AllTypes[j]
    ensures forall t :: t in AllTypes
  {
    forall t ensures t in AllTypes {
      assert AllTypes[Ordinal(t)] == t;
    }
  }

  /** Every damage multiplier lies in [2.0, 15.0]. */
  lemma DamageMultipliersInRange(t: EnemyType)
    ensures 20 <= DmgTenths(t) <= 150
  {
  }

  /** Non-boss HP multipliers lie in [0.5, 3.5]. */
  lemma NonBossHpMultipliersInRange(t: EnemyType)
    requires !IsBoss(t)
    ensures 5 <= HpTenths(t) <= 35
  {
  }

  /**
   * The class comment bounds non-boss HP multipliers by 3.0; the table has a
   * non-boss archetype above it.
   */
  lemma NonBossHpMultiplierAboveCommentedCap()
    ensures exists t :: !IsBoss(t) && HpTenths(t) > 30
  {
    assert !IsBoss(Premiere) && HpTenths(Premiere) == 35;
  }

  /** Every boss is bulkier than every non-boss. */
  lemma BossesOutweighNonBosses(boss: EnemyType, other: EnemyType)
    requires IsBoss(boss) && !IsBoss(other)
    ensures HpTenths(other) < HpTenths(boss)
  {
    NonBossHpMultipliersInRange(other);
  }

  /** Bosses appear in stage order, and each later boss is bulkier than an earlier one. */
  lemma BossesGrowInStageOrder(i: nat, j: nat)
    requires i < j < |AllTypes|
    requires IsBoss(AllTypes[i]) && IsBoss(AllTypes[j])
    ensures HpTenths(AllTypes[i]) < HpTenths(AllTypes[j])
  {
  }
}
