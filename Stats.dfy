/**
  The stat arithmetic of the player's stats manager
  (Assets/Scripts/StatsManager.cs): four stats in a fixed array, a signed
  update with an overshoot-then-snap clamp, and the stamina rate chosen on
  every physics tick.

  Every `float` of the source is a `real` here.
 */
module Stats {

  /** The `StatName` enum; `(int)stat` is the declaration order. */
  datatype StatName = Health | Hunger | Stamina | Thirst

  const NUM_STATS: nat := 4

  /** Units per physics tick (1/50 s). */
  const STAMINA_GAIN_RATE: real := 0.25
  const STAMINA_LOSS_RATE: real := -STAMINA_GAIN_RATE * 2.0

  /** The C# cast `(int)stat`: an index into the stats array. */
  function Index(stat: StatName): (i: nat)
    ensures i < NUM_STATS
  {
    match stat
    case Health => 0
    case Hunger => 1
    case Stamina => 2
    case Thirst => 3
  }

  /** Different stats live at different indices. */
  lemma IndexIsInjective(s: StatName, t: StatName)
    ensures Index(s) == Index(t) <==> s == t
  {
  }

  /** The new value of one stat under `ChangeStat(stat, num)`: a gain is
      added while the stat is below 100 and otherwise snaps it to 100; a loss
      (or zero) is added while the stat is above 0 and otherwise snaps it to 0. */
  function Step(v: real, num: real): (r: real)
    ensures r == v + num || r == (if num > 0.0 then 100.0 else 0.0)
  {
    if num > 0.0 then
      if v < 100.0 then v + num else 100.0
    else
      if v > 0.0 then v + num else 0.0
  }

  /** The whole stats vector after `ChangeStat(stat, num)`. */
  function Apply(stats: seq<real>, stat: StatName, num: real): (r: seq<real>)
    requires |stats| == NUM_STATS
    ensures |r| == NUM_STATS
  {
    stats[Index(stat) := Step(stats[Index(stat)], num)]
  }

  /** The rate `FixedUpdate` applies to stamina. */
  function StaminaRate(moving: bool): (rate: real)
    ensures rate != 0.0 && (moving <==> rate < 0.0)
  {
    if moving then STAMINA_LOSS_RATE else STAMINA_GAIN_RATE
  }

  class StatsManager {
    const stats: array<real>

    ghost predicate Valid()
    {
      stats.Length == NUM_STATS
    }

    /** The field initialiser `new float[NUM_STATS]`: four zeros. */
    constructor ()
      ensures Valid() && fresh(stats)
      ensures stats[..] == [0.0, 0.0, 0.0, 0.0]
    {
      stats := new real[NUM_STATS](_ => 0.0);
      new;
      assert stats[..] == [stats[0], stats[1], stats[2], stats[3]];
    }

    /** `Start`'s stat initialisation: every stat is set to 100. */
    method Start()
      requires Valid()
      modifies stats
      ensures Valid()
      ensures forall i :: 0 <= i < stats.Length ==> stats[i] == 100.0
    {
      var i := 0;
      while i < stats.Length
        invariant 0 <= i <= stats.Length
        invariant forall j :: 0 <= j < i ==> stats[j] == 100.0
      {
        stats[i] := 100.0;
        i := i + 1;
      }
    }

    /** `ChangeStat`: only the named stat changes, and it changes by Step. */
    method ChangeStat(stat: StatName, num: real)
      requires Valid()
      modifies stats
      ensures Valid()
      ensures stats[..] == Apply(old(stats[..]), stat, num)
      ensures stats[Index(stat)] == Step(old(stats[Index(stat)]), num)
      ensures forall i :: 0 <= i < NUM_STATS && i != Index(stat) ==> stats[i] == old(stats[i])
    {
      var s := Index(stat);
      if num > 0.0 {
        if stats[s] < 100.0 {
          stats[s] := stats[s] + num;
        } else {
          stats[s] := 100.0;
        }
      } else {
        if stats[s] > 0.0 {
          stats[s] := stats[s] + num;
        } else {
          stats[s] := 0.0;
        }
      }
    }

    /** `FixedUpdate`, with the joystick test abstracted to `moving`: stamina
        loses the loss rate while moving and gains the gain rate otherwise. */
    method FixedUpdate(moving: bool)
      requires Valid()
      modifies stats
      ensures Valid()
      ensures stats[..] == Apply(old(stats[..]), Stamina, StaminaRate(moving))
    {
      if moving {
        ChangeStat(Stamina, STAMINA_LOSS_RATE);
      } else {
        ChangeStat(Stamina, STAMINA_GAIN_RATE);
      }
    }
  }

  // ---------------------------------------------------------------------------
  // Properties of the update rule
  // ---------------------------------------------------------------------------

  /** `ChangeStat` touches one entry and leaves the others as they were. */
  lemma ApplyChangesOnlyThatStat(stats: seq<real>, stat: StatName, num: real)
    requires |stats| == NUM_STATS
    ensures |Apply(stats, stat, num)| == NUM_STATS
    ensures Apply(stats, stat, num)[Index(stat)] == Step(stats[Index(stat)], num)
    ensures forall i :: 0 <= i < NUM_STATS && i != Index(stat) ==> Apply(stats, stat, num)[i] == stats[i]
  {
  }

  /** Updates of two different stats do not interfere. */
  lemma ApplyCommutes(stats: seq<real>, s: StatName, m: real, t: StatName, n: real)
    requires |stats| == NUM_STATS && s != t
    ensures Apply(Apply(stats, s, m), t, n) == Apply(Apply(stats, t, n), s, m)
  {
    IndexIsInjective(s, t);
  }

  /** A gain on a stat below 100 is added in full, so the stat can end above
      100, but by less than the gain; a gain on a stat at or above 100 snaps
      it to exactly 100. */
  lemma GainStep(v: real, num: real)
    requires num > 0.0
    ensures v < 100.0 ==> Step(v, num) == v + num && Step(v, num) < 100.0 + num
    ensures v >= 100.0 ==> Step(v, num) == 100.0
  {
  }

  /** A loss (or a zero change) on a stat above 0 is added in full, so the
      stat can end below 0, but by less than the loss; on a stat at or below 0
      it snaps it to exactly 0. */
  lemma LossStep(v: real, num: real)
    requires num <= 0.0
    ensures v > 0.0 ==> Step(v, num) == v + num && Step(v, num) > num
    ensures v <= 0.0 ==> Step(v, num) == 0.0
  {
  }

  /** From the range [0, 100], one gain leaves the stat in [0, 100 + num]
      and one loss leaves it in [num, 100]. */
  lemma StepBounds(v: real, num: real)
    requires 0.0 <= v <= 100.0
    ensures num > 0.0 ==> 0.0 <= Step(v, num) <= 100.0 + num
    ensures num <= 0.0 ==> num <= Step(v, num) <= 100.0
  {
  }

  /** A value pushed out of range is brought back by the next change of the
      same sign: above 100 a gain yields 100, below 0 a loss yields 0. */
  lemma SnapBack(v: real, num: real)
    ensures v > 100.0 && num > 0.0 ==> Step(v, num) == 100.0
    ensures v < 0.0 && num <= 0.0 ==> Step(v, num) == 0.0
  {
  }

  /** The loss rate is exactly twice the gain rate, with the opposite sign. */
  lemma StaminaRates()
    ensures StaminaRate(false) == STAMINA_GAIN_RATE == 0.25
    ensures StaminaRate(true) == STAMINA_LOSS_RATE == -0.5
    ensures StaminaRate(true) == -2.0 * StaminaRate(false)
  {
  }

  // ---------------------------------------------------------------------------
  // Stamina over many ticks
  // ---------------------------------------------------------------------------

  /** Stamina after one `FixedUpdate` per entry of `moves`, in order. */
  function StaminaAfter(v: real, moves: seq<bool>): (stamina: real)
    decreases moves
  {
    if moves == [] then v else StaminaAfter(Step(v, StaminaRate(moves[0])), moves[1..])
  }

  /** A multiple of 1/4, the granularity of both stamina rates. */
  predicate OnQuarterGrid(v: real)
  {
    (v * 4.0).Floor as real == v * 4.0
  }

  /** A gain of a quarter from at most 99.75 on the grid stays on the grid
      and reaches at most 100. */
  lemma GainTick(v: real)
    requires OnQuarterGrid(v) && -0.25 <= v <= 100.0
    ensures OnQuarterGrid(Step(v, 0.25)) && -0.25 <= Step(v, 0.25) <= 100.0
  {
    var n := (v * 4.0).Floor;
    if v < 100.0 {
      assert n <= 399;
      assert (v + 0.25) * 4.0 == (n + 1) as real;
    }
  }

  /** A loss of a half from at least 0.25 on the grid stays on the grid and
      reaches at least -0.25. */
  lemma LossTick(v: real)
    requires OnQuarterGrid(v) && -0.25 <= v <= 100.0
    ensures OnQuarterGrid(Step(v, -0.5)) && -0.25 <= Step(v, -0.5) <= 100.0
  {
    var n := (v * 4.0).Floor;
    if v > 0.0 {
      assert n >= 1;
      assert (v - 0.5) * 4.0 == (n - 2) as real;
    }
  }

  /** One tick keeps stamina on the quarter grid and within [-0.25, 100]. */
  lemma StaminaTick(v: real, moving: bool)
    requires OnQuarterGrid(v) && -0.25 <= v <= 100.0
    ensures OnQuarterGrid(Step(v, StaminaRate(moving)))
    ensures -0.25 <= Step(v, StaminaRate(moving)) <= 100.0
  {
    StaminaRates();
    if moving { LossTick(v); } else { GainTick(v); }
  }

  /** Whatever the player does, stamina that starts on the quarter grid in
      [-0.25, 100] (100 after `Start`, in particular) never leaves that range:
      it overshoots below 0 by at most one quarter and never exceeds 100. */
  lemma {:induction false} StaminaStaysInRange(v: real, moves: seq<bool>)
    requires OnQuarterGrid(v) && -0.25 <= v <= 100.0
    ensures OnQuarterGrid(StaminaAfter(v, moves))
    ensures -0.25 <= StaminaAfter(v, moves) <= 100.0
    decreases moves
  {
    if moves != [] {
      StaminaTick(v, moves[0]);
      StaminaStaysInRange(Step(v, StaminaRate(moves[0])), moves[1..]);
    }
  }

  /** Stamina reaches 100 after `Start`, which lies on the grid. */
  lemma FullStaminaOnGrid()
    ensures OnQuarterGrid(100.0)
  {
    assert (100.0 * 4.0).Floor == 400;
  }
}
