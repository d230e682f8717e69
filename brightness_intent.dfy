/** The brightness arithmetic of the Siri intents: the five preset levels
    and the clamped 20-point steps of the increase and decrease intents,
    all of which end in `setBrightness`. */
module BrightnessIntent {
  import opened Wrappers
  import opened Checks
  import opened CommandBuilder
  import opened BleState

  datatype BrightnessLevel = VeryLow | Low | Medium | High | Max

  /** The percentage each preset stands for. */
  function Value(level: BrightnessLevel): (v: int)
    ensures 20 <= v <= 100 && v % 20 == 0
    ensures v == 100 <==> level == Max
  {
    match level
    case VeryLow => 20
    case Low => 40
    case Medium => 60
    case High => 80
    case Max => 100
  }

  /** The five presets, from very low to maximum. */
  lemma PresetValues()
    ensures Value(VeryLow) == 20 && Value(Low) == 40 && Value(Medium) == 60
    ensures Value(High) == 80 && Value(Max) == 100
  {
  }

  /** The preset a percentage stands for, if any. */
  function LevelOf(v: int): (level: Option<BrightnessLevel>)
    ensures level.Some? <==> 20 <= v <= 100 && v % 20 == 0
  {
    if v == 20 then Some(VeryLow)
    else if v == 40 then Some(Low)
    else if v == 60 then Some(Medium)
    else if v == 80 then Some(High)
    else if v == 100 then Some(Max)
    else None
  }

  /** Presets and their percentages correspond one to one. */
  lemma ValueRoundTrip(level: BrightnessLevel, v: int)
    ensures LevelOf(Value(level)) == Some(level)
    ensures LevelOf(v).Some? ==> Value(LevelOf(v).value) == v
  {
  }

  /** Every preset gives a brightness `setBrightness` accepts, and the
      frame it sends is built without a range failure. */
  lemma PresetsAreAccepted(level: BrightnessLevel)
    ensures 0 <= Value(level) <= 100
    ensures BuildBrightnessCommand(ScalePercent(Value(level))).Success?
  {
  }

  /** The increase intent's new level: 20 more, capped at 100. */
  function Increase(current: int): (n: int)
    ensures n <= 100
    ensures current <= 100 ==> current <= n
    ensures n == current + 20 || n == 100
  {
    if current + 20 < 100 then current + 20 else 100
  }

  /** The decrease intent's new level: 20 less, floored at 0. */
  function Decrease(current: int): (n: int)
    ensures 0 <= n
    ensures 0 <= current ==> n <= current
    ensures n == current - 20 || n == 0
  {
    if current - 20 > 0 then current - 20 else 0
  }

  /** From a valid brightness both steps give a valid brightness. */
  lemma StepsStayInRange(current: int)
    requires 0 <= current <= 100
    ensures 0 <= Increase(current) <= 100
    ensures 0 <= Decrease(current) <= 100
  {
  }

  /** Each step is a fixed point at its bound, and only there. */
  lemma StepsStopAtBounds(current: int)
    ensures Increase(current) == current <==> current == 100
    ensures Decrease(current) == current <==> current == 0
  {
  }

  /** Away from the bounds the two steps undo each other. */
  lemma StepsUndoEachOther(current: int)
    ensures current <= 80 ==> Decrease(Increase(current)) == current || current < 0
    ensures 20 <= current ==> Increase(Decrease(current)) == current || current > 100
  {
  }

  /** Both steps keep the order of levels. */
  lemma StepsAreMonotone(a: int, b: int)
    requires a <= b
    ensures Increase(a) <= Increase(b)
    ensures Decrease(a) <= Decrease(b)
  {
  }

  /** The level after `k` increase intents. */
  function IncreaseTimes(current: int, k: nat): int
    decreases k
  {
    if k == 0 then current else IncreaseTimes(Increase(current), k - 1)
  }

  /** The level after `k` decrease intents. */
  function DecreaseTimes(current: int, k: nat): int
    decreases k
  {
    if k == 0 then current else DecreaseTimes(Decrease(current), k - 1)
  }

  /** `k` increases raise a level by 20 each, until 100. */
  lemma {:induction false} IncreaseTimesClimbs(current: int, k: nat)
    requires current <= 100
    ensures IncreaseTimes(current, k) == if current + 20 * k < 100 then current + 20 * k else 100
    decreases k
  {
    if k > 0 {
      IncreaseTimesClimbs(Increase(current), k - 1);
    }
  }

  /** `k` decreases lower a level by 20 each, down to 0. */
  lemma {:induction false} DecreaseTimesFalls(current: int, k: nat)
    requires 0 <= current
    ensures DecreaseTimes(current, k) == if current - 20 * k > 0 then current - 20 * k else 0
    decreases k
  {
    if k > 0 {
      DecreaseTimesFalls(Decrease(current), k - 1);
    }
  }

  /** Five increase intents reach full brightness from any valid level,
      and five decrease intents reach zero. */
  lemma FiveStepsReachTheBounds(current: int)
    requires 0 <= current <= 100
    ensures IncreaseTimes(current, 5) == 100
    ensures DecreaseTimes(current, 5) == 0
  {
    IncreaseTimesClimbs(current, 5);
    DecreaseTimesFalls(current, 5);
  }
}
