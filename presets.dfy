/**
 * The quick-start presets: for a tier, every integer input is drawn at random
 * from a fixed half-open range. The draw is modelled as a nondeterministic
 * choice, constrained only by the ranges.
 */
module Presets {
  import opened Outcomes
  import opened Features

  /** The half-open range [low, high) that np.random.randint(low, high) draws from. */
  datatype Range = Range(low: int, high: int) {
    predicate Contains(x: int) { low <= x < high }
  }

  /** The integer inputs a preset sets. */
  const PresetFields: set<Field> :=
    {BatteryPower, Ram, IntMemory, Pc, Fc, NCores, PxHeight, PxWidth, ScH, ScW, MobileWt, TalkTime}

  function BudgetRange(f: Field): Option<Range> {
    match f
    case BatteryPower => Some(Range(3000, 4500))
    case Ram => Some(Range(2000, 4000))
    case IntMemory => Some(Range(32, 128))
    case Pc => Some(Range(8, 16))
    case Fc => Some(Range(5, 10))
    case NCores => Some(Range(4, 6))
    case PxHeight => Some(Range(720, 1080))
    case PxWidth => Some(Range(1280, 1920))
    case ScH => Some(Range(12, 15))
    case ScW => Some(Range(6, 8))
    case MobileWt => Some(Range(180, 220))
    case TalkTime => Some(Range(10, 15))
    case _ => None
  }

  function MidRangeRange(f: Field): Option<Range> {
    match f
    case BatteryPower => Some(Range(4000, 5000))
    case Ram => Some(Range(4000, 6000))
    case IntMemory => Some(Range(128, 256))
    case Pc => Some(Range(12, 20))
    case Fc => Some(Range(8, 16))
    case NCores => Some(Range(6, 8))
    case PxHeight => Some(Range(1080, 1440))
    case PxWidth => Some(Range(1920, 2560))
    case ScH => Some(Range(14, 16))
    case ScW => Some(Range(7, 8))
    case MobileWt => Some(Range(160, 190))
    case TalkTime => Some(Range(15, 20))
    case _ => None
  }

  function PremiumRange(f: Field): Option<Range> {
    match f
    case BatteryPower => Some(Range(4500, 5500))
    case Ram => Some(Range(6000, 8000))
    case IntMemory => Some(Range(256, 512))
    case Pc => Some(Range(20, 40))
    case Fc => Some(Range(12, 20))
    case NCores => Some(Range(8, 10))
    case PxHeight => Some(Range(1440, 1800))
    case PxWidth => Some(Range(2560, 3200))
    case ScH => Some(Range(15, 17))
    case ScW => Some(Range(7, 9))
    case MobileWt => Some(Range(150, 180))
    case TalkTime => Some(Range(18, 24))
    case _ => None
  }

  function LuxuryRange(f: Field): Option<Range> {
    match f
    case BatteryPower => Some(Range(5000, 7000))
    case Ram => Some(Range(8000, 12000))
    case IntMemory => Some(Range(512, 1024))
    case Pc => Some(Range(40, 100))
    case Fc => Some(Range(20, 40))
    case NCores => Some(Range(10, 16))
    case PxHeight => Some(Range(1800, 2400))
    case PxWidth => Some(Range(3200, 3840))
    case ScH => Some(Range(16, 19))
    case ScW => Some(Range(8, 10))
    case MobileWt => Some(Range(180, 250))
    case TalkTime => Some(Range(20, 30))
    case _ => None
  }

  /**
   * The range a preset for `tier` draws field `f` from: tiers 0, 1 and 2 have
   * their own ranges and every other tier gets the Luxury ones. Exactly the
   * preset fields have a range, and no range is empty, so randint never fails.
   */
  function PresetRange(tier: int, f: Field): (r: Option<Range>)
    ensures r.Some? <==> f in PresetFields
    ensures r.Some? ==> r.value.low < r.value.high
  {
    if tier == 0 then BudgetRange(f)
    else if tier == 1 then MidRangeRange(f)
    else if tier == 2 then PremiumRange(f)
    else LuxuryRange(f)
  }

  /** Any class index other than 0, 1 and 2 draws from the Luxury ranges. */
  lemma OtherTiersAreLuxury(tier: int, f: Field)
    requires tier != 0 && tier != 1 && tier != 2
    ensures PresetRange(tier, f) == PresetRange(3, f) == LuxuryRange(f)
  {
  }

  /** A value drawn for a preset is one the field's slider accepts. */
  lemma PresetWithinSlider(tier: int, f: Field, x: int)
    requires PresetRange(tier, f).Some? && PresetRange(tier, f).value.Contains(x)
    ensures Slider(f).Some? && Slider(f).value.Contains(x)
  {
  }

  /**
   * generate_realistic_values(tier), integer fields only: a record with one
   * entry per preset field, each drawn from the tier's range for it.
   */
  method GenerateRealisticValues(tier: int) returns (values: map<Field, int>)
    ensures values.Keys == PresetFields
    ensures forall f :: f in values ==> PresetRange(tier, f).Some? && PresetRange(tier, f).value.Contains(values[f])
  {
    var lows := map f | f in PresetFields :: PresetRange(tier, f).value.low;
    assert lows.Keys == PresetFields;
    values :| values.Keys == PresetFields
              && forall f :: f in values ==> PresetRange(tier, f).Some? && PresetRange(tier, f).value.Contains(values[f]);
  }
}
