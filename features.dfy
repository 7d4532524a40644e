/**
 * Feature assembly: the values of the input form are collected into a record
 * keyed by column name, the record gains three engineered features, and it
 * is projected onto the fixed column order the scaler and classifier expect.
 */
module Features {
  import opened Outcomes

  /** Every key the record can hold: the twenty model columns and the two raw resolutions. */
  datatype Field =
    | BatteryPower | Blue | ClockSpeed | DualSim | Fc | FourG | IntMemory | MobileWt | NCores | Pc
    | Ram | ScH | ScW | TalkTime | ThreeG | TouchScreen | Wifi
    | PixelDensity | ScreenArea | CameraTotal
    | PxHeight | PxWidth
  {
    /** The column name used in the record and the data frame. */
    function Name(): string {
      match this
      case BatteryPower => "battery_power"
      case Blue => "blue"
      case ClockSpeed => "clock_speed"
      case DualSim => "dual_sim"
      case Fc => "fc"
      case FourG => "four_g"
      case IntMemory => "int_memory"
      case MobileWt => "mobile_wt"
      case NCores => "n_cores"
      case Pc => "pc"
      case Ram => "ram"
      case ScH => "sc_h"
      case ScW => "sc_w"
      case TalkTime => "talk_time"
      case ThreeG => "three_g"
      case TouchScreen => "touch_screen"
      case Wifi => "wifi"
      case PixelDensity => "pixel_density"
      case ScreenArea => "screen_area"
      case CameraTotal => "camera_total"
      case PxHeight => "px_height"
      case PxWidth => "px_width"
    }

    /** The engineered columns, added to the record after the inputs are collected. */
    predicate IsDerived() {
      this == PixelDensity || this == ScreenArea || this == CameraTotal
    }

    /** The checkbox inputs. */
    predicate IsFlag() {
      this == Blue || this == DualSim || this == FourG || this == ThreeG || this == TouchScreen || this == Wifi
    }
  }

  /** Different columns have different names, so matching columns by name is matching them by `Field`. */
  lemma NamesDistinct(f: Field, g: Field)
    requires f.Name() == g.Name()
    ensures f == g
  {
  }

  /** FEATURE_LIST: the column order the scaler and the classifier were fitted with. */
  const FeatureList: seq<Field> :=
    [BatteryPower, Blue, ClockSpeed, DualSim, Fc, FourG, IntMemory, MobileWt, NCores, Pc,
     Ram, ScH, ScW, TalkTime, ThreeG, TouchScreen, Wifi, PixelDensity, ScreenArea, CameraTotal]

  /** NUMERICAL_FEATURES: the columns handed to the scaler, in the scaler's own order. */
  const NumericalFeatures: seq<Field> :=
    [BatteryPower, Ram, PixelDensity, ScreenArea, IntMemory, CameraTotal]

  /** Where the NUMERICAL_FEATURES columns sit in FEATURE_LIST, in NUMERICAL_FEATURES order. */
  const NumericalPositions: seq<nat> := [0, 10, 17, 18, 6, 19]

  ghost predicate Distinct<T>(s: seq<T>) {
    forall i, j :: 0 <= i < j < |s| ==> s[i] != s[j]
  }

  /** The values the input form collects, one per slider or checkbox. */
  datatype RawSpec = RawSpec(
    batteryPower: int, blue: bool, clockSpeed: real, dualSim: bool, fc: int, fourG: bool,
    intMemory: int, mobileWt: int, nCores: int, pc: int, ram: int, scH: int, scW: int,
    talkTime: int, threeG: bool, touchScreen: bool, wifi: bool, pxHeight: int, pxWidth: int)

  /** A cell of the record: a Python int or a Python float. */
  datatype Num = Int(i: int) | Float(x: real) {
    /** The number the data frame hands on. */
    function AsReal(): real {
      match this
      case Int(i) => i as real
      case Float(x) => x
    }
  }

  /** Python's int(b) on a checkbox value. */
  function Flag(b: bool): (r: int)
    ensures r == 0 || r == 1
    ensures r == 1 <==> b
  {
    if b then 1 else 0
  }

  // ---------------------------------------------------------------------
  // The engineered features
  // ---------------------------------------------------------------------

  function PixelDensityOf(s: RawSpec): int { s.pxWidth * s.pxHeight }

  function ScreenAreaOf(s: RawSpec): int { s.scW * s.scH }

  function CameraTotalOf(s: RawSpec): int { s.pc + s.fc }

  /** The value the form, and for the engineered columns the engineering, gives to column `f`. */
  function ValueOf(s: RawSpec, f: Field): Num {
    match f
    case BatteryPower => Int(s.batteryPower)
    case Blue => Int(Flag(s.blue))
    case ClockSpeed => Float(s.clockSpeed)
    case DualSim => Int(Flag(s.dualSim))
    case Fc => Int(s.fc)
    case FourG => Int(Flag(s.fourG))
    case IntMemory => Int(s.intMemory)
    case MobileWt => Int(s.mobileWt)
    case NCores => Int(s.nCores)
    case Pc => Int(s.pc)
    case Ram => Int(s.ram)
    case ScH => Int(s.scH)
    case ScW => Int(s.scW)
    case TalkTime => Int(s.talkTime)
    case ThreeG => Int(Flag(s.threeG))
    case TouchScreen => Int(Flag(s.touchScreen))
    case Wifi => Int(Flag(s.wifi))
    case PixelDensity => Int(PixelDensityOf(s))
    case ScreenArea => Int(ScreenAreaOf(s))
    case CameraTotal => Int(CameraTotalOf(s))
    case PxHeight => Int(s.pxHeight)
    case PxWidth => Int(s.pxWidth)
  }

  // ---------------------------------------------------------------------
  // The record and its projection
  // ---------------------------------------------------------------------

  /** The keys the inputs are collected under: every column except the engineered ones. */
  const InputFields: set<Field> :=
    {BatteryPower, Blue, ClockSpeed, DualSim, Fc, FourG, IntMemory, MobileWt, NCores, Pc,
     Ram, ScH, ScW, TalkTime, ThreeG, TouchScreen, Wifi, PxHeight, PxWidth}

  /**
   * The record the inputs are collected into, before feature engineering:
   * each input under its own name, checkboxes as the integers 0 and 1 and
   * clock speed as a float.
   */
  function InputRecord(s: RawSpec): map<Field, Num> {
    map f | f in InputFields :: ValueOf(s, f)
  }

  /**
   * The complete record after feature engineering: the inputs plus
   * pixel_density = px_width * px_height, screen_area = sc_w * sc_h and
   * camera_total = pc + fc.
   */
  function Record(s: RawSpec): map<Field, Num> {
    InputRecord(s)
      [PixelDensity := Int(s.pxWidth * s.pxHeight)]
      [ScreenArea := Int(s.scW * s.scH)]
      [CameraTotal := Int(s.pc + s.fc)]
  }

  /**
   * The one-row frame of `record` restricted to the columns `cols`, in that
   * order; a column absent from the record is a lookup failure.
   */
  function Project(record: map<Field, Num>, cols: seq<Field>): (r: Option<seq<real>>)
    ensures r.Some? <==> forall i :: 0 <= i < |cols| ==> cols[i] in record
    ensures r.Some? ==> |r.value| == |cols|
    ensures r.Some? ==> forall i :: 0 <= i < |cols| ==> r.value[i] == record[cols[i]].AsReal()
  {
    if cols == [] then Some([])
    else if cols[0] !in record then None
    else
      match Project(record, cols[1..])
      case None => None
      case Some(rest) => Some([record[cols[0]].AsReal()] + rest)
  }

  /** The twenty-slot vector the scaler and classifier read: slot `i` holds column FEATURE_LIST[i]. */
  function FeatureVector(s: RawSpec): (v: seq<real>)
    ensures |v| == |FeatureList|
  {
    seq(|FeatureList|, i requires 0 <= i < |FeatureList| => ValueOf(s, FeatureList[i]).AsReal())
  }

  /** The record's keys are exactly the inputs. */
  lemma InputFieldsAreInputs(f: Field)
    ensures f in InputFields <==> !f.IsDerived()
  {
  }

  /** Each input sits in the collected record under its own name. */
  lemma InputRecordAt(s: RawSpec, f: Field)
    requires !f.IsDerived()
    ensures f in InputRecord(s) && InputRecord(s)[f] == ValueOf(s, f)
  {
    InputFieldsAreInputs(f);
  }

  /** Every column of the engineered record holds the value the form and the engineering give it. */
  lemma RecordAt(s: RawSpec, f: Field)
    ensures f in Record(s) && Record(s)[f] == ValueOf(s, f)
  {
    if !f.IsDerived() {
      InputRecordAt(s, f);
    }
  }

  /**
   * Projecting the engineered record onto FEATURE_LIST never fails, and
   * yields slot by slot the value of the column FEATURE_LIST names there.
   */
  lemma AssembledInFeatureOrder(s: RawSpec)
    ensures Project(Record(s), FeatureList) == Some(FeatureVector(s))
  {
    forall i | 0 <= i < |FeatureList|
      ensures FeatureList[i] in Record(s) && Record(s)[FeatureList[i]] == ValueOf(s, FeatureList[i])
    {
      RecordAt(s, FeatureList[i]);
    }
    var r := Project(Record(s), FeatureList);
    assert r.value == FeatureVector(s);
  }

  /** The two resolutions sit in the collected record as integers. */
  lemma ResolutionCollected(s: RawSpec)
    ensures PxWidth in InputRecord(s) && InputRecord(s)[PxWidth] == Int(s.pxWidth)
    ensures PxHeight in InputRecord(s) && InputRecord(s)[PxHeight] == Int(s.pxHeight)
  {
    assert PxWidth in InputFields && PxHeight in InputFields;
  }

  /** The two screen dimensions sit in the collected record as integers. */
  lemma ScreenSizeCollected(s: RawSpec)
    ensures ScW in InputRecord(s) && InputRecord(s)[ScW] == Int(s.scW)
    ensures ScH in InputRecord(s) && InputRecord(s)[ScH] == Int(s.scH)
  {
    assert ScW in InputFields && ScH in InputFields;
  }

  /** The two camera resolutions sit in the collected record as integers. */
  lemma CamerasCollected(s: RawSpec)
    ensures Pc in InputRecord(s) && InputRecord(s)[Pc] == Int(s.pc)
    ensures Fc in InputRecord(s) && InputRecord(s)[Fc] == Int(s.fc)
  {
    assert Pc in InputFields && Fc in InputFields;
  }

  /**
   * Collects the inputs into a record, adds the engineered features to it in
   * place, and copies the FEATURE_LIST columns, in order, into the twenty
   * slots of `v`.
   */
  method Assemble(s: RawSpec, v: array<real>)
    requires v.Length == |FeatureList|
    modifies v
    ensures v[..] == FeatureVector(s)
  {
    var features := InputRecord(s);
    ResolutionCollected(s);
    ScreenSizeCollected(s);
    CamerasCollected(s);
    features := features[PixelDensity := Int(features[PxWidth].i * features[PxHeight].i)];
    features := features[ScreenArea := Int(features[ScW].i * features[ScH].i)];
    features := features[CameraTotal := Int(features[Pc].i + features[Fc].i)];
    assert features == Record(s);
    for i := 0 to |FeatureList|
      invariant forall k :: 0 <= k < i ==> v[k] == FeatureVector(s)[k]
    {
      RecordAt(s, FeatureList[i]);
      v[i] := features[FeatureList[i]].AsReal();
    }
  }

  // ---------------------------------------------------------------------
  // The shape of the column lists
  // ---------------------------------------------------------------------

  lemma FeatureListDistinct()
    ensures Distinct(FeatureList)
  {
  }

  /**
   * FEATURE_LIST names twenty distinct columns: every key of the engineered
   * record except the two raw resolutions.
   */
  lemma FeatureListShape()
    ensures |FeatureList| == 20 && Distinct(FeatureList)
    ensures forall f: Field :: f in FeatureList <==> f != PxHeight && f != PxWidth
  {
    FeatureListDistinct();
  }

  /** Checkbox columns hold 0 or 1 in the vector; every other column but clock speed holds an integer. */
  lemma FlagsAreBinary(s: RawSpec)
    ensures forall i :: 0 <= i < |FeatureList| && FeatureList[i].IsFlag() ==>
              FeatureVector(s)[i] == 0.0 || FeatureVector(s)[i] == 1.0
    ensures forall i :: 0 <= i < |FeatureList| && FeatureList[i] != ClockSpeed ==> ValueOf(s, FeatureList[i]).Int?
  {
  }

  /** A column of FEATURE_LIST sits at one position only. */
  lemma FeatureListPositionUnique(k: nat, e: nat)
    requires k < |FeatureList| && e < |FeatureList| && FeatureList[k] == FeatureList[e]
    ensures k == e
  {
    FeatureListDistinct();
  }

  // ---------------------------------------------------------------------
  // Matching columns by name
  // ---------------------------------------------------------------------

  /** The position of column `f` in `cols` (its first occurrence), or None when it is absent. */
  function IndexOf(cols: seq<Field>, f: Field): (r: Option<nat>)
    ensures r.None? <==> f !in cols
    ensures r.Some? ==> r.value < |cols| && cols[r.value] == f && f !in cols[..r.value]
  {
    if cols == [] then None
    else if cols[0] == f then Some(0)
    else
      match IndexOf(cols[1..], f)
      case None => None
      case Some(k) =>
        assert cols[..k + 1] == [cols[0]] + cols[1..][..k];
        Some(k + 1)
  }

  /** The positions in `cols` of the columns `names`, in the order of `names`; None when one is absent. */
  function Positions(cols: seq<Field>, names: seq<Field>): (r: Option<seq<nat>>)
    ensures r.Some? <==> forall j :: 0 <= j < |names| ==> names[j] in cols
    ensures r.Some? ==> |r.value| == |names|
    ensures r.Some? ==> forall j :: 0 <= j < |names| ==> r.value[j] < |cols| && cols[r.value[j]] == names[j]
  {
    if names == [] then Some([])
    else
      match IndexOf(cols, names[0])
      case None => None
      case Some(k) =>
        match Positions(cols, names[1..])
        case None => None
        case Some(rest) => Some([k] + rest)
  }

  /**
   * In a list of distinct columns, matching `names` by name finds exactly the
   * positions at which those names sit.
   */
  lemma PositionsInDistinct(cols: seq<Field>, names: seq<Field>, at: seq<nat>)
    requires Distinct(cols)
    requires |at| == |names|
    requires forall j :: 0 <= j < |at| ==> at[j] < |cols| && cols[at[j]] == names[j]
    ensures Positions(cols, names) == Some(at)
  {
    var r := Positions(cols, names);
    assert forall j :: 0 <= j < |names| ==> names[j] in cols by {
      forall j | 0 <= j < |names| ensures names[j] in cols {
        assert cols[at[j]] == names[j];
      }
    }
    forall j | 0 <= j < |names|
      ensures r.value[j] == at[j]
    {
      assert cols[r.value[j]] == cols[at[j]];
    }
    assert r.value == at;
  }

  /** NUMERICAL_FEATURES names six distinct columns, each found in FEATURE_LIST at the listed position. */
  lemma NumericalColumnsPresent()
    ensures Distinct(NumericalFeatures)
    ensures forall j :: 0 <= j < |NumericalFeatures| ==> FeatureList[NumericalPositions[j]] == NumericalFeatures[j]
  {
  }

  /**
   * Matching NUMERICAL_FEATURES by name against FEATURE_LIST succeeds and
   * finds them at positions 0, 10, 17, 18, 6 and 19.
   */
  lemma NumericalColumnsByName()
    ensures Positions(FeatureList, NumericalFeatures) == Some(NumericalPositions)
  {
    FeatureListDistinct();
    NumericalColumnsPresent();
    PositionsInDistinct(FeatureList, NumericalFeatures, NumericalPositions);
  }

  // ---------------------------------------------------------------------
  // The input form's limits and initial values
  // ---------------------------------------------------------------------

  /** A closed interval of integers. */
  datatype Bounds = Bounds(min: int, max: int) {
    predicate Contains(x: int) { min <= x <= max }
  }

  /** The limits of the integer slider behind column `f`; None for checkboxes, clock speed and engineered columns. */
  function Slider(f: Field): Option<Bounds> {
    match f
    case BatteryPower => Some(Bounds(500, 7000))
    case IntMemory => Some(Bounds(2, 1024))
    case Ram => Some(Bounds(500, 16000))
    case PxHeight => Some(Bounds(0, 3000))
    case PxWidth => Some(Bounds(0, 4000))
    case ScH => Some(Bounds(5, 25))
    case ScW => Some(Bounds(5, 15))
    case Pc => Some(Bounds(0, 200))
    case Fc => Some(Bounds(0, 100))
    case NCores => Some(Bounds(1, 16))
    case MobileWt => Some(Bounds(80, 300))
    case TalkTime => Some(Bounds(2, 40))
    case _ => None
  }

  /** A specification the form can produce: every slider within its limits. */
  ghost predicate WithinSliders(s: RawSpec) {
    && (forall f :: Slider(f).Some? ==> ValueOf(s, f).Int? && Slider(f).value.Contains(ValueOf(s, f).i))
    && 0.5 <= s.clockSpeed <= 5.0
  }

  lemma ProductBounds(a: int, b: int, aMin: int, aMax: int, bMin: int, bMax: int)
    requires 0 <= aMin <= a <= aMax && 0 <= bMin <= b <= bMax
    ensures aMin * bMin <= a * b <= aMax * bMax
  {
    assert aMin * bMin <= a * bMin <= a * b;
    assert a * b <= aMax * b <= aMax * bMax;
  }

  /** Within the slider limits the engineered features stay within the limits' products and sums. */
  lemma DerivedBounds(s: RawSpec)
    requires WithinSliders(s)
    ensures 0 <= PixelDensityOf(s) <= 12_000_000
    ensures 25 <= ScreenAreaOf(s) <= 375
    ensures 0 <= CameraTotalOf(s) <= 300
  {
    assert Slider(PxWidth).value.Contains(ValueOf(s, PxWidth).i);
    assert Slider(PxHeight).value.Contains(ValueOf(s, PxHeight).i);
    assert Slider(ScW).value.Contains(ValueOf(s, ScW).i);
    assert Slider(ScH).value.Contains(ValueOf(s, ScH).i);
    assert Slider(Pc).value.Contains(ValueOf(s, Pc).i);
    assert Slider(Fc).value.Contains(ValueOf(s, Fc).i);
    ProductBounds(s.pxWidth, s.pxHeight, 0, 4000, 0, 3000);
    ProductBounds(s.scW, s.scH, 5, 15, 5, 25);
  }

  /** The form's initial values, used while nothing is stored for a control. */
  function DefaultSpec(): (s: RawSpec)
    ensures WithinSliders(s)
    ensures PixelDensityOf(s) == 3_686_400 && ScreenAreaOf(s) == 120 && CameraTotalOf(s) == 64
  {
    RawSpec(batteryPower := 3500, blue := true, clockSpeed := 2.5, dualSim := true, fc := 16,
            fourG := true, intMemory := 128, mobileWt := 180, nCores := 8, pc := 48, ram := 4000,
            scH := 15, scW := 8, talkTime := 18, threeG := true, touchScreen := true, wifi := true,
            pxHeight := 1440, pxWidth := 2560)
  }
}
