/**
 * Setting definitions: the setting asset classes with their value type,
 * default and scope, the requirements check, the editor-time min/max repair
 * of Int and Float settings, and the pending-value accessors of wrapper
 * settings.
 */
module SettingDefinitions {
  import opened SettingsTypes

  /** The concrete class of a setting asset and the default value it holds. */
  datatype SettingKind =
    | PlainSetting                     // the base setting class, value type NONE
    | BoolSetting(boolDefault: bool)
    | IntSetting(intDefault: int)
    | FloatSetting(floatDefault: real)
    | ColorSetting(colorDefault: Color)
    | TagSetting(tagDefault: Tag)

  /** A setting asset as the container sees it: unique id, scope and class. */
  datatype Setting = Setting(id: Tag, scope: Scope, kind: SettingKind)

  /** A wrapper around an engine-owned setting; only its identity matters here. */
  datatype Wrapper = Wrapper(ref: nat)

  /** The value type each setting class reports. */
  function ValueTypeOf(s: Setting): ValueType
  {
    match s.kind
    case PlainSetting => NoType
    case BoolSetting(_) => BooleanType
    case IntSetting(_) => IntegerType
    case FloatSetting(_) => FloatType
    case ColorSetting(_) => ColorType
    case TagSetting(_) => TagType
  }

  /** The default value of a setting of one of the five concrete classes. */
  function DefaultOf(s: Setting): (p: Payload)
    requires IsStoredType(ValueTypeOf(s))
    ensures TypeOf(p) == ValueTypeOf(s)
  {
    match s.kind
    case BoolSetting(b) => BoolPayload(b)
    case IntSetting(i) => IntPayload(i)
    case FloatSetting(f) => FloatPayload(f)
    case ColorSetting(c) => ColorPayload(c)
    case TagSetting(t) => TagPayload(t)
  }

  /** The scope a setting reports: the value of its Scope property. */
  function ScopeOf(s: Setting): Scope
  {
    s.scope
  }

  /** The class-default state of a freshly created setting asset of a value type. */
  function NewSetting(id: Tag, t: ValueType): Setting
  {
    var kind :=
      match t
      case BooleanType => BoolSetting(true)
      case IntegerType => IntSetting(1)
      case FloatType => FloatSetting(1.0)
      case ColorType => ColorSetting(White)
      case TagType => TagSetting(EmptyTag)
      case _ => PlainSetting;
    Setting(id, GameInstanceScope, kind)
  }

  /**
   * A fresh asset of each stored type reports that type, lives in the game
   * instance scope and has the class default (true, 1, 1.0, white, the empty
   * tag); an asset of the base class reports NONE.
   */
  lemma NewSettingDefaults(id: Tag, t: ValueType)
    ensures var s := NewSetting(id, t);
      && ScopeOf(s) == GameInstanceScope && s.id == id
      && (IsStoredType(t) ==> ValueTypeOf(s) == t)
      && (!IsStoredType(t) ==> ValueTypeOf(s) == NoType)
      && (t == BooleanType ==> DefaultOf(s) == BoolPayload(true))
      && (t == IntegerType ==> DefaultOf(s) == IntPayload(1))
      && (t == FloatType ==> DefaultOf(s) == FloatPayload(1.0))
      && (t == ColorType ==> DefaultOf(s) == ColorPayload(White))
      && (t == TagType ==> DefaultOf(s) == TagPayload(EmptyTag))
  {
  }

  /** Only the base class lacks a value type the store can hold. */
  lemma StoredExactlyForConcreteClasses(s: Setting)
    ensures IsStoredType(ValueTypeOf(s)) <==> !s.kind.PlainSetting?
    ensures ValueTypeOf(s) != Int2DType
  {
  }

  // ---------------------------------------------------------------- registry

  /**
   * The first setting of the registry with the given id, if there is one;
   * the linear search the container runs over its setting assets.
   */
  function FindById(registry: seq<Setting>, id: Tag): (r: Option<Setting>)
    ensures r.Some? ==> (r.value.id == id
                         && exists i :: 0 <= i < |registry| && registry[i] == r.value
                                        && forall j :: 0 <= j < i ==> registry[j].id != id)
    ensures r.None? <==> forall i :: 0 <= i < |registry| ==> registry[i].id != id
  {
    if registry == [] then None
    else if registry[0].id == id then Some(registry[0])
    else
      var r := FindById(registry[1..], id);
      assert r.Some? ==> exists i :: 0 <= i < |registry| && registry[i] == r.value
                                     && forall j :: 0 <= j < i ==> registry[j].id != id by {
        if r.Some? {
          var i :| 0 <= i < |registry| - 1 && registry[1..][i] == r.value
                   && forall j :: 0 <= j < i ==> registry[1..][j].id != id;
          assert registry[i + 1] == r.value;
          assert forall j :: 0 <= j < i + 1 ==> registry[j].id != id by {
            forall j | 0 <= j < i + 1 ensures registry[j].id != id {
              if j > 0 { assert registry[j] == registry[1..][j - 1]; }
            }
          }
        }
      }
      assert r.None? ==> forall i :: 0 <= i < |registry| ==> registry[i].id != id by {
        if r.None? {
          forall i | 0 <= i < |registry| ensures registry[i].id != id {
            if i > 0 { assert registry[i] == registry[1..][i - 1]; }
          }
        }
      }
      r
  }

  // ---------------------------------------------------------------- requirements

  /**
   * Asks the requirements in order and stops at the first that is not met.
   * answers[i] is what the i-th requirement reports for the player controller;
   * asked is how many requirements were consulted.
   */
  method AreRequirementsMet(answers: seq<bool>) returns (met: bool, asked: nat)
    ensures met <==> forall i :: 0 <= i < |answers| ==> answers[i]
    ensures asked <= |answers|
    ensures met ==> asked == |answers|
    ensures !met ==> 0 < asked && !answers[asked - 1]
    ensures forall i :: 0 <= i < asked - 1 ==> answers[i]
  {
    asked := 0;
    while asked < |answers|
      invariant asked <= |answers|
      invariant forall i :: 0 <= i < asked ==> answers[i]
    {
      asked := asked + 1;
      if !answers[asked - 1] {
        return false, asked;
      }
    }
    met := true;
  }

  // ---------------------------------------------------------------- editor repair

  /** The property the editor reports as edited. */
  datatype EditedProperty = MinValueProperty | MaxValueProperty | OtherProperty

  /**
   * Repairs the bounds after an edit: raising the minimum above the maximum
   * drags the maximum up, lowering the maximum below the minimum drags the
   * minimum down.
   */
  function RepairIntRange(edited: EditedProperty, lo: int, hi: int): (r: (int, int))
    ensures edited != OtherProperty ==> r.0 <= r.1
    ensures edited == MinValueProperty ==> r.0 == lo && (lo <= hi ==> r.1 == hi)
    ensures edited == MaxValueProperty ==> r.1 == hi && (lo <= hi ==> r.0 == lo)
    ensures edited == OtherProperty ==> r == (lo, hi)
  {
    match edited
    case MinValueProperty => if lo > hi then (lo, lo) else (lo, hi)
    case MaxValueProperty => if hi < lo then (hi, hi) else (lo, hi)
    case OtherProperty => (lo, hi)
  }

  /**
   * Raises the value to the minimum, then lowers it to the maximum, each only
   * when its flag is set.
   */
  function ClampInt(v: int, hasMin: bool, lo: int, hasMax: bool, hi: int): (r: int)
    ensures hasMax ==> r <= hi
    ensures hasMin && (!hasMax || lo <= hi) ==> lo <= r
    ensures (!hasMin || lo <= v) && (!hasMax || v <= hi) ==> r == v
    ensures r == v || (hasMin && r == lo) || (hasMax && r == hi)
  {
    var raised := if hasMin && v < lo then lo else v;
    if hasMax && hi < raised then hi else raised
  }

  /** The Float counterparts, comparisons only. */
  function RepairFloatRange(edited: EditedProperty, lo: real, hi: real): (r: (real, real))
    ensures edited != OtherProperty ==> r.0 <= r.1
    ensures edited == MinValueProperty ==> r.0 == lo && (lo <= hi ==> r.1 == hi)
    ensures edited == MaxValueProperty ==> r.1 == hi && (lo <= hi ==> r.0 == lo)
    ensures edited == OtherProperty ==> r == (lo, hi)
  {
    match edited
    case MinValueProperty => if lo > hi then (lo, lo) else (lo, hi)
    case MaxValueProperty => if hi < lo then (hi, hi) else (lo, hi)
    case OtherProperty => (lo, hi)
  }

  function ClampFloat(v: real, hasMin: bool, lo: real, hasMax: bool, hi: real): (r: real)
    ensures hasMax ==> r <= hi
    ensures hasMin && (!hasMax || lo <= hi) ==> lo <= r
    ensures (!hasMin || lo <= v) && (!hasMax || v <= hi) ==> r == v
    ensures r == v || (hasMin && r == lo) || (hasMax && r == hi)
  {
    var raised := if hasMin && v < lo then lo else v;
    if hasMax && hi < raised then hi else raised
  }

  /** The editable fields of an Int setting asset. */
  class IntSettingAsset {
    var value: int
    var hasMinValue: bool
    var minValue: int
    var hasMaxValue: bool
    var maxValue: int

    constructor ()
      ensures value == 1 && !hasMinValue && minValue == 0 && !hasMaxValue && maxValue == 10
    {
      value := 1;
      hasMinValue := false;
      minValue := 0;
      hasMaxValue := false;
      maxValue := 10;
    }

    /** The editor hook run after a property of the asset was edited. */
    method PostEditChangeProperty(edited: EditedProperty)
      modifies this
      ensures (minValue, maxValue) == RepairIntRange(edited, old(minValue), old(maxValue))
      ensures value == ClampInt(old(value), hasMinValue, minValue, hasMaxValue, maxValue)
      ensures hasMinValue == old(hasMinValue) && hasMaxValue == old(hasMaxValue)
    {
      if edited == MinValueProperty {
        if minValue > maxValue { maxValue := minValue; }
      } else if edited == MaxValueProperty {
        if maxValue < minValue { minValue := maxValue; }
      }
      if hasMinValue { value := if value < minValue then minValue else value; }
      if hasMaxValue { value := if maxValue < value then maxValue else value; }
    }
  }

  /** The editable fields of a Float setting asset. */
  class FloatSettingAsset {
    var value: real
    var hasMinValue: bool
    var minValue: real
    var hasMaxValue: bool
    var maxValue: real

    constructor ()
      ensures value == 1.0 && !hasMinValue && minValue == 0.0 && !hasMaxValue && maxValue == 1.0
    {
      value := 1.0;
      hasMinValue := false;
      minValue := 0.0;
      hasMaxValue := false;
      maxValue := 1.0;
    }

    method PostEditChangeProperty(edited: EditedProperty)
      modifies this
      ensures (minValue, maxValue) == RepairFloatRange(edited, old(minValue), old(maxValue))
      ensures value == ClampFloat(old(value), hasMinValue, minValue, hasMaxValue, maxValue)
      ensures hasMinValue == old(hasMinValue) && hasMaxValue == old(hasMaxValue)
    {
      if edited == MinValueProperty {
        if minValue > maxValue { maxValue := minValue; }
      } else if edited == MaxValueProperty {
        if maxValue < minValue { minValue := maxValue; }
      }
      if hasMinValue { value := if value < minValue then minValue else value; }
      if hasMaxValue { value := if maxValue < value then maxValue else value; }
    }
  }

  // ---------------------------------------------------------------- wrapper accessors

  /**
   * An accessor of an engine-owned setting. It keeps the value the user picked
   * until the wrapper is applied; applying, clearing and resetting are engine
   * events with no effect on this state.
   */
  class PendingAccessor<T> {
    var pendingValue: T

    constructor (initial: T)
      ensures pendingValue == initial
    {
      pendingValue := initial;
    }

    function GetPendingValue(): T
      reads this
    {
      pendingValue
    }

    method SetValue(newValue: T)
      modifies this
      ensures GetPendingValue() == newValue
    {
      pendingValue := newValue;
    }

    /** The base accessor cannot reset. */
    function CanResetValue(): bool
    {
      false
    }

    method ApplyValue()
      ensures unchanged(this)
    {
    }

    method ClearValue()
      ensures unchanged(this)
    {
    }

    method ResetValue()
      ensures unchanged(this)
    {
    }
  }

  method NewBoolAccessor() returns (a: PendingAccessor<bool>)
    ensures fresh(a) && a.GetPendingValue() == false
  {
    a := new PendingAccessor<bool>(false);
  }

  method NewIntAccessor() returns (a: PendingAccessor<int>)
    ensures fresh(a) && a.GetPendingValue() == 0
  {
    a := new PendingAccessor<int>(0);
  }

  method NewFloatAccessor() returns (a: PendingAccessor<real>)
    ensures fresh(a) && a.GetPendingValue() == 0.0
  {
    a := new PendingAccessor<real>(0.0);
  }

  method NewInt2DAccessor() returns (a: PendingAccessor<IntPoint>)
    ensures fresh(a) && a.GetPendingValue() == IntPoint(0, 0)
  {
    a := new PendingAccessor<IntPoint>(IntPoint(0, 0));
  }
}
