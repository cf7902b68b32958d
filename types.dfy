/**
 * Value types shared by the settings plugin: gameplay tags, colours, the
 * enums for value type, scope and change event, the tagged setting value
 * and the five-map value store.
 */
module SettingsTypes {

  datatype Option<T> = None | Some(value: T)

  /** A fatal engine check (checkf, a null dereference, a missing map key) ends the process. */
  datatype Result<T> = Ok(value: T) | Fatal

  // ---------------------------------------------------------------- tags

  /**
   * A tag name. The engine's None name is the name of the empty tag, never of
   * another tag, so the empty tag is spelt with the empty name here.
   */
  type TagName = s: string | s != "None"

  /** A gameplay tag is identified by its name; the empty tag has the empty name. */
  datatype Tag = Tag(name: TagName)

  const EmptyTag: Tag := Tag("")

  /** The text form of a tag: the empty tag's name is the engine's None name. */
  function TagToString(t: Tag): string
  {
    if t.name == "" then "None" else t.name
  }

  /** Looks a tag up by name; the None name and the empty name give the empty tag. */
  function RequestTag(s: string): Tag
  {
    if s == "None" || s == "" then EmptyTag else Tag(s)
  }

  /** Every tag survives a trip through its text form. */
  lemma TagTextRoundTrip(t: Tag)
    ensures RequestTag(TagToString(t)) == t
  {
  }

  /** Distinct tags have distinct text forms. */
  lemma TagToStringInjective(a: Tag, b: Tag)
    requires TagToString(a) == TagToString(b)
    ensures a == b
  {
    TagTextRoundTrip(a);
    TagTextRoundTrip(b);
  }

  // ---------------------------------------------------------------- colours

  type Byte = x: int | 0 <= x < 256

  /** An 8-bit-per-channel colour. */
  datatype Color = Color(r: Byte, g: Byte, b: Byte, a: Byte)

  const White: Color := Color(255, 255, 255, 255)
  const Red: Color := Color(255, 0, 0, 255)

  /** A 2D integer point (resolution-style settings). */
  datatype IntPoint = IntPoint(x: int, y: int)

  // ---------------------------------------------------------------- enums

  /** The value type a setting reports. */
  datatype ValueType = NoType | BooleanType | IntegerType | FloatType | Int2DType | ColorType | TagType

  /** The five value types the value store has a map for; Int2D and NONE have none. */
  predicate IsStoredType(t: ValueType)
  {
    t == BooleanType || t == IntegerType || t == FloatType || t == ColorType || t == TagType
  }

  /** Which subsystem owns a setting. */
  datatype Scope = GameInstanceScope | LocalPlayerScope

  /** The events a binding can listen to. */
  datatype ChangeEvent = NoEvent | Changed | Commited | Loaded | Cleared | Reset | StackChanged | MaxEvent

  // ---------------------------------------------------------------- values

  /** A single typed value, as passed to the typed change calls and to bound handlers. */
  datatype Payload =
    | BoolPayload(b: bool)
    | IntPayload(i: int)
    | FloatPayload(f: real)
    | ColorPayload(c: Color)
    | TagPayload(t: Tag)

  function TypeOf(p: Payload): (t: ValueType)
    ensures IsStoredType(t)
  {
    match p
    case BoolPayload(_) => BooleanType
    case IntPayload(_) => IntegerType
    case FloatPayload(_) => FloatType
    case ColorPayload(_) => ColorType
    case TagPayload(_) => TagType
  }

  /**
   * The tagged setting value: a type tag plus one field per payload type,
   * all of them always present.
   */
  datatype SettingValue = SettingValue(
    valueType: ValueType,
    booleanValue: bool,
    integerValue: int,
    floatValue: real,
    colorValue: Color,
    tagValue: Tag)

  /**
   * The default constructor. It initialises the colour with the colour type's
   * own default constructor, which leaves it uninitialised, so the colour is
   * whatever the caller's memory held.
   */
  function DefaultSettingValue(uninitialised: Color): SettingValue
  {
    SettingValue(NoType, false, -1, -1.0, uninitialised, EmptyTag)
  }

  /** The payload of the field a value type selects. */
  function Field(v: SettingValue, t: ValueType): (p: Payload)
    requires IsStoredType(t)
    ensures TypeOf(p) == t
  {
    match t
    case BooleanType => BoolPayload(v.booleanValue)
    case IntegerType => IntPayload(v.integerValue)
    case FloatType => FloatPayload(v.floatValue)
    case ColorType => ColorPayload(v.colorValue)
    case TagType => TagPayload(v.tagValue)
  }

  /**
   * The single-argument constructors: they set the type tag and the matching
   * field; the other fields keep their in-class initialisers (false, -1, -1.0,
   * white, the empty tag).
   */
  function FromPayload(p: Payload): (v: SettingValue)
    ensures v.valueType == TypeOf(p) && Field(v, TypeOf(p)) == p
  {
    var d := DefaultSettingValue(White).(valueType := TypeOf(p));
    match p
    case BoolPayload(b) => d.(booleanValue := b)
    case IntPayload(i) => d.(integerValue := i)
    case FloatPayload(f) => d.(floatValue := f)
    case ColorPayload(c) => d.(colorValue := c)
    case TagPayload(t) => d.(tagValue := t)
  }

  /**
   * A value built from one payload reads, in every other field, the same
   * payload as the default value with a white colour; the default constructor
   * and the single-argument constructors agree on all the fields they do not set.
   */
  lemma {:induction false} FromPayloadKeepsOtherDefaults(p: Payload, t: ValueType)
    requires IsStoredType(t) && t != TypeOf(p)
    ensures Field(FromPayload(p), t) == Field(DefaultSettingValue(White), t)
  {
    match p
    case BoolPayload(_) =>
    case IntPayload(_) =>
    case FloatPayload(_) =>
    case ColorPayload(_) =>
    case TagPayload(_) =>
  }

  // ---------------------------------------------------------------- store

  /** The committed values: one map per stored value type, all keyed by setting id. */
  datatype ValueStore = ValueStore(
    bools: map<Tag, bool>,
    ints: map<Tag, int>,
    floats: map<Tag, real>,
    colors: map<Tag, Color>,
    tags: map<Tag, Tag>)

  const EmptyStore: ValueStore := ValueStore(map[], map[], map[], map[], map[])

  /** A map lookup with a fallback; it returns the fallback exactly when the key is absent. */
  function GetBoundValue<T>(values: map<Tag, T>, key: Tag, fallback: T): (r: T)
    ensures key in values ==> r == values[key]
    ensures key !in values ==> r == fallback
  {
    if key in values then values[key] else fallback
  }

  /** The value stored for a key in the map of one value type, if any. */
  function Lookup(s: ValueStore, t: ValueType, key: Tag): Option<Payload>
    requires IsStoredType(t)
  {
    match t
    case BooleanType => if key in s.bools then Some(BoolPayload(s.bools[key])) else None
    case IntegerType => if key in s.ints then Some(IntPayload(s.ints[key])) else None
    case FloatType => if key in s.floats then Some(FloatPayload(s.floats[key])) else None
    case ColorType => if key in s.colors then Some(ColorPayload(s.colors[key])) else None
    case TagType => if key in s.tags then Some(TagPayload(s.tags[key])) else None
  }

  /** Adds or overwrites a key in the map of the payload's type. */
  function Write(s: ValueStore, key: Tag, p: Payload): (r: ValueStore)
    ensures Lookup(r, TypeOf(p), key) == Some(p)
    ensures forall t, k :: IsStoredType(t) && (t != TypeOf(p) || k != key) ==> Lookup(r, t, k) == Lookup(s, t, k)
  {
    match p
    case BoolPayload(b) => s.(bools := s.bools[key := b])
    case IntPayload(i) => s.(ints := s.ints[key := i])
    case FloatPayload(f) => s.(floats := s.floats[key := f])
    case ColorPayload(c) => s.(colors := s.colors[key := c])
    case TagPayload(t) => s.(tags := s.tags[key := t])
  }

  /** A lookup always returns a payload of the type that was asked for. */
  lemma LookupHasAskedType(s: ValueStore, t: ValueType, key: Tag)
    requires IsStoredType(t)
    ensures Lookup(s, t, key).Some? ==> TypeOf(Lookup(s, t, key).value) == t
  {
  }
}
