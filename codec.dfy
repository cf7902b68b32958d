/**
 * The save-file codec: decimal text of numbers, the "R,G,B,A" colour text,
 * the JSON document the container writes (one object per value type, keyed
 * by the text form of the setting id) and the reading of such a document back
 * into a value store.
 */
module Codec {
  import opened SettingsTypes
  import opened SettingDefinitions
  import opened Lists

  // ---------------------------------------------------------------- decimal text

  predicate IsDigit(c: char)
  {
    '0' <= c <= '9'
  }

  predicate AllDigits(s: string)
  {
    forall i :: 0 <= i < |s| ==> IsDigit(s[i])
  }

  function DigitChar(d: nat): (c: char)
    requires d < 10
    ensures IsDigit(c) && c as int - '0' as int == d
  {
    ('0' as int + d) as char
  }

  /** The unsigned decimal text of a number, without leading zeros. */
  function NatToString(n: nat): string
  {
    if n < 10 then [DigitChar(n)] else NatToString(n / 10) + [DigitChar(n % 10)]
  }

  /** The value of a string of decimal digits. */
  function DigitsValue(s: string): nat
    requires AllDigits(s)
  {
    if s == [] then 0
    else 10 * DigitsValue(s[..|s| - 1]) + (s[|s| - 1] as int - '0' as int)
  }

  /** The longest prefix made of decimal digits. */
  function LeadingDigits(s: string): (r: string)
    ensures AllDigits(r) && |r| <= |s| && r == s[..|r|]
  {
    if s == [] || !IsDigit(s[0]) then []
    else [s[0]] + LeadingDigits(s[1..])
  }

  /**
   * The number a C-library text-to-float conversion reads at the start of a
   * string, for text made of an unsigned decimal integer (0 when there is none).
   */
  function LeadingNumber(s: string): nat
  {
    DigitsValue(LeadingDigits(s))
  }

  /** Decimal text is non-empty, made of digits, and reads back as the number. */
  lemma {:induction false} NatToStringReadsBack(n: nat)
    ensures |NatToString(n)| >= 1 && AllDigits(NatToString(n))
    ensures DigitsValue(NatToString(n)) == n
  {
    if n >= 10 {
      NatToStringReadsBack(n / 10);
      var s := NatToString(n / 10);
      var t := s + [DigitChar(n % 10)];
      assert t[..|t| - 1] == s;
    }
  }

  /** A string of digits is its own longest digit prefix. */
  lemma {:induction false} LeadingDigitsOfDigits(s: string)
    requires AllDigits(s)
    ensures LeadingDigits(s) == s
  {
    if s != [] {
      LeadingDigitsOfDigits(s[1..]);
    }
  }

  /** The text-to-number conversion reads decimal text back as the number it prints. */
  lemma LeadingNumberOfNatToString(n: nat)
    ensures LeadingNumber(NatToString(n)) == n
  {
    NatToStringReadsBack(n);
    LeadingDigitsOfDigits(NatToString(n));
  }

  // ---------------------------------------------------------------- splitting

  /** The parts of a string between commas, empty parts included. */
  function Segments(s: string): (r: seq<string>)
    ensures |r| >= 1
  {
    if s == [] then [""]
    else
      var rest := Segments(s[1..]);
      if s[0] == ',' then [""] + rest else [[s[0]] + rest[0]] + rest[1..]
  }

  /** Drops the empty parts. */
  function Cull(parts: seq<string>): (r: seq<string>)
    ensures forall i :: 0 <= i < |r| ==> r[i] != ""
    ensures (forall i :: 0 <= i < |parts| ==> parts[i] != "") ==> r == parts
  {
    if parts == [] then []
    else (if parts[0] == "" then [] else [parts[0]]) + Cull(parts[1..])
  }

  /** Splits on commas and culls the empty parts. */
  function ParseIntoArray(s: string): seq<string>
  {
    Cull(Segments(s))
  }

  lemma {:induction false} SegmentsWithoutComma(x: string)
    requires ',' !in x
    ensures Segments(x) == [x]
  {
    if x != [] {
      assert ',' !in x[1..];
      SegmentsWithoutComma(x[1..]);
      assert x == [x[0]] + x[1..];
    }
  }

  lemma {:induction false} SegmentsOfJoin(x: string, y: string)
    requires ',' !in x
    ensures Segments(x + "," + y) == [x] + Segments(y)
  {
    if x == [] {
      assert (x + "," + y)[1..] == y;
    } else {
      assert (x + "," + y)[1..] == x[1..] + "," + y;
      assert ',' !in x[1..];
      SegmentsOfJoin(x[1..], y);
      assert x == [x[0]] + x[1..];
    }
  }

  lemma DigitsHaveNoComma(s: string)
    requires AllDigits(s)
    ensures ',' !in s
  {
    forall i | 0 <= i < |s|
      ensures s[i] != ','
    {
      assert IsDigit(s[i]);
    }
  }

  // ---------------------------------------------------------------- colours

  /** The colour text: the four channels in decimal, comma separated. */
  function EncodeColor(c: Color): string
  {
    NatToString(c.r) + "," + NatToString(c.g) + "," + NatToString(c.b) + "," + NatToString(c.a)
  }

  /** A channel as the loader computes it: the number read, times 255, clamped to the channel range. */
  function ChannelAsWritten(part: string): (r: Byte)
    ensures r == if LeadingNumber(part) == 0 then 0 else 255
  {
    var v := LeadingNumber(part) * 255;
    if v > 255 then 255 else v
  }

  /** The colour the loader reads from colour text: none unless there are exactly four non-empty parts. */
  function DecodeColorAsWritten(s: string): Option<Color>
  {
    var parts := ParseIntoArray(s);
    if |parts| == 4 then
      Some(Color(ChannelAsWritten(parts[0]), ChannelAsWritten(parts[1]),
                 ChannelAsWritten(parts[2]), ChannelAsWritten(parts[3])))
    else None
  }

  /** A channel read as the byte it was written as, clamped to the channel range. */
  function Channel(part: string): (r: Byte)
    ensures LeadingNumber(part) <= 255 ==> r == LeadingNumber(part)
  {
    var v := LeadingNumber(part);
    if v > 255 then 255 else v
  }

  /** The colour reading that inverts the colour text. */
  function DecodeColor(s: string): Option<Color>
  {
    var parts := ParseIntoArray(s);
    if |parts| == 4 then Some(Color(Channel(parts[0]), Channel(parts[1]), Channel(parts[2]), Channel(parts[3])))
    else None
  }

  /** Colour text splits into the decimal texts of the four channels. */
  lemma ColorTextParts(c: Color)
    ensures ParseIntoArray(EncodeColor(c)) == [NatToString(c.r), NatToString(c.g), NatToString(c.b), NatToString(c.a)]
  {
    NatToStringReadsBack(c.r);
    NatToStringReadsBack(c.g);
    NatToStringReadsBack(c.b);
    NatToStringReadsBack(c.a);
    ColorTextSegments(c);
  }

  /** The colour text splits at its three commas into the four channel numbers. */
  lemma ColorTextSegments(c: Color)
    ensures Segments(EncodeColor(c)) == [NatToString(c.r), NatToString(c.g), NatToString(c.b), NatToString(c.a)]
  {
    var r, g, b, a := NatToString(c.r), NatToString(c.g), NatToString(c.b), NatToString(c.a);
    NatToStringReadsBack(c.r);
    NatToStringReadsBack(c.g);
    NatToStringReadsBack(c.b);
    NatToStringReadsBack(c.a);
    DigitsHaveNoComma(r);
    DigitsHaveNoComma(g);
    DigitsHaveNoComma(b);
    DigitsHaveNoComma(a);
    var tail3 := b + "," + a;
    var tail2 := g + "," + tail3;
    ColorTextNests(c);
    SegmentsWithoutComma(a);
    SegmentsOfJoin(b, a);
    SegmentsOfJoin(g, tail3);
    SegmentsOfJoin(r, tail2);
  }

  /** The colour text, with its joins grouped from the right. */
  lemma ColorTextNests(c: Color)
    ensures var r, g, b, a := NatToString(c.r), NatToString(c.g), NatToString(c.b), NatToString(c.a);
      EncodeColor(c) == r + "," + (g + "," + (b + "," + a))
  {
  }



  /** The corrected reading restores every colour from its text. */
  lemma ColorRoundTrip(c: Color)
    ensures DecodeColor(EncodeColor(c)) == Some(c)
  {
    ColorTextParts(c);
    LeadingNumberOfNatToString(c.r);
    LeadingNumberOfNatToString(c.g);
    LeadingNumberOfNatToString(c.b);
    LeadingNumberOfNatToString(c.a);
  }

  /** A channel pushed to the extremes: 0 stays 0 and every other byte becomes 255. */
  function Saturate(x: Byte): Byte
  {
    if x == 0 then 0 else 255
  }

  /** A colour with every channel saturated. */
  function Saturated(c: Color): Color
  {
    Color(Saturate(c.r), Saturate(c.g), Saturate(c.b), Saturate(c.a))
  }

  /** The loader as written saturates every channel of a saved colour. */
  lemma ColorRoundTripAsWritten(c: Color)
    ensures DecodeColorAsWritten(EncodeColor(c)) == Some(Saturated(c))
  {
    ColorTextParts(c);
    LeadingNumberOfNatToString(c.r);
    LeadingNumberOfNatToString(c.g);
    LeadingNumberOfNatToString(c.b);
    LeadingNumberOfNatToString(c.a);
  }

  /** A half-intensity red is saved as "128,0,0,255" and comes back as full red. */
  lemma ColorRoundTripAsWrittenFails()
    ensures DecodeColorAsWritten(EncodeColor(Color(128, 0, 0, 255))) == Some(Red)
    ensures DecodeColorAsWritten(EncodeColor(Color(128, 0, 0, 255))) != Some(Color(128, 0, 0, 255))
  {
    ColorRoundTripAsWritten(Color(128, 0, 0, 255));
  }

  // ---------------------------------------------------------------- JSON

  /** The JSON values the settings file holds. */
  datatype JsonValue = JBool(b: bool) | JNumber(n: real) | JString(s: string) | JNull

  type JsonObject = map<string, JsonValue>

  /** The top-level object: one object per value-type block. */
  type Document = map<string, JsonObject>

  /** The text of a settings file: a document, or text the JSON reader rejects. */
  datatype FileText = JsonText(doc: Document) | Unparseable

  const BoolBlock: string := "BoolValues"
  const IntegerBlock: string := "IntegerValues"
  const FloatBlock: string := "FloatValues"
  const ColorBlock: string := "ColorValues"
  const TagBlock: string := "TagValues"

  /** A value read as a boolean: numbers are true when non-zero. */
  function AsBool(v: JsonValue): bool
  {
    match v
    case JBool(b) => b
    case JNumber(n) => n != 0.0
    case JString(_) => false
    case JNull => false
  }

  /** A value read as a number: booleans read as 1 and 0. */
  function AsNumber(v: JsonValue): real
  {
    match v
    case JBool(b) => if b then 1.0 else 0.0
    case JNumber(n) => n
    case JString(_) => 0.0
    case JNull => 0.0
  }

  /** A value read as a string: booleans read as "true" and "false". */
  function AsString(v: JsonValue): string
  {
    match v
    case JBool(b) => if b then "true" else "false"
    case JNumber(_) => ""
    case JString(s) => s
    case JNull => ""
  }

  /** The conversion of a number to an integer, which drops the fraction toward zero. */
  function TruncateToInt(x: real): (r: int)
    ensures 0.0 <= x ==> r as real <= x < r as real + 1.0
    ensures x < 0.0 ==> r as real - 1.0 < x <= r as real
  {
    if x >= 0.0 then x.Floor else -((-x).Floor)
  }

  // ---------------------------------------------------------------- per-type codecs

  function BoolDefault(k: SettingKind): Option<bool>
  {
    if k.BoolSetting? then Some(k.boolDefault) else None
  }

  function IntDefault(k: SettingKind): Option<int>
  {
    if k.IntSetting? then Some(k.intDefault) else None
  }

  function FloatDefault(k: SettingKind): Option<real>
  {
    if k.FloatSetting? then Some(k.floatDefault) else None
  }

  function ColorDefault(k: SettingKind): Option<Color>
  {
    if k.ColorSetting? then Some(k.colorDefault) else None
  }

  function TagDefault(k: SettingKind): Option<Tag>
  {
    if k.TagSetting? then Some(k.tagDefault) else None
  }

  function EncodeBool(b: bool): JsonValue { JBool(b) }
  function EncodeInt(i: int): JsonValue { JNumber(i as real) }
  function EncodeFloat(f: real): JsonValue { JNumber(f) }
  function EncodeColorValue(c: Color): JsonValue { JString(EncodeColor(c)) }
  function EncodeTag(t: Tag): JsonValue { JString(TagToString(t)) }

  function DecodeBool(v: JsonValue): Option<bool> { Some(AsBool(v)) }
  function DecodeInt(v: JsonValue): Option<int> { Some(TruncateToInt(AsNumber(v))) }
  function DecodeFloat(v: JsonValue): Option<real> { Some(AsNumber(v)) }
  function DecodeColorValue(v: JsonValue): Option<Color> { DecodeColorAsWritten(AsString(v)) }
  function DecodeTag(v: JsonValue): Option<Tag> { Some(RequestTag(AsString(v))) }

  /** Booleans, integers, floats and tags are read back as they were written. */
  lemma ScalarRoundTrips(b: bool, i: int, f: real, t: Tag)
    ensures DecodeBool(EncodeBool(b)) == Some(b)
    ensures DecodeInt(EncodeInt(i)) == Some(i)
    ensures DecodeFloat(EncodeFloat(f)) == Some(f)
    ensures DecodeTag(EncodeTag(t)) == Some(t)
  {
    TagTextRoundTrip(t);
  }

  // ---------------------------------------------------------------- serialising

  /**
   * The class default of the setting registered under a key, or none when no
   * setting has that id or the setting is of another class.
   */
  function DefaultForKey<T>(registry: seq<Setting>, key: Tag, classDefault: SettingKind -> Option<T>): Option<T>
  {
    match FindById(registry, key)
    case None => None
    case Some(s) => classDefault(s.kind)
  }

  /**
   * One block of the file: the entries of one map, visited in the given order,
   * that differ from their setting's default. A key without a setting of the
   * block's class dereferences a null setting.
   */
  function SerializeBlock<T(==)>(order: seq<Tag>, values: map<Tag, T>, registry: seq<Setting>,
                                 classDefault: SettingKind -> Option<T>, encode: T -> JsonValue): Result<JsonObject>
    requires forall k :: k in order ==> k in values
  {
    if order == [] then Ok(map[])
    else
      var key := order[|order| - 1];
      match SerializeBlock(order[..|order| - 1], values, registry, classDefault, encode)
      case Fatal => Fatal
      case Ok(obj) =>
        match DefaultForKey(registry, key, classDefault)
        case None => Fatal
        case Some(d) => if values[key] == d then Ok(obj) else Ok(obj[TagToString(key) := encode(values[key])])
  }

  /** A block is written unless some visited key has no setting of the block's class. */
  lemma {:induction false} SerializeBlockSucceeds<T>(order: seq<Tag>, values: map<Tag, T>, registry: seq<Setting>,
                                                         classDefault: SettingKind -> Option<T>, encode: T -> JsonValue)
    requires forall k :: k in order ==> k in values
    ensures SerializeBlock(order, values, registry, classDefault, encode).Ok?
        <==> forall k :: k in order ==> DefaultForKey(registry, k, classDefault).Some?
  {
    if order != [] {
      var init := order[..|order| - 1];
      assert forall k :: k in order <==> k in init || k == order[|order| - 1];
      SerializeBlockSucceeds(init, values, registry, classDefault, encode);
    }
  }

  /** Every entry of a written block is under the text of a visited key. */
  lemma {:induction false} SerializeBlockKeys<T>(order: seq<Tag>, values: map<Tag, T>, registry: seq<Setting>,
                                                 classDefault: SettingKind -> Option<T>, encode: T -> JsonValue)
    requires forall k :: k in order ==> k in values
    ensures SerializeBlock(order, values, registry, classDefault, encode).Ok? ==>
      forall str :: str in SerializeBlock(order, values, registry, classDefault, encode).value ==>
        exists k :: k in order && TagToString(k) == str
  {
    if order != [] {
      var init := order[..|order| - 1];
      assert forall k :: k in init ==> k in order;
      SerializeBlockKeys(init, values, registry, classDefault, encode);
    }
  }

  /**
   * A written block holds exactly the entries that differ from their defaults,
   * each under its key's text and encoded, and nothing else.
   */
  lemma {:induction false} SerializeBlockMeaning<T>(order: seq<Tag>, values: map<Tag, T>, registry: seq<Setting>,
                                                        classDefault: SettingKind -> Option<T>, encode: T -> JsonValue)
    requires forall k :: k in order ==> k in values
    ensures SerializeBlock(order, values, registry, classDefault, encode).Ok? ==>
      var obj := SerializeBlock(order, values, registry, classDefault, encode).value;
      (forall k :: k in order ==>
         (TagToString(k) in obj <==> DefaultForKey(registry, k, classDefault).Some?
                                     && values[k] != DefaultForKey(registry, k, classDefault).value)
         && (TagToString(k) in obj ==> obj[TagToString(k)] == encode(values[k])))
      && (forall str :: str in obj ==> exists k :: k in order && TagToString(k) == str)
  {
    SerializeBlockKeys(order, values, registry, classDefault, encode);
    if order != [] {
      var init := order[..|order| - 1];
      var key := order[|order| - 1];
      assert forall k :: k in order <==> k in init || k == key;
      SerializeBlockMeaning(init, values, registry, classDefault, encode);
      var rest := SerializeBlock(init, values, registry, classDefault, encode);
      if rest.Ok? && DefaultForKey(registry, key, classDefault).Some? {
        var obj := rest.value;
        var d := DefaultForKey(registry, key, classDefault).value;
        var out := SerializeBlock(order, values, registry, classDefault, encode).value;
        assert out == if values[key] == d then obj else obj[TagToString(key) := encode(values[key])];
        forall k | k in order
          ensures TagToString(k) in out <==> DefaultForKey(registry, k, classDefault).Some?
                                             && values[k] != DefaultForKey(registry, k, classDefault).value
          ensures TagToString(k) in out ==> out[TagToString(k)] == encode(values[k])
        {
          if k != key && TagToString(k) == TagToString(key) {
            TagToStringInjective(k, key);
          }
          if k == key && k !in init && TagToString(k) in obj {
            var k' :| k' in init && TagToString(k') == TagToString(k);
            TagToStringInjective(k, k');
          }
        }
      }
    }
  }

  /** The visiting order of the keys of each of the five maps. */
  datatype Orders<K> = Orders(bools: seq<K>, ints: seq<K>, floats: seq<K>, colors: seq<K>, tags: seq<K>)

  /** Every visited key is a key of the store. */
  predicate VisitsStore(o: Orders<Tag>, s: ValueStore)
  {
    (forall k :: k in o.bools ==> k in s.bools) && (forall k :: k in o.ints ==> k in s.ints)
    && (forall k :: k in o.floats ==> k in s.floats) && (forall k :: k in o.colors ==> k in s.colors)
    && (forall k :: k in o.tags ==> k in s.tags)
  }

  /** The orders list the keys of every map of the store exactly once. */
  ghost predicate EnumeratesStore(o: Orders<Tag>, s: ValueStore)
  {
    Enumerates(o.bools, s.bools.Keys) && Enumerates(o.ints, s.ints.Keys) && Enumerates(o.floats, s.floats.Keys)
    && Enumerates(o.colors, s.colors.Keys) && Enumerates(o.tags, s.tags.Keys)
  }

  /** The whole file: the five blocks, or a fatal end when any block hits an unknown key. */
  function Serialize(s: ValueStore, registry: seq<Setting>, o: Orders<Tag>): (r: Result<Document>)
    requires VisitsStore(o, s)
    ensures r.Ok? ==> r.value.Keys == {BoolBlock, IntegerBlock, FloatBlock, ColorBlock, TagBlock}
  {
    var b := SerializeBlock(o.bools, s.bools, registry, BoolDefault, EncodeBool);
    var i := SerializeBlock(o.ints, s.ints, registry, IntDefault, EncodeInt);
    var f := SerializeBlock(o.floats, s.floats, registry, FloatDefault, EncodeFloat);
    var c := SerializeBlock(o.colors, s.colors, registry, ColorDefault, EncodeColorValue);
    var t := SerializeBlock(o.tags, s.tags, registry, TagDefault, EncodeTag);
    if b.Ok? && i.Ok? && f.Ok? && c.Ok? && t.Ok? then
      Ok(map[BoolBlock := b.value, IntegerBlock := i.value, FloatBlock := f.value, ColorBlock := c.value, TagBlock := t.value])
    else Fatal
  }

  /** Every key of a map has a setting of the matching class in the registry. */
  predicate Resolves<T>(values: map<Tag, T>, registry: seq<Setting>, classDefault: SettingKind -> Option<T>)
  {
    forall k :: k in values ==> DefaultForKey(registry, k, classDefault).Some?
  }

  predicate StoreResolves(s: ValueStore, registry: seq<Setting>)
  {
    Resolves(s.bools, registry, BoolDefault) && Resolves(s.ints, registry, IntDefault)
    && Resolves(s.floats, registry, FloatDefault) && Resolves(s.colors, registry, ColorDefault)
    && Resolves(s.tags, registry, TagDefault)
  }

  /** The key is the id of a registered setting of the class whose map holds values of type t. */
  predicate KeyResolves(registry: seq<Setting>, t: ValueType, k: Tag)
    requires IsStoredType(t)
  {
    match t
    case BooleanType => DefaultForKey(registry, k, BoolDefault).Some?
    case IntegerType => DefaultForKey(registry, k, IntDefault).Some?
    case FloatType => DefaultForKey(registry, k, FloatDefault).Some?
    case ColorType => DefaultForKey(registry, k, ColorDefault).Some?
    case TagType => DefaultForKey(registry, k, TagDefault).Some?
  }

  /**
   * Writing a key keeps a store resolvable exactly when the key resolves in
   * the map the payload goes to: writes add keys and never remove one.
   */
  lemma WriteResolves(st: ValueStore, k: Tag, p: Payload, registry: seq<Setting>)
    ensures StoreResolves(Write(st, k, p), registry) <==> StoreResolves(st, registry) && KeyResolves(registry, TypeOf(p), k)
  {
    match p
    case BoolPayload(b) => assert st.bools[k := b].Keys == st.bools.Keys + {k};
    case IntPayload(i) => assert st.ints[k := i].Keys == st.ints.Keys + {k};
    case FloatPayload(f) => assert st.floats[k := f].Keys == st.floats.Keys + {k};
    case ColorPayload(c) => assert st.colors[k := c].Keys == st.colors.Keys + {k};
    case TagPayload(t) => assert st.tags[k := t].Keys == st.tags.Keys + {k};
  }

  /**
   * Serialising a store succeeds exactly when every key of every map is the id
   * of a registered setting of the map's class; the document then has the five
   * blocks.
   */
  lemma SerializeSucceeds(s: ValueStore, registry: seq<Setting>, o: Orders<Tag>)
    requires EnumeratesStore(o, s)
    ensures VisitsStore(o, s)
    ensures Serialize(s, registry, o).Ok? <==> StoreResolves(s, registry)
    ensures Serialize(s, registry, o).Ok? ==>
      Serialize(s, registry, o).value.Keys == {BoolBlock, IntegerBlock, FloatBlock, ColorBlock, TagBlock}
  {
    BlockSucceeds(o.bools, s.bools, registry, BoolDefault, EncodeBool);
    BlockSucceeds(o.ints, s.ints, registry, IntDefault, EncodeInt);
    BlockSucceeds(o.floats, s.floats, registry, FloatDefault, EncodeFloat);
    BlockSucceeds(o.colors, s.colors, registry, ColorDefault, EncodeColorValue);
    BlockSucceeds(o.tags, s.tags, registry, TagDefault, EncodeTag);
  }

  /** A block over an enumeration of a map's keys is written exactly when every key resolves. */
  lemma BlockSucceeds<T>(order: seq<Tag>, values: map<Tag, T>, registry: seq<Setting>,
                         classDefault: SettingKind -> Option<T>, encode: T -> JsonValue)
    requires Enumerates(order, values.Keys)
    ensures forall k :: k in order ==> k in values
    ensures SerializeBlock(order, values, registry, classDefault, encode).Ok? <==> Resolves(values, registry, classDefault)
  {
    SerializeBlockSucceeds(order, values, registry, classDefault, encode);
  }

  // ---------------------------------------------------------------- deserialising

  /**
   * Reads one block, visiting its entries in the given order: an entry whose
   * key names a registered setting is decoded and stored (a colour only when
   * its text has four parts), and, when the base profile is loaded, that
   * setting is appended to the changed list; other entries are skipped.
   */
  function LoadBlock<T>(order: seq<string>, obj: JsonObject, values: map<Tag, T>, changed: seq<Setting>,
                        registry: seq<Setting>, decode: JsonValue -> Option<T>, isBase: bool): (r: (map<Tag, T>, seq<Setting>))
    requires forall k :: k in order ==> k in obj
    ensures |changed| <= |r.1| && r.1[..|changed|] == changed
    ensures !isBase ==> r.1 == changed
    ensures forall i :: |changed| <= i < |r.1| ==> r.1[i] in registry
    ensures forall t :: t in values ==> t in r.0
  {
    if order == [] then (values, changed)
    else
      var init := LoadBlock(order[..|order| - 1], obj, values, changed, registry, decode, isBase);
      var key := order[|order| - 1];
      var tag := RequestTag(key);
      match FindById(registry, tag)
      case None => init
      case Some(s) =>
        var vs := if decode(obj[key]).Some? then init.0[tag := decode(obj[key]).value] else init.0;
        (vs, if isBase then init.1 + [s] else init.1)
  }

  /**
   * What a block load leaves under a tag: the old entry when no key of the
   * block names the tag, and the decoded entry when exactly one key does, its
   * setting is registered and its value decodes.
   */
  lemma {:induction false} LoadBlockValue<T>(order: seq<string>, obj: JsonObject, values: map<Tag, T>, changed: seq<Setting>,
                                             registry: seq<Setting>, decode: JsonValue -> Option<T>, isBase: bool, t: Tag)
    requires forall k :: k in order ==> k in obj
    ensures (forall k :: k in order ==> RequestTag(k) != t) ==>
      var vs := LoadBlock(order, obj, values, changed, registry, decode, isBase).0;
      (t in vs <==> t in values) && (t in values ==> vs[t] == values[t])
    ensures forall k :: (k in order && RequestTag(k) == t && FindById(registry, t).Some? && decode(obj[k]).Some?
                         && forall k' :: k' in order && RequestTag(k') == t ==> k' == k) ==>
      var vs := LoadBlock(order, obj, values, changed, registry, decode, isBase).0;
      t in vs && vs[t] == decode(obj[k]).value
  {
    if order != [] {
      var init := order[..|order| - 1];
      var key := order[|order| - 1];
      assert forall k :: k in order <==> k in init || k == key;
      LoadBlockValue(init, obj, values, changed, registry, decode, isBase, t);
    }
  }

  /** The result of reading a file: whether it parsed, the store and the changed list. */
  datatype LoadResult = LoadResult(ok: bool, store: ValueStore, changed: seq<Setting>)

  /** The visiting orders cover only keys the document's blocks have. */
  predicate VisitsDocument(o: Orders<string>, doc: Document)
  {
    (forall k :: k in o.bools ==> BoolBlock in doc && k in doc[BoolBlock])
    && (forall k :: k in o.ints ==> IntegerBlock in doc && k in doc[IntegerBlock])
    && (forall k :: k in o.floats ==> FloatBlock in doc && k in doc[FloatBlock])
    && (forall k :: k in o.colors ==> ColorBlock in doc && k in doc[ColorBlock])
    && (forall k :: k in o.tags ==> TagBlock in doc && k in doc[TagBlock])
  }

  /** The orders list the keys of every block the document has exactly once. */
  ghost predicate EnumeratesDocument(o: Orders<string>, doc: Document)
  {
    (BoolBlock in doc ==> Enumerates(o.bools, doc[BoolBlock].Keys))
    && (IntegerBlock in doc ==> Enumerates(o.ints, doc[IntegerBlock].Keys))
    && (FloatBlock in doc ==> Enumerates(o.floats, doc[FloatBlock].Keys))
    && (ColorBlock in doc ==> Enumerates(o.colors, doc[ColorBlock].Keys))
    && (TagBlock in doc ==> Enumerates(o.tags, doc[TagBlock].Keys))
  }

  /** An absent block reads as an empty one. */
  function BlockOf(doc: Document, name: string): JsonObject
  {
    if name in doc then doc[name] else map[]
  }

  /**
   * Reads a file into a store: unparseable text fails and changes nothing;
   * otherwise the five blocks are read in turn, an absent block skipped.
   */
  function Deserialize(text: FileText, s: ValueStore, changed: seq<Setting>, registry: seq<Setting>,
                       isBase: bool, o: Orders<string>): (r: LoadResult)
    requires text.JsonText? ==> VisitsDocument(o, text.doc)
    ensures !r.ok <==> text.Unparseable?
    ensures !r.ok ==> r.store == s && r.changed == changed
    ensures |changed| <= |r.changed| && r.changed[..|changed|] == changed
    ensures !isBase ==> r.changed == changed
  {
    match text
    case Unparseable => LoadResult(false, s, changed)
    case JsonText(doc) =>
      var b := LoadBlock(o.bools, BlockOf(doc, BoolBlock), s.bools, changed, registry, DecodeBool, isBase);
      var i := LoadBlock(o.ints, BlockOf(doc, IntegerBlock), s.ints, b.1, registry, DecodeInt, isBase);
      var f := LoadBlock(o.floats, BlockOf(doc, FloatBlock), s.floats, i.1, registry, DecodeFloat, isBase);
      var c := LoadBlock(o.colors, BlockOf(doc, ColorBlock), s.colors, f.1, registry, DecodeColorValue, isBase);
      var t := LoadBlock(o.tags, BlockOf(doc, TagBlock), s.tags, c.1, registry, DecodeTag, isBase);
      PrefixTransitive(changed, b.1, i.1);
      PrefixTransitive(changed, i.1, f.1);
      PrefixTransitive(changed, f.1, c.1);
      PrefixTransitive(changed, c.1, t.1);
      LoadResult(true, ValueStore(b.0, i.0, f.0, c.0, t.0), t.1)
  }

  // ---------------------------------------------------------------- round trip

  /**
   * Reading back a block written from a map: a key whose value differed from
   * its default gets the decoding of its encoding; every other tag keeps the
   * value it had before the read.
   */
  lemma {:induction false} BlockRoundTrip<T>(order: seq<Tag>, values: map<Tag, T>, registry: seq<Setting>,
                                                 classDefault: SettingKind -> Option<T>, encode: T -> JsonValue,
                                                 decode: JsonValue -> Option<T>, loadOrder: seq<string>,
                                                 base: map<Tag, T>, changed: seq<Setting>, isBase: bool, t: Tag)
    requires forall k :: k in order <==> k in values
    requires Resolves(values, registry, classDefault)
    requires SerializeBlock(order, values, registry, classDefault, encode).Ok?
    requires forall str :: str in loadOrder <==> str in SerializeBlock(order, values, registry, classDefault, encode).value
    requires forall x :: decode(encode(x)).Some?
    ensures var obj := SerializeBlock(order, values, registry, classDefault, encode).value;
      var vs := LoadBlock(loadOrder, obj, base, changed, registry, decode, isBase).0;
      (t in values && values[t] != DefaultForKey(registry, t, classDefault).value ==>
         t in vs && vs[t] == decode(encode(values[t])).value)
      && ((t !in values || values[t] == DefaultForKey(registry, t, classDefault).value) ==>
         (t in vs <==> t in base) && (t in base ==> vs[t] == base[t]))
  {
    var obj := SerializeBlock(order, values, registry, classDefault, encode).value;
    SerializeBlockMeaning(order, values, registry, classDefault, encode);
    LoadBlockValue(loadOrder, obj, base, changed, registry, decode, isBase, t);
    // Every key of the block is the text of a saved tag, and reads back as that tag.
    forall str | str in loadOrder && RequestTag(str) == t
      ensures t in values && values[t] != DefaultForKey(registry, t, classDefault).value && str == TagToString(t)
    {
      var k :| k in order && TagToString(k) == str;
      TagTextRoundTrip(k);
    }
    if t in values && values[t] != DefaultForKey(registry, t, classDefault).value {
      var str := TagToString(t);
      TagTextRoundTrip(t);
      assert str in loadOrder && RequestTag(str) == t;
      assert FindById(registry, t).Some?;
    }
  }

  /**
   * Saving a store and reading the file back into a store: every entry that
   * differs from its default is restored, booleans, integers, floats and tags
   * exactly and colours with saturated channels; every other entry of the
   * store read into keeps its value.
   */
  lemma SaveThenLoad(s: ValueStore, registry: seq<Setting>, o: Orders<Tag>, into: ValueStore, changed: seq<Setting>,
                     isBase: bool, lo: Orders<string>, t: Tag)
    requires EnumeratesStore(o, s) && StoreResolves(s, registry)
    requires VisitsStore(o, s) && Serialize(s, registry, o).Ok?
    requires EnumeratesDocument(lo, Serialize(s, registry, o).value)
    ensures VisitsDocument(lo, Serialize(s, registry, o).value)
    ensures var r := Deserialize(JsonText(Serialize(s, registry, o).value), into, changed, registry, isBase, lo);
      r.ok
      && (t in s.bools && s.bools[t] != DefaultForKey(registry, t, BoolDefault).value ==>
         t in r.store.bools && r.store.bools[t] == s.bools[t])
      && ((t !in s.bools || s.bools[t] == DefaultForKey(registry, t, BoolDefault).value) && t in into.bools ==>
         t in r.store.bools && r.store.bools[t] == into.bools[t])
      && (t in s.ints && s.ints[t] != DefaultForKey(registry, t, IntDefault).value ==>
         t in r.store.ints && r.store.ints[t] == s.ints[t])
      && ((t !in s.ints || s.ints[t] == DefaultForKey(registry, t, IntDefault).value) && t in into.ints ==>
         t in r.store.ints && r.store.ints[t] == into.ints[t])
      && (t in s.floats && s.floats[t] != DefaultForKey(registry, t, FloatDefault).value ==>
         t in r.store.floats && r.store.floats[t] == s.floats[t])
      && ((t !in s.floats || s.floats[t] == DefaultForKey(registry, t, FloatDefault).value) && t in into.floats ==>
         t in r.store.floats && r.store.floats[t] == into.floats[t])
      && (t in s.colors && s.colors[t] != DefaultForKey(registry, t, ColorDefault).value ==>
         t in r.store.colors && r.store.colors[t] == Saturated(s.colors[t]))
      && ((t !in s.colors || s.colors[t] == DefaultForKey(registry, t, ColorDefault).value) && t in into.colors ==>
         t in r.store.colors && r.store.colors[t] == into.colors[t])
      && (t in s.tags && s.tags[t] != DefaultForKey(registry, t, TagDefault).value ==>
         t in r.store.tags && r.store.tags[t] == s.tags[t])
      && ((t !in s.tags || s.tags[t] == DefaultForKey(registry, t, TagDefault).value) && t in into.tags ==>
         t in r.store.tags && r.store.tags[t] == into.tags[t])
  {
    SaveThenLoadBools(s, registry, o, into, changed, isBase, lo, t);
    SaveThenLoadInts(s, registry, o, into, changed, isBase, lo, t);
    SaveThenLoadFloats(s, registry, o, into, changed, isBase, lo, t);
    SaveThenLoadColors(s, registry, o, into, changed, isBase, lo, t);
    SaveThenLoadTags(s, registry, o, into, changed, isBase, lo, t);
  }

  /** The document written from a store has every block, so orders enumerating its blocks visit only its keys. */
  lemma SerializedDocumentVisited(s: ValueStore, registry: seq<Setting>, o: Orders<Tag>, lo: Orders<string>)
    requires EnumeratesStore(o, s) && VisitsStore(o, s) && Serialize(s, registry, o).Ok?
    requires EnumeratesDocument(lo, Serialize(s, registry, o).value)
    ensures VisitsDocument(lo, Serialize(s, registry, o).value)
  {
    SerializeSucceeds(s, registry, o);
  }

  /** Every colour value is read back with saturated channels. */
  lemma ColorValuesSaturate()
    ensures forall x: Color :: DecodeColorValue(EncodeColorValue(x))
                               == Some(Saturated(x))
  {
    forall x: Color
      ensures DecodeColorValue(EncodeColorValue(x)) == Some(Saturated(x))
    {
      ColorRoundTripAsWritten(x);
    }
  }

  /** Every tag value is read back as written. */
  lemma TagValuesRoundTrip()
    ensures forall x: Tag :: DecodeTag(EncodeTag(x)) == Some(x)
  {
    forall x: Tag ensures DecodeTag(EncodeTag(x)) == Some(x) {
      TagTextRoundTrip(x);
    }
  }

  /** The booleans part of saving and reading back. */
  lemma SaveThenLoadBools(s: ValueStore, registry: seq<Setting>, o: Orders<Tag>, into: ValueStore, changed: seq<Setting>,
                     isBase: bool, lo: Orders<string>, t: Tag)
    requires EnumeratesStore(o, s) && StoreResolves(s, registry)
    requires VisitsStore(o, s) && Serialize(s, registry, o).Ok?
    requires EnumeratesDocument(lo, Serialize(s, registry, o).value)
    ensures VisitsDocument(lo, Serialize(s, registry, o).value)
    ensures var r := Deserialize(JsonText(Serialize(s, registry, o).value), into, changed, registry, isBase, lo);
      (t in s.bools && s.bools[t] != DefaultForKey(registry, t, BoolDefault).value ==>
         t in r.store.bools && r.store.bools[t] == s.bools[t])
      && ((t !in s.bools || s.bools[t] == DefaultForKey(registry, t, BoolDefault).value) && t in into.bools ==>
         t in r.store.bools && r.store.bools[t] == into.bools[t])
  {
    SerializedBlocks(s, registry, o);
    SerializedDocumentVisited(s, registry, o, lo);
    DeserializeStore(Serialize(s, registry, o).value, into, changed, registry, isBase, lo);
    forall x: bool ensures DecodeBool(EncodeBool(x)) == Some(x) { }
    BlockRoundTrip(o.bools, s.bools, registry, BoolDefault, EncodeBool, DecodeBool, lo.bools, into.bools, [], isBase, t);
    var doc := Serialize(s, registry, o).value;
    var block := SerializeBlock(o.bools, s.bools, registry, BoolDefault, EncodeBool).value;
    assert Deserialize(JsonText(doc), into, changed, registry, isBase, lo).store.bools
        == LoadBlock(lo.bools, block, into.bools, [], registry, DecodeBool, isBase).0;
  }

  /** The integers part of saving and reading back. */
  lemma SaveThenLoadInts(s: ValueStore, registry: seq<Setting>, o: Orders<Tag>, into: ValueStore, changed: seq<Setting>,
                     isBase: bool, lo: Orders<string>, t: Tag)
    requires EnumeratesStore(o, s) && StoreResolves(s, registry)
    requires VisitsStore(o, s) && Serialize(s, registry, o).Ok?
    requires EnumeratesDocument(lo, Serialize(s, registry, o).value)
    ensures VisitsDocument(lo, Serialize(s, registry, o).value)
    ensures var r := Deserialize(JsonText(Serialize(s, registry, o).value), into, changed, registry, isBase, lo);
      (t in s.ints && s.ints[t] != DefaultForKey(registry, t, IntDefault).value ==>
         t in r.store.ints && r.store.ints[t] == s.ints[t])
      && ((t !in s.ints || s.ints[t] == DefaultForKey(registry, t, IntDefault).value) && t in into.ints ==>
         t in r.store.ints && r.store.ints[t] == into.ints[t])
  {
    SerializedBlocks(s, registry, o);
    SerializedDocumentVisited(s, registry, o, lo);
    DeserializeStore(Serialize(s, registry, o).value, into, changed, registry, isBase, lo);
    forall x: int ensures DecodeInt(EncodeInt(x)) == Some(x) { ScalarRoundTrips(false, x, 0.0, EmptyTag); }
    BlockRoundTrip(o.ints, s.ints, registry, IntDefault, EncodeInt, DecodeInt, lo.ints, into.ints, [], isBase, t);
    var doc := Serialize(s, registry, o).value;
    var block := SerializeBlock(o.ints, s.ints, registry, IntDefault, EncodeInt).value;
    assert Deserialize(JsonText(doc), into, changed, registry, isBase, lo).store.ints
        == LoadBlock(lo.ints, block, into.ints, [], registry, DecodeInt, isBase).0;
  }

  /** The floats part of saving and reading back. */
  lemma SaveThenLoadFloats(s: ValueStore, registry: seq<Setting>, o: Orders<Tag>, into: ValueStore, changed: seq<Setting>,
                     isBase: bool, lo: Orders<string>, t: Tag)
    requires EnumeratesStore(o, s) && StoreResolves(s, registry)
    requires VisitsStore(o, s) && Serialize(s, registry, o).Ok?
    requires EnumeratesDocument(lo, Serialize(s, registry, o).value)
    ensures VisitsDocument(lo, Serialize(s, registry, o).value)
    ensures var r := Deserialize(JsonText(Serialize(s, registry, o).value), into, changed, registry, isBase, lo);
      (t in s.floats && s.floats[t] != DefaultForKey(registry, t, FloatDefault).value ==>
         t in r.store.floats && r.store.floats[t] == s.floats[t])
      && ((t !in s.floats || s.floats[t] == DefaultForKey(registry, t, FloatDefault).value) && t in into.floats ==>
         t in r.store.floats && r.store.floats[t] == into.floats[t])
  {
    SerializedBlocks(s, registry, o);
    SerializedDocumentVisited(s, registry, o, lo);
    DeserializeStore(Serialize(s, registry, o).value, into, changed, registry, isBase, lo);
    forall x: real ensures DecodeFloat(EncodeFloat(x)) == Some(x) { }
    BlockRoundTrip(o.floats, s.floats, registry, FloatDefault, EncodeFloat, DecodeFloat, lo.floats, into.floats, [], isBase, t);
    var doc := Serialize(s, registry, o).value;
    var block := SerializeBlock(o.floats, s.floats, registry, FloatDefault, EncodeFloat).value;
    assert Deserialize(JsonText(doc), into, changed, registry, isBase, lo).store.floats
        == LoadBlock(lo.floats, block, into.floats, [], registry, DecodeFloat, isBase).0;
  }

  /** The colours part of saving and reading back. */
  lemma SaveThenLoadColors(s: ValueStore, registry: seq<Setting>, o: Orders<Tag>, into: ValueStore, changed: seq<Setting>,
                     isBase: bool, lo: Orders<string>, t: Tag)
    requires EnumeratesStore(o, s) && StoreResolves(s, registry)
    requires VisitsStore(o, s) && Serialize(s, registry, o).Ok?
    requires EnumeratesDocument(lo, Serialize(s, registry, o).value)
    ensures VisitsDocument(lo, Serialize(s, registry, o).value)
    ensures var r := Deserialize(JsonText(Serialize(s, registry, o).value), into, changed, registry, isBase, lo);
      (t in s.colors && s.colors[t] != DefaultForKey(registry, t, ColorDefault).value ==>
         t in r.store.colors && r.store.colors[t] == Saturated(s.colors[t]))
      && ((t !in s.colors || s.colors[t] == DefaultForKey(registry, t, ColorDefault).value) && t in into.colors ==>
         t in r.store.colors && r.store.colors[t] == into.colors[t])
  {
    SerializedBlocks(s, registry, o);
    SerializedDocumentVisited(s, registry, o, lo);
    DeserializeStore(Serialize(s, registry, o).value, into, changed, registry, isBase, lo);
    ColorValuesSaturate();
    if t in s.colors {
      ColorRoundTripAsWritten(s.colors[t]);
    }
    BlockRoundTrip(o.colors, s.colors, registry, ColorDefault, EncodeColorValue, DecodeColorValue, lo.colors, into.colors, [], isBase, t);
    var doc := Serialize(s, registry, o).value;
    var block := SerializeBlock(o.colors, s.colors, registry, ColorDefault, EncodeColorValue).value;
    assert Deserialize(JsonText(doc), into, changed, registry, isBase, lo).store.colors
        == LoadBlock(lo.colors, block, into.colors, [], registry, DecodeColorValue, isBase).0;
  }

  /** The tags part of saving and reading back. */
  lemma SaveThenLoadTags(s: ValueStore, registry: seq<Setting>, o: Orders<Tag>, into: ValueStore, changed: seq<Setting>,
                     isBase: bool, lo: Orders<string>, t: Tag)
    requires EnumeratesStore(o, s) && StoreResolves(s, registry)
    requires VisitsStore(o, s) && Serialize(s, registry, o).Ok?
    requires EnumeratesDocument(lo, Serialize(s, registry, o).value)
    ensures VisitsDocument(lo, Serialize(s, registry, o).value)
    ensures var r := Deserialize(JsonText(Serialize(s, registry, o).value), into, changed, registry, isBase, lo);
      (t in s.tags && s.tags[t] != DefaultForKey(registry, t, TagDefault).value ==>
         t in r.store.tags && r.store.tags[t] == s.tags[t])
      && ((t !in s.tags || s.tags[t] == DefaultForKey(registry, t, TagDefault).value) && t in into.tags ==>
         t in r.store.tags && r.store.tags[t] == into.tags[t])
  {
    SerializedBlocks(s, registry, o);
    SerializedDocumentVisited(s, registry, o, lo);
    DeserializeStore(Serialize(s, registry, o).value, into, changed, registry, isBase, lo);
    TagValuesRoundTrip();
    BlockRoundTrip(o.tags, s.tags, registry, TagDefault, EncodeTag, DecodeTag, lo.tags, into.tags, [], isBase, t);
    var doc := Serialize(s, registry, o).value;
    var block := SerializeBlock(o.tags, s.tags, registry, TagDefault, EncodeTag).value;
    assert Deserialize(JsonText(doc), into, changed, registry, isBase, lo).store.tags
        == LoadBlock(lo.tags, block, into.tags, [], registry, DecodeTag, isBase).0;
  }

  /** The values a block load leaves do not depend on the changed list it extends. */
  lemma {:induction false} LoadBlockIgnoresChanged<T>(order: seq<string>, obj: JsonObject, values: map<Tag, T>,
                                                      c1: seq<Setting>, c2: seq<Setting>, registry: seq<Setting>,
                                                      decode: JsonValue -> Option<T>, isBase: bool)
    requires forall k :: k in order ==> k in obj
    ensures LoadBlock(order, obj, values, c1, registry, decode, isBase).0 == LoadBlock(order, obj, values, c2, registry, decode, isBase).0
  {
    if order != [] {
      LoadBlockIgnoresChanged(order[..|order| - 1], obj, values, c1, c2, registry, decode, isBase);
    }
  }

  /** The store a document is read into is the five block loads, each on its own map. */
  lemma DeserializeStore(doc: Document, into: ValueStore, changed: seq<Setting>, registry: seq<Setting>,
                         isBase: bool, o: Orders<string>)
    requires VisitsDocument(o, doc)
    ensures var r := Deserialize(JsonText(doc), into, changed, registry, isBase, o).store;
      r.bools == LoadBlock(o.bools, BlockOf(doc, BoolBlock), into.bools, [], registry, DecodeBool, isBase).0
      && r.ints == LoadBlock(o.ints, BlockOf(doc, IntegerBlock), into.ints, [], registry, DecodeInt, isBase).0
      && r.floats == LoadBlock(o.floats, BlockOf(doc, FloatBlock), into.floats, [], registry, DecodeFloat, isBase).0
      && r.colors == LoadBlock(o.colors, BlockOf(doc, ColorBlock), into.colors, [], registry, DecodeColorValue, isBase).0
      && r.tags == LoadBlock(o.tags, BlockOf(doc, TagBlock), into.tags, [], registry, DecodeTag, isBase).0
  {
    var b := LoadBlock(o.bools, BlockOf(doc, BoolBlock), into.bools, changed, registry, DecodeBool, isBase);
    var i := LoadBlock(o.ints, BlockOf(doc, IntegerBlock), into.ints, b.1, registry, DecodeInt, isBase);
    var f := LoadBlock(o.floats, BlockOf(doc, FloatBlock), into.floats, i.1, registry, DecodeFloat, isBase);
    var c := LoadBlock(o.colors, BlockOf(doc, ColorBlock), into.colors, f.1, registry, DecodeColorValue, isBase);
    LoadBlockIgnoresChanged(o.bools, BlockOf(doc, BoolBlock), into.bools, changed, [], registry, DecodeBool, isBase);
    LoadBlockIgnoresChanged(o.ints, BlockOf(doc, IntegerBlock), into.ints, b.1, [], registry, DecodeInt, isBase);
    LoadBlockIgnoresChanged(o.floats, BlockOf(doc, FloatBlock), into.floats, i.1, [], registry, DecodeFloat, isBase);
    LoadBlockIgnoresChanged(o.colors, BlockOf(doc, ColorBlock), into.colors, f.1, [], registry, DecodeColorValue, isBase);
    LoadBlockIgnoresChanged(o.tags, BlockOf(doc, TagBlock), into.tags, c.1, [], registry, DecodeTag, isBase);
  }

  /** A written document holds, under each block name, the block written from the matching map. */
  lemma SerializedBlocks(s: ValueStore, registry: seq<Setting>, o: Orders<Tag>)
    requires VisitsStore(o, s) && Serialize(s, registry, o).Ok?
    ensures SerializeBlock(o.bools, s.bools, registry, BoolDefault, EncodeBool).Ok?
      && SerializeBlock(o.ints, s.ints, registry, IntDefault, EncodeInt).Ok?
      && SerializeBlock(o.floats, s.floats, registry, FloatDefault, EncodeFloat).Ok?
      && SerializeBlock(o.colors, s.colors, registry, ColorDefault, EncodeColorValue).Ok?
      && SerializeBlock(o.tags, s.tags, registry, TagDefault, EncodeTag).Ok?
    ensures Serialize(s, registry, o).value.Keys == {BoolBlock, IntegerBlock, FloatBlock, ColorBlock, TagBlock}
    ensures var doc := Serialize(s, registry, o).value;
      BlockOf(doc, BoolBlock) == SerializeBlock(o.bools, s.bools, registry, BoolDefault, EncodeBool).value
      && BlockOf(doc, IntegerBlock) == SerializeBlock(o.ints, s.ints, registry, IntDefault, EncodeInt).value
      && BlockOf(doc, FloatBlock) == SerializeBlock(o.floats, s.floats, registry, FloatDefault, EncodeFloat).value
      && BlockOf(doc, ColorBlock) == SerializeBlock(o.colors, s.colors, registry, ColorDefault, EncodeColorValue).value
      && BlockOf(doc, TagBlock) == SerializeBlock(o.tags, s.tags, registry, TagDefault, EncodeTag).value
  {
  }
}
