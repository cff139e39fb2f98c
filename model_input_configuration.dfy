/**
  `ModelInputConfiguration` of the Fraud Detector request model: four optional fields,
  each with a "has been set" flag, read from a JSON object by `operator=(JsonView)` and
  written to one by `Jsonize`.
*/
module FraudDetectorModel {

  /** A JSON value as the JSON library holds it; the contents of arrays and objects are not looked into. */
  datatype JsonValue = JNull | JBool(b: bool) | JNumber(n: int) | JString(s: string) | JStructured

  /** A JSON object: member names to values. */
  type JsonObject = map<string, JsonValue>

  const FormatKey: string := "format"
  const IsOpaqueKey: string := "isOpaque"
  const JsonInputTemplateKey: string := "jsonInputTemplate"
  const CsvInputTemplateKey: string := "csvInputTemplate"

  /** `JsonView::ValueExists`: the member is there and is not null. */
  predicate ValueExists(j: JsonObject, key: string) {
    key in j && j[key] != JNull
  }

  /** `JsonView::GetString`: the member's text, or the empty string when it is not a string. */
  function GetString(j: JsonObject, key: string): string {
    if key in j && j[key].JString? then j[key].s else ""
  }

  /** `JsonView::GetBool`: a boolean member's value, a number's being non-zero, otherwise false. */
  function GetBool(j: JsonObject, key: string): bool {
    if key !in j then false
    else match j[key]
      case JBool(b) => b
      case JNumber(n) => n != 0
      case _ => false
  }

  /** The `ModelInputDataFormat` enumeration. */
  datatype ModelInputDataFormat = NotSet | TextCsv | ApplicationJson

  /**
    `ModelInputDataFormatMapper`: name to format (`GetModelInputDataFormatForName`) and
    format to name (`GetNameForModelInputDataFormat`).
  */
  datatype FormatMapper = FormatMapper(forName: string -> ModelInputDataFormat, nameFor: ModelInputDataFormat -> string)
  {
    /** Writing the format's name and reading it back gives the format. */
    predicate RoundTrips(f: ModelInputDataFormat) {
      forName(nameFor(f)) == f
    }
  }

  /** The four optional fields of the record. */
  datatype Field = Format | IsOpaque | JsonInputTemplate | CsvInputTemplate

  /** The JSON member name of each field. */
  function Key(f: Field): string {
    match f
    case Format => FormatKey
    case IsOpaque => IsOpaqueKey
    case JsonInputTemplate => JsonInputTemplateKey
    case CsvInputTemplate => CsvInputTemplateKey
  }

  /** The value of a `ModelInputConfiguration`: each field with its "has been set" flag. */
  datatype Settings = Settings(
    format: ModelInputDataFormat, formatHasBeenSet: bool,
    isOpaque: bool, isOpaqueHasBeenSet: bool,
    jsonInputTemplate: string, jsonInputTemplateHasBeenSet: bool,
    csvInputTemplate: string, csvInputTemplateHasBeenSet: bool)
  {
    /** The "has been set" flag of a field. */
    predicate HasBeenSet(f: Field) {
      match f
      case Format => formatHasBeenSet
      case IsOpaque => isOpaqueHasBeenSet
      case JsonInputTemplate => jsonInputTemplateHasBeenSet
      case CsvInputTemplate => csvInputTemplateHasBeenSet
    }
  }

  /** Two values agree on a field: the same value and the same flag. */
  predicate Agree(s: Settings, t: Settings, f: Field) {
    s.HasBeenSet(f) == t.HasBeenSet(f) &&
    match f
    case Format => s.format == t.format
    case IsOpaque => s.isOpaque == t.isOpaque
    case JsonInputTemplate => s.jsonInputTemplate == t.jsonInputTemplate
    case CsvInputTemplate => s.csvInputTemplate == t.csvInputTemplate
  }

  /** What the default constructor leaves: no flag set, `NOT_SET` format, not opaque, empty templates. */
  const Default: Settings := Settings(NotSet, false, false, false, "", false, "", false)

  /**
    `operator=(JsonView)` on values: a field whose member exists is overwritten and marked
    set; a field whose member is absent (or null) keeps its value and its flag.
  */
  function FromJson(s: Settings, j: JsonObject, m: FormatMapper): (r: Settings)
    ensures forall f :: !ValueExists(j, Key(f)) ==> Agree(r, s, f)
    ensures forall f :: r.HasBeenSet(f) <==> s.HasBeenSet(f) || ValueExists(j, Key(f))
    ensures ValueExists(j, FormatKey) ==> r.format == m.forName(GetString(j, FormatKey))
    ensures ValueExists(j, IsOpaqueKey) ==> r.isOpaque == GetBool(j, IsOpaqueKey)
    ensures ValueExists(j, JsonInputTemplateKey) ==> r.jsonInputTemplate == GetString(j, JsonInputTemplateKey)
    ensures ValueExists(j, CsvInputTemplateKey) ==> r.csvInputTemplate == GetString(j, CsvInputTemplateKey)
  {
    var s1 := if ValueExists(j, FormatKey)
              then s.(format := m.forName(GetString(j, FormatKey)), formatHasBeenSet := true) else s;
    var s2 := if ValueExists(j, IsOpaqueKey)
              then s1.(isOpaque := GetBool(j, IsOpaqueKey), isOpaqueHasBeenSet := true) else s1;
    var s3 := if ValueExists(j, JsonInputTemplateKey)
              then s2.(jsonInputTemplate := GetString(j, JsonInputTemplateKey), jsonInputTemplateHasBeenSet := true) else s2;
    if ValueExists(j, CsvInputTemplateKey)
    then s3.(csvInputTemplate := GetString(j, CsvInputTemplateKey), csvInputTemplateHasBeenSet := true) else s3
  }

  /**
    `Jsonize` on values: a member appears exactly for the fields whose flag is set, and
    no other member appears.
  */
  function ToJson(s: Settings, m: FormatMapper): (r: JsonObject)
    ensures forall f :: Key(f) in r <==> s.HasBeenSet(f)
    ensures r.Keys <= {FormatKey, IsOpaqueKey, JsonInputTemplateKey, CsvInputTemplateKey}
    ensures FormatKey in r ==> r[FormatKey] == JString(m.nameFor(s.format))
    ensures IsOpaqueKey in r ==> r[IsOpaqueKey] == JBool(s.isOpaque)
    ensures JsonInputTemplateKey in r ==> r[JsonInputTemplateKey] == JString(s.jsonInputTemplate)
    ensures CsvInputTemplateKey in r ==> r[CsvInputTemplateKey] == JString(s.csvInputTemplate)
  {
    var p1 := if s.formatHasBeenSet then map[FormatKey := JString(m.nameFor(s.format))] else map[];
    var p2 := if s.isOpaqueHasBeenSet then p1[IsOpaqueKey := JBool(s.isOpaque)] else p1;
    var p3 := if s.jsonInputTemplateHasBeenSet then p2[JsonInputTemplateKey := JString(s.jsonInputTemplate)] else p2;
    if s.csvInputTemplateHasBeenSet then p3[CsvInputTemplateKey := JString(s.csvInputTemplate)] else p3
  }

  /** A default-constructed record has no flag set and serialises to the empty object. */
  lemma DefaultIsEmpty(m: FormatMapper)
    ensures forall f :: !Default.HasBeenSet(f)
    ensures ToJson(Default, m) == map[]
  {
  }

  /** Reading the same object twice is the same as reading it once. */
  lemma FromJsonIdempotent(s: Settings, j: JsonObject, m: FormatMapper)
    ensures FromJson(FromJson(s, j, m), j, m) == FromJson(s, j, m)
  {
  }

  /**
    Serialising a record and reading the result into a default record gives back every
    flag, and the value of every field that was set; the format comes back through the
    mapper's round trip. Unset fields keep their defaults.
  */
  lemma RoundTrip(s: Settings, m: FormatMapper)
    ensures forall f :: FromJson(Default, ToJson(s, m), m).HasBeenSet(f) == s.HasBeenSet(f)
    ensures forall f :: f != Format && s.HasBeenSet(f) ==> Agree(FromJson(Default, ToJson(s, m), m), s, f)
    ensures s.formatHasBeenSet ==> FromJson(Default, ToJson(s, m), m).format == m.forName(m.nameFor(s.format))
    ensures forall f :: !s.HasBeenSet(f) ==> Agree(FromJson(Default, ToJson(s, m), m), Default, f)
  {
  }

  /** Unset fields hold the default values. */
  predicate UnsetAreDefault(s: Settings) {
    forall f :: !s.HasBeenSet(f) ==> Agree(s, Default, f)
  }

  /** The default record holds default values in its unset fields (trivially: every field is unset). */
  lemma DefaultUnsetAreDefault()
    ensures UnsetAreDefault(Default)
  {
  }

  /** Assignment from JSON writes a field only together with its flag, so unset fields stay default. */
  lemma FromJsonPreservesDefaults(s: Settings, j: JsonObject, m: FormatMapper)
    requires UnsetAreDefault(s)
    ensures UnsetAreDefault(FromJson(s, j, m))
  {
  }

  /** When the mapper round-trips the format and unset fields hold defaults, the round trip is exact. */
  lemma RoundTripExact(s: Settings, m: FormatMapper)
    requires s.formatHasBeenSet ==> m.RoundTrips(s.format)
    requires UnsetAreDefault(s)
    ensures FromJson(Default, ToJson(s, m), m) == s
  {
    RoundTrip(s, m);
    var r := FromJson(Default, ToJson(s, m), m);
    forall f ensures Agree(r, s, f) {
      if !s.HasBeenSet(f) {
        assert Agree(r, Default, f) && Agree(s, Default, f);
      }
    }
    assert Agree(r, s, Format) && Agree(r, s, IsOpaque);
    assert Agree(r, s, JsonInputTemplate) && Agree(r, s, CsvInputTemplate);
  }

  /**
    A JSON object the record can represent: every known member that exists has the type
    the record stores, and a format name survives the mapper's round trip.
  */
  predicate WellTyped(j: JsonObject, m: FormatMapper) {
    && (ValueExists(j, FormatKey) ==> j[FormatKey].JString? && m.nameFor(m.forName(j[FormatKey].s)) == j[FormatKey].s)
    && (ValueExists(j, IsOpaqueKey) ==> j[IsOpaqueKey].JBool?)
    && (ValueExists(j, JsonInputTemplateKey) ==> j[JsonInputTemplateKey].JString?)
    && (ValueExists(j, CsvInputTemplateKey) ==> j[CsvInputTemplateKey].JString?)
  }

  /** The members of `j` the record keeps: the four known ones that exist. */
  function KnownMembers(j: JsonObject): (r: JsonObject)
    ensures forall k :: k in r <==> k in {FormatKey, IsOpaqueKey, JsonInputTemplateKey, CsvInputTemplateKey} && ValueExists(j, k)
    ensures forall k :: k in r ==> k in j && r[k] == j[k]
  {
    map k | k in j.Keys && k in {FormatKey, IsOpaqueKey, JsonInputTemplateKey, CsvInputTemplateKey} && j[k] != JNull :: j[k]
  }

  /** Reading a well-typed object into a default record and serialising it gives back its known members. */
  lemma ReadThenWrite(j: JsonObject, m: FormatMapper)
    requires WellTyped(j, m)
    ensures ToJson(FromJson(Default, j, m), m) == KnownMembers(j)
  {
  }

  /** The `ModelInputConfiguration` object: the fields and flags that its operations update in place. */
  class ModelInputConfiguration {
    var format: ModelInputDataFormat
    var formatHasBeenSet: bool
    var isOpaque: bool
    var isOpaqueHasBeenSet: bool
    var jsonInputTemplate: string
    var jsonInputTemplateHasBeenSet: bool
    var csvInputTemplate: string
    var csvInputTemplateHasBeenSet: bool

    /** The record's current value. */
    function Snapshot(): Settings
      reads this
    {
      Settings(format, formatHasBeenSet, isOpaque, isOpaqueHasBeenSet,
               jsonInputTemplate, jsonInputTemplateHasBeenSet, csvInputTemplate, csvInputTemplateHasBeenSet)
    }

    /** The default constructor. */
    constructor ()
      ensures Snapshot() == Default
    {
      format, formatHasBeenSet := NotSet, false;
      isOpaque, isOpaqueHasBeenSet := false, false;
      jsonInputTemplate, jsonInputTemplateHasBeenSet := "", false;
      csvInputTemplate, csvInputTemplateHasBeenSet := "", false;
    }

    /** The JSON constructor: default initialisation, then assignment from the object. */
    constructor FromJsonView(j: JsonObject, m: FormatMapper)
      ensures Snapshot() == FromJson(Default, j, m)
    {
      format, formatHasBeenSet := NotSet, false;
      isOpaque, isOpaqueHasBeenSet := false, false;
      jsonInputTemplate, jsonInputTemplateHasBeenSet := "", false;
      csvInputTemplate, csvInputTemplateHasBeenSet := "", false;
      new;
      Assign(j, m);
    }

    /** `operator=(JsonView)`: overwrites each field, and sets its flag, whose member exists. */
    method Assign(j: JsonObject, m: FormatMapper)
      modifies this
      ensures Snapshot() == FromJson(old(Snapshot()), j, m)
    {
      if ValueExists(j, FormatKey) {
        format := m.forName(GetString(j, FormatKey));
        formatHasBeenSet := true;
      }
      if ValueExists(j, IsOpaqueKey) {
        isOpaque := GetBool(j, IsOpaqueKey);
        isOpaqueHasBeenSet := true;
      }
      if ValueExists(j, JsonInputTemplateKey) {
        jsonInputTemplate := GetString(j, JsonInputTemplateKey);
        jsonInputTemplateHasBeenSet := true;
      }
      if ValueExists(j, CsvInputTemplateKey) {
        csvInputTemplate := GetString(j, CsvInputTemplateKey);
        csvInputTemplateHasBeenSet := true;
      }
    }

    /** `Jsonize`: builds the payload member by member, for the fields whose flag is set. */
    method Jsonize(m: FormatMapper) returns (payload: JsonObject)
      ensures payload == ToJson(Snapshot(), m)
    {
      payload := map[];
      if formatHasBeenSet {
        payload := payload[FormatKey := JString(m.nameFor(format))];
      }
      if isOpaqueHasBeenSet {
        payload := payload[IsOpaqueKey := JBool(isOpaque)];
      }
      if jsonInputTemplateHasBeenSet {
        payload := payload[JsonInputTemplateKey := JString(jsonInputTemplate)];
      }
      if csvInputTemplateHasBeenSet {
        payload := payload[CsvInputTemplateKey := JString(csvInputTemplate)];
      }
    }
  }
}
