/**
 * The closed scorecard schema check of scripts/benchmark_agent_outcome.py
 * (`_schema_failures`): a recursive walk over a JSON value and its schema.
 */
module SchemaValidator {
  import opened Wrappers
  import opened TextOrder

  datatype Json =
    | Null
    | Bool(flag: bool)
    | Int(whole: int)
    | Float(number: real)
    | Text(text: string)
    | List(items: seq<Json>)
    | Object(fields: seq<(string, Json)>)

  /** `AnyType` is a missing `type`; `UnknownType` is a name the validator does not know. */
  datatype TypeName =
    | ObjectType | ArrayType | StringType | IntegerType | NumberType | BooleanType | NullType | AnyType | UnknownType

  /** A property or item schema that is not an object checks nothing and is `None`. */
  datatype Schema = Schema(
    types: seq<TypeName>, constant: Option<Json>, enumerated: Option<seq<Json>>,
    properties: seq<(string, Option<Schema>)>, required: seq<string>, closed: bool,
    items: Option<Schema>, minItems: Option<int>, maxItems: Option<int>,
    minLength: Option<int>, maxLength: Option<int>, minimum: Option<real>, maximum: Option<real>)

  datatype Kind =
    | InvalidType | DiffersFromConstant | Unsupported | Missing(key: string) | Unexpected(key: string)
    | TooFewItems | TooManyItems | TooShort | TooLong | BelowMinimum | ExceedsMaximum

  datatype Failure = Failure(place: string, kind: Kind)

  // ---- Python's view of a value -----------------------------------------

  predicate Matches(v: Json, t: TypeName) {
    match t
    case ObjectType => v.Object?
    case ArrayType => v.List?
    case StringType => v.Text?
    case IntegerType => v.Int?
    case NumberType => v.Int? || v.Float?
    case BooleanType => v.Bool?
    case NullType => v.Null?
    case AnyType => true
    case UnknownType => false
  }

  predicate Numeric(v: Json) {
    v.Bool? || v.Int? || v.Float?
  }

  function Number(v: Json): real
    requires Numeric(v)
  {
    match v
    case Bool(flag) => if flag then 1.0 else 0.0
    case Int(whole) => whole as real
    case Float(number) => number
  }

  /** `==`: booleans, integers and floats compare by value, and objects without regard to order. */
  predicate PyEqual(a: Json, b: Json) {
    if Numeric(a) && Numeric(b) then Number(a) == Number(b)
    else
      match a
      case Null => b.Null?
      case Text(text) => b == Text(text)
      case List(items) =>
        b.List? && |items| == |b.items| && forall i :: 0 <= i < |items| ==> PyEqual(items[i], b.items[i])
      case Object(fields) =>
        && b.Object?
        && (forall i :: 0 <= i < |fields| ==>
             HasKey(b.fields, fields[i].0) && PyEqual(fields[i].1, ValueOf(b.fields, fields[i].0)))
        && (forall j :: 0 <= j < |b.fields| ==> HasKey(fields, b.fields[j].0))
      case _ => false
  }

  predicate HasKey<T>(fields: seq<(string, T)>, key: string) {
    exists i :: 0 <= i < |fields| && fields[i].0 == key
  }

  /** The value under a key, where each key stands once. */
  function ValueOf<T>(fields: seq<(string, T)>, key: string): T
    requires HasKey(fields, key)
  {
    if fields[0].0 == key then fields[0].1
    else
      assert forall i :: 1 <= i < |fields| ==> fields[i] == fields[1..][i - 1];
      ValueOf(fields[1..], key)
  }

  function Property(properties: seq<(string, Option<Schema>)>, key: string): Option<Schema> {
    if properties == [] then None
    else if properties[0].0 == key then properties[0].1
    else Property(properties[1..], key)
  }

  /** What Python's `==` says of two values, kind by kind. */
  lemma PyEqualMeans(a: Json, b: Json)
    ensures a.Null? ==> (PyEqual(a, b) <==> b.Null?)
    ensures a.Text? ==> (PyEqual(a, b) <==> b.Text? && a.text == b.text)
    ensures a.Bool? ==>
              (PyEqual(a, b) <==>
               || (b.Bool? && a.flag == b.flag)
               || b == Int(if a.flag then 1 else 0) || b == Float(if a.flag then 1.0 else 0.0))
    ensures a.Int? ==>
              (PyEqual(a, b) <==>
               || (b.Int? && a.whole == b.whole) || (b.Float? && a.whole as real == b.number)
               || (b.Bool? && a.whole == if b.flag then 1 else 0))
    ensures a.Float? ==>
              (PyEqual(a, b) <==>
               || (b.Float? && a.number == b.number) || (b.Int? && a.number == b.whole as real)
               || (b.Bool? && a.number == if b.flag then 1.0 else 0.0))
    ensures a.List? ==>
              (PyEqual(a, b) <==>
               b.List? && |a.items| == |b.items| && forall i :: 0 <= i < |a.items| ==> PyEqual(a.items[i], b.items[i]))
    ensures a.Object? && b.Object? && UniqueKeys(a.fields) && UniqueKeys(b.fields) ==>
              (PyEqual(a, b) <==> SameKeys(a, b) && SameValues(a, b))
    ensures a.Object? && !b.Object? ==> !PyEqual(a, b)
  {
    hide SameKeys, SameValues, UniqueKeys;
    if a.Object? && b.Object? && UniqueKeys(a.fields) && UniqueKeys(b.fields) {
      EqualObjects(a, b);
    }
  }

  predicate UniqueKeys<T>(fields: seq<(string, T)>) {
    forall i, j :: 0 <= i < j < |fields| ==> fields[i].0 != fields[j].0
  }

  /** Equal values under equal keys, wherever they stand. */
  predicate SameValues(a: Json, b: Json)
    requires a.Object? && b.Object?
  {
    forall i, j :: 0 <= i < |a.fields| && 0 <= j < |b.fields| && a.fields[i].0 == b.fields[j].0 ==>
                     PyEqual(a.fields[i].1, b.fields[j].1)
  }

  ghost predicate SameKeys(a: Json, b: Json)
    requires a.Object? && b.Object?
  {
    forall key :: HasKey(a.fields, key) <==> HasKey(b.fields, key)
  }

  lemma EqualObjects(a: Json, b: Json)
    requires a.Object? && b.Object? && UniqueKeys(b.fields)
    ensures PyEqual(a, b) <==> SameKeys(a, b) && SameValues(a, b)
  {
    forall i | 0 <= i < |a.fields| ensures HasKey(a.fields, a.fields[i].0) {
    }
    forall j | 0 <= j < |b.fields|
      ensures HasKey(b.fields, b.fields[j].0) && ValueOf(b.fields, b.fields[j].0) == b.fields[j].1
    {
      assert HasKey(b.fields, b.fields[j].0);
      ValueStands(b.fields, j);
    }
    hide HasKey, ValueOf;
  }

  lemma {:induction false} ValueStands(fields: seq<(string, Json)>, j: nat)
    requires j < |fields| && UniqueKeys(fields) && HasKey(fields, fields[j].0)
    ensures ValueOf(fields, fields[j].0) == fields[j].1
  {
    if j > 0 {
      assert fields[1..][j - 1] == fields[j];
      assert forall i :: 0 <= i < |fields| - 1 ==> fields[1..][i] == fields[i + 1];
      ValueStands(fields[1..], j - 1);
    }
  }

  /** With each name once, a key has the schema that stands under its name. */
  lemma {:induction false} PropertyIsTheNamed(properties: seq<(string, Option<Schema>)>, key: string)
    requires UniqueKeys(properties)
    ensures forall i :: 0 <= i < |properties| && properties[i].0 == key ==> Property(properties, key) == properties[i].1
    ensures !HasKey(properties, key) ==> Property(properties, key) == None
  {
    if properties != [] && properties[0].0 != key {
      PropertyIsTheNamed(properties[1..], key);
      assert forall i :: 1 <= i < |properties| ==> properties[i] == properties[1..][i - 1];
    }
  }

  // ---- Conformance, defined without reference to failures ----------------

  /** The type names that a value answers to. */
  function Names(v: Json): set<TypeName> {
    match v
    case Null => {NullType, AnyType}
    case Bool(_) => {BooleanType, AnyType}
    case Int(_) => {IntegerType, NumberType, AnyType}
    case Float(_) => {NumberType, AnyType}
    case Text(_) => {StringType, AnyType}
    case List(_) => {ArrayType, AnyType}
    case Object(_) => {ObjectType, AnyType}
  }

  predicate WellTyped(v: Json, s: Schema) {
    exists i :: 0 <= i < |s.types| && s.types[i] in Names(v)
  }

  lemma MatchesExactly(v: Json, t: TypeName)
    ensures Matches(v, t) <==> t in Names(v)
  {
  }

  predicate Conforms(v: Json, s: Schema)
    decreases v
  {
    && WellTyped(v, s)
    && (s.constant.Some? ==> PyEqual(v, s.constant.value))
    && (s.enumerated.Some? ==> exists i :: 0 <= i < |s.enumerated.value| && PyEqual(v, s.enumerated.value[i]))
    && match v
       case Object(fields) =>
         && (forall i :: 0 <= i < |s.required| ==> HasKey(fields, s.required[i]))
         && (s.closed ==> forall i :: 0 <= i < |fields| ==> HasKey(s.properties, fields[i].0))
         && (forall i :: 0 <= i < |fields| ==>
              var child := Property(s.properties, fields[i].0);
              child.Some? ==> Conforms(fields[i].1, child.value))
       case List(items) =>
         && (s.minItems.Some? ==> s.minItems.value <= |items|)
         && (s.maxItems.Some? ==> |items| <= s.maxItems.value)
         && (s.items.Some? ==> forall i :: 0 <= i < |items| ==> Conforms(items[i], s.items.value))
       case Text(text) =>
         && (s.minLength.Some? ==> s.minLength.value <= |text|)
         && (s.maxLength.Some? ==> |text| <= s.maxLength.value)
       case Bool(_) => true
       case Null => true
       case _ =>
         && (s.minimum.Some? ==> s.minimum.value <= Number(v))
         && (s.maximum.Some? ==> Number(v) <= s.maximum.value)
  }

  // ---- What may be reported ---------------------------------------------

  /** The constraint of this node that a kind of failure reports as broken. */
  predicate Breaks(v: Json, s: Schema, kind: Kind) {
    if !WellTyped(v, s) then kind.InvalidType?
    else
      match kind
      case InvalidType => false
      case DiffersFromConstant => s.constant.Some? && !PyEqual(v, s.constant.value)
      case Unsupported =>
        s.enumerated.Some? && forall i :: 0 <= i < |s.enumerated.value| ==> !PyEqual(v, s.enumerated.value[i])
      case Missing(key) => v.Object? && key in s.required && !HasKey(v.fields, key)
      case Unexpected(key) => v.Object? && s.closed && HasKey(v.fields, key) && !HasKey(s.properties, key)
      case TooFewItems => v.List? && s.minItems.Some? && |v.items| < s.minItems.value
      case TooManyItems => v.List? && s.maxItems.Some? && |v.items| > s.maxItems.value
      case TooShort => v.Text? && s.minLength.Some? && |v.text| < s.minLength.value
      case TooLong => v.Text? && s.maxLength.Some? && |v.text| > s.maxLength.value
      case BelowMinimum => (v.Int? || v.Float?) && s.minimum.Some? && Number(v) < s.minimum.value
      case ExceedsMaximum => (v.Int? || v.Float?) && s.maximum.Some? && Number(v) > s.maximum.value
  }

  function FieldPlace(place: string, key: string): string {
    place + "." + key
  }

  function ItemPlace(place: string, i: nat): string {
    place + "[" + Decimal(i) + "]"
  }

  /** The failure reports a broken constraint of this node or of one below it, under the place of that node. */
  ghost predicate Violates(v: Json, s: Schema, place: string, f: Failure)
    decreases v
  {
    || (f.place == place && Breaks(v, s, f.kind))
    || (WellTyped(v, s) && v.Object? && (exists i ::
         0 <= i < |v.fields| && Property(s.properties, v.fields[i].0).Some?
         && Violates(v.fields[i].1, Property(s.properties, v.fields[i].0).value, place + "." + v.fields[i].0, f)))
    || (WellTyped(v, s) && v.List? && s.items.Some? && (exists i ::
         0 <= i < |v.items| && Violates(v.items[i], s.items.value, place + "[" + Decimal(i) + "]", f)))
  }

  ghost predicate FieldViolates(v: Json, s: Schema, place: string, f: Failure, i: nat)
    requires v.Object? && i < |v.fields|
  {
    var child := Property(s.properties, v.fields[i].0);
    child.Some? && Violates(v.fields[i].1, child.value, place + "." + v.fields[i].0, f)
  }

  ghost predicate ItemViolates(v: Json, s: Schema, place: string, f: Failure, i: nat)
    requires v.List? && i < |v.items|
  {
    s.items.Some? && Violates(v.items[i], s.items.value, place + "[" + Decimal(i) + "]", f)
  }

  // ---- The validator ----------------------------------------------------

  /** `sorted(set(keys))`. */
  function Insert(key: string, keys: seq<string>): (r: seq<string>)
    ensures forall k :: k in r <==> k == key || k in keys
  {
    if keys == [] || TextLess(key, keys[0]) then [key] + keys
    else if key == keys[0] then keys
    else [keys[0]] + Insert(key, keys[1..])
  }

  function SortedSet(keys: seq<string>): (r: seq<string>)
    ensures forall k :: k in r <==> k in keys
  {
    if keys == [] then [] else Insert(keys[0], SortedSet(keys[1..]))
  }

  function Keys<T>(fields: seq<(string, T)>): (keys: seq<string>)
    ensures |keys| == |fields| && forall i :: 0 <= i < |keys| ==> keys[i] == fields[i].0
    ensures forall k :: k in keys <==> HasKey(fields, k)
  {
    seq(|fields|, i requires 0 <= i < |fields| => fields[i].0)
  }

  /** The failures of the node itself. */
  method NodeFailures(v: Json, s: Schema, place: string) returns (failures: seq<Failure>)
    requires WellTyped(v, s)
    ensures forall f :: f in failures <==> f.place == place && Breaks(v, s, f.kind)
  {
    hide PyEqual, WellTyped, HasKey, Number;
    var kinds := [];
    if s.constant.Some? && !PyEqual(v, s.constant.value) {
      kinds := kinds + [DiffersFromConstant];
    }
    if s.enumerated.Some? {
      var listed := IsListed(v, s.enumerated.value);
      if !listed {
        kinds := kinds + [Unsupported];
      }
    }
    assert forall kind :: kind in kinds <==> Anywhere(kind) && Breaks(v, s, kind);
    var own := ShapeFailures(v, s);
    failures := Placed(place, kinds + own);
  }

  predicate Anywhere(kind: Kind) {
    kind.InvalidType? || kind.DiffersFromConstant? || kind.Unsupported?
  }

  /** The failures that depend on the shape of the value. */
  method ShapeFailures(v: Json, s: Schema) returns (kinds: seq<Kind>)
    requires WellTyped(v, s)
    ensures forall kind :: kind in kinds <==> !Anywhere(kind) && Breaks(v, s, kind)
  {
    hide PyEqual, WellTyped, HasKey, Number;
    kinds := [];
    match v {
      case Object(fields) =>
        kinds := KeyFailures(fields, s);
      case List(items) =>
        if s.minItems.Some? && |items| < s.minItems.value {
          kinds := kinds + [TooFewItems];
        }
        if s.maxItems.Some? && |items| > s.maxItems.value {
          kinds := kinds + [TooManyItems];
        }
      case Text(text) =>
        if s.minLength.Some? && |text| < s.minLength.value {
          kinds := kinds + [TooShort];
        }
        if s.maxLength.Some? && |text| > s.maxLength.value {
          kinds := kinds + [TooLong];
        }
      case Int(_) => kinds := NumberFailures(v, s);
      case Float(_) => kinds := NumberFailures(v, s);
      case _ =>
    }
  }

  function Placed(place: string, kinds: seq<Kind>): (failures: seq<Failure>)
    ensures forall f: Failure :: f in failures <==> f.place == place && f.kind in kinds
  {
    if kinds == [] then [] else [Failure(place, kinds[0])] + Placed(place, kinds[1..])
  }

  method IsListed(v: Json, values: seq<Json>) returns (listed: bool)
    ensures listed <==> exists i :: 0 <= i < |values| && PyEqual(v, values[i])
  {
    hide PyEqual;
    for i := 0 to |values|
      invariant forall j :: 0 <= j < i ==> !PyEqual(v, values[j])
    {
      if PyEqual(v, values[i]) {
        return true;
      }
    }
    listed := false;
  }

  method NumberFailures(v: Json, s: Schema) returns (kinds: seq<Kind>)
    requires v.Int? || v.Float?
    ensures forall kind :: kind in kinds <==>
              || (kind.BelowMinimum? && s.minimum.Some? && Number(v) < s.minimum.value)
              || (kind.ExceedsMaximum? && s.maximum.Some? && Number(v) > s.maximum.value)
  {
    kinds := if s.minimum.Some? && Number(v) < s.minimum.value then [BelowMinimum] else [];
    if s.maximum.Some? && Number(v) > s.maximum.value {
      kinds := kinds + [ExceedsMaximum];
    }
  }

  /** The missing and the unexpected keys, each in sorted order. */
  method KeyFailures(fields: seq<(string, Json)>, s: Schema) returns (kinds: seq<Kind>)
    ensures forall kind :: kind in kinds <==>
              || (kind.Missing? && kind.key in s.required && !HasKey(fields, kind.key))
              || (kind.Unexpected? && s.closed && HasKey(fields, kind.key) && !HasKey(s.properties, kind.key))
  {
    hide HasKey, SortedSet;
    var required, present := SortedSet(s.required), SortedSet(Keys(fields));
    kinds := [];
    for i := 0 to |required|
      invariant forall kind :: kind in kinds <==>
                  kind.Missing? && kind.key in required[..i] && !HasKey(fields, kind.key)
    {
      if required[i] !in Keys(fields) {
        kinds := kinds + [Missing(required[i])];
      }
    }
    assert required[..|required|] == required;
    if s.closed {
      for i := 0 to |present|
        invariant forall kind :: kind in kinds <==>
                    || (kind.Missing? && kind.key in s.required && !HasKey(fields, kind.key))
                    || (kind.Unexpected? && kind.key in present[..i] && !HasKey(s.properties, kind.key))
      {
        if present[i] !in Keys(s.properties) {
          kinds := kinds + [Unexpected(present[i])];
        }
      }
      assert present[..|present|] == present;
    }
  }

  /** Every reported failure is real and every broken constraint is reported, at any depth. */
  method SchemaFailures(v: Json, s: Schema, place: string) returns (failures: seq<Failure>)
    ensures forall f :: f in failures <==> Violates(v, s, place, f)
    decreases v
  {
    var matches := exists i :: 0 <= i < |s.types| && Matches(v, s.types[i]);
    TypeTest(v, s);
    hide WellTyped, Breaks, Violates, FieldViolates, ItemViolates, Matches;
    if !matches {
      IllTyped(v, s, place);
      return [Failure(place, InvalidType)];
    }
    failures := NodeFailures(v, s, place);
    ghost var node := failures;
    if v.Object? {
      for i := 0 to |v.fields|
        invariant forall f :: f in failures <==>
                    f in node || exists j :: 0 <= j < i && FieldViolates(v, s, place, f, j)
      {
        var child := Property(s.properties, v.fields[i].0);
        var below: seq<Failure> := [];
        if child.Some? {
          below := SchemaFailures(v.fields[i].1, child.value, FieldPlace(place, v.fields[i].0));
        }
        FieldFailures(v, s, place, i, below);
        ghost var before := failures;
        failures := failures + below;
        assert forall f :: f in failures <==> f in before || FieldViolates(v, s, place, f, i);
      }
    } else if v.List? {
      if s.items.Some? {
        for i := 0 to |v.items|
          invariant forall f :: f in failures <==>
                      f in node || exists j :: 0 <= j < i && ItemViolates(v, s, place, f, j)
        {
          var below := SchemaFailures(v.items[i], s.items.value, ItemPlace(place, i));
          ItemFailures(v, s, place, i, below);
          ghost var before := failures;
          failures := failures + below;
          assert forall f :: f in failures <==> f in before || ItemViolates(v, s, place, f, i);
        }
      } else {
        NoItemSchema(v, s, place);
      }
    }
    WellTypedViolations(v, s, place);
  }

  lemma TypeTest(v: Json, s: Schema)
    ensures WellTyped(v, s) <==> exists i :: 0 <= i < |s.types| && Matches(v, s.types[i])
  {
    hide Matches, Names;
    forall i | 0 <= i < |s.types| ensures Matches(v, s.types[i]) <==> s.types[i] in Names(v) {
      MatchesExactly(v, s.types[i]);
    }
  }

  lemma IllTyped(v: Json, s: Schema, place: string)
    requires !WellTyped(v, s)
    ensures forall f :: Violates(v, s, place, f) <==> f == Failure(place, InvalidType)
  {
  }

  lemma WellTypedViolation(v: Json, s: Schema, place: string, f: Failure)
    requires WellTyped(v, s)
    ensures Violates(v, s, place, f) <==>
              || (f.place == place && Breaks(v, s, f.kind))
              || (v.Object? && exists i :: 0 <= i < |v.fields| && FieldViolates(v, s, place, f, i))
              || (v.List? && exists i :: 0 <= i < |v.items| && ItemViolates(v, s, place, f, i))
  {
    hide WellTyped, Breaks;
    if Violates(v, s, place, f) && !(f.place == place && Breaks(v, s, f.kind)) {
      if v.Object? {
        var i :| 0 <= i < |v.fields| && Property(s.properties, v.fields[i].0).Some?
                 && Violates(v.fields[i].1, Property(s.properties, v.fields[i].0).value,
                             place + "." + v.fields[i].0, f);
        assert FieldViolates(v, s, place, f, i);
      } else {
        var i :| 0 <= i < |v.items| && Violates(v.items[i], s.items.value, place + "[" + Decimal(i) + "]", f);
        assert ItemViolates(v, s, place, f, i);
      }
    }
  }

  lemma WellTypedViolations(v: Json, s: Schema, place: string)
    requires WellTyped(v, s)
    ensures forall f :: Violates(v, s, place, f) <==>
              || (f.place == place && Breaks(v, s, f.kind))
              || (v.Object? && exists i :: 0 <= i < |v.fields| && FieldViolates(v, s, place, f, i))
              || (v.List? && exists i :: 0 <= i < |v.items| && ItemViolates(v, s, place, f, i))
  {
    hide WellTyped, Breaks, FieldViolates, ItemViolates;
    forall f
      ensures Violates(v, s, place, f) <==>
                || (f.place == place && Breaks(v, s, f.kind))
                || (v.Object? && exists i :: 0 <= i < |v.fields| && FieldViolates(v, s, place, f, i))
                || (v.List? && exists i :: 0 <= i < |v.items| && ItemViolates(v, s, place, f, i))
    {
      WellTypedViolation(v, s, place, f);
    }
  }

  lemma FieldFailures(v: Json, s: Schema, place: string, i: nat, below: seq<Failure>)
    requires v.Object? && i < |v.fields|
    requires var child := Property(s.properties, v.fields[i].0);
             forall f :: f in below <==>
               child.Some? && Violates(v.fields[i].1, child.value, FieldPlace(place, v.fields[i].0), f)
    ensures forall f :: f in below <==> FieldViolates(v, s, place, f, i)
  {
    hide Violates;
  }

  lemma ItemFailures(v: Json, s: Schema, place: string, i: nat, below: seq<Failure>)
    requires v.List? && i < |v.items| && s.items.Some?
    requires forall f :: f in below <==> Violates(v.items[i], s.items.value, ItemPlace(place, i), f)
    ensures forall f :: f in below <==> ItemViolates(v, s, place, f, i)
  {
    hide Violates;
  }

  lemma NoItemSchema(v: Json, s: Schema, place: string)
    requires v.List? && s.items.None?
    ensures forall f, i :: 0 <= i < |v.items| ==> !ItemViolates(v, s, place, f, i)
  {
  }

  /** Failures below a node stand at longer places. */
  lemma {:induction false} PlacesGrow(v: Json, s: Schema, place: string, f: Failure)
    requires Violates(v, s, place, f)
    ensures place <= f.place && (place == f.place ==> Breaks(v, s, f.kind))
    decreases v
  {
    hide Breaks, WellTyped;
    if !(f.place == place && Breaks(v, s, f.kind)) {
      if v.Object? {
        var i :| 0 <= i < |v.fields| && Property(s.properties, v.fields[i].0).Some?
                 && Violates(v.fields[i].1, Property(s.properties, v.fields[i].0).value,
                             place + "." + v.fields[i].0, f);
        PlacesGrow(v.fields[i].1, Property(s.properties, v.fields[i].0).value, place + "." + v.fields[i].0, f);
      } else {
        var i :| 0 <= i < |v.items| && Violates(v.items[i], s.items.value, place + "[" + Decimal(i) + "]", f);
        PlacesGrow(v.items[i], s.items.value, place + "[" + Decimal(i) + "]", f);
      }
    }
  }

  /** An invalid type is reported at a node exactly if the value answers to none of the listed names. */
  lemma InvalidTypeExactly(v: Json, s: Schema, place: string)
    ensures Violates(v, s, place, Failure(place, InvalidType)) <==>
            forall i :: 0 <= i < |s.types| ==> s.types[i] !in Names(v)
  {
    hide Names;
    if Violates(v, s, place, Failure(place, InvalidType)) {
      PlacesGrow(v, s, place, Failure(place, InvalidType));
    }
  }

  // ---- Soundness and completeness ---------------------------------------

  /** A conforming value violates nothing. */
  lemma {:induction false} ConformingHasNone(v: Json, s: Schema, place: string, f: Failure)
    requires Conforms(v, s)
    ensures !Violates(v, s, place, f)
    decreases v
  {
    NodeConforms(v, s, f.kind);
    WellTypedViolation(v, s, place, f);
    hide Breaks, WellTyped;
    if v.Object? {
      forall i | 0 <= i < |v.fields| ensures !FieldViolates(v, s, place, f, i) {
        var child := Property(s.properties, v.fields[i].0);
        if child.Some? {
          ConformingHasNone(v.fields[i].1, child.value, FieldPlace(place, v.fields[i].0), f);
        }
      }
    } else if v.List? && s.items.Some? {
      forall i | 0 <= i < |v.items| ensures !ItemViolates(v, s, place, f, i) {
        ConformingHasNone(v.items[i], s.items.value, ItemPlace(place, i), f);
      }
    }
  }

  lemma NodeConforms(v: Json, s: Schema, kind: Kind)
    requires Conforms(v, s)
    ensures WellTyped(v, s) && !Breaks(v, s, kind)
  {
    hide PyEqual, WellTyped;
  }

  /** A value that does not conform violates something that is reported. */
  lemma {:induction false} OtherHasOne(v: Json, s: Schema, place: string) returns (f: Failure)
    requires !Conforms(v, s)
    ensures Violates(v, s, place, f)
    decreases v
  {
    if exists kind :: Breaks(v, s, kind) {
      var kind :| Breaks(v, s, kind);
      f := Failure(place, kind);
    } else {
      NoBreak(v, s);
      if v.Object? {
        var i :| 0 <= i < |v.fields| && Property(s.properties, v.fields[i].0).Some?
                 && !Conforms(v.fields[i].1, Property(s.properties, v.fields[i].0).value);
        var child := Property(s.properties, v.fields[i].0).value;
        f := OtherHasOne(v.fields[i].1, child, FieldPlace(place, v.fields[i].0));
        assert FieldViolates(v, s, place, f, i);
      } else {
        var i :| 0 <= i < |v.items| && !Conforms(v.items[i], s.items.value);
        f := OtherHasOne(v.items[i], s.items.value, ItemPlace(place, i));
        assert ItemViolates(v, s, place, f, i);
      }
    }
  }

  /** If no constraint of the node is broken, a child does not conform. */
  lemma NoBreak(v: Json, s: Schema)
    requires !Conforms(v, s) && forall kind :: !Breaks(v, s, kind)
    ensures WellTyped(v, s)
    ensures v.Object? || (v.List? && s.items.Some?)
    ensures v.Object? ==> exists i :: 0 <= i < |v.fields| && Property(s.properties, v.fields[i].0).Some?
                                      && !Conforms(v.fields[i].1, Property(s.properties, v.fields[i].0).value)
    ensures v.List? ==> exists i :: 0 <= i < |v.items| && !Conforms(v.items[i], s.items.value)
  {
    hide PyEqual, HasKey;
    assert !Breaks(v, s, InvalidType) && !Breaks(v, s, DiffersFromConstant) && !Breaks(v, s, Unsupported);
    if v.Object? {
      forall i | 0 <= i < |s.required| ensures HasKey(v.fields, s.required[i]) {
        assert !Breaks(v, s, Missing(s.required[i]));
      }
      forall i | 0 <= i < |v.fields| ensures s.closed ==> HasKey(s.properties, v.fields[i].0) {
        assert !Breaks(v, s, Unexpected(v.fields[i].0));
        assert v.fields[i].0 in Keys(v.fields);
      }
    } else {
      assert !Breaks(v, s, TooFewItems) && !Breaks(v, s, TooManyItems) && !Breaks(v, s, TooShort);
      assert !Breaks(v, s, TooLong) && !Breaks(v, s, BelowMinimum) && !Breaks(v, s, ExceedsMaximum);
    }
  }

  /** No failures exactly for a conforming value, whatever the place. */
  lemma EmptyExactly(v: Json, s: Schema, place: string, failures: seq<Failure>)
    requires forall f :: f in failures <==> Violates(v, s, place, f)
    ensures failures == [] <==> Conforms(v, s)
  {
    hide Violates, Conforms;
    if Conforms(v, s) && failures != [] {
      ConformingHasNone(v, s, place, failures[0]);
    }
    if !Conforms(v, s) {
      var f := OtherHasOne(v, s, place);
    }
  }
}
