/**
 * The validator for the subset of JSON Schema that contracts use, against a relation that says which
 * values conform. Both follow the code where it leaves JSON Schema: an untyped schema with `required`
 * or `properties` treats a value that is no object as an empty one, a constant is compared in its
 * printed form, and a child schema that is no object is passed over.
 */
module Contracts {
  import opened Sets
  import opened Text

  /** A decoded value. `Single` is float32, `Other` any Go type the validator has no case for. */
  datatype Value =
    | Null
    | Bool(b: bool)
    | Str(text: string)
    | Int(n: int)
    | Float(f: real)
    | Single(f: real)
    | JsonNumber(digits: string)
    | Obj(fields: map<string, Value>)
    | Arr(items: seq<Value>)
    | Other(tag: nat)

  type Schema = map<string, Value>

  /** What the platform decides: how values print, and the conversion of a float to an int. */
  datatype Platform = Platform(sprint: Value -> string, toInt: real -> int)

  datatype Code = InvalidType(expected: string) | InvalidConst | Required

  datatype Issue = Issue(field: string, code: Code)

  /** One step into a value. */
  datatype Hop = Key(key: string) | Index(index: nat)

  // ---- Reading a schema ----

  function Property(schema: Schema, name: string): Value {
    if name in schema then schema[name] else Null
  }

  function Fields(value: Value): map<string, Value> {
    if value.Obj? then value.fields else map[]
  }

  function Items(value: Value): seq<Value> {
    if value.Arr? then value.items else []
  }

  function ExpectedType(schema: Schema): string {
    var t := Property(schema, "type");
    if t.Str? then t.text else ""
  }

  function Properties(schema: Schema): map<string, Value> {
    Fields(Property(schema, "properties"))
  }

  function RequiredList(schema: Schema): seq<Value> {
    Items(Property(schema, "required"))
  }

  predicate ObjectLike(schema: Schema) {
    var t := ExpectedType(schema);
    t == "object" || (t == "" && (Property(schema, "properties").Obj? || Property(schema, "required").Arr?))
  }

  predicate ArrayLike(schema: Schema) {
    var t := ExpectedType(schema);
    !ObjectLike(schema) && (t == "array" || (t == "" && !Property(schema, "items").Null?))
  }

  function KeyOf(raw: Value): string {
    if raw.Str? then raw.text else ""
  }

  predicate Requires(schema: Schema, key: string) {
    TrimSpace(key) != "" && exists raw <- RequiredList(schema) :: KeyOf(raw) == key
  }

  predicate MatchesType(p: Platform, value: Value, expected: string) {
    if expected == "string" then value.Str?
    else if expected == "number" then value.Float? || value.Single? || value.Int? || value.JsonNumber?
    else if expected == "integer" then
      || value.Int?
      || (value.Float? && value.f == p.toInt(value.f) as real)
      || (value.JsonNumber? && Atoi(value.digits).Some?)
    else if expected == "boolean" then value.Bool?
    else if expected == "object" then value.Obj?
    else if expected == "array" then value.Arr?
    else true
  }

  function Plain(value: Value): Value {
    if value.JsonNumber? then Str(value.digits) else value
  }

  predicate ValuesEqual(p: Platform, left: Value, right: Value) {
    p.sprint(Plain(left)) == p.sprint(Plain(right))
  }

  predicate TypeOk(p: Platform, schema: Schema, value: Value) {
    ExpectedType(schema) == "" || MatchesType(p, value, ExpectedType(schema))
  }

  predicate ConstOk(p: Platform, schema: Schema, value: Value) {
    "const" in schema ==> ValuesEqual(p, value, schema["const"])
  }

  // ---- Which values conform ----

  predicate Conforms(p: Platform, schema: Schema, value: Value)
    decreases value
  {
    && TypeOk(p, schema, value)
    && ConstOk(p, schema, value)
    && (ObjectLike(schema) ==>
          && (forall raw <- RequiredList(schema) :: Requires(schema, KeyOf(raw)) ==> KeyOf(raw) in Fields(value))
          && (value.Obj? ==>
                forall key <- value.fields :: key in Properties(schema) && Properties(schema)[key].Obj? ==>
                  Conforms(p, Properties(schema)[key].fields, value.fields[key])))
    && (ArrayLike(schema) && value.Arr? && Property(schema, "items").Obj? ==>
          forall i | 0 <= i < |value.items| :: Conforms(p, Property(schema, "items").fields, value.items[i]))
  }

  // ---- Where a value fails to ----

  /** The schema and the value one hop further in. */
  function Under(schema: Schema, value: Value, hop: Hop): (r: Option<(Schema, Value)>)
    ensures r.Some? ==> r.value.1 < value
  {
    match hop
    case Key(key) =>
      if ObjectLike(schema) && value.Obj? && key in value.fields
         && key in Properties(schema) && Properties(schema)[key].Obj?
      then Some((Properties(schema)[key].fields, value.fields[key])) else None
    case Index(i) =>
      if ArrayLike(schema) && value.Arr? && i < |value.items| && Property(schema, "items").Obj?
      then Some((Property(schema, "items").fields, value.items[i])) else None
  }

  predicate FailsHere(p: Platform, schema: Schema, value: Value, code: Code) {
    match code
    case InvalidType(expected) => expected == ExpectedType(schema) && !TypeOk(p, schema, value)
    case InvalidConst => TypeOk(p, schema, value) && !ConstOk(p, schema, value)
    case Required => false
  }

  predicate Misses(schema: Schema, value: Value, hop: Hop) {
    hop.Key? && ObjectLike(schema) && Requires(schema, hop.key) && hop.key !in Fields(value)
  }

  /** The sub-value at `path`, or the key missing there, breaks its schema in the way `code` says. */
  predicate Violates(p: Platform, schema: Schema, value: Value, path: seq<Hop>, code: Code)
    decreases |path|, 0
  {
    if path == [] then FailsHere(p, schema, value, code)
    else
      TypeOk(p, schema, value)
      && ((code == Required && |path| == 1 && Misses(schema, value, path[0]))
          || ViolatesUnder(p, Under(schema, value, path[0]), path[1..], code))
  }

  predicate ViolatesUnder(p: Platform, under: Option<(Schema, Value)>, rest: seq<Hop>, code: Code)
    decreases |rest|, 1
  {
    under.Some? && Violates(p, under.value.0, under.value.1, rest, code)
  }

  // ---- How places are written ----

  function JoinField(prefix: string, key: string): string {
    if prefix == "" then key
    else if key == "" then prefix
    else prefix + "." + key
  }

  function Indexed(prefix: string, i: nat): string {
    prefix + "[" + Dec(i) + "]"
  }

  function JoinHop(prefix: string, hop: Hop): string {
    match hop
    case Key(key) => JoinField(prefix, key)
    case Index(i) => Indexed(prefix, i)
  }

  function Render(prefix: string, path: seq<Hop>): string
    decreases |path|
  {
    if path == [] then prefix else Render(JoinHop(prefix, path[0]), path[1..])
  }

  // ---- The code ----

  ghost predicate Sound(p: Platform, schema: Schema, value: Value, field: string, issues: seq<Issue>,
                        places: seq<seq<Hop>>) {
    && |places| == |issues|
    && forall i | 0 <= i < |issues| ::
         issues[i].field == Render(field, places[i]) && Violates(p, schema, value, places[i], issues[i].code)
  }

  predicate Reported(issues: seq<Issue>, places: seq<seq<Hop>>, path: seq<Hop>, code: Code) {
    exists i | 0 <= i < |issues| && i < |places| :: places[i] == path && issues[i].code == code
  }

  lemma ReportedStays(issues: seq<Issue>, places: seq<seq<Hop>>, i2: seq<Issue>, p2: seq<seq<Hop>>,
                      path: seq<Hop>, code: Code)
    requires |issues| == |places| && |i2| == |p2|
    ensures Reported(issues + i2, places + p2, path, code)
        <==> Reported(issues, places, path, code) || Reported(i2, p2, path, code)
  {
    if Reported(issues, places, path, code) {
      var i :| 0 <= i < |issues| && places[i] == path && issues[i].code == code;
      assert (places + p2)[i] == path && (issues + i2)[i].code == code;
    }
    if Reported(i2, p2, path, code) {
      var i :| 0 <= i < |i2| && p2[i] == path && i2[i].code == code;
      assert (places + p2)[|places| + i] == path && (issues + i2)[|issues| + i].code == code;
    }
  }

  function Prefixed(hop: Hop, paths: seq<seq<Hop>>): (r: seq<seq<Hop>>)
    ensures |r| == |paths|
    ensures forall i :: 0 <= i < |r| ==> r[i] == [hop] + paths[i]
  {
    seq(|paths|, i requires 0 <= i < |paths| => [hop] + paths[i])
  }

  /** Every violation that starts with `hop` is reported. */
  ghost predicate Covers(p: Platform, schema: Schema, value: Value, hop: Hop, issues: seq<Issue>,
                         places: seq<seq<Hop>>) {
    forall rest, code :: ViolatesUnder(p, Under(schema, value, hop), rest, code) ==>
        Reported(issues, places, [hop] + rest, code)
  }

  ghost predicate Complete(p: Platform, schema: Schema, value: Value, issues: seq<Issue>, places: seq<seq<Hop>>) {
    forall path, code :: Violates(p, schema, value, path, code) ==> Reported(issues, places, path, code)
  }

  lemma CoversMore(p: Platform, schema: Schema, value: Value, hop: Hop, issues: seq<Issue>, places: seq<seq<Hop>>,
                   i2: seq<Issue>, p2: seq<seq<Hop>>)
    requires |issues| == |places| && |i2| == |p2|
    requires Covers(p, schema, value, hop, issues, places)
    ensures Covers(p, schema, value, hop, issues + i2, places + p2)
  {
    forall rest, code | ViolatesUnder(p, Under(schema, value, hop), rest, code)
      ensures Reported(issues + i2, places + p2, [hop] + rest, code)
    {
      ReportedStays(issues, places, i2, p2, [hop] + rest, code);
    }
  }

  lemma CoversAfter(p: Platform, schema: Schema, value: Value, hop: Hop, issues: seq<Issue>, places: seq<seq<Hop>>,
                    i2: seq<Issue>, p2: seq<seq<Hop>>)
    requires |issues| == |places| && |i2| == |p2|
    requires Covers(p, schema, value, hop, i2, p2)
    ensures Covers(p, schema, value, hop, issues + i2, places + p2)
  {
    forall rest, code | ViolatesUnder(p, Under(schema, value, hop), rest, code)
      ensures Reported(issues + i2, places + p2, [hop] + rest, code)
    {
      ReportedStays(issues, places, i2, p2, [hop] + rest, code);
    }
  }

  lemma ViolatesBelow(p: Platform, schema: Schema, value: Value, field: string, hop: Hop, rest: seq<Hop>, code: Code)
    requires TypeOk(p, schema, value) && ViolatesUnder(p, Under(schema, value, hop), rest, code)
    ensures Violates(p, schema, value, [hop] + rest, code)
    ensures Render(field, [hop] + rest) == Render(JoinHop(field, hop), rest)
  {
    hide TypeOk, Under, Misses, JoinHop;
    assert ([hop] + rest)[1..] == rest;
  }

  /** What the recursive call reports, seen from one level up. */
  lemma ChildReports(p: Platform, schema: Schema, value: Value, field: string, hop: Hop, issues: seq<Issue>,
                     places: seq<seq<Hop>>,
                     i2: seq<Issue>, p2: seq<seq<Hop>>)
    requires TypeOk(p, schema, value) && Under(schema, value, hop).Some?
    requires Sound(p, schema, value, field, issues, places)
    requires var under := Under(schema, value, hop).value;
      && Sound(p, under.0, under.1, JoinHop(field, hop), i2, p2)
      && Complete(p, under.0, under.1, i2, p2)
    ensures Sound(p, schema, value, field, issues + i2, places + Prefixed(hop, p2))
    ensures Covers(p, schema, value, hop, issues + i2, places + Prefixed(hop, p2))
  {
    hide TypeOk, Under, JoinHop, Violates, Render, Prefixed;
    var at := Prefixed(hop, p2);
    assert Sound(p, schema, value, field, i2, at) by {
      forall k | 0 <= k < |i2|
        ensures i2[k].field == Render(field, at[k]) && Violates(p, schema, value, at[k], i2[k].code)
      {
        ViolatesBelow(p, schema, value, field, hop, p2[k], i2[k].code);
      }
    }
    SoundJoined(p, schema, value, field, issues, places, i2, at);
    assert Covers(p, schema, value, hop, i2, at) by {
      forall rest, code | ViolatesUnder(p, Under(schema, value, hop), rest, code)
        ensures Reported(i2, at, [hop] + rest, code)
      {
        assert Violates(p, Under(schema, value, hop).value.0, Under(schema, value, hop).value.1, rest, code);
        var k :| 0 <= k < |i2| && p2[k] == rest && i2[k].code == code;
        assert at[k] == [hop] + rest;
      }
    }
    CoversAfter(p, schema, value, hop, issues, places, i2, at);
  }

  lemma MissingIsViolation(p: Platform, schema: Schema, value: Value, field: string, key: string)
    requires TypeOk(p, schema, value) && Misses(schema, value, Key(key))
    ensures Sound(p, schema, value, field, [Issue(JoinField(field, key), Required)], [[Key(key)]])
    ensures Reported([Issue(JoinField(field, key), Required)], [[Key(key)]], [Key(key)], Required)
  {
    hide TypeOk, Misses, JoinField;
    var issues, places := [Issue(JoinField(field, key), Required)], [[Key(key)]];
    assert places[0] == [Key(key)] && issues[0].code == Required;
    assert Violates(p, schema, value, [Key(key)], Required);
    assert Render(field, [Key(key)]) == JoinField(field, key);
  }

  /** The loop over the required keys. */
  method CheckRequired(p: Platform, schema: Schema, value: Value, field: string)
    returns (issues: seq<Issue>, ghost places: seq<seq<Hop>>)
    requires TypeOk(p, schema, value) && ObjectLike(schema)
    ensures Sound(p, schema, value, field, issues, places)
    ensures forall key :: Misses(schema, value, Key(key)) ==> Reported(issues, places, [Key(key)], Required)
  {
    hide ObjectLike, TypeOk, ExpectedType, RequiredList, TrimSpace, JoinField, Render, Violates, Reported;
    issues, places := [], [];
    var required := RequiredList(schema);
    for i := 0 to |required|
      invariant Sound(p, schema, value, field, issues, places)
      invariant forall j | 0 <= j < i :: Misses(schema, value, Key(KeyOf(required[j]))) ==>
                  Reported(issues, places, [Key(KeyOf(required[j]))], Required)
    {
      var key := KeyOf(required[i]);
      if TrimSpace(key) == "" {
        continue;
      }
      if key !in Fields(value) {
        var more, at := [Issue(JoinField(field, key), Required)], [[Key(key)]];
        MissingIsViolation(p, schema, value, field, key);
        SoundJoined(p, schema, value, field, issues, places, more, at);
        forall path {
          ReportedStays(issues, places, more, at, path, Required);
        }
        issues, places := issues + more, places + at;
      }
    }
  }

  /** The loop over the properties, which Go visits in any order. */
  method CheckProperties(p: Platform, schema: Schema, value: Value, field: string)
    returns (issues: seq<Issue>, ghost places: seq<seq<Hop>>)
    requires TypeOk(p, schema, value) && ObjectLike(schema)
    ensures Sound(p, schema, value, field, issues, places)
    ensures forall key :: Covers(p, schema, value, Key(key), issues, places)
    decreases value, 0
  {
    hide ObjectLike, TypeOk, ExpectedType, Properties, Violates, JoinField;
    issues, places := [], [];
    var left := Properties(schema).Keys;
    while left != {}
      invariant left <= Properties(schema).Keys
      invariant Sound(p, schema, value, field, issues, places)
      invariant forall key :: key !in left ==> Covers(p, schema, value, Key(key), issues, places)
      decreases |left|
    {
      var key := AnyOf(left);
      left := left - {key};
      var child := Properties(schema)[key];
      if !child.Obj? || key !in Fields(value) {
        continue;
      }
      var more, at := ValidateNode(p, child.fields, Fields(value)[key], JoinField(field, key));
      ChildReports(p, schema, value, field, Key(key), issues, places, more, at);
      forall k | k !in left && k != key
        ensures Covers(p, schema, value, Key(k), issues + more, places + Prefixed(Key(key), at))
      {
        CoversMore(p, schema, value, Key(k), issues, places, more, Prefixed(Key(key), at));
      }
      issues, places := issues + more, places + Prefixed(Key(key), at);
    }
  }

  lemma NoKeys(schema: Schema, value: Value)
    requires ArrayLike(schema)
    ensures forall key :: !Misses(schema, value, Key(key)) && Under(schema, value, Key(key)).None?
  {
  }

  lemma NoIndexes(schema: Schema, value: Value)
    requires ObjectLike(schema)
    ensures forall i :: Under(schema, value, Index(i)).None?
  {
  }

  lemma CoversNothing(p: Platform, schema: Schema, value: Value, hop: Hop, issues: seq<Issue>, places: seq<seq<Hop>>)
    requires Under(schema, value, hop).None?
    ensures Covers(p, schema, value, hop, issues, places)
  {
  }

  lemma SoundJoined(p: Platform, schema: Schema, value: Value, field: string, issues: seq<Issue>, places: seq<seq<Hop>>,
                    more: seq<Issue>, at: seq<seq<Hop>>)
    requires Sound(p, schema, value, field, issues, places) && Sound(p, schema, value, field, more, at)
    ensures Sound(p, schema, value, field, issues + more, places + at)
  {
    hide Violates, Render;
  }

  lemma SoundLengths(p: Platform, schema: Schema, value: Value, field: string, issues: seq<Issue>,
                     places: seq<seq<Hop>>,
                     more: seq<Issue>, at: seq<seq<Hop>>)
    requires Sound(p, schema, value, field, issues, places) && Sound(p, schema, value, field, more, at)
    ensures |issues| == |places| && |more| == |at|
  {
  }

  method CheckObject(p: Platform, schema: Schema, value: Value, field: string)
    returns (issues: seq<Issue>, ghost places: seq<seq<Hop>>)
    requires TypeOk(p, schema, value) && ObjectLike(schema)
    ensures Sound(p, schema, value, field, issues, places)
    ensures CoversInside(p, schema, value, issues, places)
    decreases value, 1
  {
    hide ObjectLike, ArrayLike, TypeOk, Misses, Under, Covers, Reported, Sound;
    var i1, p1 := CheckRequired(p, schema, value, field);
    var i2, p2 := CheckProperties(p, schema, value, field);
    issues, places := i1 + i2, p1 + p2;
    SoundLengths(p, schema, value, field, i1, p1, i2, p2);
    SoundJoined(p, schema, value, field, i1, p1, i2, p2);
    NoIndexes(schema, value);
    forall hop: Hop ensures Covers(p, schema, value, hop, issues, places) {
      hide *;
      if hop.Key? {
        CoversAfter(p, schema, value, hop, i1, p1, i2, p2);
      } else {
        CoversNothing(p, schema, value, hop, issues, places);
      }
    }
    forall key | Misses(schema, value, Key(key)) ensures Reported(issues, places, [Key(key)], Required) {
      hide *;
      ReportedStays(i1, p1, i2, p2, [Key(key)], Required);
    }
  }

  /** The loop over the items of an array. */
  method CheckItems(p: Platform, schema: Schema, value: Value, field: string)
    returns (issues: seq<Issue>, ghost places: seq<seq<Hop>>)
    requires TypeOk(p, schema, value) && ArrayLike(schema) && Property(schema, "items").Obj?
    ensures Sound(p, schema, value, field, issues, places)
    ensures CoversInside(p, schema, value, issues, places)
    decreases value, 0
  {
    hide ObjectLike, ArrayLike, TypeOk, ExpectedType, Properties, Violates, Property, Dec;
    issues, places := [], [];
    var items := Items(value);
    NoKeys(schema, value);
    forall i: nat | i >= |items| ensures Under(schema, value, Index(i)).None? {
    }
    for index := 0 to |items|
      invariant Sound(p, schema, value, field, issues, places)
      invariant forall i: nat :: i < index || i >= |items| ==> Covers(p, schema, value, Index(i), issues, places)
    {
      var more, at := ValidateNode(p, Property(schema, "items").fields, items[index], field + "[" + Dec(index) + "]");
      ChildReports(p, schema, value, field, Index(index), issues, places, more, at);
      forall i: nat | i < index || i >= |items|
        ensures Covers(p, schema, value, Index(i), issues + more, places + Prefixed(Index(index), at))
      {
        CoversMore(p, schema, value, Index(i), issues, places, more, Prefixed(Index(index), at));
      }
      issues, places := issues + more, places + Prefixed(Index(index), at);
    }
  }

  /** Every violation below the value itself is reported. */
  ghost predicate CoversInside(p: Platform, schema: Schema, value: Value, issues: seq<Issue>, places: seq<seq<Hop>>) {
    && (forall key :: Misses(schema, value, Key(key)) ==> Reported(issues, places, [Key(key)], Required))
    && (forall hop :: Covers(p, schema, value, hop, issues, places))
  }

  lemma CompleteByHops(p: Platform, schema: Schema, value: Value, issues: seq<Issue>, places: seq<seq<Hop>>)
    requires forall code :: FailsHere(p, schema, value, code) ==> Reported(issues, places, [], code)
    requires TypeOk(p, schema, value) ==> CoversInside(p, schema, value, issues, places)
    ensures Complete(p, schema, value, issues, places)
  {
    hide FailsHere, TypeOk, Misses, ViolatesUnder, Reported;
    forall path: seq<Hop>, code | Violates(p, schema, value, path, code) ensures Reported(issues, places, path, code) {
      if path != [] {
        assert path == [path[0]] + path[1..];
        if ViolatesUnder(p, Under(schema, value, path[0]), path[1..], code) {
          assert Covers(p, schema, value, path[0], issues, places);
        } else {
          MissesKey(schema, value, path[0]);
          assert path == [path[0]];
        }
      }
    }
  }

  lemma MissesKey(schema: Schema, value: Value, hop: Hop)
    ensures Misses(schema, value, hop) ==> hop.Key?
  {
  }

  // ---- Conforming is having no violation ----

  lemma {:induction false} ConformsUnder(p: Platform, schema: Schema, value: Value, hop: Hop)
    requires Conforms(p, schema, value)
    ensures !Misses(schema, value, hop)
    ensures var under := Under(schema, value, hop); under.Some? ==> Conforms(p, under.value.0, under.value.1)
  {
    hide MatchesType, ExpectedType, ValuesEqual, TrimSpace, Properties, RequiredList, Property;
  }

  lemma {:induction false} ConformingIsClean(p: Platform, schema: Schema, value: Value, path: seq<Hop>, code: Code)
    requires Conforms(p, schema, value)
    ensures !Violates(p, schema, value, path, code)
    decreases |path|
  {
    hide Under, Misses, TypeOk, ConstOk;
    if path != [] {
      ConformsUnder(p, schema, value, path[0]);
      var under := Under(schema, value, path[0]);
      if under.Some? {
        ConformingIsClean(p, under.value.0, under.value.1, path[1..], code);
      }
    }
  }

  lemma {:induction false} FindViolation(p: Platform, schema: Schema, value: Value) returns (path: seq<Hop>, code: Code)
    requires !Conforms(p, schema, value)
    ensures Violates(p, schema, value, path, code)
    decreases value
  {
    hide MatchesType, ExpectedType, ValuesEqual, TrimSpace, Properties, RequiredList;
    path, code := [], InvalidConst;
    if !TypeOk(p, schema, value) {
      code := InvalidType(ExpectedType(schema));
    } else if ConstOk(p, schema, value) {
      var hop := FindHop(p, schema, value);
      if Misses(schema, value, hop) {
        path, code := [hop], Required;
      } else {
        var under := Under(schema, value, hop).value;
        var rest, c := FindViolation(p, under.0, under.1);
        path, code := [hop] + rest, c;
        assert path[1..] == rest;
      }
    }
  }

  lemma {:induction false} FindHop(p: Platform, schema: Schema, value: Value) returns (hop: Hop)
    requires !Conforms(p, schema, value) && TypeOk(p, schema, value) && ConstOk(p, schema, value)
    ensures Misses(schema, value, hop)
         || (Under(schema, value, hop).Some?
             && !Conforms(p, Under(schema, value, hop).value.0, Under(schema, value, hop).value.1))
  {
    hide TypeOk, ConstOk, TrimSpace, ExpectedType, Properties, RequiredList;
    if ObjectLike(schema) {
      if raw :| raw in RequiredList(schema) && Requires(schema, KeyOf(raw)) && KeyOf(raw) !in Fields(value) {
        hop := Key(KeyOf(raw));
      } else {
        var key :| value.Obj? && key in value.fields && key in Properties(schema) && Properties(schema)[key].Obj?
                   && !Conforms(p, Properties(schema)[key].fields, value.fields[key]);
        hop := Key(key);
      }
    } else {
      var i :| 0 <= i < |value.items| && !Conforms(p, Property(schema, "items").fields, value.items[i]);
      hop := Index(i);
    }
  }

  lemma CleanIsConforming(p: Platform, schema: Schema, value: Value, issues: seq<Issue>, places: seq<seq<Hop>>,
                          field: string)
    requires Sound(p, schema, value, field, issues, places) && Complete(p, schema, value, issues, places)
    ensures issues == [] <==> Conforms(p, schema, value)
  {
    hide Violates, Conforms;
    if Conforms(p, schema, value) && issues != [] {
      ConformingIsClean(p, schema, value, places[0], issues[0].code);
    }
    if !Conforms(p, schema, value) {
      var path, code := FindViolation(p, schema, value);
      assert Reported(issues, places, path, code);
    }
  }

  lemma Joined(p: Platform, schema: Schema, value: Value, field: string, issues: seq<Issue>, places: seq<seq<Hop>>,
               more: seq<Issue>, at: seq<seq<Hop>>)
    requires Sound(p, schema, value, field, issues, places) && Sound(p, schema, value, field, more, at)
    requires forall code :: FailsHere(p, schema, value, code) ==> Reported(issues, places, [], code)
    requires CoversInside(p, schema, value, more, at)
    ensures Sound(p, schema, value, field, issues + more, places + at)
    ensures Complete(p, schema, value, issues + more, places + at)
  {
    hide FailsHere, Misses, Violates, Under, Sound, Reported, Covers;
    assert |issues| == |places| && |more| == |at| by {
      SoundLengths(p, schema, value, field, issues, places, more, at);
    }
    SoundJoined(p, schema, value, field, issues, places, more, at);
    forall code | FailsHere(p, schema, value, code) ensures Reported(issues + more, places + at, [], code) {
      ReportedStays(issues, places, more, at, [], code);
    }
    forall key | Misses(schema, value, Key(key)) ensures Reported(issues + more, places + at, [Key(key)], Required) {
      ReportedStays(issues, places, more, at, [Key(key)], Required);
    }
    forall hop ensures Covers(p, schema, value, hop, issues + more, places + at) {
      CoversAfter(p, schema, value, hop, issues, places, more, at);
    }
    CompleteByHops(p, schema, value, issues + more, places + at);
  }

  /** The tests of the type and of the constant. */
  method CheckSelf(p: Platform, schema: Schema, value: Value, field: string)
    returns (typed: bool, issues: seq<Issue>, ghost places: seq<seq<Hop>>)
    ensures typed == TypeOk(p, schema, value)
    ensures Sound(p, schema, value, field, issues, places)
    ensures forall code :: FailsHere(p, schema, value, code) ==> Reported(issues, places, [], code)
  {
    hide MatchesType, ValuesEqual, ExpectedType, ObjectLike, Under;
    var expected := ExpectedType(schema);
    typed, issues, places := true, [], [];
    if expected != "" && !MatchesType(p, value, expected) {
      typed, issues, places := false, [Issue(field, InvalidType(expected))], [[]];
      assert places[0] == [] && issues[0].code == InvalidType(expected);
    } else if "const" in schema && !ValuesEqual(p, value, schema["const"]) {
      issues, places := [Issue(field, InvalidConst)], [[]];
      assert places[0] == [] && issues[0].code == InvalidConst;
    }
  }

  lemma NothingInside(p: Platform, schema: Schema, value: Value, field: string, issues: seq<Issue>,
                      places: seq<seq<Hop>>)
    requires !ObjectLike(schema) && !(ArrayLike(schema) && Property(schema, "items").Obj?)
    requires issues == [] && places == []
    ensures CoversInside(p, schema, value, issues, places)
    ensures Sound(p, schema, value, field, issues, places)
  {
  }

  /**
   * validateNode: what it reports are exactly the violations, each at its place, whatever order the
   * properties are visited in.
   */
  method ValidateNode(p: Platform, schema: Schema, value: Value, field: string)
    returns (issues: seq<Issue>, ghost places: seq<seq<Hop>>)
    ensures Sound(p, schema, value, field, issues, places)
    ensures Complete(p, schema, value, issues, places)
    ensures issues == [] <==> Conforms(p, schema, value)
    decreases value, 2
  {
    hide *;
    var typed;
    typed, issues, places := CheckSelf(p, schema, value, field);
    if !typed {
      CompleteByHops(p, schema, value, issues, places);
      CleanIsConforming(p, schema, value, issues, places, field);
      return;
    }
    var more: seq<Issue>;
    ghost var at: seq<seq<Hop>>;
    if ObjectLike(schema) {
      more, at := CheckObject(p, schema, value, field);
    } else if ArrayLike(schema) && Property(schema, "items").Obj? {
      more, at := CheckItems(p, schema, value, field);
    } else {
      more, at := [], [];
      NothingInside(p, schema, value, field, more, at);
    }
    Joined(p, schema, value, field, issues, places, more, at);
    issues, places := issues + more, places + at;
    CleanIsConforming(p, schema, value, issues, places, field);
  }

  /** ValidateObject, which asks nothing of a payload when there is no schema. */
  method ValidateObject(p: Platform, schema: Schema, payload: map<string, Value>)
    returns (issues: seq<Issue>, ghost places: seq<seq<Hop>>)
    ensures issues == [] <==> Conforms(p, schema, Obj(payload))
    ensures Sound(p, schema, Obj(payload), "", issues, places)
    ensures Complete(p, schema, Obj(payload), issues, places)
  {
    hide *;
    if schema == map[] {
      issues, places := [], [];
      NoSchema(p, Obj(payload));
      NothingInside(p, schema, Obj(payload), "", issues, places);
      forall path, code ensures !Violates(p, schema, Obj(payload), path, code) {
        ConformingIsClean(p, schema, Obj(payload), path, code);
      }
      assert Complete(p, schema, Obj(payload), issues, places) by {
        EmptyIsComplete(p, schema, Obj(payload));
      }
      return;
    }
    issues, places := ValidateNode(p, schema, Obj(payload), "");
  }

  lemma NoSchema(p: Platform, value: Value)
    ensures Conforms(p, map[], value) && !ObjectLike(map[]) && !ArrayLike(map[])
  {
  }

  lemma EmptyIsComplete(p: Platform, schema: Schema, value: Value)
    requires forall path, code :: !Violates(p, schema, value, path, code)
    ensures Complete(p, schema, value, [], [])
  {
    hide Violates;
  }

  // ---- What each keyword asks ----

  /** The values each type name accepts; any other name accepts every value. */
  lemma TypeMeaning(p: Platform, name: string, value: Value)
    ensures Conforms(p, map["type" := Str(name)], value)
       <==> if name == "string" then value.Str?
            else if name == "number" then value.Int? || value.Float? || value.Single? || value.JsonNumber?
            else if name == "integer" then
              match value
              case Int(_) => true
              case Float(f) => p.toInt(f) as real == f
              case JsonNumber(digits) =>
                exists n :: Writes(digits, n) && -0x8000_0000_0000_0000 <= n <= 0x7FFF_FFFF_FFFF_FFFF
              case _ => false
            else if name == "boolean" then value.Bool?
            else if name == "object" then value.Obj?
            else if name == "array" then value.Arr?
            else true
  {
    hide TrimSpace, Atoi, Writes;
    if value.JsonNumber? {
      IntegerDigits(value.digits);
    }
  }

  lemma IntegerDigits(digits: string)
    ensures Atoi(digits).Some?
       <==> exists n :: Writes(digits, n) && -0x8000_0000_0000_0000 <= n <= 0x7FFF_FFFF_FFFF_FFFF
  {
    hide Atoi, Writes;
    if Atoi(digits).Some? {
      AtoiExactly(digits, Atoi(digits).value);
    }
    if n :| Writes(digits, n) && -0x8000_0000_0000_0000 <= n <= 0x7FFF_FFFF_FFFF_FFFF {
      AtoiExactly(digits, n);
    }
  }

  /** The items of an array each conform to `items`; without a type a value that is no array conforms too. */
  lemma ItemsMeaning(p: Platform, items: Schema, value: Value)
    ensures Conforms(p, map["type" := Str("array"), "items" := Obj(items)], value)
       <==> value.Arr? && forall i | 0 <= i < |value.items| :: Conforms(p, items, value.items[i])
    ensures Conforms(p, map["items" := Obj(items)], value)
       <==> (value.Arr? ==> forall i | 0 <= i < |value.items| :: Conforms(p, items, value.items[i]))
  {
    assert MatchesType(p, value, "array") <==> value.Arr?;
    hide TrimSpace, MatchesType;
    var typed: Schema := map["type" := Str("array"), "items" := Obj(items)];
    var bare: Schema := map["items" := Obj(items)];
    assert !ObjectLike(typed) && ArrayLike(typed) && !ObjectLike(bare) && ArrayLike(bare);
    assert Property(typed, "items") == Property(bare, "items") == Obj(items);
  }

  function Texts(keys: seq<string>): (r: seq<Value>)
    ensures |r| == |keys| && forall i :: 0 <= i < |r| ==> r[i] == Str(keys[i])
  {
    seq(|keys|, i requires 0 <= i < |keys| => Str(keys[i]))
  }

  /** What `required` and `properties` ask of the fields of an object. */
  predicate FieldsConform(p: Platform, required: seq<string>, properties: map<string, Value>,
                          fields: map<string, Value>) {
    && (forall key <- required :: TrimSpace(key) != "" ==> key in fields)
    && (forall key <- properties :: properties[key].Obj? && key in fields ==>
          Conforms(p, properties[key].fields, fields[key]))
  }

  /**
   * An object has the required keys that are not blank, and each of its fields conforms to the property
   * of that name, if there is one that is a schema. Without a type any other value counts as an object
   * without fields.
   */
  lemma ObjectMeaning(p: Platform, required: seq<string>, properties: map<string, Value>, value: Value)
    ensures var rest: Schema := map["required" := Arr(Texts(required)), "properties" := Obj(properties)];
      && (Conforms(p, rest["type" := Str("object")], value)
          <==> value.Obj? && FieldsConform(p, required, properties, value.fields))
      && (Conforms(p, rest, value)
          <==> FieldsConform(p, required, properties, if value.Obj? then value.fields else map[]))
  {
    assert MatchesType(p, value, "object") <==> value.Obj?;
    hide TrimSpace, MatchesType, FieldsConform, Conforms;
    var rest: Schema := map["required" := Arr(Texts(required)), "properties" := Obj(properties)];
    FieldsMeaning(p, rest, required, properties, value);
    FieldsMeaning(p, rest["type" := Str("object")], required, properties, value);
  }

  /** An object schema with these keywords and no constant. */
  lemma FieldsMeaning(p: Platform, schema: Schema, required: seq<string>, properties: map<string, Value>, value: Value)
    requires ObjectLike(schema) && "const" !in schema
    requires RequiredList(schema) == Texts(required) && Properties(schema) == properties
    ensures Conforms(p, schema, value)
       <==> TypeOk(p, schema, value) && FieldsConform(p, required, properties, Fields(value))
  {
    hide TrimSpace, TypeOk, RequiredList, Properties, Property, Requires;
    RequiredMeaning(schema, required);
    forall key | key in required ensures KeyOf(Str(key)) == key {
    }
  }

  lemma RequiredMeaning(schema: Schema, required: seq<string>)
    requires RequiredList(schema) == Texts(required)
    ensures forall key :: Requires(schema, key) <==> TrimSpace(key) != "" && key in required
    ensures forall raw <- RequiredList(schema) :: KeyOf(raw) in required
    ensures forall key <- required :: Str(key) in RequiredList(schema)
  {
    hide TrimSpace, RequiredList;
    forall key | key in required ensures Str(key) in Texts(required) {
      var i :| 0 <= i < |required| && required[i] == key;
      assert Texts(required)[i] == Str(key);
    }
    forall key | key in required ensures exists raw <- Texts(required) :: KeyOf(raw) == key {
      assert KeyOf(Str(key)) == key;
    }
  }

  // ---- Where the code leaves JSON Schema ----

  function IntText(n: int): string {
    if n < 0 then "-" + Dec(-n) else Dec(n)
  }

  /** fmt.Sprint on texts and integers. */
  ghost predicate PrintsAsFmt(p: Platform) {
    && (forall text: string :: p.sprint(Str(text)) == text)
    && (forall n: int :: p.sprint(Int(n)) == IntText(n))
  }

  lemma DecStarts(n: nat)
    ensures IsDigit(Dec(n)[0]) && DigitsValue(Dec(n)) == n
  {
    DecRoundTrip(n);
    assert Dec(n)[0] in Dec(n);
  }

  /** Two integers that print alike are the same. */
  lemma IntTextInjective(n: int, m: int)
    requires IntText(n) == IntText(m)
    ensures n == m
  {
    DecStarts(if n < 0 then -n else n);
    DecStarts(if m < 0 then -m else m);
    hide Dec, DigitsValue;
    assert n < 0 <==> IntText(n)[0] == '-';
    assert m < 0 <==> IntText(m)[0] == '-';
    if n < 0 {
      assert IntText(n)[1..] == Dec(-n) && IntText(m)[1..] == Dec(-m);
    }
  }

  /**
   * A constant does not tell a number left as its digits from the text of the same digits. An integer
   * constant accepts, of the integers, itself only; and of texts and numbers left as digits only those
   * spelled as it prints, whatever else denotes the same number.
   */
  lemma ConstMeaning(p: Platform, d: string, n: int, m: int)
    ensures Conforms(p, map["const" := Str(d)], JsonNumber(d)) && Conforms(p, map["const" := JsonNumber(d)], Str(d))
    ensures PrintsAsFmt(p) ==>
      && (Conforms(p, map["const" := Int(n)], Int(m)) <==> m == n)
      && (Conforms(p, map["const" := Int(n)], JsonNumber(d)) <==> d == IntText(n))
      && (Conforms(p, map["const" := Int(n)], Str(d)) <==> d == IntText(n))
  {
    hide TrimSpace, MatchesType, IntText;
    if IntText(n) == IntText(m) {
      IntTextInjective(n, m);
    }
  }

  /** An untyped schema with `required` refuses every value that is no object, unless the key is blank. */
  lemma UntypedRequiredWantsObject(p: Platform, key: string, value: Value)
    ensures Conforms(p, map["required" := Arr([Str(key)])], value)
        <==> TrimSpace(key) == "" || (value.Obj? && key in value.fields)
  {
    hide TrimSpace, MatchesType;
    var schema: Schema := map["required" := Arr([Str(key)])];
    assert RequiredList(schema) == [Str(key)];
    assert ObjectLike(schema) && Properties(schema) == map[];
    assert Requires(schema, key) <==> TrimSpace(key) != "" by {
      assert KeyOf(RequiredList(schema)[0]) == key;
    }
  }

  // ---- What a report tells its reader ----

  /** The sub-value a path leads to, whatever the schema says. */
  function Follow(value: Value, path: seq<Hop>): Option<Value>
    decreases |path|
  {
    if path == [] then Some(value)
    else
      match path[0]
      case Key(key) => if key in Fields(value) then Follow(Fields(value)[key], path[1..]) else None
      case Index(i) => if i < |Items(value)| then Follow(Items(value)[i], path[1..]) else None
  }

  /** The schema that governs it. */
  function SchemaAt(schema: Schema, path: seq<Hop>): Option<Schema>
    decreases |path|
  {
    if path == [] then Some(schema)
    else
      match path[0]
      case Key(key) =>
        if key in Properties(schema) && Properties(schema)[key].Obj?
        then SchemaAt(Properties(schema)[key].fields, path[1..]) else None
      case Index(_) =>
        if Property(schema, "items").Obj? then SchemaAt(Property(schema, "items").fields, path[1..]) else None
  }

  /** What `code` says of the sub-value at `path`, or of the key missing at its end. */
  predicate Offends(p: Platform, schema: Schema, value: Value, path: seq<Hop>, code: Code) {
    match code
    case Required =>
      && path != [] && path[|path| - 1].Key?
      && var (sub, at) := (SchemaAt(schema, path[..|path| - 1]), Follow(value, path[..|path| - 1]));
         sub.Some? && at.Some? && Requires(sub.value, path[|path| - 1].key) && path[|path| - 1].key !in Fields(at.value)
    case InvalidType(expected) =>
      var (sub, at) := (SchemaAt(schema, path), Follow(value, path));
      sub.Some? && at.Some? && ExpectedType(sub.value) == expected && !MatchesType(p, at.value, expected)
    case InvalidConst =>
      var (sub, at) := (SchemaAt(schema, path), Follow(value, path));
      && sub.Some? && at.Some? && "const" in sub.value
      && !ValuesEqual(p, at.value, sub.value["const"])
  }

  /** The path of every issue leads to the sub-value that offends, or to where the key is missing. */
  lemma {:induction false} PathLeadsToOffender(p: Platform, schema: Schema, value: Value, path: seq<Hop>, code: Code)
    requires Violates(p, schema, value, path, code)
    ensures Offends(p, schema, value, path, code)
    decreases |path|
  {
    hide MatchesType, ValuesEqual, ExpectedType, Property, TrimSpace, Requires;
    if path != [] {
      var under := Under(schema, value, path[0]);
      if ViolatesUnder(p, under, path[1..], code) {
        PathLeadsToOffender(p, under.value.0, under.value.1, path[1..], code);
        OffendsBelow(p, schema, value, path, code);
      }
    }
  }

  lemma OffendsBelow(p: Platform, schema: Schema, value: Value, path: seq<Hop>, code: Code)
    requires path != [] && Under(schema, value, path[0]).Some?
    requires var under := Under(schema, value, path[0]).value; Offends(p, under.0, under.1, path[1..], code)
    ensures Offends(p, schema, value, path, code)
  {
    hide MatchesType, ValuesEqual, ExpectedType, Property, TrimSpace, Requires, ObjectLike, ArrayLike;
    if code == Required {
      assert path[1..][..|path| - 2] == path[..|path| - 1][1..];
    }
  }

  ghost predicate EndsInIndex(key: string) {
    exists head, i :: key == Indexed(head, i)
  }

  /** A key that cannot be mistaken for more than one hop. */
  ghost predicate CleanKey(key: string) {
    key != "" && '.' !in key && !EndsInIndex(key)
  }

  ghost predicate CleanPath(path: seq<Hop>) {
    forall hop <- path :: hop.Key? ==> CleanKey(hop.key)
  }

  lemma {:induction false} RenderLast(prefix: string, path: seq<Hop>, hop: Hop)
    ensures Render(prefix, path + [hop]) == JoinHop(Render(prefix, path), hop)
    decreases |path|
  {
    if path != [] {
      RenderLast(JoinHop(prefix, path[0]), path[1..], hop);
      assert (path + [hop])[1..] == path[1..] + [hop];
    }
  }

  lemma LastMark(s: string, mark: char, k: string)
    requires mark !in k
    ensures var whole := s + [mark] + k;
      whole[|s|] == mark && forall i | |s| < i < |whole| :: whole[i] != mark
  {
  }

  /** Two texts split at a mark that occurs in neither tail are split at the same place. */
  lemma SameSplit(s: string, k: string, t: string, l: string, mark: char)
    requires s + [mark] + k == t + [mark] + l && mark !in k && mark !in l
    ensures s == t && k == l
  {
    LastMark(s, mark, k);
    LastMark(t, mark, l);
    assert |s| == |t|;
    var whole, other := s + [mark] + k, t + [mark] + l;
    assert whole[..|s|] == s && other[..|t|] == t;
    assert whole[|s| + 1..] == k && other[|t| + 1..] == l;
  }

  lemma JoinKeyInjective(s: string, k: string, t: string, l: string)
    requires CleanKey(k) && CleanKey(l) && JoinField(s, k) == JoinField(t, l)
    ensures s == t && k == l
  {
    LastMark(s, '.', k);
    LastMark(t, '.', l);
    if s != "" && t != "" {
      SameSplit(s, k, t, l, '.');
    }
  }

  lemma IndexTail(t: string, i: nat)
    ensures var whole := Indexed(t, i);
      |whole| > |t| + 1 && whole[|t|] == '[' && forall j | |t| < j < |whole| :: whole[j] != '.' && whole[j] != '['
  {
    var whole, digits := Indexed(t, i), Dec(i);
    forall j | |t| < j < |whole| ensures whole[j] != '.' && whole[j] != '[' {
      if j < |whole| - 1 {
        assert whole[j] == digits[j - |t| - 1] && digits[j - |t| - 1] in digits;
      }
    }
  }

  /** A key without a dot that ends a place like an index ends like one itself. */
  lemma KeyLikeIndex(s: string, k: string, t: string, i: nat)
    requires k != "" && '.' !in k && JoinField(s, k) == Indexed(t, i)
    ensures EndsInIndex(k)
  {
    IndexTail(t, i);
    if s == "" {
      assert k == Indexed(t, i);
    } else {
      var whole := Indexed(t, i);
      assert whole[|s|] == '.' && |s| < |t|;
      assert whole[|s| + 1..] == k;
      assert k == Indexed(t[|s| + 1..], i);
    }
  }

  lemma JoinHopInjective(s: string, h: Hop, t: string, g: Hop)
    requires (h.Key? ==> CleanKey(h.key)) && (g.Key? ==> CleanKey(g.key))
    requires JoinHop(s, h) == JoinHop(t, g)
    ensures s == t && h == g
  {
    match (h, g)
    case (Key(k), Key(l)) => JoinKeyInjective(s, k, t, l);
    case (Index(i), Index(j)) =>
      DecRoundTrip(i);
      DecRoundTrip(j);
      var whole := Indexed(s, i);
      assert whole[..|whole| - 1] == s + ['['] + Dec(i);
      assert whole[..|whole| - 1] == t + ['['] + Dec(j);
      SameSplit(s, Dec(i), t, Dec(j), '[');
    case (Key(k), Index(j)) => KeyLikeIndex(s, k, t, j);
    case (Index(i), Key(l)) => KeyLikeIndex(t, l, s, i);
  }

  lemma NotNothing(s: string, h: Hop)
    requires h.Key? ==> h.key != ""
    ensures JoinHop(s, h) != ""
  {
  }

  predicate NoEmptyKey(path: seq<Hop>) {
    forall hop <- path :: hop.Key? ==> hop.key != ""
  }

  /** A place with at least one hop, split before its last. */
  lemma RenderSplit(path: seq<Hop>)
    requires path != [] && NoEmptyKey(path)
    ensures Render("", path) == JoinHop(Render("", path[..|path| - 1]), path[|path| - 1]) != ""
  {
    hide Render, JoinHop;
    assert path[..|path| - 1] + [path[|path| - 1]] == path;
    RenderLast("", path[..|path| - 1], path[|path| - 1]);
    NotNothing(Render("", path[..|path| - 1]), path[|path| - 1]);
  }

  lemma CleanParts(init: seq<Hop>, last: Hop)
    requires CleanPath(init + [last])
    ensures CleanPath(init) && (last.Key? ==> CleanKey(last.key))
  {
    hide CleanKey;
    forall hop | hop in init ensures hop in init + [last] {
    }
    assert last in init + [last];
  }

  lemma CleanSplit(path: seq<Hop>, init: seq<Hop>, last: Hop)
    requires CleanPath(path) && path == init + [last]
    ensures CleanPath(init) && (last.Key? ==> CleanKey(last.key))
    ensures Render("", path) == JoinHop(Render("", init), last) != ""
  {
    hide *;
    CleanHasNoEmptyKey(path);
    CleanParts(init, last);
    RenderSplit(path);
    assert path[..|path| - 1] == init;
  }

  lemma CleanHasNoEmptyKey(path: seq<Hop>)
    requires CleanPath(path)
    ensures NoEmptyKey(path)
  {
    hide EndsInIndex;
  }

  /** With keys that are not empty, hold no dot and do not end in an index, the text of a field names one place only. */
  lemma {:induction false} FieldNamesOnePlace(a: seq<Hop>, b: seq<Hop>)
    requires CleanPath(a) && CleanPath(b) && Render("", a) == Render("", b)
    ensures a == b
    decreases |a|
  {
    hide *;
    if a == [] || b == [] {
      OnlyRoot(a, b);
    } else {
      var (s, h) := (a[..|a| - 1], a[|a| - 1]);
      var (t, g) := (b[..|b| - 1], b[|b| - 1]);
      assert a == s + [h] && b == t + [g];
      CleanSplit(a, s, h);
      CleanSplit(b, t, g);
      JoinHopInjective(Render("", s), h, Render("", t), g);
      FieldNamesOnePlace(s, t);
    }
  }

  /** Of the clean paths only the empty one reads like nothing. */
  lemma OnlyRoot(a: seq<Hop>, b: seq<Hop>)
    requires CleanPath(a) && CleanPath(b) && Render("", a) == Render("", b) && (a == [] || b == [])
    ensures a == b
  {
    assert Render("", []) == "";
    hide *;
    var path := if a == [] then b else a;
    if path != [] {
      assert path == path[..|path| - 1] + [path[|path| - 1]];
      CleanSplit(path, path[..|path| - 1], path[|path| - 1]);
    }
  }

  /**
   * With others it need not: a dotted key reads like two keys, an empty one like none, and an indexed
   * one like an index.
   */
  lemma FieldsCanCollide(a: string, b: string, i: nat)
    requires a != "" && b != ""
    ensures Render("", [Key(a + "." + b)]) == Render("", [Key(a), Key(b)])
    ensures Render("", [Key("")]) == Render("", [])
    ensures Render("", [Key(a), Key("")]) == Render("", [Key(a)])
    ensures Render("", [Key(Indexed(a, i))]) == Render("", [Key(a), Index(i)])
  {
    RenderLast("", [Key(a)], Key(b));
    RenderLast("", [Key(a)], Key(""));
    RenderLast("", [Key(a)], Index(i));
    assert [Key(a)] + [Key(b)] == [Key(a), Key(b)];
    assert [Key(a)] + [Key("")] == [Key(a), Key("")];
    assert [Key(a)] + [Index(i)] == [Key(a), Index(i)];
  }

  ghost predicate Dotted(key: string) {
    exists a, b :: a != "" && b != "" && key == a + "." + b
  }

  /** Another path, without empty keys, that reads like the one key. */
  ghost predicate ReadsElse(key: string, path: seq<Hop>) {
    NoEmptyKey(path) && path != [Key(key)] && Render("", path) == Render("", [Key(key)])
  }

  /** A key of the root reads like another path exactly when it has a dot inside or ends in an index. */
  lemma KeyReadsElseExactly(key: string)
    requires key != ""
    ensures (exists path :: ReadsElse(key, path)) <==> Dotted(key) || EndsInIndex(key)
  {
    assert Render("", [Key(key)]) == key by { RootKey(key); }
    if Dotted(key) {
      var a, b :| a != "" && b != "" && key == a + "." + b;
      FieldsCanCollide(a, b, 0);
      assert ReadsElse(key, [Key(a), Key(b)]);
    }
    if EndsInIndex(key) {
      var head, i :| key == Indexed(head, i);
      if head == "" {
        RenderLast("", [], Index(i));
        assert [] + [Index(i)] == [Index(i)];
        assert ReadsElse(key, [Index(i)]);
      } else {
        FieldsCanCollide(head, head, i);
        assert ReadsElse(key, [Key(head), Index(i)]);
      }
    }
    if path :| ReadsElse(key, path) {
      ElseIsDottedOrIndexed(key, path);
    }
  }

  lemma RootKey(key: string)
    ensures Render("", [Key(key)]) == key
  {
    RenderLast("", [], Key(key));
    assert [] + [Key(key)] == [Key(key)];
  }

  lemma ElseIsDottedOrIndexed(key: string, path: seq<Hop>)
    requires key != "" && ReadsElse(key, path)
    ensures Dotted(key) || EndsInIndex(key)
  {
    RootKey(key);
    assert Render("", []) == "";
    RenderSplit(path);
    var init, last := path[..|path| - 1], path[|path| - 1];
    if init != [] {
      RenderSplit(init);
    } else {
      assert path == [last];
    }
    hide Render;
    match last
    case Key(b) => assert last in path && b != "";
    case Index(i) => assert key == Indexed(Render("", init), i);
  }
}
