// Coercing tool arguments to a JSON schema (grain-agent-core/src/validation.rs): the recursive
// coercion, the procedure that updates a value step by step, and when a second round would
// change nothing, with and without unions.
module SchemaCoercion {
  import opened Messages

  // serde_json keeps integers and floats apart, and tells 2 from 2.0 when it compares.
  datatype Num = Int(i: int) | Float(r: real)

  datatype Json =
    | Null
    | Bool(b: bool)
    | Number(n: Num)
    | Str(s: string)
    | Array(items: seq<Json>)
    | Object(fields: map<string, Json>)

  // The keywords coercion reads; an absent list or map is an empty one.
  datatype Items = NoItems | Each(item: Schema) | Tuple(list: seq<Schema>)

  datatype Schema = Schema(
    types: seq<string>,
    allOf: seq<Schema>,
    anyOf: seq<Schema>,
    oneOf: seq<Schema>,
    properties: map<string, Schema>,
    additional: Option<Schema>,
    items: Items)

  // Parsing a trimmed string as a finite number, printing a number, and validating a value
  // against a schema that compiles.
  datatype Host = Host(parse: string -> Option<real>, show: Num -> string, valid: (Schema, Json) -> bool)

  function AsReal(n: Num): real { if n.Int? then n.i as real else n.r }

  function IsWhole(r: real): bool { r == r.Floor as real }

  const MaxI64: int := 0x7fff_ffff_ffff_ffff

  // A float cast to i64 saturates.
  function AsI64(r: real): int {
    var n := r.Floor;
    if n > MaxI64 then MaxI64 else if n < -MaxI64 - 1 then -MaxI64 - 1 else n
  }

  function ToNumber(r: real): Num {
    if IsWhole(r) && -(MaxI64 as real + 1.0) <= r <= MaxI64 as real + 1.0 then Int(AsI64(r)) else Float(r)
  }

  predicate Matches(v: Json, ty: string) {
    if ty == "number" then v.Number?
    else if ty == "integer" then v.Number? && IsWhole(AsReal(v.n))
    else if ty == "boolean" then v.Bool?
    else if ty == "string" then v.Str?
    else if ty == "null" then v.Null?
    else if ty == "array" then v.Array?
    else if ty == "object" then v.Object?
    else false
  }

  function ToNumeric(host: Host, v: Json, integer: bool): Json {
    match v
    case Null => Number(Int(0))
    case Bool(b) => Number(Int(if b then 1 else 0))
    case Str(s) =>
      var parsed := host.parse(s);
      if parsed.None? || (integer && !IsWhole(parsed.value)) then v
      else Number(if integer then Int(AsI64(parsed.value)) else ToNumber(parsed.value))
    case _ => v
  }

  function ToBool(v: Json): Json {
    match v
    case Null => Bool(false)
    case Str(s) => if s == "true" then Bool(true) else if s == "false" then Bool(false) else v
    case Number(n) => if AsReal(n) == 1.0 then Bool(true) else if AsReal(n) == 0.0 then Bool(false) else v
    case _ => v
  }

  function ToStr(host: Host, v: Json): Json {
    match v
    case Null => Str("")
    case Number(n) => Str(host.show(n))
    case Bool(b) => Str(if b then "true" else "false")
    case _ => v
  }

  function ToNull(v: Json): Json {
    if v == Str("") || v == Bool(false) || (v.Number? && AsReal(v.n) == 0.0) then Null else v
  }

  function Primitive(host: Host, v: Json, ty: string): Json {
    if ty == "number" then ToNumeric(host, v, false)
    else if ty == "integer" then ToNumeric(host, v, true)
    else if ty == "boolean" then ToBool(v)
    else if ty == "string" then ToStr(host, v)
    else if ty == "null" then ToNull(v)
    else v
  }

  // A coercion that changes a value gives one of the type asked for, and a value of that
  // type is left alone.
  lemma PrimitiveYieldsType(host: Host, v: Json, ty: string)
    ensures Primitive(host, v, ty) != v ==> Matches(Primitive(host, v, ty), ty) && !Matches(v, ty)
    ensures v.Array? || v.Object? ==> Primitive(host, v, ty) == v
    ensures Primitive(host, v, ty).Array? || Primitive(host, v, ty).Object? ==> Primitive(host, v, ty) == v
  {
  }

  // --- Types, objects and arrays ---

  // The first listed type that changes the value decides; with several types, none does
  // when the value already has one of them.
  function ByTypes(host: Host, v: Json, types: seq<string>): Json {
    if |types| > 1 && (exists i :: 0 <= i < |types| && Matches(v, types[i])) then v
    else FirstChange(host, v, types, 0)
  }

  function FirstChange(host: Host, v: Json, types: seq<string>, k: nat): Json
    requires k <= |types|
    decreases |types| - k
  {
    if k == |types| then v
    else
      var candidate := Primitive(host, v, types[k]);
      if candidate != v then candidate else FirstChange(host, v, types, k + 1)
  }

  function Coerce(host: Host, v: Json, schema: Schema): Json
    decreases schema, 2, 0
  {
    var v1 := AllOf(host, v, schema, |schema.allOf|);
    var v2 := Union(host, v1, schema, schema.anyOf, 0);
    var v3 := Union(host, v2, schema, schema.oneOf, 0);
    Children(host, ByTypes(host, v3, schema.types), schema)
  }

  function AllOf(host: Host, v: Json, schema: Schema, n: nat): Json
    requires n <= |schema.allOf|
    decreases schema, 1, n
  {
    if n == 0 then v else Coerce(host, AllOf(host, v, schema, n - 1), schema.allOf[n - 1])
  }

  // The first member whose coercion validates against it.
  function Union(host: Host, v: Json, schema: Schema, members: seq<Schema>, k: nat): Json
    requires k <= |members| && (members == schema.anyOf || members == schema.oneOf)
    decreases schema, 1, |members| - k
  {
    if k == |members| then v
    else
      var candidate := Coerce(host, v, members[k]);
      if host.valid(members[k], candidate) then candidate else Union(host, v, schema, members, k + 1)
  }

  function Children(host: Host, v: Json, schema: Schema): Json
    decreases schema, 1, 0
  {
    if v.Object? && "object" in schema.types then
      Object(map k | k in v.fields :: Field(host, k, v.fields[k], schema))
    else if v.Array? && "array" in schema.types then
      Array(seq(|v.items|, i requires 0 <= i < |v.items| => Item(host, i, v.items[i], schema)))
    else v
  }

  function Field(host: Host, key: string, v: Json, schema: Schema): Json
    decreases schema, 0, 0
  {
    if key in schema.properties then Coerce(host, v, schema.properties[key])
    else if schema.additional.Some? then Coerce(host, v, schema.additional.value)
    else v
  }

  function Item(host: Host, i: nat, v: Json, schema: Schema): Json
    decreases schema, 0, 0
  {
    match schema.items
    case NoItems => v
    case Each(s) => Coerce(host, v, s)
    case Tuple(list) => if i < |list| then Coerce(host, v, list[i]) else v
  }

  // --- The procedure: one value updated step by step ---

  method CoerceWithJsonSchema(host: Host, value: Json, schema: Schema) returns (next: Json)
    ensures next == Coerce(host, value, schema)
    decreases schema, 2, 0
  {
    next := value;
    for i := 0 to |schema.allOf|
      invariant next == AllOf(host, value, schema, i)
    {
      next := CoerceWithJsonSchema(host, next, schema.allOf[i]);
    }
    next := CoerceWithUnionSchema(host, next, schema, schema.anyOf);
    next := CoerceWithUnionSchema(host, next, schema, schema.oneOf);
    next := CoerceByTypes(host, next, schema.types);
    if next.Object? && "object" in schema.types {
      var fields := ApplyObjectCoercion(host, next.fields, schema);
      next := Object(fields);
    } else if next.Array? && "array" in schema.types {
      var items := ApplyArrayCoercion(host, next.items, schema);
      next := Array(items);
    }
  }

  method CoerceByTypes(host: Host, value: Json, types: seq<string>) returns (next: Json)
    ensures next == ByTypes(host, value, types)
  {
    next := value;
    if |types| > 1 && exists i :: 0 <= i < |types| && Matches(value, types[i]) {
      return;
    }
    for k := 0 to |types|
      invariant next == value && FirstChange(host, value, types, 0) == FirstChange(host, value, types, k)
    {
      var candidate := Primitive(host, next, types[k]);
      if candidate != next {
        return candidate;
      }
    }
  }

  method CoerceWithUnionSchema(host: Host, value: Json, schema: Schema, members: seq<Schema>) returns (next: Json)
    requires members == schema.anyOf || members == schema.oneOf
    ensures next == Union(host, value, schema, members, 0)
    decreases schema, 1, 0
  {
    for k := 0 to |members|
      invariant Union(host, value, schema, members, 0) == Union(host, value, schema, members, k)
    {
      var candidate := CoerceWithJsonSchema(host, value, members[k]);
      if host.valid(members[k], candidate) {
        return candidate;
      }
    }
    return value;
  }

  // Declared properties first, then every other field under `additionalProperties`.
  method ApplyObjectCoercion(host: Host, value: map<string, Json>, schema: Schema) returns (fields: map<string, Json>)
    ensures fields == map k | k in value :: Field(host, k, value[k], schema)
    decreases schema, 1, 1
  {
    var declared := value.Keys * schema.properties.Keys;
    fields := CoerceKeys(host, value, schema, declared);
    if schema.additional.Some? {
      fields := CoerceKeys(host, fields, schema, value.Keys - declared);
    }
  }

  ghost predicate CoercedAt(host: Host, value: map<string, Json>, fields: map<string, Json>, schema: Schema, keys: set<string>) {
    && fields.Keys == value.Keys
    && forall k :: k in value ==> fields[k] == if k in keys then Field(host, k, value[k], schema) else value[k]
  }

  method CoerceKeys(host: Host, value: map<string, Json>, schema: Schema, keys: set<string>) returns (fields: map<string, Json>)
    requires keys <= value.Keys && (keys <= schema.properties.Keys || schema.additional.Some?)
    ensures CoercedAt(host, value, fields, schema, keys)
    decreases schema, 1, 0
  {
    fields := value;
    var left := keys;
    while left != {}
      invariant left <= keys && CoercedAt(host, value, fields, schema, keys - left)
      decreases |left|
    {
      var key :| key in left;
      var coerced;
      if key in schema.properties {
        coerced := CoerceWithJsonSchema(host, fields[key], schema.properties[key]);
      } else {
        coerced := CoerceWithJsonSchema(host, fields[key], schema.additional.value);
      }
      fields := fields[key := coerced];
      left := left - {key};
    }
  }

  method ApplyArrayCoercion(host: Host, value: seq<Json>, schema: Schema) returns (items: seq<Json>)
    ensures |items| == |value| && forall i :: 0 <= i < |value| ==> items[i] == Item(host, i, value[i], schema)
    decreases schema, 1, 0
  {
    items := value;
    for i := 0 to |value|
      invariant |items| == |value|
      invariant forall j :: 0 <= j < |value| ==> items[j] == if j < i then Item(host, j, value[j], schema) else value[j]
    {
      match schema.items {
        case NoItems =>
        case Each(s) =>
          var coerced := CoerceWithJsonSchema(host, items[i], s);
          items := items[i := coerced];
        case Tuple(list) =>
          if i < |list| {
            var coerced := CoerceWithJsonSchema(host, items[i], list[i]);
            items := items[i := coerced];
          }
      }
    }
  }

  // --- Coercing twice ---

  // No union and no conjunction anywhere in the schema.
  ghost predicate Plain(schema: Schema) {
    && schema.allOf == [] && schema.anyOf == [] && schema.oneOf == []
    && (forall k :: k in schema.properties ==> Plain(schema.properties[k]))
    && (schema.additional.Some? ==> Plain(schema.additional.value))
    && match schema.items
       case NoItems => true
       case Each(s) => Plain(s)
       case Tuple(list) => forall i :: 0 <= i < |list| ==> Plain(list[i])
  }

  lemma {:induction false} FirstChangeIs(host: Host, v: Json, types: seq<string>, k: nat)
    requires k <= |types|
    ensures var r := FirstChange(host, v, types, k);
      if r == v then forall i :: k <= i < |types| ==> Primitive(host, v, types[i]) == v
      else exists i :: k <= i < |types| && Primitive(host, v, types[i]) == r && Matches(r, types[i])
    decreases |types| - k
  {
    if k < |types| {
      PrimitiveYieldsType(host, v, types[k]);
      FirstChangeIs(host, v, types, k + 1);
    }
  }

  lemma {:induction false} NoneChanges(host: Host, v: Json, types: seq<string>, k: nat)
    requires k <= |types| && forall i :: k <= i < |types| ==> Primitive(host, v, types[i]) == v
    ensures FirstChange(host, v, types, k) == v
    decreases |types| - k
  {
    if k < |types| {
      NoneChanges(host, v, types, k + 1);
    }
  }

  lemma ByTypesTwice(host: Host, v: Json, types: seq<string>)
    ensures ByTypes(host, ByTypes(host, v, types), types) == ByTypes(host, v, types)
  {
    var w := ByTypes(host, v, types);
    FirstChangeIs(host, v, types, 0);
    if w != v {
      var i :| 0 <= i < |types| && Primitive(host, v, types[i]) == w && Matches(w, types[i]);
      if |types| == 1 {
        PrimitiveYieldsType(host, w, types[0]);
        NoneChanges(host, w, types, 0);
      }
    }
  }

  // Objects and arrays pass the types unchanged, and nothing becomes one.
  lemma ByTypesKeepsStructure(host: Host, v: Json, types: seq<string>)
    ensures v.Object? || v.Array? ==> ByTypes(host, v, types) == v
  {
    if v.Object? || v.Array? {
      NoneChanges(host, v, types, 0);
    }
  }

  lemma PlainIsTypesThenChildren(host: Host, v: Json, schema: Schema)
    requires Plain(schema)
    ensures Coerce(host, v, schema) == Children(host, ByTypes(host, v, schema.types), schema)
  {
    assert AllOf(host, v, schema, 0) == v;
    assert Union(host, v, schema, schema.anyOf, 0) == v;
  }

  lemma {:induction false} CoerceTwice(host: Host, v: Json, schema: Schema)
    requires Plain(schema)
    ensures Coerce(host, Coerce(host, v, schema), schema) == Coerce(host, v, schema)
    decreases schema, 2
  {
    var w := ByTypes(host, v, schema.types);
    var r := Children(host, w, schema);
    PlainIsTypesThenChildren(host, v, schema);
    PlainIsTypesThenChildren(host, r, schema);
    ByTypesTwice(host, v, schema.types);
    ByTypesKeepsStructure(host, r, schema.types);
    ChildrenTwice(host, w, schema);
  }

  lemma {:induction false} ChildrenTwice(host: Host, v: Json, schema: Schema)
    requires Plain(schema)
    ensures Children(host, Children(host, v, schema), schema) == Children(host, v, schema)
    decreases schema, 1, 0
  {
    var r := Children(host, v, schema);
    if v.Object? && "object" in schema.types {
      forall k | k in v.fields
        ensures Field(host, k, r.fields[k], schema) == r.fields[k]
      {
        FieldTwice(host, k, v.fields[k], schema);
      }
      assert Children(host, r, schema).fields == r.fields;
    } else if v.Array? && "array" in schema.types {
      forall i | 0 <= i < |v.items|
        ensures Item(host, i, r.items[i], schema) == r.items[i]
      {
        ItemTwice(host, i, v.items[i], schema);
      }
      assert Children(host, r, schema).items == r.items;
    }
  }

  lemma {:induction false} FieldTwice(host: Host, key: string, v: Json, schema: Schema)
    requires Plain(schema)
    ensures Field(host, key, Field(host, key, v, schema), schema) == Field(host, key, v, schema)
    decreases schema, 0
  {
    if key in schema.properties {
      CoerceTwice(host, v, schema.properties[key]);
    } else if schema.additional.Some? {
      CoerceTwice(host, v, schema.additional.value);
    }
  }

  lemma {:induction false} ItemTwice(host: Host, i: nat, v: Json, schema: Schema)
    requires Plain(schema)
    ensures Item(host, i, Item(host, i, v, schema), schema) == Item(host, i, v, schema)
    decreases schema, 0
  {
    match schema.items
    case NoItems =>
    case Each(s) => CoerceTwice(host, v, s);
    case Tuple(list) =>
      if i < |list| {
        CoerceTwice(host, v, list[i]);
      }
  }

  // --- Unions ---

  // A member accepts a value when its coercion of the value validates against it.
  predicate Accepts(host: Host, v: Json, member: Schema) {
    host.valid(member, Coerce(host, v, member))
  }

  function FirstAccepting(host: Host, v: Json, members: seq<Schema>, k: nat): (m: nat)
    requires k <= |members|
    ensures k <= m <= |members| && (m < |members| ==> Accepts(host, v, members[m]))
    ensures forall j :: k <= j < m ==> !Accepts(host, v, members[j])
    decreases |members| - k
  {
    if k == |members| || Accepts(host, v, members[k]) then k else FirstAccepting(host, v, members, k + 1)
  }

  lemma {:induction false} UnionIs(host: Host, v: Json, schema: Schema, k: nat)
    requires k <= |schema.anyOf|
    ensures
      var m := FirstAccepting(host, v, schema.anyOf, k);
      Union(host, v, schema, schema.anyOf, k) == if m < |schema.anyOf| then Coerce(host, v, schema.anyOf[m]) else v
    decreases |schema.anyOf| - k
  {
    if k < |schema.anyOf| && !Accepts(host, v, schema.anyOf[k]) {
      UnionIs(host, v, schema, k + 1);
    }
  }

  // Nothing but a union, of members that each settle in one round.
  ghost predicate PlainUnion(schema: Schema) {
    && schema.types == [] && schema.allOf == [] && schema.oneOf == []
    && forall i :: 0 <= i < |schema.anyOf| ==> Plain(schema.anyOf[i])
  }

  // Member j is the first to accept the value, and would change it.
  ghost predicate TakesOver(host: Host, v: Json, members: seq<Schema>, j: nat)
    requires j < |members|
  {
    Accepts(host, v, members[j]) && Coerce(host, v, members[j]) != v && forall i :: 0 <= i < j ==> !Accepts(host, v, members[i])
  }

  // Under a union one round is enough exactly when the coerced value is not taken over by a
  // member before the one that gave it: one that did not accept the value as it came, but
  // accepts the coerced one and changes it again.
  lemma UnionSettlesIff(host: Host, v: Json, schema: Schema)
    requires PlainUnion(schema)
    ensures
      var once := Coerce(host, v, schema);
      var m := FirstAccepting(host, v, schema.anyOf, 0);
      Coerce(host, once, schema) == once <==> forall j :: 0 <= j < m ==> !TakesOver(host, once, schema.anyOf, j)
  {
    var once, members := Coerce(host, v, schema), schema.anyOf;
    var m, second := FirstAccepting(host, v, members, 0), FirstAccepting(host, once, members, 0);
    OnlyUnion(host, v, schema);
    OnlyUnion(host, once, schema);
    UnionIs(host, v, schema, 0);
    UnionIs(host, once, schema, 0);
    forall j | 0 <= j < m
      ensures TakesOver(host, once, members, j) <==> j == second && Coerce(host, once, members[j]) != once
    {
      OnlyFirstTakesOver(host, once, members, second, j);
    }
    if m < |members| {
      CoerceTwice(host, v, members[m]);
      assert Accepts(host, once, members[m]);
    }
  }

  lemma OnlyFirstTakesOver(host: Host, v: Json, members: seq<Schema>, first: nat, j: nat)
    requires first == FirstAccepting(host, v, members, 0) && j < |members|
    ensures TakesOver(host, v, members, j) <==> j == first && Coerce(host, v, members[j]) != v
  {
  }

  // With a union it may take two rounds: "1" is no boolean but becomes the integer 1, and
  // 1 becomes the boolean true.
  function Typed(ty: string): Schema { Schema([ty], [], [], [], map[], None, NoItems) }

  function Sample(): Host {
    Host(s => if s == "1" then Some(1.0) else None, n => "",
      (s: Schema, v) => |s.types| == 1 && Matches(v, s.types[0]))
  }

  lemma UnionMayNotSettle()
    ensures
      var host := Sample();
      var schema := Schema([], [], [Typed("boolean"), Typed("integer")], [], map[], None, NoItems);
      && Coerce(host, Str("1"), schema) == Number(Int(1))
      && Coerce(host, Number(Int(1)), schema) == Bool(true)
  {
    var host := Sample();
    var boolean, integer := Typed("boolean"), Typed("integer");
    var schema := Schema([], [], [boolean, integer], [], map[], None, NoItems);
    var text, one := Str("1"), Number(Int(1));
    TypedCoerces(host, text, "boolean");
    TypedCoerces(host, text, "integer");
    TypedCoerces(host, one, "boolean");
    assert !host.valid(boolean, text) && host.valid(integer, one) && host.valid(boolean, Bool(true));
    OnlyUnion(host, text, schema);
    OnlyUnion(host, one, schema);
    assert Union(host, text, schema, schema.anyOf, 1) == one;
  }

  lemma TypedCoerces(host: Host, v: Json, ty: string)
    requires !v.Object? && !v.Array?
    ensures Coerce(host, v, Typed(ty)) == Primitive(host, v, ty)
  {
    PlainIsTypesThenChildren(host, v, Typed(ty));
    PrimitiveYieldsType(host, v, ty);
    assert FirstChange(host, v, [ty], 1) == v;
  }

  lemma OnlyUnion(host: Host, v: Json, schema: Schema)
    requires schema.types == [] && schema.allOf == [] && schema.oneOf == []
    ensures Coerce(host, v, schema) == Union(host, v, schema, schema.anyOf, 0)
  {
    var u := Union(host, v, schema, schema.anyOf, 0);
    assert AllOf(host, v, schema, 0) == v;
    assert Union(host, u, schema, schema.oneOf, 0) == u;
    assert FirstChange(host, u, [], 0) == u;
  }
}
