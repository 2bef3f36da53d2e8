// What a value becomes under a schema that is one primitive type (validation.rs
// `coerce_primitive_by_type`), value by value, and which coercions undo each other.
module CoercedValues {
  import opened Messages
  import opened SchemaCoercion

  ghost predicate IsPrimitive(ty: string) {
    ty == "number" || ty == "integer" || ty == "boolean" || ty == "string" || ty == "null"
  }

  lemma TypedIs(host: Host, v: Json, ty: string)
    requires IsPrimitive(ty)
    ensures Coerce(host, v, Typed(ty)) == Primitive(host, v, ty)
  {
    PlainIsTypesThenChildren(host, v, Typed(ty));
    PrimitiveYieldsType(host, v, ty);
    assert FirstChange(host, v, [ty], 1) == v;
  }

  // --- What becomes what ---

  // True and false come from themselves, from their words and from one and zero; null is
  // false; nothing else changes.
  lemma ToBoolean(host: Host, v: Json)
    ensures var r := Coerce(host, v, Typed("boolean"));
      && (r == Bool(true) <==> v == Bool(true) || v == Str("true") || (v.Number? && AsReal(v.n) == 1.0))
      && (r == Bool(false) <==> v == Bool(false) || v == Str("false") || v == Null || (v.Number? && AsReal(v.n) == 0.0))
      && (!r.Bool? ==> r == v)
  {
    TypedIs(host, v, "boolean");
  }

  lemma ToText(host: Host, v: Json)
    ensures var r := Coerce(host, v, Typed("string"));
      && (forall s :: r == Str(s) <==>
        (v == Str(s) || (v == Null && s == "") || (v == Bool(true) && s == "true") || (v == Bool(false) && s == "false")
          || (v.Number? && host.show(v.n) == s)))
      && (!r.Str? ==> r == v)
  {
    TypedIs(host, v, "string");
  }

  lemma ToNothing(host: Host, v: Json)
    ensures var r := Coerce(host, v, Typed("null"));
      && (r == Null <==> v == Null || v == Str("") || v == Bool(false) || (v.Number? && AsReal(v.n) == 0.0))
      && (r != Null ==> r == v)
  {
    TypedIs(host, v, "null");
  }

  // The number that stands for a real: an integer when it is whole and a float can hold it
  // as a 64-bit integer, else itself.
  ghost predicate Stands(n: Num, x: real) {
    if !IsWhole(x) || x < -9223372036854775808.0 || x > 9223372036854775808.0 then n == Float(x)
    else n.Int? && if x == 9223372036854775808.0 then n.i == 9223372036854775807 else n.i as real == x
  }

  lemma ToNumberIs(host: Host, v: Json)
    ensures var r := Coerce(host, v, Typed("number"));
      && (v == Null || v == Bool(false) ==> r == Number(Int(0)))
      && (v == Bool(true) ==> r == Number(Int(1)))
      && (v.Str? && host.parse(v.s).Some? ==> r.Number? && Stands(r.n, host.parse(v.s).value))
      && (v.Number? || v.Array? || v.Object? || (v.Str? && host.parse(v.s).None?) ==> r == v)
  {
    TypedIs(host, v, "number");
  }

  // The integer nearest to a real within 64 bits.
  ghost predicate Saturates(i: int, x: real) {
    if x > 9223372036854775807.0 then i == 9223372036854775807
    else if x < -9223372036854775808.0 then i == -9223372036854775808
    else i as real == x
  }

  lemma ToInteger(host: Host, v: Json)
    ensures var r := Coerce(host, v, Typed("integer"));
      && (v == Null || v == Bool(false) ==> r == Number(Int(0)))
      && (v == Bool(true) ==> r == Number(Int(1)))
      && (v.Str? && host.parse(v.s).Some? && IsWhole(host.parse(v.s).value) ==>
        r.Number? && r.n.Int? && Saturates(r.n.i, host.parse(v.s).value))
      && (v.Number? || v.Array? || v.Object? || (v.Str? && (host.parse(v.s).None? || !IsWhole(host.parse(v.s).value))) ==> r == v)
  {
    TypedIs(host, v, "integer");
  }

  // --- There and back ---

  function Through(host: Host, v: Json, there: string, back: string): Json {
    Coerce(host, Coerce(host, v, Typed(there)), Typed(back))
  }

  // A boolean survives as text and as a number; null as the zero of every type but false,
  // zero and "" are null too.
  lemma BooleanAndBack(host: Host, b: bool)
    ensures Through(host, Bool(b), "string", "boolean") == Bool(b)
    ensures Through(host, Bool(b), "integer", "boolean") == Bool(b)
    ensures Through(host, Bool(b), "number", "boolean") == Bool(b)
  {
    ToText(host, Bool(b));
    var text := Coerce(host, Bool(b), Typed("string"));
    assert text == Str(if b then "true" else "false");
    ToBoolean(host, text);
    ToInteger(host, Bool(b));
    ToBoolean(host, Coerce(host, Bool(b), Typed("integer")));
    ToNumberIs(host, Bool(b));
    ToBoolean(host, Coerce(host, Bool(b), Typed("number")));
  }

  lemma NullAndBack(host: Host, ty: string)
    requires IsPrimitive(ty)
    ensures Through(host, Null, ty, "null") == Null
  {
    ToBoolean(host, Null);
    ToText(host, Null);
    assert Coerce(host, Null, Typed("string")) == Str("");
    ToNumberIs(host, Null);
    ToInteger(host, Null);
    ToNothing(host, Null);
    ToNothing(host, Coerce(host, Null, Typed(ty)));
  }

  // A number survives as text exactly when its text parses back to it and it is the number
  // that stands for what it is: a whole float comes back as an integer.
  lemma NumberAndBackIff(host: Host, n: Num)
    requires host.parse(host.show(n)) == Some(AsReal(n))
    ensures Through(host, Number(n), "string", "number") == Number(n) <==> Stands(n, AsReal(n))
  {
    ToText(host, Number(n));
    assert Coerce(host, Number(n), Typed("string")) == Str(host.show(n));
    ToNumberIs(host, Str(host.show(n)));
    if Stands(n, AsReal(n)) {
      StandsUnique(n, Coerce(host, Str(host.show(n)), Typed("number")).n, AsReal(n));
    }
  }

  lemma StandsUnique(a: Num, b: Num, x: real)
    requires Stands(a, x) && Stands(b, x)
    ensures a == b
  {
  }

  // --- Types ---

  ghost function TypesOf(v: Json): set<string> {
    match v
    case Null => {"null"}
    case Bool(_) => {"boolean"}
    case Number(n) => if IsWhole(AsReal(n)) then {"number", "integer"} else {"number"}
    case Str(_) => {"string"}
    case Array(_) => {"array"}
    case Object(_) => {"object"}
  }

  ghost predicate IsFirstToChange(host: Host, v: Json, types: seq<string>, k: nat)
    requires k < |types|
  {
    Primitive(host, v, types[k]) != v && forall i :: 0 <= i < k ==> Primitive(host, v, types[i]) == v
  }

  // A value that has one of several types asked for is left alone; otherwise it becomes what
  // the first of them that changes it makes of it.
  lemma SeveralTypes(host: Host, v: Json, types: seq<string>, k: nat)
    requires |types| > 1 && k < |types|
    ensures (exists i :: 0 <= i < |types| && types[i] in TypesOf(v)) ==> ByTypes(host, v, types) == v
    ensures (forall i :: 0 <= i < |types| ==> types[i] !in TypesOf(v)) && IsFirstToChange(host, v, types, k) ==>
              ByTypes(host, v, types) == Primitive(host, v, types[k])
  {
    assert forall ty :: Matches(v, ty) <==> ty in TypesOf(v);
    if forall i :: 0 <= i < k ==> Primitive(host, v, types[i]) == v {
      FirstIsTaken(host, v, types, 0, k);
    }
  }

  lemma {:induction false} FirstIsTaken(host: Host, v: Json, types: seq<string>, j: nat, k: nat)
    requires j <= k < |types| && (forall i :: j <= i < k ==> Primitive(host, v, types[i]) == v)
    ensures Primitive(host, v, types[k]) != v ==> FirstChange(host, v, types, j) == Primitive(host, v, types[k])
    decreases k - j
  {
    if j < k {
      FirstIsTaken(host, v, types, j + 1, k);
    }
  }
}
