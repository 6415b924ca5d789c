/**
 * The portable JSON-Schema subset of the control tools: an error-collecting walk with early exits, proved against
 * a declarative conformance predicate.
 */
module SchemaValidation {

  import opened Text

  /** Parsed JSON; members keep their order and numbers keep the int/float distinction. */
  datatype Json =
    | JNull
    | JBool(truth: bool)
    | JInt(number: int)
    | JFloat(amount: real)
    | JString(text: string)
    | JArray(items: seq<Json>)
    | JObject(members: seq<(string, Json)>)

  datatype TypeName = ObjectType | ArrayType | StringType | IntegerType | NumberType | BooleanType | UnknownType

  datatype Schema = Schema(
    expected: TypeName,
    options: Option<seq<Json>>,
    minimum: Option<real>,
    maximum: Option<real>,
    minLength: int,
    maxLength: int,
    minItems: int,
    maxItems: int,
    items: Option<Schema>,
    required: seq<string>,
    properties: seq<(string, Schema)>,
    closed: bool)

  /** A schema that states nothing: every keyword at the default the walk assumes for it. */
  const ANYTHING := Schema(UnknownType, None, None, None, 0, 1_000_000_000, 0, 1_000_000_000, None, [], [], false)

  predicate TypeMatches(v: Json, expected: TypeName) {
    match expected
    case ObjectType => v.JObject?
    case ArrayType => v.JArray?
    case StringType => v.JString?
    case IntegerType => v.JInt?
    case NumberType => v.JInt? || v.JFloat?
    case BooleanType => v.JBool?
    case UnknownType => true
  }

  predicate IsNumeric(v: Json) { v.JBool? || v.JInt? || v.JFloat? }

  function Amount(v: Json): real
    requires IsNumeric(v)
  {
    match v
    case JBool(truth) => if truth then 1.0 else 0.0
    case JInt(number) => number as real
    case JFloat(amount) => amount
  }

  /** Equality as the `in` operator sees it: numbers and truth values compare by amount, objects by key. */
  predicate Same(a: Json, b: Json)
    decreases a, 0
  {
    if IsNumeric(a) && IsNumeric(b) then Amount(a) == Amount(b)
    else
      match (a, b)
      case (JNull, JNull) => true
      case (JString(s), JString(t)) => s == t
      case (JArray(xs), JArray(ys)) => |xs| == |ys| && forall i | 0 <= i < |xs| :: Same(xs[i], ys[i])
      case (JObject(ms), JObject(ns)) =>
        |ms| == |ns| && forall i | 0 <= i < |ms| :: HasSame(ms[i].0, ms[i].1, ns)
      case _ => false
  }

  /** Some member has this key and the same value. */
  predicate HasSame(key: string, value: Json, members: seq<(string, Json)>)
    decreases value, 1
  {
    exists j | 0 <= j < |members| :: members[j].0 == key && Same(value, members[j].1)
  }

  predicate Enumerated(v: Json, s: Schema) {
    s.options.Some? ==> exists i | 0 <= i < |s.options.value| :: Same(v, s.options.value[i])
  }

  predicate HasMember(members: seq<(string, Json)>, key: string) {
    exists i | 0 <= i < |members| :: members[i].0 == key
  }

  function PropertyOf(properties: seq<(string, Schema)>, key: string): Option<Schema> {
    if properties == [] then None
    else if properties[0].0 == key then Some(properties[0].1)
    else PropertyOf(properties[1..], key)
  }

  predicate BelowMinimum(v: Json, s: Schema) {
    (v.JInt? || v.JFloat?) && s.minimum.Some? && Amount(v) < s.minimum.value
  }

  predicate AboveMaximum(v: Json, s: Schema) {
    (v.JInt? || v.JFloat?) && s.maximum.Some? && Amount(v) > s.maximum.value
  }

  predicate HasUnknown(members: seq<(string, Json)>, s: Schema) {
    s.closed && exists i | 0 <= i < |members| :: PropertyOf(s.properties, members[i].0).None?
  }

  /** What it means for a value to satisfy a schema. */
  predicate Conforms(v: Json, s: Schema)
    decreases v
  {
    && TypeMatches(v, s.expected)
    && Enumerated(v, s)
    && !BelowMinimum(v, s) && !AboveMaximum(v, s)
    && (v.JString? ==> s.minLength <= |v.text| <= s.maxLength)
    && (v.JArray? ==>
          && s.minItems <= |v.items| <= s.maxItems
          && (s.items.Some? ==> forall i | 0 <= i < |v.items| :: Conforms(v.items[i], s.items.value)))
    && (v.JObject? ==>
          && (forall k | 0 <= k < |s.required| :: HasMember(v.members, s.required[k]))
          && !HasUnknown(v.members, s)
          && (forall i | 0 <= i < |v.members| ::
                PropertyOf(s.properties, v.members[i].0).Some? ==>
                  Conforms(v.members[i].1, PropertyOf(s.properties, v.members[i].0).value)))
  }

  // ---------------------------------------------------------------- defects

  datatype PathStep = Field(name: string) | Index(at: nat)

  datatype Defect =
    | WrongType | NotAnOption | TooLow | TooHigh | TooShort | TooLong | TooFew | TooMany
    | Missing(key: string) | UnknownFields

  datatype SchemaError = SchemaError(path: seq<PathStep>, defect: Defect)

  /** The defect really is one of `v` against `s`, taken by itself. */
  predicate Violates(v: Json, s: Schema, d: Defect) {
    match d
    case WrongType => !TypeMatches(v, s.expected)
    case NotAnOption => !Enumerated(v, s)
    case TooLow => BelowMinimum(v, s)
    case TooHigh => AboveMaximum(v, s)
    case TooShort => v.JString? && |v.text| < s.minLength
    case TooLong => v.JString? && |v.text| > s.maxLength
    case TooFew => v.JArray? && |v.items| < s.minItems
    case TooMany => v.JArray? && |v.items| > s.maxItems
    case Missing(key) => v.JObject? && key in s.required && !HasMember(v.members, key)
    case UnknownFields => v.JObject? && HasUnknown(v.members, s)
  }

  /** Following `path` from `v` under `s` leads to a place that has the defect. */
  ghost predicate DefectAt(v: Json, s: Schema, path: seq<PathStep>, d: Defect)
    decreases |path|
  {
    if path == [] then Violates(v, s, d)
    else
      match path[0]
      case Index(i) =>
        v.JArray? && i < |v.items| && s.items.Some? && DefectAt(v.items[i], s.items.value, path[1..], d)
      case Field(name) =>
        v.JObject? && PropertyOf(s.properties, name).Some?
        && exists i :: 0 <= i < |v.members| && v.members[i].0 == name
                       && DefectAt(v.members[i].1, PropertyOf(s.properties, name).value, path[1..], d)
  }

  /** Every reported error lies below `path` and names a real defect there. */
  ghost predicate Genuine(v: Json, s: Schema, path: seq<PathStep>, errors: seq<SchemaError>) {
    forall e :: e in errors ==> path <= e.path && DefectAt(v, s, e.path[|path|..], e.defect)
  }

  /** A defect the walk is to find: every value on the way to it, and there, has the type its schema expects. */
  ghost predicate Findable(v: Json, s: Schema, path: seq<PathStep>, d: Defect)
    decreases |path|
  {
    if path == [] then Violates(v, s, d) && (d == WrongType || TypeMatches(v, s.expected))
    else
      TypeMatches(v, s.expected)
      && match path[0]
         case Index(i) =>
           v.JArray? && i < |v.items| && s.items.Some? && Findable(v.items[i], s.items.value, path[1..], d)
         case Field(name) =>
           v.JObject? && PropertyOf(s.properties, name).Some?
           && exists i :: 0 <= i < |v.members| && v.members[i].0 == name
                          && Findable(v.members[i].1, PropertyOf(s.properties, name).value, path[1..], d)
  }

  /** Everything to be found below `path` is reported. */
  ghost predicate Complete(errors: seq<SchemaError>, v: Json, s: Schema, path: seq<PathStep>) {
    forall rest, d :: Findable(v, s, rest, d) ==> SchemaError(path + rest, d) in errors
  }

  /** Everything wrong with the value by itself is reported. */
  ghost predicate CompleteHere(errors: seq<SchemaError>, v: Json, s: Schema, path: seq<PathStep>, defects: set<Defect>) {
    forall d :: d in defects && Violates(v, s, d) ==> SchemaError(path, d) in errors
  }

  const SCALAR_DEFECTS: set<Defect> := {NotAnOption, TooLow, TooHigh, TooShort, TooLong, TooFew, TooMany}

  lemma CompleteStays(errors: seq<SchemaError>, more: seq<SchemaError>, v: Json, s: Schema, path: seq<PathStep>)
    requires Complete(errors, v, s, path) && errors <= more
    ensures Complete(more, v, s, path)
  {
    forall rest, d | Findable(v, s, rest, d)
      ensures SchemaError(path + rest, d) in more
    {
      var i :| 0 <= i < |errors| && errors[i] == SchemaError(path + rest, d);
      assert more[i] == errors[i];
    }
  }

  lemma CompleteHereStays(errors: seq<SchemaError>, more: seq<SchemaError>, v: Json, s: Schema, path: seq<PathStep>,
                          defects: set<Defect>)
    requires CompleteHere(errors, v, s, path, defects) && errors <= more
    ensures CompleteHere(more, v, s, path, defects)
  {
    forall d | d in defects && Violates(v, s, d)
      ensures SchemaError(path, d) in more
    {
      var i :| 0 <= i < |errors| && errors[i] == SchemaError(path, d);
      assert more[i] == errors[i];
    }
  }

  /** A wrong type is all there is to find. */
  lemma WrongTypeIsComplete(errors: seq<SchemaError>, v: Json, s: Schema, path: seq<PathStep>)
    requires !TypeMatches(v, s.expected) && SchemaError(path, WrongType) in errors
    ensures Complete(errors, v, s, path)
  {
    forall rest, d | Findable(v, s, rest, d)
      ensures SchemaError(path + rest, d) in errors
    {
      assert rest == [] && d == WrongType;
      assert path + [] == path;
    }
  }

  /** Otherwise it is what is wrong with the value by itself, with its members as a whole, and with its parts. */
  lemma PartsAreComplete(errors: seq<SchemaError>, v: Json, s: Schema, path: seq<PathStep>)
    requires TypeMatches(v, s.expected) && CompleteHere(errors, v, s, path, SCALAR_DEFECTS)
    requires v.JArray? && s.items.Some? ==>
               forall i: nat :: i < |v.items| ==> Complete(errors, v.items[i], s.items.value, path + [Index(i)])
    requires v.JObject? ==> CompleteHere(errors, v, s, path, {UnknownFields})
                            && (forall key :: Violates(v, s, Missing(key)) ==> SchemaError(path, Missing(key)) in errors)
                            && forall i: nat :: i < |v.members| ==> MemberComplete(errors, v, s, path, i)
    ensures Complete(errors, v, s, path)
  {
    hide TypeMatches, Violates;
    forall rest, d | Findable(v, s, rest, d)
      ensures SchemaError(path + rest, d) in errors
    {
      if rest == [] {
        assert path + [] == path;
        OneOfAll(v, s, d);
      } else {
        assert path + rest == (path + [rest[0]]) + rest[1..];
        match rest[0] {
          case Index(i) =>
            assert Complete(errors, v.items[i], s.items.value, path + [Index(i)]);
          case Field(name) =>
            var i: nat :| i < |v.members| && v.members[i].0 == name
                          && Findable(v.members[i].1, PropertyOf(s.properties, name).value, rest[1..], d);
            assert MemberComplete(errors, v, s, path, i);
        }
      }
    }
  }

  ghost predicate MemberComplete(errors: seq<SchemaError>, v: Json, s: Schema, path: seq<PathStep>, i: nat)
    requires v.JObject? && i < |v.members|
  {
    PropertyOf(s.properties, v.members[i].0).Some? ==>
      Complete(errors, v.members[i].1, PropertyOf(s.properties, v.members[i].0).value, path + [Field(v.members[i].0)])
  }

  lemma OneOfAll(v: Json, s: Schema, d: Defect)
    requires Violates(v, s, d)
    ensures d in SCALAR_DEFECTS || (d == WrongType && !TypeMatches(v, s.expected)) || (d == UnknownFields && v.JObject?)
            || (d.Missing? && v.JObject?)
  {
    hide TypeMatches, Enumerated, BelowMinimum, AboveMaximum, HasUnknown;
  }

  /** A defect anywhere along a path means the value as a whole does not conform. */
  lemma {:induction false} DefectsRefuteConformance(v: Json, s: Schema, path: seq<PathStep>, d: Defect)
    requires DefectAt(v, s, path, d)
    ensures !Conforms(v, s)
    decreases |path|
  {
    if path != [] {
      match path[0] {
        case Index(i) => DefectsRefuteConformance(v.items[i], s.items.value, path[1..], d);
        case Field(name) =>
          var i :| 0 <= i < |v.members| && v.members[i].0 == name
                   && DefectAt(v.members[i].1, PropertyOf(s.properties, name).value, path[1..], d);
          DefectsRefuteConformance(v.members[i].1, PropertyOf(s.properties, name).value, path[1..], d);
      }
    }
  }

  /** Each minimum is at most its maximum, here and in every subschema. */
  predicate WellFormed(s: Schema)
    decreases s
  {
    && (s.minimum.Some? && s.maximum.Some? ==> s.minimum.value <= s.maximum.value)
    && s.minLength <= s.maxLength
    && s.minItems <= s.maxItems
    && (s.items.Some? ==> WellFormed(s.items.value))
    && (forall i | 0 <= i < |s.properties| :: WellFormed(s.properties[i].1))
  }

  lemma {:induction false} PropertyIsWellFormed(properties: seq<(string, Schema)>, key: string)
    requires forall i | 0 <= i < |properties| :: WellFormed(properties[i].1)
    requires PropertyOf(properties, key).Some?
    ensures WellFormed(PropertyOf(properties, key).value)
  {
    if properties[0].0 != key {
      PropertyIsWellFormed(properties[1..], key);
    }
  }

  // ---------------------------------------------------------------- the walk

  /** The list every recursive call appends to. */
  class ErrorList {
    var items: seq<SchemaError>

    constructor ()
      ensures items == []
    {
      items := [];
    }

    method Append(path: seq<PathStep>, defect: Defect)
      modifies this
      ensures items == old(items) + [SchemaError(path, defect)]
    {
      items := items + [SchemaError(path, defect)];
    }
  }

  /** What any part of the walk may do to the list: append genuine errors only. */
  ghost predicate Extends(before: seq<SchemaError>, after: seq<SchemaError>, v: Json, s: Schema, path: seq<PathStep>) {
    before <= after && Genuine(v, s, path, after[|before|..])
  }

  lemma ExtendByOne(before: seq<SchemaError>, now: seq<SchemaError>, v: Json, s: Schema, path: seq<PathStep>, d: Defect)
    requires Extends(before, now, v, s, path) && Violates(v, s, d)
    ensures Extends(before, now + [SchemaError(path, d)], v, s, path)
  {
    var after := now + [SchemaError(path, d)];
    assert after[|before|..] == now[|before|..] + [SchemaError(path, d)];
    assert path[|path|..] == [];
  }

  lemma ItemDefect(v: Json, s: Schema, i: nat, rest: seq<PathStep>, d: Defect)
    requires v.JArray? && s.items.Some? && i < |v.items| && DefectAt(v.items[i], s.items.value, rest, d)
    ensures DefectAt(v, s, [Index(i)] + rest, d)
  {
    assert ([Index(i)] + rest)[1..] == rest;
  }

  lemma MemberDefect(v: Json, s: Schema, i: nat, rest: seq<PathStep>, d: Defect)
    requires v.JObject? && i < |v.members| && PropertyOf(s.properties, v.members[i].0).Some?
    requires DefectAt(v.members[i].1, PropertyOf(s.properties, v.members[i].0).value, rest, d)
    ensures DefectAt(v, s, [Field(v.members[i].0)] + rest, d)
  {
    assert ([Field(v.members[i].0)] + rest)[1..] == rest;
  }

  lemma BelowStep(path: seq<PathStep>, step: PathStep, e: SchemaError)
    requires path + [step] <= e.path
    ensures path <= e.path && e.path[|path|..] == [step] + e.path[|path| + 1..]
  {
    assert (path + [step])[..|path|] == path;
  }

  lemma ExtendItem(before: seq<SchemaError>, now: seq<SchemaError>, after: seq<SchemaError>,
                   v: Json, s: Schema, path: seq<PathStep>, i: nat)
    requires v.JArray? && s.items.Some? && i < |v.items|
    requires Extends(before, now, v, s, path) && Extends(now, after, v.items[i], s.items.value, path + [Index(i)])
    ensures Extends(before, after, v, s, path)
  {
    assert after[|before|..] == now[|before|..] + after[|now|..];
    forall e | e in after[|now|..]
      ensures path <= e.path && DefectAt(v, s, e.path[|path|..], e.defect)
    {
      BelowStep(path, Index(i), e);
      ItemDefect(v, s, i, e.path[|path| + 1..], e.defect);
    }
  }

  lemma ExtendMember(before: seq<SchemaError>, now: seq<SchemaError>, after: seq<SchemaError>,
                     v: Json, s: Schema, path: seq<PathStep>, i: nat)
    requires v.JObject? && i < |v.members| && PropertyOf(s.properties, v.members[i].0).Some?
    requires Extends(before, now, v, s, path)
    requires Extends(now, after, v.members[i].1, PropertyOf(s.properties, v.members[i].0).value,
                     path + [Field(v.members[i].0)])
    ensures Extends(before, after, v, s, path)
  {
    assert after[|before|..] == now[|before|..] + after[|now|..];
    forall e | e in after[|now|..]
      ensures path <= e.path && DefectAt(v, s, e.path[|path|..], e.defect)
    {
      BelowStep(path, Field(v.members[i].0), e);
      MemberDefect(v, s, i, e.path[|path| + 1..], e.defect);
    }
  }

  /** The defect as an error, if it is one. */
  function Flag(v: Json, s: Schema, path: seq<PathStep>, d: Defect): seq<SchemaError> {
    if Violates(v, s, d) then [SchemaError(path, d)] else []
  }

  /** What is wrong with one value, its parts aside. */
  function ScalarErrors(v: Json, s: Schema, path: seq<PathStep>): seq<SchemaError> {
    Flag(v, s, path, NotAnOption)
    + Flag(v, s, path, TooLow) + Flag(v, s, path, TooHigh)
    + Flag(v, s, path, TooShort) + Flag(v, s, path, TooLong)
    + Flag(v, s, path, TooFew) + Flag(v, s, path, TooMany)
  }

  lemma FewScalarErrors(v: Json, s: Schema, path: seq<PathStep>)
    ensures |ScalarErrors(v, s, path)| <= 3
    ensures WellFormed(s) ==> |ScalarErrors(v, s, path)| <= 2
    ensures v.JObject? ==> |ScalarErrors(v, s, path)| <= 1
    ensures ScalarErrors(v, s, path) == [] <==> ScalarConforms(v, s)
  {
    hide Enumerated;
  }

  lemma ScalarErrorElements(v: Json, s: Schema, path: seq<PathStep>, e: SchemaError)
    ensures e in ScalarErrors(v, s, path) <==> e.path == path && e.defect in SCALAR_DEFECTS && Violates(v, s, e.defect)
  {
    hide Violates;
  }

  lemma ScalarErrorsExtend(before: seq<SchemaError>, v: Json, s: Schema, path: seq<PathStep>)
    ensures Extends(before, before + ScalarErrors(v, s, path), v, s, path)
    ensures CompleteHere(before + ScalarErrors(v, s, path), v, s, path, SCALAR_DEFECTS)
  {
    hide ScalarErrors, Violates;
    var more := ScalarErrors(v, s, path);
    assert (before + more)[|before|..] == more;
    forall e
      ensures e in more <==> e.path == path && e.defect in SCALAR_DEFECTS && Violates(v, s, e.defect)
    {
      ScalarErrorElements(v, s, path, e);
    }
    assert path[|path|..] == [];
    forall d | d in SCALAR_DEFECTS && Violates(v, s, d)
      ensures SchemaError(path, d) in before + more
    {
      assert SchemaError(path, d) in more;
    }
  }

  /** Only the checks for the kind of the value can fail. */
  lemma ErrorsByKind(v: Json, s: Schema, path: seq<PathStep>)
    ensures v.JInt? || v.JFloat? ==>
              ScalarErrors(v, s, path) == Flag(v, s, path, NotAnOption) + Flag(v, s, path, TooLow) + Flag(v, s, path, TooHigh)
    ensures v.JString? ==>
              ScalarErrors(v, s, path) == Flag(v, s, path, NotAnOption) + Flag(v, s, path, TooShort) + Flag(v, s, path, TooLong)
    ensures v.JArray? ==>
              ScalarErrors(v, s, path) == Flag(v, s, path, NotAnOption) + Flag(v, s, path, TooFew) + Flag(v, s, path, TooMany)
    ensures v.JNull? || v.JBool? || v.JObject? ==> ScalarErrors(v, s, path) == Flag(v, s, path, NotAnOption)
  {
    hide Enumerated;
  }

  /** Enumeration, range and length: at most two errors in a well-formed schema. */
  method CheckScalar(v: Json, s: Schema, path: seq<PathStep>, errors: ErrorList)
    requires TypeMatches(v, s.expected)
    modifies errors
    ensures errors.items == old(errors.items) + ScalarErrors(v, s, path)
    ensures Extends(old(errors.items), errors.items, v, s, path)
    ensures CompleteHere(errors.items, v, s, path, SCALAR_DEFECTS)
    ensures errors.items == old(errors.items) <==> ScalarConforms(v, s)
    ensures |errors.items| <= |old(errors.items)| + 3
    ensures WellFormed(s) ==> |errors.items| <= |old(errors.items)| + 2
    ensures v.JObject? ==> |errors.items| <= |old(errors.items)| + 1
  {
    hide WellFormed, Enumerated, Extends, CompleteHere, ScalarConforms, ScalarErrors, BelowMinimum, AboveMaximum,
      TypeMatches;
    FewScalarErrors(v, s, path);
    ErrorsByKind(v, s, path);
    ScalarErrorsExtend(errors.items, v, s, path);
    if !Enumerated(v, s) {
      errors.Append(path, NotAnOption);
    }
    assert errors.items == old(errors.items) + Flag(v, s, path, NotAnOption);
    if v.JInt? || v.JFloat? {
      if BelowMinimum(v, s) {
        errors.Append(path, TooLow);
      }
      assert errors.items == old(errors.items) + Flag(v, s, path, NotAnOption) + Flag(v, s, path, TooLow);
      if AboveMaximum(v, s) {
        errors.Append(path, TooHigh);
      }
    } else if v.JString? {
      if |v.text| < s.minLength {
        errors.Append(path, TooShort);
      }
      assert errors.items == old(errors.items) + Flag(v, s, path, NotAnOption) + Flag(v, s, path, TooShort);
      if |v.text| > s.maxLength {
        errors.Append(path, TooLong);
      }
    } else if v.JArray? {
      if |v.items| < s.minItems {
        errors.Append(path, TooFew);
      }
      assert errors.items == old(errors.items) + Flag(v, s, path, NotAnOption) + Flag(v, s, path, TooFew);
      if |v.items| > s.maxItems {
        errors.Append(path, TooMany);
      }
    }
  }

  predicate HasAllRequired(v: Json, s: Schema)
    requires v.JObject?
  {
    forall k | 0 <= k < |s.required| :: HasMember(v.members, s.required[k])
  }

  predicate ItemsConform(v: Json, s: Schema)
    requires v.JArray? && s.items.Some?
  {
    forall i | 0 <= i < |v.items| :: Conforms(v.items[i], s.items.value)
  }

  predicate MemberConforms(v: Json, s: Schema, i: nat)
    requires v.JObject? && i < |v.members|
  {
    PropertyOf(s.properties, v.members[i].0).Some? ==>
      Conforms(v.members[i].1, PropertyOf(s.properties, v.members[i].0).value)
  }

  predicate MembersConform(v: Json, s: Schema)
    requires v.JObject?
  {
    !HasUnknown(v.members, s) && forall i | 0 <= i < |v.members| :: MemberConforms(v, s, i)
  }

  lemma ConformsByParts(v: Json, s: Schema)
    ensures Conforms(v, s) <==>
              && TypeMatches(v, s.expected) && ScalarConforms(v, s)
              && (v.JArray? && s.items.Some? ==> ItemsConform(v, s))
              && (v.JObject? ==> HasAllRequired(v, s) && MembersConform(v, s))
  {
    if v.JObject? {
      assert forall i | 0 <= i < |v.members| ::
        MemberConforms(v, s, i) <==>
          (PropertyOf(s.properties, v.members[i].0).Some? ==>
             Conforms(v.members[i].1, PropertyOf(s.properties, v.members[i].0).value));
    }
  }

  predicate ScalarConforms(v: Json, s: Schema) {
    && Enumerated(v, s) && !BelowMinimum(v, s) && !AboveMaximum(v, s)
    && (v.JString? ==> s.minLength <= |v.text| <= s.maxLength)
    && (v.JArray? ==> s.minItems <= |v.items| <= s.maxItems)
  }

  /** The list length after a walk that found `n` errors before it: one over the limit, two for a bad schema. */
  function Ceiling(s: Schema, n: nat, limit: nat): nat {
    if n >= limit then n else if WellFormed(s) then limit + 1 else limit + 2
  }

  lemma CeilingBelow(s: Schema, part: Schema, n: nat, limit: nat)
    requires WellFormed(s) ==> WellFormed(part)
    ensures n < limit ==> Ceiling(part, n, limit) <= Ceiling(s, 0, limit)
  {
  }

  /** `before` is the list as it was when the enclosing call began. */
  method CollectItems(v: Json, s: Schema, path: seq<PathStep>, errors: ErrorList, limit: nat,
                      ghost before: seq<SchemaError>)
    requires v.JArray? && s.items.Some? && |before| < limit
    requires Extends(before, errors.items, v, s, path) && |errors.items| <= Ceiling(s, 0, limit)
    modifies errors
    ensures Extends(before, errors.items, v, s, path) && |errors.items| <= Ceiling(s, 0, limit)
    ensures errors.items == before <==> old(errors.items) == before && ItemsConform(v, s)
    ensures old(errors.items) <= errors.items
    ensures |errors.items| < limit ==>
              forall i: nat :: i < |v.items| ==> Complete(errors.items, v.items[i], s.items.value, path + [Index(i)])
    decreases v, 0
  {
    for i := 0 to |v.items|
      invariant old(errors.items) <= errors.items
      invariant |errors.items| < limit ==>
        forall j: nat :: j < i ==> Complete(errors.items, v.items[j], s.items.value, path + [Index(j)])
      invariant Extends(before, errors.items, v, s, path) && |errors.items| <= Ceiling(s, 0, limit)
      invariant errors.items == before ==>
        old(errors.items) == before && forall j | 0 <= j < i :: Conforms(v.items[j], s.items.value)
      invariant errors.items != before ==> old(errors.items) != before || !ItemsConform(v, s)
    {
      ghost var now := errors.items;
      CollectErrors(v.items[i], s.items.value, path + [Index(i)], errors, limit);
      ItemsStayComplete(now, errors.items, v, s, path, i, limit);
      ExtendItem(before, now, errors.items, v, s, path, i);
      CeilingBelow(s, s.items.value, |now|, limit);
      if |errors.items| >= limit {
        break;
      }
    }
  }

  /** Reports missing members; `stop` says that the limit ended the walk. */
  method CollectRequired(v: Json, s: Schema, path: seq<PathStep>, errors: ErrorList, limit: nat,
                         ghost before: seq<SchemaError>)
    returns (stop: bool)
    requires v.JObject? && |before| < limit
    requires Extends(before, errors.items, v, s, path) && |errors.items| <= limit
    modifies errors
    ensures Extends(before, errors.items, v, s, path)
    ensures |errors.items| <= if stop then limit + 1 else limit
    ensures stop ==> !HasAllRequired(v, s) && errors.items != before
    ensures !stop ==> (errors.items == before <==> old(errors.items) == before && HasAllRequired(v, s))
    ensures old(errors.items) <= errors.items && (stop ==> |errors.items| >= limit)
    ensures !stop ==> forall key :: Violates(v, s, Missing(key)) ==> SchemaError(path, Missing(key)) in errors.items
  {
    for k := 0 to |s.required|
      invariant old(errors.items) <= errors.items
      invariant forall j | 0 <= j < k && !HasMember(v.members, s.required[j]) ::
        SchemaError(path, Missing(s.required[j])) in errors.items
      invariant Extends(before, errors.items, v, s, path) && |errors.items| <= limit
      invariant errors.items == before ==>
        old(errors.items) == before && forall j | 0 <= j < k :: HasMember(v.members, s.required[j])
      invariant errors.items != before ==> old(errors.items) != before || !HasAllRequired(v, s)
    {
      if !HasMember(v.members, s.required[k]) {
        ExtendByOne(before, errors.items, v, s, path, Missing(s.required[k]));
        errors.Append(path, Missing(s.required[k]));
        if |errors.items| >= limit {
          return true;
        }
      }
    }
    stop := false;
  }

  method CollectMembers(v: Json, s: Schema, path: seq<PathStep>, errors: ErrorList, limit: nat,
                        ghost before: seq<SchemaError>)
    requires v.JObject? && |before| < limit
    requires Extends(before, errors.items, v, s, path) && |errors.items| <= limit
    modifies errors
    ensures Extends(before, errors.items, v, s, path) && |errors.items| <= Ceiling(s, 0, limit)
    ensures errors.items == before <==> old(errors.items) == before && MembersConform(v, s)
    ensures old(errors.items) <= errors.items
    ensures |errors.items| < limit ==>
              && CompleteHere(errors.items, v, s, path, {UnknownFields})
              && forall i: nat :: i < |v.members| ==> MemberComplete(errors.items, v, s, path, i)
    decreases v, 0
  {
    if HasUnknown(v.members, s) {
      ExtendByOne(before, errors.items, v, s, path, UnknownFields);
      errors.Append(path, UnknownFields);
    }
    for i := 0 to |v.members|
      invariant old(errors.items) <= errors.items
      invariant CompleteHere(errors.items, v, s, path, {UnknownFields})
      invariant |errors.items| < limit ==> forall j: nat :: j < i ==> MemberComplete(errors.items, v, s, path, j)
      invariant Extends(before, errors.items, v, s, path) && |errors.items| <= Ceiling(s, 0, limit)
      invariant errors.items == before ==>
        && old(errors.items) == before && !HasUnknown(v.members, s)
        && forall j | 0 <= j < i :: MemberConforms(v, s, j)
      invariant errors.items != before ==> old(errors.items) != before || !MembersConform(v, s)
    {
      var (key, part) := v.members[i];
      var rule := PropertyOf(s.properties, key);
      if rule.Some? {
        ghost var now := errors.items;
        CollectErrors(part, rule.value, path + [Field(key)], errors, limit);
        MembersStayComplete(now, errors.items, v, s, path, i, limit);
        ExtendMember(before, now, errors.items, v, s, path, i);
        if WellFormed(s) {
          PropertyIsWellFormed(s.properties, key);
        }
        CeilingBelow(s, rule.value, |now|, limit);
        assert MemberConforms(v, s, i) <==> Conforms(part, rule.value);
        if |errors.items| >= limit {
          return;
        }
      }
    }
  }

  /**
   * Collects defects until the limit. A list with room grows exactly when the value does not conform, everything
   * added is a genuine defect, and a well-formed schema never pushes the list past one more than the limit.
   */
  method CollectErrors(v: Json, s: Schema, path: seq<PathStep>, errors: ErrorList, limit: nat)
    modifies errors
    ensures Extends(old(errors.items), errors.items, v, s, path)
    ensures |old(errors.items)| >= limit ==> errors.items == old(errors.items)
    ensures |old(errors.items)| < limit ==> (errors.items == old(errors.items) <==> Conforms(v, s))
    ensures |errors.items| <= Ceiling(s, |old(errors.items)|, limit)
    ensures |errors.items| < limit ==> Complete(errors.items, v, s, path)
    decreases v, 1
  {
    hide Conforms, Enumerated, Violates, WellFormed, Complete, CompleteHere, Findable;
    if |errors.items| >= limit {
      return;
    }
    ConformsByParts(v, s);
    if !TypeMatches(v, s.expected) {
      ExtendByOne(errors.items, errors.items, v, s, path, WrongType);
      errors.Append(path, WrongType);
      WrongTypeIsComplete(errors.items, v, s, path);
      return;
    }
    CheckScalar(v, s, path, errors);
    ghost var checked := errors.items;
    if v.JArray? && s.items.Some? {
      CollectItems(v, s, path, errors, limit, old(errors.items));
    } else if v.JObject? {
      var stop := CollectRequired(v, s, path, errors, limit, old(errors.items));
      if !stop {
        ghost var asked := errors.items;
        CollectMembers(v, s, path, errors, limit, old(errors.items));
        MissingStay(asked, errors.items, v, s, path);
      }
    }
    if |errors.items| < limit {
      CompleteHereStays(checked, errors.items, v, s, path, SCALAR_DEFECTS);
      PartsAreComplete(errors.items, v, s, path);
    }
  }

  lemma MissingStay(errors: seq<SchemaError>, more: seq<SchemaError>, v: Json, s: Schema, path: seq<PathStep>)
    requires forall key :: Violates(v, s, Missing(key)) ==> SchemaError(path, Missing(key)) in errors
    requires errors <= more
    ensures forall key :: Violates(v, s, Missing(key)) ==> SchemaError(path, Missing(key)) in more
  {
    hide Violates;
    forall key | Violates(v, s, Missing(key))
      ensures SchemaError(path, Missing(key)) in more
    {
      var i :| 0 <= i < |errors| && errors[i] == SchemaError(path, Missing(key));
      assert more[i] == errors[i];
    }
  }

  lemma ItemsStayComplete(now: seq<SchemaError>, after: seq<SchemaError>, v: Json, s: Schema, path: seq<PathStep>, i: nat,
                          limit: nat)
    requires v.JArray? && s.items.Some? && i < |v.items| && now <= after
    requires |now| < limit ==>
               forall j: nat :: j < i ==> Complete(now, v.items[j], s.items.value, path + [Index(j)])
    requires |after| < limit ==> Complete(after, v.items[i], s.items.value, path + [Index(i)])
    ensures |after| < limit ==>
              forall j: nat :: j < i + 1 ==> Complete(after, v.items[j], s.items.value, path + [Index(j)])
  {
    hide Complete;
    if |after| < limit {
      forall j: nat | j < i
        ensures Complete(after, v.items[j], s.items.value, path + [Index(j)])
      {
        CompleteStays(now, after, v.items[j], s.items.value, path + [Index(j)]);
      }
    }
  }

  lemma MembersStayComplete(now: seq<SchemaError>, after: seq<SchemaError>, v: Json, s: Schema, path: seq<PathStep>,
                            i: nat, limit: nat)
    requires v.JObject? && i < |v.members| && now <= after
    requires CompleteHere(now, v, s, path, {UnknownFields})
    requires |now| < limit ==> forall j: nat :: j < i ==> MemberComplete(now, v, s, path, j)
    requires |after| < limit ==> MemberComplete(after, v, s, path, i)
    ensures CompleteHere(after, v, s, path, {UnknownFields})
    ensures |after| < limit ==> forall j: nat :: j < i + 1 ==> MemberComplete(after, v, s, path, j)
  {
    hide Complete, CompleteHere;
    CompleteHereStays(now, after, v, s, path, {UnknownFields});
    if |after| < limit {
      forall j: nat | j < i
        ensures MemberComplete(after, v, s, path, j)
      {
        assert MemberComplete(now, v, s, path, j);
        if PropertyOf(s.properties, v.members[j].0).Some? {
          CompleteStays(now, after, v.members[j].1, PropertyOf(s.properties, v.members[j].0).value,
                        path + [Field(v.members[j].0)]);
        }
      }
    }
  }

  const ERROR_LIMIT: nat := 24

  /** Validation succeeds exactly on conforming values; a failure lists at least one and at most 25 genuine defects. */
  method ValidateSchema(v: Json, s: Schema) returns (errors: seq<SchemaError>, truncated: bool)
    ensures errors == [] <==> Conforms(v, s)
    ensures Genuine(v, s, [], errors)
    ensures WellFormed(s) ==> |errors| <= ERROR_LIMIT + 1
    ensures truncated <==> |errors| >= ERROR_LIMIT
    ensures !truncated ==> forall path, d :: Findable(v, s, path, d) ==> SchemaError(path, d) in errors
    ensures s.options.Some? && s == ANYTHING.(options := s.options) && Short(v) ==>
              && (Textual(v) ==> (errors == [] <==> v in s.options.value))
              && (v in s.options.value ==> errors == [])
  {
    hide Conforms, WellFormed, Textual, Short;
    if s.options.Some? && s == ANYTHING.(options := s.options) && Short(v) {
      EnumerationsMean(v, s.options.value);
    }
    var list := new ErrorList();
    CollectErrors(v, s, [], list, ERROR_LIMIT);
    assert forall path: seq<PathStep> :: [] + path == path;
    errors := list.items;
    truncated := |errors| >= ERROR_LIMIT;
  }

  // ---------------------------------------------------------------- what each keyword means

  lemma {:induction false} SameAsItself(v: Json)
    ensures Same(v, v)
  {
    match v
    case JArray(xs) =>
      forall i | 0 <= i < |xs|
        ensures Same(xs[i], xs[i])
      {
        SameAsItself(xs[i]);
      }
    case JObject(ms) =>
      forall i | 0 <= i < |ms|
        ensures HasSame(ms[i].0, ms[i].1, ms)
      {
        SameAsItself(ms[i].1);
      }
    case _ =>
  }

  /** Without numbers and objects inside, being the same is being equal. */
  predicate Textual(v: Json)
    decreases v
  {
    v.JNull? || v.JString? || (v.JArray? && forall i | 0 <= i < |v.items| :: Textual(v.items[i]))
  }

  lemma {:induction false} SameTexts(a: Json, b: Json)
    requires Textual(a)
    ensures Same(a, b) <==> a == b
    decreases a
  {
    if a.JArray? && b.JArray? && |a.items| == |b.items| {
      forall i | 0 <= i < |a.items|
        ensures Same(a.items[i], b.items[i]) <==> a.items[i] == b.items[i]
      {
        SameTexts(a.items[i], b.items[i]);
      }
      if forall i :: 0 <= i < |a.items| ==> a.items[i] == b.items[i] {
        assert a.items == b.items;
      }
    }
  }

  /** Texts and items of a length that no schema needs to mention. */
  predicate Short(v: Json) {
    (v.JString? ==> |v.text| <= 1_000_000_000) && (v.JArray? ==> |v.items| <= 1_000_000_000)
  }

  /**
   * An enumeration accepts exactly its texts, its null and its lists of such, and the numbers and truth values with the
   * amount of one of its own; and it accepts all of its options.
   */
  lemma EnumerationsMean(v: Json, opts: seq<Json>)
    requires Short(v)
    ensures var s := ANYTHING.(options := Some(opts));
            && (Textual(v) ==> (Conforms(v, s) <==> v in opts))
            && (v.JBool? || v.JInt? || v.JFloat? ==>
                  (Conforms(v, s) <==>
                     exists o :: o in opts && (o.JBool? || o.JInt? || o.JFloat?) && Figure(o) == Figure(v)))
            && (v in opts ==> Conforms(v, s))
  {
    hide Same, Textual;
    var s := ANYTHING.(options := Some(opts));
    assert Conforms(v, s) <==> exists i | 0 <= i < |opts| :: Same(v, opts[i]);
    if v in opts {
      SameAsItself(v);
    }
    forall o | Textual(v)
      ensures Same(v, o) <==> v == o
    {
      SameTexts(v, o);
    }
    forall o | v.JBool? || v.JInt? || v.JFloat?
      ensures Same(v, o) <==> (o.JBool? || o.JInt? || o.JFloat?) && Figure(o) == Figure(v)
    {
      SameFigures(v, o);
    }
  }

  /** The amount of a number, with true as one and false as none. */
  function Figure(v: Json): real {
    match v case JBool(truth) => (if truth then 1.0 else 0.0) case JInt(n) => n as real case JFloat(x) => x case _ => 0.0
  }

  lemma SameFigures(v: Json, o: Json)
    requires v.JBool? || v.JInt? || v.JFloat?
    ensures Same(v, o) <==> (o.JBool? || o.JInt? || o.JFloat?) && Figure(o) == Figure(v)
  {
  }

  /** The two objects have the same members, in whatever order. */
  ghost predicate EqualMembers(ms: seq<(string, Json)>, ns: seq<(string, Json)>) {
    |ms| == |ns| && forall m :: m in ms ==> m in ns
  }

  /** And of objects with textual values exactly those that have the members of one of its own. */
  lemma EnumeratedObjectsMean(ms: seq<(string, Json)>, opts: seq<Json>)
    requires forall i :: 0 <= i < |ms| ==> Textual(ms[i].1)
    ensures Conforms(JObject(ms), ANYTHING.(options := Some(opts)))
            <==> exists o :: o in opts && o.JObject? && EqualMembers(ms, o.members)
  {
    hide Same, Textual;
    var s := ANYTHING.(options := Some(opts));
    assert Conforms(JObject(ms), s) <==> exists i | 0 <= i < |opts| :: Same(JObject(ms), opts[i]);
    forall o
      ensures Same(JObject(ms), o) <==> o.JObject? && EqualMembers(ms, o.members)
    {
      ObjectsAreSame(ms, o);
    }
  }

  lemma ObjectsAreSame(ms: seq<(string, Json)>, o: Json)
    requires forall i :: 0 <= i < |ms| ==> Textual(ms[i].1)
    ensures Same(JObject(ms), o) <==> o.JObject? && EqualMembers(ms, o.members)
  {
    hide Textual, HasSame;
    if o.JObject? {
      forall i | 0 <= i < |ms|
        ensures HasSame(ms[i].0, ms[i].1, o.members) <==> ms[i] in o.members
      {
        HasTextual(ms[i].0, ms[i].1, o.members);
      }
    }
  }

  lemma HasTextual(key: string, value: Json, members: seq<(string, Json)>)
    requires Textual(value)
    ensures HasSame(key, value, members) <==> (key, value) in members
  {
    hide Same, Textual;
    forall j | 0 <= j < |members|
      ensures Same(value, members[j].1) <==> value == members[j].1
    {
      SameTexts(value, members[j].1);
    }
  }

  /** In a property of an object, too, an enumeration accepts exactly its texts. */
  lemma EnumeratedPropertiesMean(name: string, text: string, opts: seq<Json>)
    requires |text| <= 1_000_000_000
    ensures Conforms(JObject([(name, JString(text))]),
                     ANYTHING.(properties := [(name, ANYTHING.(options := Some(opts)))]))
            <==> JString(text) in opts
  {
    hide Conforms;
    var part := ANYTHING.(options := Some(opts));
    EnumerationsMean(JString(text), opts);
    OneProperty(name, JString(text), part);
  }

  lemma OneProperty(name: string, v: Json, part: Schema)
    ensures Conforms(JObject([(name, v)]), ANYTHING.(properties := [(name, part)])) <==> Conforms(v, part)
  {
    var o, s := JObject([(name, v)]), ANYTHING.(properties := [(name, part)]);
    assert PropertyOf(s.properties, name) == Some(part);
    assert o.members[0] == (name, v);
  }

  /** A type accepts its own values; truth values are no numbers, and whole numbers are numbers. */
  lemma TypesMean(v: Json, expected: TypeName)
    requires Short(v)
    ensures Conforms(v, ANYTHING.(expected := expected)) <==>
              || expected == UnknownType || (expected == ObjectType && v.JObject?) || (expected == ArrayType && v.JArray?)
              || (expected == StringType && v.JString?) || (expected == BooleanType && v.JBool?) || (v.JInt? && expected == IntegerType)
              || (expected == NumberType && (v.JInt? || v.JFloat?))
  {
  }

  /** Bounds hold numbers between them, ends included, and lengths hold texts and lists; nothing else is bounded. */
  lemma BoundsMean(v: Json, low: Option<real>, high: Option<real>, least: int, most: int)
    ensures var s := ANYTHING.(minimum := low, maximum := high, minLength := least, maxLength := most,
                               minItems := least, maxItems := most);
            Conforms(v, s) <==>
              match v
              case JInt(n) => (low.Some? ==> low.value <= n as real) && (high.Some? ==> n as real <= high.value)
              case JFloat(x) => (low.Some? ==> low.value <= x) && (high.Some? ==> x <= high.value)
              case JString(text) => least <= |text| <= most
              case JArray(items) => least <= |items| <= most
              case _ => true
  {
  }

  /** A rule for items holds for every one of them. */
  lemma ItemsMean(items: seq<Json>, rule: Schema)
    requires |items| <= 1_000_000_000
    ensures Conforms(JArray(items), ANYTHING.(items := Some(rule))) <==> forall v :: v in items ==> Conforms(v, rule)
  {
    assert Conforms(JArray(items), ANYTHING.(items := Some(rule)))
        <==> forall i | 0 <= i < |items| :: Conforms(items[i], rule) by { hide Same; }
    hide Conforms;
    if forall i | 0 <= i < |items| :: Conforms(items[i], rule) {
      forall v | v in items
        ensures Conforms(v, rule)
      {
        var i :| 0 <= i < |items| && items[i] == v;
      }
    }
    if forall v :: v in items ==> Conforms(v, rule) {
      forall i | 0 <= i < |items|
        ensures Conforms(items[i], rule)
      {
        assert items[i] in items;
      }
    }
  }

  /** The rule of a key is the first one given for it. */
  ghost predicate RuleFor(properties: seq<(string, Schema)>, key: string, rule: Schema) {
    exists i :: 0 <= i < |properties| && properties[i] == (key, rule) && forall j :: 0 <= j < i ==> properties[j].0 != key
  }

  lemma {:induction false} PropertyIsTheRule(properties: seq<(string, Schema)>, key: string)
    ensures PropertyOf(properties, key).None? <==> forall i :: 0 <= i < |properties| ==> properties[i].0 != key
    ensures forall rule :: PropertyOf(properties, key) == Some(rule) <==> RuleFor(properties, key, rule)
  {
    if properties != [] {
      var rest := properties[1..];
      PropertyIsTheRule(rest, key);
      assert forall i :: 0 <= i < |rest| ==> rest[i] == properties[i + 1];
      if properties[0].0 == key {
        assert properties[0] == (key, properties[0].1);
      } else {
        forall rule
          ensures RuleFor(rest, key, rule) <==> RuleFor(properties, key, rule)
        {
          if i :| 0 <= i < |rest| && rest[i] == (key, rule) && forall j :: 0 <= j < i ==> rest[j].0 != key {
            assert properties[i + 1] == (key, rule);
          }
          if i :| 0 <= i < |properties| && properties[i] == (key, rule) && forall j :: 0 <= j < i ==> properties[j].0 != key {
            assert rest[i - 1] == (key, rule);
          }
        }
      }
    }
  }

  /**
   * Objects: every required key is there, a closed schema knows every key, and every value keeps the rule of its key.
   */
  lemma ObjectsMean(members: seq<(string, Json)>, required: seq<string>, properties: seq<(string, Schema)>, closed: bool)
    ensures Conforms(JObject(members), ANYTHING.(required := required, properties := properties, closed := closed)) <==>
              && (forall key :: key in required ==> exists m :: m in members && m.0 == key)
              && (closed ==> forall m :: m in members ==> exists p :: p in properties && p.0 == m.0)
              && (forall m, rule :: m in members && RuleFor(properties, m.0, rule) ==> Conforms(m.1, rule))
  {
    hide PropertyOf, RuleFor;
    var v, s := JObject(members), ANYTHING.(required := required, properties := properties, closed := closed);
    forall key
      ensures PropertyOf(properties, key).None? <==> forall p :: p in properties ==> p.0 != key
      ensures forall rule :: PropertyOf(properties, key) == Some(rule) <==> RuleFor(properties, key, rule)
      ensures HasMember(members, key) <==> exists m :: m in members && m.0 == key
    {
      PropertyIsTheRule(properties, key);
      MembersMean(members, key);
    }
    RequiredMeans(v, s);
    UnknownMeans(members, s);
    RulesMean(v, s);
    ConformsByParts(v, s);
    assert TypeMatches(v, s.expected) && ScalarConforms(v, s);
  }

  lemma RequiredMeans(v: Json, s: Schema)
    requires v.JObject?
    ensures HasAllRequired(v, s) <==> forall key :: key in s.required ==> exists m :: m in v.members && m.0 == key
  {
    hide HasMember;
    forall key
      ensures HasMember(v.members, key) <==> exists m :: m in v.members && m.0 == key
    {
      MembersMean(v.members, key);
    }
    if HasAllRequired(v, s) {
      forall key | key in s.required
        ensures HasMember(v.members, key)
      {
        var k :| 0 <= k < |s.required| && s.required[k] == key;
      }
    }
    if forall key :: key in s.required ==> HasMember(v.members, key) {
      forall k | 0 <= k < |s.required|
        ensures HasMember(v.members, s.required[k])
      {
        assert s.required[k] in s.required;
      }
    }
  }

  lemma RulesMean(v: Json, s: Schema)
    requires v.JObject?
    ensures (forall i | 0 <= i < |v.members| :: MemberConforms(v, s, i))
            <==> forall m, rule :: m in v.members && RuleFor(s.properties, m.0, rule) ==> Conforms(m.1, rule)
  {
    hide Conforms, PropertyOf, RuleFor;
    forall key
      ensures forall rule :: PropertyOf(s.properties, key) == Some(rule) <==> RuleFor(s.properties, key, rule)
    {
      PropertyIsTheRule(s.properties, key);
    }
    if forall i | 0 <= i < |v.members| :: MemberConforms(v, s, i) {
      forall m, rule | m in v.members && RuleFor(s.properties, m.0, rule)
        ensures Conforms(m.1, rule)
      {
        var i :| 0 <= i < |v.members| && v.members[i] == m;
        assert MemberConforms(v, s, i);
      }
    }
    if forall m, rule :: m in v.members && RuleFor(s.properties, m.0, rule) ==> Conforms(m.1, rule) {
      forall i | 0 <= i < |v.members|
        ensures MemberConforms(v, s, i)
      {
        assert v.members[i] in v.members;
        var found := PropertyOf(s.properties, v.members[i].0);
        assert found.Some? ==> RuleFor(s.properties, v.members[i].0, found.value);
      }
    }
  }

  lemma MembersMean(members: seq<(string, Json)>, key: string)
    ensures HasMember(members, key) <==> exists m :: m in members && m.0 == key
  {
    if HasMember(members, key) {
      var i :| 0 <= i < |members| && members[i].0 == key;
      assert members[i] in members;
    }
  }

  lemma UnknownMeans(members: seq<(string, Json)>, s: Schema)
    ensures HasUnknown(members, s) <==>
              s.closed && exists m :: m in members && PropertyOf(s.properties, m.0).None?
  {
    hide PropertyOf;
    if HasUnknown(members, s) {
      var i :| 0 <= i < |members| && PropertyOf(s.properties, members[i].0).None?;
      assert members[i] in members;
    }
  }

  datatype Keyword = TypeKey | EnumKey | MinimumKey | MaximumKey | LengthKeys | ItemsKey | ObjectKeys

  /** The schema that states only what `s` says under one keyword, and the lengths that hold by default. */
  function Only(s: Schema, k: Keyword): Schema {
    var plain := ANYTHING.(minLength := s.minLength, maxLength := s.maxLength, minItems := s.minItems,
                           maxItems := s.maxItems);
    match k
    case TypeKey => plain.(expected := s.expected)
    case EnumKey => plain.(options := s.options)
    case MinimumKey => plain.(minimum := s.minimum)
    case MaximumKey => plain.(maximum := s.maximum)
    case LengthKeys => plain
    case ItemsKey => plain.(items := s.items)
    case ObjectKeys => plain.(required := s.required, properties := s.properties, closed := s.closed)
  }

  /** Within the lengths, no keyword touches what another one asks: a schema holds exactly if it holds keyword by keyword. */
  lemma KeywordsAreIndependent(v: Json, s: Schema)
    ensures Conforms(v, s) <==> forall k: Keyword :: Conforms(v, Only(s, k))
  {
    hide Conforms, HasAllRequired, MembersConform, ItemsConform, ScalarConforms, TypeMatches, Only;
    ConformsByParts(v, s);
    ScalarKeywords(v, s);
    forall k: Keyword
      ensures Conforms(v, Only(s, k)) <==>
                && ScalarConforms(v, Only(s, k))
                && (k == TypeKey ==> TypeMatches(v, s.expected))
                && (k == ItemsKey && v.JArray? && s.items.Some? ==> ItemsConform(v, s))
                && (k == ObjectKeys && v.JObject? ==> HasAllRequired(v, s) && MembersConform(v, s))
    {
      OneKeyword(v, s, k);
    }
    if Conforms(v, s) {
      assert forall k: Keyword :: Conforms(v, Only(s, k));
    }
    if forall k: Keyword :: Conforms(v, Only(s, k)) {
      assert Conforms(v, Only(s, TypeKey)) && Conforms(v, Only(s, ItemsKey)) && Conforms(v, Only(s, ObjectKeys));
      assert forall k: Keyword :: Conforms(v, Only(s, k)) ==> ScalarConforms(v, Only(s, k));
    }
  }

  lemma OneKeyword(v: Json, s: Schema, k: Keyword)
    ensures Conforms(v, Only(s, k)) <==>
              && ScalarConforms(v, Only(s, k))
              && (k == TypeKey ==> TypeMatches(v, s.expected))
              && (k == ItemsKey && v.JArray? && s.items.Some? ==> ItemsConform(v, s))
              && (k == ObjectKeys && v.JObject? ==> HasAllRequired(v, s) && MembersConform(v, s))
  {
    hide Conforms, HasAllRequired, MembersConform, ItemsConform, ScalarConforms;
    var part := Only(s, k);
    ConformsByParts(v, part);
    if k == ItemsKey && v.JArray? && s.items.Some? {
      SameItems(v, s, part);
    }
    if v.JObject? {
      if k == ObjectKeys {
        SameMembers(v, s, part);
      } else {
        NoMembersAsked(v, part);
      }
    }
  }

  lemma ScalarKeywords(v: Json, s: Schema)
    ensures ScalarConforms(v, s) <==> forall k: Keyword :: ScalarConforms(v, Only(s, k))
  {
    hide Same;
    if forall k: Keyword :: ScalarConforms(v, Only(s, k)) {
      assert ScalarConforms(v, Only(s, EnumKey)) && ScalarConforms(v, Only(s, MinimumKey));
      assert ScalarConforms(v, Only(s, MaximumKey)) && ScalarConforms(v, Only(s, LengthKeys));
    }
  }

  lemma SameItems(v: Json, s: Schema, other: Schema)
    requires v.JArray? && s.items.Some? && other.items == s.items
    ensures ItemsConform(v, s) <==> ItemsConform(v, other)
  {
    hide Conforms;
  }

  lemma SameMembers(v: Json, s: Schema, other: Schema)
    requires v.JObject? && other.required == s.required && other.properties == s.properties && other.closed == s.closed
    ensures HasAllRequired(v, s) <==> HasAllRequired(v, other)
    ensures MembersConform(v, s) <==> MembersConform(v, other)
  {
    hide Conforms, PropertyOf, HasMember;
    assert forall i | 0 <= i < |v.members| :: MemberConforms(v, s, i) <==> MemberConforms(v, other, i);
  }

  lemma NoMembersAsked(v: Json, s: Schema)
    requires v.JObject? && s.required == [] && s.properties == [] && !s.closed
    ensures HasAllRequired(v, s) && MembersConform(v, s)
  {
    hide Conforms;
  }

  /** A number between a maximum and a larger minimum, and outside the options, shows why well-formedness matters. */
  lemma CrossedBoundsViolateTwice(number: int)
    ensures var s := ANYTHING.(options := Some([]), minimum := Some(number as real + 1.0),
                               maximum := Some(number as real - 1.0));
            && !WellFormed(s)
            && Violates(JInt(number), s, NotAnOption) && Violates(JInt(number), s, TooLow)
            && Violates(JInt(number), s, TooHigh)
  {
  }
}
