/**
 * The part of zod's object validation that the schemas of this server use, over JSON values.
 *
 * A request body is a JSON object: a map from keys to values, where an absent key is
 * `undefined`. Parsing an object validates every key of its shape and reports every issue it
 * finds; the issues are kept as a set (the order of zod's issue list is not modelled). An
 * issue records where it happened, zod's issue code, and the message the schema supplies for
 * it (`required_error`, an `errorMap`, a refinement message), or `None` where zod's default
 * text applies.
 */
module Validation {
  import opened Common

  datatype Json =
    | Null
    | Bool(b: bool)
    | Number(n: real)
    | String(s: string)
    | Array(items: seq<Json>)
    | Object(fields: map<string, Json>)

  type JsonObject = map<string, Json>

  datatype PathSegment = Key(key: string) | Index(index: nat)

  datatype IssueCode =
    | InvalidType(expected: string, received: string)
    | InvalidString(validation: string)
    | InvalidEnumValue(options: seq<string>, received: string)
    | InvalidUnionDiscriminator(options: seq<string>)
    | InvalidUnion
    | Custom

  datatype Issue = Issue(path: seq<PathSegment>, code: IssueCode, message: Option<string>)

  datatype Result<+T> = Ok(value: T) | Err(issues: set<Issue>)

  function IssuesOf<T>(r: Result<T>): set<Issue> {
    if r.Ok? then {} else r.issues
  }

  /** A failed parse names at least one issue. */
  predicate Reported<T>(r: Result<T>) {
    r.Err? ==> r.issues != {}
  }

  /** zod's name for the type of a parsed JSON value. */
  function TypeName(j: Json): string {
    match j
    case Null => "null"
    case Bool(_) => "boolean"
    case Number(_) => "number"
    case String(_) => "string"
    case Array(_) => "array"
    case Object(_) => "object"
  }

  predicate IsInteger(n: real) {
    n.Floor as real == n
  }

  /** The issue for a required key that is absent: received type "undefined". */
  function MissingIssue(path: seq<PathSegment>, key: string, expected: string, message: Option<string>): Issue {
    Issue(path + [Key(key)], InvalidType(expected, "undefined"), message)
  }

  /** The issue for a present key whose value has the wrong type. */
  function TypeIssue(path: seq<PathSegment>, key: string, expected: string, j: Json): Issue {
    Issue(path + [Key(key)], InvalidType(expected, TypeName(j)), None)
  }

  /** zod's `joinValues`: each option quoted, separated by " | ". */
  function JoinValues(options: seq<string>): string {
    if options == [] then ""
    else if |options| == 1 then "'" + options[0] + "'"
    else "'" + options[0] + "' | " + JoinValues(options[1..])
  }

  /** The string at `key`, when the object has one there. */
  function StringAt(obj: JsonObject, key: string): (r: Option<string>)
    ensures r.Some? <==> key in obj && obj[key].String?
    ensures r.Some? ==> r.value == obj[key].s
  {
    if key in obj && obj[key].String? then Some(obj[key].s) else None
  }

  /** The integer at `key`, when the object has an integral number there. */
  function IntegerAt(obj: JsonObject, key: string): (r: Option<int>)
    ensures r.Some? <==> key in obj && obj[key].Number? && IsInteger(obj[key].n)
    ensures r.Some? ==> r.value as real == obj[key].n
  {
    if key in obj && obj[key].Number? && IsInteger(obj[key].n) then Some(obj[key].n.Floor) else None
  }

  // ---------------------------------------------------------------- field parsers

  /** `key: z.string({ required_error })` */
  function StringField(obj: JsonObject, path: seq<PathSegment>, key: string, requiredMessage: Option<string>): (r: Result<string>)
    ensures r.Ok? <==> key in obj && obj[key].String?
    ensures r.Ok? ==> r.value == obj[key].s
    ensures key !in obj ==> r == Err({MissingIssue(path, key, "string", requiredMessage)})
    ensures Reported(r)
  {
    if key !in obj then Err({MissingIssue(path, key, "string", requiredMessage)})
    else if obj[key].String? then Ok(obj[key].s)
    else Err({TypeIssue(path, key, "string", obj[key])})
  }

  /** `key: z.string().optional()` */
  function OptionalString(obj: JsonObject, path: seq<PathSegment>, key: string): (r: Result<Option<string>>)
    ensures r.Ok? <==> key !in obj || obj[key].String?
    ensures r.Ok? ==> (r.value.Some? <==> key in obj)
    ensures r.Ok? && key in obj ==> r.value.value == obj[key].s
    ensures Reported(r)
  {
    if key !in obj then Ok(None)
    else if obj[key].String? then Ok(Some(obj[key].s))
    else Err({TypeIssue(path, key, "string", obj[key])})
  }

  /** `key: z.string().email()`; the address syntax is the predicate `isEmail`. */
  function EmailField(obj: JsonObject, path: seq<PathSegment>, key: string, isEmail: string -> bool): (r: Result<string>)
    ensures r.Ok? <==> key in obj && obj[key].String? && isEmail(obj[key].s)
    ensures r.Ok? ==> r.value == obj[key].s
    ensures Reported(r)
  {
    if key !in obj then Err({MissingIssue(path, key, "string", None)})
    else if !obj[key].String? then Err({TypeIssue(path, key, "string", obj[key])})
    else if isEmail(obj[key].s) then Ok(obj[key].s)
    else Err({Issue(path + [Key(key)], InvalidString("email"), None)})
  }

  /** `key: z.string().email().optional()` */
  function OptionalEmail(obj: JsonObject, path: seq<PathSegment>, key: string, isEmail: string -> bool): (r: Result<Option<string>>)
    ensures r.Ok? <==> key !in obj || (obj[key].String? && isEmail(obj[key].s))
    ensures r.Ok? ==> (r.value.Some? <==> key in obj)
    ensures r.Ok? && key in obj ==> r.value.value == obj[key].s
    ensures Reported(r)
  {
    if key !in obj then Ok(None)
    else
      var e := EmailField(obj, path, key, isEmail);
      if e.Ok? then Ok(Some(e.value)) else Err(e.issues)
  }

  /** `key: z.boolean().optional()` */
  function OptionalBool(obj: JsonObject, path: seq<PathSegment>, key: string): (r: Result<Option<bool>>)
    ensures r.Ok? <==> key !in obj || obj[key].Bool?
    ensures r.Ok? ==> (r.value.Some? <==> key in obj)
    ensures r.Ok? && key in obj ==> r.value.value == obj[key].b
    ensures Reported(r)
  {
    if key !in obj then Ok(None)
    else if obj[key].Bool? then Ok(Some(obj[key].b))
    else Err({TypeIssue(path, key, "boolean", obj[key])})
  }

  /** `key: z.number().int()`; a JSON number whose value is integral. */
  function IntegerField(obj: JsonObject, path: seq<PathSegment>, key: string): (r: Result<int>)
    ensures r.Ok? <==> key in obj && obj[key].Number? && IsInteger(obj[key].n)
    ensures r.Ok? ==> r.value as real == obj[key].n
    ensures key in obj && obj[key].Number? && !IsInteger(obj[key].n) ==>
      r == Err({Issue(path + [Key(key)], InvalidType("integer", "float"), None)})
    ensures Reported(r)
  {
    if key !in obj then Err({MissingIssue(path, key, "number", None)})
    else if !obj[key].Number? then Err({TypeIssue(path, key, "number", obj[key])})
    else if IsInteger(obj[key].n) then Ok(obj[key].n.Floor)
    else Err({Issue(path + [Key(key)], InvalidType("integer", "float"), None)})
  }

  /** `key: z.number().int().optional()` */
  function OptionalInteger(obj: JsonObject, path: seq<PathSegment>, key: string): (r: Result<Option<int>>)
    ensures r.Ok? <==> key !in obj || (obj[key].Number? && IsInteger(obj[key].n))
    ensures r.Ok? ==> (r.value.Some? <==> key in obj)
    ensures r.Ok? && key in obj ==> r.value.value as real == obj[key].n
    ensures Reported(r)
  {
    if key !in obj then Ok(None)
    else
      var i := IntegerField(obj, path, key);
      if i.Ok? then Ok(Some(i.value)) else Err(i.issues)
  }

  /** `key: z.number()` with `.default(d)`: an absent key takes the default. */
  function NumberOrDefault(obj: JsonObject, path: seq<PathSegment>, key: string, default: real): (r: Result<real>)
    ensures r.Ok? <==> key !in obj || obj[key].Number?
    ensures r.Ok? ==> r.value == if key in obj then obj[key].n else default
    ensures Reported(r)
  {
    if key !in obj then Ok(default)
    else if obj[key].Number? then Ok(obj[key].n)
    else Err({TypeIssue(path, key, "number", obj[key])})
  }

  /** `key: z.string()` with `.default(d)` */
  function StringOrDefault(obj: JsonObject, path: seq<PathSegment>, key: string, default: string): (r: Result<string>)
    ensures r.Ok? <==> key !in obj || obj[key].String?
    ensures r.Ok? ==> r.value == if key in obj then obj[key].s else default
    ensures Reported(r)
  {
    if key !in obj then Ok(default)
    else if obj[key].String? then Ok(obj[key].s)
    else Err({TypeIssue(path, key, "string", obj[key])})
  }

  /** `key: z.string().nullable()`: the key must be present, as a string or as null. */
  function NullableString(obj: JsonObject, path: seq<PathSegment>, key: string): (r: Result<Nullable<string>>)
    ensures r.Ok? <==> key in obj && (obj[key].String? || obj[key].Null?)
    ensures r.Ok? ==> (r.value.NonNull? <==> obj[key].String?)
    ensures r.Ok? && r.value.NonNull? ==> r.value.value == obj[key].s
    ensures Reported(r)
  {
    if key !in obj then Err({MissingIssue(path, key, "string", None)})
    else if obj[key].Null? then Ok(Nullable.Null)
    else if obj[key].String? then Ok(NonNull(obj[key].s))
    else Err({TypeIssue(path, key, "string", obj[key])})
  }

  /** `key: z.string().nullable().optional()` */
  function OptionalNullableString(obj: JsonObject, path: seq<PathSegment>, key: string): (r: Result<Option<Nullable<string>>>)
    ensures r.Ok? <==> key !in obj || obj[key].String? || obj[key].Null?
    ensures r.Ok? ==> (r.value.Some? <==> key in obj)
    ensures r.Ok? && key in obj ==> (r.value.value.NonNull? <==> obj[key].String?)
    ensures r.Ok? && key in obj && obj[key].String? ==> r.value.value.value == obj[key].s
    ensures Reported(r)
  {
    if key !in obj then Ok(None)
    else
      var n := NullableString(obj, path, key);
      if n.Ok? then Ok(Some(n.value)) else Err(n.issues)
  }

  /** `key: z.boolean()` */
  function BoolField(obj: JsonObject, path: seq<PathSegment>, key: string): (r: Result<bool>)
    ensures r.Ok? <==> key in obj && obj[key].Bool?
    ensures r.Ok? ==> r.value == obj[key].b
    ensures Reported(r)
  {
    if key !in obj then Err({MissingIssue(path, key, "boolean", None)})
    else if obj[key].Bool? then Ok(obj[key].b)
    else Err({TypeIssue(path, key, "boolean", obj[key])})
  }

  /** `key: z.enum(options)`: a string that is one of `options`. */
  function EnumField(obj: JsonObject, path: seq<PathSegment>, key: string, options: seq<string>): (r: Result<string>)
    ensures r.Ok? <==> key in obj && obj[key].String? && obj[key].s in options
    ensures r.Ok? ==> r.value == obj[key].s
    ensures Reported(r)
  {
    if key !in obj then Err({MissingIssue(path, key, JoinValues(options), None)})
    else if !obj[key].String? then Err({TypeIssue(path, key, JoinValues(options), obj[key])})
    else if obj[key].s in options then Ok(obj[key].s)
    else Err({Issue(path + [Key(key)], InvalidEnumValue(options, obj[key].s), None)})
  }

  /** `key: z.enum(options).optional()` */
  function OptionalEnum(obj: JsonObject, path: seq<PathSegment>, key: string, options: seq<string>): (r: Result<Option<string>>)
    ensures r.Ok? <==> key !in obj || (obj[key].String? && obj[key].s in options)
    ensures r.Ok? ==> (r.value.Some? <==> key in obj)
    ensures r.Ok? && key in obj ==> r.value.value == obj[key].s
    ensures Reported(r)
  {
    if key !in obj then Ok(None)
    else
      var e := EnumField(obj, path, key, options);
      if e.Ok? then Ok(Some(e.value)) else Err(e.issues)
  }

  /** `z.record(z.string())` applied to one value found at `path`. */
  function StringRecord(j: Json, path: seq<PathSegment>): (r: Result<map<string, string>>)
    ensures r.Ok? <==> j.Object? && forall k :: k in j.fields ==> j.fields[k].String?
    ensures r.Ok? ==> r.value.Keys == j.fields.Keys
    ensures r.Ok? ==> forall k :: k in r.value ==> r.value[k] == j.fields[k].s
    ensures Reported(r)
  {
    if !j.Object? then Err({Issue(path, InvalidType("object", TypeName(j)), None)})
    else
      var badKeys := set k | k in j.fields && !j.fields[k].String?;
      if badKeys == {} then
        assert forall k :: k in j.fields ==> j.fields[k].String? by {
          forall k | k in j.fields ensures j.fields[k].String? {
            assert k !in badKeys;
          }
        }
        Ok(map k | k in j.fields :: j.fields[k].s)
      else
        var bad := set k | k in badKeys :: TypeIssue(path, k, "string", j.fields[k]);
        assert bad != {} by {
          var k :| k in badKeys;
          assert TypeIssue(path, k, "string", j.fields[k]) in bad;
        }
        Err(bad)
  }

  /** `key: z.record(z.string()).optional()` */
  function OptionalStringRecord(obj: JsonObject, path: seq<PathSegment>, key: string): (r: Result<Option<map<string, string>>>)
    ensures r.Ok? <==> key !in obj || StringRecord(obj[key], path + [Key(key)]).Ok?
    ensures r.Ok? ==> (r.value.Some? <==> key in obj)
    ensures r.Ok? && key in obj ==> r.value.value == StringRecord(obj[key], path + [Key(key)]).value
    ensures Reported(r)
  {
    if key !in obj then Ok(None)
    else
      var m := StringRecord(obj[key], path + [Key(key)]);
      if m.Ok? then Ok(Some(m.value)) else Err(m.issues)
  }

  /** `key: z.record(z.any())`: any JSON object. */
  function AnyRecord(obj: JsonObject, path: seq<PathSegment>, key: string): (r: Result<JsonObject>)
    ensures r.Ok? <==> key in obj && obj[key].Object?
    ensures r.Ok? ==> r.value == obj[key].fields
    ensures Reported(r)
  {
    if key !in obj then Err({MissingIssue(path, key, "object", None)})
    else if obj[key].Object? then Ok(obj[key].fields)
    else Err({TypeIssue(path, key, "object", obj[key])})
  }

  /** `key: z.record(z.any()).optional()` */
  function OptionalAnyRecord(obj: JsonObject, path: seq<PathSegment>, key: string): (r: Result<Option<JsonObject>>)
    ensures r.Ok? <==> key !in obj || obj[key].Object?
    ensures r.Ok? ==> (r.value.Some? <==> key in obj)
    ensures r.Ok? && key in obj ==> r.value.value == obj[key].fields
    ensures Reported(r)
  {
    if key !in obj then Ok(None)
    else if obj[key].Object? then Ok(Some(obj[key].fields))
    else Err({TypeIssue(path, key, "object", obj[key])})
  }

  /**
   * `z.array(item)` applied to `items`, the array found at `path`; element `i` is checked at
   * `path + [Index(from + i)]` and every element's issues are reported.
   */
  function ArrayOf<T>(items: seq<Json>, path: seq<PathSegment>, from: nat, item: (Json, seq<PathSegment>) -> Result<T>): (r: Result<seq<T>>)
    requires forall j, p :: Reported(item(j, p))
    ensures r.Ok? <==> forall i :: 0 <= i < |items| ==> item(items[i], path + [Index(from + i)]).Ok?
    ensures r.Ok? ==> |r.value| == |items|
    ensures r.Ok? ==> forall i :: 0 <= i < |items| ==> r.value[i] == item(items[i], path + [Index(from + i)]).value
    ensures Reported(r)
    decreases |items|
  {
    if items == [] then Ok([])
    else
      var head := item(items[0], path + [Index(from)]);
      var tail := ArrayOf(items[1..], path, from + 1, item);
      assert forall i :: 1 <= i < |items| ==> items[1..][i - 1] == items[i] && from + 1 + (i - 1) == from + i;
      if head.Ok? && tail.Ok? then Ok([head.value] + tail.value)
      else Err(IssuesOf(head) + IssuesOf(tail))
  }

  /** `key: z.array(item).optional()` */
  function OptionalArray<T>(obj: JsonObject, path: seq<PathSegment>, key: string, item: (Json, seq<PathSegment>) -> Result<T>): (r: Result<Option<seq<T>>>)
    requires forall j, p :: Reported(item(j, p))
    ensures r.Ok? <==> key !in obj || (obj[key].Array? && ArrayOf(obj[key].items, path + [Key(key)], 0, item).Ok?)
    ensures r.Ok? ==> (r.value.Some? <==> key in obj)
    ensures r.Ok? && key in obj ==> r.value.value == ArrayOf(obj[key].items, path + [Key(key)], 0, item).value
    ensures Reported(r)
  {
    if key !in obj then Ok(None)
    else if !obj[key].Array? then Err({TypeIssue(path, key, "array", obj[key])})
    else
      var a := ArrayOf(obj[key].items, path + [Key(key)], 0, item);
      if a.Ok? then Ok(Some(a.value)) else Err(a.issues)
  }

  // ---------------------------------------------------------------- writing values back

  function StringJson(o: Option<string>): Option<Json> {
    match o
    case Some(s) => Some(String(s))
    case None => None
  }

  function StringMapJson(m: map<string, string>): Json {
    Object(map k | k in m :: String(m[k]))
  }

  lemma StringMapRoundTrip(m: map<string, string>, path: seq<PathSegment>)
    ensures StringRecord(StringMapJson(m), path) == Ok(m)
  {
    var j := StringMapJson(m);
    var r := StringRecord(j, path);
    assert r.Ok?;
    assert r.value == m;
  }
}
