/**
 * The part of zod (version 4) the service's schemas use: issues with a path,
 * string, number and object parsing, optional and default values, enums and
 * the coercion `z.coerce.number()`.  Issues of sibling fields are collected
 * in the order the schema lists the fields; unknown object keys are dropped
 * from the output.  Format checks the library implements with regular
 * expressions (email, URL, UUID) are the abstract predicates of `Formats`.
 */
module Zod {
  import opened Wrappers
  import opened Json
  import Strings

  datatype PathSegment = Key(name: string) | Index(i: nat)

  type Path = seq<PathSegment>

  datatype IssueCode = InvalidType | TooSmall | InvalidFormat | InvalidValue

  datatype Issue = Issue(code: IssueCode, path: Path, message: string)

  /** What parsing yields: the output value, or the issues of a `ZodError`. */
  datatype Parsed<+T> = Ok(value: T) | Invalid(issues: seq<Issue>)

  /** The library's format checks: `z.string().email()`, `.url()`, `.uuid()`. */
  datatype Formats = Formats(isEmail: string -> bool, isUrl: string -> bool, isUuid: string -> bool)

  function IssuesOf<T>(p: Parsed<T>): seq<Issue>
  {
    if p.Ok? then [] else p.issues
  }

  /** A failed parse carries at least one issue. */
  predicate Reported<T>(p: Parsed<T>)
  {
    p.Invalid? ==> |p.issues| > 0
  }

  /** The message of an `invalid_type` issue. */
  function TypeMessage(expected: string, v: Option<Json>): string
  {
    "Invalid input: expected " + expected + ", received " + TypeName(v)
  }

  /** `z.string()`. */
  function String(v: Option<Json>, path: Path): (r: Parsed<string>)
    ensures r.Ok? <==> v.Some? && v.value.JStr?
    ensures r.Ok? ==> r.value == v.value.s
    ensures r.Invalid? ==> r.issues == [Issue(InvalidType, path, TypeMessage("string", v))]
  {
    if v.Some? && v.value.JStr? then Ok(v.value.s)
    else Invalid([Issue(InvalidType, path, TypeMessage("string", v))])
  }

  /** `z.string()` followed by one check: `ok` decides it, a failure is reported with `code` and `message`. */
  function CheckedString(v: Option<Json>, path: Path, ok: string -> bool, code: IssueCode, message: string)
    : (r: Parsed<string>)
    ensures r.Ok? <==> v.Some? && v.value.JStr? && ok(v.value.s)
    ensures r.Ok? ==> r.value == v.value.s
    ensures r.Invalid? ==> r.issues == if v.Some? && v.value.JStr? then [Issue(code, path, message)]
                                       else [Issue(InvalidType, path, TypeMessage("string", v))]
    ensures Reported(r)
  {
    match String(v, path)
    case Invalid(issues) => Invalid(issues)
    case Ok(s) => if ok(s) then Ok(s) else Invalid([Issue(code, path, message)])
  }

  /** `.min(n)`'s own message when the schema gives none. */
  function TooShortMessage(n: nat): string
  {
    "Too small: expected string to have >=" + Strings.DecimalText(n) + " characters"
  }

  /** `z.string().min(n, message)`; the length is JavaScript's, in UTF-16 code units. */
  function MinLength(v: Option<Json>, path: Path, n: nat, message: string): (r: Parsed<string>)
    ensures r.Ok? <==> v.Some? && v.value.JStr? && Strings.JsLength(v.value.s) >= n
    ensures r.Ok? ==> r.value == v.value.s
    ensures r.Invalid? ==> r.issues == if v.Some? && v.value.JStr? then [Issue(TooSmall, path, message)]
                                       else [Issue(InvalidType, path, TypeMessage("string", v))]
    ensures Reported(r)
  {
    CheckedString(v, path, s => Strings.JsLength(s) >= n, TooSmall, message)
  }

  /** `schema.optional()`: `undefined` is accepted and stays `undefined`. */
  function Optional<T>(v: Option<Json>, parsed: Parsed<T>): (r: Parsed<Option<T>>)
    requires Reported(parsed)
    ensures r.Ok? <==> v.None? || parsed.Ok?
    ensures r.Ok? ==> r.value == if v.None? then None else Some(parsed.value)
    ensures Reported(r)
  {
    if v.None? then Ok(None)
    else if parsed.Ok? then Ok(Some(parsed.value))
    else Invalid(parsed.issues)
  }

  /** `schema.default(d)` (zod 4): `undefined` becomes `d` without being parsed. */
  function Default<T>(v: Option<Json>, parsed: Parsed<T>, d: T): (r: Parsed<T>)
    requires Reported(parsed)
    ensures r.Ok? <==> v.None? || parsed.Ok?
    ensures r.Ok? ==> r.value == if v.None? then d else parsed.value
    ensures Reported(r)
  {
    if v.None? then Ok(d) else parsed
  }

  /** The message of a failed `z.enum(options)`. */
  function EnumMessage(options: seq<string>): string
  {
    "Invalid option: expected one of " + Strings.Join(seq(|options|, i requires 0 <= i < |options| => "\"" + options[i] + "\""), '|')
  }

  /** `z.enum(options)`: a string that is one of `options`. */
  function Enum(v: Option<Json>, path: Path, options: seq<string>): (r: Parsed<string>)
    ensures r.Ok? <==> v.Some? && v.value.JStr? && v.value.s in options
    ensures r.Ok? ==> r.value == v.value.s
    ensures Reported(r)
  {
    if v.Some? && v.value.JStr? && v.value.s in options then Ok(v.value.s)
    else Invalid([Issue(InvalidValue, path, EnumMessage(options))])
  }

  /**
   * JavaScript's `Number(s)` on a string.  Exact for a string of digits and for
   * the empty string (which is 0); every other string is taken to be NaN.
   */
  function NumberOfString(s: string): (r: Json)
    ensures r.JNum? || r.JNaN?
    ensures Strings.IsDigits(s) ==> r == JNum(Strings.DecimalValue(s))
  {
    if s == "" then JNum(0)
    else if Strings.IsDigits(s) then JNum(Strings.DecimalValue(s))
    else JNaN
  }

  /**
   * JavaScript's `Number(j)` on a JSON value.  An array goes through its text,
   * the elements joined with commas: the empty array is 0, an array of two or
   * more elements always holds a comma and is NaN, and a one-element array is
   * the number of its element's text (`null` gives "" and so 0, a boolean
   * gives "true" or "false" and so NaN).
   */
  function NumberOf(j: Json): (r: Json)
    ensures r.JNum? || r.JNaN?
    ensures j.JNull? ==> r == JNum(0)
    ensures j.JBool? ==> r == JNum(if j.b then 1 else 0)
    ensures j.JNum? ==> r == j
    ensures j.JStr? && Strings.IsDigits(j.s) ==> r == JNum(Strings.DecimalValue(j.s))
    ensures j.JObj? || j.JNaN? ==> r == JNaN
    ensures j == JArr([]) ==> r == JNum(0)
    ensures j.JArr? && |j.items| >= 2 ==> r == JNaN
    ensures j.JArr? && |j.items| == 1 && j.items[0].JBool? ==> r == JNaN
    ensures j.JArr? && |j.items| == 1 && !j.items[0].JBool? ==> r == NumberOf(j.items[0])
  {
    match j
    case JNull => JNum(0)
    case JBool(b) => JNum(if b then 1 else 0)
    case JNum(n) => JNum(n)
    case JStr(s) => NumberOfString(s)
    case JArr(items) =>
      if |items| == 0 then JNum(0)
      else if |items| >= 2 || items[0].JBool? then JNaN
      else NumberOf(items[0])
    case _ => JNaN
  }

  /** `Number(v)` as `z.coerce.number()` applies it: `undefined` is NaN. */
  function Coerce(v: Option<Json>): (r: Json)
    ensures r.JNum? || r.JNaN?
    ensures v.None? ==> r == JNaN
    ensures v.Some? ==> r == NumberOf(v.value)
  {
    if v.None? then JNaN else NumberOf(v.value)
  }

  /** `z.coerce.number().int().positive(message)`. */
  function PositiveInt(v: Option<Json>, path: Path, message: string): (r: Parsed<int>)
    ensures r.Ok? <==> Coerce(v).JNum? && Coerce(v).n > 0
    ensures r.Ok? ==> r.value == Coerce(v).n
    ensures r.Invalid? ==> r.issues == if Coerce(v).JNum? then [Issue(TooSmall, path, message)]
                                       else [Issue(InvalidType, path, TypeMessage("number", Some(JNaN)))]
    ensures Reported(r)
  {
    match Coerce(v)
    case JNum(n) => if n > 0 then Ok(n) else Invalid([Issue(TooSmall, path, message)])
    case _ => Invalid([Issue(InvalidType, path, TypeMessage("number", Some(JNaN)))])
  }

  /** `z.object({...})` on a value that must be an object; the keys are parsed by the caller. */
  function Object(v: Option<Json>, path: Path): (r: Parsed<map<string, Json>>)
    ensures r.Ok? <==> v.Some? && v.value.JObj?
    ensures r.Ok? ==> r.value == v.value.fields
    ensures Reported(r)
  {
    if v.Some? && v.value.JObj? then Ok(v.value.fields)
    else Invalid([Issue(InvalidType, path, TypeMessage("object", v))])
  }

  /** The value at `key` of a parsed object; absent keys read as `undefined`. */
  function At(fields: map<string, Json>, key: string): Option<Json>
  {
    if key in fields then Some(fields[key]) else None
  }

  /** Two sibling fields: both must parse, and the issues of both are reported in order. */
  function Both<A, B>(a: Parsed<A>, b: Parsed<B>): (r: Parsed<(A, B)>)
    requires Reported(a) && Reported(b)
    ensures r.Ok? <==> a.Ok? && b.Ok?
    ensures r.Ok? ==> r.value == (a.value, b.value)
    ensures r.Invalid? ==> r.issues == IssuesOf(a) + IssuesOf(b)
    ensures Reported(r)
  {
    if a.Ok? && b.Ok? then Ok((a.value, b.value)) else Invalid(IssuesOf(a) + IssuesOf(b))
  }
}
