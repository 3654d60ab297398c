/** The shared query and params schemas of `src/schemas/common.ts`. */
module CommonSchemas {
  import opened Wrappers
  import opened Json
  import opened Zod
  import opened Http

  const SortKeys := ["name", "createdAt", "updatedAt"]
  const Orders := ["asc", "desc"]

  /** The query as an object, `{}` when it is not one. */
  function QueryFields(query: Json): map<string, Json>
  {
    if query.JObj? then query.fields else map[]
  }

  /** A query key that is absent or holds a string. */
  predicate StringOrAbsent(query: Json, key: string)
  {
    key !in QueryFields(query) || QueryFields(query)[key].JStr?
  }

  /** `z.string().transform(Number).default(d)` applied to the query key. */
  function NumberOrDefault(query: Json, key: string, d: int): Json
    requires StringOrAbsent(query, key)
  {
    if key in QueryFields(query) then NumberOfString(QueryFields(query)[key].s) else JNum(d)
  }

  /** `z.enum(options).default(d)` accepts the query key. */
  predicate ChoiceOrAbsent(query: Json, key: string, options: seq<string>)
  {
    key !in QueryFields(query) || (QueryFields(query)[key].JStr? && QueryFields(query)[key].s in options)
  }

  /** `z.string().transform(Number).default(d)`. */
  function NumberField(v: Option<Json>, path: Path, d: int): (r: Parsed<Json>)
    ensures r.Ok? <==> v.None? || v.value.JStr?
    ensures r.Ok? ==> r.value == if v.None? then JNum(d) else NumberOfString(v.value.s)
    ensures Reported(r)
  {
    match String(v, path)
    case Invalid(issues) => Default(v, Invalid(issues), JNum(d))
    case Ok(s) => Default(v, Ok(NumberOfString(s)), JNum(d))
  }

  /**
   * `paginationSchema`: `page` and `limit` are optional strings of the query,
   * turned into numbers; they default to 1 and 10.
   */
  function PaginationSchema(input: RequestParts): (r: Parsed<Validated>)
    ensures r.Ok? <==> input.query.JObj? && StringOrAbsent(input.query, "page") && StringOrAbsent(input.query, "limit")
    ensures r.Ok? ==> r.value == Validated(None, None, Some(JObj(map[
                                   "page" := NumberOrDefault(input.query, "page", 1),
                                   "limit" := NumberOrDefault(input.query, "limit", 10)])))
    ensures Reported(r)
  {
    match Object(Some(input.query), [Key("query")])
    case Invalid(issues) => Invalid(issues)
    case Ok(q) =>
      match Both(NumberField(At(q, "page"), [Key("query"), Key("page")], 1),
                 NumberField(At(q, "limit"), [Key("query"), Key("limit")], 10))
      case Invalid(issues) => Invalid(issues)
      case Ok((page, limit)) => Ok(Validated(None, None, Some(JObj(map["page" := page, "limit" := limit]))))
  }

  /** The value `z.enum(options).default(d)` gives the query key. */
  function ChoiceOrDefault(query: Json, key: string, d: string): string
  {
    if key in QueryFields(query) && QueryFields(query)[key].JStr? then QueryFields(query)[key].s else d
  }

  /** The filter's output: `search` only when given, `sortBy` and `order` always. */
  function FilterJson(query: Json): Json
  {
    var choices := map["sortBy" := JStr(ChoiceOrDefault(query, "sortBy", "createdAt")),
                       "order" := JStr(ChoiceOrDefault(query, "order", "desc"))];
    JObj(if "search" in QueryFields(query) then choices["search" := QueryFields(query)["search"]] else choices)
  }

  /**
   * `filterSchema`: an optional `search` string, `sortBy` one of name,
   * createdAt, updatedAt (default createdAt), `order` asc or desc (default desc).
   */
  function FilterSchema(input: RequestParts): (r: Parsed<Validated>)
    ensures r.Ok? <==>
      && input.query.JObj?
      && StringOrAbsent(input.query, "search")
      && ChoiceOrAbsent(input.query, "sortBy", SortKeys)
      && ChoiceOrAbsent(input.query, "order", Orders)
    ensures r.Ok? ==> r.value == Validated(None, None, Some(FilterJson(input.query)))
    ensures Reported(r)
  {
    match Object(Some(input.query), [Key("query")])
    case Invalid(issues) => Invalid(issues)
    case Ok(q) =>
      var search := Optional(At(q, "search"), String(At(q, "search"), [Key("query"), Key("search")]));
      var sortBy := Default(At(q, "sortBy"), Enum(At(q, "sortBy"), [Key("query"), Key("sortBy")], SortKeys), "createdAt");
      var order := Default(At(q, "order"), Enum(At(q, "order"), [Key("query"), Key("order")], Orders), "desc");
      match Both(search, Both(sortBy, order))
      case Invalid(issues) => Invalid(issues)
      case Ok((s, (b, o))) =>
        var choices := map["sortBy" := JStr(b), "order" := JStr(o)];
        Ok(Validated(None, None, Some(JObj(if s.Some? then choices["search" := JStr(s.value)] else choices))))
  }

  /** `idParamSchema`: the `id` param is a string the UUID check accepts. */
  function IdParamSchema(fmt: Formats, input: RequestParts): (r: Parsed<Validated>)
    ensures r.Ok? <==> StrAt(Some(input.params), "id").Some? && fmt.isUuid(StrAt(Some(input.params), "id").value)
    ensures r.Ok? ==> r.value == Validated(None, Some(JObj(map["id" := input.params.fields["id"]])), None)
    ensures Reported(r)
  {
    match Object(Some(input.params), [Key("params")])
    case Invalid(issues) => Invalid(issues)
    case Ok(p) =>
      match CheckedString(At(p, "id"), [Key("params"), Key("id")], fmt.isUuid, InvalidFormat, "ID должен быть валидным UUID")
      case Invalid(issues) => Invalid(issues)
      case Ok(id) => Ok(Validated(None, Some(JObj(map["id" := JStr(id)])), None))
  }

  /** Absent `page` and `limit` read as 1 and 10. */
  lemma PaginationDefaults(input: RequestParts)
    requires input.query == JObj(map[])
    ensures PaginationSchema(input) == Ok(Validated(None, None, Some(JObj(map["page" := JNum(1), "limit" := JNum(10)]))))
  {
  }
}
