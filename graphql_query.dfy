/**
  The GET-request descriptor of the SSE server and its conversion into
  the execution engine's `Request`.

  A descriptor carries exactly one of a query body or a subscription body,
  held as one enumerated variant, plus an optional
  operation name, optional JSON variables and optional extensions.
  Converting it prefixes the body with its operation keyword and copies
  the optional fields across; nothing else of the request is touched.
*/
module GraphQLQuery {
  import opened Wrappers

  /** A JSON value; stands for both `serde_json::Value` and the engine's `Value`. */
  datatype JsonValue =
    | Null
    | Bool(b: bool)
    | Number(n: int)
    | Str(s: string)
    | Array(items: seq<JsonValue>)
    | Object(fields: map<string, JsonValue>)

  /** The engine's request variables: a name-to-value mapping. */
  type Variables = map<string, JsonValue>

  /** The operation kind together with its raw body. */
  datatype QueryOrSub = Subscription(body: string) | Query(body: string)

  /** The decoded query-string parameters of `GET /`. */
  datatype GraphQLQuery = GraphQLQuery(
    query: QueryOrSub,
    operationName: Option<string>,
    variables: Option<JsonValue>,
    extensions: Option<map<string, JsonValue>>)

  /**
    The fields of the engine request that the conversion never sets:
    uploaded files, context data, an already parsed document and the
    introspection switch.
  */
  datatype UntouchedFields = UntouchedFields(
    uploads: seq<string>,
    data: map<string, JsonValue>,
    parsedQuery: Option<string>,
    introspectionDisabled: bool)

  const DEFAULT_UNTOUCHED := UntouchedFields([], map[], None, false)

  /** The engine request; `NewRequest` gives every field but the text its default. */
  datatype Request = Request(
    query: string,
    operationName: Option<string>,
    variables: Variables,
    extensions: map<string, JsonValue>,
    untouched: UntouchedFields)

  const QUERY_KEY := "query"
  const SUBSCRIPTION_KEY := "subscription"
  const OPERATION_NAME_KEY := "operationName"
  const VARIABLES_KEY := "variables"
  const EXTENSIONS_KEY := "extensions"

  /** The parameter key of a variant: its name in lower case. */
  function VariantKey(k: QueryOrSub): string
  {
    match k
    case Subscription(_) => SUBSCRIPTION_KEY
    case Query(_) => QUERY_KEY
  }

  /**
    The keys a descriptor occupies in the one flat parameter map: the
    variant's key sits beside the keys of the optional fields that are present.
  */
  function ParamKeys(q: GraphQLQuery): set<string>
  {
    {VariantKey(q.query)}
    + (if q.operationName.Some? then {OPERATION_NAME_KEY} else {})
    + (if q.variables.Some? then {VARIABLES_KEY} else {})
    + (if q.extensions.Some? then {EXTENSIONS_KEY} else {})
  }

  /** True for a one-shot query, false for a subscription; only reports the tag. */
  predicate InQuery(q: GraphQLQuery)
    ensures InQuery(q) <==> !q.query.Subscription?
  {
    q.query.Query?
  }

  // The engine's request builders, each setting one field.

  /** A request for `query` with no operation name, no variables, no extensions and every other field at its default. */
  function NewRequest(query: string): (r: Request)
    ensures r.query == query
    ensures r.operationName.None? && r.variables == map[] && r.extensions == map[]
    ensures r.untouched == DEFAULT_UNTOUCHED
  {
    Request(query, None, map[], map[], DEFAULT_UNTOUCHED)
  }

  /** Sets the operation name and no other field. */
  function WithOperationName(r: Request, name: string): (r': Request)
    ensures r'.operationName == Some(name)
    ensures r'.query == r.query && r'.variables == r.variables
    ensures r'.extensions == r.extensions && r'.untouched == r.untouched
  {
    r.(operationName := Some(name))
  }

  /** Replaces the variables and no other field. */
  function WithVariables(r: Request, variables: Variables): (r': Request)
    ensures r'.variables == variables
    ensures r'.query == r.query && r'.operationName == r.operationName
    ensures r'.extensions == r.extensions && r'.untouched == r.untouched
  {
    r.(variables := variables)
  }

  /** The operation text handed to the engine: keyword, one space, raw body. */
  function OperationText(k: QueryOrSub): (text: string)
    ensures text == VariantKey(k) + " " + k.body
  {
    match k
    case Subscription(body) => "subscription " + body
    case Query(body) => "query " + body
  }

  /**
    The conversion of a descriptor into a request: the operation text, then
    the operation name, the variables (through the engine's `fromJson`) and
    the extensions, each only when present. Every field of the result is
    fixed below; in particular the fields the conversion never sets keep
    their defaults.
  */
  function ToRequest(q: GraphQLQuery, fromJson: JsonValue -> Variables): (r: Request)
    ensures r.query == OperationText(q.query)
    ensures r.operationName == q.operationName
    ensures q.operationName.None? ==> r.operationName == NewRequest(r.query).operationName
    ensures r.variables == if q.variables.Some? then fromJson(q.variables.value) else NewRequest(r.query).variables
    ensures r.extensions == if q.extensions.Some? then q.extensions.value else NewRequest(r.query).extensions
    ensures r.untouched == NewRequest(r.query).untouched
  {
    var request := match q.query
      case Subscription(body) => NewRequest("subscription " + body)
      case Query(body) => NewRequest("query " + body);
    var request := if q.operationName.Some? then WithOperationName(request, q.operationName.value) else request;
    var request := if q.variables.Some? then WithVariables(request, fromJson(q.variables.value)) else request;
    var request := if q.extensions.Some? then request.(extensions := q.extensions.value) else request;
    request
  }

  /** Strips the keyword prefix off an operation text: the inverse of `OperationText`. */
  function ParseOperationText(text: string): Option<QueryOrSub>
  {
    if "query " <= text then Some(Query(text[|"query "|..]))
    else if "subscription " <= text then Some(Subscription(text[|"subscription "|..]))
    else None
  }

  lemma ParseOperationTextRoundTrip(k: QueryOrSub)
    ensures ParseOperationText(OperationText(k)) == Some(k)
  {
    var text := OperationText(k);
    match k
    case Query(body) =>
      assert "query " <= text;
      assert text[|"query "|..] == body;
    case Subscription(body) =>
      assert text[0] == 's';
      assert !("query " <= text);
      assert "subscription " <= text;
      assert text[|"subscription "|..] == body;
  }

  lemma ParseOperationTextSound(text: string, k: QueryOrSub)
    requires ParseOperationText(text) == Some(k)
    ensures OperationText(k) == text
  {
    if "query " <= text {
      assert text == "query " + text[|"query "|..];
    } else {
      assert text == "subscription " + text[|"subscription "|..];
    }
  }

  /** Distinct (kind, body) pairs give distinct operation texts. */
  lemma OperationTextInjective(a: QueryOrSub, b: QueryOrSub)
    ensures OperationText(a) == OperationText(b) <==> a == b
  {
    if OperationText(a) == OperationText(b) {
      ParseOperationTextRoundTrip(a);
      ParseOperationTextRoundTrip(b);
    }
  }

  /** The request text starts with `query ` exactly for queries and `subscription ` exactly for subscriptions. */
  lemma InQueryAgreesWithText(q: GraphQLQuery, fromJson: JsonValue -> Variables)
    ensures InQuery(q) <==> "query " <= ToRequest(q, fromJson).query
    ensures !InQuery(q) <==> "subscription " <= ToRequest(q, fromJson).query
  {
    var text := ToRequest(q, fromJson).query;
    if InQuery(q) {
      assert text[0] == 'q';
      assert !("subscription " <= text);
    } else {
      assert text[0] == 's';
      assert !("query " <= text);
    }
  }

  /**
    The variant key shares the flat parameter map with the optional fields
    without colliding with them: exactly one of `query` and `subscription`
    is present, it is `query` exactly for queries, and each optional key is
    present exactly when its field is.
  */
  lemma ParamKeysFlattened(q: GraphQLQuery)
    ensures InQuery(q) <==> QUERY_KEY in ParamKeys(q)
    ensures !InQuery(q) <==> SUBSCRIPTION_KEY in ParamKeys(q)
    ensures ParamKeys(q) - {VariantKey(q.query)} <= {OPERATION_NAME_KEY, VARIABLES_KEY, EXTENSIONS_KEY}
    ensures q.operationName.Some? <==> OPERATION_NAME_KEY in ParamKeys(q)
    ensures q.variables.Some? <==> VARIABLES_KEY in ParamKeys(q)
    ensures q.extensions.Some? <==> EXTENSIONS_KEY in ParamKeys(q)
  {
  }

  /** The operation keyword in the request text is the descriptor's parameter key. */
  lemma KeywordIsParamKey(q: GraphQLQuery, fromJson: JsonValue -> Variables)
    ensures VariantKey(q.query) in ParamKeys(q)
    ensures VariantKey(q.query) + " " <= ToRequest(q, fromJson).query
  {
  }

  /** Two descriptors lead to the same request text exactly when their kind and body agree. */
  lemma ToRequestTextDeterminesOperation(q1: GraphQLQuery, q2: GraphQLQuery, fromJson: JsonValue -> Variables)
    ensures ToRequest(q1, fromJson).query == ToRequest(q2, fromJson).query <==> q1.query == q2.query
  {
    OperationTextInjective(q1.query, q2.query);
  }
}
