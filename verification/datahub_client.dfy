/** `DataHubClient`: the GraphQL client of the DataHub metadata service. The HTTP POST,
    `raise_for_status` and `response.json()` are not modelled: a `Poster` stands for
    them, taking the request and the attempt number (see `Retry`) and giving back the
    decoded response body or the exception `httpx` raised. */
module DataHub {
  import opened Wrappers
  import opened Text
  import opened Json
  import opened Retry

  type Headers = seq<(string, string)>

  datatype GraphqlRequest = GraphqlRequest(url: string, body: Json, headers: Headers)

  type Poster = (GraphqlRequest, nat) -> Result<Json, Exception>

  /** The first line of each query document; the selection sets are not modelled. */
  const DatasetQuery := "query getDataset($urn: String!)"
  const SearchQuery := "query searchDatasets($input: SearchInput!)"

  /** `gms_url.rstrip("/")`. */
  function NormalisedUrl(url: string): string {
    RStripChar(url, '/')
  }

  /** A token is sent when it is present and non-empty. */
  predicate TokenGiven(token: Option<string>) {
    token.Some? && token.value != ""
  }

  /** `_build_headers`: the JSON content type and the Rest.li protocol version, then the
      bearer token when there is one. */
  function BuildHeaders(token: Option<string>): Headers {
    var headers := [("Content-Type", "application/json"), ("X-RestLi-Protocol-Version", "2.0.0")];
    if TokenGiven(token) then headers + [("Authorization", "Bearer " + token.value)] else headers
  }

  /** The value of header `name`, if set. */
  function HeaderValue(headers: Headers, name: string): Option<string> {
    if headers == [] then None
    else if headers[0].0 == name then Some(headers[0].1)
    else HeaderValue(headers[1..], name)
  }

  function Endpoint(gmsUrl: string): string {
    gmsUrl + "/api/graphql"
  }

  /** The JSON body: the query and the variables, `{}` when they are `None` or empty. */
  function GraphqlBody(query: string, variables: Json): Json {
    JObj([("query", JStr(query)), ("variables", if Truthy(variables) then variables else JObj([]))])
  }

  /** `query_graphql` under its retry wrapper. */
  function QueryResult(gmsUrl: string, headers: Headers, post: Poster, query: string, variables: Json): Result<Json, Exception> {
    var request := GraphqlRequest(Endpoint(gmsUrl), GraphqlBody(query, variables), headers);
    Retried(k => post(request, k))
  }

  /** What `get_dataset_schema` returns for `urn`. */
  function DatasetSchema(gmsUrl: string, headers: Headers, post: Poster, urn: string): Result<Json, Exception> {
    var result :- QueryResult(gmsUrl, headers, post, DatasetQuery, JObj([("urn", JStr(urn))]));
    DatasetOf(result)
  }

  /** `get_dataset_schema` of a client with this URL and these headers, bound to the
      server it posts to. */
  function SchemaSource(gmsUrl: string, headers: Headers, post: Poster): string -> Result<Json, Exception> {
    urn => DatasetSchema(gmsUrl, headers, post, urn)
  }

  /** `result.get("data", {}).get("dataset", {})`. */
  function DatasetOf(result: Json): Result<Json, Exception> {
    var data :- Get(result, "data", JObj([]));
    Get(data, "dataset", JObj([]))
  }

  /** The variables of `list_datasets`: a search over all datasets from the first one,
      at most `limit` of them, filtered by platform when one is given. */
  function ListVariables(platform: Json, limit: int): Json {
    JObj([("input", JObj(if Truthy(platform) then SearchInput(limit) + PlatformFilter(platform) else SearchInput(limit)))])
  }

  function SearchInput(limit: int): seq<(string, Json)> {
    [("type", JStr("DATASET")), ("query", JStr("*")), ("start", JNum("0")), ("count", JNum(IntToString(limit)))]
  }

  function PlatformFilter(platform: Json): seq<(string, Json)> {
    [("filters", JArr([JObj([("field", JStr("platform")), ("value", platform)])]))]
  }

  /** `[item["entity"] for item in search_results]`. */
  function Entities(items: seq<Json>): (r: Result<seq<Json>, Exception>)
    ensures r.Ok? ==> |r.value| == |items|
  {
    if items == [] then Ok([])
    else
      var entity :- Index(items[0], "entity");
      var rest :- Entities(items[1..]);
      Ok([entity] + rest)
  }

  /** The projection of `list_datasets`. */
  function EntitiesOf(result: Json): Result<seq<Json>, Exception> {
    var data :- Get(result, "data", JObj([]));
    var search :- Get(data, "search", JObj([]));
    var searchResults :- Get(search, "searchResults", JArr([]));
    var items :- Iterate(searchResults);
    Entities(items)
  }

  class DataHubClient {
    const gmsUrl: string
    const gmsToken: Option<string>
    const headers: Headers

    constructor(gmsUrl: string, gmsToken: Option<string>)
      ensures this.gmsUrl == NormalisedUrl(gmsUrl) && this.gmsToken == gmsToken
      ensures headers == BuildHeaders(gmsToken)
    {
      this.gmsUrl := NormalisedUrl(gmsUrl);
      this.gmsToken := gmsToken;
      this.headers := BuildHeaders(gmsToken);
    }

    method QueryGraphql(query: string, variables: Json, post: Poster) returns (r: Result<Json, Exception>)
      ensures r == QueryResult(gmsUrl, headers, post, query, variables)
    {
      var request := GraphqlRequest(Endpoint(gmsUrl), GraphqlBody(query, variables), headers);
      r := Retried(k => post(request, k));
    }

    /** `get_dataset_schema`. */
    method GetDatasetSchema(urn: string, post: Poster) returns (r: Result<Json, Exception>)
      ensures r == DatasetSchema(gmsUrl, headers, post, urn)
    {
      var result := QueryGraphql(DatasetQuery, JObj([("urn", JStr(urn))]), post);
      if result.Err? {
        return Err(result.error);
      }
      r := DatasetOf(result.value);
    }

    /** `list_datasets`. */
    method ListDatasets(platform: Json, limit: int, post: Poster) returns (r: Result<seq<Json>, Exception>)
      ensures var q := QueryResult(gmsUrl, headers, post, SearchQuery, ListVariables(platform, limit));
        r == if q.Err? then Err(q.error) else EntitiesOf(q.value)
    {
      var result := QueryGraphql(SearchQuery, ListVariables(platform, limit), post);
      if result.Err? {
        return Err(result.error);
      }
      r := EntitiesOf(result.value);
    }

    /** The writers are stubs that only log, and report success. */
    method UpdateColumnDescription(datasetUrn: string, fieldPath: Json, description: Json) returns (ok: bool)
      ensures ok
    {
      ok := true;
    }

    method AddTagToColumn(datasetUrn: string, fieldPath: string, tagUrn: string) returns (ok: bool)
      ensures ok
    {
      ok := true;
    }
  }

  /** The stored URL has no trailing `/`, differs from the given one only by the `/`
      characters removed from its end, and is left alone by a second normalisation. */
  lemma UrlNormalised(url: string)
    ensures var u := NormalisedUrl(url);
      (u == [] || u[|u| - 1] != '/')
      && url[..|u|] == u && (forall i :: |u| <= i < |url| ==> url[i] == '/')
      && NormalisedUrl(u) == u
  {
  }

  /** The headers always hold the content type and the protocol version; they hold
      `Authorization: Bearer <token>` exactly when a non-empty token was given, and
      nothing else. */
  lemma HeadersMeaning(token: Option<string>)
    ensures var h := BuildHeaders(token);
      HeaderValue(h, "Content-Type") == Some("application/json")
      && HeaderValue(h, "X-RestLi-Protocol-Version") == Some("2.0.0")
      && (TokenGiven(token) ==> HeaderValue(h, "Authorization") == Some("Bearer " + token.value))
      && (!TokenGiven(token) ==> HeaderValue(h, "Authorization") == None)
      && |h| == if TokenGiven(token) then 3 else 2
  {
    var base := [("Content-Type", "application/json"), ("X-RestLi-Protocol-Version", "2.0.0")];
    assert |"Content-Type"| != |"Authorization"| && |"X-RestLi-Protocol-Version"| != |"Authorization"|;
    if TokenGiven(token) {
      var h := base + [("Authorization", "Bearer " + token.value)];
      assert h[1..][1..] == [("Authorization", "Bearer " + token.value)];
      assert HeaderValue(h[1..][1..], "Authorization") == Some("Bearer " + token.value);
    } else {
      assert base[1..][1..] == [];
    }
  }

  /** The request goes to `<gms_url>/api/graphql` with the stored headers, and sends the
      query with the variables, or `{}` when there are none. */
  lemma RequestShape(gmsUrl: string, query: string, variables: Json)
    ensures EndsWithGraphql(Endpoint(gmsUrl)) && Endpoint(gmsUrl)[..|gmsUrl|] == gmsUrl
    ensures var body := GraphqlBody(query, variables);
      Lookup(body.members, "query") == Some(JStr(query))
      && (Truthy(variables) ==> Lookup(body.members, "variables") == Some(variables))
      && (!Truthy(variables) ==> Lookup(body.members, "variables") == Some(JObj([])))
      && Truthy(Lookup(body.members, "variables").value) == Truthy(variables)
  {
    assert Endpoint(gmsUrl)[|gmsUrl|..] == "/api/graphql";
  }

  predicate EndsWithGraphql(url: string) {
    |url| >= 12 && url[|url| - 12..] == "/api/graphql"
  }

  /** The search input asks for datasets matching `*` from the first, `limit` of them,
      and carries a platform filter exactly when a non-empty platform is given. */
  lemma ListVariablesMeaning(platform: Json, limit: int)
    ensures var v := ListVariables(platform, limit);
      v.JObj? && HasKey(v, "input")
      && var input := Lookup(v.members, "input").value;
      input.JObj?
      && Lookup(input.members, "type") == Some(JStr("DATASET"))
      && Lookup(input.members, "query") == Some(JStr("*"))
      && Lookup(input.members, "start") == Some(JNum("0"))
      && Lookup(input.members, "count").Some? && Lookup(input.members, "count").value.JNum?
      && ParseInt(Lookup(input.members, "count").value.repr) == Some(limit)
      && (HasKey(input, "filters") <==> Truthy(platform))
      && (Truthy(platform) ==> Lookup(input.members, "filters") == Some(JArr([JObj([("field", JStr("platform")), ("value", platform)])])))
  {
    SearchInputLookups(limit);
    if Truthy(platform) {
      var input, filters := SearchInput(limit), PlatformFilter(platform);
      LookupAppend(input, filters, "type");
      LookupAppend(input, filters, "query");
      LookupAppend(input, filters, "start");
      LookupAppend(input, filters, "count");
      LookupAppend(input, filters, "filters");
    }
  }

  lemma SearchInputLookups(limit: int)
    ensures var input := SearchInput(limit);
      Lookup(input, "type") == Some(JStr("DATASET"))
      && Lookup(input, "query") == Some(JStr("*"))
      && Lookup(input, "start") == Some(JNum("0"))
      && Lookup(input, "count") == Some(JNum(IntToString(limit)))
      && ParseInt(IntToString(limit)) == Some(limit)
      && Lookup(input, "filters") == None
  {
    var input := SearchInput(limit);
    IntToStringRoundTrip(limit);
    SearchTailLookups(limit);
    LookupSkip(input, "query");
    LookupSkip(input, "start");
    LookupSkip(input, "count");
    LookupSkip(input, "filters");
    LookupFirst(input[1..], "type", JStr("DATASET"));
  }

  lemma SearchTailLookups(limit: int)
    ensures var t := SearchInput(limit)[1..];
      Lookup(t, "query") == Some(JStr("*"))
      && Lookup(t, "start") == Some(JNum("0"))
      && Lookup(t, "count") == Some(JNum(IntToString(limit)))
      && Lookup(t, "filters") == None
  {
    var t := SearchInput(limit)[1..];
    var count := [("count", JNum(IntToString(limit)))];
    assert t == [("query", JStr("*")), ("start", JNum("0"))] + count;
    assert "query"[0] != "start"[0] && "query"[0] != "count"[0] && "start"[0] != "count"[0];
    assert t[1..][1..] == count && count[1..] == [];
    LookupFirst(t[1..], "query", JStr("*"));
    LookupSkip(t, "start");
    LookupSkip(t, "count");
    LookupSkip(t, "filters");
    LookupFirst(t[1..][1..], "start", JNum("0"));
    LookupSkip(t[1..], "count");
    LookupSkip(t[1..], "filters");
    LookupFirst([], "count", JNum(IntToString(limit)));
    LookupSkip(count, "filters");
  }

  /** `get_dataset_schema` answers `data.dataset`, or `{}` when the response lacks
      either key; a response, or a `data`, that is not an object raises
      `AttributeError` (`null` included). */
  lemma DatasetOfMeaning(result: Json)
    ensures result.JObj? && !HasKey(result, "data") ==> DatasetOf(result) == Ok(JObj([]))
    ensures HasKey(result, "data") && Lookup(result.members, "data").value.JObj? ==>
      var data := Lookup(result.members, "data").value;
      DatasetOf(result) == Ok(if HasKey(data, "dataset") then Lookup(data.members, "dataset").value else JObj([]))
    ensures !result.JObj? ==> DatasetOf(result).Err? && DatasetOf(result).error.AttributeError?
    ensures HasKey(result, "data") && !Lookup(result.members, "data").value.JObj? ==>
      DatasetOf(result).Err? && DatasetOf(result).error.AttributeError?
  {
  }

  /** The entities, in order, when every search result has one; `KeyError` at the first
      that has none. */
  lemma {:induction false} EntitiesMeaning(items: seq<Json>)
    ensures Entities(items).Ok? <==> forall i :: 0 <= i < |items| ==> HasKey(items[i], "entity")
    ensures Entities(items).Ok? ==> forall i :: 0 <= i < |items| ==> Entities(items).value[i] == Lookup(items[i].members, "entity").value
  {
    if items != [] {
      EntitiesMeaning(items[1..]);
      assert forall i :: 1 <= i < |items| ==> items[i] == items[1..][i - 1];
    }
  }

  /** `list_datasets` answers nothing when the response lacks `data`, `search` or
      `searchResults`. */
  lemma MissingSearchResults(result: Json)
    requires result.JObj?
    requires !HasKey(result, "data")
      || (var data := Lookup(result.members, "data").value;
          data.JObj? && (!HasKey(data, "search")
            || (var search := Lookup(data.members, "search").value;
                search.JObj? && !HasKey(search, "searchResults"))))
    ensures EntitiesOf(result) == Ok([])
  {
  }
}
