/**
  The discovery-engine `DataStoreClient`: each method builds one fixed request
  from its path parameters, hands it to the authenticated client, and then
  classifies what comes back in a fixed order — client failure, then HTTP error
  status, then JSON decoding, then success.
 */
module DiscoveryEngine {
  import opened Wrappers
  import Http
  import Text

  const Host := "https://discoveryengine.googleapis.com"

  /** The location every endpoint hard-wires. */
  const Location := "global"

  /** The engine that search and answer always address. */
  const AppId := "moni-demo-final_1722720080773"

  datatype Error =
    | ClientError(cause: Http.ClientError)
    | HttpStatus(status: nat)
    | DataStoreError
    | ResponseJsonParsing(reason: string)
    | ResponseTextRetrieval(reason: string)

  /** A long-running operation as the service returns it. */
  datatype Metadata = Metadata(atType: string, additional: map<string, string>)
  datatype Operation = Operation(name: string, metadata: Option<Metadata>, done: bool,
                                 response: Option<map<string, string>>)

  /** Requests; the schema-shaped parts the code only forwards are type parameters. */
  datatype CreateDataStoreRequest<S> = CreateDataStoreRequest(
    dataStore: S, projectId: string, collections: string, dataStoreId: string,
    createAdvanceSiteSearch: Option<bool>)

  datatype SetupDataConnectorRequest<C> = SetupDataConnectorRequest(
    projectId: string, collectionId: string, collectionDisplayName: string, dataConnector: C)

  datatype DeleteDataStoreRequest = DeleteDataStoreRequest(
    collections: string, projectId: string, dataStoreId: string)

  datatype GetDataStoreRequest = GetDataStoreRequest(
    collections: string, projectId: string, dataStoreId: string)

  datatype SearchChunksRequest<Spec> = SearchChunksRequest(
    projectId: string, collections: string, dataStoreId: string, servingConfig: string,
    query: string, pageSize: Option<int>, pageToken: Option<string>, offset: Option<int>,
    filter: Option<string>, orderBy: Option<string>, contentSearchSpec: Spec)

  datatype SearchRequest<Q> = SearchRequest(projectId: string, discoveryEngineSearchRequest: Q)

  datatype AnswerRequest<Q> = AnswerRequest(projectId: string, discoveryEngineAnswerRequest: Q)

  // ---------------------------------------------------------------------------
  // Outcome classification

  /** The status was checked and is acceptable, so the body is decoded. */
  predicate StatusAccepted(o: Http.Exchange) {
    o.Received? && !Http.IsErrorStatus(o.response.status)
  }

  /**
    What a result tells about the exchange behind it, case by case, in both
    directions: a client error exactly when the client failed, an HTTP status
    error exactly when a response came back with an error status, a parsing
    error exactly when an accepted body does not decode, and a value exactly
    when it does — in which case the value is the decoded body.
   */
  ghost predicate Reports<T>(o: Http.Exchange, decode: string -> Result<T, string>,
                             r: Result<T, Error>)
  {
    && (o.Failed? <==> r.Err? && r.error.ClientError?)
    && (o.Failed? ==> r.error.cause == o.error)
    && (o.Received? && Http.IsErrorStatus(o.response.status) <==> r.Err? && r.error.HttpStatus?)
    && (r.Err? && r.error.HttpStatus? ==> r.error.status == o.response.status)
    && (StatusAccepted(o) && decode(o.response.body).Err? <==>
        r.Err? && r.error.ResponseJsonParsing?)
    && (r.Err? && r.error.ResponseJsonParsing? ==>
        r.error.reason == decode(o.response.body).error)
    && (r.Ok? <==> StatusAccepted(o) && decode(o.response.body).Ok?)
    && (r.Ok? ==> decode(o.response.body) == Ok(r.value))
  }

  /** The `map_err(ClientError)? / error_for_status / map_err(HttpStatus)? / json()` chain. */
  function Classify<T>(o: Http.Exchange, decode: string -> Result<T, string>): (r: Result<T, Error>)
    ensures Reports(o, decode, r)
  {
    match o
    case Failed(e) => Err(ClientError(e))
    case Received(resp) =>
      if Http.IsErrorStatus(resp.status) then Err(HttpStatus(resp.status))
      else match decode(resp.body)
        case Err(why) => Err(ResponseJsonParsing(why))
        case Ok(v) => Ok(v)
  }

  /** Reports leaves no freedom: at most one result fits an exchange. */
  lemma ReportsIsFunctional<T>(o: Http.Exchange, decode: string -> Result<T, string>,
                               r1: Result<T, Error>, r2: Result<T, Error>)
    requires Reports(o, decode, r1) && Reports(o, decode, r2)
    ensures r1 == r2
  {
    if r1.Err? && r2.Err? {
      match r1.error
      case ClientError(_) =>
      case HttpStatus(_) =>
      case ResponseJsonParsing(_) =>
      case DataStoreError =>
      case ResponseTextRetrieval(_) =>
    }
  }

  /**
    Decoding is attempted only after an accepted status: on a client failure or
    an error status the result is the same whatever the decoder, and on a
    client failure it does not depend on any response either.
   */
  lemma DecodeOnlyAfterAcceptedStatus<T>(o: Http.Exchange, d1: string -> Result<T, string>,
                                         d2: string -> Result<T, string>)
    requires !StatusAccepted(o)
    ensures Classify(o, d1) == Classify(o, d2)
    ensures o.Failed? ==> Classify(o, d1) == Err(ClientError(o.error))
  {
  }

  // ---------------------------------------------------------------------------
  // Endpoint URLs. Each `format!` template is written as its path segments,
  // joined with '/' after the host: the same text, in a form that can be read back.

  function PathUrl(segments: seq<string>): string {
    Host + "/" + Text.Join(segments, "/")
  }

  function CreateDataStorePath(projectId: string, collections: string): seq<string> {
    ["v1beta", "projects", projectId, "locations", Location, "collections", collections, "dataStores"]
  }

  function SetupDataConnectorPath(projectId: string): seq<string> {
    ["v1", "projects", projectId, "locations", Location, "global:setUpDataConnector"]
  }

  function DeleteDataStorePath(projectId: string, collections: string, dataStoreId: string): seq<string> {
    ["v1", "projects", projectId, "locations", Location, "collections", collections, "dataStores",
     dataStoreId]
  }

  function GetDataStorePath(projectId: string, collections: string): seq<string> {
    ["v1", "projects", projectId, "locations", Location, "collections", collections, "dataStores"]
  }

  function SearchChunksPath(projectId: string, collections: string, dataStoreId: string): seq<string> {
    ["v1alpha", "projects", projectId, "locations", Location, "collections", collections, "dataStores",
     dataStoreId, "servingConfigs", "default_search:search"]
  }

  /** The serving config that search and answer share, as a resource name. */
  function ServingConfigPath(projectId: string): seq<string> {
    ["projects", projectId, "locations", Location, "collections", "default_collection",
     "engines", AppId, "servingConfigs", "default_serving_config"]
  }

  function ServingConfig(projectId: string): string {
    Text.Join(ServingConfigPath(projectId), "/")
  }

  function CreateDataStoreUrl(projectId: string, collections: string): string {
    PathUrl(CreateDataStorePath(projectId, collections))
  }

  function SetupDataConnectorUrl(projectId: string): string {
    PathUrl(SetupDataConnectorPath(projectId))
  }

  function DeleteDataStoreUrl(projectId: string, collections: string, dataStoreId: string): string {
    PathUrl(DeleteDataStorePath(projectId, collections, dataStoreId))
  }

  function GetDataStoreUrl(projectId: string, collections: string): string {
    PathUrl(GetDataStorePath(projectId, collections))
  }

  function SearchChunksUrl(projectId: string, collections: string, dataStoreId: string): string {
    PathUrl(SearchChunksPath(projectId, collections, dataStoreId))
  }

  function SearchUrl(projectId: string): string {
    Host + "/v1beta/" + ServingConfig(projectId) + ":search"
  }

  function AnswerUrl(projectId: string): string {
    Host + "/v1beta/" + ServingConfig(projectId) + ":answer"
  }

  /** Rust's `bool::to_string`. */
  function BoolText(b: bool): string {
    if b then "true" else "false"
  }

  // ---------------------------------------------------------------------------
  // The request each method hands to the client

  function CreateDataStoreCall<S>(req: CreateDataStoreRequest<S>): Http.ApiCall<S> {
    var advanced := req.createAdvanceSiteSearch.GetOr(false);
    Http.ApiCall(Http.Post, [Http.BaseScope], CreateDataStoreUrl(req.projectId, req.collections),
                 [("dataStoreId", req.dataStoreId), ("createAdvancedSiteSearch", BoolText(advanced))],
                 Some(req.dataStore))
  }

  function SetupDataConnectorCall<C>(req: SetupDataConnectorRequest<C>)
    : Http.ApiCall<SetupDataConnectorRequest<C>>
  {
    Http.ApiCall(Http.Post, [Http.BaseScope], SetupDataConnectorUrl(req.projectId), [], Some(req))
  }

  function DeleteDataStoreCall(req: DeleteDataStoreRequest): Http.ApiCall<Http.NoBody> {
    Http.ApiCall(Http.Delete, [Http.BaseScope],
                 DeleteDataStoreUrl(req.projectId, req.collections, req.dataStoreId), [], None)
  }

  function GetDataStoreCall(req: GetDataStoreRequest): Http.ApiCall<Http.NoBody> {
    Http.ApiCall(Http.Get, [Http.BaseScope], GetDataStoreUrl(req.projectId, req.collections),
                 [("data_store_id", req.dataStoreId)], None)
  }

  function SearchChunksCall<Spec>(req: SearchChunksRequest<Spec>): Http.ApiCall<Http.NoBody> {
    Http.ApiCall(Http.Get, [Http.BaseScope],
                 SearchChunksUrl(req.projectId, req.collections, req.dataStoreId), [], None)
  }

  function SearchCall<Q>(req: SearchRequest<Q>): Http.ApiCall<Q> {
    Http.ApiCall(Http.Post, [Http.BaseScope], SearchUrl(req.projectId), [],
                 Some(req.discoveryEngineSearchRequest))
  }

  function AnswerCall<Q>(req: AnswerRequest<Q>): Http.ApiCall<Q> {
    Http.ApiCall(Http.Post, [Http.BaseScope], AnswerUrl(req.projectId), [],
                 Some(req.discoveryEngineAnswerRequest))
  }

  // ---------------------------------------------------------------------------
  // The methods: one call, then the ordered classification

  /** `urlParses` stands for `Url::parse_with_params`, whose result is unwrapped. */
  function CreateDataStore<S>(req: CreateDataStoreRequest<S>, urlParses: string -> bool,
                              send: Http.ApiCall<S> -> Http.Exchange,
                              decode: string -> Result<Operation, string>): (r: Result<Operation, Error>)
    requires urlParses(CreateDataStoreUrl(req.projectId, req.collections))
    ensures Reports(send(CreateDataStoreCall(req)), decode, r)
  {
    Classify(send(CreateDataStoreCall(req)), decode)
  }

  /** `urlParses` stands for `Url::parse`, whose result is unwrapped. */
  function SetupDataConnector<C, R>(req: SetupDataConnectorRequest<C>, urlParses: string -> bool,
                                    send: Http.ApiCall<SetupDataConnectorRequest<C>> -> Http.Exchange,
                                    decode: string -> Result<R, string>): (r: Result<R, Error>)
    requires urlParses(SetupDataConnectorUrl(req.projectId))
    ensures Reports(send(SetupDataConnectorCall(req)), decode, r)
  {
    Classify(send(SetupDataConnectorCall(req)), decode)
  }

  function DeleteDataStore(req: DeleteDataStoreRequest, send: Http.ApiCall<Http.NoBody> -> Http.Exchange,
                           decode: string -> Result<Operation, string>): (r: Result<Operation, Error>)
    ensures Reports(send(DeleteDataStoreCall(req)), decode, r)
  {
    Classify(send(DeleteDataStoreCall(req)), decode)
  }

  function GetDataStore<D>(req: GetDataStoreRequest, send: Http.ApiCall<Http.NoBody> -> Http.Exchange,
                           decode: string -> Result<D, string>): (r: Result<D, Error>)
    ensures Reports(send(GetDataStoreCall(req)), decode, r)
  {
    Classify(send(GetDataStoreCall(req)), decode)
  }

  function SearchChunks<Spec, R>(req: SearchChunksRequest<Spec>,
                                 send: Http.ApiCall<Http.NoBody> -> Http.Exchange,
                                 decode: string -> Result<R, string>): (r: Result<R, Error>)
    ensures Reports(send(SearchChunksCall(req)), decode, r)
  {
    Classify(send(SearchChunksCall(req)), decode)
  }

  function Search<Q, R>(req: SearchRequest<Q>, send: Http.ApiCall<Q> -> Http.Exchange,
                        decode: string -> Result<R, string>): (r: Result<R, Error>)
    ensures Reports(send(SearchCall(req)), decode, r)
  {
    Classify(send(SearchCall(req)), decode)
  }

  function Answer<Q, R>(req: AnswerRequest<Q>, send: Http.ApiCall<Q> -> Http.Exchange,
                        decode: string -> Result<R, string>): (r: Result<R, Error>)
    ensures Reports(send(AnswerCall(req)), decode, r)
  {
    Classify(send(AnswerCall(req)), decode)
  }

  // ---------------------------------------------------------------------------
  // What the requests are

  /**
    Create posts the data store to the collection's data-store URL with exactly
    two query pairs, id first; the flag reads "true" exactly when the option is
    `Some(true)` and "false" otherwise, absence included.
   */
  lemma CreateDataStoreRequestShape<S>(req: CreateDataStoreRequest<S>)
    ensures var call := CreateDataStoreCall(req);
      && call.verb == Http.Post && call.scopes == [Http.BaseScope]
      && call.url == CreateDataStoreUrl(req.projectId, req.collections)
      && call.body == Some(req.dataStore)
      && |call.query| == 2
      && call.query[0] == ("dataStoreId", req.dataStoreId)
      && call.query[1].0 == "createAdvancedSiteSearch"
      && (call.query[1].1 == "true" <==> req.createAdvanceSiteSearch == Some(true))
      && (call.query[1].1 == "false" <==> req.createAdvanceSiteSearch != Some(true))
  {
  }

  /** Setup posts the whole request, with no query pairs. */
  lemma SetupDataConnectorRequestShape<C>(req: SetupDataConnectorRequest<C>)
    ensures var call := SetupDataConnectorCall(req);
      && call.verb == Http.Post && call.scopes == [Http.BaseScope]
      && call.url == SetupDataConnectorUrl(req.projectId)
      && call.body == Some(req) && call.query == []
  {
  }

  /** Delete sends no body and no query pairs; the id is the last path segment. */
  lemma DeleteDataStoreRequestShape(req: DeleteDataStoreRequest)
    ensures var call := DeleteDataStoreCall(req);
      && call.verb == Http.Delete && call.scopes == [Http.BaseScope] && call.body.None? && call.query == []
      && call.url == DeleteDataStoreUrl(req.projectId, req.collections, req.dataStoreId)
      && DeleteDataStorePath(req.projectId, req.collections, req.dataStoreId)
         == GetDataStorePath(req.projectId, req.collections) + [req.dataStoreId]
  {
  }

  /**
    Get addresses the collection, not the data store: its URL is the same for
    every id, and the id travels only as the query pair `data_store_id`.
   */
  lemma GetDataStoreRequestShape(req: GetDataStoreRequest, other: GetDataStoreRequest)
    requires other.projectId == req.projectId && other.collections == req.collections
    ensures GetDataStoreCall(req).verb == Http.Get && GetDataStoreCall(req).body.None?
    ensures GetDataStoreCall(req).scopes == [Http.BaseScope]
    ensures GetDataStoreCall(req).url == GetDataStoreUrl(req.projectId, req.collections)
    ensures GetDataStoreCall(req).query == [("data_store_id", req.dataStoreId)]
    ensures GetDataStoreCall(other).url == GetDataStoreCall(req).url
  {
  }

  /**
    Search-chunks sends only what its path names: two requests that agree on
    project, collection and data store issue the same call — and so get the same
    result — whatever their query, paging, filter, ordering and spec.
   */
  lemma SearchChunksDependsOnlyOnPath<Spec, R>(r1: SearchChunksRequest<Spec>, r2: SearchChunksRequest<Spec>,
                                               send: Http.ApiCall<Http.NoBody> -> Http.Exchange,
                                               decode: string -> Result<R, string>)
    requires r1.projectId == r2.projectId && r1.collections == r2.collections
    requires r1.dataStoreId == r2.dataStoreId
    ensures SearchChunksCall(r1) == SearchChunksCall(r2)
    ensures SearchChunksCall(r1).query == [] && SearchChunksCall(r1).body.None?
    ensures SearchChunksCall(r1).verb == Http.Get && SearchChunksCall(r1).scopes == [Http.BaseScope]
    ensures SearchChunksCall(r1).url == SearchChunksUrl(r1.projectId, r1.collections, r1.dataStoreId)
    ensures SearchChunks(r1, send, decode) == SearchChunks(r2, send, decode)
  {
  }

  /** Search and answer post the inner request, with the base scope and no query pairs, to their URLs. */
  lemma ServingRequestShape<Q>(search: SearchRequest<Q>, answer: AnswerRequest<Q>)
    ensures var call := SearchCall(search);
      && call.verb == Http.Post && call.scopes == [Http.BaseScope] && call.query == []
      && call.url == SearchUrl(search.projectId) && call.body == Some(search.discoveryEngineSearchRequest)
    ensures var call := AnswerCall(answer);
      && call.verb == Http.Post && call.scopes == [Http.BaseScope] && call.query == []
      && call.url == AnswerUrl(answer.projectId) && call.body == Some(answer.discoveryEngineAnswerRequest)
  {
  }

  /**
    Search and answer URLs of one project have the same length and agree on
    everything before their six-letter verb, which is the serving config
    followed by ':'; no search URL is an answer URL.
   */
  lemma SearchAndAnswerShareServingConfig(p: string, q: string)
    ensures |SearchUrl(p)| == |AnswerUrl(p)| >= 6
    ensures SearchUrl(p)[..|SearchUrl(p)| - 6] == AnswerUrl(p)[..|AnswerUrl(p)| - 6]
            == Host + "/v1beta/" + ServingConfig(p) + ":"
    ensures SearchUrl(p) != AnswerUrl(q)
  {
    var prefix := Host + "/v1beta/" + ServingConfig(p) + ":";
    assert SearchUrl(p) == prefix + "search";
    assert AnswerUrl(p) == prefix + "answer";
    assert (prefix + "search")[..|prefix|] == prefix;
    assert (prefix + "answer")[..|prefix|] == prefix;
    var s, a := SearchUrl(p), AnswerUrl(q);
    assert s[|s| - 1] == 'h';
    assert a[|a| - 1] == 'r';
  }

  // ---------------------------------------------------------------------------
  // Reading the parameters back out of a URL

  /** The path segments of a URL on the host, if it is one. */
  function ReadPath(url: string): Option<seq<string>> {
    if |url| > |Host| && url[..|Host| + 1] == Host + "/" then Some(Text.Split(url[|Host| + 1..], "/"))
    else None
  }

  predicate SlashFree(segments: seq<string>) {
    forall i :: 0 <= i < |segments| ==> Text.NoSlash(segments[i])
  }

  /** A URL built from slash-free segments reads back as exactly those segments. */
  lemma ReadPathOfPathUrl(segments: seq<string>)
    requires |segments| > 0 && SlashFree(segments)
    ensures ReadPath(PathUrl(segments)) == Some(segments)
  {
    var url := PathUrl(segments);
    assert url[..|Host| + 1] == Host + "/";
    assert url[|Host| + 1..] == Text.Join(segments, "/");
    Text.SplitOfSlashJoin(segments);
  }

  /** Distinct slash-free paths give distinct URLs. */
  lemma PathUrlInjective(s1: seq<string>, s2: seq<string>)
    requires |s1| > 0 && SlashFree(s1) && |s2| > 0 && SlashFree(s2)
    ensures PathUrl(s1) == PathUrl(s2) <==> s1 == s2
  {
    ReadPathOfPathUrl(s1);
    ReadPathOfPathUrl(s2);
  }

  /**
    Each endpoint URL reads back as its own path — so its parameters can be
    recovered from it — and the location segment, right after the project, is
    "global".
   */
  lemma CreateDataStoreUrlReadsBack(p: string, c: string)
    requires Text.NoSlash(p) && Text.NoSlash(c)
    ensures ReadPath(CreateDataStoreUrl(p, c)) == Some(CreateDataStorePath(p, c))
    ensures ReadPath(CreateDataStoreUrl(p, c)).value[2..5] == [p, "locations", "global"]
  {
    ReadPathOfPathUrl(CreateDataStorePath(p, c));
  }

  lemma SetupDataConnectorUrlReadsBack(p: string)
    requires Text.NoSlash(p)
    ensures ReadPath(SetupDataConnectorUrl(p)) == Some(SetupDataConnectorPath(p))
    ensures ReadPath(SetupDataConnectorUrl(p)).value[2..5] == [p, "locations", "global"]
  {
    ReadPathOfPathUrl(SetupDataConnectorPath(p));
  }

  lemma DeleteDataStoreUrlReadsBack(p: string, c: string, d: string)
    requires Text.NoSlash(p) && Text.NoSlash(c) && Text.NoSlash(d)
    ensures ReadPath(DeleteDataStoreUrl(p, c, d)) == Some(DeleteDataStorePath(p, c, d))
    ensures ReadPath(DeleteDataStoreUrl(p, c, d)).value[2..5] == [p, "locations", "global"]
  {
    ReadPathOfPathUrl(DeleteDataStorePath(p, c, d));
  }

  lemma GetDataStoreUrlReadsBack(p: string, c: string)
    requires Text.NoSlash(p) && Text.NoSlash(c)
    ensures ReadPath(GetDataStoreUrl(p, c)) == Some(GetDataStorePath(p, c))
    ensures ReadPath(GetDataStoreUrl(p, c)).value[2..5] == [p, "locations", "global"]
  {
    ReadPathOfPathUrl(GetDataStorePath(p, c));
  }

  lemma SearchChunksUrlReadsBack(p: string, c: string, d: string)
    requires Text.NoSlash(p) && Text.NoSlash(c) && Text.NoSlash(d)
    ensures ReadPath(SearchChunksUrl(p, c, d)) == Some(SearchChunksPath(p, c, d))
    ensures ReadPath(SearchChunksUrl(p, c, d)).value[2..5] == [p, "locations", "global"]
  {
    ReadPathOfPathUrl(SearchChunksPath(p, c, d));
  }

  /** The serving config reads back as its path, whose location is "global". */
  lemma ServingConfigReadsBack(p: string)
    requires Text.NoSlash(p)
    ensures Text.Split(ServingConfig(p), "/") == ServingConfigPath(p)
    ensures Text.Split(ServingConfig(p), "/")[1..4] == [p, "locations", "global"]
  {
    Text.SplitOfSlashJoin(ServingConfigPath(p));
  }

  /** The create URL names its project and collection: distinct pairs, distinct URLs. */
  lemma CreateDataStoreUrlIdentifiesCollection(p1: string, c1: string, p2: string, c2: string)
    requires Text.NoSlash(p1) && Text.NoSlash(c1) && Text.NoSlash(p2) && Text.NoSlash(c2)
    ensures CreateDataStoreUrl(p1, c1) == CreateDataStoreUrl(p2, c2) <==> p1 == p2 && c1 == c2
  {
    PathUrlInjective(CreateDataStorePath(p1, c1), CreateDataStorePath(p2, c2));
  }

  /** The setup URL names its project, whatever characters the project id holds. */
  lemma SetupDataConnectorUrlIdentifiesProject(p1: string, p2: string)
    ensures SetupDataConnectorUrl(p1) == SetupDataConnectorUrl(p2) <==> p1 == p2
  {
    if SetupDataConnectorUrl(p1) == SetupDataConnectorUrl(p2) {
      var front, rest := ["v1", "projects"], ["locations", Location, "global:setUpDataConnector"];
      assert SetupDataConnectorPath(p1) == front + [p1] + rest;
      assert SetupDataConnectorPath(p2) == front + [p2] + rest;
      Text.CancelPrefix(Host + "/", Text.Join(SetupDataConnectorPath(p1), "/"),
                        Text.Join(SetupDataConnectorPath(p2), "/"));
      Text.JoinDeterminesPart(front, p1, p2, rest, "/");
    }
  }

  /** The get URL names its project and collection, and nothing else. */
  lemma GetDataStoreUrlIdentifiesCollection(p1: string, c1: string, p2: string, c2: string)
    requires Text.NoSlash(p1) && Text.NoSlash(c1) && Text.NoSlash(p2) && Text.NoSlash(c2)
    ensures GetDataStoreUrl(p1, c1) == GetDataStoreUrl(p2, c2) <==> p1 == p2 && c1 == c2
  {
    PathUrlInjective(GetDataStorePath(p1, c1), GetDataStorePath(p2, c2));
  }

  /** The delete URL names project, collection and data store: distinct triples, distinct URLs. */
  lemma DeleteDataStoreUrlIdentifiesStore(p1: string, c1: string, d1: string,
                                          p2: string, c2: string, d2: string)
    requires Text.NoSlash(p1) && Text.NoSlash(c1) && Text.NoSlash(d1)
    requires Text.NoSlash(p2) && Text.NoSlash(c2) && Text.NoSlash(d2)
    ensures DeleteDataStoreUrl(p1, c1, d1) == DeleteDataStoreUrl(p2, c2, d2)
            <==> p1 == p2 && c1 == c2 && d1 == d2
  {
    PathUrlInjective(DeleteDataStorePath(p1, c1, d1), DeleteDataStorePath(p2, c2, d2));
  }

  /** The search-chunks URL names project, collection and data store. */
  lemma SearchChunksUrlIdentifiesStore(p1: string, c1: string, d1: string,
                                       p2: string, c2: string, d2: string)
    requires Text.NoSlash(p1) && Text.NoSlash(c1) && Text.NoSlash(d1)
    requires Text.NoSlash(p2) && Text.NoSlash(c2) && Text.NoSlash(d2)
    ensures SearchChunksUrl(p1, c1, d1) == SearchChunksUrl(p2, c2, d2)
            <==> p1 == p2 && c1 == c2 && d1 == d2
  {
    PathUrlInjective(SearchChunksPath(p1, c1, d1), SearchChunksPath(p2, c2, d2));
  }

  /**
    The search and answer URLs name their project, whatever characters the
    project id holds: one serving config per project.
   */
  lemma SearchUrlIdentifiesProject(p1: string, p2: string)
    ensures SearchUrl(p1) == SearchUrl(p2) <==> p1 == p2
  {
    if SearchUrl(p1) == SearchUrl(p2) {
      ServedFromSameConfig(p1, p2, ":search");
    }
  }

  lemma AnswerUrlIdentifiesProject(p1: string, p2: string)
    ensures AnswerUrl(p1) == AnswerUrl(p2) <==> p1 == p2
  {
    if AnswerUrl(p1) == AnswerUrl(p2) {
      ServedFromSameConfig(p1, p2, ":answer");
    }
  }

  lemma ServedFromSameConfig(p1: string, p2: string, verb: string)
    requires Host + "/v1beta/" + ServingConfig(p1) + verb == Host + "/v1beta/" + ServingConfig(p2) + verb
    ensures p1 == p2
  {
    Text.CancelSuffix(Host + "/v1beta/" + ServingConfig(p1), Host + "/v1beta/" + ServingConfig(p2), verb);
    Text.CancelPrefix(Host + "/v1beta/", ServingConfig(p1), ServingConfig(p2));
    var rest := ["locations", Location, "collections", "default_collection", "engines", AppId,
                 "servingConfigs", "default_serving_config"];
    assert ServingConfigPath(p1) == ["projects"] + [p1] + rest;
    assert ServingConfigPath(p2) == ["projects"] + [p2] + rest;
    Text.JoinDeterminesPart(["projects"], p1, p2, rest, "/");
  }
}
