/**
  The second copy of the data-store client, in the `data_store` module. Its
  requests are built exactly as in the discovery-engine client and it has the
  same endpoints but `answer`; only its error type differs (no text-retrieval
  variant). Each endpoint is proved to give, read as a discovery-engine result,
  exactly the outcome of its discovery-engine counterpart.
 */
module DataStore {
  import opened Wrappers
  import Http
  import DiscoveryEngine

  datatype Error =
    | ClientError(cause: Http.ClientError)
    | HttpStatus(status: nat)
    | DataStoreError
    | ResponseJsonParsing(reason: string)

  /** Each data-store error as the discovery-engine variant of the same name and payload. */
  function Widen(e: Error): DiscoveryEngine.Error {
    match e
    case ClientError(c) => DiscoveryEngine.ClientError(c)
    case HttpStatus(s) => DiscoveryEngine.HttpStatus(s)
    case DataStoreError => DiscoveryEngine.DataStoreError
    case ResponseJsonParsing(why) => DiscoveryEngine.ResponseJsonParsing(why)
  }

  /** A data-store result read as a discovery-engine result. */
  function AsDiscoveryEngine<T>(r: Result<T, Error>): Result<T, DiscoveryEngine.Error> {
    match r
    case Ok(v) => Ok(v)
    case Err(e) => Err(Widen(e))
  }

  /** The same ordered chain, into this module's error type. */
  function Classify<T>(o: Http.Exchange, decode: string -> Result<T, string>): (r: Result<T, Error>)
    ensures AsDiscoveryEngine(r) == DiscoveryEngine.Classify(o, decode)
  {
    match o
    case Failed(e) => Err(ClientError(e))
    case Received(resp) =>
      if Http.IsErrorStatus(resp.status) then Err(HttpStatus(resp.status))
      else match decode(resp.body)
        case Err(why) => Err(ResponseJsonParsing(why))
        case Ok(v) => Ok(v)
  }

  /**
    Reading as a discovery-engine result loses nothing: a discovery-engine
    outcome fixes the data-store outcome, and none maps to text retrieval.
   */
  lemma AsDiscoveryEngineInjective<T>(r1: Result<T, Error>, r2: Result<T, Error>)
    ensures AsDiscoveryEngine(r1) == AsDiscoveryEngine(r2) <==> r1 == r2
    ensures !(AsDiscoveryEngine(r1).Err? && AsDiscoveryEngine(r1).error.ResponseTextRetrieval?)
  {
    if AsDiscoveryEngine(r1) == AsDiscoveryEngine(r2) && r1.Err? {
      match r1.error
      case ClientError(_) =>
      case HttpStatus(_) =>
      case DataStoreError =>
      case ResponseJsonParsing(_) =>
    }
  }

  function CreateDataStore<S>(req: DiscoveryEngine.CreateDataStoreRequest<S>, urlParses: string -> bool,
                              send: Http.ApiCall<S> -> Http.Exchange,
                              decode: string -> Result<DiscoveryEngine.Operation, string>)
    : (r: Result<DiscoveryEngine.Operation, Error>)
    requires urlParses(DiscoveryEngine.CreateDataStoreUrl(req.projectId, req.collections))
    ensures AsDiscoveryEngine(r) == DiscoveryEngine.CreateDataStore(req, urlParses, send, decode)
  {
    Classify(send(DiscoveryEngine.CreateDataStoreCall(req)), decode)
  }

  function SetupDataConnector<C, R>(
    req: DiscoveryEngine.SetupDataConnectorRequest<C>, urlParses: string -> bool,
    send: Http.ApiCall<DiscoveryEngine.SetupDataConnectorRequest<C>> -> Http.Exchange,
    decode: string -> Result<R, string>): (r: Result<R, Error>)
    requires urlParses(DiscoveryEngine.SetupDataConnectorUrl(req.projectId))
    ensures AsDiscoveryEngine(r) == DiscoveryEngine.SetupDataConnector(req, urlParses, send, decode)
  {
    Classify(send(DiscoveryEngine.SetupDataConnectorCall(req)), decode)
  }

  function DeleteDataStore(req: DiscoveryEngine.DeleteDataStoreRequest,
                           send: Http.ApiCall<Http.NoBody> -> Http.Exchange,
                           decode: string -> Result<DiscoveryEngine.Operation, string>)
    : (r: Result<DiscoveryEngine.Operation, Error>)
    ensures AsDiscoveryEngine(r) == DiscoveryEngine.DeleteDataStore(req, send, decode)
  {
    Classify(send(DiscoveryEngine.DeleteDataStoreCall(req)), decode)
  }

  function GetDataStore<D>(req: DiscoveryEngine.GetDataStoreRequest,
                           send: Http.ApiCall<Http.NoBody> -> Http.Exchange,
                           decode: string -> Result<D, string>): (r: Result<D, Error>)
    ensures AsDiscoveryEngine(r) == DiscoveryEngine.GetDataStore(req, send, decode)
  {
    Classify(send(DiscoveryEngine.GetDataStoreCall(req)), decode)
  }

  function SearchChunks<Spec, R>(req: DiscoveryEngine.SearchChunksRequest<Spec>,
                                 send: Http.ApiCall<Http.NoBody> -> Http.Exchange,
                                 decode: string -> Result<R, string>): (r: Result<R, Error>)
    ensures AsDiscoveryEngine(r) == DiscoveryEngine.SearchChunks(req, send, decode)
  {
    Classify(send(DiscoveryEngine.SearchChunksCall(req)), decode)
  }

  function Search<Q, R>(req: DiscoveryEngine.SearchRequest<Q>, send: Http.ApiCall<Q> -> Http.Exchange,
                        decode: string -> Result<R, string>): (r: Result<R, Error>)
    ensures AsDiscoveryEngine(r) == DiscoveryEngine.Search(req, send, decode)
  {
    Classify(send(DiscoveryEngine.SearchCall(req)), decode)
  }
}
