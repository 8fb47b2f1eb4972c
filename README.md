# moni core, modelled in Dafny

This project models the deterministic core of the moni repository, a Rust web
application built on Google Vertex AI Search (the Discovery Engine API),
Gemini and Firebase. The core has five parts:

- **The `DataStoreClient` endpoints** in `crates/vertex_ai/src/discovery_engine/client.rs`
  and their near-copy in `crates/vertex_ai/src/data_store/data_store.rs`
  (modules `DiscoveryEngine` and `DataStore`). Each endpoint builds a fixed URL
  with the location wired to `global`, plus ordered query pairs where it has
  any. It hands the request to the authenticated client, then classifies the
  outcome in a fixed order: client failure, then HTTP error status, then JSON
  decoding, then success.
- **The Gemini agent builder and its count-tokens URL** (`crates/agent/src/gemini.rs`,
  module `Gemini`).
- **The embeddings file content** (`crates/embeddings/src/file.rs`, module
  `Embeddings`). A PDF is read page by page into one string; this is an
  imperative method with a loop, proved against a page-concatenation function.
  Content is cut into paragraphs on `"\n\n"`.
- **The run-mode parser and the start of `Settings::new`** (`src/settings.rs`,
  module `Settings`).
- **The module-manager builder and `Store::with_key_url`** (`src/models/mod.rs`,
  `src/models/store/mod.rs`, module `Models`).

Supporting modules:

- `Wrappers` holds Option and Result.
- `Text` models Rust string splitting and joining on `seq<char>`. `str::split`
  with a string pattern matches leftmost-first and without overlap; `join`
  inserts the separator between neighbours. `Text` proves three facts about
  them: split inverts join, a split is the only valid split that joins back,
  and a split has one piece more than the separator has occurrences.
- `Http` abstracts the client layer. A call is the request handed to the
  client: method, scopes, URL, query pairs and body. Its outcome is either a
  client-layer failure or a response with a status and a body.

Everything the core does not compute itself becomes a parameter. It is a function where the result depends on an argument the core supplies, and the outcome itself (a `Result` value) where the core makes the call once:

- the network round trip (`send`);
- JSON decoding (`decode`);
- URL parsing, in the two places its result is unwrapped (`urlParses`, a precondition);
- auth-provider acquisition (`acquire`, an outcome);
- file-type detection and PDF loading (`detect`, `load`, outcomes);
- configuration building and deserialization (`build`, `deserialize`);
- `Firebase::new` (`firebaseNew`);
- Unicode sentence segmentation.

Endpoint URLs in `DiscoveryEngine` are written as their `/`-separated path
segments after the host, joined with `/`. This is the same text as the
`format!` template, in a form that can be read back. The Gemini URL is written
as the template itself, and its contract states that it equals its joined segments.

## Model

| member | source | states |
|---|---|---|
| DiscoveryEngine.Classify | crates/vertex_ai/src/discovery_engine/client.rs:56-65 | The result reports its exchange, each case in both directions. It is a `ClientError` carrying the failure exactly when the client failed. It is an `HttpStatus` carrying the status exactly when a 4xx/5xx response came back. It is a `ResponseJsonParsing` exactly when an accepted body fails to decode. It is `Ok` with the decoded value exactly when the body decodes. |
| DiscoveryEngine.ReportsIsFunctional | crates/vertex_ai/src/discovery_engine/client.rs:56-65 | The classification relation fixes the result: at most one result reports a given exchange. |
| DiscoveryEngine.DecodeOnlyAfterAcceptedStatus | crates/vertex_ai/src/discovery_engine/client.rs:59-63 | On a client failure or an error status the result does not depend on the decoder. On a client failure it is `ClientError` of that failure, so no status is inspected. |
| DiscoveryEngine.CreateDataStore | crates/vertex_ai/src/discovery_engine/client.rs:39-66 | Given a create URL that parses, the result reports the outcome of the create call. |
| DiscoveryEngine.SetupDataConnector | crates/vertex_ai/src/discovery_engine/client.rs:69-95 | Given a setup URL that parses, the result reports the outcome of the setup call. |
| DiscoveryEngine.DeleteDataStore | crates/vertex_ai/src/discovery_engine/client.rs:131-149 | The result reports the outcome of the delete call. |
| DiscoveryEngine.GetDataStore | crates/vertex_ai/src/discovery_engine/client.rs:180-199 | The result reports the outcome of the get call. |
| DiscoveryEngine.SearchChunks | crates/vertex_ai/src/discovery_engine/client.rs:231-251 | The result reports the outcome of the search-chunks call. |
| DiscoveryEngine.Search | crates/vertex_ai/src/discovery_engine/client.rs:253-273 | The result reports the outcome of the search call. |
| DiscoveryEngine.Answer | crates/vertex_ai/src/discovery_engine/client.rs:275-293 | The result reports the outcome of the answer call. |
| DiscoveryEngine.CreateDataStoreRequestShape | crates/vertex_ai/src/discovery_engine/client.rs:43-58 | Create is a POST with the base scope, sent to the create URL of the project and collection, with the data store as body. It has exactly two query pairs, `("dataStoreId", id)` first. The second is `createAdvancedSiteSearch`: "true" exactly when the option is `Some(true)`, "false" otherwise, absence included. |
| DiscoveryEngine.SetupDataConnectorRequestShape | crates/vertex_ai/src/discovery_engine/client.rs:75-85 | Setup is a POST with the base scope, sent to the setup URL of the project, carrying the whole request and no query pairs. |
| DiscoveryEngine.DeleteDataStoreRequestShape | crates/vertex_ai/src/discovery_engine/client.rs:136-142 | Delete is a DELETE with the base scope, sent to the delete URL of project, collection and data store, with no body and no query pairs. Its path is the get path followed by the data-store id. |
| DiscoveryEngine.GetDataStoreRequestShape | crates/vertex_ai/src/discovery_engine/client.rs:182-192 | Get is a GET with the base scope and no body, sent to the get URL of project and collection. Its only query pair is `("data_store_id", id)`. Its URL is the same for every id. |
| DiscoveryEngine.SearchChunksDependsOnlyOnPath | crates/vertex_ai/src/discovery_engine/client.rs:237-243 | Search-chunks is a GET with the base scope, sent to the search-chunks URL, with no query pairs and no body. Two requests that agree on project, collection and data store make the same call and get the same result, whatever their other fields. |
| DiscoveryEngine.ServingRequestShape | crates/vertex_ai/src/discovery_engine/client.rs:262-285 | Search and answer are POSTs with the base scope and no query pairs, sent to the search and answer URLs of the project, each carrying its inner request as body. |
| DiscoveryEngine.SearchAndAnswerShareServingConfig | crates/vertex_ai/src/discovery_engine/client.rs:253-282 | The search and answer URLs of a project have the same length and agree on everything before the six-letter verb, which is the serving config of the fixed engine followed by `:`. No search URL is an answer URL, a fact that only their last characters settle. |
| DiscoveryEngine.CreateDataStoreUrlReadsBack | crates/vertex_ai/src/discovery_engine/client.rs:46-50 | For slash-free ids the create URL reads back as `v1beta/projects/{p}/locations/global/collections/{c}/dataStores`, with location `global`. |
| DiscoveryEngine.SetupDataConnectorUrlReadsBack | crates/vertex_ai/src/discovery_engine/client.rs:75-80 | For a slash-free project the setup URL reads back as `v1/projects/{p}/locations/global/global:setUpDataConnector`. |
| DiscoveryEngine.DeleteDataStoreUrlReadsBack | crates/vertex_ai/src/discovery_engine/client.rs:136-139 | For slash-free ids the delete URL reads back as `v1/projects/{p}/locations/global/collections/{c}/dataStores/{id}`. |
| DiscoveryEngine.GetDataStoreUrlReadsBack | crates/vertex_ai/src/discovery_engine/client.rs:182-185 | For slash-free ids the get URL reads back as `v1/projects/{p}/locations/global/collections/{c}/dataStores`, with no id segment. |
| DiscoveryEngine.SearchChunksUrlReadsBack | crates/vertex_ai/src/discovery_engine/client.rs:237-240 | For slash-free ids the search-chunks URL reads back as `v1alpha/projects/{p}/locations/global/collections/{c}/dataStores/{id}/servingConfigs/default_search:search`. |
| DiscoveryEngine.ServingConfigReadsBack | crates/vertex_ai/src/discovery_engine/client.rs:257 | For a slash-free project the serving config reads back as `projects/{p}/locations/global/collections/default_collection/engines/moni-demo-final_1722720080773/servingConfigs/default_serving_config`, so the segments read back after the project are `locations`, `global`. |
| DiscoveryEngine.CreateDataStoreUrlIdentifiesCollection | crates/vertex_ai/src/discovery_engine/client.rs:46-50 | For slash-free values, two create URLs are equal exactly when project and collection are. |
| DiscoveryEngine.SetupDataConnectorUrlIdentifiesProject | crates/vertex_ai/src/discovery_engine/client.rs:75-80 | For any project ids, slashes included, two setup URLs are equal exactly when their projects are. |
| DiscoveryEngine.GetDataStoreUrlIdentifiesCollection | crates/vertex_ai/src/discovery_engine/client.rs:182-185 | For slash-free values, two get URLs are equal exactly when project and collection are. |
| DiscoveryEngine.DeleteDataStoreUrlIdentifiesStore | crates/vertex_ai/src/discovery_engine/client.rs:136-139 | For slash-free values, two delete URLs are equal exactly when project, collection and data store are. |
| DiscoveryEngine.SearchChunksUrlIdentifiesStore | crates/vertex_ai/src/discovery_engine/client.rs:237-240 | For slash-free values, two search-chunks URLs are equal exactly when project, collection and data store are. |
| DiscoveryEngine.SearchUrlIdentifiesProject | crates/vertex_ai/src/discovery_engine/client.rs:257-261 | For any project ids, slashes included, two search URLs are equal exactly when their projects are. |
| DiscoveryEngine.AnswerUrlIdentifiesProject | crates/vertex_ai/src/discovery_engine/client.rs:278-282 | For any project ids, slashes included, two answer URLs are equal exactly when their projects are. |
| DataStore.Classify | crates/vertex_ai/src/data_store/data_store.rs:57-66 | The same ordered classification into the data-store error type. Read as a discovery-engine result, it is the discovery-engine classification. |
| DataStore.AsDiscoveryEngineInjective | crates/vertex_ai/src/data_store/error.rs:2-14 | Translating data-store results into discovery-engine results is one-to-one. No data-store result becomes a text-retrieval error. |
| DataStore.CreateDataStore | crates/vertex_ai/src/data_store/data_store.rs:40-67 | Gives exactly the discovery-engine create outcome, error for error. |
| DataStore.SetupDataConnector | crates/vertex_ai/src/data_store/data_store.rs:70-96 | Gives exactly the discovery-engine setup outcome. |
| DataStore.DeleteDataStore | crates/vertex_ai/src/data_store/data_store.rs:132-150 | Gives exactly the discovery-engine delete outcome. |
| DataStore.GetDataStore | crates/vertex_ai/src/data_store/data_store.rs:181-200 | Gives exactly the discovery-engine get outcome. |
| DataStore.SearchChunks | crates/vertex_ai/src/data_store/data_store.rs:232-252 | Gives exactly the discovery-engine search-chunks outcome. |
| DataStore.Search | crates/vertex_ai/src/data_store/data_store.rs:254-274 | Gives exactly the discovery-engine search outcome. |
| Gemini.NewBuilder | crates/agent/src/gemini.rs:23-29 | A fresh builder has all three fields unset. |
| Gemini.NewBuilderMissesAll | crates/agent/src/gemini.rs:23-29 | A fresh builder misses all three fields, in checking order. |
| Gemini.GeminiAgentBuilder.ProjectId | crates/agent/src/gemini.rs:31-34 | Sets the project to `Some(v)` and leaves the other two fields unchanged. |
| Gemini.GeminiAgentBuilder.LocationId | crates/agent/src/gemini.rs:36-39 | Sets the location to `Some(v)` and leaves the other two fields unchanged. |
| Gemini.GeminiAgentBuilder.ApiEndpoint | crates/agent/src/gemini.rs:41-44 | Sets the endpoint to `Some(v)` and leaves the other two fields unchanged. |
| Gemini.SettersCommute | crates/agent/src/gemini.rs:31-44 | Setters on different fields commute. |
| Gemini.LaterSetterWins | crates/agent/src/gemini.rs:31-44 | A later call of a setter overwrites an earlier one. |
| Gemini.AllSetMissesNothing | crates/agent/src/gemini.rs:31-44 | With all three set, in either order, nothing is missing. |
| Gemini.MissingFieldsExact | crates/agent/src/gemini.rs:50-64 | A field is listed as missing exactly when it is unset. |
| Gemini.GeminiAgentBuilder.Build | crates/agent/src/gemini.rs:46-72 | A provider failure gives `GCPAuth` whatever the fields. Otherwise, if any field is missing, the result names the first missing one in the order project, location, endpoint. Success happens exactly when the provider is acquired and nothing is missing. The agent then holds exactly the supplied values. |
| Gemini.BuilderTests | crates/agent/src/gemini.rs:131-180 | With provider success, the four builder tests hold. All fields set builds the agent. Omitting exactly one field fails naming it. |
| Gemini.GeminiAgent.GetUrl | crates/agent/src/gemini.rs:87-95 | The `format!` template of the count-tokens URL is `https://` followed by the ten path segments joined with `/`. |
| Gemini.GetUrlReadsBack | crates/agent/src/gemini.rs:87-95 | For slash-free fields the URL starts with `https://`. Its path splits back into endpoint, `v1beta1`, `projects`, project, `locations`, location, `publishers`, `google`, `models`, `gemini-pro:countTokens`. |
| Gemini.GetUrlInjective | crates/agent/src/gemini.rs:87-95 | For slash-free fields, two agents have the same URL exactly when their endpoint, project and location agree. |
| Embeddings.Paragraphs | crates/embeddings/src/file.rs:72-74 | The pieces join back to the content with `"\n\n"`, and they are a leftmost-first split: each piece but the last stops at the leftmost separator of the rest. No piece contains `"\n\n"`. There is at least one piece, and content without the separator (the empty string too) is its own single piece. There are 1 + (leftmost, non-overlapping occurrences) pieces. |
| Embeddings.ParagraphsOfJoin | crates/embeddings/src/file.rs:73 | Splitting a join of valid pieces gives the pieces back, so the split is the unique one that joins to the content. |
| Text.Split | crates/embeddings/src/file.rs:73 | `str::split` with a string pattern: joins back to its input, and its pieces are leftmost pieces. |
| Text.SplitOfJoin | crates/embeddings/src/file.rs:73 | Split inverts join on valid splits. |
| Text.SplitCount | crates/embeddings/src/file.rs:73 | Piece count is one more than the leftmost, non-overlapping occurrence count. |
| Embeddings.ChunkGenerator.Generate | crates/embeddings/src/file.rs:55-74 | Paragraph chunks are exactly `Paragraphs(content)`, the leftmost-first split on `"\n\n"`. They join back to the content, and there is one more chunk than the content has leftmost, non-overlapping separators. Sentence chunks are the Unicode segmentation of the content. |
| Embeddings.Content.GenChunks | crates/embeddings/src/file.rs:38-40 | Chunking hands the stored content unchanged to the generator. The sentence chunks are the segmentation of the content. The paragraph chunks are exactly `Paragraphs(content)`, which join back to the content. |
| Embeddings.ParsePdf | crates/embeddings/src/file.rs:22-36 | A load failure is `PdfError`. Otherwise the content is the in-order, separator-free concatenation of the texts of pages 1 to the page count, where a page whose extraction fails contributes "". The loop invariant ties the collected texts to that concatenation. |
| Embeddings.JoinAppendEmpty | crates/embeddings/src/file.rs:34 | Joining with "" appends one part at a time. |
| Embeddings.PdfTextGrows | crates/embeddings/src/file.rs:27-31 | The text of the first pages is a prefix of the text of more pages, so pages keep their order. |
| Embeddings.PageInPlace | crates/embeddings/src/file.rs:27-31 | In the whole text, page n comes right after the pages before it. |
| Embeddings.FailedPageAddsNothing | crates/embeddings/src/file.rs:29-30 | A page whose extraction fails adds nothing. |
| Embeddings.FromPath | crates/embeddings/src/file.rs:10-20 | A detection failure is `IOError`. No detected type is `ParsingError("file type not supported")`. Any type other than `application/pdf` is `ParsingError("unsuported file")`. A PDF gives what `ParsePdf` gives. Success implies the type was PDF. |
| Settings.AsciiLowerIsKeyword | src/settings.rs:46 | For a word without capitals, lower-casing gives that word exactly when each character is the word's character or, for a lower-case letter, its capital. This casing relation is stated without the lower-casing function. |
| Settings.FromStr | src/settings.rs:43-51 | `Production` exactly for casings of "production" and `Development` exactly for casings of "development". The fixed error exactly for everything else. Casing is defined character by character, independently of lower-casing. |
| Settings.FromStrExamples | src/settings.rs:46-49 | "Production" and "DEVELOPMENT" are accepted, "prod" is rejected. |
| Settings.New | src/settings.rs:55-70 | The run mode is `RUN_MODE` or "development". An invalid one is `InvalidRunMode` with the parser's message. A build failure of the two sources is `ConfigBuild`. A deserialization failure is `Deserialize` with the context "failed to deserialize". Success happens exactly when the mode is valid and building and deserializing succeed, and the result is the deserialized settings. |
| Settings.InvalidRunModeStopsEarly | src/settings.rs:56-62 | An invalid run mode fails the same way whatever the builder and deserializer, so no source is built. |
| Settings.AbsentRunModeIsDevelopment | src/settings.rs:56-57 | An unset `RUN_MODE` behaves as "development", which parses, so success depends only on the development sources. |
| Models.WithKeyUrl | src/models/store/mod.rs:15-21 | Succeeds exactly when `Firebase::new(url)` does, and the store keeps key and url exactly. Its failure is `Connection` with that error. |
| Models.NewBuilder | src/models/mod.rs:16-20 | A fresh builder has no store configuration. |
| Models.ModuleManagerBuilder.FireStoreConfig | src/models/mod.rs:21-24 | Sets the configuration to `Some(config)`. |
| Models.LaterConfigWins | src/models/mod.rs:21-24 | Setting the configuration again replaces the earlier value. |
| Models.ModuleManagerBuilder.Build | src/models/mod.rs:26-33 | No configuration gives `InvalidConfiguration`. A store failure gives `StoreError(Connection(..))`. Success happens exactly when configured and the url is accepted, and the manager's store is then exactly the configuration. |
| Models.BuildWithoutConfigSkipsStore | src/models/mod.rs:27-29 | Without a configuration the result is `InvalidConfiguration` whatever `Firebase::new` would do. |
| Models.BuildUsesConfig | src/models/mod.rs:30-32 | A builder given a configuration whose url is accepted builds a manager holding it. |

## Left out

- The client layer (`crates/vertex_ai/src/client/mod.rs`) is reduced to the `send` parameter. Token acquisition, its process-wide cache, auth headers, percent-encoding of query pairs and the network round trip all happen behind `send`. Query pairs are kept as ordered, unencoded pairs.
- `create_data_store` and `setup_data_connector` unwrap `Url::parse_with_params` / `Url::parse`, which panics on a bad URL. The model states well-formedness as the precondition `urlParses(url)`, not as an error path.
- Serde (de)serialisation of the schema types is not modelled. Request bodies and response types are type parameters; only `Operation` is kept as a datatype, and decoding is the `decode` parameter.
- `DataStoreClient::new` is a constructor that always succeeds; it is not modelled.
- Operation polling has no implementation; it appears only as commented-out test code. It is not modelled.
- DiscoveryEngine.Classify: an error status is 400–599, which is reqwest's `error_for_status`. A 1xx or 3xx response reaching that point is decoded, not rejected.
- DataStore.Classify: `error_for_status` yields a reqwest error, but `data_store/error.rs` declares `HttpStatus(String)`. Both models carry the status code instead of an error value. The discovery engine's `ResponseTextRetrieval` variant is declared but never produced.
- DiscoveryEngine.Classify: a response always carries its complete body. In the source, `response.json()` reads the body after `error_for_status`, so a transport failure while reading it also becomes `ResponseJsonParsing`. The model treats such a failed read as a body that the decoder rejects.
- `Metadata.additional` is a `map<string, string>`. The source flattens arbitrary JSON values into a `HashMap<String, Value>`, and the model narrows those values to strings.
- `SearchChunksRequest.pageSize` and `offset` are Rust `i32`. They are declared as `int`, which is harmless because no endpoint reads them.
- `GeminiAgent::test_promt` performs HTTP I/O and is not modelled; it also uses an `HTTPClient` error variant that `crates/agent/src/errors.rs` does not declare. Token providers are a type parameter, and provider acquisition is the `acquire` parameter.
- `SentenseGenerator` delegates to Unicode sentence segmentation, which is a parameter here.
- `lopdf` loading and text extraction and `infer` type detection are inputs (`load`, `detect`). The PDF's page set is a page count, and `extract_text(&[i + 1])` is the extraction outcome of page number `i + 1`.
- Settings.FromStr: lower-cases ASCII letters only, where Rust's `to_lowercase` is Unicode. No accept/reject outcome differs: the only non-ASCII character whose lower case is an ASCII letter is KELVIN SIGN, lower-cased to `k`, and neither keyword has a `k`. This is argued, not proved.
- Reading files and the environment in `Settings::new` is not modelled. `RUN_MODE` is an input that is absent when unset or not Unicode. Building and deserialization are the `build` and `deserialize` parameters. The source files are as written, `configs/default` and then `config/{run_mode}`.
- Firebase URL validation within `Store::with_key_url` is the `firebaseNew` parameter, and `Store::db` is not modelled. The `RequestError` variant of the model error is declared only.
- The web layer (`main.rs`, routes, templates, documents) is not part of this model.
