# typesense_aio core, modelled in Dafny

This project models the core of `typesense_aio`, an asyncio client for the Typesense search
server, and proves properties of the model. It covers four modules of the client.

- **Exceptions** (`exc.py`). The client's exception classes form a hierarchy under
  `TypesenseClientError`, which derives from `IOError`. The `service_exceptions` tuple names the
  kinds that blame the node. `resolve_exception` maps an HTTP status code to a class.
- **Nodes** (`nodes.py`). A `Node` is a string holding the normalised URL
  `scheme://host:port/path`, the parse result, and a mutable `healthy` flag. `Nodes` keeps the
  sane `pool` and the `quarantined` set, and moves nodes between them.
- **Requester** (`requester.py`). It picks a sane node and builds the request (URL, headers,
  body). It classifies the answer, quarantines the node on a service failure, and makes at most
  `retries` attempts. It also sweeps the quarantine with health probes.
- **Documents** (`documents.py`). This is the documents resource of a collection: endpoints, a
  memoising table of per-document proxies, create/upsert/update, bulk import with
  line-by-line decoding, export, search parameters and delete.

Files:

- `wrappers.dfy` (module `Wrappers`): `Option`, `Result`, `Outcome`
- `text.dfy` (module `Text`): Python's `join`, `split`, `strip`, `str(int)` on sequences, with their laws
- `wire.dfy` (module `Wire`): bytes, decoded JSON, query-parameter values
- `exc.dfy` (module `Exc`): `exc.py`
- `nodes.dfy` (module `Nodes`): `nodes.py`: `Node` and `Nodes` are classes whose fields change in place
- `requester.dfy` (module `Requester`): `requester.py`: the `Requester` class, the retry loop, the quarantine sweep
- `documents.dfy` (module `Documents`): `documents.py`: `DocumentProxy` and `Documents` classes, import and search

Things that happen outside the program are parameters of the model:

- **The network** is a sequence of `SendOutcome` values, one per attempt: a transport error, or
  a status and a body.
- **Health probes** are a function from URL to `ProbeOutcome`.
- **orjson's `dumps`/`loads`** and the standard library's `json.dumps`/`json.loads` are
  function values. The decoders are partial and return `Option`.
- **`urlparse`** is replaced by its result, a `ParsedUrl` record.

Behaviours of the code that the model keeps:

- **Node equality includes the health flag**, not only the URL. A node equals a pool member
  only while their health agrees, and set membership is modelled exactly that way.
- **The URL path is kept verbatim** in the normalised text. A trailing '/' stays, so the request
  URL then contains "//" (`Requester.TrailingSlashDoubles`).
- **Restoring a node that is already in the pool is a no-op**, not an error. Quarantining a node
  that is already quarantined is also a no-op.
- **A health probe raises on a transport error and on an undecodable 2xx body.** The request is
  outside the `try`. Such an exception escapes the whole sweep, and no node is restored.
- **A probe passes on any 2xx response whose body decodes to `{"ok": True}`.**
- **There are no timers in the code.** Quarantine ends only through a sweep.
- **A document proxy with the empty id requests the collection's own URL**, because `strip('/')`
  removes the trailing '/' (`Documents.EmptyIdIsCollection`).

## Model

| member | source | states |
|---|---|---|
| `Exc.ClientClassesAreIOErrors` | typesense_aio/exc.py:4-49 | exactly the classes declared in exc.py subclass TypesenseClientError, and each of them is an IOError |
| `Exc.ResolveException` | typesense_aio/exc.py:60-74 | the class for a status is a TypesenseClientError (hence an IOError); it is never Timeout or InvalidParameter; it is a service kind iff the status is 0, 500 or 503; it is the bare TypesenseClientError iff the status is unmapped |
| `Exc.ResolveInverse` | typesense_aio/exc.py:60-74 | each mapped class comes from exactly one status: resolving gives class c (other than the fallback) iff c's status code is that status |
| `Exc.ServiceTestsAgree` | typesense_aio/exc.py:52-58 | for every class a status resolves to, membership in the service tuple agrees with being caught by `except service_exceptions` |
| `Exc.ServiceClassTests` | typesense_aio/exc.py:4-58 | for each class of exc.py, tuple membership and `isinstance` against the service classes agree |
| `Exc.CaughtOnlyBySelf` | typesense_aio/exc.py:4-58 | a class of exc.py is caught by a service class only when it is that very class |
| `Exc.ClientNotTransport` | typesense_aio/exc.py:4-58 | no class of exc.py derives from httpx's RequestError or ConnectTimeout |
| `Exc.TransportErrorsAreService` | typesense_aio/exc.py:52-58 | the httpx transport errors are caught as service failures, yet are not TypesenseClientErrors |
| `Exc.SubclassDepth` | typesense_aio/exc.py:4-49 | a class sits at least as deep as each of its bases, and strictly deeper unless it is that base |
| `Exc.SubclassRoot` | typesense_aio/exc.py:4-49 | a class has a single root: if it subclasses a root class b and a class a, then a subclasses b |
| `Nodes.ValidationOrder` | typesense_aio/nodes.py:40-48 | construction fails iff a component is missing; the message names the first missing one, checking host, then port, then scheme |
| `Nodes.TextIgnoresQuery` | typesense_aio/nodes.py:50-51 | the normalised text depends only on scheme, host, port and path |
| `Nodes.NodeTextRoundTrip` | typesense_aio/nodes.py:50-51 | for a host that is not an IPv6 literal (one holding no ':' or '/'), the normalised text reads back as scheme, host, port and the verbatim path |
| `Nodes.NodeTextInjective` | typesense_aio/nodes.py:50-51 | two valid URLs whose hosts are not IPv6 literals and whose texts are equal agree on scheme, host, port and path |
| `Nodes.Node.constructor` | typesense_aio/nodes.py:50-54 | a node made from a validated URL keeps that parse result and starts healthy |
| `Nodes.EqualityAndHash` | typesense_aio/nodes.py:12-29 | equal nodes hash alike and have equal text; two nodes with the same URL but different health are unequal yet hash alike |
| `Nodes.ReprShowsHealth` | typesense_aio/nodes.py:31-33 | two nodes with the same text have the same repr iff their health agrees |
| `Nodes.NewNode` | typesense_aio/nodes.py:35-54 | an existing node comes back as that very object; a string fails iff validation fails, with its message, and otherwise yields a fresh healthy node with that parse result |
| `Nodes.NodesFrom` | typesense_aio/nodes.py:59-61 | the generator yields one node per value, in order, or fails with the error of the first value that fails |
| `Nodes.MoveKeepsDisjoint` | typesense_aio/nodes.py:69-89 | moving an entry from one URL-disjoint side to the other keeps the sides URL-disjoint |
| `Nodes.AddMatching` | typesense_aio/nodes.py:73 | in a set whose entries share x's health, `add` leaves the set unchanged iff x's URL is already there, and otherwise adds x |
| `Nodes.DiscardUnhealthy` | typesense_aio/nodes.py:72 | once x is unhealthy, discarding it from a set of healthy nodes removes exactly x |
| `Nodes.DiscardHealthy` | typesense_aio/nodes.py:83 | once x is healthy, discarding it from a set of unhealthy nodes removes exactly x |
| `Nodes.FirstOfEachUrlStep` | typesense_aio/nodes.py:61 | building `set(...)` one healthy node at a time keeps the first node of each URL; a node joins iff its URL is not yet there |
| `Nodes.Nodes.constructor` | typesense_aio/nodes.py:59-61 | the pool holds the first node of each URL, every URL given is present, nothing is quarantined, and the invariant holds |
| `Nodes.Nodes.Quarantine` | typesense_aio/nodes.py:69-78 | a node equal to a sane entry is marked unhealthy, is discarded from the pool (which removes only the pool's own object, since the flag now differs) and joins the quarantine (unless its URL is already there); an already quarantined node changes nothing; any other node raises LookupError and changes nothing; for the pool's own object the pool shrinks by one and the sides stay disjoint |
| `Nodes.Nodes.Evict` | typesense_aio/nodes.py:70-73 | the first branch of `quarantine`: the flag, the discard and the add, with the invariant kept |
| `Nodes.Nodes.Restore` | typesense_aio/nodes.py:80-89 | a node equal to a quarantined entry is marked healthy, is discarded from the quarantine (which removes only its own object) and joins the pool (unless its URL is already there); a sane node changes nothing; any other node raises LookupError; for the quarantine's own object the pool grows by one |
| `Nodes.Nodes.Readmit` | typesense_aio/nodes.py:81-84 | the first branch of `restore`: the flag, the discard and the add, with the invariant kept |
| `Requester.ClientHeaders` | typesense_aio/requester.py:21-24 | the client's headers are the given ones (or none) with the API key written in |
| `Requester.MergeHeadersSpec` | typesense_aio/requester.py:86 | the merged headers hold the keys of both dicts, and the client's value wins on a shared key |
| `Requester.RequestShape` | typesense_aio/requester.py:85-90 | the URL is the node, one '/', and the endpoint stripped of '/'; headers merge with the client's winning; None data sends no body; bytes go out unchanged with no Content-Type added; any other value is encoded and marked as JSON; verb and params pass through |
| `Requester.TrailingSlashDoubles` | typesense_aio/requester.py:85 | a node whose text ends in '/' yields "//" where node and endpoint meet |
| `Requester.Classify` | typesense_aio/requester.py:93-113 | a transport error fails and blames the node; a 2xx returns the body and blames nothing; any other status fails with `resolve_exception(status)` and the body, and blames the node iff that class is in the service tuple |
| `Requester.RetriedIffQuarantined` | typesense_aio/requester.py:93-113 | a failed attempt is retried exactly when it quarantined its node |
| `Requester.Finish` | typesense_aio/requester.py:115-202 | a verb method returns None iff it is a `get` that got ObjectNotFound; other failures pass unchanged; a success returns the raw body, or with `as_json` the decoded body or the decoder's error |
| `Requester.RawFinish` | typesense_aio/requester.py:134-202 | a verb other than `get`, asked for raw content, returns the body on success and passes every failure on |
| `Requester.NotFoundIsNoResult` | typesense_aio/requester.py:115-132 | a verb method answers None iff it is a `get` whose attempt got a 404, and a 404 never quarantines |
| `Requester.Handled` | typesense_aio/requester.py:115-202 | the verb's handling of the retry loop's result: LookupError passes through; success only on a 2xx or a `get`'s 404; the raw body, or the decoded body, or the decoder's error on a 2xx that does not decode |
| `Requester.ProbeVerdict` | typesense_aio/requester.py:36-55 | a healthy node passes; an unhealthy one passes iff the probe is a 2xx whose body decodes to `{"ok": True}`; it raises iff the probe is a transport error or a 2xx the decoder rejects |
| `Requester.Requester.constructor` | typesense_aio/requester.py:19-25 | the configuration, the headers with the API key, a pool of the given nodes, an empty quarantine |
| `Requester.Requester.Create` | typesense_aio/requester.py:19-25 | construction fails iff some configured URL fails validation, with the ValueError message of the first such URL; otherwise every configured URL has a sane node, every pool node is a fresh node built from a configured URL, and nothing is quarantined |
| `Requester.Requester.GetNode` | typesense_aio/requester.py:32-34 | None iff the pool is empty, otherwise a member of the pool |
| `Requester.Requester.RequestOnce` | typesense_aio/requester.py:73-113 | with an empty pool, LookupError and nothing changes; otherwise the request built for the chosen pool node is sent and the outcome classified, and the node moves to the quarantine exactly when the outcome blames it |
| `Requester.Requester.Attempt` | typesense_aio/requester.py:73-113 | one attempt as the retry loop sees it: the node used, the result, and how the pool moved |
| `Requester.Requester.Turn` | typesense_aio/requester.py:73-113 | one turn of the retry loop: after a blamed attempt its node has left the pool and the loop can go on; otherwise the call is settled with that attempt's result and its node still in the pool |
| `Requester.Requester.Request` | typesense_aio/requester.py:26-113 | the retry loop: at most `retries` attempts, each on a different node of the pool; every attempt but the last blamed its node and that node left the pool; the last attempt's node stays iff its outcome blamed nothing; no other node leaves; the result is the last attempt's; a retried failure means the budget was spent; an empty pool ends the loop with LookupError |
| `Requester.Requester.AllSent` | typesense_aio/requester.py:85-102 | every request sent carries the call's verb, params, body, URL and the API key header |
| `Requester.Requester.Perform` | typesense_aio/requester.py:115-202 | the verb methods: every request sent has the call's shape; each attempt takes a different node, every node but the last leaves the pool, the last stays iff its outcome blamed nothing; every attempt before the last was a service failure, and a reply of the retried kind means the budget was spent, so any other failure ends the call at once; the reply is the verb's handling of the last attempt; success only on a 2xx, or on a 404 answering a `get` (which gives None) |
| `Requester.Requester.Passing` | typesense_aio/requester.py:36-65 | the nodes the sweep restores: exactly those whose check returns the node |
| `Requester.Requester.ProbeAll` | typesense_aio/requester.py:57-62 | the checks of all quarantined nodes: the passing ones, or an exception iff some check raises |
| `Requester.Requester.RestoreAll` | typesense_aio/requester.py:63-65 | restoring the passing nodes moves exactly them from the quarantine to the pool |
| `Requester.Requester.CheckQuarantinedNodes` | typesense_aio/requester.py:57-65 | the sweep raises iff some check raises, and then nothing changes; otherwise exactly the passing nodes move back to the pool, and the pool grows by their number |
| `Text.SplitJoin` | typesense_aio/documents.py:86-95 | splitting a joined sequence gives back its pieces when none holds the separator |
| `Text.JoinSplit` | typesense_aio/documents.py:95 | joining the pieces of a split gives back the sequence |
| `Text.StripMiddle` | typesense_aio/requester.py:85 | `strip` removes only the given character, from both ends |
| `Text.StripFramed` | typesense_aio/requester.py:85 | one leading and any trailing run of the character come off a middle that neither starts nor ends with it |
| `Text.DecimalRoundTrip` | typesense_aio/nodes.py:51 | the decimal text of a number reads back as that number |
| `Documents.DocumentUnderCollection` | typesense_aio/documents.py:21-51 | a document's endpoint is its collection's endpoint, one '/', and the id verbatim |
| `Documents.CollectionUrl` | typesense_aio/documents.py:49-177 | the URL for the collection endpoint plus "", "/import", "/export" or "/search" is the node, '/', and that path without its leading '/' |
| `Documents.DocumentUrl` | typesense_aio/documents.py:21-23 | the URL of a document whose id is non-empty and does not end in '/' is the node followed by "/collections/<name>/documents/<id>" |
| `Documents.EmptyIdIsCollection` | typesense_aio/documents.py:21-23 | the proxy of the empty id requests the same URL as the collection |
| `Documents.AnsweredAtOnce` | typesense_aio/requester.py:26-30 | a verb call whose first answer blames no node (a `get` answered 404, say) tries exactly one node and leaves the pool as it was |
| `Documents.RawAnswer` | typesense_aio/documents.py:88-93 | a raw-content POST succeeds iff its last attempt was a 2xx, and then returns that body; otherwise it fails with LookupError after attempts that all blamed their node, or with the last attempt's own failure |
| `Documents.DocumentProxy.constructor` | typesense_aio/documents.py:13-23 | the proxy keeps the requester, the collection and the id, and its endpoint is the document's endpoint |
| `Documents.DocumentProxy.Retrieve` | typesense_aio/documents.py:25-31 | a GET of the document; None iff the last attempt got a 404; other failures escape |
| `Documents.DocumentProxy.Update` | typesense_aio/documents.py:33-37 | a PATCH of the document endpoint whose body is the document encoded as JSON |
| `Documents.DocumentProxy.Delete` | typesense_aio/documents.py:39-40 | a DELETE of the document endpoint, which never answers None |
| `Documents.Dumped` | typesense_aio/documents.py:86 | one JSON text per document, in input order |
| `Documents.ImportBodyLines` | typesense_aio/documents.py:86 | for a non-empty list whose JSON texts contain no newline, splitting the import body at '\n' gives back exactly those texts, in order |
| `Documents.FirstUndecodable` | typesense_aio/documents.py:97-99 | the first line `json.loads` rejects: every earlier line decodes and that one does not |
| `Documents.DecodeAll` | typesense_aio/documents.py:95-101 | success iff every line decodes, with one object per line in order; otherwise the error of the first line that fails |
| `Documents.DecodeLines` | typesense_aio/documents.py:97-101 | the decoding loop computes `DecodeAll` |
| `Documents.ImportReplyRoundTrip` | typesense_aio/documents.py:95-101 | an answer written one result per line by an encoder that `loads` inverts decodes to exactly those results |
| `Documents.SearchParams` | typesense_aio/documents.py:138-177 | (with the corrected join; see ## Findings) a key is sent iff it is one of the search arguments and its entry is not None, with that entry's value |
| `Documents.SearchSendsQuery` | typesense_aio/documents.py:138-176 | `q` is always sent, as given |
| `Documents.SearchJoinsQueryBy` | typesense_aio/documents.py:140-176 | `query_by` is sent iff given, a list joined with ',' |
| `Documents.SearchJoinsWeights` | typesense_aio/documents.py:145-176 | (with the corrected join; see ## Findings) `query_by_weights` is sent iff given, a list joined with ',' |
| `Documents.SearchKeepsFalsy` | typesense_aio/documents.py:151-176 | only None is dropped: a `prefix` of False is sent |
| `Documents.QueryByRoundTrip` | typesense_aio/documents.py:140-144 | a joined list of field names splits back into the names when none contains ',' |
| `Documents.WeightsRoundTrip` | typesense_aio/documents.py:145-149 | joined non-negative weights split back into one decimal text per weight, each reading back as that weight |
| `Documents.JoinedAgrees` | typesense_aio/documents.py:140-149 | the join as written fails exactly on a non-empty list of integers, and agrees with the corrected join everywhere else |
| `Documents.WeightsListRaises` | typesense_aio/documents.py:145-149 | the weights `[1, 2]` raise as written, where the corrected join gives "1,2" |
| `Documents.Documents.constructor` | typesense_aio/documents.py:45-51 | an empty proxy table and the collection's endpoint |
| `Documents.Documents.GetItem` | typesense_aio/documents.py:53-58 | a cached id returns the same proxy and changes nothing; a new id gets a fresh proxy for that id, filed under it; no other entry changes |
| `Documents.Documents.GetItemTwice` | typesense_aio/documents.py:53-58 | two lookups of one id return the same object, and the table grows by at most one entry |
| `Documents.Documents.Write` | typesense_aio/documents.py:60-82 | `create`, `upsert` and `update`: a POST to the collection endpoint with `action` set to the operation and the document encoded as JSON |
| `Documents.Documents.Import` | typesense_aio/documents.py:67-101 | `import_` and `create_many`: a POST of the import body as bytes with the caller's params; on a 2xx answer the result is the decoding of its lines; otherwise the call's own failure propagates: LookupError once the pool ran dry after service failures, or the failure of the last attempt; every attempt before the last was a service failure, a retried failure means the budget was spent, each attempt takes a different node, every node but the last leaves the pool and the last stays iff its outcome blamed nothing |
| `Documents.Documents.Export` | typesense_aio/documents.py:103-107 | a GET of the export endpoint that returns the raw body, or None on a 404 |
| `Documents.Documents.Search` | typesense_aio/documents.py:109-177 | (with the corrected join; see ## Findings) a GET of the search endpoint whose query parameters are exactly `SearchParams` |
| `Documents.Documents.Delete` | typesense_aio/documents.py:179-183 | a DELETE of the collection endpoint with the caller's params |

## Left out

- Networking, async, TLS and timeouts. The HTTP client is replaced by the outcome sequence, so the timeout values (`config.timeout`, `retry_interval`, `healthcheck_interval`, all floats) do not appear.
- `quarantine_guard` is not modelled. It is an endless sleep-and-sweep loop, i.e. scheduling.
- The concurrency of `asyncio.gather` is not modelled. The sweep checks the nodes one after the other. When several checks raise, the model does not say which exception escapes.
- The retry decorator comes from `the_retry`, whose code is not part of this model. It is modelled as a loop of `retries` attempts (at least one) that retries exactly the exceptions caught as service exceptions. Backoff sleeps are not modelled.
- `urllib.parse.urlparse` and its port-range check are not modelled. A node is built from an already parsed `ParsedUrl`.
- Nodes.NodeTextRoundTrip: holds only for hosts that are not IPv6 literals. For a host holding ':' the text `scheme://host:port/path` cannot be split back unambiguously, so `Nodes.NodeTextInjective` carries the same restriction.
- Nodes.Nodes.constructor: takes nodes that are all healthy. The requester only passes fresh nodes. Passing an unhealthy node object would break the pool invariant the model keeps.
- Header names are compared exactly. httpx's case-insensitive headers and the aliasing of a caller's dict are not modelled.
- How httpx encodes query-parameter values (True as "true", the order of parameters) is not modelled. Parameters are a map of values.
- JSON numbers are integers only; floating point is not modelled. The escaping of quotes that Python's `repr` applies to a node's text is not modelled.
- `node.py`, `keys.py`, `types.py`, `config.py` and the other resource wrappers are not part of this model.
- The `HTTPStatusError`-on-404 branch of `retrieve` is not modelled. `get` already turns a 404 into None, so the branch cannot run.
- The requests the requester sends appear in contracts only as ghost values (`used` and `RequestsFor`). The out-parameter is the reply.
- Requester.Requester.Perform: the reply's decoded value is related to the decoder's output, not to any particular JSON text, because orjson is a parameter.
- Documents.Documents.Import: `json.dumps` followed by `str.encode` is one function from a document to bytes. Joining the texts and then encoding is taken to equal joining the encoded texts with the byte 10, which holds for UTF-8.
- Documents.SearchSendsQuery: the search argument lemmas cover `q`, `query_by`, `query_by_weights` and `prefix` by name. The other arguments are covered by `Documents.SearchParams` through the `Entry` table.

## Findings

| source | as written | input that shows it | evidently intended | confidence | as-written member | corrected member |
|---|---|---|---|---|---|---|
| typesense_aio/documents.py:145-149 | `query_by_weights` is declared as a list of integers, but a list is passed to `str.join`, which accepts only strings | `search(q="*", query_by_weights=[1, 2])` raises TypeError before any request is sent | the weights sent as the text "1,2" | high; not executed | `Documents.WeightsListRaises` (with `Documents.JoinedAsWritten`) | `Documents.WeightsRoundTrip` (with `Documents.Joined`, which `Documents.SearchParams` uses) |
