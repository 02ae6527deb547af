/**
 * The request dispatcher (typesense_aio/requester.py): picks a sane node, builds the request,
 * classifies what the network answered, quarantines the node when it is to blame, retries on
 * service failures, and sweeps the quarantine with health probes. The network is an outcome
 * parameter; orjson's encoder and decoder are function values the requester is given.
 */
module Requester {
  import opened Wrappers
  import opened Text
  import opened Wire
  import opened Exc
  import opened Nodes

  const ApiKeyHeader: string := "X-TYPESENSE-API-KEY"
  const ContentType: string := "Content-Type"
  const JsonMediaType: string := "application/json"
  const HealthPath: string := "/health"

  type Headers = map<string, string>

  type Params = Option<map<string, Value>>

  /** `Configuration`: the node URLs (parsed), the API key, and `retries`, the attempt budget. */
  datatype Configuration = Configuration(urls: seq<ParsedUrl>, apiKey: string, retries: int)

  datatype Verb = GET | POST | PUT | PATCH | DELETE

  /** The `data` argument: None, a bytes object, or any other value, which goes to the encoder. */
  datatype Data = NoData | Raw(bytes: Bytes) | JsonData(value: Json)

  /** The arguments of one verb method call. */
  datatype Call = Call(
    verb: Verb,
    endpoint: string,
    data: Data,
    params: Params,
    headers: Option<Headers>,
    asJson: bool)

  /** What the HTTP client is asked to send. */
  datatype HttpRequest = HttpRequest(
    verb: Verb,
    url: string,
    content: Option<Bytes>,
    headers: Headers,
    params: Params)

  /** What the network makes of one request: a transport error, or a response. */
  datatype SendOutcome = TransportError | Response(status: int, content: Bytes)

  /** Why a call fails. */
  datatype Failure =
    | NoValidNodes                              // LookupError('No valid nodes.')
    | Transport                                 // the transport error, re-raised
    | Status(kind: ErrorClass, message: Bytes)  // resolve_exception(status)(content)
    | Undecodable(content: Bytes)               // the decoder raised on a success body

  /** The retry wrapper tries again after exactly the exceptions that are instances of a service class. */
  predicate Retried(f: Failure) {
    f.Transport? || (f.Status? && CaughtAsService(f.kind))
  }

  /** `__init__`'s headers: the given dict (or a new one) with the API key written in. */
  function ClientHeaders(given: Option<Headers>, apiKey: string): (h: Headers)
    ensures ApiKeyHeader in h && h[ApiKeyHeader] == apiKey
    ensures h.Keys == given.GetOr(map[]).Keys + {ApiKeyHeader}
    ensures forall k :: k in given.GetOr(map[]) && k != ApiKeyHeader ==> h[k] == given.value[k]
  {
    given.GetOr(map[])[ApiKeyHeader := apiKey]
  }

  /** `(headers or {}) | self.headers`: a new dict in which the client's entries win. */
  function MergeHeaders(caller: Option<Headers>, client: Headers): Headers {
    caller.GetOr(map[]) + client
  }

  /** The merged dict holds every key of both; the client's value wins on a shared key. */
  lemma MergeHeadersSpec(caller: Option<Headers>, client: Headers)
    ensures var h := MergeHeaders(caller, client);
      && h.Keys == caller.GetOr(map[]).Keys + client.Keys
      && (forall k :: k in client ==> h[k] == client[k])
      && (forall k :: k in caller.GetOr(map[]) && k !in client ==> h[k] == caller.value[k])
  {
  }

  /** `f"{node}/{endpoint.strip('/')}"`. */
  function UrlFor(nodeText: string, endpoint: string): string {
    nodeText + "/" + Strip(endpoint, '/')
  }

  /** The body `_request` sends for the `data` argument. */
  function Payload(data: Data, encode: Json -> Bytes): Option<Bytes> {
    match data
    case NoData => None
    case Raw(b) => Some(b)
    case JsonData(v) => Some(encode(v))
  }

  /** The request `_request` hands to the HTTP client once it holds a node. */
  function BuildRequest(call: Call, nodeText: string, client: Headers, encode: Json -> Bytes): HttpRequest {
    var merged := MergeHeaders(call.headers, client);
    var url := UrlFor(nodeText, call.endpoint);
    var headers := if call.data.JsonData? then merged[ContentType := JsonMediaType] else merged;
    HttpRequest(call.verb, url, Payload(call.data, encode), headers, call.params)
  }

  /**
   * What is sent: the node's text, one '/', and the endpoint without slashes at either end; the
   * client's headers over the caller's; None stays None; bytes go out unchanged and add no
   * Content-Type; any other value is encoded and marked as JSON.
   */
  lemma RequestShape(call: Call, nodeText: string, client: Headers, encode: Json -> Bytes)
    ensures var req := BuildRequest(call, nodeText, client, encode);
      && |req.url| > |nodeText|
      && req.url[..|nodeText| + 1] == nodeText + "/"
      && req.url[|nodeText| + 1..] == Strip(call.endpoint, '/')
      && (forall k :: k in client && k != ContentType ==> k in req.headers && req.headers[k] == client[k])
      && (forall k :: k in call.headers.GetOr(map[]) && k !in client && k != ContentType
            ==> k in req.headers && req.headers[k] == call.headers.value[k])
      && (req.content.None? <==> call.data.NoData?)
      && (call.data.Raw? ==> req.content == Some(call.data.bytes))
      && (!call.data.JsonData? ==> req.headers == MergeHeaders(call.headers, client))
      && (call.data.JsonData? ==> req.content == Some(encode(call.data.value))
                                  && ContentType in req.headers && req.headers[ContentType] == JsonMediaType)
      && req.verb == call.verb && req.params == call.params
  {
    var url := UrlFor(nodeText, call.endpoint);
    MergeHeadersSpec(call.headers, client);
    assert url[..|nodeText| + 1] == nodeText + "/";
    assert url[|nodeText| + 1..] == Strip(call.endpoint, '/');
  }

  /** A node whose path ends in '/' gives a URL with "//" where node and endpoint meet. */
  lemma TrailingSlashDoubles(nodeText: string, endpoint: string)
    requires |nodeText| > 0 && nodeText[|nodeText| - 1] == '/'
    ensures UrlFor(nodeText, endpoint)[|nodeText| - 1..|nodeText| + 1] == "//"
  {
  }

  /** What one attempt does with the network's answer: its result, and whether the node is blamed. */
  datatype Decision = Decision(result: Result<Bytes, Failure>, quarantine: bool)

  /** The `try`/`except`/`else` of `_request`. */
  function Classify(o: SendOutcome): (d: Decision)
    ensures d.quarantine <==> o.TransportError? || (o.Response? && (o.status == 0 || o.status == 500 || o.status == 503))
    ensures d.result.Success? <==> o.Response? && 200 <= o.status < 300
    ensures d.result.Success? ==> d.result.value == o.content
    ensures o.TransportError? ==> d.result == Failure(Transport)
    ensures o.Response? && d.result.Failure? ==> d.result.error == Status(ResolveException(o.status), o.content)
  {
    match o
    case TransportError => Decision(Failure(Transport), true)
    case Response(status, content) =>
      if !(200 <= status < 300) then
        var error := ResolveException(status);
        Decision(Failure(Status(error, content)), IsServiceException(error))
      else
        Decision(Success(content), false)
  }

  /** The retry wrapper retries a failed attempt exactly when that attempt quarantined its node. */
  lemma RetriedIffQuarantined(o: SendOutcome)
    requires Classify(o).result.Failure?
    ensures Retried(Classify(o).result.error) <==> Classify(o).quarantine
  {
    if o.Response? {
      ServiceTestsAgree(o.status);
    }
  }

  /** The outcomes that blame the node: a transport error, or status 0, 500 or 503. */
  predicate ServiceFailure(o: SendOutcome) {
    o.TransportError? || o.status == 0 || o.status == 500 || o.status == 503
  }

  /**
   * The nodes a call took from the pool `before`, leaving `after`: each taken node is a different
   * member of `before`; all but the last are gone from the pool, the last stays exactly when
   * `lastStays`; no other node left.
   */
  ghost predicate Moved(before: set<Node>, after: set<Node>, used: seq<Node>, lastStays: bool) {
    && (forall i, j :: 0 <= i < j < |used| ==> used[i] != used[j])
    && (forall i :: 0 <= i < |used| ==> used[i] in before)
    && (forall i :: 0 <= i < |used| - 1 ==> used[i] !in after)
    && (|used| >= 1 ==> (used[|used| - 1] in after <==> lastStays))
    && (forall n :: n in before && n !in after ==> n in used)
  }

  /** The last attempt's node stays in the pool: the call reached a node and its outcome blamed nothing. */
  predicate LastStays<R>(outcomes: seq<SendOutcome>, used: seq<Node>, result: Result<R, Failure>) {
    result != Failure(NoValidNodes) && 1 <= |used| <= |outcomes| && !ServiceFailure(outcomes[|used| - 1])
  }

  /** The retry loop between attempts: the nodes `used` so far all blamed and left the pool `p0`. */
  ghost predicate Progress(p0: set<Node>, q0: set<Node>, p: set<Node>, q: set<Node>,
                           outcomes: seq<SendOutcome>, used: seq<Node>)
  {
    && |used| <= |outcomes|
    && p <= p0 && q == q0 + (p0 - p) && |p| == |p0| - |used|
    && AllService(outcomes, |used|)
    && Moved(p0, p, used, false)
  }

  /** The retry loop after its last attempt, which gave `result`. */
  ghost predicate Settled(p0: set<Node>, q0: set<Node>, p: set<Node>, q: set<Node>,
                          outcomes: seq<SendOutcome>, used: seq<Node>, result: Result<Bytes, Failure>)
  {
    && 1 <= |used| <= |outcomes|
    && p <= p0 && q == q0 + (p0 - p)
    && AllService(outcomes, |used| - 1)
    && result == Classify(outcomes[|used| - 1]).result
    && |p| == |p0| - |used| + (if ServiceFailure(outcomes[|used| - 1]) then 0 else 1)
    && Moved(p0, p, used, !ServiceFailure(outcomes[|used| - 1]))
  }

  /** Taking one more node `n` from the pool `p1`, which keeps it exactly when `stays`. */
  lemma MoveStep(before: set<Node>, p1: set<Node>, p2: set<Node>, used: seq<Node>, n: Node, stays: bool)
    requires Moved(before, p1, used, false) && p1 <= before && n in p1
    requires p2 == if stays then p1 else p1 - {n}
    ensures Moved(before, p2, used + [n], stays)
  {
  }

  /** The first `n` outcomes all blame their node. */
  predicate AllService(os: seq<SendOutcome>, n: int)
    requires n <= |os|
  {
    forall j :: 0 <= j < n ==> ServiceFailure(os[j])
  }

  /** Moving one element from `p` to `q`, as "what left `p` joins `q`". */
  lemma MoveOne<T>(p: set<T>, q: set<T>, n: T)
    requires n in p
    ensures p - {n} <= p && q + {n} == q + (p - (p - {n})) && |p - {n}| == |p| - 1
  {
    assert p - (p - {n}) == {n};
  }

  /** No node is both sane and quarantined. */
  lemma SidesApart(ns: Nodes)
    requires ns.Valid()
    ensures ns.pool !! ns.quarantined
  {
    forall n | n in ns.pool ensures n !in ns.quarantined {
      assert n.healthy;
    }
  }

  /** Adding a set disjoint from `p` adds its size. */
  lemma DisjointUnionSize<T>(p: set<T>, d: set<T>)
    requires p !! d
    ensures |p + d| == |p| + |d|
  {
  }

  /** Two moves from the pool to the quarantine make one. */
  lemma Compose<T>(p0: set<T>, q0: set<T>, p1: set<T>, q1: set<T>, p2: set<T>, q2: set<T>)
    requires p1 <= p0 && q1 == q0 + (p0 - p1)
    requires p2 <= p1 && q2 == q1 + (p1 - p2)
    ensures p2 <= p0 && q2 == q0 + (p0 - p2)
  {
  }

  /** Taking one more element out of what is left adds one to what is done. */
  lemma GrowDone<T>(all: set<T>, rest: set<T>, n: T)
    requires rest <= all && n in rest
    ensures all - (rest - {n}) == (all - rest) + {n}
    ensures |all - (rest - {n})| == |all - rest| + 1
  {
    assert n !in all - rest;
  }

  /** One more outcome that blames its node extends the run. */
  lemma ExtendAllService(os: seq<SendOutcome>, n: nat)
    requires n < |os| && AllService(os, n) && ServiceFailure(os[n])
    ensures AllService(os, n + 1)
  {
  }

  /** What a verb method returns: the decoded body, the raw body, or None. */
  datatype Reply = Decoded(value: Json) | Content(bytes: Bytes) | NoResult

  /** The verb methods after the request: `get` turns ObjectNotFound into None; `as_json` selects decoding. */
  function Finish(verb: Verb, asJson: bool, r: Result<Bytes, Failure>, decode: Bytes -> Option<Json>): (out: Result<Reply, Failure>)
    ensures out == Success(NoResult)
            <==> verb == GET && r.Failure? && r.error.Status? && r.error.kind == ObjectNotFound
    ensures r.Failure? && out.Failure? ==> out.error == r.error
    ensures r.Success? && !asJson ==> out == Success(Content(r.value))
    ensures r.Success? && asJson ==>
              out == (match decode(r.value)
                      case Some(j) => Success(Decoded(j))
                      case None => Failure(Undecodable(r.value)))
  {
    match r
    case Failure(e) =>
      if verb == GET && e.Status? && e.kind == ObjectNotFound then Success(NoResult) else Failure(e)
    case Success(content) =>
      if !asJson then Success(Content(content))
      else match decode(content)
        case Some(j) => Success(Decoded(j))
        case None => Failure(Undecodable(content))
  }

  /** A verb other than `get`, asked for the raw body, returns it on success and passes every failure on. */
  lemma RawFinish(verb: Verb, r: Result<Bytes, Failure>, decode: Bytes -> Option<Json>)
    requires verb != GET
    ensures Finish(verb, false, r, decode) == (if r.Success? then Success(Content(r.value)) else Failure(r.error))
  {
  }

  /** A `get` answers None exactly on a 404, which leaves the node in the pool; other verbs never answer None. */
  lemma NotFoundIsNoResult(verb: Verb, asJson: bool, o: SendOutcome, decode: Bytes -> Option<Json>)
    ensures Finish(verb, asJson, Classify(o).result, decode) == Success(NoResult)
            <==> verb == GET && o.Response? && o.status == 404
    ensures o.Response? && o.status == 404 ==> !Classify(o).quarantine
  {
    if o.Response? && Classify(o).result.Failure? {
      ResolveInverse(o.status, ObjectNotFound);
    }
  }
  /**
   * The verb's handling of the retry loop's result `raw`, where `used` are the nodes it took: a
   * reply is a success only on a 2xx, or on a 404 answering a `get`, which gives None.
   */
  lemma Handled<N>(verb: Verb, asJson: bool, outcomes: seq<SendOutcome>, used: seq<N>,
                   raw: Result<Bytes, Failure>, reply: Result<Reply, Failure>, decode: Bytes -> Option<Json>)
    requires |used| <= |outcomes|
    requires raw == Failure(NoValidNodes) ==> AllService(outcomes, |used|)
    requires raw != Failure(NoValidNodes) ==> |used| >= 1 && raw == Classify(outcomes[|used| - 1]).result
    requires reply == Finish(verb, asJson, raw, decode)
    ensures reply == Failure(NoValidNodes) <==> raw == Failure(NoValidNodes)
    ensures reply.Success? ==>
              |used| >= 1 && outcomes[|used| - 1].Response?
              && (PassesRaiseForStatus(outcomes[|used| - 1].status)
                  || (verb == GET && outcomes[|used| - 1].status == 404))
    ensures reply == Success(NoResult) <==>
              verb == GET && |used| >= 1 && outcomes[|used| - 1].Response? && outcomes[|used| - 1].status == 404
    ensures reply.Success? && !asJson && reply.value != NoResult ==>
              reply.value == Content(outcomes[|used| - 1].content)
    ensures reply.Success? && asJson && reply.value != NoResult ==>
              reply.value.Decoded? && decode(outcomes[|used| - 1].content) == Some(reply.value.value)
    ensures reply.Failure? && asJson && |used| >= 1 && outcomes[|used| - 1].Response?
            && PassesRaiseForStatus(outcomes[|used| - 1].status) ==>
              reply.error == Undecodable(outcomes[|used| - 1].content)
    ensures reply != Failure(NoValidNodes) ==>
              |used| >= 1 && reply == Finish(verb, asJson, Classify(outcomes[|used| - 1]).result, decode)
    ensures reply.Failure? && Retried(reply.error) ==> raw == Failure(reply.error)
  {
    if raw != Failure(NoValidNodes) {
      NotFoundIsNoResult(verb, asJson, outcomes[|used| - 1], decode);
    } else if |used| >= 1 {
      assert ServiceFailure(outcomes[|used| - 1]);
    }
  }


  /** A health probe of one node, as the network answers it. */
  datatype ProbeOutcome = ProbeTransportError | ProbeResponse(status: int, content: Bytes)

  /** Why a probe raises instead of answering. */
  datatype ProbeFailure = ProbeTransport | ProbeUndecodable(content: Bytes)

  /** httpx's `raise_for_status` lets exactly the 2xx responses through. */
  predicate PassesRaiseForStatus(status: int) {
    200 <= status < 300
  }

  /** `health == {"ok": True}` under Python's equality, where True equals 1. */
  predicate IsHealthReply(j: Json) {
    j.JObject? && j.fields.Keys == {"ok"} && (j.fields["ok"] == JBool(true) || j.fields["ok"] == JInt(1))
  }

  /** The URL `check_quarantined_node` probes. */
  function HealthUrl(n: Node): string {
    n.Text() + HealthPath
  }

  /**
   * `check_quarantined_node`: true when it returns the node, false when it returns None; a
   * transport error and an undecodable success body escape as exceptions.
   */
  function ProbeVerdict(healthy: bool, o: ProbeOutcome, decode: Bytes -> Option<Json>): (r: Result<bool, ProbeFailure>)
    ensures r == Success(true) <==>
              healthy || (o.ProbeResponse? && PassesRaiseForStatus(o.status)
                          && decode(o.content).Some? && IsHealthReply(decode(o.content).value))
    ensures r.Failure? <==>
              !healthy && (o.ProbeTransportError?
                           || (PassesRaiseForStatus(o.status) && decode(o.content).None?))
  {
    if healthy then Success(true)
    else match o
      case ProbeTransportError => Failure(ProbeTransport)
      case ProbeResponse(status, content) =>
        if !PassesRaiseForStatus(status) then Success(false)
        else match decode(content)
          case None => Failure(ProbeUndecodable(content))
          case Some(health) => Success(IsHealthReply(health))
  }

  /** The `Requester`: configuration, the client's headers, the node pool, and the codec. */
  class Requester {
    const config: Configuration
    const headers: Headers
    const nodes: Nodes
    const encoder: Json -> Bytes
    const decoder: Bytes -> Option<Json>

    /** The pool keeps its invariant and stays disjoint; the API key header holds the configured key. */
    ghost predicate Valid()
      reads this, nodes, nodes.pool, nodes.quarantined
    {
      && nodes.Valid()
      && nodes.Disjoint()
      && ApiKeyHeader in headers
      && headers[ApiKeyHeader] == config.apiKey
      && config.retries >= 1
    }

    /** The body of `__init__` once the URLs have become nodes. */
    constructor (config: Configuration, given: Option<Headers>, nodeSeq: seq<Node>,
                 encoder: Json -> Bytes, decoder: Bytes -> Option<Json>)
      requires config.retries >= 1
      requires forall i :: 0 <= i < |nodeSeq| ==> nodeSeq[i].healthy
      ensures Valid() && fresh(nodes)
      ensures this.config == config && headers == ClientHeaders(given, config.apiKey)
      ensures nodes.pool == FirstOfEachUrl(nodeSeq) && nodes.quarantined == {}
      ensures forall i :: 0 <= i < |nodeSeq| ==> HasUrl(nodes.pool, nodeSeq[i].url)
      ensures this.encoder == encoder && this.decoder == decoder
    {
      this.config := config;
      headers := ClientHeaders(given, config.apiKey);
      nodes := new Nodes(nodeSeq);
      this.encoder := encoder;
      this.decoder := decoder;
    }

    /**
     * `__init__`: the requester, or the ValueError of the first URL that is not a valid node.
     * Every configured URL has a sane node and none is quarantined.
     */
    static method Create(config: Configuration, given: Option<Headers>,
                         encoder: Json -> Bytes, decoder: Bytes -> Option<Json>)
      returns (r: Result<Requester, string>)
      requires config.retries >= 1
      ensures r.Failure? <==> exists i :: 0 <= i < |config.urls| && Normalise(config.urls[i]).Failure?
      ensures r.Failure? ==> exists i :: 0 <= i < |config.urls| && Normalise(config.urls[i]).Failure?
                                         && (forall j :: 0 <= j < i ==> Normalise(config.urls[j]).Success?)
                                         && r.error == Normalise(config.urls[i]).error
      ensures r.Success? ==> fresh(r.value) && fresh(r.value.nodes) && r.value.Valid()
      ensures r.Success? ==> r.value.config == config && r.value.headers == ClientHeaders(given, config.apiKey)
      ensures r.Success? ==> r.value.nodes.quarantined == {}
                             && forall i :: 0 <= i < |config.urls| ==> HasUrl(r.value.nodes.pool, config.urls[i])
      ensures r.Success? ==> forall n :: n in r.value.nodes.pool ==>
                               fresh(n) && exists i :: 0 <= i < |config.urls| && n.url == config.urls[i]
    {
      var sources := seq(|config.urls|, i requires 0 <= i < |config.urls| => FromString(config.urls[i]));
      assert forall i :: 0 <= i < |config.urls| ==> (Rejects(sources[i]) <==> Normalise(config.urls[i]).Failure?);
      var made := NodesFrom(sources);
      if made.Failure? {
        var i :| 0 <= i < |sources| && Rejects(sources[i]) && (forall j :: 0 <= j < i ==> !Rejects(sources[j]))
                 && made.error == Normalise(sources[i].url).error;
        assert forall j :: 0 <= j < i ==> Normalise(config.urls[j]).Success?;
        return Failure(made.error);
      }
      var q := new Requester(config, given, made.value, encoder, decoder);
      forall i | 0 <= i < |config.urls| ensures HasUrl(q.nodes.pool, config.urls[i]) {
        assert made.value[i].url == config.urls[i];
        assert HasUrl(q.nodes.pool, made.value[i].url);
      }
      forall n | n in q.nodes.pool
        ensures fresh(n) && exists i :: 0 <= i < |config.urls| && n.url == config.urls[i]
      {
        var i :| 0 <= i < |made.value| && FirstOfUrl(made.value, i) && made.value[i] == n;
        assert n.url == config.urls[i];
      }
      r := Success(q);
    }

    /** `get_node`: some sane node, or None when there is none. */
    method GetNode() returns (n: Option<Node>)
      ensures n.None? <==> nodes.pool == {}
      ensures n.Some? ==> n.value in nodes.pool
    {
      if nodes.Len() > 0 {
        var x :| x in nodes.pool;
        n := Some(x);
      } else {
        n := None;
      }
    }

    /**
     * `_request`: one attempt. Without a sane node it fails with LookupError and touches nothing.
     * Otherwise it sends the request built for the chosen node and returns the classified outcome,
     * moving the node to the quarantine exactly when the outcome blames it.
     */
    method RequestOnce(call: Call, outcome: SendOutcome)
      returns (node: Option<Node>, sent: Option<HttpRequest>, result: Result<Bytes, Failure>)
      requires Valid()
      modifies nodes, nodes.pool
      ensures Valid()
      ensures node.None? <==> old(nodes.pool) == {}
      ensures node.None? ==> sent.None? && result == Failure(NoValidNodes) && unchanged(nodes)
      ensures node.Some? ==>
                && node.value in old(nodes.pool)
                && sent == Some(BuildRequest(call, node.value.Text(), headers, encoder))
                && sent.value.headers[ApiKeyHeader] == config.apiKey
                && result == Classify(outcome).result
      ensures node.Some? && Classify(outcome).quarantine ==>
                && !node.value.healthy
                && nodes.pool == old(nodes.pool) - {node.value}
                && nodes.quarantined == old(nodes.quarantined) + {node.value}
      ensures node.Some? && !Classify(outcome).quarantine ==> unchanged(nodes)
    {
      node := GetNode();
      if node.None? {
        return None, None, Failure(NoValidNodes);
      }
      var n := node.value;
      var req := BuildRequest(call, n.Text(), headers, encoder);
      RequestShape(call, n.Text(), headers, encoder);
      sent := Some(req);
      var d := Classify(outcome);
      if d.quarantine {
        var _ := nodes.Quarantine(n);
      }
      result := d.result;
    }

    /**
     * `req` carries `call`'s verb, parameters and body to `call`'s endpoint on the node `nodeText`,
     * with the API key; JSON data is marked as such, bytes and None add no header.
     */
    predicate Sends(req: HttpRequest, call: Call, nodeText: string) {
      && req.verb == call.verb && req.params == call.params
      && req.content == Payload(call.data, encoder)
      && req.url == UrlFor(nodeText, call.endpoint)
      && ApiKeyHeader in req.headers && req.headers[ApiKeyHeader] == config.apiKey
      && (call.data.JsonData? ==> ContentType in req.headers && req.headers[ContentType] == JsonMediaType)
      && (!call.data.JsonData? ==> req.headers == MergeHeaders(call.headers, headers))
    }

    /** The requests `_request` builds for `call` on the nodes `used`, in order. */
    function RequestsFor(call: Call, used: seq<Node>): (rs: seq<HttpRequest>)
      ensures |rs| == |used|
    {
      if used == [] then []
      else RequestsFor(call, used[..|used| - 1]) + [BuildRequest(call, used[|used| - 1].Text(), headers, encoder)]
    }

    /** The i-th request is the one built for the i-th node. */
    lemma {:induction false} RequestsForAt(call: Call, used: seq<Node>, i: nat)
      requires i < |used|
      ensures RequestsFor(call, used)[i] == BuildRequest(call, used[i].Text(), headers, encoder)
    {
      if i < |used| - 1 {
        RequestsForAt(call, used[..|used| - 1], i);
      }
    }

    /** Every request built for `call` on the nodes `used` has the shape `Sends` describes. */
    lemma AllSent(call: Call, used: seq<Node>)
      requires Valid()
      ensures forall i :: 0 <= i < |used| ==> Sends(RequestsFor(call, used)[i], call, used[i].Text())
    {
      forall i | 0 <= i < |used| ensures Sends(RequestsFor(call, used)[i], call, used[i].Text()) {
        RequestsForAt(call, used, i);
        RequestShape(call, used[i].Text(), headers, encoder);
        MergeHeadersSpec(call.headers, headers);
      }
    }

    /** One attempt as the retry loop sees it: the node it used, what it returned, how the pool moved. */
    method Attempt(call: Call, o: SendOutcome) returns (result: Result<Bytes, Failure>, node: Option<Node>)
      requires Valid()
      modifies nodes, nodes.pool
      ensures Valid()
      ensures node.None? <==> old(nodes.pool) == {}
      ensures node.None? ==> result == Failure(NoValidNodes)
      ensures node.Some? ==> result == Classify(o).result && node.value in old(nodes.pool)
      ensures nodes.pool <= old(nodes.pool)
      ensures nodes.quarantined == old(nodes.quarantined) + (old(nodes.pool) - nodes.pool)
      ensures |nodes.pool| == |old(nodes.pool)| - (if node.Some? && Classify(o).quarantine then 1 else 0)
      ensures node.Some? ==> nodes.pool == if Classify(o).quarantine then old(nodes.pool) - {node.value} else old(nodes.pool)
    {
      ghost var p0, q0 := nodes.pool, nodes.quarantined;
      var sent;
      node, sent, result := RequestOnce(call, o);
      if node.Some? && Classify(o).quarantine {
        MoveOne(p0, q0, node.value);
      } else {
        assert p0 - nodes.pool == {};
      }
    }

    /**
     * `self.request`: `_request` under the retry wrapper, with `retries` attempts, the i-th request
     * sent meeting `outcomes[i]`. Each attempt takes a different node; every attempt but the last
     * failed with a service error and quarantined its node, and the last node stays in the pool
     * exactly when its outcome blamed nothing. The call ends on a result that is not retried, on
     * an empty pool, or when the budget is spent.
     */
    method Request(call: Call, outcomes: seq<SendOutcome>)
      returns (result: Result<Bytes, Failure>, ghost used: seq<Node>)
      requires Valid()
      requires |outcomes| >= config.retries
      modifies nodes, nodes.pool
      ensures Valid()
      ensures nodes.pool <= old(nodes.pool)
      ensures nodes.quarantined == old(nodes.quarantined) + (old(nodes.pool) - nodes.pool)
      ensures |used| <= config.retries
      ensures result == Failure(NoValidNodes) ==>
                && nodes.pool == {} && |used| < config.retries && |old(nodes.pool)| == |used|
                && AllService(outcomes, |used|)
      ensures result != Failure(NoValidNodes) ==>
                && |used| >= 1 && AllService(outcomes, |used| - 1)
                && result == Classify(outcomes[|used| - 1]).result
                && |nodes.pool| == |old(nodes.pool)| - |used| + (if ServiceFailure(outcomes[|used| - 1]) then 0 else 1)
      ensures result.Failure? && Retried(result.error) ==> |used| == config.retries
      ensures Moved(old(nodes.pool), nodes.pool, used, LastStays(outcomes, used, result))
    {
      used := [];
      ghost var p0, q0 := nodes.pool, nodes.quarantined;
      var tries := 0;
      while true
        invariant tries == |used| < config.retries
        invariant Valid()
        invariant Progress(p0, q0, nodes.pool, nodes.quarantined, outcomes, used)
        decreases config.retries - tries
      {
        var res, node := Turn(call, outcomes[tries], outcomes, used, p0, q0);
        if node.None? {
          return res, used;
        }
        used := used + [node.value];
        tries := tries + 1;
        result := res;
        if !(res.Failure? && Retried(res.error)) || tries == config.retries {
          return;
        }
      }
    }

    /**
     * One turn of the retry loop: the attempt meeting `o`, the outcome `outcomes[|used|]`, with the bookkeeping of the
     * nodes the call has taken so far from the pool `p0` (the quarantine then `q0`).
     */
    method Turn(call: Call, o: SendOutcome, ghost outcomes: seq<SendOutcome>, ghost used: seq<Node>,
                ghost p0: set<Node>, ghost q0: set<Node>)
      returns (result: Result<Bytes, Failure>, node: Option<Node>)
      requires Valid() && |used| < |outcomes| && o == outcomes[|used|]
      requires Progress(p0, q0, nodes.pool, nodes.quarantined, outcomes, used)
      modifies nodes, nodes.pool
      ensures Valid()
      ensures node.None? ==> result == Failure(NoValidNodes) && old(nodes.pool) == nodes.pool == {} && nodes.quarantined == old(nodes.quarantined)
      ensures node.Some? ==> Settled(p0, q0, nodes.pool, nodes.quarantined, outcomes, used + [node.value], result)
      ensures node.Some? ==> (result.Failure? && Retried(result.error) <==> ServiceFailure(outcomes[|used|]))
      ensures node.Some? && ServiceFailure(outcomes[|used|]) ==>
                Progress(p0, q0, nodes.pool, nodes.quarantined, outcomes, used + [node.value])
    {
      ghost var p1, q1 := nodes.pool, nodes.quarantined;
      result, node := Attempt(call, o);
      if node.Some? {
        Compose(p0, q0, p1, q1, nodes.pool, nodes.quarantined);
        MoveStep(p0, p1, nodes.pool, used, node.value, !Classify(o).quarantine);
        if Classify(o).result.Failure? {
          RetriedIffQuarantined(o);
        }
        if ServiceFailure(o) {
          ExtendAllService(outcomes, |used|);
        }
      }
    }

    /**
     * The verb methods `get`, `post`, `put`, `patch` and `delete`: `self.request` followed by the
     * verb's handling of the response. A reply is a success only on a 2xx response, or on a 404
     * answering a `get`.
     */
    method Perform(call: Call, outcomes: seq<SendOutcome>)
      returns (reply: Result<Reply, Failure>, ghost used: seq<Node>)
      requires Valid()
      requires |outcomes| >= config.retries
      modifies nodes, nodes.pool
      ensures Valid()
      ensures nodes.pool <= old(nodes.pool)
      ensures nodes.quarantined == old(nodes.quarantined) + (old(nodes.pool) - nodes.pool)
      ensures |used| <= config.retries
      ensures forall i :: 0 <= i < |used| ==> used[i] in old(nodes.pool)
      ensures forall i :: 0 <= i < |used| ==> Sends(RequestsFor(call, used)[i], call, used[i].Text())
      ensures reply.Success? ==>
                |used| >= 1 && outcomes[|used| - 1].Response?
                && (PassesRaiseForStatus(outcomes[|used| - 1].status)
                    || (call.verb == GET && outcomes[|used| - 1].status == 404))
      ensures reply == Success(NoResult) <==>
                call.verb == GET && |used| >= 1 && outcomes[|used| - 1].Response? && outcomes[|used| - 1].status == 404
      ensures reply.Success? && !call.asJson && reply.value != NoResult ==>
                reply.value == Content(outcomes[|used| - 1].content)
      ensures reply.Success? && call.asJson && reply.value != NoResult ==>
                reply.value.Decoded? && decoder(outcomes[|used| - 1].content) == Some(reply.value.value)
      ensures reply.Failure? && call.asJson && |used| >= 1 && outcomes[|used| - 1].Response?
              && PassesRaiseForStatus(outcomes[|used| - 1].status) ==>
                reply.error == Undecodable(outcomes[|used| - 1].content)
      ensures reply == Failure(NoValidNodes) ==> nodes.pool == {} && AllService(outcomes, |used|)
      ensures reply != Failure(NoValidNodes) ==>
                |used| >= 1 && reply == Finish(call.verb, call.asJson, Classify(outcomes[|used| - 1]).result, decoder)
      ensures reply != Failure(NoValidNodes) ==> AllService(outcomes, |used| - 1)
      ensures reply.Failure? && Retried(reply.error) ==> |used| == config.retries
      ensures Moved(old(nodes.pool), nodes.pool, used, LastStays(outcomes, used, reply))
    {
      var raw;
      raw, used := Request(call, outcomes);
      AllSent(call, used);
      reply := Finish(call.verb, call.asJson, raw, decoder);
      Handled(call.verb, call.asJson, outcomes, used, raw, reply, decoder);
    }

    /** `check_quarantined_node` for `n`, the probe answering the request to `n`'s health URL. */
    function Verdict(n: Node, probe: string -> ProbeOutcome): Result<bool, ProbeFailure>
      reads n
    {
      ProbeVerdict(n.healthy, probe(HealthUrl(n)), decoder)
    }

    /** The nodes of `s` whose check returns the node. */
    function Passing(s: set<Node>, probe: string -> ProbeOutcome): (r: set<Node>)
      reads s
      ensures r <= s
      ensures forall n :: n in s ==> (n in r <==> Verdict(n, probe) == Success(true))
    {
      set n | n in s && Verdict(n, probe) == Success(true)
    }

    /**
     * `check_quarantined_nodes`: every quarantined node is checked; when a check raises, the
     * exception escapes and nothing is restored; otherwise exactly the nodes whose check
     * passed move back to the pool, marked healthy.
     */
    method CheckQuarantinedNodes(probe: string -> ProbeOutcome) returns (r: Outcome<ProbeFailure>)
      requires Valid()
      modifies nodes, nodes.quarantined
      ensures Valid()
      ensures r.Fail? <==> exists n :: n in old(nodes.quarantined) && old(Verdict(n, probe)).Failure?
      ensures r.Fail? ==> unchanged(nodes) && unchanged(old(nodes.quarantined))
      ensures r.Pass? ==>
                && nodes.pool == old(nodes.pool) + old(Passing(nodes.quarantined, probe))
                && nodes.quarantined == old(nodes.quarantined) - old(Passing(nodes.quarantined, probe))
                && nodes.Len() == old(nodes.Len()) + |old(Passing(nodes.quarantined, probe))|
    {
      var checked := ProbeAll(probe);
      if checked.Failure? {
        return Fail(checked.error);
      }
      SidesApart(nodes);
      RestoreAll(checked.value);
      DisjointUnionSize(old(nodes.pool), checked.value);
      r := Pass;
    }

    /** The `gather` of the checks: the nodes whose check passed, or an exception one of them raised. */
    method ProbeAll(probe: string -> ProbeOutcome) returns (r: Result<set<Node>, ProbeFailure>)
      ensures r.Failure? <==> exists n :: n in nodes.quarantined && Verdict(n, probe).Failure?
      ensures r.Success? ==> r.value == Passing(nodes.quarantined, probe)
    {
      var todo := nodes.quarantined;
      var passed: set<Node> := {};
      while todo != {}
        invariant todo <= nodes.quarantined
        invariant passed == Passing(nodes.quarantined - todo, probe)
        invariant forall n :: n in nodes.quarantined - todo ==> Verdict(n, probe).Success?
        decreases |todo|
      {
        var n :| n in todo;
        var v := Verdict(n, probe);
        if v.Failure? {
          return Failure(v.error);
        }
        if v.value {
          passed := passed + {n};
        }
        todo := todo - {n};
      }
      r := Success(passed);
    }

    /** One turn of the restoring loop: `restore` of the next passing node. */
    method RestoreNext(n: Node, ghost passed: set<Node>, ghost rest: set<Node>, ghost p0: set<Node>, ghost q0: set<Node>)
      requires Valid()
      requires n in rest && rest <= passed && passed <= q0
      requires nodes.pool == p0 + (passed - rest) && nodes.quarantined == q0 - (passed - rest)
      modifies nodes, n
      ensures Valid()
      ensures nodes.pool == p0 + (passed - (rest - {n})) && nodes.quarantined == q0 - (passed - (rest - {n}))
    {
      GrowDone(passed, rest, n);
      var _ := nodes.Restore(n);
    }

    /** The loop over the passing nodes, restoring each. */
    method RestoreAll(passed: set<Node>)
      requires Valid()
      requires passed <= nodes.quarantined
      modifies nodes, nodes.quarantined
      ensures Valid()
      ensures nodes.pool == old(nodes.pool) + passed
      ensures nodes.quarantined == old(nodes.quarantined) - passed
    {
      var rest := passed;
      ghost var p0, q0 := nodes.pool, nodes.quarantined;
      while rest != {}
        invariant Valid()
        invariant rest <= passed
        invariant nodes.pool == p0 + (passed - rest) && nodes.quarantined == q0 - (passed - rest)
        decreases |rest|
      {
        var n :| n in rest;
        RestoreNext(n, passed, rest, p0, q0);
        rest := rest - {n};
      }
    }
  }
}
