/**
 * The documents resource (typesense_aio/documents.py): the endpoints of a collection's documents,
 * a memoising table of per-document proxies, and the calls that create, import, export, search
 * and delete documents through the requester. `json.dumps` (followed by `str.encode`) and
 * `json.loads` are function values; the network is the outcome sequence the requester is given.
 */
module Documents {
  import opened Wrappers
  import opened Text
  import opened Wire
  import opened Nodes
  import opened Requester

  /** `f"/collections/{collection_name}/documents"`. */
  function CollectionEndpoint(name: string): string {
    "/collections/" + name + "/documents"
  }

  /** `f"/collections/{collection_name}/documents/{document_id}"`. */
  function DocumentEndpoint(name: string, id: string): string {
    CollectionEndpoint(name) + "/" + id
  }

  /** A document's endpoint is its collection's endpoint, one '/', and the id, verbatim. */
  lemma DocumentUnderCollection(name: string, id: string)
    ensures |DocumentEndpoint(name, id)| == |CollectionEndpoint(name)| + 1 + |id|
    ensures DocumentEndpoint(name, id)[..|CollectionEndpoint(name)| + 1] == CollectionEndpoint(name) + "/"
    ensures DocumentEndpoint(name, id)[|CollectionEndpoint(name)| + 1..] == id
  {
  }

  /** The text of an endpoint under a collection once the leading '/' is gone. */
  function CollectionPath(name: string, suffix: string): string {
    "collections/" + name + "/documents" + suffix
  }

  /**
   * The URL requested for the collection's endpoint followed by `suffix` ("", "/import",
   * "/export" or "/search"): the node, one '/', and the endpoint without its leading '/'.
   */
  lemma CollectionUrl(nodeText: string, name: string, suffix: string)
    requires suffix == [] || suffix[|suffix| - 1] != '/'
    ensures UrlFor(nodeText, CollectionEndpoint(name) + suffix) == nodeText + "/" + CollectionPath(name, suffix)
  {
    var m := CollectionPath(name, suffix);
    LeadingSlashOnly(m, CollectionEndpoint(name) + suffix);
  }

  /** The URL requested for a document whose id is not empty and does not end in '/'. */
  lemma DocumentUrl(nodeText: string, name: string, id: string)
    requires id != [] && id[|id| - 1] != '/'
    ensures UrlFor(nodeText, DocumentEndpoint(name, id)) == nodeText + "/" + CollectionPath(name, "/" + id)
  {
    var m := CollectionPath(name, "/" + id);
    LeadingSlashOnly(m, DocumentEndpoint(name, id));
  }

  /** An endpoint that is '/' followed by a path neither starting nor ending in '/' loses just the '/'. */
  lemma LeadingSlashOnly(m: string, e: string)
    requires e == "/" + m && m != [] && m[0] != '/' && m[|m| - 1] != '/'
    ensures Strip(e, '/') == m
  {
    assert e == ['/'] + m + seq(0, _ => '/');
    StripFramed(m, '/', 0);
  }

  /** The proxy of the empty id requests its collection's URL: the trailing '/' is stripped. */
  lemma EmptyIdIsCollection(nodeText: string, name: string)
    ensures UrlFor(nodeText, DocumentEndpoint(name, "")) == UrlFor(nodeText, CollectionEndpoint(name))
  {
    var m := CollectionPath(name, "");
    var e := CollectionEndpoint(name);
    assert e == "/" + m;
    assert DocumentEndpoint(name, "") == e + "/";
    StripFramed(m, '/', 1);
    assert e + "/" == ['/'] + m + seq(1, _ => '/');
    LeadingSlashOnly(m, e);
  }

  /**
   * What a verb method call through the requester amounts to: the nodes it used stay within the
   * attempt budget, each request sent carries the call, and the reply is the verb's handling of
   * the last attempt, every earlier attempt having blamed its node, unless the pool ran dry after
   * attempts that all blamed their node. A failure of the retried kind means the budget was spent.
   */
  ghost predicate Answered(rq: Requester, call: Call, outcomes: seq<SendOutcome>,
                           used: seq<Node>, reply: Result<Reply, Failure>)
  {
    && |used| <= rq.config.retries <= |outcomes|
    && (forall i :: 0 <= i < |used| ==> rq.Sends(rq.RequestsFor(call, used)[i], call, used[i].Text()))
    && (reply == Failure(NoValidNodes) ==> AllService(outcomes, |used|))
    && (reply != Failure(NoValidNodes) ==>
          |used| >= 1 && reply == Finish(call.verb, call.asJson, Classify(outcomes[|used| - 1]).result, rq.decoder)
          && AllService(outcomes, |used| - 1))
    && (reply.Failure? && Retried(reply.error) ==> |used| == rq.config.retries)
  }

  /**
   * A first answer that blames no node ends a verb method call: only one node was tried, and the
   * pool lost nothing (a `get` answered 404 first, say, is neither retried nor quarantines).
   */
  lemma AnsweredAtOnce(rq: Requester, call: Call, outcomes: seq<SendOutcome>, used: seq<Node>,
                       reply: Result<Reply, Failure>, before: set<Node>, after: set<Node>)
    requires Answered(rq, call, outcomes, used, reply)
    requires Moved(before, after, used, LastStays(outcomes, used, reply)) && after <= before
    requires |outcomes| >= 1 && !ServiceFailure(outcomes[0]) && reply != Failure(NoValidNodes)
    ensures |used| == 1 && after == before
  {
  }

  /** A verb method call on `rq`, seen through `Answered` and `Moved`. */
  method Dispatch(rq: Requester, call: Call, outcomes: seq<SendOutcome>)
    returns (reply: Result<Reply, Failure>, ghost used: seq<Node>)
    requires rq.Valid() && |outcomes| >= rq.config.retries
    modifies rq.nodes, rq.nodes.pool
    ensures rq.Valid()
    ensures rq.nodes.pool <= old(rq.nodes.pool)
    ensures rq.nodes.quarantined == old(rq.nodes.quarantined) + (old(rq.nodes.pool) - rq.nodes.pool)
    ensures Answered(rq, call, outcomes, used, reply)
    ensures reply == Failure(NoValidNodes) ==> rq.nodes.pool == {}
    ensures Moved(old(rq.nodes.pool), rq.nodes.pool, used, LastStays(outcomes, used, reply))
  {
    reply, used := rq.Perform(call, outcomes);
  }

  /** The last attempt of the `n` made was answered with a 2xx. */
  predicate Delivered(outcomes: seq<SendOutcome>, n: int) {
    1 <= n <= |outcomes| && outcomes[n - 1].Response? && PassesRaiseForStatus(outcomes[n - 1].status)
  }

  /** A call other than a `get` that asks for the raw body succeeds exactly when its last attempt was a 2xx, with that body. */
  lemma RawAnswer(rq: Requester, call: Call, outcomes: seq<SendOutcome>, used: seq<Node>, reply: Result<Reply, Failure>)
    requires Answered(rq, call, outcomes, used, reply) && call.verb != GET && !call.asJson
    ensures Delivered(outcomes, |used|) ==> reply == Success(Content(outcomes[|used| - 1].content))
    ensures !Delivered(outcomes, |used|) ==> reply.Failure?
    ensures !Delivered(outcomes, |used|) ==>
              (reply == Failure(NoValidNodes) && AllService(outcomes, |used|))
              || (|used| >= 1 && reply.Failure? && Classify(outcomes[|used| - 1]).result == Failure(reply.error))
  {
    if reply != Failure(NoValidNodes) {
      RawFinish(call.verb, Classify(outcomes[|used| - 1]).result, rq.decoder);
    } else if |used| >= 1 {
      assert ServiceFailure(outcomes[|used| - 1]);
    }
  }

  /** A call other than a `get` that sends raw bytes and asks for the raw body, seen through `RawAnswer`. */
  method RawDispatch(rq: Requester, call: Call, outcomes: seq<SendOutcome>)
    returns (reply: Result<Reply, Failure>, ghost used: seq<Node>)
    requires rq.Valid() && |outcomes| >= rq.config.retries
    requires call.verb != GET && !call.asJson && call.data.Raw?
    modifies rq.nodes, rq.nodes.pool
    ensures rq.Valid()
    ensures rq.nodes.pool <= old(rq.nodes.pool)
    ensures rq.nodes.quarantined == old(rq.nodes.quarantined) + (old(rq.nodes.pool) - rq.nodes.pool)
    ensures |used| <= rq.config.retries <= |outcomes|
    ensures forall i :: 0 <= i < |used| ==>
              var req := rq.RequestsFor(call, used)[i];
              req.verb == call.verb && req.params == call.params && req.content == Some(call.data.bytes)
    ensures Delivered(outcomes, |used|) ==> reply == Success(Content(outcomes[|used| - 1].content))
    ensures !Delivered(outcomes, |used|) ==> reply.Failure?
    ensures !Delivered(outcomes, |used|) ==>
              (reply == Failure(NoValidNodes) && rq.nodes.pool == {} && AllService(outcomes, |used|))
              || (|used| >= 1 && Classify(outcomes[|used| - 1]).result == Failure(reply.error))
    ensures reply != Failure(NoValidNodes) ==> |used| >= 1 && AllService(outcomes, |used| - 1)
    ensures reply.Failure? && Retried(reply.error) ==> |used| == rq.config.retries
    ensures Moved(old(rq.nodes.pool), rq.nodes.pool, used, LastStays(outcomes, used, reply))
  {
    reply, used := Dispatch(rq, call, outcomes);
    RawAnswer(rq, call, outcomes, used, reply);
  }

  /** `_DocumentProxy`: the calls on one document of a collection. */
  class DocumentProxy {
    const requester: Requester
    const collectionName: string
    const documentId: string
    const endpoint: string

    constructor (requester: Requester, collectionName: string, documentId: string)
      ensures this.requester == requester && this.collectionName == collectionName
      ensures this.documentId == documentId
      ensures endpoint == DocumentEndpoint(collectionName, documentId)
    {
      this.requester := requester;
      this.collectionName := collectionName;
      this.documentId := documentId;
      endpoint := DocumentEndpoint(collectionName, documentId);
    }

    function RetrieveCall(): Call {
      Call(GET, endpoint, NoData, None, None, true)
    }

    function UpdateCall(document: Json): Call {
      Call(PATCH, endpoint, JsonData(document), None, None, true)
    }

    function DeleteCall(): Call {
      Call(DELETE, endpoint, NoData, None, None, true)
    }

    /** `retrieve`: a `get` of the document; a 404 answers None, any other failure escapes. */
    method Retrieve(outcomes: seq<SendOutcome>) returns (reply: Result<Reply, Failure>, ghost used: seq<Node>)
      requires requester.Valid() && |outcomes| >= requester.config.retries
      modifies requester.nodes, requester.nodes.pool
      ensures requester.Valid()
      ensures requester.nodes.pool <= old(requester.nodes.pool)
      ensures requester.nodes.quarantined == old(requester.nodes.quarantined) + (old(requester.nodes.pool) - requester.nodes.pool)
      ensures Answered(requester, RetrieveCall(), outcomes, used, reply)
      ensures Moved(old(requester.nodes.pool), requester.nodes.pool, used, LastStays(outcomes, used, reply))
      ensures reply == Success(NoResult) <==>
                |used| >= 1 && outcomes[|used| - 1].Response? && outcomes[|used| - 1].status == 404
    {
      reply, used := Dispatch(requester, RetrieveCall(), outcomes);
    }

    /** `update`: the document is sent, encoded as JSON, in a PATCH to the document's endpoint. */
    method Update(document: Json, outcomes: seq<SendOutcome>) returns (reply: Result<Reply, Failure>, ghost used: seq<Node>)
      requires requester.Valid() && |outcomes| >= requester.config.retries
      modifies requester.nodes, requester.nodes.pool
      ensures requester.Valid()
      ensures requester.nodes.pool <= old(requester.nodes.pool)
      ensures requester.nodes.quarantined == old(requester.nodes.quarantined) + (old(requester.nodes.pool) - requester.nodes.pool)
      ensures Answered(requester, UpdateCall(document), outcomes, used, reply)
      ensures Moved(old(requester.nodes.pool), requester.nodes.pool, used, LastStays(outcomes, used, reply))
      ensures forall i :: 0 <= i < |used| ==>
                requester.RequestsFor(UpdateCall(document), used)[i].content == Some(requester.encoder(document))
    {
      reply, used := Dispatch(requester, UpdateCall(document), outcomes);
    }

    /** `delete`: a DELETE of the document's endpoint. */
    method Delete(outcomes: seq<SendOutcome>) returns (reply: Result<Reply, Failure>, ghost used: seq<Node>)
      requires requester.Valid() && |outcomes| >= requester.config.retries
      modifies requester.nodes, requester.nodes.pool
      ensures requester.Valid()
      ensures requester.nodes.pool <= old(requester.nodes.pool)
      ensures requester.nodes.quarantined == old(requester.nodes.quarantined) + (old(requester.nodes.pool) - requester.nodes.pool)
      ensures Answered(requester, DeleteCall(), outcomes, used, reply)
      ensures Moved(old(requester.nodes.pool), requester.nodes.pool, used, LastStays(outcomes, used, reply))
      ensures reply != Success(NoResult)
    {
      reply, used := Dispatch(requester, DeleteCall(), outcomes);
    }
  }

  /** Why a bulk import fails: the call itself, or a line of the answer that `json.loads` rejects. */
  datatype ImportError = CallFailed(failure: Failure) | LineUndecodable(index: nat, line: Bytes)

  /** Each document's JSON text, in input order. */
  function Dumped(docs: seq<Json>, dumps: Json -> Bytes): (lines: seq<Bytes>)
    ensures |lines| == |docs|
    ensures forall i :: 0 <= i < |docs| ==> lines[i] == dumps(docs[i])
  {
    seq(|docs|, i requires 0 <= i < |docs| => dumps(docs[i]))
  }

  /** `"\n".join([json.dumps(d) for d in documents]).encode()`. */
  function ImportBody(docs: seq<Json>, dumps: Json -> Bytes): Bytes {
    Join(Dumped(docs, dumps), Newline)
  }

  /**
   * The server finds each document on a line of its own, in input order: `json.dumps` writes no
   * raw newline, so splitting the body at '\n' gives back exactly the documents' texts.
   */
  lemma ImportBodyLines(docs: seq<Json>, dumps: Json -> Bytes)
    requires |docs| >= 1
    requires forall i :: 0 <= i < |docs| ==> Newline !in dumps(docs[i])
    ensures Split(ImportBody(docs, dumps), Newline) == Dumped(docs, dumps)
  {
    SplitJoin(Dumped(docs, dumps), Newline);
  }

  /** The index of the first line `loads` rejects, or the number of lines when it rejects none. */
  function FirstUndecodable(lines: seq<Bytes>, loads: Bytes -> Option<Json>): (k: nat)
    ensures k <= |lines|
    ensures forall i :: 0 <= i < k ==> loads(lines[i]).Some?
    ensures k < |lines| ==> loads(lines[k]).None?
  {
    if lines == [] then 0
    else if loads(lines[0]).None? then 0
    else 1 + FirstUndecodable(lines[1..], loads)
  }

  /**
   * The result of the decoding loop of `import_`: one decoded object per line, in order, or the
   * exception `json.loads` raises on the first line it rejects.
   */
  function DecodeAll(lines: seq<Bytes>, loads: Bytes -> Option<Json>): (r: Result<seq<Json>, ImportError>)
    ensures r.Success? <==> forall i :: 0 <= i < |lines| ==> loads(lines[i]).Some?
    ensures r.Success? ==> |r.value| == |lines| && forall i :: 0 <= i < |lines| ==> loads(lines[i]) == Some(r.value[i])
    ensures r.Failure? ==>
              && r.error.LineUndecodable? && r.error.index < |lines| && r.error.line == lines[r.error.index]
              && loads(r.error.line).None?
              && forall i :: 0 <= i < r.error.index ==> loads(lines[i]).Some?
  {
    var k := FirstUndecodable(lines, loads);
    if k == |lines| then Success(seq(|lines|, i requires 0 <= i < |lines| => loads(lines[i]).value))
    else Failure(LineUndecodable(k, lines[k]))
  }

  /** The loop of `import_` that decodes the answer's lines one after the other. */
  method DecodeLines(lines: seq<Bytes>, loads: Bytes -> Option<Json>) returns (r: Result<seq<Json>, ImportError>)
    ensures r == DecodeAll(lines, loads)
  {
    var objects: seq<Json> := [];
    var i := 0;
    while i < |lines|
      invariant 0 <= i <= |lines| && |objects| == i
      invariant forall j :: 0 <= j < i ==> loads(lines[j]) == Some(objects[j])
    {
      var decoded := loads(lines[i]);
      if decoded.None? {
        return Failure(LineUndecodable(i, lines[i]));
      }
      objects := objects + [decoded.value];
      i := i + 1;
    }
    assert objects == DecodeAll(lines, loads).value;
    r := Success(objects);
  }

  /**
   * Round trip of a bulk import: when the server answers with one line per result, written by an
   * encoder that `loads` inverts and that writes no newline, the import returns those results.
   */
  lemma ImportReplyRoundTrip(results: seq<Json>, dumps: Json -> Bytes, loads: Bytes -> Option<Json>)
    requires |results| >= 1
    requires forall i :: 0 <= i < |results| ==> Newline !in dumps(results[i])
    requires forall i :: 0 <= i < |results| ==> loads(dumps(results[i])) == Some(results[i])
    ensures DecodeAll(Split(ImportBody(results, dumps), Newline), loads) == Success(results)
  {
    ImportBodyLines(results, dumps);
    var r := DecodeAll(Dumped(results, dumps), loads);
    assert r.value == results;
  }

  /** The keyword arguments of `search`, in declaration order, as the query parameters name them. */
  const SearchKeys: seq<string> := [
    "q", "query_by", "query_by_weights", "max_hits", "prefix", "filter_by", "sort_by",
    "facet_by", "max_facet_values", "facet_query", "num_typos", "page", "per_page",
    "group_by", "group_limit", "include_fields", "exclude_fields", "highlight_full_fields",
    "highlight_affix_num_tokens", "highlight_start_tag", "highlight_end_tag",
    "snippet_threshold", "drop_tokens_threshold", "typo_tokens_threshold",
    "pinned_hits", "hidden_hits"]

  /** The arguments of `search`; None stands for an argument left at its default. */
  datatype SearchArgs = SearchArgs(
    q: string,
    queryBy: Option<Value>,
    queryByWeights: Option<Value>,
    maxHits: Option<Value>,
    prefix: Option<Value>,
    filterBy: Option<Value>,
    sortBy: Option<Value>,
    facetBy: Option<Value>,
    maxFacetValues: Option<Value>,
    facetQuery: Option<Value>,
    numTypos: Option<Value>,
    page: Option<Value>,
    perPage: Option<Value>,
    groupBy: Option<Value>,
    groupLimit: Option<Value>,
    includeFields: Option<Value>,
    excludeFields: Option<Value>,
    highlightFullFields: Option<Value>,
    highlightAffixNumTokens: Option<Value>,
    highlightStartTag: Option<Value>,
    highlightEndTag: Option<Value>,
    snippetThreshold: Option<Value>,
    dropTokensThreshold: Option<Value>,
    typoTokensThreshold: Option<Value>,
    pinnedHits: Option<Value>,
    hiddenHits: Option<Value>)

  /** The entry of the `params` dict literal under `key`, before None values are dropped. */
  function Entry(a: SearchArgs, key: string): Option<Value> {
    if key == "q" then Some(Str(a.q))
    else if key == "query_by" then if a.queryBy.Some? then Some(Joined(a.queryBy.value)) else None
    else if key == "query_by_weights" then if a.queryByWeights.Some? then Some(Joined(a.queryByWeights.value)) else None
    else if key == "max_hits" then a.maxHits
    else if key == "prefix" then a.prefix
    else if key == "filter_by" then a.filterBy
    else if key == "sort_by" then a.sortBy
    else if key == "facet_by" then a.facetBy
    else if key == "max_facet_values" then a.maxFacetValues
    else if key == "facet_query" then a.facetQuery
    else if key == "num_typos" then a.numTypos
    else if key == "page" then a.page
    else if key == "per_page" then a.perPage
    else if key == "group_by" then a.groupBy
    else if key == "group_limit" then a.groupLimit
    else if key == "include_fields" then a.includeFields
    else if key == "exclude_fields" then a.excludeFields
    else if key == "highlight_full_fields" then a.highlightFullFields
    else if key == "highlight_affix_num_tokens" then a.highlightAffixNumTokens
    else if key == "highlight_start_tag" then a.highlightStartTag
    else if key == "highlight_end_tag" then a.highlightEndTag
    else if key == "snippet_threshold" then a.snippetThreshold
    else if key == "drop_tokens_threshold" then a.dropTokensThreshold
    else if key == "typo_tokens_threshold" then a.typoTokensThreshold
    else if key == "pinned_hits" then a.pinnedHits
    else if key == "hidden_hits" then a.hiddenHits
    else None
  }

  /** ",".join(v) for a list, the value itself otherwise; integers are written in decimal. */
  function Joined(v: Value): Value {
    match v
    case StrList(items) => Str(Join(items, ','))
    case IntList(ints) => Str(Join(seq(|ints|, i requires 0 <= i < |ints| => IntText(ints[i])), ','))
    case _ => v
  }

  /** `",".join(v) if isinstance(v, list) else v` as written: joining integers raises TypeError. */
  function JoinedAsWritten(v: Value): Result<Value, string> {
    match v
    case StrList(items) => Success(Str(Join(items, ',')))
    case IntList(ints) => if ints == [] then Success(Str("")) else Failure("TypeError")
    case _ => Success(v)
  }

  /** The written form fails exactly on a non-empty list of integers and agrees with `Joined` elsewhere. */
  lemma JoinedAgrees(v: Value)
    ensures JoinedAsWritten(v).Failure? <==> v.IntList? && v.ints != []
    ensures JoinedAsWritten(v).Success? ==> JoinedAsWritten(v).value == Joined(v)
  {
  }

  /** The weights `[1, 2]`, as `search` declares them, raise instead of becoming "1,2". */
  lemma WeightsListRaises()
    ensures JoinedAsWritten(IntList([1, 2])).Failure?
    ensures Joined(IntList([1, 2])) == Str("1,2")
  {
    var texts := seq(2, i requires 0 <= i < 2 => IntText([1, 2][i]));
    assert IntText(1) == "1" && IntText(2) == "2";
    assert texts == ["1", "2"];
    assert texts[1..] == ["2"];
    assert Join(texts, ',') == "1" + [','] + "2";
  }

  /** A joined list of field names splits back into the names, when none holds a ','. */
  lemma QueryByRoundTrip(items: seq<string>)
    requires |items| >= 1
    requires forall i :: 0 <= i < |items| ==> ',' !in items[i]
    ensures Joined(StrList(items)).Str? && Split(Joined(StrList(items)).s, ',') == items
  {
    SplitJoin(items, ',');
  }

  /** Joined weights split back into one decimal text per weight, each reading back as that weight. */
  lemma WeightsRoundTrip(ints: seq<int>)
    requires |ints| >= 1
    requires forall i :: 0 <= i < |ints| ==> ints[i] >= 0
    ensures Joined(IntList(ints)).Str?
    ensures var parts := Split(Joined(IntList(ints)).s, ',');
      && |parts| == |ints|
      && forall i :: 0 <= i < |ints| ==>
           (forall j :: 0 <= j < |parts[i]| ==> IsDigit(parts[i][j])) && ParseDecimal(parts[i]) == ints[i]
  {
    var texts := seq(|ints|, i requires 0 <= i < |ints| => IntText(ints[i]));
    forall i | 0 <= i < |texts| ensures ',' !in texts[i] {
      assert texts[i] == DecimalString(ints[i]);
      assert forall j :: 0 <= j < |texts[i]| ==> IsDigit(texts[i][j]);
    }
    SplitJoin(texts, ',');
    forall i | 0 <= i < |ints| ensures ParseDecimal(texts[i]) == ints[i] {
      DecimalRoundTrip(ints[i]);
    }
  }

  /** `{k: v for k, v in params.items() if v is not None}`: the entries that are present. */
  function SearchParams(a: SearchArgs): (p: map<string, Value>)
    ensures forall k :: k in p <==> k in SearchKeys && Entry(a, k).Some?
    ensures forall k :: k in p ==> Entry(a, k) == Some(p[k])
  {
    map k | k in SearchKeys && Entry(a, k).Some? :: Entry(a, k).value
  }

  /** `q` is always sent, as given. */
  lemma SearchSendsQuery(a: SearchArgs)
    ensures "q" in SearchParams(a) && SearchParams(a)["q"] == Str(a.q)
  {
    assert SearchKeys[0] == "q";
  }

  /** `query_by` is sent exactly when given, a list joined with ','. */
  lemma SearchJoinsQueryBy(a: SearchArgs)
    ensures "query_by" in SearchParams(a) <==> a.queryBy.Some?
    ensures a.queryBy.Some? ==> SearchParams(a)["query_by"] == Joined(a.queryBy.value)
  {
    assert SearchKeys[1] == "query_by";
  }

  /** `query_by_weights` is sent exactly when given, a list joined with ','. */
  lemma SearchJoinsWeights(a: SearchArgs)
    ensures "query_by_weights" in SearchParams(a) <==> a.queryByWeights.Some?
    ensures a.queryByWeights.Some? ==> SearchParams(a)["query_by_weights"] == Joined(a.queryByWeights.value)
  {
    assert SearchKeys[2] == "query_by_weights";
  }

  /** Only None is dropped: a `prefix` of False is sent as it is. */
  lemma SearchKeepsFalsy(a: SearchArgs)
    ensures var p := SearchParams(a);
      && ("prefix" in p <==> a.prefix.Some?)
      && (a.prefix.Some? ==> p["prefix"] == a.prefix.value)
  {
    assert SearchKeys[4] == "prefix";
  }

  /** `Documents`: the documents of one collection. */
  class Documents {
    const requester: Requester
    const collectionName: string
    const endpoint: string
    var documents: map<string, DocumentProxy>

    /** Every cached proxy belongs to this collection and to the id it is filed under. */
    ghost predicate Valid()
      reads this
    {
      && endpoint == CollectionEndpoint(collectionName)
      && forall id :: id in documents ==>
           && documents[id].requester == requester
           && documents[id].collectionName == collectionName
           && documents[id].documentId == id
           && documents[id].endpoint == DocumentEndpoint(collectionName, id)
    }

    constructor (requester: Requester, collectionName: string)
      ensures Valid() && documents == map[]
      ensures this.requester == requester && this.collectionName == collectionName
    {
      this.requester := requester;
      this.collectionName := collectionName;
      documents := map[];
      endpoint := CollectionEndpoint(collectionName);
    }

    /**
     * `__getitem__`: the cached proxy of `id`, made and filed on first use. The cache gains at
     * most this one entry and no entry is replaced.
     */
    method GetItem(id: string) returns (p: DocumentProxy)
      requires Valid()
      modifies this
      ensures Valid()
      ensures id in documents && p == documents[id]
      ensures id in old(documents) ==> p == old(documents[id]) && documents == old(documents)
      ensures id !in old(documents) ==> fresh(p) && documents == old(documents)[id := p]
      ensures p.documentId == id && p.endpoint == DocumentEndpoint(collectionName, id)
    {
      if id !in documents {
        var made := new DocumentProxy(requester, collectionName, id);
        documents := documents[id := made];
      }
      p := documents[id];
    }

    /** Two lookups of the same id give the same proxy object. */
    method GetItemTwice(id: string) returns (p: DocumentProxy, q: DocumentProxy)
      requires Valid()
      modifies this
      ensures Valid() && p == q
      ensures |documents| <= |old(documents)| + 1
    {
      p := GetItem(id);
      q := GetItem(id);
    }

    function WriteCall(action: string, document: Json): Call {
      Call(POST, endpoint, JsonData(document), Some(map["action" := Str(action)]), None, true)
    }

    function ImportCall(docs: seq<Json>, params: Params, dumps: Json -> Bytes): Call {
      Call(POST, endpoint + "/import", Raw(ImportBody(docs, dumps)), params, None, false)
    }

    function ExportCall(): Call {
      Call(GET, endpoint + "/export", NoData, None, None, false)
    }

    function SearchCall(a: SearchArgs): Call {
      Call(GET, endpoint + "/search", NoData, Some(SearchParams(a)), None, true)
    }

    function DeleteCall(params: Params): Call {
      Call(DELETE, endpoint, NoData, params, None, true)
    }

    /**
     * `create`, `upsert` and `update`: the document, encoded as JSON, in a POST to the collection's
     * endpoint with the `action` parameter naming the operation.
     */
    method Write(action: string, document: Json, outcomes: seq<SendOutcome>)
      returns (reply: Result<Reply, Failure>, ghost used: seq<Node>)
      requires action == "create" || action == "upsert" || action == "update"
      requires requester.Valid() && |outcomes| >= requester.config.retries
      modifies requester.nodes, requester.nodes.pool
      ensures requester.Valid()
      ensures requester.nodes.pool <= old(requester.nodes.pool)
      ensures requester.nodes.quarantined == old(requester.nodes.quarantined) + (old(requester.nodes.pool) - requester.nodes.pool)
      ensures Answered(requester, WriteCall(action, document), outcomes, used, reply)
      ensures Moved(old(requester.nodes.pool), requester.nodes.pool, used, LastStays(outcomes, used, reply))
      ensures forall i :: 0 <= i < |used| ==>
                var req := requester.RequestsFor(WriteCall(action, document), used)[i];
                && req.verb == POST && req.params == Some(map["action" := Str(action)])
                && req.content == Some(requester.encoder(document))
                && ContentType in req.headers && req.headers[ContentType] == JsonMediaType
    {
      reply, used := Dispatch(requester, WriteCall(action, document), outcomes);
    }

    /**
     * `import_` (and `create_many`, which is the same call): the documents, one JSON text per
     * line, sent as bytes in a POST to the import endpoint; the answer's lines are decoded in order.
     * The call fails unless its last attempt was answered with a 2xx; then the result is the
     * decoding of that answer's lines.
     */
    method Import(docs: seq<Json>, params: Params, dumps: Json -> Bytes, loads: Bytes -> Option<Json>,
                  outcomes: seq<SendOutcome>)
      returns (r: Result<seq<Json>, ImportError>, ghost used: seq<Node>)
      requires requester.Valid() && |outcomes| >= requester.config.retries
      modifies requester.nodes, requester.nodes.pool
      ensures requester.Valid()
      ensures requester.nodes.pool <= old(requester.nodes.pool)
      ensures requester.nodes.quarantined == old(requester.nodes.quarantined) + (old(requester.nodes.pool) - requester.nodes.pool)
      ensures |used| <= requester.config.retries
      ensures forall i :: 0 <= i < |used| ==>
                var req := requester.RequestsFor(ImportCall(docs, params, dumps), used)[i];
                req.verb == POST && req.params == params && req.content == Some(ImportBody(docs, dumps))
      ensures Delivered(outcomes, |used|) ==> r == DecodeAll(Split(outcomes[|used| - 1].content, Newline), loads)
      ensures !Delivered(outcomes, |used|) ==> r.Failure? && r.error.CallFailed?
      ensures !Delivered(outcomes, |used|) ==>
                (r == Failure(CallFailed(NoValidNodes)) && requester.nodes.pool == {} && AllService(outcomes, |used|))
                || (|used| >= 1 && Classify(outcomes[|used| - 1]).result == Failure(r.error.failure))
      ensures r != Failure(CallFailed(NoValidNodes)) ==> |used| >= 1 && AllService(outcomes, |used| - 1)
      ensures r.Failure? && r.error.CallFailed? && Retried(r.error.failure) ==> |used| == requester.config.retries
      ensures Moved(old(requester.nodes.pool), requester.nodes.pool, used,
                    |used| >= 1 && !ServiceFailure(outcomes[|used| - 1]))
    {
      var reply;
      reply, used := RawDispatch(requester, ImportCall(docs, params, dumps), outcomes);
      match reply {
        case Success(Content(bytes)) =>
          r := DecodeLines(Split(bytes, Newline), loads);
        case Failure(e) =>
          r := Failure(CallFailed(e));
      }
      if reply == Failure(NoValidNodes) && |used| >= 1 {
        assert ServiceFailure(outcomes[|used| - 1]);
      }
    }

    /** `export`: a GET of the export endpoint, answered with the raw body, or None on a 404. */
    method Export(outcomes: seq<SendOutcome>) returns (reply: Result<Reply, Failure>, ghost used: seq<Node>)
      requires requester.Valid() && |outcomes| >= requester.config.retries
      modifies requester.nodes, requester.nodes.pool
      ensures requester.Valid()
      ensures requester.nodes.pool <= old(requester.nodes.pool)
      ensures requester.nodes.quarantined == old(requester.nodes.quarantined) + (old(requester.nodes.pool) - requester.nodes.pool)
      ensures Answered(requester, ExportCall(), outcomes, used, reply)
      ensures Moved(old(requester.nodes.pool), requester.nodes.pool, used, LastStays(outcomes, used, reply))
      ensures reply.Success? ==> reply.value.Content? || reply.value.NoResult?
    {
      reply, used := Dispatch(requester, ExportCall(), outcomes);
    }

    /** `search`: a GET of the search endpoint with the present arguments as query parameters. */
    method Search(a: SearchArgs, outcomes: seq<SendOutcome>) returns (reply: Result<Reply, Failure>, ghost used: seq<Node>)
      requires requester.Valid() && |outcomes| >= requester.config.retries
      modifies requester.nodes, requester.nodes.pool
      ensures requester.Valid()
      ensures requester.nodes.pool <= old(requester.nodes.pool)
      ensures requester.nodes.quarantined == old(requester.nodes.quarantined) + (old(requester.nodes.pool) - requester.nodes.pool)
      ensures Answered(requester, SearchCall(a), outcomes, used, reply)
      ensures Moved(old(requester.nodes.pool), requester.nodes.pool, used, LastStays(outcomes, used, reply))
      ensures forall i :: 0 <= i < |used| ==> requester.RequestsFor(SearchCall(a), used)[i].params == Some(SearchParams(a))
    {
      reply, used := Dispatch(requester, SearchCall(a), outcomes);
    }

    /** `delete`: a DELETE of the collection's endpoint with the caller's parameters (a filter). */
    method Delete(params: Params, outcomes: seq<SendOutcome>) returns (reply: Result<Reply, Failure>, ghost used: seq<Node>)
      requires requester.Valid() && |outcomes| >= requester.config.retries
      modifies requester.nodes, requester.nodes.pool
      ensures requester.Valid()
      ensures requester.nodes.pool <= old(requester.nodes.pool)
      ensures requester.nodes.quarantined == old(requester.nodes.quarantined) + (old(requester.nodes.pool) - requester.nodes.pool)
      ensures Answered(requester, DeleteCall(params), outcomes, used, reply)
      ensures Moved(old(requester.nodes.pool), requester.nodes.pool, used, LastStays(outcomes, used, reply))
      ensures forall i :: 0 <= i < |used| ==> requester.RequestsFor(DeleteCall(params), used)[i].params == params
    {
      reply, used := Dispatch(requester, DeleteCall(params), outcomes);
    }
  }
}
