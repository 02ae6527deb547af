/**
 * The node value and the node pool (typesense_aio/nodes.py).
 *
 * A node is an object with a parsed URL and a mutable `healthy` flag; its text is the normalised
 * URL. Node equality takes the flag into account while the hash does not, so Python's set
 * membership, `add` and `discard` are modelled exactly: an entry matches when it is the very
 * object or an equal one.
 */
module Nodes {
  import opened Wrappers
  import opened Text

  /**
   * The parts of `urllib.parse.urlparse(value)` that a node keeps: the six components (whose
   * equality is the equality of the parse result) and the hostname and port derived from netloc.
   */
  datatype ParsedUrl = ParsedUrl(
    scheme: string,
    netloc: string,
    path: string,
    params: string,
    query: string,
    fragment: string,
    hostname: Option<string>,
    port: Option<nat>)

  const HostMissing: string := "Node URL does not contain the host name."
  const PortMissing: string := "Node URL does not contain the port."
  const SchemeMissing: string := "Node URL does not contain the protocol."

  /** `url.hostname` is truthy. */
  predicate HasHost(u: ParsedUrl) {
    u.hostname.Some? && u.hostname.value != ""
  }

  /** `url.port` is truthy: present and not 0. */
  predicate HasPort(u: ParsedUrl) {
    u.port.Some? && u.port.value != 0
  }

  /** `url.scheme` is truthy. */
  predicate HasScheme(u: ParsedUrl) {
    u.scheme != ""
  }

  /** What `Node.__new__` makes of a parsed string: the normalised text, or the ValueError message. */
  function Normalise(u: ParsedUrl): Result<string, string> {
    if !HasHost(u) then Failure(HostMissing)
    else if !HasPort(u) then Failure(PortMissing)
    else if !HasScheme(u) then Failure(SchemeMissing)
    else Success(u.scheme + "://" + u.hostname.value + ":" + DecimalString(u.port.value) + u.path)
  }

  /** Reference for validation: the message of every missing component, host before port before scheme. */
  function MissingComponents(u: ParsedUrl): seq<string> {
    (if HasHost(u) then [] else [HostMissing])
    + (if HasPort(u) then [] else [PortMissing])
    + (if HasScheme(u) then [] else [SchemeMissing])
  }

  /** Construction fails exactly when a component is missing, and names the first missing one. */
  lemma ValidationOrder(u: ParsedUrl)
    ensures Normalise(u).Success? <==> MissingComponents(u) == []
    ensures Normalise(u).Failure? ==> Normalise(u).error == MissingComponents(u)[0]
  {
  }

  /** Query, fragment, params and the rest of netloc do not reach the normalised text. */
  lemma TextIgnoresQuery(u: ParsedUrl, v: ParsedUrl)
    requires u.scheme == v.scheme && u.hostname == v.hostname && u.port == v.port && u.path == v.path
    ensures Normalise(u) == Normalise(v)
  {
  }

  /** The four components the normalised text carries. */
  datatype Components = Components(scheme: string, host: string, port: nat, path: string)

  predicate AllDigits(s: string) {
    forall i :: 0 <= i < |s| ==> IsDigit(s[i])
  }

  /** Splits `scheme://rest` at its first ':'. */
  function SplitScheme(t: string): Option<(string, string)> {
    var i := IndexOf(t, ':');
    if i + 3 <= |t| && t[i..i + 3] == "://" then Some((t[..i], t[i + 3..])) else None
  }

  /** Splits `host:rest` at its first ':'. */
  function SplitHost(t: string): Option<(string, string)> {
    var j := IndexOf(t, ':');
    if j < |t| then Some((t[..j], t[j + 1..])) else None
  }

  /** Splits `port/path` before its first '/'. */
  function SplitPort(t: string): Option<(nat, string)> {
    var k := IndexOf(t, '/');
    if 0 < k && AllDigits(t[..k]) then Some((ParseDecimal(t[..k]), t[k..])) else None
  }

  /** Reads a normalised text `scheme://host:port/path` back into its components. */
  function ParseNodeText(t: string): Option<Components> {
    match SplitScheme(t)
    case None => None
    case Some((scheme, rest)) =>
      match SplitHost(rest)
      case None => None
      case Some((host, after)) =>
        match SplitPort(after)
        case None => None
        case Some((port, path)) => Some(Components(scheme, host, port, path))
  }

  /**
   * What urlparse guarantees of a URL with a netloc: the scheme has no ':', the path is empty or
   * starts with '/'; and a host name that is not an IPv6 literal has no ':' or '/'.
   */
  predicate Separable(u: ParsedUrl)
    requires HasHost(u)
  {
    ':' !in u.scheme && ':' !in u.hostname.value && '/' !in u.hostname.value
    && (u.path == [] || u.path[0] == '/')
  }

  lemma SplitSchemeOf(scheme: string, rest: string)
    requires ':' !in scheme
    ensures SplitScheme(scheme + "://" + rest) == Some((scheme, rest))
  {
    var t := scheme + "://" + rest;
    assert t == scheme + [':'] + ("//" + rest);
    IndexOfAfter(scheme, ':', "//" + rest);
    assert t[|scheme|..|scheme| + 3] == "://";
    assert t[..|scheme|] == scheme;
    assert t[|scheme| + 3..] == rest;
  }

  lemma SplitHostOf(host: string, rest: string)
    requires ':' !in host
    ensures SplitHost(host + ":" + rest) == Some((host, rest))
  {
    var t := host + ":" + rest;
    assert t == host + [':'] + rest;
    IndexOfAfter(host, ':', rest);
    assert t[..|host|] == host;
    assert t[|host| + 1..] == rest;
  }

  lemma SplitPortOf(port: nat, path: string)
    requires path == [] || path[0] == '/'
    ensures SplitPort(DecimalString(port) + path) == Some((port, path))
  {
    var d := DecimalString(port);
    var t := d + path;
    assert '/' !in d by {
      forall c | 0 <= c < |d| ensures d[c] != '/' { assert IsDigit(d[c]); }
    }
    if path == [] {
      assert t == d;
      IndexOfAbsent(d, '/');
    } else {
      assert t == d + ['/'] + path[1..];
      IndexOfAfter(d, '/', path[1..]);
    }
    assert t[..|d|] == d;
    assert t[|d|..] == path;
    DecimalRoundTrip(port);
  }

  /** The normalised text keeps scheme, host, port and path recoverable, the path verbatim. */
  lemma NodeTextRoundTrip(u: ParsedUrl)
    requires Normalise(u).Success? && Separable(u)
    ensures ParseNodeText(Normalise(u).value)
            == Some(Components(u.scheme, u.hostname.value, u.port.value, u.path))
  {
    var host, d := u.hostname.value, DecimalString(u.port.value);
    var afterHost := d + u.path;
    var rest := host + ":" + afterHost;
    assert Normalise(u).value == u.scheme + "://" + rest;
    SplitSchemeOf(u.scheme, rest);
    SplitHostOf(host, afterHost);
    SplitPortOf(u.port.value, u.path);
  }

  /** Two separable URLs with the same text agree on scheme, host, port and path. */
  lemma NodeTextInjective(u: ParsedUrl, v: ParsedUrl)
    requires Normalise(u).Success? && Separable(u)
    requires Normalise(v).Success? && Separable(v)
    requires Normalise(u).value == Normalise(v).value
    ensures u.scheme == v.scheme && u.hostname == v.hostname && u.port == v.port && u.path == v.path
  {
    NodeTextRoundTrip(u);
    NodeTextRoundTrip(v);
  }

  /** A parse result that `Node.__new__` accepts. */
  type ValidUrl = u: ParsedUrl | Normalise(u).Success?
    witness ParsedUrl("http", "h:1", "", "", "", "", Some("h"), Some(1))

  /** `Node`: a `str` holding the normalised URL, with the parse result and a mutable health flag. */
  class Node {
    const url: ValidUrl
    var healthy: bool

    /** The construction from a string that passed validation: a fresh node is healthy. */
    constructor (url: ValidUrl)
      ensures this.url == url && healthy
    {
      this.url := url;
      healthy := true;
    }

    /** The node's `str` value. */
    function Text(): string {
      Normalise(url).value
    }

    /** `__eq__` with another Node: same parse result and same health. */
    predicate EqualsNode(other: Node)
      reads this, other
    {
      url == other.url && healthy == other.healthy
    }

    /** `__eq__` with a str: the normalised text. */
    predicate EqualsText(s: string) {
      Text() == s
    }

    /** `__hash__` is the hash of the parse result; the model keeps the hashed value itself. */
    function HashKey(): ParsedUrl {
      url
    }

    /** `__bool__`. */
    predicate Truthy()
      reads this
    {
      healthy
    }

    /** `__repr__` (the escaping Python's repr applies to quotes in the text is not modelled). */
    function Repr(): string
      reads this
    {
      "<Node '" + Text() + "' status=" + (if healthy then "OK" else "KO") + ">"
    }
  }

  /** Equal nodes hash alike and have equal text; health alone separates nodes of the same URL. */
  lemma EqualityAndHash(a: Node, b: Node)
    ensures a.EqualsNode(b) ==> a.HashKey() == b.HashKey() && a.EqualsText(b.Text())
    ensures a.url == b.url && a.healthy != b.healthy
            ==> !a.EqualsNode(b) && a.HashKey() == b.HashKey() && a.EqualsText(b.Text())
  {
  }

  /** Two nodes with the same text show the same repr exactly when their health agrees. */
  lemma ReprShowsHealth(a: Node, b: Node)
    requires a.Text() == b.Text()
    ensures a.Repr() == b.Repr() <==> a.healthy == b.healthy
  {
    var k := |"<Node '" + a.Text() + "' status="|;
    if a.healthy != b.healthy {
      assert a.Repr()[k] != b.Repr()[k];
    }
  }

  /** The argument of `Node(value)`: a string (already parsed) or an existing node. */
  datatype NodeSource = FromString(url: ParsedUrl) | FromNode(node: Node)

  /** `Node.__new__`: an existing node comes back as that very object; a string is validated. */
  method NewNode(v: NodeSource) returns (r: Result<Node, string>)
    ensures v.FromNode? ==> r == Success(v.node)
    ensures v.FromString? ==> (r.Failure? <==> Normalise(v.url).Failure?)
    ensures v.FromString? && r.Failure? ==> r.error == Normalise(v.url).error
    ensures v.FromString? && r.Success? ==> fresh(r.value) && r.value.url == v.url && r.value.healthy
  {
    match v
    case FromNode(n) =>
      r := Success(n);
    case FromString(u) =>
      var checked := Normalise(u);
      if checked.Failure? {
        r := Failure(checked.error);
      } else {
        var n := new Node(u);
        r := Success(n);
      }
  }

  predicate Rejects(v: NodeSource) {
    v.FromString? && Normalise(v.url).Failure?
  }

  /**
   * The generator `Node(v) for v in iterable` as `set` consumes it: nodes in order, or the
   * ValueError of the first value that fails.
   */
  method NodesFrom(vs: seq<NodeSource>) returns (r: Result<seq<Node>, string>)
    ensures r.Failure? <==> exists i :: 0 <= i < |vs| && Rejects(vs[i])
    ensures r.Failure? ==> exists i :: 0 <= i < |vs| && Rejects(vs[i])
                                      && (forall j :: 0 <= j < i ==> !Rejects(vs[j]))
                                      && r.error == Normalise(vs[i].url).error
    ensures r.Success? ==> |r.value| == |vs|
    ensures r.Success? ==> forall i :: 0 <= i < |vs| && vs[i].FromNode? ==> r.value[i] == vs[i].node
    ensures r.Success? ==> forall i :: 0 <= i < |vs| && vs[i].FromString? ==>
                             fresh(r.value[i]) && r.value[i].url == vs[i].url && r.value[i].healthy
  {
    var acc: seq<Node> := [];
    var i := 0;
    while i < |vs|
      invariant 0 <= i <= |vs| && |acc| == i
      invariant forall j :: 0 <= j < i ==> !Rejects(vs[j])
      invariant forall j :: 0 <= j < i && vs[j].FromNode? ==> acc[j] == vs[j].node
      invariant forall j :: 0 <= j < i && vs[j].FromString? ==>
                  fresh(acc[j]) && acc[j].url == vs[j].url && acc[j].healthy
    {
      var n := NewNode(vs[i]);
      if n.Failure? {
        return Failure(n.error);
      }
      acc := acc + [n.value];
      i := i + 1;
    }
    r := Success(acc);
  }

  /** Python's `x in s` on a set of nodes: some entry is `x` itself or equal to it. */
  predicate Contains(s: set<Node>, x: Node)
    reads s, x
  {
    exists e :: e in s && (e == x || e.EqualsNode(x))
  }

  /** `s.add(x)`: kept out when an equal entry is already there. */
  function Add(s: set<Node>, x: Node): (r: set<Node>)
    reads s, x
  {
    if Contains(s, x) then s else s + {x}
  }

  /** `s.discard(x)`: drops the entry that is `x` or equal to it (a valid pool has at most one). */
  function Discard(s: set<Node>, x: Node): (r: set<Node>)
    reads s, x
  {
    s - set e | e in s && (e == x || e.EqualsNode(x))
  }

  /** Some entry of `s` has parse result `u`. */
  predicate HasUrl(s: set<Node>, u: ParsedUrl) {
    exists e :: e in s && e.url == u
  }

  /** No two entries of `s` share a parse result. */
  ghost predicate UniqueUrls(s: set<Node>) {
    forall a, b :: a in s && b in s && a.url == b.url ==> a == b
  }

  /** No parse result has an entry in both `a` and `b`. */
  predicate UrlDisjoint(a: set<Node>, b: set<Node>) {
    forall p, q :: p in a && q in b ==> p.url != q.url
  }

  /** Moving an entry from one side to the other keeps two URL-disjoint sets URL-disjoint. */
  lemma MoveKeepsDisjoint(a: set<Node>, b: set<Node>, x: Node)
    requires UrlDisjoint(a, b) && UniqueUrls(a) && x in a
    ensures UrlDisjoint(a - {x}, b + {x}) && !HasUrl(b, x.url)
  {
  }

  /** `nodes[i]` is the first node of its parse result in `nodes`. */
  ghost predicate FirstOfUrl(nodes: seq<Node>, i: int)
    requires 0 <= i < |nodes|
  {
    forall j :: 0 <= j < i ==> nodes[j].url != nodes[i].url
  }

  /** The nodes `set(nodes)` keeps when all are healthy: the first one of each parse result. */
  ghost function FirstOfEachUrl(nodes: seq<Node>): set<Node> {
    set i | 0 <= i < |nodes| && FirstOfUrl(nodes, i) :: nodes[i]
  }

  const UnknownNode: string := "Unknown node."

  /** `Nodes`: the known nodes split into the sane `pool` and the `quarantined` ones. */
  class Nodes {
    var pool: set<Node>
    var quarantined: set<Node>

    /**
     * The invariant quarantine and restore keep: pool members are healthy, quarantined ones are
     * not, and neither set holds two entries with the same parse result.
     */
    ghost predicate Valid()
      reads this, pool, quarantined
    {
      && (forall n :: n in pool ==> n.healthy)
      && (forall n :: n in quarantined ==> !n.healthy)
      && UniqueUrls(pool)
      && UniqueUrls(quarantined)
    }

    /** No parse result is both sane and quarantined. */
    predicate Disjoint()
      reads this
    {
      UrlDisjoint(pool, quarantined)
    }

    /** `__len__`: the number of sane nodes. */
    function Len(): nat
      reads this
    {
      |pool|
    }

    /** `Nodes.__init__` over nodes that are all healthy: one entry per parse result, none quarantined. */
    constructor (nodes: seq<Node>)
      requires forall i :: 0 <= i < |nodes| ==> nodes[i].healthy
      ensures Valid() && Disjoint()
      ensures pool == FirstOfEachUrl(nodes) && quarantined == {}
      ensures forall i :: 0 <= i < |nodes| ==> HasUrl(pool, nodes[i].url)
    {
      var s: set<Node> := {};
      var i := 0;
      while i < |nodes|
        invariant 0 <= i <= |nodes|
        invariant s == FirstOfEachUrl(nodes[..i])
        invariant forall n :: n in s ==> n.healthy
        invariant UniqueUrls(s)
        invariant forall k :: 0 <= k < i ==> HasUrl(s, nodes[k].url)
      {
        FirstOfEachUrlStep(nodes, i);
        s := Add(s, nodes[i]);
        i := i + 1;
      }
      assert nodes[..|nodes|] == nodes;
      pool := s;
      quarantined := {};
    }

    /**
     * `quarantine(node)`. A node equal to a sane entry is marked unhealthy, discarded from the pool
     * and added to the quarantine; an already quarantined one changes nothing; any other raises
     * LookupError. Only when `x` is the pool's own object does it leave the pool.
     */
    method Quarantine(x: Node) returns (r: Outcome<string>)
      requires Valid()
      modifies this, x
      ensures Valid()
      ensures old(Contains(pool, x)) ==>
                r == Pass && !x.healthy && pool == old(pool) - {x}
                && quarantined == (if old(HasUrl(quarantined, x.url)) then old(quarantined)
                                   else old(quarantined) + {x})
      ensures !old(Contains(pool, x)) ==>
                unchanged(this, x) && (r == Pass <==> old(Contains(quarantined, x)))
      ensures r.Fail? ==> r.error == UnknownNode
      ensures old(x in pool) && old(Disjoint()) ==>
                Disjoint() && quarantined == old(quarantined) + {x} && Len() == old(Len()) - 1
    {
      if Contains(pool, x) {
        Evict(x);
        r := Pass;
      } else if Contains(quarantined, x) {
        r := Pass;
      } else {
        r := Fail(UnknownNode);
      }
    }

    /** The branch of `quarantine` for a node equal to a sane entry. */
    method Evict(x: Node)
      requires Valid() && Contains(pool, x)
      modifies this, x
      ensures Valid()
      ensures !x.healthy && pool == old(pool) - {x}
      ensures quarantined == if old(HasUrl(quarantined, x.url)) then old(quarantined) else old(quarantined) + {x}
      ensures old(x in pool) && old(Disjoint()) ==> Disjoint() && quarantined == old(quarantined) + {x}
    {
      if x in pool && Disjoint() {
        MoveKeepsDisjoint(pool, quarantined, x);
      }
      x.healthy := false;
      DiscardUnhealthy(pool, x);
      AddMatching(quarantined, x);
      pool := Discard(pool, x);
      quarantined := Add(quarantined, x);
    }

    /** The branch of `restore` for a node equal to a quarantined entry. */
    method Readmit(x: Node)
      requires Valid() && Contains(quarantined, x)
      modifies this, x
      ensures Valid()
      ensures x.healthy && quarantined == old(quarantined) - {x}
      ensures pool == if old(HasUrl(pool, x.url)) then old(pool) else old(pool) + {x}
      ensures old(x in quarantined) && old(Disjoint()) ==> Disjoint() && pool == old(pool) + {x}
    {
      if x in quarantined && Disjoint() {
        MoveKeepsDisjoint(quarantined, pool, x);
      }
      x.healthy := true;
      DiscardHealthy(quarantined, x);
      AddMatching(pool, x);
      quarantined := Discard(quarantined, x);
      pool := Add(pool, x);
    }

    /**
     * `restore(node)`. A node equal to a quarantined entry is marked healthy, discarded from the
     * quarantine and added to the pool; a sane one changes nothing; any other raises LookupError.
     */
    method Restore(x: Node) returns (r: Outcome<string>)
      requires Valid()
      modifies this, x
      ensures Valid()
      ensures old(Contains(quarantined, x)) ==>
                r == Pass && x.healthy && quarantined == old(quarantined) - {x}
                && pool == (if old(HasUrl(pool, x.url)) then old(pool) else old(pool) + {x})
      ensures !old(Contains(quarantined, x)) ==>
                unchanged(this, x) && (r == Pass <==> old(Contains(pool, x)))
      ensures r.Fail? ==> r.error == UnknownNode
      ensures old(x in quarantined) && old(Disjoint()) ==>
                Disjoint() && pool == old(pool) + {x} && Len() == old(Len()) + 1
    {
      if Contains(quarantined, x) {
        Readmit(x);
        r := Pass;
      } else if Contains(pool, x) {
        r := Pass;
      } else {
        r := Fail(UnknownNode);
      }
    }
  }

  /** Adding the next node to the first-of-each-URL set, as `set.add` does for healthy nodes. */
  lemma FirstOfEachUrlStep(nodes: seq<Node>, i: int)
    requires 0 <= i < |nodes|
    ensures FirstOfEachUrl(nodes[..i + 1])
            == FirstOfEachUrl(nodes[..i]) + (if FirstOfUrl(nodes, i) then {nodes[i]} else {})
    ensures FirstOfUrl(nodes, i) <==> !HasUrl(FirstOfEachUrl(nodes[..i]), nodes[i].url)
  {
    var a, b := nodes[..i], nodes[..i + 1];
    forall k | 0 <= k < i ensures FirstOfUrl(a, k) == FirstOfUrl(b, k) == FirstOfUrl(nodes, k) {
    }
    assert FirstOfUrl(b, i) == FirstOfUrl(nodes, i);
    if !FirstOfUrl(nodes, i) {
      var j :| 0 <= j < i && nodes[j].url == nodes[i].url;
      var k := FirstIndexOfUrl(nodes, j);
      assert nodes[k] in FirstOfEachUrl(a);
    }
  }

  /** Every node has a first node of its parse result at or before it. */
  lemma {:induction false} FirstIndexOfUrl(nodes: seq<Node>, j: int) returns (k: int)
    requires 0 <= j < |nodes|
    ensures 0 <= k <= j && nodes[k].url == nodes[j].url && FirstOfUrl(nodes, k)
    decreases j
  {
    if FirstOfUrl(nodes, j) {
      k := j;
    } else {
      var m :| 0 <= m < j && nodes[m].url == nodes[j].url;
      k := FirstIndexOfUrl(nodes, m);
    }
  }

  /** In a set whose entries share `x`'s health, `add` keeps `x` out exactly when its parse result is there. */
  lemma AddMatching(s: set<Node>, x: Node)
    requires forall n :: n in s ==> n.healthy == x.healthy
    ensures Add(s, x) == if HasUrl(s, x.url) then s else s + {x}
  {
    if HasUrl(s, x.url) {
      var e :| e in s && e.url == x.url;
      assert e.EqualsNode(x);
    }
  }

  /** In a set of healthy nodes, only `x` itself matches `x` once `x` is unhealthy. */
  lemma DiscardUnhealthy(s: set<Node>, x: Node)
    requires forall n :: n in s && n != x ==> n.healthy
    requires !x.healthy
    ensures Discard(s, x) == s - {x}
  {
  }

  /** In a set of unhealthy nodes, only `x` itself matches `x` once `x` is healthy. */
  lemma DiscardHealthy(s: set<Node>, x: Node)
    requires forall n :: n in s && n != x ==> !n.healthy
    requires x.healthy
    ensures Discard(s, x) == s - {x}
  {
  }
}
