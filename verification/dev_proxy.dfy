/** The development server's proxy table: a request path starting with a
    rule's context goes to the rule's target, with its leading literal prefix
    removed by the rule's `rewrite`. */
module DevProxy {
  import opened Wrappers

  /** One entry of the proxy table: the context it is keyed by, the target
      server, and the literal prefix its anchored `rewrite` pattern removes. */
  datatype ProxyRule = ProxyRule(context: string, target: string, strip: string)

  /** Where a proxied request goes, and the path it is sent with. */
  datatype Forward = Forward(target: string, path: string)

  /** `p.replace(/^prefix/, '')`: removes the prefix once, only at the start. */
  function StripPrefix(prefix: string, p: string): (r: string)
    ensures prefix <= p ==> prefix + r == p
    ensures !(prefix <= p) ==> r == p
    ensures r == p[|p| - |r|..]
  {
    if prefix <= p then p[|prefix|..] else p
  }

  /** Stripping is the inverse of prepending the prefix. */
  lemma StripAfterPrepend(prefix: string, s: string)
    ensures StripPrefix(prefix, prefix + s) == s
  {
  }

  /** Index of the first rule whose context starts the path. */
  function FirstMatch(table: seq<ProxyRule>, path: string): (r: Option<nat>)
    ensures r.Some? ==> r.value < |table| && table[r.value].context <= path
    ensures r.Some? ==> forall j :: 0 <= j < r.value ==> !(table[j].context <= path)
    ensures r.None? <==> forall j :: 0 <= j < |table| ==> !(table[j].context <= path)
    decreases |table|
  {
    if |table| == 0 then None
    else if table[0].context <= path then Some(0)
    else match FirstMatch(table[1..], path)
      case Some(i) => Some(i + 1)
      case None => None
  }

  /** The proxy decision: the first matching rule's target and rewritten path,
      or nothing (the request is served locally). */
  function Route(table: seq<ProxyRule>, path: string): (r: Option<Forward>)
    ensures r.None? <==> forall j :: 0 <= j < |table| ==> !(table[j].context <= path)
    ensures r.Some? ==> exists i :: (
      && 0 <= i < |table|
      && table[i].context <= path
      && (forall j :: 0 <= j < i ==> !(table[j].context <= path))
      && r.value == Forward(table[i].target, StripPrefix(table[i].strip, path)))
  {
    match FirstMatch(table, path)
    case Some(i) => Some(Forward(table[i].target, StripPrefix(table[i].strip, path)))
    case None => None
  }

  /** The storefront client's table. */
  const ClientProxy: seq<ProxyRule> := [
    ProxyRule("/api/vet", "http://localhost:4000", "/api/vet"),
    ProxyRule("/api/shop", "http://localhost:5000", "/api/shop")
  ]

  /** The vet admin's table: the same rules with the two targets swapped. */
  const AdminProxy: seq<ProxyRule> := [
    ProxyRule("/api/vet", "http://localhost:5000", "/api/vet"),
    ProxyRule("/api/shop", "http://localhost:4000", "/api/shop")
  ]

  /** The client sends `/api/vet...` to port 4000 and `/api/shop...` to port
      5000, each without its prefix, and proxies nothing else. */
  lemma ClientRoutes(path: string)
    ensures "/api/vet" <= path ==> Route(ClientProxy, path) == Some(Forward("http://localhost:4000", path[8..]))
    ensures "/api/shop" <= path ==> Route(ClientProxy, path) == Some(Forward("http://localhost:5000", path[9..]))
    ensures !("/api/vet" <= path) && !("/api/shop" <= path) ==> Route(ClientProxy, path).None?
  {
    if "/api/shop" <= path {
      assert path[5] == 's';
      assert !("/api/vet" <= path);
    }
  }

  /** The admin sends every path to the other server than the client does,
      with the same rewritten path. */
  lemma AdminSwapsTargets(path: string)
    ensures "/api/vet" <= path ==> Route(AdminProxy, path) == Some(Forward("http://localhost:5000", path[8..]))
    ensures "/api/shop" <= path ==> Route(AdminProxy, path) == Some(Forward("http://localhost:4000", path[9..]))
    ensures Route(AdminProxy, path).None? <==> Route(ClientProxy, path).None?
  {
    ClientRoutes(path);
    if "/api/shop" <= path {
      assert path[5] == 's';
      assert !("/api/vet" <= path);
    }
  }

  /** Only the leading occurrence goes, so rewriting is not idempotent; and the
      strip ignores path segments. */
  lemma StripExamples()
    ensures StripPrefix("/api/vet", "/api/vet/api/vet/x") == "/api/vet/x"
    ensures StripPrefix("/api/vet", StripPrefix("/api/vet", "/api/vet/api/vet/x")) == "/x"
    ensures StripPrefix("/api/vet", "/api/vetfoo") == "foo"
    ensures StripPrefix("/api/vet", "/x/api/vet") == "/x/api/vet"
  {
    StripAfterPrepend("/api/vet", "/api/vet/x");
    StripAfterPrepend("/api/vet", "/x");
    StripAfterPrepend("/api/vet", "foo");
    assert "/api/vet"[1] != "/x/api/vet"[1];
  }
}
