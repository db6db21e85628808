/** The per-page URL token registry: a bidirectional map between absolute URLs and
    short tokens "@1", "@2", ..., handed out in registration order. */
module Registry {
  import opened Text

  /** The token given to the k-th distinct URL. */
  function Token(k: nat): string
  {
    "@" + NatToString(k)
  }

  /** Different counters give different tokens. */
  lemma TokenInjective(a: nat, b: nat)
    requires Token(a) == Token(b)
    ensures a == b
  {
    assert NatToString(a) == Token(a)[1..] == Token(b)[1..] == NatToString(b);
    NatToStringInjective(a, b);
  }

  /** `resolve`: a registered token becomes its URL; every other string passes through. */
  function ResolveIn(tokenToUrl: map<string, string>, x: string): string
  {
    if x in tokenToUrl then tokenToUrl[x] else x
  }

  predicate Distinct(order: seq<string>) {
    forall i, j :: 0 <= i < j < |order| ==> order[i] != order[j]
  }

  /** The token-to-URL map once the distinct URLs `order` have been registered in that order. */
  function TokenMap(order: seq<string>): map<string, string>
  {
    if order == [] then map[] else TokenMap(order[..|order| - 1])[Token(|order|) := order[|order| - 1]]
  }

  /** The URL-to-token map once the distinct URLs `order` have been registered in that order. */
  function UrlMap(order: seq<string>): map<string, string>
  {
    if order == [] then map[] else UrlMap(order[..|order| - 1])[order[|order| - 1] := Token(|order|)]
  }

  /** The set of tokens handed out after n registrations: {"@1", ..., "@n"}. */
  function TokensUpTo(n: nat): set<string>
  {
    set k: nat | 1 <= k <= n :: Token(k)
  }

  /** The k-th registered URL is reached through "@k". */
  lemma {:induction false} TokenMapAt(order: seq<string>, k: nat)
    requires 1 <= k <= |order|
    ensures Token(k) in TokenMap(order) && TokenMap(order)[Token(k)] == order[k - 1]
    decreases |order|
  {
    if k < |order| {
      var init := order[..|order| - 1];
      TokenMapAt(init, k);
      if Token(|order|) == Token(k) {
        TokenInjective(|order|, k);
      }
      assert init[k - 1] == order[k - 1];
    }
  }

  /** The token set after n registrations is exactly {"@1", ..., "@n"}. */
  lemma {:induction false} TokenMapKeys(order: seq<string>)
    ensures TokenMap(order).Keys == TokensUpTo(|order|)
    decreases |order|
  {
    if order != [] {
      TokenMapKeys(order[..|order| - 1]);
      assert TokensUpTo(|order|) == TokensUpTo(|order| - 1) + {Token(|order|)};
    }
  }

  /** The k-th registered (distinct) URL carries the token "@(k+1)". */
  lemma {:induction false} UrlMapAt(order: seq<string>, k: nat)
    requires Distinct(order) && k < |order|
    ensures order[k] in UrlMap(order) && UrlMap(order)[order[k]] == Token(k + 1)
    decreases |order|
  {
    if k < |order| - 1 {
      var init := order[..|order| - 1];
      UrlMapAt(init, k);
      assert init[k] == order[k];
    }
  }

  /** The registered URLs are exactly the ones in `order`. */
  lemma {:induction false} UrlMapKeys(order: seq<string>)
    ensures UrlMap(order).Keys == set i | 0 <= i < |order| :: order[i]
    decreases |order|
  {
    if order != [] {
      var init := order[..|order| - 1];
      UrlMapKeys(init);
      assert (set i | 0 <= i < |order| :: order[i]) == (set i | 0 <= i < |init| :: init[i]) + {order[|order| - 1]};
    }
  }

  /** One entry per distinct URL: |urlToToken| == nextId - 1. */
  lemma {:induction false} UrlMapSize(order: seq<string>)
    requires Distinct(order)
    ensures |UrlMap(order)| == |order|
    decreases |order|
  {
    if order != [] {
      var init := order[..|order| - 1];
      UrlMapSize(init);
      UrlMapKeys(init);
      assert order[|order| - 1] !in UrlMap(init);
    }
  }

  /** The two maps are mutual inverses. */
  lemma MapsAreInverse(order: seq<string>)
    requires Distinct(order)
    ensures forall u :: u in UrlMap(order) ==> UrlMap(order)[u] in TokenMap(order) && TokenMap(order)[UrlMap(order)[u]] == u
    ensures forall t :: t in TokenMap(order) ==> TokenMap(order)[t] in UrlMap(order) && UrlMap(order)[TokenMap(order)[t]] == t
  {
    forall u | u in UrlMap(order)
      ensures UrlMap(order)[u] in TokenMap(order) && TokenMap(order)[UrlMap(order)[u]] == u
    {
      UrlMapKeys(order);
      var i :| 0 <= i < |order| && order[i] == u;
      UrlMapAt(order, i);
      TokenMapAt(order, i + 1);
    }
    forall t | t in TokenMap(order)
      ensures TokenMap(order)[t] in UrlMap(order) && UrlMap(order)[TokenMap(order)[t]] == t
    {
      TokenMapKeys(order);
      var k: nat :| 1 <= k <= |order| && Token(k) == t;
      TokenMapAt(order, k);
      UrlMapAt(order, k - 1);
    }
  }

  /** resolve(register(u)) == u: the token of the k-th URL resolves back to it. */
  lemma ResolveRoundTrip(order: seq<string>, k: nat)
    requires 1 <= k <= |order|
    ensures ResolveIn(TokenMap(order), Token(k)) == order[k - 1]
  {
    TokenMapAt(order, k);
  }

  /** Any string that is not one of "@1" .. "@n" (absolute URLs, unknown tokens, plain text) passes through. */
  lemma ResolvePassThrough(order: seq<string>, x: string)
    requires x !in TokensUpTo(|order|)
    ensures ResolveIn(TokenMap(order), x) == x
  {
    TokenMapKeys(order);
  }

  /** In particular a string that does not start with '@' is never rewritten. */
  lemma ResolveNonToken(order: seq<string>, x: string)
    requires !StartsWith(x, "@")
    ensures ResolveIn(TokenMap(order), x) == x
  {
    TokenMapKeys(order);
  }

  class UrlRegistry {
    var urlToToken: map<string, string>
    var tokenToUrl: map<string, string>
    var nextId: int
    /** The distinct URLs in the order they were registered. */
    ghost var order: seq<string>

    ghost predicate Valid()
      reads this
    {
      && Distinct(order)
      && nextId == |order| + 1
      && tokenToUrl == TokenMap(order)
      && urlToToken == UrlMap(order)
    }

    constructor ()
      ensures Valid() && order == [] && nextId == 1
    {
      urlToToken := map[];
      tokenToUrl := map[];
      nextId := 1;
      order := [];
    }

    function Resolve(tokenOrUrl: string): string
      reads this
    {
      ResolveIn(tokenToUrl, tokenOrUrl)
    }

    /** `register` (getOrPut): a known URL keeps its token and nothing changes; a new URL gets
        "@nextId", the counter advances, and every existing pair is kept. */
    method Register(url: string) returns (token: string)
      requires Valid()
      modifies this
      ensures Valid()
      ensures url in old(urlToToken) ==> token == old(urlToToken)[url] && order == old(order) && nextId == old(nextId)
      ensures url !in old(urlToToken) ==> token == Token(old(nextId)) && order == old(order) + [url] && nextId == old(nextId) + 1
      ensures url in urlToToken && urlToToken[url] == token && Resolve(token) == url
      ensures forall u :: u in old(urlToToken) ==> u in urlToToken && urlToToken[u] == old(urlToToken)[u]
      ensures forall t :: t in old(tokenToUrl) ==> t in tokenToUrl && tokenToUrl[t] == old(tokenToUrl)[t]
    {
      if url in urlToToken {
        token := urlToToken[url];
        MapsAreInverse(order);
      } else {
        RegisterFresh(order, url);
        token := Token(nextId);
        nextId := nextId + 1;
        tokenToUrl := tokenToUrl[token := url];
        urlToToken := urlToToken[url := token];
        order := order + [url];
      }
    }
  }

  /** Registering a URL not seen before extends both maps by one entry whose token is new. */
  lemma RegisterFresh(order: seq<string>, url: string)
    requires Distinct(order) && url !in UrlMap(order)
    ensures Distinct(order + [url])
    ensures Token(|order| + 1) !in TokenMap(order)
    ensures TokenMap(order + [url]) == TokenMap(order)[Token(|order| + 1) := url]
    ensures UrlMap(order + [url]) == UrlMap(order)[url := Token(|order| + 1)]
  {
    FreshStaysDistinct(order, url);
    NextTokenFresh(order);
    TokenMapSnoc(order, url);
    UrlMapSnoc(order, url);
  }

  lemma TokenMapSnoc(order: seq<string>, url: string)
    ensures TokenMap(order + [url]) == TokenMap(order)[Token(|order| + 1) := url]
  {
    var o := order + [url];
    assert o[..|o| - 1] == order;
  }

  lemma UrlMapSnoc(order: seq<string>, url: string)
    ensures UrlMap(order + [url]) == UrlMap(order)[url := Token(|order| + 1)]
  {
    var o := order + [url];
    assert o[..|o| - 1] == order;
  }

  lemma FreshStaysDistinct(order: seq<string>, url: string)
    requires Distinct(order) && url !in UrlMap(order)
    ensures Distinct(order + [url])
  {
    UrlMapKeys(order);
    forall i | 0 <= i < |order| ensures order[i] != url {
      assert order[i] in UrlMap(order).Keys;
    }
  }

  /** The next token is not yet handed out. */
  lemma NextTokenFresh(order: seq<string>)
    ensures Token(|order| + 1) !in TokenMap(order)
  {
    TokenMapKeys(order);
    if Token(|order| + 1) in TokensUpTo(|order|) {
      var k: nat :| 1 <= k <= |order| && Token(k) == Token(|order| + 1);
      TokenInjective(k, |order| + 1);
    }
  }

  /** The registry's class invariant, read off its fields: mutual inverses, one entry per
      counter step, and token set exactly {"@1" .. "@(nextId-1)"}. */
  lemma ValidRegistry(r: UrlRegistry)
    requires r.Valid()
    ensures |r.urlToToken| == r.nextId - 1
    ensures r.tokenToUrl.Keys == TokensUpTo(r.nextId - 1)
    ensures forall u :: u in r.urlToToken ==> r.urlToToken[u] in r.tokenToUrl && r.tokenToUrl[r.urlToToken[u]] == u
    ensures forall t :: t in r.tokenToUrl ==> r.tokenToUrl[t] in r.urlToToken && r.urlToToken[r.tokenToUrl[t]] == t
  {
    UrlMapSize(r.order);
    TokenMapKeys(r.order);
    MapsAreInverse(r.order);
  }

  /** Sequential tokens, duplicate registration and pass-through, as a client sees them. */
  method RegistryUsage()
  {
    var r := new UrlRegistry();
    var a := r.Register("https://example.com/a");
    var b := r.Register("https://example.com/b");
    var again := r.Register("https://example.com/a");
    assert a == Token(1) == "@1" && b == Token(2) == "@2" && again == a;
    assert r.Resolve(b) == "https://example.com/b";
    ValidRegistry(r);
    assert "@99" !in TokensUpTo(2);
    assert r.Resolve("@99") == "@99";
  }
}
