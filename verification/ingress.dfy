/**
  Ingresses (pkg/ingress/ingress.go).  The order in which a Go map is iterated
  is arbitrary: every loop over the ingress map takes some order of its keys.
 */
module Ingresses {
  import opened Wrappers

  datatype Ingress = Ingress(scheme: string, host: string, path: string, rest: string) {
    function String(): string {
      scheme + "://" + host + path + rest
    }
  }

  // A configured ingress as the URL parser leaves it; Garbage is what it rejects.
  datatype Raw = Empty | Garbage | Url(scheme: string, host: string, path: string, rest: string)

  datatype IngressError = NoIngresses | EmptyIngress | Unparsable | EmptyHost | InvalidScheme

  datatype Request = Request(host: string, forwardedHost: string, path: string)

  function TrimRightSlashes(s: string): (r: string)
    ensures r <= s
    ensures |r| > 0 ==> r[|r| - 1] != '/'
    ensures forall i :: |r| <= i < |s| ==> s[i] == '/'
  {
    if |s| > 0 && s[|s| - 1] == '/' then TrimRightSlashes(s[..|s| - 1]) else s
  }

  function ParseIngress(raw: Raw): (r: Result<Ingress, IngressError>)
    ensures r.Ok? <==> raw.Url? && |raw.host| > 0 && raw.scheme in {"http", "https"}
    ensures r.Ok? ==> r.value == Ingress(raw.scheme, raw.host, r.value.path, raw.rest)
    ensures r.Ok? ==>
              && r.value.path <= raw.path
              && (|r.value.path| > 0 ==> r.value.path[|r.value.path| - 1] != '/')
              && forall i :: |r.value.path| <= i < |raw.path| ==> raw.path[i] == '/'
    ensures r.Err? ==> r.error == if raw.Empty? then EmptyIngress else if raw.Garbage? then Unparsable
                                  else if raw.host == "" then EmptyHost else InvalidScheme
  {
    match raw
    case Empty => Err(EmptyIngress)
    case Garbage => Err(Unparsable)
    case Url(scheme, host, path, rest) =>
      if |host| == 0 then Err(EmptyHost)
      else if scheme != "http" && scheme != "https" then Err(InvalidScheme)
      else Ok(Ingress(scheme, host, TrimRightSlashes(path), rest))
  }

  // One of the orders in which the map can be iterated.
  predicate IterationOf(order: seq<string>, m: map<string, Ingress>) {
    multiset(order) == multiset(m.Keys)
  }

  lemma IterationMeets(order: seq<string>, m: map<string, Ingress>)
    requires IterationOf(order, m)
    ensures forall k :: k in order <==> k in m
    ensures forall i, j :: 0 <= i < j < |order| ==> order[i] != order[j]
  {
    forall k ensures k in order <==> k in m {
      assert k in order <==> k in multiset(order);
    }
    forall i, j | 0 <= i < j < |order| ensures order[i] != order[j] {
      assert order == order[..i] + [order[i]] + order[i + 1..j] + [order[j]] + order[j + 1..];
      assert order[i] == order[j] ==> multiset(order)[order[i]] >= 2;
      assert multiset(m.Keys)[order[i]] <= 1;
    }
  }

  ghost predicate NoDuplicates(s: seq<string>) {
    forall i, j :: 0 <= i < j < |s| ==> s[i] != s[j]
  }

  /** The distinct values of a function on the ingresses. */
  method MapIngresses(m: map<string, Ingress>, order: seq<string>, fn: Ingress -> string) returns (result: seq<string>)
    requires IterationOf(order, m)
    ensures NoDuplicates(result)
    ensures forall v :: v in result <==> exists k :: k in m && fn(m[k]) == v
  {
    IterationMeets(order, m);
    var seen := {};
    result := [];
    for i := 0 to |order|
      invariant NoDuplicates(result)
      invariant forall v :: v in seen <==> v in result
      invariant forall v :: v in result ==> exists k :: k in m && fn(m[k]) == v
      invariant forall j :: 0 <= j < i ==> fn(m[order[j]]) in result
    {
      assert order[i] in m;
      var value := fn(m[order[i]]);
      if value !in seen {
        seen := seen + {value};
        result := result + [value];
      }
    }
    forall k | k in m ensures fn(m[k]) in result {
      assert k in order;
    }
  }

  // The parsed ingresses, keyed by their text.
  ghost predicate Keyed(m: map<string, Ingress>) {
    forall k :: k in m ==> k == m[k].String() && |m[k].host| > 0
  }

  // The first of the configured ingresses with a given text.
  ghost predicate FirstWith(raws: seq<Raw>, i: int, k: string) {
    && 0 <= i < |raws| && ParseIngress(raws[i]).Ok? && ParseIngress(raws[i]).value.String() == k
    && forall j :: 0 <= j < i ==> ParseIngress(raws[j]).Err? || ParseIngress(raws[j]).value.String() != k
  }

  /** Collects the parsed ingresses, or reports the first one that does not parse. */
  method ParseIngresses(raws: seq<Raw>) returns (r: Result<map<string, Ingress>, IngressError>)
    ensures r.Ok? <==> |raws| > 0 && forall i :: 0 <= i < |raws| ==> ParseIngress(raws[i]).Ok?
    ensures r.Ok? ==> Keyed(r.value)
    ensures r.Ok? ==> forall k :: k in r.value ==> exists i :: FirstWith(raws, i, k) && ParseIngress(raws[i]) == Ok(r.value[k])
    ensures r.Ok? ==> forall i :: 0 <= i < |raws| ==> ParseIngress(raws[i]).Ok? && ParseIngress(raws[i]).value.String() in r.value
    ensures r.Err? ==>
              (|raws| == 0 && r.error == NoIngresses)
              || exists i :: 0 <= i < |raws| && ParseIngress(raws[i]) == Err(r.error) && forall j :: 0 <= j < i ==> ParseIngress(raws[j]).Ok?
  {
    if |raws| == 0 {
      return Err(NoIngresses);
    }
    var seen: map<string, Ingress> := map[];
    for i := 0 to |raws|
      invariant Keyed(seen)
      invariant forall j :: 0 <= j < i ==> ParseIngress(raws[j]).Ok? && ParseIngress(raws[j]).value.String() in seen
      invariant forall k :: k in seen ==> exists j :: 0 <= j < i && FirstWith(raws, j, k) && ParseIngress(raws[j]) == Ok(seen[k])
    {
      var parsed := ParseIngress(raws[i]);
      if parsed.Err? {
        return Err(parsed.error);
      }
      if parsed.value.String() !in seen {
        assert FirstWith(raws, i, parsed.value.String());
        seen := seen[parsed.value.String() := parsed.value];
      }
    }
    r := Ok(seen);
  }

  /** The configured ingresses with their distinct hosts, paths and texts. */
  datatype Configured = Configured(ingressMap: map<string, Ingress>, hosts: seq<string>, paths: seq<string>, urls: seq<string>)

  // The runtime picks an order for each loop.
  method AnyOrder(m: map<string, Ingress>) returns (order: seq<string>)
    ensures IterationOf(order, m)
  {
    order := [];
    var rest := m.Keys;
    while rest != {}
      invariant multiset(order) + multiset(rest) == multiset(m.Keys)
      decreases |rest|
    {
      var k :| k in rest;
      assert multiset(rest) == multiset{k} + multiset(rest - {k});
      order := order + [k];
      rest := rest - {k};
    }
  }

  method NewIngresses(raws: seq<Raw>) returns (r: Result<Configured, IngressError>)
    ensures r.Ok? <==> |raws| > 0 && forall i :: 0 <= i < |raws| ==> ParseIngress(raws[i]).Ok?
    ensures r.Ok? ==>
              && Keyed(r.value.ingressMap)
              && NoDuplicates(r.value.paths)
              && (forall p :: p in r.value.paths <==> exists k :: k in r.value.ingressMap && r.value.ingressMap[k].path == p)
              && (forall h :: h in r.value.hosts <==> exists k :: k in r.value.ingressMap && r.value.ingressMap[k].host == h)
              && (forall u :: u in r.value.urls <==> u in r.value.ingressMap)
  {
    var parsed := ParseIngresses(raws);
    if parsed.Err? {
      return Err(parsed.error);
    }
    var m := parsed.value;
    var order := AnyOrder(m);
    var hosts := MapIngresses(m, order, (i: Ingress) => i.host);
    order := AnyOrder(m);
    var paths := MapIngresses(m, order, (i: Ingress) => i.path);
    order := AnyOrder(m);
    var urls := MapIngresses(m, order, (i: Ingress) => i.String());
    r := Ok(Configured(m, hosts, paths, urls));
  }

  // ------------------------------------------------------- matching path

  /** r is the longest of the paths that the request path starts with; empty if there is none. */
  ghost predicate LongestPrefix(paths: seq<string>, reqPath: string, r: string) {
    && (r != "" ==> r in paths && r <= reqPath)
    && (forall p :: p in paths && p <= reqPath ==> |p| <= |r|)
  }

  method MatchingPath(paths: seq<string>, reqPath: string) returns (result: string)
    ensures LongestPrefix(paths, reqPath, result)
  {
    result := "";
    for i := 0 to |paths|
      invariant LongestPrefix(paths[..i], reqPath, result)
    {
      assert paths[..i + 1] == paths[..i] + [paths[i]];
      var p := paths[i];
      if |p| == 0 {
        continue;
      }
      if p <= reqPath && |p| > |result| {
        result := p;
      }
    }
    assert paths[..|paths|] == paths;
  }

  /** The matching path depends on which paths are configured and not on their order. */
  lemma MatchingPathUnique(paths: seq<string>, paths': seq<string>, reqPath: string, r: string, r': string)
    requires forall p :: p in paths <==> p in paths'
    requires LongestPrefix(paths, reqPath, r) && LongestPrefix(paths', reqPath, r')
    ensures r == r'
  {
    if r != "" {
      assert r in paths' && |r| <= |r'|;
    }
    if r' != "" {
      assert r' in paths && |r'| <= |r|;
    }
    assert |r| == |r'|;
    if r != "" {
      assert r == reqPath[..|r|] == r';
    }
  }

  // ---------------------------------------------------- matching ingress

  predicate Matches(i: Ingress, r: Request, path: string) {
    (i.host == r.host || i.host == r.forwardedHost) && i.path == path
  }

  // The first matching ingress of an iteration.
  function FirstMatch(m: map<string, Ingress>, order: seq<string>, r: Request, path: string): Option<Ingress>
    requires forall k :: k in order ==> k in m
  {
    if order == [] then None
    else if Matches(m[order[0]], r, path) then Some(m[order[0]])
    else FirstMatch(m, order[1..], r, path)
  }

  method MatchingIngress(m: map<string, Ingress>, order: seq<string>, paths: seq<string>, r: Request)
    returns (found: Option<Ingress>)
    requires IterationOf(order, m)
    ensures forall k :: k in order ==> k in m
    ensures exists path :: LongestPrefix(paths, r.path, path) && found == FirstMatch(m, order, r, path)
    ensures found.Some? ==>
              && (found.value.host == r.host || found.value.host == r.forwardedHost)
              && LongestPrefix(paths, r.path, found.value.path)
              && exists k :: k in m && m[k] == found.value
    ensures forall k :: k in m && (m[k].host == r.host || m[k].host == r.forwardedHost) && LongestPrefix(paths, r.path, m[k].path) ==>
              found.Some?
  {
    IterationMeets(order, m);
    found := None;
    var path := MatchingPath(paths, r.path);
    FirstMatchMatches(m, order, r, path);
    forall k | k in m && LongestPrefix(paths, r.path, m[k].path) ensures m[k].path == path {
      MatchingPathUnique(paths, paths, r.path, m[k].path, path);
    }
    for i := 0 to |order|
      invariant found == None && FirstMatch(m, order, r, path) == FirstMatch(m, order[i..], r, path)
    {
      assert order[i] in order;
      if Matches(m[order[i]], r, path) {
        return Some(m[order[i]]);
      }
    }
  }

  lemma {:induction false} FirstMatchMatches(m: map<string, Ingress>, order: seq<string>, r: Request, path: string)
    requires forall k :: k in order ==> k in m
    ensures match FirstMatch(m, order, r, path)
      case None => forall k :: k in order ==> !Matches(m[k], r, path)
      case Some(i) => Matches(i, r, path) && exists k :: k in order && m[k] == i
  {
    if order != [] {
      FirstMatchMatches(m, order[1..], r, path);
      assert order == [order[0]] + order[1..];
    }
  }

  // Every ingress that matches the request is the same one.
  ghost predicate Unambiguous(m: map<string, Ingress>, r: Request, path: string) {
    forall k, k' :: k in m && k' in m && Matches(m[k], r, path) && Matches(m[k'], r, path) ==> m[k] == m[k']
  }

  ghost predicate OrderIndependent(m: map<string, Ingress>, r: Request, path: string) {
    forall order, order' :: IterationOf(order, m) && IterationOf(order', m) ==>
      (IterationMeets(order, m); FirstMatch(m, order, r, path)) ==
      (IterationMeets(order', m); FirstMatch(m, order', r, path))
  }

  // Some iteration of the map starts with k.
  lemma IterationStartingWith(m: map<string, Ingress>, k: string) returns (order: seq<string>)
    requires k in m
    ensures IterationOf(order, m) && |order| > 0 && order[0] == k
  {
    var rest := SomeOrder(m.Keys - {k});
    order := [k] + rest;
    assert multiset(m.Keys) == multiset{k} + multiset(m.Keys - {k});
  }

  lemma SomeOrder(s: set<string>) returns (order: seq<string>)
    ensures multiset(order) == multiset(s)
  {
    if s == {} {
      order := [];
    } else {
      var k :| k in s;
      var rest := SomeOrder(s - {k});
      order := [k] + rest;
      assert multiset(s) == multiset{k} + multiset(s - {k});
    }
  }

  /** The ingress chosen does not depend on the iteration order exactly when the request is unambiguous. */
  lemma MatchingIngressOrderIndependentIff(m: map<string, Ingress>, r: Request, path: string)
    ensures OrderIndependent(m, r, path) <==> Unambiguous(m, r, path)
  {
    if OrderIndependent(m, r, path) {
      forall k, k' | k in m && k' in m && Matches(m[k], r, path) && Matches(m[k'], r, path) ensures m[k] == m[k'] {
        var order := IterationStartingWith(m, k);
        var order' := IterationStartingWith(m, k');
        IterationMeets(order, m);
        IterationMeets(order', m);
        assert FirstMatch(m, order, r, path) == Some(m[k]);
        assert FirstMatch(m, order', r, path) == Some(m[k']);
      }
    }
    if Unambiguous(m, r, path) {
      forall order, order' | IterationOf(order, m) && IterationOf(order', m)
        ensures (IterationMeets(order, m); FirstMatch(m, order, r, path)) ==
                (IterationMeets(order', m); FirstMatch(m, order', r, path))
      {
        IterationMeets(order, m);
        IterationMeets(order', m);
        FirstMatchMatches(m, order, r, path);
        FirstMatchMatches(m, order', r, path);
      }
    }
  }

  /** A caller can check this beforehand: no two ingresses with the same host and path, and no other forwarded host. */
  lemma DistinctIngressesAreUnambiguous(m: map<string, Ingress>, r: Request, path: string)
    requires Keyed(m)
    requires forall k, k' :: k in m && k' in m && k != k' ==> m[k].host != m[k'].host || m[k].path != m[k'].path
    requires r.forwardedHost == "" || r.forwardedHost == r.host
    ensures Unambiguous(m, r, path) && OrderIndependent(m, r, path)
  {
    MatchingIngressOrderIndependentIff(m, r, path);
  }

  /** Two ingresses that differ in their scheme only are ambiguous. */
  lemma SchemesAreAmbiguous()
    ensures var a, b := Ingress("http", "host", "", ""), Ingress("https", "host", "", "");
      !OrderIndependent(map[a.String() := a, b.String() := b], Request("host", "", "/"), "")
  {
    var a, b := Ingress("http", "host", "", ""), Ingress("https", "host", "", "");
    var m := map[a.String() := a, b.String() := b];
    var r := Request("host", "", "/");
    MatchingIngressOrderIndependentIff(m, r, "");
    assert a.String()[4] == ':' && b.String()[4] == 's';
    assert m[a.String()] == a && m[b.String()] == b;
    assert Matches(a, r, "") && Matches(b, r, "");
  }
}
