/** The pure parts of `processMiddlewares` (app/Services/SwaggerService.php):
    normalising middleware names and concatenating the header descriptors
    each middleware declares. */
module Middleware {
  import opened Values
  import opened Docs
  import opened Http

  /** The router, seen only through what the service asks of it:
      `getMiddleware()`, the router's middleware alias map (short name to
      middleware class), of which only the values count here, in order;
      `resolveMiddleware` (aliases and groups to concrete middleware;
      framework code that is not part of this model); and the
      `RequestHeader` attributes declared on each middleware class that
      reflection can load; a name without an entry is one whose reflection
      fails. */
  datatype Router = Router(
    aliasTargets: seq<string>,
    resolve: seq<string> -> seq<string>,
    attributes: map<string, seq<RequestHeader>>)

  /** `explode(':', name, 2)[0]`: the name without its argument list. */
  function BaseName(name: string): (b: string)
    ensures ':' !in b
    ensures b <= name
    ensures |b| < |name| ==> name[|b|] == ':'
  {
    if name == [] then []
    else if name[0] == ':' then []
    else [name[0]] + BaseName(name[1..])
  }

  function BaseNames(names: seq<string>): (r: seq<string>)
    ensures |r| == |names|
    ensures forall i :: 0 <= i < |names| ==> r[i] == BaseName(names[i])
  {
    seq(|names|, i requires 0 <= i < |names| => BaseName(names[i]))
  }

  predicate NoDuplicates(s: seq<string>) {
    forall i, j :: 0 <= i < j < |s| ==> s[i] != s[j]
  }

  /** `array_unique`: drops every repeated name, keeping its first
      occurrence. */
  function Unique(s: seq<string>): (r: seq<string>)
    ensures NoDuplicates(r)
    ensures forall x :: x in r <==> x in s
  {
    if s == [] then []
    else
      var r := Unique(s[..|s| - 1]);
      assert forall x :: x in s <==> x in s[..|s| - 1] || x == s[|s| - 1] by {
        assert s == s[..|s| - 1] + [s[|s| - 1]];
      }
      if s[|s| - 1] in r then r else r + [s[|s| - 1]]
  }

  /** The position of the first occurrence of `x` in `s`. */
  function FirstIndex(s: seq<string>, x: string): (i: nat)
    requires x in s
    ensures i < |s| && s[i] == x && x !in s[..i]
  {
    if s[0] == x then 0
    else
      var i := FirstIndex(s[1..], x);
      assert s[1..][..i] == s[1..i + 1];
      assert s[..i + 1] == [s[0]] + s[1..i + 1];
      i + 1
  }

  /** The first occurrence is the only index where `x` stands and does not
      stand before. */
  lemma FirstIndexUnique(s: seq<string>, x: string, k: nat)
    requires k < |s| && s[k] == x && x !in s[..k]
    ensures FirstIndex(s, x) == k
  {
  }

  /** `Unique` keeps names in the order of their first occurrence. */
  lemma {:induction false} UniqueOrdered(s: seq<string>)
    ensures forall i, j :: 0 <= i < j < |Unique(s)| ==> FirstIndex(s, Unique(s)[i]) < FirstIndex(s, Unique(s)[j])
  {
    if s != [] {
      var p, last := s[..|s| - 1], s[|s| - 1];
      var q := Unique(p);
      UniqueOrdered(p);
      assert s == p + [last];
      forall x | x in p
        ensures FirstIndex(s, x) == FirstIndex(p, x)
      {
        var k := FirstIndex(p, x);
        assert s[..k] == p[..k];
        FirstIndexUnique(s, x, k);
      }
      if last !in q {
        assert last !in p;
        assert s[..|p|] == p;
        FirstIndexUnique(s, last, |p|);
        var r := Unique(s);
        assert r == q + [last];
        forall i, j | 0 <= i < j < |r|
          ensures FirstIndex(s, r[i]) < FirstIndex(s, r[j])
        {
          assert r[i] == q[i] && r[i] in p;
          assert FirstIndex(s, q[i]) == FirstIndex(p, q[i]);
          if j < |q| {
            assert r[j] == q[j] && r[j] in p;
            assert FirstIndex(s, q[j]) == FirstIndex(p, q[j]);
            assert FirstIndex(p, q[i]) < FirstIndex(p, q[j]);
          } else {
            assert r[j] == last;
          }
        }
      }
    }
  }

  /** Extending the input only appends to the result: whatever `Unique`
      yields for `a` comes first in what it yields for `a + b`. */
  lemma {:induction false} UniquePrefix(a: seq<string>, b: seq<string>)
    ensures Unique(a) <= Unique(a + b)
  {
    if b == [] {
      assert a + b == a;
    } else {
      var b' := b[..|b| - 1];
      UniquePrefix(a, b');
      assert (a + b)[..|a + b| - 1] == a + b';
    }
  }

  /** The normalised list handed to the router: the alias map's middleware
      first, then the route's own, cut at the first `:`, without repeats. */
  function Normalise(aliasTargets: seq<string>, routeMiddleware: seq<string>): (r: seq<string>)
    ensures NoDuplicates(r)
    ensures forall i :: 0 <= i < |r| ==> ':' !in r[i]
    ensures forall x :: x in r <==> exists k :: 0 <= k < |aliasTargets + routeMiddleware| && x == BaseName((aliasTargets + routeMiddleware)[k])
    ensures Unique(BaseNames(aliasTargets)) <= r
  {
    var names := BaseNames(aliasTargets + routeMiddleware);
    assert BaseNames(aliasTargets) + BaseNames(routeMiddleware) == names;
    UniquePrefix(BaseNames(aliasTargets), BaseNames(routeMiddleware));
    assert forall x :: x in names ==> ':' !in x;
    Unique(names)
  }

  /** `array_map(fn ($el) => $el->newInstance()->dump(), ...)`. */
  function Dumps(headers: seq<RequestHeader>): (r: seq<Fragment>)
    ensures |r| == |headers|
    ensures forall i :: 0 <= i < |headers| ==> r[i] == Dump(headers[i])
  {
    seq(|headers|, i requires 0 <= i < |headers| => Dump(headers[i]))
  }

  /** A middleware that adds no parameter: reflection fails or it declares
      no header. */
  predicate DeclaresNothing(router: Router, middleware: string) {
    middleware !in router.attributes || router.attributes[middleware] == []
  }

  /** What one middleware adds: its descriptors' dumps, or nothing when
      reflection fails (`rescue(..., [])`). */
  function Contribution(router: Router, middleware: string): (c: seq<Fragment>)
    ensures middleware !in router.attributes ==> c == []
    ensures middleware in router.attributes ==>
      |c| == |router.attributes[middleware]|
      && forall i :: 0 <= i < |c| ==> c[i] == Dump(router.attributes[middleware][i])
    ensures c == [] <==> DeclaresNothing(router, middleware)
  {
    if middleware in router.attributes then Dumps(router.attributes[middleware]) else []
  }

  /** How many header descriptors the listed middleware declare, counting
      nothing for a failed lookup. */
  function DeclaredCount(router: Router, middlewares: seq<string>): nat {
    if middlewares == [] then 0
    else
      var m := middlewares[|middlewares| - 1];
      DeclaredCount(router, middlewares[..|middlewares| - 1])
        + (if m in router.attributes then |router.attributes[m]| else 0)
  }

  /** The in-order concatenation of every middleware's contribution. */
  function Parameters(router: Router, middlewares: seq<string>): (r: seq<Fragment>)
    ensures |r| == DeclaredCount(router, middlewares)
  {
    if middlewares == [] then []
    else Parameters(router, middlewares[..|middlewares| - 1]) + Contribution(router, middlewares[|middlewares| - 1])
  }

  /** The parameters contributed by the middleware a route resolves to;
      empty exactly when none of them declares a header. */
  function RouteParameters(router: Router, route: Route): (r: seq<Fragment>)
    ensures r == [] <==>
      forall m :: m in router.resolve(Normalise(router.aliasTargets, route.middleware)) ==> DeclaresNothing(router, m)
  {
    ParametersEmpty(router, router.resolve(Normalise(router.aliasTargets, route.middleware)));
    Parameters(router, router.resolve(Normalise(router.aliasTargets, route.middleware)))
  }

  /** Taking one more middleware from a list adds its contribution. */
  lemma ParametersStep(router: Router, middlewares: seq<string>, i: nat)
    requires i < |middlewares|
    ensures Parameters(router, middlewares[..i + 1])
      == Parameters(router, middlewares[..i]) + Contribution(router, middlewares[i])
  {
    assert middlewares[..i + 1][..i] == middlewares[..i];
  }

  /** Re-associates a concatenation; called from the loop of
      `ProcessMiddlewares` to keep its invariant within the solver's budget. */
  lemma ConcatAssoc<T>(a: seq<T>, b: seq<T>, c: seq<T>)
    ensures (a + b) + c == a + (b + c)
  {
  }

  /** No parameter is collected exactly when no listed middleware declares
      a header. */
  lemma {:induction false} ParametersEmpty(router: Router, middlewares: seq<string>)
    ensures Parameters(router, middlewares) == [] <==>
      forall i :: 0 <= i < |middlewares| ==> DeclaresNothing(router, middlewares[i])
  {
    if middlewares != [] {
      var n := |middlewares|;
      var p := middlewares[..n - 1];
      ParametersEmpty(router, p);
      assert forall i :: 0 <= i < n - 1 ==> p[i] == middlewares[i];
    }
  }

  /** Concatenation distributes over the middleware list. */
  lemma {:induction false} ParametersAppend(router: Router, a: seq<string>, b: seq<string>)
    ensures Parameters(router, a + b) == Parameters(router, a) + Parameters(router, b)
  {
    if b == [] {
      assert a + b == a;
    } else {
      var b', m := b[..|b| - 1], b[|b| - 1];
      var ab := a + b;
      assert ab[..|ab| - 1] == a + b';
      assert ab[|ab| - 1] == m;
      ParametersAppend(router, a, b');
      calc {
        Parameters(router, ab);
        Parameters(router, ab[..|ab| - 1]) + Contribution(router, ab[|ab| - 1]);
        Parameters(router, a + b') + Contribution(router, m);
        Parameters(router, a) + Parameters(router, b') + Contribution(router, m);
        { ConcatAssoc(Parameters(router, a), Parameters(router, b'), Contribution(router, m)); }
        Parameters(router, a) + (Parameters(router, b') + Contribution(router, m));
        Parameters(router, a) + Parameters(router, b);
      }
    }
  }

  /** A middleware whose lookup fails changes nothing in the list. */
  lemma FailingLookupContributesNothing(router: Router, a: seq<string>, m: string, b: seq<string>)
    requires m !in router.attributes
    ensures Parameters(router, a + [m] + b) == Parameters(router, a + b)
  {
    ParametersAppend(router, a + [m], b);
    ParametersAppend(router, a, b);
    assert (a + [m])[..|a|] == a;
  }

  /** Every parameter is the dump of a descriptor declared on one of the
      middlewares in the list. */
  lemma {:induction false} ParametersAreDumps(router: Router, middlewares: seq<string>, k: nat)
    requires k < |Parameters(router, middlewares)|
    ensures exists i, j ::
      && 0 <= i < |middlewares| && middlewares[i] in router.attributes
      && 0 <= j < |router.attributes[middlewares[i]]|
      && Parameters(router, middlewares)[k] == Dump(router.attributes[middlewares[i]][j])
  {
    var n := |middlewares|;
    var p := middlewares[..n - 1];
    if k < |Parameters(router, p)| {
      ParametersAreDumps(router, p, k);
      var i, j :| 0 <= i < |p| && p[i] in router.attributes
        && 0 <= j < |router.attributes[p[i]]|
        && Parameters(router, p)[k] == Dump(router.attributes[p[i]][j]);
      assert middlewares[i] == p[i];
    } else {
      var j := k - |Parameters(router, p)|;
      assert middlewares[n - 1] in router.attributes;
      assert Parameters(router, middlewares)[k] == Dump(router.attributes[middlewares[n - 1]][j]);
    }
  }
}
