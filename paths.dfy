/** The route identity of an observation (`getCollectionPath`) and how the
    dot-path helpers that store the document split it into a nested key. */
module Paths {
  import opened Http

  /** ASCII upper case, the only letters `strtolower` changes. */
  predicate IsUpper(c: char) { 'A' <= c <= 'Z' }

  function LowerChar(c: char): char {
    if IsUpper(c) then (c as int + 32) as char else c
  }

  /** `strtolower`. */
  function Lower(s: string): (r: string)
    ensures |r| == |s|
    ensures forall i :: 0 <= i < |r| ==> !IsUpper(r[i])
    ensures forall i :: 0 <= i < |s| && !IsUpper(s[i]) ==> r[i] == s[i]
    ensures forall i :: 0 <= i < |s| && IsUpper(s[i]) ==> r[i] as int == s[i] as int + 32
  {
    seq(|s|, i requires 0 <= i < |s| => LowerChar(s[i]))
  }

  /** Lower-casing twice is lower-casing once, so `GET` and `get` name the
      same operation. */
  lemma LowerIdempotent(s: string)
    ensures Lower(Lower(s)) == Lower(s)
  {
  }

  /** `getCollectionPath()`: `"/" + uri + "." + lower-cased method`. */
  function CollectionPath(req: Request): (p: string)
    ensures |p| == |req.route.uri| + |req.verb| + 2
    ensures p[0] == '/' && p[|req.route.uri| + 1] == '.'
  {
    "/" + req.route.uri + "." + Lower(req.verb)
  }

  /** The nested position `data[path][method]` that the dot-path setter
      stores the collection path at. */
  datatype PathKey = PathKey(path: string, verb: string)

  function KeyOf(req: Request): (k: PathKey)
    ensures CollectionPath(req) == k.path + "." + k.verb
  {
    PathKey("/" + req.route.uri, Lower(req.verb))
  }

  /** `explode('.', key)`: the segments of a dot-path. */
  function DotSegments(s: string): (r: seq<string>)
    ensures |r| >= 1
    ensures forall i :: 0 <= i < |r| ==> '.' !in r[i]
  {
    if s == [] then [[]]
    else
      var rest := DotSegments(s[1..]);
      if s[0] == '.' then [[]] + rest else [[s[0]] + rest[0]] + rest[1..]
  }

  /** `implode('.', parts)`. */
  function JoinDots(parts: seq<string>): string
    requires |parts| >= 1
  {
    if |parts| == 1 then parts[0] else parts[0] + "." + JoinDots(parts[1..])
  }

  /** Splitting a dot-path and joining the segments again gives it back. */
  lemma {:induction false} JoinDotSegments(s: string)
    ensures JoinDots(DotSegments(s)) == s
  {
    if s != [] {
      var rest := DotSegments(s[1..]);
      JoinDotSegments(s[1..]);
      if s[0] == '.' {
        assert DotSegments(s) == [[]] + rest;
        assert DotSegments(s)[1..] == rest;
      } else {
        var r := DotSegments(s);
        assert r == [[s[0]] + rest[0]] + rest[1..];
        if |rest| > 1 {
          assert r[1..] == rest[1..];
          assert JoinDots(rest) == rest[0] + "." + JoinDots(rest[1..]);
        }
      }
    }
  }

  /** A string without dots is a single segment. */
  lemma {:induction false} DotFreeSegments(s: string)
    requires '.' !in s
    ensures DotSegments(s) == [s]
  {
    if s != [] {
      assert s[0] in s;
      assert forall c :: c in s[1..] ==> c in s;
      DotFreeSegments(s[1..]);
      assert [s[0]] + s[1..] == s;
    }
  }

  /** A dot-free head followed by a dot is split off as the first segment. */
  lemma {:induction false} HeadSegment(a: string, b: string)
    requires '.' !in a
    ensures DotSegments(a + "." + b) == [a] + DotSegments(b)
  {
    if a == [] {
      assert a + "." + b == ['.'] + b;
      assert (['.'] + b)[1..] == b;
    } else {
      var s := a + "." + b;
      assert s[1..] == a[1..] + "." + b;
      HeadSegment(a[1..], b);
      assert [a[0]] + a[1..] == a;
    }
  }

  /** With dot-free URIs and methods the collection path is stored at
      exactly two levels, `data[KeyOf(req).path][KeyOf(req).verb]`. */
  lemma CollectionPathSegments(req: Request)
    requires '.' !in req.route.uri && '.' !in req.verb
    ensures DotSegments(CollectionPath(req)) == [KeyOf(req).path, KeyOf(req).verb]
  {
    var m := Lower(req.verb);
    assert '.' !in m;
    assert CollectionPath(req) == ("/" + req.route.uri) + "." + m;
    HeadSegment("/" + req.route.uri, m);
    DotFreeSegments(m);
  }

  /** Two requests share a collection path exactly when they share a key,
      so the pair key loses no distinction the string makes. */
  lemma CollectionPathInjective(r1: Request, r2: Request)
    requires '.' !in r1.route.uri && '.' !in r1.verb
    requires '.' !in r2.route.uri && '.' !in r2.verb
    ensures CollectionPath(r1) == CollectionPath(r2) <==> KeyOf(r1) == KeyOf(r2)
  {
    CollectionPathSegments(r1);
    CollectionPathSegments(r2);
  }
}
