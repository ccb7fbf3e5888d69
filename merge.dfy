/** The document tree that `processData` (app/Services/SwaggerService.php)
    grows, and the rules by which one observed request/response pair is
    merged into it. */
module Merge {
  import opened Values
  import opened Http
  import opened Paths

  /** `['value' => body]`. */
  datatype Example = Example(value: string)

  /** The entry for one content type: one example (`example`) or a map of
      examples under generated ids (`examples`). */
  datatype ContentEntry =
    | Single(example: Example)
    | Plural(examples: map<string, Example>)

  /** The entry for one status code of one operation. */
  datatype ResponseEntry = ResponseEntry(headers: Headers, content: map<string, ContentEntry>)

  /** The entry for one operation (path and method). */
  datatype PathEntry = PathEntry(
    deprecated: bool,
    operationId: Option<string>,
    responses: map<int, ResponseEntry>,
    parameters: seq<Fragment>)

  /** `self::$data`, with `data[path][method]` written as one pair key. */
  type Tree = map<PathKey, PathEntry>

  /** The response headers that are never stored. */
  const Volatile: set<string> := {"date", "content-type"}

  /** The `[]` a response entry starts from. */
  const EmptyResponse := ResponseEntry(map[], map[])

  /** The entry created on the first observation of an operation. */
  function NewEntry(route: Route, parameters: seq<Fragment>): (e: PathEntry)
    // `?? false`: deprecated only when the route's metadata says so
    ensures e.deprecated <==> route.deprecatedMeta == Some(true)
    ensures e.operationId == route.name && e.parameters == parameters
    ensures e.responses == map[]
  {
    PathEntry(route.deprecatedMeta.GetOr(false), route.name, map[], parameters)
  }

  /** `array_merge(stored, Arr::except(incoming, ['date', 'content-type']))`:
      a union in which the new response wins, minus the volatile names. */
  function MergeHeaders(stored: Headers, incoming: Headers): (r: Headers)
    ensures r.Keys == stored.Keys + (incoming.Keys - Volatile)
    ensures forall n :: n in incoming && n !in Volatile ==> r[n] == incoming[n]
    ensures forall n :: n in stored && (n !in incoming || n in Volatile) ==> r[n] == stored[n]
  {
    stored + (incoming - Volatile)
  }

  /** The three-way content merge for content type `ct`; `id` stands for
      the generated `Str::uuid()`. */
  function MergeContent(content: map<string, ContentEntry>, ct: string, body: string, id: string)
    : (r: map<string, ContentEntry>)
    ensures r.Keys == content.Keys + {ct}
    ensures forall c :: c in content && c != ct ==> r[c] == content[c]
    // first observation: the singular form holding this body
    ensures ct !in content ==> r[ct] == Single(Example(body))
    // any later observation leaves the plural form, with this body under `id`
    ensures ct in content ==> r[ct].Plural? && id in r[ct].examples && r[ct].examples[id] == Example(body)
    // from the singular form only the new body is kept
    ensures ct in content && content[ct].Single? ==> r[ct].examples.Keys == {id}
    // the plural form gains `id` and keeps every other example
    ensures ct in content && content[ct].Plural? ==>
      && r[ct].examples.Keys == content[ct].examples.Keys + {id}
      && (forall e :: e in content[ct].examples && e != id ==> r[ct].examples[e] == content[ct].examples[e])
  {
    if ct in content && content[ct].Plural? then
      content[ct := Plural(content[ct].examples[id := Example(body)])]
    else if ct !in content then
      content[ct := Single(Example(body))]
    else
      content[ct := Plural(map[id := Example(body)])]
  }

  /** A fresh id makes the plural form grow by exactly one example. */
  lemma PluralGrows(content: map<string, ContentEntry>, ct: string, body: string, id: string)
    requires ct in content && content[ct].Plural? && id !in content[ct].examples
    ensures |MergeContent(content, ct, body, id)[ct].examples| == |content[ct].examples| + 1
  {
  }

  /** The response entry stored for `status` under `key`, or `[]`. */
  function CurrentResponse(data: Tree, key: PathKey, status: int): (r: ResponseEntry)
    ensures key in data && status in data[key].responses ==> r == data[key].responses[status]
    ensures key !in data || status !in data[key].responses ==> r == EmptyResponse
  {
    if key in data && status in data[key].responses then data[key].responses[status] else EmptyResponse
  }

  /** The stored response entry after merging one response into it. */
  function MergeResponse(current: ResponseEntry, resp: Response, id: string): (r: ResponseEntry)
    ensures r.headers.Keys == current.headers.Keys + (resp.headers.Keys - Volatile)
    ensures Volatile !! current.headers.Keys ==> Volatile !! r.headers.Keys
    ensures r.content.Keys == current.content.Keys + {ContentTypeOf(resp.headers)}
    ensures forall c :: c in current.content && c != ContentTypeOf(resp.headers) ==> r.content[c] == current.content[c]
  {
    ResponseEntry(
      MergeHeaders(current.headers, resp.headers),
      MergeContent(current.content, ContentTypeOf(resp.headers), resp.body, id))
  }

  /** One observation, with path-aware lookups: the operation's entry is
      created if absent and the response entry for the status merged. */
  function Observe(data: Tree, req: Request, resp: Response, parameters: seq<Fragment>, id: string)
    : (r: Tree)
    ensures r.Keys == data.Keys + {KeyOf(req)}
    // frame: every other operation is untouched
    ensures forall k :: k in data && k != KeyOf(req) ==> r[k] == data[k]
    // create once: the metadata of an existing entry never changes
    ensures KeyOf(req) in data ==>
      && r[KeyOf(req)].deprecated == data[KeyOf(req)].deprecated
      && r[KeyOf(req)].operationId == data[KeyOf(req)].operationId
      && r[KeyOf(req)].parameters == data[KeyOf(req)].parameters
    // a new entry takes its metadata from the route and these parameters
    ensures KeyOf(req) !in data ==>
      && r[KeyOf(req)].deprecated == req.route.deprecatedMeta.GetOr(false)
      && r[KeyOf(req)].operationId == req.route.name
      && r[KeyOf(req)].parameters == parameters
      && r[KeyOf(req)].responses.Keys == {resp.status}
    // frame: every other status of this operation is untouched
    ensures KeyOf(req) in data ==>
      && r[KeyOf(req)].responses.Keys == data[KeyOf(req)].responses.Keys + {resp.status}
      && (forall s :: s in data[KeyOf(req)].responses && s != resp.status ==>
            r[KeyOf(req)].responses[s] == data[KeyOf(req)].responses[s])
    ensures r[KeyOf(req)].responses[resp.status]
      == MergeResponse(CurrentResponse(data, KeyOf(req), resp.status), resp, id)
  {
    var key := KeyOf(req);
    var entry := if key in data then data[key] else NewEntry(req.route, parameters);
    var current := CurrentResponse(data, key, resp.status);
    data[key := entry.(responses := entry.responses[resp.status := MergeResponse(current, resp, id)])]
  }

  /** No stored header map holds a volatile name. */
  ghost predicate HeadersClean(data: Tree) {
    forall k, s :: k in data && s in data[k].responses ==> Volatile !! data[k].responses[s].headers.Keys
  }

  /** One observation keeps the document free of volatile headers. */
  lemma ObserveKeepsHeadersClean(data: Tree, req: Request, resp: Response, parameters: seq<Fragment>, id: string)
    requires HeadersClean(data)
    ensures HeadersClean(Observe(data, req, resp, parameters, id))
  {
    var r := Observe(data, req, resp, parameters, id);
    var key := KeyOf(req);
    forall k, s | k in r && s in r[k].responses
      ensures Volatile !! r[k].responses[s].headers.Keys
    {
      if k == key && s == resp.status {
        var cur := CurrentResponse(data, key, resp.status);
        assert Volatile !! cur.headers.Keys;
      }
    }
  }

  /** A request/response pair as `processData` sees it, with the parameters
      collected for it and the id generated for it. */
  datatype Observation = Observation(request: Request, response: Response, parameters: seq<Fragment>, id: string)

  /** The document after a run of observations, oldest first. */
  function Replay(data: Tree, obs: seq<Observation>): Tree {
    if obs == [] then data
    else
      var o := obs[|obs| - 1];
      Observe(Replay(data, obs[..|obs| - 1]), o.request, o.response, o.parameters, o.id)
  }

  /** Replaying one more observation is one more `Observe`. */
  lemma ReplaySnoc(data: Tree, obs: seq<Observation>, o: Observation)
    ensures Replay(data, obs + [o]) == Observe(Replay(data, obs), o.request, o.response, o.parameters, o.id)
  {
    var s := obs + [o];
    assert s[..|s| - 1] == obs;
  }

  lemma {:induction false} ReplayAppend(data: Tree, a: seq<Observation>, b: seq<Observation>)
    ensures Replay(data, a + b) == Replay(Replay(data, a), b)
  {
    if b == [] {
      assert a + b == a;
    } else {
      var b', o := b[..|b| - 1], b[|b| - 1];
      assert b == b' + [o];
      assert a + b == (a + b') + [o];
      ReplaySnoc(data, a + b', o);
      ReplaySnoc(Replay(data, a), b', o);
      ReplayAppend(data, a, b');
    }
  }

  /** Starting from the empty document, no run of observations ever stores
      a volatile header. */
  lemma {:induction false} ReplayKeepsHeadersClean(data: Tree, obs: seq<Observation>)
    requires HeadersClean(data)
    ensures HeadersClean(Replay(data, obs))
  {
    if obs != [] {
      var o := obs[|obs| - 1];
      ReplayKeepsHeadersClean(data, obs[..|obs| - 1]);
      ObserveKeepsHeadersClean(Replay(data, obs[..|obs| - 1]), o.request, o.response, o.parameters, o.id);
    }
  }

  /** The metadata of an operation already in the document survives any
      run of observations. */
  lemma {:induction false} ReplayKeepsMetadata(data: Tree, obs: seq<Observation>, key: PathKey)
    requires key in data
    ensures key in Replay(data, obs)
    ensures Replay(data, obs)[key].deprecated == data[key].deprecated
    ensures Replay(data, obs)[key].operationId == data[key].operationId
    ensures Replay(data, obs)[key].parameters == data[key].parameters
  {
    if obs != [] {
      ReplayKeepsMetadata(data, obs[..|obs| - 1], key);
    }
  }

  /** Parameters are captured once: the first observation of an operation
      fixes its `deprecated`, `operationId` and `parameters` for good. */
  lemma FirstObservationFixesMetadata(data: Tree, obs: seq<Observation>)
    requires |obs| >= 1 && KeyOf(obs[0].request) !in data
    ensures var key := KeyOf(obs[0].request);
      && key in Replay(data, obs)
      && Replay(data, obs)[key].deprecated == obs[0].request.route.deprecatedMeta.GetOr(false)
      && Replay(data, obs)[key].operationId == obs[0].request.route.name
      && Replay(data, obs)[key].parameters == obs[0].parameters
  {
    assert obs == [obs[0]] + obs[1..];
    ReplayAppend(data, [obs[0]], obs[1..]);
    assert Replay(data, [obs[0]]) == Observe(data, obs[0].request, obs[0].response, obs[0].parameters, obs[0].id) by {
      assert [obs[0]][..0] == [];
    }
    ReplayKeepsMetadata(Replay(data, [obs[0]]), obs[1..], KeyOf(obs[0].request));
  }

  /** Whether the document holds a content entry at operation `key`,
      status `status` and content type `ct`. */
  predicate HasContent(data: Tree, key: PathKey, status: int, ct: string) {
    key in data && status in data[key].responses && ct in data[key].responses[status].content
  }

  /** Every observation in `obs` targets operation `key`, status `status`
      and content type `ct`. */
  predicate SameTarget(obs: seq<Observation>, key: PathKey, status: int, ct: string) {
    forall i :: 0 <= i < |obs| ==>
      KeyOf(obs[i].request) == key && obs[i].response.status == status
      && ContentTypeOf(obs[i].response.headers) == ct
  }

  /** The generated ids of a run are pairwise distinct. */
  predicate DistinctIds(obs: seq<Observation>) {
    forall i, j :: 0 <= i < j < |obs| ==> obs[i].id != obs[j].id
  }

  /** What one observation does to the content entry it targets. */
  lemma ObserveAtTarget(before: Tree, o: Observation, key: PathKey, status: int, ct: string)
    requires KeyOf(o.request) == key && o.response.status == status && ContentTypeOf(o.response.headers) == ct
    ensures var after := Observe(before, o.request, o.response, o.parameters, o.id);
      && HasContent(after, key, status, ct)
      && after[key].responses[status].content
         == MergeContent(CurrentResponse(before, key, status).content, ct, o.response.body, o.id)
  {
  }

  lemma PrefixKeepsTarget(obs: seq<Observation>, key: PathKey, status: int, ct: string)
    requires |obs| >= 1 && SameTarget(obs, key, status, ct)
    ensures SameTarget(obs[..|obs| - 1], key, status, ct)
  {
    var p := obs[..|obs| - 1];
    assert forall i :: 0 <= i < |p| ==> p[i] == obs[i];
  }

  /** The bodies of the second and later observations of a run, each under
      its id. */
  function LaterExamples(obs: seq<Observation>): map<string, Example> {
    if |obs| <= 1 then map[]
    else
      var o := obs[|obs| - 1];
      LaterExamples(obs[..|obs| - 1])[o.id := Example(o.response.body)]
  }

  /** Every id among the later examples is the id of a second or later
      observation. */
  lemma {:induction false} LaterExamplesIds(obs: seq<Observation>)
    ensures forall id :: id in LaterExamples(obs) ==> exists i :: 1 <= i < |obs| && obs[i].id == id
  {
    if |obs| >= 2 {
      var n := |obs|;
      var p := obs[..n - 1];
      LaterExamplesIds(p);
      assert LaterExamples(obs) == LaterExamples(p)[obs[n - 1].id := Example(obs[n - 1].response.body)];
      forall id | id in LaterExamples(obs)
        ensures exists i :: 1 <= i < n && obs[i].id == id
      {
        if id != obs[n - 1].id {
          assert id in LaterExamples(p);
          var i :| 1 <= i < |p| && p[i].id == id;
          assert obs[i].id == id;
        }
      }
    }
  }

  /** With distinct ids the later examples hold the body of every second or
      later observation, one per observation. */
  lemma {:induction false} LaterExamplesContents(obs: seq<Observation>)
    requires DistinctIds(obs)
    ensures |obs| >= 1 ==> |LaterExamples(obs)| == |obs| - 1
    ensures forall i :: 1 <= i < |obs| ==>
      obs[i].id in LaterExamples(obs) && LaterExamples(obs)[obs[i].id] == Example(obs[i].response.body)
  {
    if |obs| >= 2 {
      var n := |obs|;
      var p, o := obs[..n - 1], obs[n - 1];
      assert forall i :: 0 <= i < |p| ==> p[i] == obs[i];
      LaterExamplesContents(p);
      LaterExamplesIds(p);
      var prev := LaterExamples(p);
      assert o.id !in prev;
      forall i | 1 <= i < n
        ensures obs[i].id in LaterExamples(obs) && LaterExamples(obs)[obs[i].id] == Example(obs[i].response.body)
      {
        if i < n - 1 {
          assert obs[i].id != o.id;
          assert prev[p[i].id] == Example(p[i].response.body);
        }
      }
    }
  }

  /** The content entry left by the observations `obs` of one target: the
      singular form with the only body, then the plural form with the later
      bodies. */
  function EntryAfter(obs: seq<Observation>): ContentEntry
    requires |obs| >= 1
  {
    if |obs| == 1 then Single(Example(obs[0].response.body)) else Plural(LaterExamples(obs))
  }

  /** One more observation of the same target adds its body to the entry. */
  lemma ExamplesStep(before: Tree, obs: seq<Observation>, key: PathKey, status: int, ct: string)
    requires |obs| >= 2 && SameTarget(obs, key, status, ct)
    requires HasContent(before, key, status, ct)
    requires before[key].responses[status].content[ct] == EntryAfter(obs[..|obs| - 1])
    ensures var o := obs[|obs| - 1];
      var after := Observe(before, o.request, o.response, o.parameters, o.id);
      HasContent(after, key, status, ct) && after[key].responses[status].content[ct] == EntryAfter(obs)
  {
    var n := |obs|;
    var o := obs[n - 1];
    ObserveAtTarget(before, o, key, status, ct);
    if n == 2 {
      assert LaterExamples(obs) == map[o.id := Example(o.response.body)];
    }
  }

  /** Repeated observations of one operation, status and content type,
      starting where that content entry is absent: the first gives the
      singular form with its body; from the second on the entry is plural
      and holds the later bodies, so the first body is dropped. */
  lemma {:induction false} RepeatedObservations(data: Tree, obs: seq<Observation>, key: PathKey, status: int, ct: string)
    requires |obs| >= 1 && SameTarget(obs, key, status, ct)
    requires !HasContent(data, key, status, ct)
    ensures HasContent(Replay(data, obs), key, status, ct)
    ensures Replay(data, obs)[key].responses[status].content[ct] == EntryAfter(obs)
  {
    var n := |obs|;
    var p, o := obs[..n - 1], obs[n - 1];
    assert obs == p + [o];
    ReplaySnoc(data, p, o);
    if n == 1 {
      assert Replay(data, p) == data;
      ObserveAtTarget(data, o, key, status, ct);
    } else {
      PrefixKeepsTarget(obs, key, status, ct);
      RepeatedObservations(data, p, key, status, ct);
      ExamplesStep(Replay(data, p), obs, key, status, ct);
    }
  }

  /** With distinct ids, `n >= 2` observations of one target leave `n - 1`
      examples: every later body under its own id and nothing else. */
  lemma RepeatedObservationsKeepLaterBodies(data: Tree, obs: seq<Observation>, key: PathKey, status: int, ct: string)
    requires |obs| >= 2 && SameTarget(obs, key, status, ct) && DistinctIds(obs)
    requires !HasContent(data, key, status, ct)
    ensures HasContent(Replay(data, obs), key, status, ct)
    ensures var e := Replay(data, obs)[key].responses[status].content[ct];
      && e.Plural?
      && |e.examples| == |obs| - 1
      && (forall i :: 1 <= i < |obs| ==> obs[i].id in e.examples && e.examples[obs[i].id] == Example(obs[i].response.body))
      && (forall id :: id in e.examples ==> exists i :: 1 <= i < |obs| && obs[i].id == id)
  {
    RepeatedObservations(data, obs, key, status, ct);
    LaterExamplesContents(obs);
    LaterExamplesIds(obs);
  }

  // As written, lines 32 and 47 test the dotted paths with `Arr::exists`,
  // which looks up one literal top-level key rather than following the
  // dots. What follows models that lookup and what it makes of an
  // observation.

  /** The tree keeps only dot-free paths, as it does for dot-free URIs. */
  ghost predicate DotFreePaths(data: Tree) {
    forall k :: k in data ==> '.' !in k.path
  }

  /** `Arr::exists($data, name)` on the nested tree: whether `name` is one
      of its top-level keys, which are the paths. */
  function LiteralKeyExists(data: Tree, name: string): (found: bool)
    // a dotted name is never a top-level key of a dot-free tree
    ensures DotFreePaths(data) && '.' in name ==> !found
  {
    exists k :: k in data && k.path == name
  }

  /** The decimal digits of `n`, as PHP prints an integer. */
  function Digits(n: nat): (d: string)
    ensures |d| > 0 && forall i :: 0 <= i < |d| ==> '0' <= d[i] <= '9'
  {
    if n < 10 then [(48 + n) as char] else Digits(n / 10) + [(48 + n % 10) as char]
  }

  function DecimalText(n: int): (t: string)
    ensures |t| > 0 && '.' !in t
  {
    if n < 0 then "-" + Digits(-n) else Digits(n)
  }

  /** `sprintf('%s.responses.%s', path, status)`. */
  function ResponsePath(req: Request, status: int): (p: string)
    ensures CollectionPath(req) < p && '.' in p
  {
    CollectionPath(req) + ".responses." + DecimalText(status)
  }

  /** One observation with the lookups of lines 32 and 47 as written. */
  function ObserveAsWritten(data: Tree, req: Request, resp: Response, parameters: seq<Fragment>, id: string)
    : (r: Tree)
    ensures r.Keys == data.Keys + {KeyOf(req)}
    ensures forall k :: k in data && k != KeyOf(req) ==> r[k] == data[k]
    ensures resp.status in r[KeyOf(req)].responses
  {
    var key := KeyOf(req);
    var entry := if LiteralKeyExists(data, CollectionPath(req)) && key in data then data[key]
                 else NewEntry(req.route, parameters);
    var withEntry := data[key := entry];
    var current := if LiteralKeyExists(withEntry, ResponsePath(req, resp.status))
                   then CurrentResponse(withEntry, key, resp.status) else EmptyResponse;
    withEntry[key := entry.(responses := entry.responses[resp.status := MergeResponse(current, resp, id)])]
  }

  /** As written, every observation replaces its operation's entry by one
      built from that observation alone: earlier statuses and examples are
      dropped and the content entry is always singular. */
  lemma AsWrittenRebuildsEntry(data: Tree, req: Request, resp: Response, parameters: seq<Fragment>, id: string)
    requires DotFreePaths(data) && '.' !in req.route.uri
    ensures var r := ObserveAsWritten(data, req, resp, parameters, id);
      && r[KeyOf(req)].responses.Keys == {resp.status}
      && r[KeyOf(req)].parameters == parameters
      && r[KeyOf(req)].responses[resp.status] == MergeResponse(EmptyResponse, resp, id)
      && r[KeyOf(req)].responses[resp.status].content[ContentTypeOf(resp.headers)]
         == Single(Example(resp.body))
  {
    var key := KeyOf(req);
    assert CollectionPath(req)[|req.route.uri| + 1] == '.';
    var withEntry := data[key := NewEntry(req.route, parameters)];
    assert DotFreePaths(withEntry);
  }

  /** The route `v1/tasks/create` observed with status 201 and then 422. */
  const SampleRequest := Request("POST", Route("v1/tasks/create", Some("tasks.create"), None, []))
  const Json: Headers := map["content-type" := ["application/json"]]

  const Created := Response(201, Json, "{\"id\":1}")
  const Invalid := Response(422, Json, "{}")
  const CreatedAgain := Response(201, Json, "{\"id\":2}")

  /** Two observations of one route, as written: the 201 response is gone
      after a 422 one, and a repeated 201 never reaches the plural form. */
  lemma AsWrittenLosesEarlierResponses()
    ensures var d1 := ObserveAsWritten(map[], SampleRequest, Created, [], "u1");
      && 201 !in ObserveAsWritten(d1, SampleRequest, Invalid, [], "u2")[KeyOf(SampleRequest)].responses
      && ObserveAsWritten(d1, SampleRequest, CreatedAgain, [], "u2")[KeyOf(SampleRequest)].responses[201].content["application/json"]
         == Single(Example("{\"id\":2}"))
  {
    var key := KeyOf(SampleRequest);
    assert '.' !in SampleRequest.route.uri;
    assert ContentTypeOf(Json) == "application/json";
    AsWrittenRebuildsEntry(map[], SampleRequest, Created, [], "u1");
    var d1 := ObserveAsWritten(map[], SampleRequest, Created, [], "u1");
    assert d1.Keys == {key};
    assert '.' !in key.path;
    assert DotFreePaths(d1);
    AsWrittenRebuildsEntry(d1, SampleRequest, Invalid, [], "u2");
    AsWrittenRebuildsEntry(d1, SampleRequest, CreatedAgain, [], "u2");
  }

  /** The same two observations with path-aware lookups: the 201 response
      survives the 422 one, and a repeated 201 leaves the plural form. */
  lemma PathAwareKeepsEarlierResponses()
    ensures var d1 := Observe(map[], SampleRequest, Created, [], "u1");
      && 201 in Observe(d1, SampleRequest, Invalid, [], "u2")[KeyOf(SampleRequest)].responses
      && Observe(d1, SampleRequest, CreatedAgain, [], "u2")[KeyOf(SampleRequest)].responses[201].content["application/json"]
         == Plural(map["u2" := Example("{\"id\":2}")])
  {
    assert ContentTypeOf(Json) == "application/json";
  }
}
