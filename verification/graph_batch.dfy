/** The Graph batcher's configuration in the front end: the fetcher that turns a
    batch of requests into one `$batch` call, and the resolver that picks each
    caller's answer out of the batch's responses. */
module GraphBatch {
  import opened Wrappers
  import Batch
  import Seqs

  /** A Graph request as the fetcher sees it: its full URL (the unique
      identifier), its path with query string, and its headers. */
  datatype GraphRequest = GraphRequest(id: string, path: string, headers: map<string, string>)

  /** One step of the `$batch` body; `verb` is its HTTP method. */
  datatype BatchStep = BatchStep(id: string, url: string, verb: string, headers: map<string, string>)

  /** One response of the `$batch` answer. */
  datatype BatchInfo = BatchInfo(id: string, body: string, status: int)

  /** Graph accepts at most 20 requests per batch; requests within a 20 ms
      window go together. */
  const Limit: nat := 20
  const Scheduler := Batch.Window(20)

  predicate HasId(rs: seq<GraphRequest>, id: string) {
    exists k :: 0 <= k < |rs| && rs[k].id == id
  }

  /** One step of the `reduce`: a request whose identifier was already seen
      is dropped, any other is added at the end. */
  function AddIfNew(u: seq<GraphRequest>, r: GraphRequest): seq<GraphRequest> {
    if HasId(u, r.id) then u else u + [r]
  }

  /** The `reduce` that drops requests whose identifier was already seen; the
      object's keys keep their insertion order, as URLs are never integer
      keys. */
  function Unique(rs: seq<GraphRequest>): (u: seq<GraphRequest>)
    ensures |u| <= |rs|
    decreases |rs|
  {
    if rs == [] then [] else AddIfNew(Unique(rs[..|rs| - 1]), rs[|rs| - 1])
  }

  predicate DistinctIds(u: seq<GraphRequest>) {
    forall i, j :: 0 <= i < j < |u| ==> u[i].id != u[j].id
  }

  /** No two of the kept requests share an identifier. */
  lemma {:induction false} UniqueIsDistinct(rs: seq<GraphRequest>)
    ensures DistinctIds(Unique(rs))
    decreases |rs|
  {
    if rs != [] {
      var u := Unique(rs[..|rs| - 1]);
      var last := rs[|rs| - 1];
      UniqueIsDistinct(rs[..|rs| - 1]);
      if !HasId(u, last.id) {
        var u' := u + [last];
        forall i, j | 0 <= i < j < |u'|
          ensures u'[i].id != u'[j].id
        {
          assert u'[i] == u[i];
          if j < |u| {
            assert u'[j] == u[j];
          }
        }
      }
    }
  }

  /** Every request's identifier is kept. */
  lemma {:induction false} UniqueCovers(rs: seq<GraphRequest>)
    ensures forall k :: 0 <= k < |rs| ==> HasId(Unique(rs), rs[k].id)
    decreases |rs|
  {
    if rs != [] {
      var front := rs[..|rs| - 1];
      var u := Unique(front);
      var last := rs[|rs| - 1];
      UniqueCovers(front);
      var u' := AddIfNew(u, last);
      assert HasId(u', last.id) by {
        if !HasId(u, last.id) {
          assert u'[|u|] == last;
        }
      }
      forall k | 0 <= k < |front|
        ensures HasId(u', rs[k].id)
      {
        assert front[k] == rs[k];
        var j :| 0 <= j < |u| && u[j].id == front[k].id;
        assert u'[j] == u[j];
      }
    }
  }

  /** A request first seen at index `j`. */
  predicate FirstSeenAt(rs: seq<GraphRequest>, j: int, r: GraphRequest) {
    0 <= j < |rs| && rs[j] == r && forall i :: 0 <= i < j ==> rs[i].id != r.id
  }

  /** `r` is the first request of `rs` with its identifier. */
  predicate SeenFirst(rs: seq<GraphRequest>, r: GraphRequest) {
    exists j :: 0 <= j < |rs| && FirstSeenAt(rs, j, r)
  }

  /** Each kept request is the first with its identifier. */
  lemma {:induction false} UniqueKeepsFirst(rs: seq<GraphRequest>)
    ensures forall k :: 0 <= k < |Unique(rs)| ==> SeenFirst(rs, Unique(rs)[k])
    decreases |rs|
  {
    if rs != [] {
      var front := rs[..|rs| - 1];
      var u := Unique(front);
      var last := rs[|rs| - 1];
      UniqueKeepsFirst(front);
      var u' := AddIfNew(u, last);
      assert Unique(rs) == u';
      forall k | 0 <= k < |u'|
        ensures SeenFirst(rs, u'[k])
      {
        if k < |u| {
          assert u'[k] == u[k];
          assert SeenFirst(front, u[k]);
          var j :| 0 <= j < |front| && FirstSeenAt(front, j, u[k]);
          assert front[j] == u[k];
          assert forall i :: 0 <= i <= j ==> front[i] == rs[i];
          assert FirstSeenAt(rs, j, u'[k]);
        } else {
          assert !HasId(u, last.id) && u'[k] == last;
          UniqueCovers(front);
          forall i | 0 <= i < |front|
            ensures rs[i].id != last.id
          {
            assert front[i] == rs[i];
          }
          assert FirstSeenAt(rs, |front|, u'[k]);
        }
      }
    } else {
      assert Unique(rs) == [];
    }
  }

  /** Duplicates after the first make no difference. */
  lemma {:induction false} UniqueOfDistinct(rs: seq<GraphRequest>)
    requires DistinctIds(rs)
    ensures Unique(rs) == rs
    decreases |rs|
  {
    if rs != [] {
      var front := rs[..|rs| - 1];
      var last := rs[|rs| - 1];
      assert DistinctIds(front) by {
        forall i, j | 0 <= i < j < |front|
          ensures front[i].id != front[j].id
        {
          assert front[i] == rs[i] && front[j] == rs[j];
        }
      }
      UniqueOfDistinct(front);
      assert !HasId(front, last.id) by {
        forall k | 0 <= k < |front|
          ensures front[k].id != last.id
        {
          assert front[k] == rs[k];
        }
      }
      assert front + [last] == rs;
    }
  }

  /** One step per request: its identifier, `/` and its path, `GET`, and its
      headers. */
  function Steps(u: seq<GraphRequest>): (steps: seq<BatchStep>)
    ensures |steps| == |u|
    ensures forall k :: 0 <= k < |u| ==>
              steps[k] == BatchStep(u[k].id, "/" + u[k].path, "GET", u[k].headers)
  {
    seq(|u|, k requires 0 <= k < |u| => BatchStep(u[k].id, "/" + u[k].path, "GET", u[k].headers))
  }

  predicate HasStep(steps: seq<BatchStep>, id: string) {
    exists j :: 0 <= j < |steps| && steps[j].id == id
  }

  /** The `$batch` body the fetcher posts for a batch of requests: one step
      per distinct identifier, none repeated. */
  function FetcherSteps(rs: seq<GraphRequest>): (steps: seq<BatchStep>)
    ensures forall i, j :: 0 <= i < j < |steps| ==> steps[i].id != steps[j].id
    ensures forall k :: 0 <= k < |rs| ==> HasStep(steps, rs[k].id)
    ensures forall j :: 0 <= j < |steps| ==> steps[j].verb == "GET"
  {
    var u := Unique(rs);
    UniqueIsDistinct(rs);
    UniqueCovers(rs);
    var steps := Steps(u);
    assert forall j :: 0 <= j < |u| ==> steps[j].id == u[j].id;
    steps
  }

  /** Why the resolver throws: no response for the request, or a response
      whose status is an error, thrown as its body. */
  datatype ResolveError = NotFound | Failed(body: string)

  const NotFoundMessage := "Response not found"

  /** The resolver: the body of the first response whose id is the request's
      identifier, unless its status is 400 or more. */
  function Resolve(responses: seq<BatchInfo>, request: GraphRequest): (r: Result<string, ResolveError>)
    ensures r == Err(NotFound) <==> forall k :: 0 <= k < |responses| ==> responses[k].id != request.id
    ensures r.Ok? ==>
              exists k :: 0 <= k < |responses| && responses[k].id == request.id &&
                          responses[k].status < 400 && responses[k].body == r.value &&
                          forall j :: 0 <= j < k ==> responses[j].id != request.id
    ensures r.Err? && r.error.Failed? ==>
              exists k :: 0 <= k < |responses| && responses[k].id == request.id &&
                          responses[k].status >= 400 && responses[k].body == r.error.body &&
                          forall j :: 0 <= j < k ==> responses[j].id != request.id
  {
    match Seqs.First((b: BatchInfo) => b.id == request.id, responses)
    case None => Err(NotFound)
    case Some(k) =>
      if responses[k].status >= 400 then Err(Failed(responses[k].body)) else Ok(responses[k].body)
  }

  /** Every step has a response with its id. */
  predicate AnswersAll(responses: seq<BatchInfo>, steps: seq<BatchStep>) {
    forall j :: 0 <= j < |steps| ==> exists i :: 0 <= i < |responses| && responses[i].id == steps[j].id
  }

  /** When Graph answers every step of the posted body, each request of the
      batch resolves, to a body or to the error its response carries. */
  lemma AnsweredRequestsResolve(rs: seq<GraphRequest>, responses: seq<BatchInfo>, k: nat)
    requires k < |rs|
    requires AnswersAll(responses, FetcherSteps(rs))
    ensures Resolve(responses, rs[k]) != Err(NotFound)
  {
    var steps := FetcherSteps(rs);
    assert HasStep(steps, rs[k].id);
    var j :| 0 <= j < |steps| && steps[j].id == rs[k].id;
    var i :| 0 <= i < |responses| && responses[i].id == steps[j].id;
  }

  /** The provider's context, as `useGraph` reads it. */
  datatype GraphContext = GraphContext(batcherLimit: Option<nat>, scheduler: Batch.Scheduler)

  const UseGraphMessage := "useGraph must be used within a GraphProvider"

  /** `useGraph`: outside a provider there is no context, which is an error. */
  function UseGraph(context: Option<GraphContext>): (r: Result<GraphContext, string>)
    ensures context.None? <==> r == Err(UseGraphMessage)
    ensures context.Some? ==> r == Ok(context.value)
  {
    if context.None? then Err(UseGraphMessage) else Ok(context.value)
  }
}
