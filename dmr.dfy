/** The batching and reply triage of the DMR probe: all tests' queries travel in one
    management `composite` operation, and the reply's `result` entries are matched to the
    tests by position alone. */
module Dmr {
  import opened Wrappers
  import opened Json
  import opened ProbeConfig

  /** The Python exceptions that end a probe cycle. */
  datatype Failure =
    | ValueError                      // `response.json()` found no JSON in the body
    | KeyError(key: string)           // a mapping without the key
    | TypeError                       // a key subscript on a value that is not a mapping
    | AttributeError                  // `.values()` on a value that is not a mapping
    | IndexError                      // a position past the end of the result entries
    | ProbeRequestFailed(status: int) // the "Probe request failed" exception

  /** What the management endpoint sent back: the HTTP status code, and the body as
      `response.json()` parses it (`None` when that raises). */
  datatype Reply = Reply(status: int, body: Option<Json>)

  /** `response.json()`: the parsed body, or the `ValueError` it raises. */
  function ParsedBody(body: Option<Json>): Result<Json, Failure> {
    match body
    case Some(v) => Success(v)
    case None => Failure(ValueError)
  }

  /** `v[key]` for a string key. */
  function Subscript(v: Json, key: string): Result<Json, Failure> {
    if !v.Obj? then Failure(TypeError)
    else match Lookup(v.fields, key)
      case Some(x) => Success(x)
      case None => Failure(KeyError(key))
  }

  /** `list(v.values())`. */
  function ValuesOf(v: Json): Result<seq<Json>, Failure> {
    if v.Obj? then Success(Values(v.fields)) else Failure(AttributeError)
  }

  // ---------------------------------------------------------------------------
  // The composite request

  /** The four fields of the envelope, in the order they are written. */
  const EnvelopeKeys: seq<string> := ["operation", "address", "json.pretty", "steps"]

  /** The management request that runs every query as one step of a composite operation. */
  function CompositeRequest(queries: seq<Json>): Json {
    Obj([("operation", Str("composite")), ("address", Arr([])), ("json.pretty", Int(1)),
         ("steps", Arr(queries))])
  }

  /** The steps a request carries, read back from its `steps` field. */
  function RequestSteps(request: Json): Option<seq<Json>> {
    if !request.Obj? then None
    else match Lookup(request.fields, "steps")
      case Some(Arr(steps)) => Some(steps)
      case _ => None
  }

  /** A composite envelope: exactly the four envelope fields, with the fixed operation,
      address and pretty-print values and an array of steps. */
  predicate IsCompositeEnvelope(request: Json) {
    request.Obj?
    && Keys(request.fields) == EnvelopeKeys
    && Lookup(request.fields, "operation") == Some(Str("composite"))
    && Lookup(request.fields, "address") == Some(Arr([]))
    && Lookup(request.fields, "json.pretty") == Some(Int(1))
    && RequestSteps(request).Some?
  }

  /** The request is a composite envelope whose steps are the queries, in order. */
  lemma CompositeRequestCarriesQueries(queries: seq<Json>)
    ensures IsCompositeEnvelope(CompositeRequest(queries))
    ensures RequestSteps(CompositeRequest(queries)) == Some(queries)
  {
    var fields := CompositeRequest(queries).fields;
    assert Keys(fields) == EnvelopeKeys;
    assert DistinctKeys(fields);
    LookupAt(fields, 0);
    LookupAt(fields, 1);
    LookupAt(fields, 2);
    LookupAt(fields, 3);
  }

  /** Nothing but the steps distinguishes one envelope from another: an envelope is the
      composite request of the steps it carries. */
  lemma {:induction false} EnvelopeDeterminedBySteps(request: Json)
    requires IsCompositeEnvelope(request)
    ensures request == CompositeRequest(RequestSteps(request).value)
  {
    var fields := request.fields;
    assert |fields| == 4;
    assert fields[0].0 == "operation" && fields[1].0 == "address";
    assert fields[2].0 == "json.pretty" && fields[3].0 == "steps";
    assert DistinctKeys(fields);
    LookupAt(fields, 0);
    LookupAt(fields, 1);
    LookupAt(fields, 2);
    LookupAt(fields, 3);
    assert fields == CompositeRequest(RequestSteps(request).value).fields;
  }

  // ---------------------------------------------------------------------------
  // Reading one test's input out of a reply

  /** `getTestInput`: the test at `testIndex` gets the value at that position of the
      reply's `result` object, in insertion order. */
  function GetTestInput(results: Json, testIndex: nat): (r: Result<Json, Failure>)
    ensures r.Success? <==>
      results.Obj? && Lookup(results.fields, "result").Some?
      && Lookup(results.fields, "result").value.Obj?
      && testIndex < |Lookup(results.fields, "result").value.fields|
    ensures r.Success? ==> r.value == Lookup(results.fields, "result").value.fields[testIndex].1
    ensures !results.Obj? ==> r == Failure(TypeError)
    ensures results.Obj? && Lookup(results.fields, "result").None? ==> r == Failure(KeyError("result"))
    ensures results.Obj? && Lookup(results.fields, "result").Some?
            && !Lookup(results.fields, "result").value.Obj?
      ==> r == Failure(AttributeError)
    ensures results.Obj? && Lookup(results.fields, "result").Some?
            && Lookup(results.fields, "result").value.Obj?
            && testIndex >= |Lookup(results.fields, "result").value.fields|
      ==> r == Failure(IndexError)
  {
    match Subscript(results, "result")
    case Failure(e) => Failure(e)
    case Success(result) =>
      match ValuesOf(result)
      case Failure(e) => Failure(e)
      case Success(values) =>
        if testIndex < |values| then Success(values[testIndex]) else Failure(IndexError)
  }

  // ---------------------------------------------------------------------------
  // Triage of a reply whose status is neither 200 nor 403

  /** How the walk over the first `n` result values ends. */
  datatype ScanEnd =
    | AllPresent            // every one of the first n values is truthy
    | FalsyAt(index: nat)   // the first falsy value
    | ShortAt(index: nat)   // the values ran out before a falsy one or the n-th

  /** The walk of the result values from position `i`, one test per position. */
  function ScanFrom(values: seq<Json>, n: nat, i: nat): ScanEnd
    decreases n - i
  {
    if i >= n then AllPresent
    else if i >= |values| then ShortAt(i)
    else if !Truthy(values[i]) then FalsyAt(i)
    else ScanFrom(values, n, i + 1)
  }

  /** What the walk from position `i` reports, in terms of the values themselves. */
  lemma {:induction false} ScanFromMeaning(values: seq<Json>, n: nat, i: nat)
    requires i <= |values|
    ensures match ScanFrom(values, n, i)
      case AllPresent =>
        n <= |values| && forall k :: i <= k < n ==> Truthy(values[k])
      case FalsyAt(k) =>
        i <= k < n && k < |values| && !Truthy(values[k])
        && forall j :: i <= j < k ==> Truthy(values[j])
      case ShortAt(k) =>
        k == |values| < n && forall j :: i <= j < |values| ==> Truthy(values[j])
    decreases n - i
  {
    if i < n && i < |values| && Truthy(values[i]) {
      ScanFromMeaning(values, n, i + 1);
    }
  }

  /** The verdict on the first `n` result values: which one, if any, stops the walk. */
  function Scan(values: seq<Json>, n: nat): ScanEnd {
    ScanFrom(values, n, 0)
  }

  /** Entries past position n - 1 are never looked at. */
  lemma {:induction false} ScanIgnoresTail(values: seq<Json>, extra: seq<Json>, n: nat, i: nat)
    requires n <= |values|
    ensures ScanFrom(values + extra, n, i) == ScanFrom(values, n, i)
    decreases n - i
  {
    if i < n {
      assert (values + extra)[i] == values[i];
      ScanIgnoresTail(values, extra, n, i + 1);
    }
  }

  /** `failUnusableResponse` for `n` tests: returns normally, or raises. An unusable reply
      raises the "Probe request failed" exception, except that a body which is not JSON
      makes the exception's own message raise `ValueError` first. */
  function Triage(status: int, body: Option<Json>, n: nat): Outcome<Failure> {
    if body.None? then Fail(ValueError)
    else if !Truthy(body.value) then Fail(ProbeRequestFailed(status))
    else match Subscript(body.value, "outcome")
      case Failure(e) => Fail(e)
      case Success(outcome) =>
        if !Truthy(outcome) || outcome != Str("failed") then Fail(ProbeRequestFailed(status))
        else match Subscript(body.value, "result")
          case Failure(e) => Fail(e)
          case Success(result) =>
            if !Truthy(result) then Fail(ProbeRequestFailed(status))
            else match ValuesOf(result)
              case Failure(e) => Fail(e)
              case Success(values) =>
                match Scan(values, n)
                case AllPresent => Pass
                case FalsyAt(_) => Fail(ProbeRequestFailed(status))
                case ShortAt(_) => Fail(IndexError)
  }

  /** A failed-outcome reply that can be split into one truthy result per test: an object
      whose `outcome` is "failed" and whose `result` is a non-empty object with at least
      `n` entries, the first `n` of them truthy. */
  predicate UsableFailedReply(body: Option<Json>, n: nat) {
    body.Some? && body.value.Obj?
    && Lookup(body.value.fields, "outcome") == Some(Str("failed"))
    && match Lookup(body.value.fields, "result")
       case Some(Obj(entries)) =>
         entries != [] && n <= |entries| && forall k :: 0 <= k < n ==> Truthy(entries[k].1)
       case _ => false
  }

  /** The classifier lets a reply through exactly when it is a usable failed-outcome reply. */
  lemma TriagePassesExactlyUsable(status: int, body: Option<Json>, n: nat)
    ensures Triage(status, body, n) == Pass <==> UsableFailedReply(body, n)
  {
    if body.Some? && body.value.Obj? {
      match Lookup(body.value.fields, "result")
      case Some(Obj(entries)) =>
        ScanFromMeaning(Values(entries), n, 0);
      case _ =>
    }
  }

  /** In a failed-outcome reply, a falsy value at any of the first n positions makes the
      reply unusable, whether or not entries are also missing further on. */
  lemma FalsyStepPoisonsBatch(status: int, body: Json, entries: seq<(string, Json)>, n: nat, k: nat)
    requires body.Obj?
    requires Lookup(body.fields, "outcome") == Some(Str("failed"))
    requires Lookup(body.fields, "result") == Some(Obj(entries)) && entries != []
    requires k < n && k < |entries| && !Truthy(entries[k].1)
    ensures Triage(status, Some(body), n) == Fail(ProbeRequestFailed(status))
  {
    ScanFromMeaning(Values(entries), n, 0);
  }

  /** In a failed-outcome reply with fewer result entries than tests, all truthy, the walk
      runs off the end: `IndexError`. */
  lemma ShortResultRaisesIndexError(status: int, body: Json, entries: seq<(string, Json)>, n: nat)
    requires body.Obj?
    requires Lookup(body.fields, "outcome") == Some(Str("failed"))
    requires Lookup(body.fields, "result") == Some(Obj(entries)) && entries != []
    requires |entries| < n && forall k :: 0 <= k < |entries| ==> Truthy(entries[k].1)
    ensures Triage(status, Some(body), n) == Fail(IndexError)
  {
    ScanFromMeaning(Values(entries), n, 0);
  }

  /** An outcome other than "failed", or a missing or falsy outcome or result, is never
      usable on this path. */
  lemma UnexpectedShapeIsUnusable(status: int, body: Option<Json>, n: nat)
    requires body.None? || !body.value.Obj? || Lookup(body.value.fields, "outcome") != Some(Str("failed"))
      || Lookup(body.value.fields, "result").None? || !Truthy(Lookup(body.value.fields, "result").value)
    ensures Triage(status, body, n).Fail?
  {
  }

  // ---------------------------------------------------------------------------
  // The status gate of sendRequest

  /** Status codes whose body is returned without classification. */
  predicate KnownGood(status: int) {
    status == 200 || status == 403
  }

  /** What `sendRequest` returns for a reply, or the exception it raises, when `n` tests
      are in the batch. */
  function SendOutcome(reply: Reply, n: nat): Result<Json, Failure> {
    if !KnownGood(reply.status) then
      match Triage(reply.status, reply.body, n)
      case Fail(e) => Failure(e)
      case Pass => ParsedBody(reply.body)
    else ParsedBody(reply.body)
  }

  /** Statuses 200 and 403 never reach the classifier: the parsed body is returned as it
      is, whatever it holds and however many tests there are. */
  lemma KnownGoodStatusSkipsClassifier(reply: Reply, n: nat)
    requires KnownGood(reply.status)
    ensures reply.body.Some? ==> SendOutcome(reply, n) == Success(reply.body.value)
    ensures reply.body.None? ==> SendOutcome(reply, n) == Failure(ValueError)
  {
  }

  /** Any other status returns the body exactly when it is a usable failed-outcome reply. */
  lemma OtherStatusReturnsOnlyUsable(reply: Reply, n: nat)
    requires !KnownGood(reply.status)
    ensures SendOutcome(reply, n).Success? <==> UsableFailedReply(reply.body, n)
    ensures SendOutcome(reply, n).Success? ==> SendOutcome(reply, n).value == reply.body.value
  {
    TriagePassesExactlyUsable(reply.status, reply.body, n);
  }

  /** After any other status, every test of the batch finds a truthy input at its position. */
  lemma UsableReplyFeedsEveryTest(reply: Reply, n: nat, i: nat)
    requires !KnownGood(reply.status)
    requires SendOutcome(reply, n).Success?
    requires i < n
    ensures GetTestInput(SendOutcome(reply, n).value, i).Success?
    ensures Truthy(GetTestInput(SendOutcome(reply, n).value, i).value)
  {
    OtherStatusReturnsOnlyUsable(reply, n);
  }

  /** A reply with status 500 and outcome "failed" whose second of three step results is
      an empty object is unusable, even though the first and third are there. */
  lemma SecondOfThreeEmptyIsUnusable()
    ensures var ok := Obj([("outcome", Str("success")), ("result", Str("ok"))]);
      var body := Obj([("outcome", Str("failed")),
                       ("result", Obj([("step-1", ok), ("step-2", Obj([])), ("step-3", ok)]))]);
      SendOutcome(Reply(500, Some(body)), 3) == Failure(ProbeRequestFailed(500))
  {
  }

  // ---------------------------------------------------------------------------
  // The probe object

  /** A probe for a fixed batch of tests, and the endpoint and credentials it uses. */
  class DmrProbe {
    var tests: seq<Json>   // each test's query, in the order the tests were given
    var host: string
    var port: int
    var user: string
    var password: string

    /** A probe for the tests whose queries are given; `ReadConfig` fills in the endpoint. */
    constructor (queries: seq<Json>)
      ensures tests == queries
    {
      tests := queries;
      host, port, user, password := [], BasePort, [], [];
    }

    /** `__readConfig`: the port from the offset, then host, user and password from the
        output of the netrc command; an error stands for the exit of the process. */
    method ReadConfig(offset: int, output: string) returns (err: Option<ConfigError>)
      modifies this
      ensures tests == old(tests)
      ensures port == BasePort + offset
      ensures match ParseConfig(offset, output)
        case Success(c) => err.None? && host == c.host && user == c.user && password == c.password
        case Failure(e) => err == Some(e)
    {
      port := BasePort + offset;
      var tokens := NetrcTokens(output);
      ghost var parsed := ParseConfig(offset, output);
      if |tokens| != 6 {
        assert parsed == Failure(MalformedNetrc);
        return Some(MalformedNetrc);
      }
      host := PyStr.Strip(tokens[1]);
      user := PyStr.Strip(tokens[3]);
      password := PyStr.Strip(tokens[5]);
      var values := [host, user, password];
      assert parsed == CheckCredentials(offset, values[0], values[1], values[2]);
      for i := 0 to 3
        invariant forall j :: 0 <= j < i ==> values[j] != []
        modifies {}
      {
        if values[i] == [] {
          assert parsed == Failure(Missing(CheckOrder[i])) by {
            assert i == 0 || values[0] != [];
            assert i <= 1 || values[1] != [];
          }
          return Some(Missing(CheckOrder[i]));
        }
      }
      err := None;
    }

    /** `createRequest`: the composite request whose steps are the tests' queries. */
    method CreateRequest() returns (request: Json)
      ensures request == CompositeRequest(tests)
    {
      var steps: seq<Json> := [];
      for i := 0 to |tests|
        invariant steps == tests[..i]
      {
        steps := steps + [tests[i]];
      }
      assert steps == tests;
      request := Obj([("operation", Str("composite")), ("address", Arr([])),
                      ("json.pretty", Int(1)), ("steps", Arr(steps))]);
    }

    /** `failUnusableResponse`: returns normally for a usable reply and raises otherwise. */
    method FailUnusableResponse(reply: Reply) returns (r: Outcome<Failure>)
      ensures r == Triage(reply.status, reply.body, |tests|)
    {
      var respDict := reply.body;
      var unusable := respDict.None? || !Truthy(respDict.value);
      var result := Null;
      if !unusable {
        var outcome := Subscript(respDict.value, "outcome");
        if outcome.Failure? {
          return Fail(outcome.error);
        }
        unusable := !Truthy(outcome.value) || outcome.value != Str("failed");
        if !unusable {
          var found := Subscript(respDict.value, "result");
          if found.Failure? {
            return Fail(found.error);
          }
          result := found.value;
          unusable := !Truthy(result);
        }
      }
      if !unusable {
        var listed := ValuesOf(result);
        if listed.Failure? {
          return Fail(listed.error);
        }
        var stepResults := listed.value;
        var index := 0;
        while index < |tests|
          invariant 0 <= index <= |tests|
          invariant Scan(stepResults, |tests|) == ScanFrom(stepResults, |tests|, index)
          invariant !unusable
        {
          if index >= |stepResults| {
            return Fail(IndexError);
          }
          if !Truthy(stepResults[index]) {
            unusable := true;
            break;
          }
          index := index + 1;
        }
      }
      if unusable {
        r := Fail(if respDict.None? then ValueError else ProbeRequestFailed(reply.status));
      } else {
        r := Pass;
      }
    }

    /** `sendRequest`, from the moment the reply is in: statuses 200 and 403 return the
        parsed body, any other status returns it only after the classifier let it through. */
    method SendRequest(reply: Reply) returns (r: Result<Json, Failure>)
      ensures r == SendOutcome(reply, |tests|)
    {
      if reply.status != 200 && reply.status != 403 {
        var verdict := FailUnusableResponse(reply);
        if verdict.Fail? {
          return Failure(verdict.error);
        }
      }
      r := ParsedBody(reply.body);
    }
  }
}
