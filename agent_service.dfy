/**
 * `pollFetchStatus` of the agent client (frontend/src/services/agentService.ts):
 * it asks the agent for the job status, reports each status to the progress
 * callback, and either settles or schedules the next request.
 *
 * The outcomes of the successive status requests are a finite sequence; the
 * promise is still pending when the sequence runs out while the job is
 * fetching.
 */
module AgentService {
  import opened Wrappers

  /** The agent's `FetchStatus` body. */
  datatype FetchStatus = FetchStatus(isFetching: bool, progress: int, message: string, lastError: Option<string>)

  /** How the promise ends: resolved with a status, rejected with an error message, or still pending. */
  datatype Outcome = Resolved(status: FetchStatus) | Rejected(error: string) | Pending

  /**
   * One run of the poll: how the promise ends, the statuses passed to
   * `onProgress`, the delays given to `setTimeout`, and the number of status
   * requests made.
   */
  datatype PollRun = PollRun(outcome: Outcome, reported: seq<FetchStatus>, delays: seq<int>, requests: nat)

  /** The default `pollInterval`, used when the argument is omitted. */
  const DefaultPollInterval: int := 2000

  function PollInterval(argument: Option<int>): (ms: int)
    ensures argument.None? ==> ms == DefaultPollInterval
    ensures argument.Some? ==> ms == argument.value
  {
    if argument.Some? then argument.value else DefaultPollInterval
  }

  /** The end of a job the agent no longer runs: a set, non-empty `last_error` rejects, anything else resolves. */
  function Settle(status: FetchStatus): (o: Outcome)
    requires !status.isFetching
    ensures o.Rejected? <==> status.lastError.Some? && status.lastError.value != ""
    ensures o.Rejected? ==> o.error == status.lastError.value
    ensures o.Resolved? ==> o.status == status
  {
    if status.lastError.Some? && status.lastError.value != "" then Rejected(status.lastError.value) else Resolved(status)
  }

  /** `poll`, called once and then again from each `setTimeout`. */
  function Poll(responses: seq<Result<FetchStatus>>, interval: int): (r: PollRun)
    ensures |r.reported| <= r.requests <= |responses|
    decreases |responses|
  {
    if responses == [] then PollRun(Pending, [], [], 0)
    else
      match responses[0]
      case Err(e) => PollRun(Rejected(e), [], [], 1)
      case Ok(status) =>
        if !status.isFetching then PollRun(Settle(status), [status], [], 1)
        else
          var rest := Poll(responses[1..], interval);
          PollRun(rest.outcome, [status] + rest.reported, [interval] + rest.delays, 1 + rest.requests)
  }

  /** Every request but the last answered with a job still fetching. */
  ghost predicate StillFetching(responses: seq<Result<FetchStatus>>, n: nat)
    requires n <= |responses|
  {
    forall k :: 0 <= k < n ==> responses[k].Ok? && responses[k].value.isFetching
  }

  /**
   * What a poll run does. The statuses reported are exactly the answered
   * requests, in order, each reported before the run settles on it; the
   * requests stop at the first failure or the first status that is no longer
   * fetching (nothing after it is requested, a failure is not retried); each
   * status still fetching schedules one more request after `interval`; a
   * failed request rejects with its error; a final status settles as
   * `Settle` says; a run that never settles used every response.
   */
  lemma {:induction false} PollFacts(responses: seq<Result<FetchStatus>>, interval: int)
    ensures var r := Poll(responses, interval);
      && (r.outcome.Pending? <==> r.requests == |responses| && StillFetching(responses, |responses|))
      && (r.outcome.Pending? ==> |r.reported| == r.requests && |r.delays| == r.requests)
      && (!r.outcome.Pending? ==> 0 < r.requests && StillFetching(responses, r.requests - 1) && |r.delays| == r.requests - 1)
      && (forall k :: 0 <= k < |r.reported| ==> responses[k] == Ok(r.reported[k]))
      && (forall k :: 0 <= k < |r.delays| ==> r.delays[k] == interval)
      && (!r.outcome.Pending? && responses[r.requests - 1].Err? ==>
            r.outcome == Rejected(responses[r.requests - 1].error) && |r.reported| == r.requests - 1)
      && (!r.outcome.Pending? && responses[r.requests - 1].Ok? ==>
            !responses[r.requests - 1].value.isFetching && |r.reported| == r.requests
            && r.outcome == Settle(responses[r.requests - 1].value))
    decreases |responses|
  {
    if responses != [] && responses[0].Ok? && responses[0].value.isFetching {
      var rest := responses[1..];
      PollFacts(rest, interval);
      var r, q := Poll(responses, interval), Poll(rest, interval);
      assert r.requests == 1 + q.requests && r.reported == [responses[0].value] + q.reported;
      assert forall k :: 1 <= k <= |rest| ==> responses[k] == rest[k - 1];
      if q.outcome.Pending? {
        assert StillFetching(responses, |responses|);
      } else {
        assert StillFetching(responses, r.requests - 1);
      }
      if r.outcome.Pending? {
        assert StillFetching(rest, |rest|);
      }
    }
  }

  /** The run only depends on the requests it makes: responses after it settles are never read. */
  lemma {:induction false} PollIgnoresLater(responses: seq<Result<FetchStatus>>, later: seq<Result<FetchStatus>>, interval: int)
    requires !Poll(responses, interval).outcome.Pending?
    ensures Poll(responses + later, interval) == Poll(responses, interval)
    decreases |responses|
  {
    assert (responses + later)[0] == responses[0];
    if responses[0].Ok? && responses[0].value.isFetching {
      assert (responses + later)[1..] == responses[1..] + later;
      PollIgnoresLater(responses[1..], later, interval);
    }
  }

  /** A poll run after `n` requests that reported `reported` and waited `delays`, continued by `rest`. */
  function Continue(reported: seq<FetchStatus>, delays: seq<int>, n: nat, rest: PollRun): (r: PollRun)
    ensures r.outcome == rest.outcome && r.requests == n + rest.requests
  {
    PollRun(rest.outcome, reported + rest.reported, delays + rest.delays, n + rest.requests)
  }

  /** One request of the poll: it rejects, settles, or reports and continues with the next response. */
  lemma PollStep(responses: seq<Result<FetchStatus>>, interval: int)
    requires responses != []
    ensures responses[0].Err? ==> Poll(responses, interval) == PollRun(Rejected(responses[0].error), [], [], 1)
    ensures responses[0].Ok? && !responses[0].value.isFetching ==>
      Poll(responses, interval) == PollRun(Settle(responses[0].value), [responses[0].value], [], 1)
    ensures responses[0].Ok? && responses[0].value.isFetching ==>
      Poll(responses, interval) == Continue([responses[0].value], [interval], 1, Poll(responses[1..], interval))
  {
  }

  lemma ContinueTwice(reported: seq<FetchStatus>, delays: seq<int>, n: nat,
                      reported2: seq<FetchStatus>, delays2: seq<int>, n2: nat, rest: PollRun)
    ensures Continue(reported, delays, n, Continue(reported2, delays2, n2, rest))
         == Continue(reported + reported2, delays + delays2, n + n2, rest)
  {
    assert reported + (reported2 + rest.reported) == reported + reported2 + rest.reported;
    assert delays + (delays2 + rest.delays) == delays + delays2 + rest.delays;
  }

  /**
   * `pollFetchStatus` as the loop its timer chain runs: request a status,
   * report it, and stop on a failure or a final status; otherwise wait
   * `interval` and request again.
   */
  method PollFetchStatus(responses: seq<Result<FetchStatus>>, interval: int) returns (run: PollRun)
    ensures run == Poll(responses, interval)
  {
    var reported: seq<FetchStatus> := [];
    var delays: seq<int> := [];
    var outcome: Outcome := Pending;
    var i := 0;
    assert responses[0..] == responses;
    while i < |responses| && outcome.Pending?
      invariant 0 <= i <= |responses|
      invariant outcome.Pending? ==> Continue(reported, delays, i, Poll(responses[i..], interval)) == Poll(responses, interval)
      invariant !outcome.Pending? ==> PollRun(outcome, reported, delays, i) == Poll(responses, interval)
      decreases |responses| - i
    {
      PollStep(responses[i..], interval);
      assert responses[i..][0] == responses[i];
      assert responses[i..][1..] == responses[i + 1..];
      match responses[i] {
        case Err(e) =>
          outcome := Rejected(e);
        case Ok(status) =>
          if !status.isFetching {
            outcome := Settle(status);
          } else {
            ContinueTwice(reported, delays, i, [status], [interval], 1, Poll(responses[i + 1..], interval));
            delays := delays + [interval];
          }
          reported := reported + [status];
      }
      i := i + 1;
    }
    if outcome.Pending? {
      assert responses[i..] == [];
    }
    run := PollRun(outcome, reported, delays, i);
  }
}
