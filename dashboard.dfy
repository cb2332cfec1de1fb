/**
 * The dashboard's fetch button (frontend/src/components/Dashboard.tsx): it
 * starts a backend fetch job, then polls the job status once a second until
 * the job reports that it is no longer fetching, then reloads the statistics.
 *
 * The statistics body is opaque (type `S`). A request's outcome is a
 * parameter, `None` when it failed. The interval's ticks are a finite
 * sequence of request outcomes, one per second; a sequence that ends before
 * the job does stands for an interval that is still running.
 */
module Dashboard {
  import opened Wrappers
  import opened Text

  /** The `FetchStatus` body. */
  datatype FetchStatus = FetchStatus(isFetching: bool, progress: int, message: string)

  /** A toast: `message.success` or `message.error`. */
  datatype Notice = Success(text: string) | Failure(text: string)

  const PollInterval: int := 1000
  const StartedText: string := "开始获取新闻"
  const StatsFailedText: string := "获取统计信息失败"

  /** The tick that stops the interval: the first answered one whose job is no longer fetching. */
  function FirstTerminal(ticks: seq<Option<FetchStatus>>): (r: Option<nat>)
    ensures r.Some? ==> r.value < |ticks| && ticks[r.value].Some? && !ticks[r.value].value.isFetching
    ensures r.Some? ==> forall j :: 0 <= j < r.value ==> ticks[j].None? || ticks[j].value.isFetching
    ensures r.None? ==> forall j :: 0 <= j < |ticks| ==> ticks[j].None? || ticks[j].value.isFetching
  {
    if ticks == [] then None
    else if ticks[0].Some? && !ticks[0].value.isFetching then Some(0)
    else
      var rest := FirstTerminal(ticks[1..]);
      if rest.Some? then Some(rest.value + 1) else None
  }

  /** The status shown after some ticks: the last answered one, or the one shown before when none answered. */
  function Latest(shown: Option<FetchStatus>, ticks: seq<Option<FetchStatus>>): (r: Option<FetchStatus>)
    ensures (forall j :: 0 <= j < |ticks| ==> ticks[j].None?) ==> r == shown
    ensures (exists j :: 0 <= j < |ticks| && ticks[j].Some?) ==>
      exists j :: 0 <= j < |ticks| && r == ticks[j] && r.Some? && forall k :: j < k < |ticks| ==> ticks[k].None?
  {
    if ticks == [] then shown
    else if ticks[|ticks| - 1].Some? then ticks[|ticks| - 1]
    else
      var r := Latest(shown, ticks[..|ticks| - 1]);
      assert forall j :: 0 <= j < |ticks| - 1 ==> ticks[..|ticks| - 1][j] == ticks[j];
      r
  }

  /** The number of status requests the interval makes: up to and including the stopping tick. */
  function Polled(ticks: seq<Option<FetchStatus>>): (n: nat)
    ensures n <= |ticks|
  {
    var first := FirstTerminal(ticks);
    if first.Some? then first.value + 1 else |ticks|
  }

  /** Ticks after the stopping one are never requested: a longer stream polls the same. */
  lemma PolledIgnoresLater(ticks: seq<Option<FetchStatus>>, later: seq<Option<FetchStatus>>)
    requires FirstTerminal(ticks).Some?
    ensures FirstTerminal(ticks + later) == FirstTerminal(ticks)
    ensures Polled(ticks + later) == Polled(ticks)
    ensures (ticks + later)[..Polled(ticks + later)] == ticks[..Polled(ticks)]
  {
    var k := FirstTerminal(ticks).value;
    assert (ticks + later)[k] == ticks[k];
    assert forall j :: 0 <= j < k ==> (ticks + later)[j] == ticks[j];
  }

  /** There is no tick limit: while the job keeps fetching every tick is polled. */
  lemma NoTickLimit(ticks: seq<Option<FetchStatus>>)
    requires forall j :: 0 <= j < |ticks| ==> ticks[j].None? || ticks[j].value.isFetching
    ensures Polled(ticks) == |ticks|
  {
  }

  class DashboardPage<S> {
    var stats: Option<S>
    var fetchStatus: Option<FetchStatus>
    var loading: bool

    constructor ()
      ensures stats.None? && fetchStatus.None? && !loading
    {
      stats, fetchStatus, loading := None, None, false;
    }

    /** The fetch button is disabled while the shown status says a job is fetching. */
    predicate FetchDisabled()
      reads this
    {
      fetchStatus.Some? && fetchStatus.value.isFetching
    }

    /** `loadStats`: a reply replaces the statistics; a failure shows an error and keeps them. */
    method LoadStats(reply: Option<S>) returns (notices: seq<Notice>)
      modifies this
      ensures fetchStatus == old(fetchStatus) && loading == old(loading)
      ensures reply.Some? ==> stats == reply && notices == []
      ensures reply.None? ==> stats == old(stats) && notices == [Failure(StatsFailedText)]
    {
      notices := [];
      if reply.Some? {
        stats := reply;
      } else {
        notices := [Failure(StatsFailedText)];
      }
    }

    /** `loadFetchStatus`: a reply replaces the shown status; a failure is only logged. */
    method LoadFetchStatus(reply: Option<FetchStatus>)
      modifies this
      ensures stats == old(stats) && loading == old(loading)
      ensures fetchStatus == (if reply.Some? then reply else old(fetchStatus))
    {
      if reply.Some? {
        fetchStatus := reply;
      }
    }

    /** The mount effect: both loads, with the spinner on while they run. */
    method Mount(statsReply: Option<S>, statusReply: Option<FetchStatus>) returns (notices: seq<Notice>)
      modifies this
      ensures stats == (if statsReply.Some? then statsReply else old(stats))
      ensures fetchStatus == (if statusReply.Some? then statusReply else old(fetchStatus))
      ensures !loading
      ensures notices == (if statsReply.Some? then [] else [Failure(StatsFailedText)])
    {
      loading := true;
      notices := LoadStats(statsReply);
      LoadFetchStatus(statusReply);
      loading := false;
    }

    /**
     * `handleFetchNews`. When the start request fails no polling begins and
     * the backend's error (or a default) is shown. Otherwise every answered
     * tick becomes the shown status, and the first one that is no longer
     * fetching stops the interval, reloads the statistics once and, when its
     * progress is 100, shows its message. A failed status request throws
     * inside the callback and the interval carries on.
     */
    method HandleFetchNews(started: bool, startError: Option<string>, ticks: seq<Option<FetchStatus>>, statsReply: Option<S>)
      returns (notices: seq<Notice>, polled: nat)
      modifies this
      ensures loading == old(loading)
      ensures !started ==>
        notices == [Failure(OrElse(startError, "获取新闻失败"))] && polled == 0
        && stats == old(stats) && fetchStatus == old(fetchStatus)
      ensures started ==> polled == Polled(ticks) && fetchStatus == Latest(old(fetchStatus), ticks[..polled])
      ensures started && FirstTerminal(ticks).None? ==> notices == [Success(StartedText)] && stats == old(stats)
      ensures started && FirstTerminal(ticks).Some? ==>
        var last := ticks[FirstTerminal(ticks).value].value;
        fetchStatus == Some(last) && !FetchDisabled()
        && stats == (if statsReply.Some? then statsReply else old(stats))
        && notices == [Success(StartedText)] + (if last.progress == 100 then [Success(last.message)] else [])
                      + (if statsReply.Some? then [] else [Failure(StatsFailedText)])
    {
      if !started {
        return [Failure(OrElse(startError, "获取新闻失败"))], 0;
      }
      notices := [Success(StartedText)];
      var i := 0;
      var done := false;
      while i < |ticks| && !done
        invariant 0 <= i <= |ticks|
        invariant fetchStatus == Latest(old(fetchStatus), ticks[..i]) && loading == old(loading)
        invariant !done ==> forall j :: 0 <= j < i ==> ticks[j].None? || ticks[j].value.isFetching
        invariant !done ==> stats == old(stats) && notices == [Success(StartedText)]
        invariant done ==> 0 < i && ticks[i - 1].Some? && !ticks[i - 1].value.isFetching
        invariant done ==> fetchStatus == ticks[i - 1] && FirstTerminal(ticks) == Some(i - 1)
        invariant done ==> stats == (if statsReply.Some? then statsReply else old(stats))
        invariant done ==>
          notices == [Success(StartedText)]
                     + (if ticks[i - 1].value.progress == 100 then [Success(ticks[i - 1].value.message)] else [])
                     + (if statsReply.Some? then [] else [Failure(StatsFailedText)])
        decreases |ticks| - i
      {
        assert ticks[..i + 1][..i] == ticks[..i];
        match ticks[i] {
          case None =>
          case Some(status) =>
            fetchStatus := Some(status);
            if !status.isFetching {
              done := true;
              var shown := if status.progress == 100 then [Success(status.message)] else [];
              var reloaded := LoadStats(statsReply);
              notices := notices + shown + reloaded;
            }
        }
        i := i + 1;
      }
      polled := i;
    }
  }
}
