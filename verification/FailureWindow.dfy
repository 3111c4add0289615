/** Connector health: the pruned failure window against the full failure history. */
module FailureWindow {

  /** What happens to one connector: a recorded failure (an enrichment, a stream or a health check that
      failed), a failed initialisation, a healthy check, or a check that is neither. */
  datatype Event = Failure(at: int) | InitFailed(at: int) | Healthy | Degraded

  /** The times of the failures since the last healthy check, oldest first. */
  function Times(history: seq<Event>): seq<int> {
    if history == [] then []
    else
      var before := Times(history[..|history| - 1]);
      match history[|history| - 1]
      case Failure(t) => before + [t]
      case InitFailed(t) => before + [t]
      case Healthy => []
      case Degraded => before
  }

  /** The times not older than `cutoff`. */
  function Since(times: seq<int>, cutoff: int): seq<int> {
    if times == [] then []
    else
      var last := times[|times| - 1];
      Since(times[..|times| - 1], cutoff) + if last >= cutoff then [last] else []
  }

  /** The clock never runs backwards. */
  predicate MonotoneHistory(history: seq<Event>) {
    forall i, j :: 0 <= i < j < |history| && Timed(history[i]) && Timed(history[j]) ==>
      history[i].at <= history[j].at
  }

  predicate Timed(e: Event) {
    e.Failure? || e.InitFailed?
  }

  /** Since the last healthy check an initialisation failed, or some failure saw `threshold` failures,
      itself included, in the window that ended with it: counted on the full history. */
  predicate Unhealthy(history: seq<Event>, window: int, threshold: int) {
    history != [] &&
    var before := history[..|history| - 1];
    match history[|history| - 1]
    case Failure(t) => |Since(Times(history), t - window)| >= threshold || Unhealthy(before, window, threshold)
    case InitFailed(_) => true
    case Healthy => false
    case Degraded => Unhealthy(before, window, threshold)
  }

  lemma {:induction false} SinceSplits(times: seq<int>, t: int, cutoff: int)
    ensures Since(times + [t], cutoff) == Since(times, cutoff) + if t >= cutoff then [t] else []
  {
    assert (times + [t])[..|times|] == times;
  }

  /** Pruning at an earlier cutoff first loses nothing that a later cutoff keeps. */
  lemma {:induction false} PruneTwice(times: seq<int>, early: int, late: int)
    requires early <= late
    ensures Since(Since(times, early), late) == Since(times, late)
  {
    if times != [] {
      var init, last := times[..|times| - 1], times[|times| - 1];
      PruneTwice(init, early, late);
      if last >= early {
        SinceSplits(Since(init, early), last, late);
      } else {
        assert Since(times, early) == Since(init, early);
      }
    }
  }

  lemma {:induction false} TimesComeFromHistory(history: seq<Event>, t: int)
    requires t in Times(history)
    ensures exists i :: 0 <= i < |history| && Timed(history[i]) && history[i].at == t
  {
    var n := |history| - 1;
    if t in Times(history[..n]) {
      TimesComeFromHistory(history[..n], t);
      var i :| 0 <= i < n && Timed(history[..n][i]) && history[..n][i].at == t;
      assert history[i] == history[..n][i];
    } else {
      assert Timed(history[n]) && history[n].at == t;
    }
  }

  /** The list cut to the window of its last failure. */
  function Window(history: seq<Event>, window: int): seq<int> {
    var times := Times(history);
    if times == [] then [] else Since(times, times[|times| - 1] - window)
  }

  lemma LastTimeFirst(history: seq<Event>, e: Event)
    requires Timed(e) && MonotoneHistory(history + [e]) && Times(history) != []
    ensures Times(history)[|Times(history)| - 1] <= e.at
  {
    var more, times := history + [e], Times(history);
    var earlier := times[|times| - 1];
    TimesComeFromHistory(history, earlier);
    var i :| 0 <= i < |history| && Timed(history[i]) && history[i].at == earlier;
    assert more[i] == history[i] && more[|history|] == e;
  }

  lemma TimesAppend(history: seq<Event>, e: Event)
    requires Timed(e)
    ensures Times(history + [e]) == Times(history) + [e.at]
  {
    assert (history + [e])[..|history|] == history;
  }

  lemma PruneAgain(times: seq<int>, early: int, now: int, late: int)
    requires early <= late
    ensures Since(Since(times, early) + [now], late) == Since(times + [now], late)
  {
    SinceSplits(Since(times, early), now, late);
    SinceSplits(times, now, late);
    PruneTwice(times, early, late);
  }

  /** Appending to the pruned list and pruning again equals pruning the full history. */
  lemma PrunedListSuffices(history: seq<Event>, e: Event, window: int)
    requires Timed(e) && MonotoneHistory(history + [e])
    ensures Times(history + [e]) == Times(history) + [e.at]
    ensures Since(Window(history, window) + [e.at], e.at - window) == Since(Times(history + [e]), e.at - window)
  {
    TimesAppend(history, e);
    var times := Times(history);
    if times != [] {
      LastTimeFirst(history, e);
      PruneAgain(times, times[|times| - 1] - window, e.at, e.at - window);
    }
  }

  /** Event `i` alone makes the connector unhealthy. */
  predicate Trips(history: seq<Event>, i: nat, window: int, threshold: int)
    requires i < |history|
  {
    match history[i]
    case InitFailed(_) => true
    case Failure(t) => |Since(Times(history[..i + 1]), t - window)| >= threshold
    case _ => false
  }

  ghost predicate TripsLast(history: seq<Event>, i: nat, window: int, threshold: int) {
    i < |history| && Trips(history, i, window, threshold) && Healthy !in history[i + 1..]
  }

  lemma TripsLastExtends(history: seq<Event>, e: Event, i: nat, window: int, threshold: int)
    requires i < |history|
    ensures TripsLast(history + [e], i, window, threshold) <==> TripsLast(history, i, window, threshold) && e != Healthy
  {
    var more := history + [e];
    assert more[..i + 1] == history[..i + 1];
    assert more[i + 1..] == history[i + 1..] + [e];
  }

  /** Unhealthy means: some event tripped and no healthy check came after it. */
  lemma {:induction false} UnhealthyIff(history: seq<Event>, window: int, threshold: int)
    ensures Unhealthy(history, window, threshold) <==> exists i :: TripsLast(history, i, window, threshold)
  {
    if history != [] {
      var n := |history| - 1;
      var init, e := history[..n], history[n];
      assert history == init + [e];
      UnhealthyIff(init, window, threshold);
      assert history[..n + 1] == history && history[n + 1..] == [];
      assert TripsLast(history, n, window, threshold) == Trips(history, n, window, threshold);
      forall i: nat | i < n
        ensures TripsLast(history, i, window, threshold) <==> TripsLast(init, i, window, threshold) && e != Healthy
      {
        TripsLastExtends(init, e, i, window, threshold);
      }
    }
  }

  lemma AfterEvent(history: seq<Event>, e: Event, window: int, threshold: int)
    ensures Unhealthy(history + [e], window, threshold) <==>
            || e.InitFailed?
            || (e.Failure? && |Since(Times(history + [e]), e.at - window)| >= threshold)
            || (e != Healthy && Unhealthy(history, window, threshold))
  {
    assert (history + [e])[..|history|] == history;
  }

  /** Per-connector state held by the orchestrator; `history` remembers everything that happened to it. */
  class ConnectorEntry {
    const window: int
    const threshold: int
    var failureTimestamps: seq<int>
    var unhealthy: bool
    ghost var history: seq<Event>

    /** The list is the full failure history since the last healthy check, cut to the window of its
        last failure. */
    ghost predicate WindowAgrees()
      reads this
    {
      MonotoneHistory(history) && failureTimestamps == Window(history, window)
    }

    ghost predicate Valid()
      reads this
    {
      WindowAgrees() && unhealthy == Unhealthy(history, window, threshold)
    }

    constructor (window: int, threshold: int)
      ensures Valid() && history == [] && this.window == window && this.threshold == threshold
    {
      this.window, this.threshold := window, threshold;
      failureTimestamps, unhealthy, history := [], false, [];
    }

    /** Appends the failure and prunes the list to the window that ends now. */
    method Record(now: int, ghost e: Event) returns (count: nat)
      requires WindowAgrees() && Timed(e) && e.at == now && MonotoneHistory(history + [e])
      modifies this`failureTimestamps, this`history
      ensures WindowAgrees() && history == old(history) + [e]
      ensures count == |Since(Times(history), now - window)|
    {
      PrunedListSuffices(history, e, window);
      failureTimestamps := Since(failureTimestamps + [now], now - window);
      history := history + [e];
      count := |failureTimestamps|;
    }

    method RecordFailure(now: int)
      requires Valid() && MonotoneHistory(history + [Failure(now)])
      modifies this
      ensures Valid() && history == old(history) + [Failure(now)]
    {
      AfterEvent(history, Failure(now), window, threshold);
      var count := Record(now, Failure(now));
      if count >= threshold && !unhealthy {
        unhealthy := true;
      }
    }

    method InitializeFailed(now: int)
      requires Valid() && MonotoneHistory(history + [InitFailed(now)])
      modifies this
      ensures Valid() && history == old(history) + [InitFailed(now)]
    {
      AfterEvent(history, InitFailed(now), window, threshold);
      unhealthy := true;
      var _ := Record(now, InitFailed(now));
    }

    /** A health check: unhealthy counts as a failure, healthy clears the window, degraded does neither. */
    method RunHealthCheck(e: Event)
      requires Valid() && !e.InitFailed? && MonotoneHistory(history + [e])
      modifies this
      ensures Valid() && history == old(history) + [e]
    {
      AfterEvent(history, e, window, threshold);
      assert (history + [e])[..|history|] == history;
      match e
      case Failure(now) => RecordFailure(now);
      case Healthy =>
        failureTimestamps := [];
        unhealthy := false;
        history := history + [e];
      case Degraded =>
        history := history + [e];
    }
  }
}
