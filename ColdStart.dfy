/**
 * The cold-start probe: one ungated baseline round, then rounds separated by
 * sleeps that double from `initial_wait_time` while they stay within
 * `max_wait_time`. Every round calls Azure, then OpenFaaS; each call that
 * answers 200 with a body carrying all four durations appends one entry to
 * the result list, which is written out as a CSV table at the end.
 */
module ColdStart {
  import opened Wrappers
  import opened Probe
  import opened ResultSet
  import opened Sweep

  const InitialWaitTime: nat := 60
  const MaxWaitTime: nat := 1920
  /** The one image every call asks the handlers to process. */
  const ImageUrl: string := "https://picsum.photos/400/500"

  const Fieldnames: seq<string> :=
    ["platform", "wait_time", "elapsed_time", "total_duration", "network_duration", "cpu_duration", "ml_duration"]

  /** The waits of the backoff loop `while waitTime <= maxWaitTime: ...; waitTime *= 2`. */
  function WaitTimes(waitTime: nat, maxWaitTime: nat): (s: seq<nat>)
    requires 0 < waitTime
    ensures s == [] <==> waitTime > maxWaitTime
    decreases maxWaitTime - waitTime
  {
    if waitTime <= maxWaitTime then [waitTime] + WaitTimes(2 * waitTime, maxWaitTime) else []
  }

  /**
   * The backoff waits start at `waitTime`, each is twice the one before, all
   * stay within the ceiling, they ascend strictly, and the loop stops at the
   * first doubled value above the ceiling.
   */
  lemma {:induction false} WaitTimesDoubling(waitTime: nat, maxWaitTime: nat)
    requires 0 < waitTime
    ensures var s := WaitTimes(waitTime, maxWaitTime);
      && (s != [] ==> s[0] == waitTime)
      && (forall i, j :: 0 <= i && j == i + 1 < |s| ==> s[j] == 2 * s[i])
      && (forall i :: 0 <= i < |s| ==> waitTime <= s[i] <= maxWaitTime)
      && (if s == [] then waitTime else 2 * s[|s| - 1]) > maxWaitTime
      && (forall i, j :: 0 <= i < j < |s| ==> s[i] < s[j])
    decreases maxWaitTime - waitTime
  {
    if waitTime <= maxWaitTime {
      WaitTimesDoubling(2 * waitTime, maxWaitTime);
    }
  }

  /** The `wait_time` of every round: 0 for the baseline round, then the backoff waits. */
  function Rounds(initialWait: nat, maxWait: nat): (r: seq<nat>)
    requires 0 < initialWait
  {
    [0] + WaitTimes(initialWait, maxWait)
  }

  /** With the script's constants the loop sleeps 1, 2, 4, 8, 16 and 32 minutes: seven rounds in all. */
  lemma DefaultSchedule()
    ensures WaitTimes(InitialWaitTime, MaxWaitTime) == [60, 120, 240, 480, 960, 1920]
    ensures |Rounds(InitialWaitTime, MaxWaitTime)| == 7
  {
  }

  datatype Entry<V> = Entry(
    platform: Platform,
    waitTime: nat,
    elapsedTime: real,
    totalDuration: V,
    networkDuration: V,
    cpuDuration: V,
    mlDuration: V)

  /** A call appends an entry: status 200, and a JSON object that has every duration key. */
  predicate Succeeds<V>(o: Outcome<V>) {
    && o.Response?
    && o.status == 200
    && o.body.Object?
    && {"overall_duration", "network_duration", "cpu_duration", "ml_duration"} <= o.body.fields.Keys
  }

  /**
   * The body of the `try` around one call: the entry it appends, or `None`
   * when the call raised, answered another status, or `response.json()` or
   * one of the `result[...]` lookups raised.
   */
  function Attempt<V>(platform: Platform, waitTime: nat, o: Outcome<V>): (r: Option<Entry<V>>)
    ensures r.Some? <==> Succeeds(o)
    ensures r.Some? ==>
      && r.value.platform == platform
      && r.value.waitTime == waitTime
      && r.value.elapsedTime == o.elapsed
      && r.value.totalDuration == o.body.fields["overall_duration"]
      && r.value.networkDuration == o.body.fields["network_duration"]
      && r.value.cpuDuration == o.body.fields["cpu_duration"]
      && r.value.mlDuration == o.body.fields["ml_duration"]
  {
    match o
    case Raised => None
    case Response(status, elapsed, body) =>
      if status != 200 then None
      else
        match body
        case NotObject => None
        case Object(result) =>
          if "overall_duration" in result && "network_duration" in result
             && "cpu_duration" in result && "ml_duration" in result
          then
            Some(Entry(platform, waitTime, elapsed, result["overall_duration"], result["network_duration"],
                       result["cpu_duration"], result["ml_duration"]))
          else None
  }

  /**
   * The calls and sleeps a run makes for the backoff waits `waits`: the
   * baseline round's two GETs, then per wait a sleep and two GETs. No
   * outcome appears here: whatever a call yields, the later ones still happen.
   */
  function Trace(waits: seq<nat>): (t: seq<Effect>)
    ensures |t| == 2 + 3 * |waits|
  {
    if waits == [] then Gets(ImageUrl)
    else
      var n := |waits| - 1;
      Trace(waits[..n]) + [Sleep(waits[n])] + Gets(ImageUrl)
  }

  /**
   * Position by position: every third effect is the sleep before a round,
   * with the round's wait; the rest are the GETs of Azure, then OpenFaaS.
   */
  lemma {:induction false} TraceShape(waits: seq<nat>)
    ensures var t := Trace(waits);
      && |t| == 2 + 3 * |waits|
      && forall k :: 0 <= k < |t| ==>
           t[k] == if k % 3 == 2 then Sleep(waits[k / 3]) else Get(Targets[k % 3].1, ImageUrl)
    decreases |waits|
  {
    if waits != [] {
      var n := |waits| - 1;
      TraceShape(waits[..n]);
    }
  }

  /** One data row: a cell per column of `Fieldnames`, `wait_time` as a whole number. */
  function RowOf<V>(e: Entry<V>): (row: seq<Cell<V>>)
    ensures |row| == |Fieldnames|
  {
    [Text(Name(e.platform)), Whole(e.waitTime), Real(e.elapsedTime), Json(e.totalDuration),
     Json(e.networkDuration), Json(e.cpuDuration), Json(e.mlDuration)]
  }

  /** Reads one data row back into the entry it was written from. */
  function ParseRow<V>(row: seq<Cell<V>>): (r: Option<Entry<V>>)
    ensures r.Some? ==> RowOf(r.value) == row
  {
    if && |row| == 7
       && row[0].Text? && PlatformNamed(row[0].text).Some?
       && row[1].Whole? && row[1].number >= 0
       && row[2].Real?
       && row[3].Json? && row[4].Json? && row[5].Json? && row[6].Json?
    then
      Some(Entry(PlatformNamed(row[0].text).value, row[1].number, row[2].x,
                 row[3].value, row[4].value, row[5].value, row[6].value))
    else None
  }

  /** Writing an entry as a row and reading the row back gives the entry. */
  lemma RowRoundTrip<V>(e: Entry<V>)
    ensures ParseRow(RowOf(e)) == Some(e)
  {
  }

  /** The written file holds exactly the result list, field for field and in order. */
  // This script's instance of `ResultSet.TableRoundTrip`, for its own fieldnames and row layout.
  lemma TableRoundTrip<V>(results: seq<Entry<V>>)
    ensures ReadTable(Fieldnames, ParseRow, WriteTable(Fieldnames, RowOf, results)) == Some(results)
  {
    forall e: Entry<V> ensures ParseRow(RowOf(e)) == Some(e) {
      RowRoundTrip(e);
    }
    ResultSet.TableRoundTrip(Fieldnames, RowOf, ParseRow, results);
  }

  /** One more pass of the backoff loop adds its sleep and its round's two GETs. */
  lemma TraceStep(done: seq<nat>, waitTime: nat)
    ensures Trace(done + [waitTime]) == Trace(done) + [Sleep(waitTime)] + Gets(ImageUrl)
  {
  }

  /**
   * With the script's constants the run makes 14 calls: at most 14 entries,
   * 14 exactly when every call succeeds, and none, leaving a table with the
   * header only, exactly when every call fails.
   */
  lemma DefaultResultCount<V>(outcomes: seq<Outcome<V>>)
    requires |outcomes| == 14
    ensures |outcomes| == 2 * |Rounds(InitialWaitTime, MaxWaitTime)|
    ensures var results := Kept(Attempts(Attempt, Rounds(InitialWaitTime, MaxWaitTime), outcomes));
      && |results| <= 14
      && (|results| == 14 <==> forall k :: 0 <= k < 14 ==> Succeeds(outcomes[k]))
      && (results == [] <==> forall k :: 0 <= k < 14 ==> !Succeeds(outcomes[k]))
      && (results == [] ==> WriteTable(Fieldnames, RowOf, results).rows == [])
  {
    DefaultSchedule();
    Sweep.ResultCount(Attempt, Succeeds, Rounds(InitialWaitTime, MaxWaitTime), outcomes);
  }

  /** The backoff waits, with the baseline's 0 in front, ascend strictly. */
  lemma RoundsAscending(initialWait: nat, maxWait: nat)
    requires 0 < initialWait
    ensures var rounds := Rounds(initialWait, maxWait);
      forall a, b :: 0 <= a < b < |rounds| ==> rounds[a] < rounds[b]
  {
    var rounds := Rounds(initialWait, maxWait);
    var schedule := WaitTimes(initialWait, maxWait);
    WaitTimesDoubling(initialWait, maxWait);
    forall a, b | 0 <= a < b < |rounds| ensures rounds[a] < rounds[b] {
      assert rounds[b] == schedule[b - 1];
      if a > 0 {
        assert rounds[a] == schedule[a - 1];
      }
    }
  }

  /** Entry `j` of the list came from call `KeptIndices(..)[j]`: its round's wait, its target's platform. */
  lemma EntryOrigin<V>(rounds: seq<nat>, outcomes: seq<Outcome<V>>, j: nat)
    requires |outcomes| == 2 * |rounds| && j < |Kept(Attempts(Attempt, rounds, outcomes))|
    ensures var k := KeptIndices(Attempts(Attempt, rounds, outcomes))[j];
      var e := Kept(Attempts(Attempt, rounds, outcomes))[j];
      && k < |outcomes|
      && e.waitTime == rounds[k / 2]
      && e.platform == Targets[k % 2].0
  {
    Sweep.EntryOrigin(Attempt, rounds, outcomes, j);
  }

  /** Two entries of the list, in list order, are in (round, platform) order. */
  lemma EntriesInOrder<V>(rounds: seq<nat>, outcomes: seq<Outcome<V>>, i: nat, j: nat)
    requires |outcomes| == 2 * |rounds|
    requires forall a, b :: 0 <= a < b < |rounds| ==> rounds[a] < rounds[b]
    requires i < j < |Kept(Attempts(Attempt, rounds, outcomes))|
    ensures var results := Kept(Attempts(Attempt, rounds, outcomes));
      || results[i].waitTime < results[j].waitTime
      || (results[i].waitTime == results[j].waitTime && results[i].platform == Azure
          && results[j].platform == OpenFaaS)
  {
    var idx := KeptIndices(Attempts(Attempt, rounds, outcomes));
    EntryOrigin(rounds, outcomes, i);
    EntryOrigin(rounds, outcomes, j);
    assert idx[i] < idx[j];
    if idx[i] / 2 == idx[j] / 2 {
      assert idx[i] % 2 == 0 && idx[j] % 2 == 1;
    }
  }

  /**
   * The list is ordered by round and, within a round, Azure before
   * OpenFaaS; every entry carries the wait of its own round.
   */
  lemma ResultsOrdered<V>(initialWait: nat, maxWait: nat, outcomes: seq<Outcome<V>>)
    requires 0 < initialWait && |outcomes| == 2 * |Rounds(initialWait, maxWait)|
    ensures var results := Kept(Attempts(Attempt, Rounds(initialWait, maxWait), outcomes));
      && (forall j :: 0 <= j < |results| ==> results[j].waitTime in Rounds(initialWait, maxWait))
      && forall i, j :: 0 <= i < j < |results| ==>
           || results[i].waitTime < results[j].waitTime
           || (results[i].waitTime == results[j].waitTime && results[i].platform == Azure && results[j].platform == OpenFaaS)
  {
    var rounds := Rounds(initialWait, maxWait);
    var results := Kept(Attempts(Attempt, rounds, outcomes));
    forall j | 0 <= j < |results| ensures results[j].waitTime in rounds {
      EntryOrigin(rounds, outcomes, j);
    }
    RoundsAscending(initialWait, maxWait);
    forall i, j | 0 <= i < j < |results|
      ensures || results[i].waitTime < results[j].waitTime
              || (results[i].waitTime == results[j].waitTime && results[i].platform == Azure
                  && results[j].platform == OpenFaaS)
    {
      EntriesInOrder(rounds, outcomes, i, j);
    }
  }

  /**
   * The short scenario: starting at 60 with a ceiling of 180, the loop runs
   * for 60 and 120; with every call succeeding that is six entries, two
   * baseline entries tagged 0, then two per wait, Azure first.
   */
  lemma ShortScenario<V>(outcomes: seq<Outcome<V>>)
    requires |outcomes| == 6 && forall k :: 0 <= k < 6 ==> Succeeds(outcomes[k])
    ensures WaitTimes(60, 180) == [60, 120] && |Rounds(60, 180)| == 3
    ensures var results := Kept(Attempts(Attempt, Rounds(60, 180), outcomes));
      && |results| == 6
      && (forall j :: 0 <= j < 6 ==> results[j].waitTime == [0, 0, 60, 60, 120, 120][j])
      && (forall j :: 0 <= j < 6 ==> results[j].platform == if j % 2 == 0 then Azure else OpenFaaS)
  {
    var rounds := Rounds(60, 180);
    assert rounds == [0, 60, 120];
    var attempts := Attempts(Attempt, rounds, outcomes);
    AttemptsSucceed(Attempt, Succeeds, rounds, outcomes);
    KeptAllSucceeded(attempts);
    forall j | 0 <= j < 6
      ensures Kept(attempts)[j].waitTime == [0, 0, 60, 60, 120, 120][j]
      ensures Kept(attempts)[j].platform == if j % 2 == 0 then Azure else OpenFaaS
    {
      AttemptAt(Attempt, rounds, outcomes, j);
    }
  }

  /** The baseline round: no sleep, both calls, every entry tagged with wait time 0. */
  method BaselineRound<V>(outcomes: seq<Outcome<V>>) returns (results: seq<Entry<V>>, trace: seq<Effect>)
    requires 2 <= |outcomes|
    ensures results == Kept(Attempts(Attempt, [0], outcomes[..2]))
    ensures trace == Trace([])
  {
    results, trace := CallTargets(Attempt, 0, ImageUrl, outcomes[..2], []);
    KeptThroughRound(Attempt, [], [], 0, outcomes[..2]);
  }

  /**
   * One iteration of the backoff loop: sleep for `waitTime`, then one call per
   * target, answered by `outcomes[k]` and `outcomes[k + 1]`, extending the
   * list and the trace that the baseline and the waits `done` left.
   */
  method BackoffRound<V>(ghost done: seq<nat>, outcomes: seq<Outcome<V>>, k: nat, waitTime: nat,
                         results0: seq<Entry<V>>, trace0: seq<Effect>)
      returns (results: seq<Entry<V>>, trace: seq<Effect>)
    requires k == 2 * (|done| + 1) && k + 2 <= |outcomes|
    requires results0 == Kept(Attempts(Attempt, [0] + done, outcomes[..k]))
    requires trace0 == Trace(done)
    ensures results == Kept(Attempts(Attempt, [0] + (done + [waitTime]), outcomes[..k + 2]))
    ensures trace == Trace(done + [waitTime])
  {
    var gets;
    results, gets := CallTargets(Attempt, waitTime, ImageUrl, outcomes[k..k + 2], results0);
    KeptThroughRound(Attempt, [0] + done, outcomes[..k], waitTime, outcomes[k..k + 2]);
    assert outcomes[..k] + outcomes[k..k + 2] == outcomes[..k + 2];
    assert [0] + done + [waitTime] == [0] + (done + [waitTime]);
    TraceStep(done, waitTime);
    trace := trace0 + [Sleep(waitTime)] + gets;
  }

  /**
   * The backoff loop `while waitTime <= maxWaitTime`, run after the baseline
   * round: it extends the list and the trace by one round per wait.
   */
  method BackoffLoop<V>(initialWait: nat, maxWait: nat, outcomes: seq<Outcome<V>>,
                        results0: seq<Entry<V>>, trace0: seq<Effect>)
      returns (results: seq<Entry<V>>, trace: seq<Effect>)
    requires 0 < initialWait
    requires |outcomes| == 2 * |Rounds(initialWait, maxWait)|
    requires results0 == Kept(Attempts(Attempt, [0], outcomes[..2]))
    requires trace0 == Trace([])
    ensures trace == Trace(WaitTimes(initialWait, maxWait))
    ensures results == Kept(Attempts(Attempt, Rounds(initialWait, maxWait), outcomes))
  {
    ghost var schedule := WaitTimes(initialWait, maxWait);
    results, trace := results0, trace0;
    var k := 2;
    var waitTime := initialWait;
    ghost var done: seq<nat> := [];
    ghost var rest := schedule;
    assert [0] + done == [0];
    while waitTime <= maxWait
      invariant 0 < waitTime && rest == WaitTimes(waitTime, maxWait)
      invariant done + rest == schedule
      invariant k == 2 * (|done| + 1)
      invariant results == Kept(Attempts(Attempt, [0] + done, outcomes[..k]))
      invariant trace == Trace(done)
      decreases maxWait - waitTime
    {
      assert rest == [waitTime] + rest[1..];
      assert (done + [waitTime]) + rest[1..] == schedule;
      results, trace := BackoffRound(done, outcomes, k, waitTime, results, trace);
      k := k + 2;
      done := done + [waitTime];
      rest := rest[1..];
      waitTime := waitTime * 2;
    }
    assert done == schedule;
    assert outcomes[..k] == outcomes;
  }

  /**
   * The whole script, with `outcomes[k]` standing for what the k-th GET
   * returns. Returns the result list, the sleeps and GETs in the order they
   * happen, and the table written at the end.
   */
  method MeasureColdStart<V>(initialWait: nat, maxWait: nat, outcomes: seq<Outcome<V>>)
      returns (results: seq<Entry<V>>, trace: seq<Effect>, table: Table<V>)
    requires 0 < initialWait
    requires |outcomes| == 2 * |Rounds(initialWait, maxWait)|
    ensures trace == Trace(WaitTimes(initialWait, maxWait))
    ensures results == Kept(Attempts(Attempt, Rounds(initialWait, maxWait), outcomes))
    ensures table == WriteTable(Fieldnames, RowOf, results)
  {
    results, trace := BaselineRound(outcomes);
    results, trace := BackoffLoop(initialWait, maxWait, outcomes, results, trace);
    table := WriteTable(Fieldnames, RowOf, results);
  }
}
