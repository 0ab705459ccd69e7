/**
 * The shape both measurement scripts share: a run is a sequence of rounds,
 * each with its own parameter (a wait time, an image size), and every round
 * calls each target once, Azure then OpenFaaS. What a call appends is given
 * by a per-script `attempt` function of the target's platform, the round's
 * parameter and the call's outcome.
 */
module Sweep {
  import opened Wrappers
  import opened Probe
  import opened ResultSet

  /** What the calls of one round append, answered by `answers[t]` for target `t`. */
  function RoundAttempts<P, V, E>(attempt: (Platform, P, Outcome<V>) -> Option<E>, p: P,
                                  answers: seq<Outcome<V>>): (a: seq<Option<E>>)
    requires |answers| == |Targets|
    ensures |a| == |Targets|
  {
    seq(|Targets|, t requires 0 <= t < |Targets| => attempt(Targets[t].0, p, answers[t]))
  }

  /**
   * What every call of a run appends, round after round: round `i` is
   * answered by `outcomes[2 * i]` (Azure) and `outcomes[2 * i + 1]` (OpenFaaS).
   */
  function Attempts<P, V, E>(attempt: (Platform, P, Outcome<V>) -> Option<E>, params: seq<P>,
                             outcomes: seq<Outcome<V>>): (a: seq<Option<E>>)
    requires |outcomes| == 2 * |params|
    ensures |a| == |outcomes|
  {
    if params == [] then []
    else
      var n := |params| - 1;
      Attempts(attempt, params[..n], outcomes[..2 * n]) + RoundAttempts(attempt, params[n], outcomes[2 * n..])
  }

  /** Call `k` of a run is round `k / 2`'s call to `Targets[k % 2]`. */
  lemma {:induction false} AttemptAt<P, V, E>(attempt: (Platform, P, Outcome<V>) -> Option<E>, params: seq<P>,
                                              outcomes: seq<Outcome<V>>, k: nat)
    requires |outcomes| == 2 * |params| && k < |outcomes|
    ensures Attempts(attempt, params, outcomes)[k] == attempt(Targets[k % 2].0, params[k / 2], outcomes[k])
    decreases |params|
  {
    var n := |params| - 1;
    if k < 2 * n {
      AttemptAt(attempt, params[..n], outcomes[..2 * n], k);
    } else {
      assert k / 2 == n;
    }
  }

  /** The list after one more round is the list before it plus what that round keeps. */
  lemma KeptThroughRound<P, V, E>(attempt: (Platform, P, Outcome<V>) -> Option<E>, params: seq<P>,
                                  outcomes: seq<Outcome<V>>, p: P, answers: seq<Outcome<V>>)
    requires |outcomes| == 2 * |params| && |answers| == |Targets|
    ensures Kept(Attempts(attempt, params + [p], outcomes + answers))
         == Kept(Attempts(attempt, params, outcomes)) + Kept(RoundAttempts(attempt, p, answers))
  {
    var n := |params|;
    assert (params + [p])[..n] == params;
    assert (outcomes + answers)[..2 * n] == outcomes;
    assert (outcomes + answers)[2 * n..] == answers;
    KeptAppend(Attempts(attempt, params, outcomes), RoundAttempts(attempt, p, answers));
  }

  /**
   * The inner `for platform, url in ...` loop of a round with parameter `p`:
   * a GET of each target for `imageUrl`, appending to `results` what each
   * call yields.
   */
  method CallTargets<P, V, E>(attempt: (Platform, P, Outcome<V>) -> Option<E>, p: P, imageUrl: string,
                              answers: seq<Outcome<V>>, results0: seq<E>)
      returns (results: seq<E>, gets: seq<Effect>)
    requires |answers| == |Targets|
    ensures results == results0 + Kept(RoundAttempts(attempt, p, answers))
    ensures gets == Gets(imageUrl)
  {
    ghost var round := RoundAttempts(attempt, p, answers);
    results, gets := results0, [];
    for t := 0 to |Targets|
      invariant results == results0 + Kept(round[..t])
      invariant gets == Gets(imageUrl)[..t]
    {
      var target := Targets[t];
      gets := gets + [Get(target.1, imageUrl)];
      var entry := attempt(target.0, p, answers[t]);
      if entry.Some? {
        results := results + [entry.value];
      }
      assert round[..t + 1][..t] == round[..t];
    }
    assert round[..|Targets|] == round;
  }

  /** Call `k` appends something exactly when its outcome is one `succeeds` accepts. */
  lemma AttemptsSucceed<P, V, E>(attempt: (Platform, P, Outcome<V>) -> Option<E>, succeeds: Outcome<V> -> bool,
                                 params: seq<P>, outcomes: seq<Outcome<V>>)
    requires forall platform, p, o :: attempt(platform, p, o).Some? <==> succeeds(o)
    requires |outcomes| == 2 * |params|
    ensures forall k :: 0 <= k < |outcomes| ==>
      (Attempts(attempt, params, outcomes)[k].Some? <==> succeeds(outcomes[k]))
  {
    forall k | 0 <= k < |outcomes|
      ensures Attempts(attempt, params, outcomes)[k].Some? <==> succeeds(outcomes[k])
    {
      AttemptAt(attempt, params, outcomes, k);
    }
  }

  /**
   * At most two entries per round; two per round exactly when every call
   * succeeded, none exactly when every call failed.
   */
  lemma ResultCount<P, V, E>(attempt: (Platform, P, Outcome<V>) -> Option<E>, succeeds: Outcome<V> -> bool,
                             params: seq<P>, outcomes: seq<Outcome<V>>)
    requires forall platform, p, o :: attempt(platform, p, o).Some? <==> succeeds(o)
    requires |outcomes| == 2 * |params|
    ensures var results := Kept(Attempts(attempt, params, outcomes));
      && |results| <= |outcomes|
      && (|results| == |outcomes| <==> forall k :: 0 <= k < |outcomes| ==> succeeds(outcomes[k]))
      && (results == [] <==> forall k :: 0 <= k < |outcomes| ==> !succeeds(outcomes[k]))
  {
    var attempts := Attempts(attempt, params, outcomes);
    AttemptsSucceed(attempt, succeeds, params, outcomes);
    KeptAll(attempts);
    KeptNone(attempts);
  }

  /**
   * A call that fails among calls that succeed costs exactly its own entry:
   * the list is what the calls before it and after it produce, and the run
   * goes on with the next target and round.
   */
  lemma FailureIsolated<P, V, E>(attempt: (Platform, P, Outcome<V>) -> Option<E>, succeeds: Outcome<V> -> bool,
                                 params: seq<P>, outcomes: seq<Outcome<V>>, k: nat)
    requires forall platform, p, o :: attempt(platform, p, o).Some? <==> succeeds(o)
    requires |outcomes| == 2 * |params| && k < |outcomes| && !succeeds(outcomes[k])
    requires forall i :: 0 <= i < |outcomes| && i != k ==> succeeds(outcomes[i])
    ensures var attempts := Attempts(attempt, params, outcomes);
      && |Kept(attempts)| == |outcomes| - 1
      && Kept(attempts) == Kept(attempts[..k]) + Kept(attempts[k + 1..])
  {
    var attempts := Attempts(attempt, params, outcomes);
    AttemptsSucceed(attempt, succeeds, params, outcomes);
    KeptSkipsFailure(attempts, k);
    OneFailure(attempts, k);
  }

  /** Entry `j` of the list is what call `KeptIndices(..)[j]` appended. */
  lemma EntryOrigin<P, V, E>(attempt: (Platform, P, Outcome<V>) -> Option<E>, params: seq<P>,
                             outcomes: seq<Outcome<V>>, j: nat)
    requires |outcomes| == 2 * |params| && j < |Kept(Attempts(attempt, params, outcomes))|
    ensures var k := KeptIndices(Attempts(attempt, params, outcomes))[j];
      && k < |outcomes|
      && attempt(Targets[k % 2].0, params[k / 2], outcomes[k]) == Some(Kept(Attempts(attempt, params, outcomes))[j])
  {
    var attempts := Attempts(attempt, params, outcomes);
    AttemptAt(attempt, params, outcomes, KeptIndices(attempts)[j]);
  }
}
