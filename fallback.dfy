/** The endpoint resolver of the corrected student forms: the primary endpoint first,
    then a fixed ordered list of alternatives, one at a time; the first success wins, and
    when every attempt fails the primary endpoint's error is the one rethrown. */
module Fallback {
  import opened Http

  /** Index of the first resolved outcome at or after `from`, or `|outcomes|` if none. */
  function FirstResolved(outcomes: seq<Outcome>, from: nat): (k: nat)
    requires from <= |outcomes|
    ensures from <= k <= |outcomes|
    ensures k < |outcomes| ==> outcomes[k].Resolved?
    ensures forall j :: from <= j < k ==> outcomes[j].Rejected?
    decreases |outcomes| - from
  {
    if from == |outcomes| || outcomes[from].Resolved? then from else FirstResolved(outcomes, from + 1)
  }

  /** What a resolver run ends with, and how many requests it sent. */
  datatype Run = Run(result: Outcome, tries: nat)

  /** The resolver's result for the outcomes of the primary (`outcomes[0]`) and of each
      alternative in order. */
  function Resolution(outcomes: seq<Outcome>): Run
    requires |outcomes| >= 1
  {
    var k := FirstResolved(outcomes, 0);
    if k < |outcomes| then Run(outcomes[k], k + 1) else Run(outcomes[0], |outcomes|)
  }

  /** The same request body sent to each path in turn. */
  function Attempts(verb: Verb, paths: seq<string>, body: Body): (r: seq<Request>)
    ensures |r| == |paths|
  {
    seq(|paths|, i requires 0 <= i < |paths| => Request(verb, paths[i], body))
  }

  /** `FirstResolved` is the unique index with no success before it. */
  lemma {:induction false} FirstResolvedIs(outcomes: seq<Outcome>, from: nat, k: nat)
    requires from <= k <= |outcomes|
    requires k < |outcomes| ==> outcomes[k].Resolved?
    requires forall j :: from <= j < k ==> outcomes[j].Rejected?
    ensures FirstResolved(outcomes, from) == k
    decreases k - from
  {
    if from < k {
      FirstResolvedIs(outcomes, from + 1, k);
    }
  }

  /** The imperative resolver: a primary attempt, then a `for` loop over the
      alternatives with a `success` flag and `break`. */
  method Resolve(verb: Verb, paths: seq<string>, body: Body, outcomes: seq<Outcome>)
    returns (result: Outcome, sent: seq<Request>)
    requires |paths| >= 1 && |outcomes| == |paths|
    ensures Run(result, |sent|) == Resolution(outcomes)
    ensures |sent| <= |paths| && sent == Attempts(verb, paths, body)[..|sent|]
  {
    sent := [Request(verb, paths[0], body)];
    if outcomes[0].Resolved? {
      result := outcomes[0];
      FirstResolvedIs(outcomes, 0, 0);
      return;
    }
    var mainError := outcomes[0];
    result := mainError;
    var success := false;
    for i := 1 to |paths|
      invariant |sent| == i && sent == Attempts(verb, paths, body)[..i]
      invariant !success && result == mainError
      invariant forall j :: 0 <= j < i ==> outcomes[j].Rejected?
    {
      sent := sent + [Request(verb, paths[i], body)];
      if outcomes[i].Resolved? {
        result := outcomes[i];
        success := true;
        FirstResolvedIs(outcomes, 0, i);
        break;
      }
    }
    if !success {
      FirstResolvedIs(outcomes, 0, |outcomes|);
      result := mainError;
    }
  }

  /** One request at least is sent, and it goes to the primary endpoint. */
  lemma PrimaryTriedFirst(outcomes: seq<Outcome>)
    requires |outcomes| >= 1
    ensures 1 <= Resolution(outcomes).tries <= |outcomes|
  {
  }

  /** A successful primary request short-circuits: no alternative is tried. */
  lemma PrimarySuccessShortCircuits(outcomes: seq<Outcome>)
    requires |outcomes| >= 1 && outcomes[0].Resolved?
    ensures Resolution(outcomes) == Run(outcomes[0], 1)
  {
    FirstResolvedIs(outcomes, 0, 0);
  }

  /** The first success, in the listed order, is the result, and nothing after it is tried. */
  lemma FirstSuccessWins(outcomes: seq<Outcome>, k: nat)
    requires k < |outcomes| && outcomes[k].Resolved?
    requires forall j :: 0 <= j < k ==> outcomes[j].Rejected?
    ensures Resolution(outcomes) == Run(outcomes[k], k + 1)
  {
    FirstResolvedIs(outcomes, 0, k);
  }

  /** When every attempt fails, all are tried and the primary's error is rethrown,
      not the last alternative's. */
  lemma TotalFailureRethrowsPrimary(outcomes: seq<Outcome>)
    requires |outcomes| >= 1
    requires forall j :: 0 <= j < |outcomes| ==> outcomes[j].Rejected?
    ensures Resolution(outcomes) == Run(outcomes[0], |outcomes|)
  {
    FirstResolvedIs(outcomes, 0, |outcomes|);
  }

  /** The run succeeds exactly when some attempt does; a failed run reports the primary error. */
  lemma SucceedsIffSomeAttemptDoes(outcomes: seq<Outcome>)
    requires |outcomes| >= 1
    ensures Resolution(outcomes).result.Resolved? <==> exists k :: 0 <= k < |outcomes| && outcomes[k].Resolved?
    ensures Resolution(outcomes).result.Rejected? ==> Resolution(outcomes).result == outcomes[0]
  {
  }
}
