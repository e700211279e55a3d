/**
 * Effect traces. An operation on the outside world (a container run, a file
 * system change, a host command) is recorded as an event with its outcome,
 * which the model does not decide. A run of a command is compared with its
 * plan: the operations it would perform if every one of them succeeded.
 */
module Traces {

  /** An attempted operation and whether it succeeded. */
  datatype Event<O> = Event(op: O, ok: bool)

  /** The trace of a run in which every planned operation succeeds. */
  function AllOk<O>(ops: seq<O>): (t: seq<Event<O>>)
    ensures |t| == |ops|
    ensures forall k :: 0 <= k < |t| ==> t[k] == Event(ops[k], true)
  {
    seq(|ops|, k requires 0 <= k < |ops| => Event(ops[k], true))
  }

  /** The trace follows the plan: each event is the planned operation at its
      position, and only the last one may have failed. */
  ghost predicate Follows<O>(t: seq<Event<O>>, plan: seq<O>)
  {
    && |t| <= |plan|
    && (forall k :: 0 <= k < |t| ==> t[k].op == plan[k])
    && (forall k :: 0 <= k < |t| - 1 ==> t[k].ok)
  }

  lemma AllOkStep<O>(plan: seq<O>, n: nat)
    requires n < |plan|
    ensures AllOk(plan[..n]) + [Event(plan[n], true)] == AllOk(plan[..n + 1])
  {
  }

  lemma PrefixFollows<O>(plan: seq<O>, n: nat)
    requires n <= |plan|
    ensures Follows(AllOk(plan[..n]), plan)
  {
  }

  /** A run that stops at a failed operation follows the plan and is not the
      complete run. */
  lemma FailureFollows<O>(plan: seq<O>, n: nat)
    requires n < |plan|
    ensures Follows(AllOk(plan[..n]) + [Event(plan[n], false)], plan)
    ensures AllOk(plan[..n]) + [Event(plan[n], false)] != AllOk(plan)
  {
    var t := AllOk(plan[..n]) + [Event(plan[n], false)];
    assert !t[n].ok && AllOk(plan)[n].ok;
  }

  /** A completed plan followed by a trace that follows the next plan. */
  lemma FollowsAppend<O>(a: seq<Event<O>>, p: seq<O>, b: seq<Event<O>>, q: seq<O>)
    requires a == AllOk(p) && Follows(b, q)
    ensures Follows(a + b, p + q)
    ensures a + b == AllOk(p + q) <==> b == AllOk(q)
  {
    if a + b == AllOk(p + q) {
      assert b == (a + b)[|a|..];
    }
  }

  /** A trace that stopped early stays stopped early when the plan goes on. */
  lemma FollowsExtend<O>(b: seq<Event<O>>, q: seq<O>, r: seq<O>)
    requires Follows(b, q) && b != AllOk(q)
    ensures Follows(b, q + r) && b != AllOk(q + r)
  {
    if |r| == 0 {
      assert q + r == q;
    }
  }

  /** A run that stops after completing `q`, without attempting the rest. */
  lemma AbortAfter<O>(q: seq<O>, r: seq<O>)
    requires |r| > 0
    ensures Follows(AllOk(q), q + r) && AllOk(q) != AllOk(q + r)
  {
  }

  /** What a command attempts when every operation succeeds, and whether it
      then succeeds: a command that gives up on a condition it checks itself
      (no effect involved) has a plan that ends there and does not succeed. */
  datatype Plan<O> = Plan(ops: seq<O>, succeeds: bool)

  /** `p`, then `q` if `p` succeeds. */
  function Then<O>(p: Plan<O>, q: Plan<O>): (r: Plan<O>)
    ensures p.succeeds ==> r.ops == p.ops + q.ops && r.succeeds == q.succeeds
    ensures !p.succeeds ==> r == p
  {
    if p.succeeds then Plan(p.ops + q.ops, q.succeeds) else p
  }

  /** A run of plan `p` whose result is a success exactly when `ok`: it
      follows the plan, and it succeeds iff it completed the plan and the
      plan succeeds. */
  ghost predicate Outcome<O>(t: seq<Event<O>>, p: Plan<O>, ok: bool)
  {
    Follows(t, p.ops) && (ok <==> t == AllOk(p.ops) && p.succeeds)
  }

  /** A run that failed during `p` is a failed run of `p` then `q`. */
  lemma ThenFailed<O>(a: seq<Event<O>>, p: Plan<O>, q: Plan<O>)
    requires Outcome(a, p, false)
    ensures Outcome(a, Then(p, q), false)
  {
    if p.succeeds {
      FollowsExtend(a, p.ops, q.ops);
    }
  }

  /** A successful run of `p` followed by a run of `q` is a run of `p` then
      `q`, with the outcome of the second run. */
  lemma ThenRan<O>(a: seq<Event<O>>, p: Plan<O>, b: seq<Event<O>>, q: Plan<O>, ok: bool)
    requires Outcome(a, p, true) && Outcome(b, q, ok)
    ensures Outcome(a + b, Then(p, q), ok)
  {
    FollowsAppend(a, p.ops, b, q.ops);
  }

  /** The run of a plan that has only its effects. */
  lemma EffectsOnly<O>(ops: seq<O>, t: seq<Event<O>>, ok: bool)
    requires Follows(t, ops) && (ok <==> t == AllOk(ops))
    ensures Outcome(t, Plan(ops, true), ok)
  {
  }

  /** A run that completed `ops` and then gave up on its own check. */
  lemma GaveUp<O>(ops: seq<O>)
    ensures Outcome(AllOk(ops), Plan(ops, false), false)
  {
    PrefixFollows(ops, |ops|);
    assert ops[..|ops|] == ops;
  }

  /** A run that completed its whole plan. */
  lemma Finished<O>(ops: seq<O>)
    ensures Outcome(AllOk(ops), Plan(ops, true), true)
  {
    PrefixFollows(ops, |ops|);
    assert ops[..|ops|] == ops;
  }

  /** Every event before the last one of a run that follows its plan
      succeeded: the run up to any position is the complete run of the plan
      up to there. */
  lemma FollowsPrefixOk<O>(t: seq<Event<O>>, ops: seq<O>, k: nat)
    requires Follows(t, ops) && k < |t|
    ensures t[..k] == AllOk(ops[..k])
  {
  }

  /** The position in the plan at which a run stopped: the failed
      operation, or, when every attempted operation succeeded, the one after
      the last (where a plan that gives up gives up). */
  function StopAt<O>(t: seq<Event<O>>): (n: nat)
    ensures n <= |t|
  {
    if |t| > 0 && !t[|t| - 1].ok then |t| - 1 else |t|
  }

  /** A failed run stopped inside its plan, or at its end when the plan
      gives up there. */
  lemma FailedStop<O>(t: seq<Event<O>>, p: Plan<O>)
    requires Outcome(t, p, false)
    ensures StopAt(t) < |p.ops| || (StopAt(t) == |p.ops| && !p.succeeds)
  {
    if StopAt(t) == |t| {
      assert forall k :: 0 <= k < |t| ==> t[k].ok;
      if |t| == |p.ops| {
        assert p.ops[..|t|] == p.ops;
        assert t == AllOk(p.ops);
      }
    }
  }

  /** After a complete run of `p`, a run stops where its continuation
      stops, shifted by the length of `p`. */
  /** A run that failed inside `p` fails `Then(p, q)` too, and stops within `p`. */
  lemma ThenStopped<O>(a: seq<Event<O>>, p: Plan<O>, q: Plan<O>)
    requires Outcome(a, p, false)
    ensures Outcome(a, Then(p, q), false)
    ensures StopAt(a) < |p.ops| || (StopAt(a) == |p.ops| && !p.succeeds)
  {
    ThenFailed(a, p, q);
    FailedStop(a, p);
  }

  lemma StopAfter<O>(a: seq<Event<O>>, p: Plan<O>, b: seq<Event<O>>)
    requires Outcome(a, p, true)
    ensures StopAt(a + b) == |p.ops| + StopAt(b)
  {
    if b == [] {
      assert a + b == a;
      if |a| > 0 {
        assert a[|a| - 1] == AllOk(p.ops)[|a| - 1];
      }
    } else {
      assert (a + b)[|a + b| - 1] == b[|b| - 1];
    }
  }

  /** Attempts the next operation of a run that has completed its plan so
      far; `done` and `plan` only serve the proof. */
  method Perform<O>(ghost done: seq<Event<O>>, ghost plan: seq<O>, op: O) returns (ok: bool)
    requires |done| < |plan| && done == AllOk(plan[..|done|]) && plan[|done|] == op
    ensures ok ==> done + [Event(op, true)] == AllOk(plan[..|done| + 1])
    ensures !ok ==> Follows(done + [Event(op, false)], plan) && done + [Event(op, false)] != AllOk(plan)
  {
    ok := Attempt();
    if ok {
      AllOkStep(plan, |done|);
    } else {
      FailureFollows(plan, |done|);
    }
  }

  /** One attempt of an operation whose outcome the model does not decide. */
  method Attempt() returns (ok: bool)
  {
    ok := *;
  }
}
