/**
 * The command runner the pipeline drives (exec.go): a recording fake that
 * appends every invocation to a trace and asks an oracle whether it fails.
 */
module Exec {
  import opened Wrappers

  /** One invocation: the program, its arguments, and what is piped to its
      standard input (None for `Run`, Some for `RunWithPipedInput`). */
  datatype Call = Call(name: string, args: seq<string>, input: Option<string>)

  /** Decides whether the call issued at a given position of the trace fails. */
  type Oracle = (nat, Call) -> bool

  class Runner {
    var trace: seq<Call>
    const fails: Oracle

    constructor (fails: Oracle)
      ensures trace == [] && this.fails == fails
    {
      trace := [];
      this.fails := fails;
    }

    /** Runs `name` with `args`; `ok` is false when the process reports an error. */
    method Run(name: string, args: seq<string>) returns (ok: bool)
      modifies this
      ensures trace == old(trace) + [Call(name, args, None)]
      ensures ok == !fails(|old(trace)|, Call(name, args, None))
    {
      var call := Call(name, args, None);
      ok := !fails(|trace|, call);
      trace := trace + [call];
    }

    /** Runs `name` with `args`, writing `input` to its standard input first. */
    method RunWithPipedInput(input: string, name: string, args: seq<string>) returns (ok: bool)
      modifies this
      ensures trace == old(trace) + [Call(name, args, Some(input))]
      ensures ok == !fails(|old(trace)|, Call(name, args, Some(input)))
    {
      var call := Call(name, args, Some(input));
      ok := !fails(|trace|, call);
      trace := trace + [call];
    }
  }

  /** The trace after a sequence of calls, and whether every call succeeded. */
  datatype Execution = Execution(trace: seq<Call>, ok: bool)

  /**
   * Issues `calls` in order after `trace`, stopping right after the first call
   * that fails: the fail-fast discipline every stage of the pipeline follows.
   */
  function RunInOrder(fails: Oracle, trace: seq<Call>, calls: seq<Call>): Execution
    decreases |calls|
  {
    if |calls| == 0 then Execution(trace, true)
    else
      var next := trace + [calls[0]];
      if fails(|trace|, calls[0]) then Execution(next, false)
      else RunInOrder(fails, next, calls[1..])
  }

  /**
   * A run only appends: what it issues is a prefix of `calls`, all of them when
   * it succeeds, and when it fails the last call issued is one that failed.
   */
  lemma {:induction false} RunInOrderIssuesPrefix(fails: Oracle, trace: seq<Call>, calls: seq<Call>)
    ensures var e := RunInOrder(fails, trace, calls);
            && |trace| <= |e.trace| <= |trace| + |calls|
            && e.trace == trace + calls[..|e.trace| - |trace|]
            && (e.ok ==> |e.trace| == |trace| + |calls|)
            && (!e.ok ==> |trace| < |e.trace| && fails(|e.trace| - 1, e.trace[|e.trace| - 1]))
    decreases |calls|
  {
    if calls != [] && !fails(|trace|, calls[0]) {
      var next := trace + [calls[0]];
      RunInOrderIssuesPrefix(fails, next, calls[1..]);
      var rest := RunInOrder(fails, next, calls[1..]);
      assert calls[..|rest.trace| - |trace|] == [calls[0]] + calls[1..][..|rest.trace| - |next|];
    }
  }

  /** The run succeeds exactly when no call of the sequence fails. */
  lemma {:induction false} RunInOrderOk(fails: Oracle, trace: seq<Call>, calls: seq<Call>)
    ensures RunInOrder(fails, trace, calls).ok <==>
            forall j :: 0 <= j < |calls| ==> !fails(|trace| + j, calls[j])
    decreases |calls|
  {
    if calls != [] && !fails(|trace|, calls[0]) {
      RunInOrderOk(fails, trace + [calls[0]], calls[1..]);
      if RunInOrder(fails, trace, calls).ok {
        forall j | 0 <= j < |calls| ensures !fails(|trace| + j, calls[j]) {
          if j > 0 { assert calls[j] == calls[1..][j - 1]; }
        }
      } else {
        var j :| 0 <= j < |calls[1..]| && fails(|trace| + 1 + j, calls[1..][j]);
        assert fails(|trace| + (j + 1), calls[j + 1]);
      }
    }
  }

  /**
   * When call `k` is the first that fails, exactly the calls up to and
   * including it are issued, and nothing after it.
   */
  lemma {:induction false} RunInOrderStopsAtFirstFailure(fails: Oracle, trace: seq<Call>, calls: seq<Call>, k: nat)
    requires k < |calls|
    requires forall j :: 0 <= j < k ==> !fails(|trace| + j, calls[j])
    requires fails(|trace| + k, calls[k])
    ensures RunInOrder(fails, trace, calls) == Execution(trace + calls[..k + 1], false)
    decreases k
  {
    if k > 0 {
      assert !fails(|trace| + 0, calls[0]);
      forall j | 0 <= j < k - 1 ensures !fails(|trace + [calls[0]]| + j, calls[1..][j]) {
        assert !fails(|trace| + (j + 1), calls[j + 1]);
      }
      RunInOrderStopsAtFirstFailure(fails, trace + [calls[0]], calls[1..], k - 1);
      assert (trace + [calls[0]]) + calls[1..][..k] == trace + calls[..k + 1];
    }
  }

  /** When no call fails, all of them are issued and the run succeeds. */
  lemma RunInOrderAllSucceed(fails: Oracle, trace: seq<Call>, calls: seq<Call>)
    requires forall j :: 0 <= j < |calls| ==> !fails(|trace| + j, calls[j])
    ensures RunInOrder(fails, trace, calls) == Execution(trace + calls, true)
  {
    RunInOrderOk(fails, trace, calls);
    RunInOrderIssuesPrefix(fails, trace, calls);
    assert calls[..|calls|] == calls;
  }

  /** Issuing `a + b` is issuing `a`, then `b` only if every call of `a` succeeded. */
  lemma {:induction false} RunInOrderAppend(fails: Oracle, trace: seq<Call>, a: seq<Call>, b: seq<Call>)
    ensures RunInOrder(fails, trace, a + b) ==
            (var first := RunInOrder(fails, trace, a);
             if first.ok then RunInOrder(fails, first.trace, b) else first)
    decreases |a|
  {
    if a == [] {
      assert a + b == b;
    } else {
      assert (a + b)[0] == a[0];
      assert (a + b)[1..] == a[1..] + b;
      if !fails(|trace|, a[0]) {
        RunInOrderAppend(fails, trace + [a[0]], a[1..], b);
      }
    }
  }

  /** The first call of a non-empty plan: issued, and the rest follows only if it succeeded. */
  lemma RunInOrderNext(fails: Oracle, trace: seq<Call>, calls: seq<Call>)
    requires |calls| > 0
    ensures RunInOrder(fails, trace, calls) ==
            if fails(|trace|, calls[0]) then Execution(trace + [calls[0]], false)
            else RunInOrder(fails, trace + [calls[0]], calls[1..])
  {
  }

  /** The same, for the calls of a plan from position `k` on. */
  lemma RunInOrderAt(fails: Oracle, trace: seq<Call>, calls: seq<Call>, k: nat)
    requires k < |calls|
    ensures RunInOrder(fails, trace, calls[k..]) ==
            if fails(|trace|, calls[k]) then Execution(trace + [calls[k]], false)
            else RunInOrder(fails, trace + [calls[k]], calls[k + 1..])
  {
    assert calls[k..][1..] == calls[k + 1..];
    RunInOrderNext(fails, trace, calls[k..]);
  }
}
