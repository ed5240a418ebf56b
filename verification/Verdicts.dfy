/** What a reconcile step returns: an optional result and an optional error. */
module Verdicts {
  import opened Basics

  /** `ctrl.Result`; zero seconds stands for no requeue. */
  datatype RunResult = RunResult(requeueAfter: nat)

  datatype Verdict = Verdict(res: Option<RunResult>, err: Option<string>)

  /** Both parts absent: the run goes on with the next step. */
  predicate Continues(v: Verdict) { v.res.None? && v.err.None? }

  const NEXT_STEP := Verdict(None, None)
  const COMPLETE := Verdict(Some(RunResult(0)), None)

  function Requeue(seconds: nat): Verdict { Verdict(Some(RunResult(seconds)), None) }

  function Error(e: string): Verdict { Verdict(None, Some(e)) }
}
