/** The result loop of the websocket model and that of `Results` are one: a handler call of an
    operation nobody disturbs delivers what ProcessResults writes. */
module ResultLoops {
  import opened Apollows
  import R = Results
  import S = Streams
  import opened Operation
  import opened OperationCalls
  import opened OperationSafety

  /** A result as the websocket model sees it: some value, and whether it carries errors. */
  function Seen(code: R.Result -> int, results: seq<R.Result>): (r: seq<Outcome>)
    ensures |r| == |results|
  {
    seq(|results|, k requires 0 <= k < |results| => Outcome(code(results[k]), results[k].errors != []))
  }

  lemma {:induction false} CutIsSeen(code: R.Result -> int, results: seq<R.Result>)
    ensures S.UpToErrors(Seen(code, results)) == Seen(code, R.UpToErrors(results))
  {
    if results != [] && results[0].errors == [] {
      CutIsSeen(code, results[1..]);
      assert Seen(code, results)[1..] == Seen(code, results[1..]);
    }
  }

  /** ProcessResults writes the results up to the first errors if nothing disturbs it; a handler call
      whose stream is the same processed results delivers the same. */
  lemma CallDeliversWhatIsWritten(v: View, r: Run, k: nat, code: R.Result -> int, config: R.Config,
                                  results: seq<R.Result>)
    requires LocalOk(v, r) && k < |r.active| && r.active[k].pc.Over? && LeftAlone(v, r)
    requires r.plan.calls[k] == Seen(code, R.ProcessAll(config, results))
    ensures r.active[k].given == Seen(code, R.UpToErrors(R.ProcessAll(config, results)))
  {
    assert CallOk(v, r, k);
    assert r.active[k].given + [] == r.active[k].given;
    CutIsSeen(code, R.ProcessAll(config, results));
  }
}
