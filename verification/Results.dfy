/** The cancellable result loop, the formatting of one result, and the legacy result callback that
    transforms the stream in front of it.

    Errors are numbers; formatting an error and the configured result processor are parameters. */
module Results {
  import opened Wrappers
  import opened Contexts

  /** The data of a result may itself be an error value. */
  datatype Data = Resolved(value: int) | Failed(error: int)

  datatype Result = Result(data: Data, errors: seq<int>)

  datatype Config = Config(process: Result -> Result, format: int -> int)

  /** How the loop ended: the stream was drained, a result carried errors (returned as ResultError),
      the write function failed, or the context was done, with or without a stop request. */
  datatype Ending = Drained | Errored(result: Result) | WriteFailed(error: int) | Cancelled | StoppedByClient

  /** The context as one iteration of the loop finds it; `first` says that select takes the
      cancellation branch when it is open. */
  datatype Tick = Tick(done: bool, first: bool, stopped: bool)

  // ----- One result

  function FormatAll(format: int -> int, errors: seq<int>): (r: seq<int>)
    ensures |r| == |errors|
  {
    seq(|errors|, k requires 0 <= k < |errors| => format(errors[k]))
  }

  /** What the client gets to see of a result. */
  function Processed(config: Config, result: Result): Result {
    var r := config.process(result);
    r.(errors := (if r.data.Failed? then [config.format(r.data.error)] else []) + FormatAll(config.format, r.errors))
  }

  /** processResult, up to the call of the write function. */
  method ProcessResult(config: Config, result: Result) returns (out: Result)
    ensures out == Processed(config, result)
  {
    var r := config.process(result);
    var formatted: seq<int> := [];
    if r.data.Failed? {
      formatted := formatted + [config.format(r.data.error)];
    }
    var own := formatted;
    for k := 0 to |r.errors|
      invariant formatted == own + FormatAll(config.format, r.errors[..k])
    {
      assert r.errors[..k + 1] == r.errors[..k] + [r.errors[k]];
      formatted := formatted + [config.format(r.errors[k])];
    }
    assert r.errors[..|r.errors|] == r.errors;
    out := r.(errors := formatted);
  }

  /** An error in the data or in the errors survives processing, and nothing else creates one. */
  lemma ErrorsSurvive(config: Config, result: Result)
    ensures Processed(config, result).errors == [] <==>
              config.process(result).data.Resolved? && config.process(result).errors == []
  {
  }

  // ----- The loop

  function ProcessAll(config: Config, results: seq<Result>): (r: seq<Result>)
    ensures |r| == |results|
  {
    seq(|results|, k requires 0 <= k < |results| => Processed(config, results[k]))
  }

  predicate Clean(results: seq<Result>) {
    forall k :: 0 <= k < |results| ==> results[k].errors == []
  }

  /** The results up to and including the first that carries errors. */
  function UpToErrors(results: seq<Result>): seq<Result> {
    if results == [] then []
    else if results[0].errors != [] then [results[0]]
    else [results[0]] + UpToErrors(results[1..])
  }

  lemma {:induction false} UpToErrorsIsPrefix(results: seq<Result>)
    ensures UpToErrors(results) <= results
    ensures Clean(results) ==> UpToErrors(results) == results
    ensures !Clean(results) ==> EndsAtErrors(results, |UpToErrors(results)|)
  {
    if results != [] && results[0].errors == [] {
      UpToErrorsIsPrefix(results[1..]);
      if !Clean(results) {
        var k :| 0 <= k < |results| && results[k].errors != [];
        assert results[1..][k - 1] == results[k];
        EndsOneLater(results, |UpToErrors(results[1..])|);
      }
    }
  }

  /** The n-th result is the first that carries errors. */
  predicate EndsAtErrors(results: seq<Result>, n: nat) {
    0 < n <= |results| && Clean(results[..n - 1]) && results[n - 1].errors != []
  }

  lemma EndsOneLater(results: seq<Result>, n: nat)
    requires results != [] && results[0].errors == [] && EndsAtErrors(results[1..], n)
    ensures EndsAtErrors(results, n + 1)
  {
    assert results[..n] == [results[0]] + results[1..][..n - 1];
  }

  lemma {:induction false} UpToFirst(results: seq<Result>, n: nat)
    requires n < |results| && Clean(results[..n]) && results[n].errors != []
    ensures UpToErrors(results) == results[..n + 1]
  {
    if n > 0 {
      assert results[0] == results[..n][0];
      assert results[1..][..n - 1] == results[..n][1..];
      UpToFirst(results[1..], n - 1);
      assert results[..n + 1] == [results[0]] + results[1..][..n];
    }
  }

  /** What the loop has written, and why it ended there. */
  ghost predicate Explained(all: seq<Result>, env: nat -> Tick, write: Result -> Option<int>, written: seq<Result>,
                            ending: Ending)
  {
    && written <= all
    && (forall k :: 0 <= k < |written| - (if ending.WriteFailed? then 1 else 0) ==> write(written[k]) == None)
    && match ending
       case Drained => written == all && Clean(written)
       case Errored(r) => |written| > 0 && written[|written| - 1] == r && r.errors != []
           && Clean(written[..|written| - 1])
       case WriteFailed(e) => |written| > 0 && write(written[|written| - 1]) == Some(e)
           && Clean(written[..|written| - 1])
       case Cancelled => Clean(written) && env(|written|).done && !env(|written|).stopped
       case StoppedByClient => Clean(written) && env(|written|).done && env(|written|).stopped
  }

  /** The context is never done and every write succeeds. */
  ghost predicate Undisturbed(env: nat -> Tick, write: Result -> Option<int>) {
    (forall k :: !env(k).done) && (forall r :: write(r) == None)
  }

  lemma OneMore(all: seq<Result>, k: nat)
    requires k < |all| && Clean(all[..k])
    ensures all[..k] + [all[k]] == all[..k + 1] && all[..k + 1][..k] == all[..k]
    ensures all[k].errors == [] ==> Clean(all[..k + 1])
  {
  }

  /** processResults, once the executed flag is set: `written` are the results handed to `write`. */
  method ProcessResults(config: Config, results: seq<Result>, env: nat -> Tick, write: Result -> Option<int>)
    returns (written: seq<Result>, ending: Ending)
    ensures Explained(ProcessAll(config, results), env, write, written, ending)
    ensures Undisturbed(env, write) ==>
              written == UpToErrors(ProcessAll(config, results))
  {
    ghost var all := ProcessAll(config, results);
    written := [];
    for k := 0 to |results|
      invariant written == all[..k] && Clean(written)
      invariant forall j :: 0 <= j < k ==> write(written[j]) == None
    {
      var tick := env(k);
      if tick.done && tick.first {
        ending := if tick.stopped then StoppedByClient else Cancelled;
        return;
      }
      var out := ProcessResult(config, results[k]);
      OneMore(all, k);
      written := written + [out];
      var failure := write(out);
      if failure.Some? {
        ending := WriteFailed(failure.value);
        return;
      }
      if out.errors != [] {
        ending := Errored(out);
        UpToFirst(all, k);
        return;
      }
    }
    assert all[..|all|] == all;
    UpToErrorsIsPrefix(all);
    var tick := env(|results|);
    if tick.done && tick.first {
      ending := if tick.stopped then StoppedByClient else Cancelled;
    } else {
      ending := Drained;
    }
  }

  /** Nothing is ever written after a result with errors, however the loop ended. */
  lemma NothingAfterErrors(all: seq<Result>, env: nat -> Tick, write: Result -> Option<int>,
                                              written: seq<Result>, ending: Ending)
    requires Explained(all, env, write, written, ending)
    ensures written <= UpToErrors(all)
  {
    WithinUpTo(all, |written|);
  }

  lemma {:induction false} WithinUpTo(all: seq<Result>, n: nat)
    requires n <= |all| && (n > 0 ==> Clean(all[..n - 1]))
    ensures all[..n] <= UpToErrors(all)
  {
    if n > 1 {
      assert all[0] == all[..n - 1][0];
      assert all[1..][..n - 2] == all[..n - 1][1..];
      WithinUpTo(all[1..], n - 1);
      assert all[..n] == [all[0]] + all[1..][..n - 1];
    }
  }

  /** processResults as a whole: the operation is marked executed before anything else happens. */
  method ServeResults(ctx: Context, config: Config, results: seq<Result>, env: nat -> Tick,
                      write: Result -> Option<int>)
    returns (written: seq<Result>, ending: Ending)
    requires ctx.Valid()
    requires var stored := Lookup(ctx.Chain(), OperationContextKey);
             stored.Some? && stored.value.Node? ==> stored.value.context in ctx.path && stored.value.context.Valid()
    modifies ctx.path
    ensures Explained(ProcessAll(config, results), env, write, written, ending)
    ensures var stored := old(Lookup(ctx.Chain(), OperationContextKey));
            stored.Some? && stored.value.Node? ==>
              stored.value.context.values == old(stored.value.context.values)[OperationExecuted := Flag(true)]
  {
    MarkOperation(ctx, OperationExecuted);
    written, ending := ProcessResults(config, results, env, write);
  }

  // ----- The legacy result callback

  /** The callback may change the result, or fail. */
  datatype Verdict = Pass(result: Result) | Veto(error: int)

  /** What the callback's goroutine sends: results until the callback fails, then its error. */
  function Transformed(callback: (nat, Result) -> Verdict, results: seq<Result>, from: nat): seq<Result>
    requires from <= |results|
    decreases |results| - from
  {
    if from == |results| then []
    else match callback(from, results[from])
      case Veto(error) => [Result(Failed(error), [])]
      case Pass(result) => [result] + Transformed(callback, results, from + 1)
  }

  method LegacyExecute(callback: (nat, Result) -> Verdict, results: seq<Result>) returns (stream: seq<Result>)
    ensures stream == Transformed(callback, results, 0)
  {
    stream := [];
    for k := 0 to |results|
      invariant stream + Transformed(callback, results, k) == Transformed(callback, results, 0)
    {
      var verdict := callback(k, results[k]);
      if verdict.Veto? {
        stream := stream + [Result(Failed(verdict.error), [])];
        return;
      }
      assert stream + ([verdict.result] + Transformed(callback, results, k + 1))
          == stream + [verdict.result] + Transformed(callback, results, k + 1);
      stream := stream + [verdict.result];
    }
    assert stream + [] == stream;
  }

  /** The callback lets the first n results through unharmed and fails on the next. */
  predicate FailsFirstAt(callback: (nat, Result) -> Verdict, results: seq<Result>, n: nat)
    requires n < |results|
  {
    && (forall k :: 0 <= k < n ==> callback(k, results[k]).Pass?
                                   && callback(k, results[k]).result.data.Resolved?
                                   && callback(k, results[k]).result.errors == [])
    && callback(n, results[n]).Veto?
  }

  lemma {:induction false} TransformedUntilVeto(callback: (nat, Result) -> Verdict, results: seq<Result>, from: nat,
                                                n: nat)
    requires from <= n < |results| && FailsFirstAt(callback, results, n)
    ensures var stream := Transformed(callback, results, from);
            && |stream| == n - from + 1
            && (forall k :: 0 <= k < n - from ==> stream[k].data.Resolved? && stream[k].errors == [])
            && stream[n - from] == Result(Failed(callback(n, results[n]).error), [])
    decreases n - from
  {
    if from < n {
      TransformedUntilVeto(callback, results, from + 1, n);
    }
  }

  /** The callback in front of the loop, with no further result processing: if it first fails on
      the n-th result and nothing before carries errors, exactly n results are written when nothing
      is cancelled, the n-th carries exactly the callback's error, and the loop reports it. */
  method ServeLegacy(callback: (nat, Result) -> Verdict, format: int -> int, results: seq<Result>,
                     env: nat -> Tick, write: Result -> Option<int>)
    returns (written: seq<Result>, ending: Ending)
    ensures forall n: nat :: n < |results| && FailsFirstAt(callback, results, n) && Undisturbed(env, write) ==>
              && |written| == n + 1 && Clean(written[..n])
              && written[n] == Result(Failed(callback(n, results[n]).error), [format(callback(n, results[n]).error)])
              && ending == Errored(written[n])
  {
    var config := Config(r => r, format);
    var stream := LegacyExecute(callback, results);
    written, ending := ProcessResults(config, stream, env, write);
    forall n: nat | n < |results| && FailsFirstAt(callback, results, n) && Undisturbed(env, write)
      ensures |written| == n + 1 && Clean(written[..n])
      ensures written[n] == Result(Failed(callback(n, results[n]).error), [format(callback(n, results[n]).error)])
      ensures ending == Errored(written[n])
    {
      VetoIsWritten(callback, format, results, n);
      assert ProcessAll(config, stream)[..n + 1] == ProcessAll(config, stream);
    }
  }

  lemma VetoIsWritten(callback: (nat, Result) -> Verdict, format: int -> int, results: seq<Result>, n: nat)
    requires n < |results| && FailsFirstAt(callback, results, n)
    ensures var all := ProcessAll(Config(r => r, format), Transformed(callback, results, 0));
            && |all| == n + 1 && Clean(all[..n]) && UpToErrors(all) == all
            && all[n] == Result(Failed(callback(n, results[n]).error), [format(callback(n, results[n]).error)])
  {
    var all := ProcessAll(Config(r => r, format), Transformed(callback, results, 0));
    TransformedUntilVeto(callback, results, 0, n);
    UpToFirst(all, n);
    assert all[..n + 1] == all;
  }
}
