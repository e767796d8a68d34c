/** What holds of an operation at every moment, whatever the other goroutines do. */
module OperationSafety {
  import opened Apollows
  import opened Streams
  import opened Operation
  import opened OperationMessages
  import opened OperationCalls

  predicate WordsOk(v: View, r: Run) {
    && OnPlan(v.dialect, r) && WordSoFar(v.dialect, r) && Exclusive(r) && CompleteSent(v, r)
    && OwnIds(r) && NoCloseOnceExecuted(r) && Reported(v, r)
  }

  predicate ResultsOk(v: View, r: Run) {
    CallsOk(v, r) && Accounted(r) && InTurn(r) && CancelledByStop(r)
  }

  predicate LocalOk(v: View, r: Run) {
    WordsOk(v, r) && ResultsOk(v, r)
  }

  lemma LocalOkAtStart(v: View, id: string, plan: Plan)
    ensures LocalOk(v, NewRun(id, plan))
  {
  }

  lemma WordsOkStep(v: View, room: bool, r: Run, m: Turn)
    requires v.awaits && WordsOk(v, r) && CanStep(v, room, r, m)
    ensures WordsOk(v, Advance(v, r, m))
  {
    OnPlanStep(v, room, r, m);
    WordStep(v, room, r, m);
    ExclusiveStep(v, room, r, m);
    CompleteSentStep(v, room, r, m);
    OwnIdsStep(v, room, r, m);
    NoCloseStep(v, room, r, m);
    ReportedStep(v, room, r, m);
  }

  lemma CancelledByStopStep(v: View, room: bool, r: Run, m: Turn)
    requires CancelledByStop(r) && CanStep(v, room, r, m)
    ensures CancelledByStop(Advance(v, r, m))
  {
  }

  lemma ResultsOkStep(v: View, room: bool, r: Run, m: Turn)
    requires OnPlan(v.dialect, r) && ResultsOk(v, r) && CanStep(v, room, r, m)
    ensures ResultsOk(v, Advance(v, r, m))
  {
    CallsOkStep(v, room, r, m);
    AccountedStep(v, room, r, m);
    InTurnStep(v, room, r, m);
    CancelledByStopStep(v, room, r, m);
  }

  lemma LocalOkStep(v: View, room: bool, r: Run, m: Turn)
    requires v.awaits && LocalOk(v, r) && CanStep(v, room, r, m)
    ensures LocalOk(v, Advance(v, r, m))
  {
    WordsOkStep(v, room, r, m);
    ResultsOkStep(v, room, r, m);
  }

  /** Flags only ever get set; setting one from outside keeps everything said so far. */
  predicate Disturbed(r: Run, r': Run) {
    && r' == r.(stopped := r'.stopped, cancelled := r'.cancelled, detached := r'.detached)
    && (r.stopped ==> r'.stopped) && (r.cancelled ==> r'.cancelled) && (r.detached ==> r'.detached)
    && (r'.cancelled ==> r.cancelled || r'.stopped)
  }

  predicate Later(v: View, v': View) {
    && v.dialect == v'.dialect && v.awaits == v'.awaits
    && (v.requestDone ==> v'.requestDone) && (v.requestStopped ==> v'.requestStopped)
  }

  lemma WordSoFarDisturbed(d: Dialect, r: Run, r': Run)
    requires WordSoFar(d, r) && Disturbed(r, r')
    ensures WordSoFar(d, r')
  {
  }

  lemma ReportedDisturbed(v: View, v': View, r: Run, r': Run)
    requires Reported(v, r) && Later(v, v') && Disturbed(r, r')
    ensures Reported(v', r')
  {
  }

  lemma WordsOkDisturbed(v: View, v': View, r: Run, r': Run)
    requires WordsOk(v, r) && Later(v, v') && Disturbed(r, r')
    ensures WordsOk(v', r')
  {
    WordSoFarDisturbed(v.dialect, r, r');
    ReportedDisturbed(v, v', r, r');
  }

  lemma ResultsOkDisturbed(v: View, v': View, r: Run, r': Run)
    requires ResultsOk(v, r) && Later(v, v') && Disturbed(r, r')
    ensures ResultsOk(v', r')
  {
    forall k | 0 <= k < |r'.active| ensures CallOk(v', r', k) { assert CallOk(v, r, k); }
  }

  lemma LocalOkDisturbed(v: View, v': View, r: Run, r': Run)
    requires LocalOk(v, r) && Later(v, v') && Disturbed(r, r')
    ensures LocalOk(v', r')
  {
    WordsOkDisturbed(v, v', r, r');
    ResultsOkDisturbed(v, v', r, r');
  }

  // ----- What can still be sent once an operation is stopped

  /** The calls past their stopped check, about to send. */
  function CountSending(calls: seq<Call>): nat {
    if calls == [] then 0
    else CountSending(calls[..|calls| - 1]) + (if calls[|calls| - 1].pc.SendData? then 1 else 0)
  }

  lemma {:induction false} CountSendingUpdate(calls: seq<Call>, k: nat, call: Call)
    requires k < |calls|
    ensures CountSending(calls[k := call]) + (if calls[k].pc.SendData? then 1 else 0)
         == CountSending(calls) + (if call.pc.SendData? then 1 else 0)
  {
    var last := |calls| - 1;
    if k == last {
      assert calls[k := call][..last] == calls[..last];
    } else {
      assert calls[k := call][..last] == calls[..last][k := call];
      CountSendingUpdate(calls[..last], k, call);
    }
  }

  lemma CountSendingNew(calls: seq<Call>, call: Call)
    ensures CountSending(calls + [call]) == CountSending(calls) + (if call.pc.SendData? then 1 else 0)
  {
    assert (calls + [call])[..|calls|] == calls;
  }

  /** One of the calls about to send. */
  lemma {:induction false} SendingCall(calls: seq<Call>) returns (k: nat)
    requires CountSending(calls) > 0
    ensures k < |calls| && calls[k].pc.SendData?
  {
    var last := |calls| - 1;
    if calls[last].pc.SendData? { k := last; } else { k := SendingCall(calls[..last]); }
  }

  lemma OneSending(calls: seq<Call>)
    requires forall k :: 0 <= k < |calls| - 1 ==> calls[k].pc.Over?
    ensures CountSending(calls) <= 1
  {
    if calls != [] { NoneSending(calls[..|calls| - 1]); }
  }

  lemma {:induction false} NoneSending(calls: seq<Call>)
    requires AllOver(calls)
    ensures CountSending(calls) == 0
  {
    if calls != [] { NoneSending(calls[..|calls| - 1]); }
  }

  /** What the goroutine itself may still enqueue once the operation is stopped. */
  function OwnAllowance(r: Run): nat {
    match r.pc
    case Created | Added | Decode => 1
    case Intercept | CheckExecuted => if r.executed then 0 else 1
    case MarkStopped | SendError | SendConnectionError | SendClose | SendComplete => 1
    case _ => 0
  }

  /** How many items a stopped graphql-transport-ws operation may still enqueue: one for every
      handler call past its stopped check, or one of the goroutine's own. */
  function Allowance(r: Run): nat {
    OwnAllowance(r) + CountSending(r.active)
  }

  lemma AllowanceOfCall(v: View, room: bool, r: Run, m: Turn)
    requires v.dialect.GraphqlTransportWs? && Stopped(v, r)
    requires OnPlan(v.dialect, r) && CanStep(v, room, r, m) && m.OfCall?
    ensures |Advance(v, r, m).sent| + Allowance(Advance(v, r, m)) <= |r.sent| + Allowance(r)
  {
    CallStays(v, room, r, m);
    var call := r.active[m.call];
    CountSendingUpdate(r.active, m.call, NextCall(true, call, m.choice));
  }

  lemma AllowanceOfBegin(v: View, r: Run, m: Turn)
    requires Begins(r, m)
    ensures |Advance(v, r, m).sent| + Allowance(Advance(v, r, m)) <= |r.sent| + Allowance(r)
  {
    CountSendingNew(r.active, NewCall(r.calls[0]));
  }

  lemma AllowanceOfSend(v: View, r: Run, m: Turn)
    requires v.dialect.GraphqlTransportWs? && WordSoFar(v.dialect, r) && m.Own? && OwnSend(r.pc)
    ensures |AdvanceOwn(v, r, m).sent| + OwnAllowance(AdvanceOwn(v, r, m)) <= |r.sent| + OwnAllowance(r)
  {
  }

  lemma AllowanceOfOwn(v: View, r: Run, m: Turn)
    requires v.dialect.GraphqlTransportWs? && Stopped(v, r) && OnPlan(v.dialect, r) && m.Own? && !OwnSend(r.pc)
    ensures |AdvanceOwn(v, r, m).sent| + OwnAllowance(AdvanceOwn(v, r, m)) <= |r.sent| + OwnAllowance(r)
  {
  }

  lemma AllowanceStep(v: View, room: bool, r: Run, m: Turn)
    requires v.dialect.GraphqlTransportWs? && Stopped(v, r)
    requires OnPlan(v.dialect, r) && WordSoFar(v.dialect, r) && CanStep(v, room, r, m)
    ensures |Advance(v, r, m).sent| + Allowance(Advance(v, r, m)) <= |r.sent| + Allowance(r)
  {
    if m.OfCall? {
      AllowanceOfCall(v, room, r, m);
    } else if Begins(r, m) {
      AllowanceOfBegin(v, r, m);
    } else if OwnSend(r.pc) {
      AllowanceOfSend(v, r, m);
    } else {
      AllowanceOfOwn(v, r, m);
    }
  }

  /** Without two calls past their check it is one item at most. */
  lemma AllowanceIsOne(d: Dialect, r: Run)
    requires OnPlan(d, r)
    ensures Allowance(r) <= 1 <==> CountSending(r.active) <= 1
    ensures CountSending(r.active) > 0 ==> Allowance(r) == CountSending(r.active)
  {
    if CountSending(r.active) > 0 { var k := SendingCall(r.active); }
  }

  // ----- Whole words

  /** One result message per result. */
  function AsKinds(d: Dialect, results: seq<Outcome>): seq<Kind> {
    seq(|results|, k requires 0 <= k < |results| => ResultKind(d, results[k]))
  }

  lemma {:induction false} PayloadsOfResults(d: Dialect, word: seq<Kind>)
    requires AllResults(d, word)
    ensures |Payloads(word)| == |word|
    ensures forall k :: 0 <= k < |word| ==> word[k] == ResultKind(d, Payloads(word)[k])
  {
    if word != [] {
      PayloadsOfResults(d, word[..|word| - 1]);
    }
  }

  /** The word of an executed operation that has sent its `complete`. */
  lemma CompletedWord(v: View, r: Run)
    requires WordsOk(v, r) && Closing(r.pc) && r.executed && Delivering(v, r)
    ensures Kinds(r.sent) == AsKinds(v.dialect, Payloads(Kinds(r.sent))) + [Complete]
  {
    var word := Kinds(r.sent);
    var body := word[..|word| - 1];
    assert word == body + [Complete];
    PayloadsAppend(body, Complete);
    assert Error !in word && ConnectionError !in word;
    assert AllResults(v.dialect, body);
    PayloadsOfResults(v.dialect, body);
  }

  predicate LeftAlone(v: View, r: Run) {
    !v.requestDone && !v.requestStopped && !r.stopped && !r.detached
  }

  /** Every call of an executed operation nobody disturbed delivers its stream up to the first errors. */
  lemma GivensOfPlan(v: View, r: Run)
    requires LocalOk(v, r) && Closing(r.pc) && r.executed && LeftAlone(v, r)
    ensures |r.active| == |r.plan.calls|
    ensures forall k :: 0 <= k < |r.active| ==> Givens(r.active)[k] == UpToErrors(r.plan.calls[k])
  {
    forall k | 0 <= k < |r.active| ensures r.active[k].given == UpToErrors(r.plan.calls[k]) {
      assert CallOk(v, r, k);
      assert r.active[k].given + [] == r.active[k].given;
    }
  }

  /** The results up to the first errors of each stream. */
  function Cut(streams: seq<seq<Outcome>>): seq<seq<Outcome>> {
    seq(|streams|, k requires 0 <= k < |streams| => UpToErrors(streams[k]))
  }

  /** The whole word of an executed operation nobody disturbed: every call's results up to the first
      errors, each in order, the calls one after the other unless they overlapped; then exactly one
      `complete`. */
  lemma UndisturbedWord(v: View, r: Run)
    requires LocalOk(v, r) && Closing(r.pc) && r.executed && LeftAlone(v, r)
    ensures var results := Payloads(Kinds(r.sent));
            && Kinds(r.sent) == AsKinds(v.dialect, results) + [Complete]
            && Interleaves(results, r.order, Cut(r.plan.calls))
            && (!r.overlapped ==> results == Flat(r.plan.calls))
  {
    CompletedWord(v, r);
    GivensOfPlan(v, r);
    assert Givens(r.active) == Cut(r.plan.calls);
    ConcatIsFlat(Givens(r.active), r.plan.calls);
  }
}
