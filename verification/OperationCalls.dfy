/** The results an operation delivers: every handler call follows its stream, and the calls share the
    operation's messages. */
module OperationCalls {
  import opened Apollows
  import opened Streams
  import opened Operation
  import opened OperationMessages

  // ----- One call

  /** The result in hand. */
  function Pending(call: Call): seq<Outcome> {
    if call.pc.CheckData? || call.pc.SendData? then [call.current] else []
  }

  /** A call receives a prefix of its stream up to the first errors, `all`, and all of it if its
      loop ended `undisturbed`. */
  predicate Follows(undisturbed: bool, all: seq<Outcome>, call: Call) {
    && call.taken <= all
    && (call.pc.Select? ==> all == call.taken + UpToErrors(call.rest))
    && (Pending(call) != [] ==> all == call.taken + (if call.current.errors then [] else UpToErrors(call.rest)))
    && (call.pc.Over? && undisturbed ==> call.taken == all)
  }

  /** As long as nothing may be dropped or skipped, a call delivers what it receives, in order. */
  predicate Faithful(delivering: bool, call: Call) {
    delivering ==> call.given + Pending(call) == call.taken
  }

  lemma FollowsReceive(undisturbed: bool, all: seq<Outcome>, call: Call, skips: bool)
    requires Follows(undisturbed, all, call) && call.pc.Select? && call.rest != []
    ensures Follows(undisturbed, all, NextCall(skips, call, Proceed))
  {
    var x := call.rest[0];
    var after := if x.errors then [] else UpToErrors(call.rest[1..]);
    assert UpToErrors(call.rest) == [x] + after;
    assert call.taken + ([x] + after) == (call.taken + [x]) + after;
  }

  lemma FollowsData(undisturbed: bool, all: seq<Outcome>, call: Call, skips: bool, c: Choice)
    requires Follows(undisturbed, all, call) && (call.pc.CheckData? || call.pc.SendData?)
    ensures Follows(undisturbed, all, NextCall(skips, call, c))
  {
    assert call.taken + [] == call.taken;
  }

  /** The cancellation branch is never taken by a loop that is undisturbed. */
  lemma FollowsStep(undisturbed: bool, all: seq<Outcome>, call: Call, skips: bool, c: Choice)
    requires Follows(undisturbed, all, call) && (call.pc.Select? && c.Abandon? ==> !undisturbed)
    ensures Follows(undisturbed, all, NextCall(skips, call, c))
  {
    if call.pc.CheckData? || call.pc.SendData? {
      FollowsData(undisturbed, all, call, skips, c);
    } else if call.pc.Select? && c.Proceed? && call.rest != [] {
      FollowsReceive(undisturbed, all, call, skips);
    } else {
      assert call.taken + [] == call.taken;
    }
  }

  lemma FaithfulStep(delivering: bool, call: Call, skips: bool, c: Choice)
    requires Faithful(delivering, call) && (delivering ==> !skips && (call.pc.SendData? ==> c.Proceed?))
    ensures Faithful(delivering, NextCall(skips, call, c))
  {
    assert call.given + [] == call.given;
  }

  // ----- All calls of an operation

  /** Nothing has cut a result loop of the operation short. */
  predicate Undisturbed(v: View, r: Run) {
    !v.requestDone && !r.stopped && !r.detached
  }

  /** Nothing makes the operation drop or skip a result. */
  predicate Delivering(v: View, r: Run) {
    !v.requestDone && (v.dialect.GraphqlWs? || !Stopped(v, r))
  }

  predicate CallOk(v: View, r: Run, k: nat)
    requires k < |r.active| && k < |r.plan.calls|
  {
    && Follows(Undisturbed(v, r), UpToErrors(r.plan.calls[k]), r.active[k])
    && Faithful(Delivering(v, r), r.active[k])
  }

  predicate CallsOk(v: View, r: Run) {
    |r.active| <= |r.plan.calls| && forall k :: 0 <= k < |r.active| ==> CallOk(v, r, k)
  }

  /** Only a stop request cancels an operation's context before the goroutine does so itself. */
  predicate CancelledByStop(r: Run) {
    r.cancelled && !r.stopped ==> r.pc.Unregister? || r.pc.WgDone? || r.pc.Finished?
  }

  lemma CallMoves(v: View, room: bool, r: Run, m: Turn)
    requires OnPlan(v.dialect, r) && CallsOk(v, r) && CancelledByStop(r) && CanStep(v, room, r, m) && m.OfCall?
    ensures CallOk(v, Advance(v, r, m), m.call)
  {
    CallStays(v, room, r, m);
    var skips := v.dialect.GraphqlTransportWs? && Stopped(v, r);
    assert CallOk(v, r, m.call);
    FollowsStep(Undisturbed(v, r), UpToErrors(r.plan.calls[m.call]), r.active[m.call], skips, m.choice);
    FaithfulStep(Delivering(v, r), r.active[m.call], skips, m.choice);
  }

  lemma CallBegins(v: View, r: Run, m: Turn)
    requires OnPlan(v.dialect, r) && CallsOk(v, r) && Begins(r, m)
    ensures CallsOk(v, Advance(v, r, m))
  {
    var r' := Advance(v, r, m);
    var n := |r.active|;
    assert r.calls[0] == r.plan.calls[n];
    assert [] + UpToErrors(r.calls[0]) == UpToErrors(r.plan.calls[n]);
    forall k | 0 <= k < |r'.active| ensures CallOk(v, r', k) {
      if k < n { assert CallOk(v, r, k); }
    }
  }

  lemma CallsOkStep(v: View, room: bool, r: Run, m: Turn)
    requires OnPlan(v.dialect, r) && CallsOk(v, r) && CancelledByStop(r) && CanStep(v, room, r, m)
    ensures CallsOk(v, Advance(v, r, m))
  {
    var r' := Advance(v, r, m);
    if m.OfCall? {
      CallMoves(v, room, r, m);
      forall k | 0 <= k < |r'.active| ensures CallOk(v, r', k) { assert CallOk(v, r, k); }
    } else if Begins(r, m) {
      CallBegins(v, r, m);
    } else {
      forall k | 0 <= k < |r'.active| ensures CallOk(v, r', k) { assert CallOk(v, r, k); }
    }
  }

  // ----- Which call sent what

  function Givens(calls: seq<Call>): (r: seq<seq<Outcome>>)
    ensures |r| == |calls|
  {
    seq(|calls|, k requires 0 <= k < |calls| => calls[k].given)
  }

  /** The results among the operation's messages interleave what its calls delivered. */
  predicate Accounted(r: Run) {
    Interleaves(Payloads(Kinds(r.sent)), r.order, Givens(r.active))
  }

  /** Unless calls have overlapped, the results are those of one call after the other. */
  predicate InTurn(r: Run) {
    && (|r.active| <= 1 ==> !r.overlapped)
    && (!r.overlapped ==>
          && Payloads(Kinds(r.sent)) == Concat(Givens(r.active))
          && forall k :: 0 <= k < |r.active| - 1 ==> r.active[k].pc.Over?)
  }

  lemma ItemReports(v: View, r: Run, m: Turn)
    requires Sending(r, m)
    ensures var item := ItemOf(v, r, m);
            (if item.Message? && IsResult(item.kind) then [item.kind.result] else [])
              == if m.OfCall? then [r.active[m.call].current] else []
  {
  }

  /** Only a call's send reports a result: the one in hand. */
  lemma SendReports(v: View, r: Run, m: Turn)
    requires Enqueues(r, m)
    ensures Payloads(Kinds(Advance(v, r, m).sent))
         == Payloads(Kinds(r.sent)) + (if m.OfCall? then [r.active[m.call].current] else [])
  {
    ItemReports(v, r, m);
    PayloadsSent(r.sent, ItemOf(v, r, m));
    assert Advance(v, r, m).sent == r.sent + [ItemOf(v, r, m)];
  }

  lemma GivensMove(v: View, r: Run, m: Turn)
    requires m.OfCall? && m.call < |r.active|
    ensures Givens(Advance(v, r, m).active)
         == if Enqueues(r, m) then Givens(r.active)[m.call := Givens(r.active)[m.call] + [r.active[m.call].current]]
            else Givens(r.active)
  {
  }

  lemma GivensBegin(v: View, r: Run, m: Turn)
    requires Begins(r, m)
    ensures Givens(Advance(v, r, m).active) == Givens(r.active) + [[]]
  {
  }

  /** Only handler calls report results. */
  lemma OwnStepReports(v: View, r: Run, m: Turn)
    requires !m.OfCall?
    ensures Payloads(Kinds(Advance(v, r, m).sent)) == Payloads(Kinds(r.sent))
    ensures m.Own? ==> Advance(v, r, m).active == r.active
  {
    if Enqueues(r, m) {
      SendReports(v, r, m);
      assert Payloads(Kinds(r.sent)) + [] == Payloads(Kinds(r.sent));
    }
  }

  lemma AccountedStep(v: View, room: bool, r: Run, m: Turn)
    requires Accounted(r) && CanStep(v, room, r, m)
    ensures Accounted(Advance(v, r, m))
  {
    if m.OfCall? {
      GivensMove(v, r, m);
      if Enqueues(r, m) {
        SendReports(v, r, m);
        InterleavesMore(Payloads(Kinds(r.sent)), r.order, Givens(r.active), r.active[m.call].current, m.call);
      }
    } else {
      OwnStepReports(v, r, m);
      if Begins(r, m) {
        GivensBegin(v, r, m);
        InterleavesNew(Payloads(Kinds(r.sent)), r.order, Givens(r.active));
      }
    }
  }

  lemma CallInTurn(v: View, room: bool, r: Run, m: Turn)
    requires InTurn(r) && CanStep(v, room, r, m) && m.OfCall?
    ensures InTurn(Advance(v, r, m))
  {
    GivensMove(v, r, m);
    if Enqueues(r, m) {
      SendReports(v, r, m);
      if !r.overlapped {
        assert m.call == |r.active| - 1;
        ConcatMore(Givens(r.active), r.active[m.call].current);
      }
    }
  }

  lemma BeginInTurn(v: View, r: Run, m: Turn)
    requires InTurn(r) && Begins(r, m)
    ensures InTurn(Advance(v, r, m))
  {
    GivensBegin(v, r, m);
    ConcatNew(Givens(r.active), []);
    OwnStepReports(v, r, m);
    assert Concat(Givens(r.active)) + [] == Concat(Givens(r.active));
  }

  lemma InTurnStep(v: View, room: bool, r: Run, m: Turn)
    requires InTurn(r) && CanStep(v, room, r, m)
    ensures InTurn(Advance(v, r, m))
  {
    if m.OfCall? {
      CallInTurn(v, room, r, m);
    } else if Begins(r, m) {
      BeginInTurn(v, r, m);
    } else {
      OwnStepReports(v, r, m);
    }
  }
}
