/** The words an operation can emit, and how it reports a failure. */
module OperationMessages {
  import opened Apollows
  import opened Operation

  // ----- Words

  predicate IsResultOf(d: Dialect, kind: Kind) {
    if d.GraphqlWs? then kind.Data? else kind.Next?
  }

  predicate AllResults(d: Dialect, word: seq<Kind>) {
    forall k :: 0 <= k < |word| ==> IsResultOf(d, word[k])
  }

  /** The body of a word: any number of results, or a single error of one sort. */
  predicate Body(d: Dialect, word: seq<Kind>) {
    AllResults(d, word) || word == [Error] || (d.GraphqlWs? && word == [ConnectionError])
  }

  predicate Completed(word: seq<Kind>) {
    |word| > 0 && word[|word| - 1].Complete?
  }

  /** `next* complete? | error` for graphql-transport-ws,
      `(data* | error | connection_error) complete?` for graphql-ws. */
  predicate GoodWord(d: Dialect, word: seq<Kind>) {
    if Completed(word) then
      var body := word[..|word| - 1];
      Body(d, body) && (d.GraphqlTransportWs? ==> AllResults(d, body))
    else Body(d, word)
  }

  /** Not yet past decoding. */
  predicate Early(pc: Pc) {
    pc.Created? || pc.Added? || pc.Decode?
  }

  /** The interceptors have returned, or never ran. */
  predicate Late(pc: Pc) {
    !Early(pc) && !pc.Intercept?
  }

  /** Past its last message. */
  predicate Closing(pc: Pc) {
    pc.CancelContext? || pc.Unregister? || pc.WgDone? || pc.Finished?
  }

  /** The failure the goroutine has in hand when its interceptors have returned or never ran. */
  function FailureOf(d: Dialect, plan: Plan): Failure {
    if plan.decodes then plan.outcome
    else if d.GraphqlTransportWs? then Protocol(INVALID_MESSAGE)
    else Ordinary
  }

  /** The interceptors of the plan reach execution. */
  predicate WillExecute(plan: Plan) {
    plan.decodes && plan.calls != []
  }

  /** How far the plan has been carried out at each program point. */
  predicate OnPlan(d: Dialect, r: Run) {
    && (r.executed <==> r.active != [])
    && |r.active| <= |r.plan.calls| && r.calls == r.plan.calls[|r.active|..]
    && (Early(r.pc) ==> r.active == [])
    && (r.pc.Intercept? ==> r.plan.decodes)
    && (Late(r.pc) ==>
          && AllOver(r.active)
          && (if r.plan.decodes then r.calls == [] else r.active == [])
          && r.failure == FailureOf(d, r.plan))
  }

  predicate Unexecuted(r: Run) {
    !r.executed && r.sent == []
  }

  /** What the word can be at each program point. */
  predicate WordSoFar(d: Dialect, r: Run) {
    var word := Kinds(r.sent);
    && (Early(r.pc) || r.pc.MarkStopped? ==> Unexecuted(r))
    && (r.pc.Intercept? || r.pc.CheckExecuted? ==> AllResults(d, word) && (r.executed || Unexecuted(r)))
    && (r.pc.SendError? ==> Unexecuted(r) && r.stopped)
    && (r.pc.SendConnectionError? ==> d.GraphqlWs? && Unexecuted(r))
    && (r.pc.SendClose? ==> !r.executed && (word == [] || (d.GraphqlWs? && word == [ConnectionError])))
    && (r.pc.CheckStopped? ==>
          AllResults(d, word) || (word == [Error] && r.stopped) || (d.GraphqlWs? && word == [ConnectionError]))
    && (r.pc.SendComplete? ==> Body(d, word) && (d.GraphqlTransportWs? ==> AllResults(d, word)))
    && (Closing(r.pc) ==> GoodWord(d, word))
  }

  /** Results and errors exclude each other. */
  predicate Exclusive(r: Run) {
    r.executed ==> Error !in Kinds(r.sent) && ConnectionError !in Kinds(r.sent)
  }

  /** Past its last message, unless the request was cancelled, the word ends in `complete`. */
  predicate CompleteSent(v: View, r: Run) {
    Closing(r.pc) && !v.requestDone && (v.dialect.GraphqlWs? || !Stopped(v, r)) ==> Completed(Kinds(r.sent))
  }

  /** A close directive is sent for a failure only, never by an executed operation. */
  predicate NoCloseOnceExecuted(r: Run) {
    r.executed ==> forall k :: 0 <= k < |r.sent| ==> r.sent[k].Message?
  }

  predicate OwnIds(r: Run) {
    forall k :: 0 <= k < |r.sent| && r.sent[k].Message? ==> r.sent[k].id == r.id
  }

  lemma OnPlanStep(v: View, room: bool, r: Run, m: Turn)
    requires v.awaits && OnPlan(v.dialect, r) && CanStep(v, room, r, m)
    ensures OnPlan(v.dialect, Advance(v, r, m))
  {
    if Begins(r, m) { assert r.plan.calls[|r.active|..][1..] == r.plan.calls[|r.active| + 1..]; }
  }

  /** A handler call leaves the goroutine where it is: with the interceptors. */
  lemma CallStays(v: View, room: bool, r: Run, m: Turn)
    requires OnPlan(v.dialect, r) && CanStep(v, room, r, m) && m.OfCall?
    ensures r.pc.Intercept? && r.executed
    ensures var r' := Advance(v, r, m); r' == r.(active := r'.active, sent := r'.sent, order := r'.order)
  {
  }

  lemma WordKeptOwn(v: View, r: Run, m: Turn)
    requires WordSoFar(v.dialect, r) && OnPlan(v.dialect, r) && m.Own? && !Enqueues(r, m)
    ensures WordSoFar(v.dialect, AdvanceOwn(v, r, m))
  {
  }

  lemma WordKept(v: View, room: bool, r: Run, m: Turn)
    requires WordSoFar(v.dialect, r) && OnPlan(v.dialect, r) && CanStep(v, room, r, m) && !Enqueues(r, m)
    ensures WordSoFar(v.dialect, Advance(v, r, m))
  {
    if m.OfCall? {
      CallStays(v, room, r, m);
    } else if !Begins(r, m) {
      WordKeptOwn(v, r, m);
    }
  }

  lemma AfterItem(v: View, r: Run, m: Turn)
    requires Enqueues(r, m)
    ensures var r' := Advance(v, r, m); var item := ItemOf(v, r, m);
            Kinds(r'.sent) == Kinds(r.sent) + (if item.Message? then [item.kind] else [])
  {
    KindsAppend(r.sent, ItemOf(v, r, m));
  }

  lemma WordAfterResult(v: View, room: bool, r: Run, m: Turn)
    requires WordSoFar(v.dialect, r) && OnPlan(v.dialect, r) && CanStep(v, room, r, m) && Enqueues(r, m) && m.OfCall?
    ensures WordSoFar(v.dialect, Advance(v, r, m))
  {
    AfterItem(v, r, m);
    assert r.pc.Intercept?;
  }

  lemma WordAfterFailure(v: View, r: Run, m: Turn)
    requires WordSoFar(v.dialect, r) && Enqueues(r, m) && m.Own? && !r.pc.SendComplete?
    ensures WordSoFar(v.dialect, Advance(v, r, m))
  {
    AfterItem(v, r, m);
    if !r.pc.SendClose? { assert Kinds(r.sent) == []; }
  }

  lemma GoodAfterComplete(d: Dialect, word: seq<Kind>)
    requires Body(d, word) && (d.GraphqlTransportWs? ==> AllResults(d, word))
    ensures GoodWord(d, word + [Complete])
  {
    assert (word + [Complete])[..|word|] == word;
  }

  lemma WordAfterComplete(v: View, r: Run, m: Turn)
    requires WordSoFar(v.dialect, r) && Enqueues(r, m) && m.Own? && r.pc.SendComplete?
    ensures WordSoFar(v.dialect, Advance(v, r, m))
  {
    AfterItem(v, r, m);
    GoodAfterComplete(v.dialect, Kinds(r.sent));
    GoodWhenClosing(v.dialect, Advance(v, r, m));
  }

  lemma GoodWhenClosing(d: Dialect, r: Run)
    requires r.pc.CancelContext? && GoodWord(d, Kinds(r.sent))
    ensures WordSoFar(d, r)
  {
  }

  lemma WordStep(v: View, room: bool, r: Run, m: Turn)
    requires WordSoFar(v.dialect, r) && OnPlan(v.dialect, r) && CanStep(v, room, r, m)
    ensures WordSoFar(v.dialect, Advance(v, r, m))
  {
    if !Enqueues(r, m) {
      WordKept(v, room, r, m);
    } else if m.OfCall? {
      WordAfterResult(v, room, r, m);
    } else if r.pc.SendComplete? {
      WordAfterComplete(v, r, m);
    } else {
      WordAfterFailure(v, r, m);
    }
  }

  lemma ExclusiveStep(v: View, room: bool, r: Run, m: Turn)
    requires WordSoFar(v.dialect, r) && OnPlan(v.dialect, r) && Exclusive(r) && CanStep(v, room, r, m)
    ensures Exclusive(Advance(v, r, m))
  {
    if Enqueues(r, m) { AfterItem(v, r, m); }
  }

  lemma CompleteAppended(r: Run)
    requires r.pc.SendComplete?
    ensures Completed(Kinds(r.sent + [OwnItem(r)]))
  {
    KindsAppend(r.sent, OwnItem(r));
  }

  lemma CompleteQuiet(v: View, r: Run, m: Turn)
    requires CompleteSent(v, r) && m.Own? && !r.pc.SendComplete?
    ensures CompleteSent(v, AdvanceOwn(v, r, m))
  {
    if OwnSend(r.pc) {
      assert !Closing(AdvanceOwn(v, r, m).pc);
    } else {
      assert AdvanceOwn(v, r, m).sent == r.sent;
    }
  }

  lemma CompleteSentStep(v: View, room: bool, r: Run, m: Turn)
    requires OnPlan(v.dialect, r) && CompleteSent(v, r) && CanStep(v, room, r, m)
    ensures CompleteSent(v, Advance(v, r, m))
  {
    if m.OfCall? {
      CallStays(v, room, r, m);
    } else if Begins(r, m) {
    } else if !r.pc.SendComplete? {
      CompleteQuiet(v, r, m);
    } else if m.choice.Proceed? {
      CompleteAppended(r);
      assert Advance(v, r, m).sent == r.sent + [OwnItem(r)];
    }
  }

  lemma NoCloseStep(v: View, room: bool, r: Run, m: Turn)
    requires OnPlan(v.dialect, r) && WordSoFar(v.dialect, r) && NoCloseOnceExecuted(r) && CanStep(v, room, r, m)
    ensures NoCloseOnceExecuted(Advance(v, r, m))
  {
  }

  lemma OwnIdsStep(v: View, room: bool, r: Run, m: Turn)
    requires OwnIds(r) && CanStep(v, room, r, m)
    ensures OwnIds(Advance(v, r, m))
  {
  }

  // ----- Failures

  /** What a client is told of a failure. */
  function Told(d: Dialect, id: string, failure: Failure): seq<Item> {
    match failure
    case NoFailure => []
    case Ordinary => [Message(id, Error)]
    case Protocol(code) => (if d.GraphqlWs? then [Message(id, ConnectionError)] else []) + [CloseWith(code)]
  }

  /** While the request lives, an operation that was not executed tells its failure in full, before
      anything else it sends. */
  predicate Reported(v: View, r: Run) {
    var told := Told(v.dialect, r.id, r.failure);
    var complete := Message(r.id, Complete);
    !v.requestDone && !r.executed ==>
      match r.pc
      case MarkStopped => r.failure.Ordinary? && r.sent == []
      case SendError => r.failure.Ordinary? && r.stopped && r.sent == []
      case SendConnectionError => r.failure.Protocol? && v.dialect.GraphqlWs? && r.sent == []
      case SendClose => r.failure.Protocol? && r.sent == told[..|told| - 1]
      case CheckStopped => r.sent == told && (r.failure.Ordinary? ==> r.stopped)
      case SendComplete => r.sent == told && (v.dialect.GraphqlTransportWs? ==> !r.failure.Ordinary?)
      case _ =>
        if !Closing(r.pc) then r.sent == []
        else if v.dialect.GraphqlWs? then r.sent == told + [complete]
        else if r.failure.Ordinary? then r.sent == told
        else r.sent == told || r.sent == told + [complete]
  }

  lemma ToldInTwo(d: Dialect, id: string, failure: Failure)
    requires failure.Protocol?
    ensures var told := Told(d, id, failure);
            && told == told[..|told| - 1] + [CloseWith(failure.code)]
            && (d.GraphqlWs? ==> told[..|told| - 1] == [Message(id, ConnectionError)])
  {
  }

  lemma ReportedError(v: View, r: Run)
    requires Reported(v, r) && (r.pc.SendError? || r.pc.SendConnectionError?)
    ensures Reported(v, AdvanceOwn(v, r, Own(Proceed)))
  {
    if r.failure.Protocol? { ToldInTwo(v.dialect, r.id, r.failure); }
  }

  lemma ReportedClose(v: View, r: Run)
    requires Reported(v, r) && r.pc.SendClose?
    ensures Reported(v, AdvanceOwn(v, r, Own(Proceed)))
  {
    if r.failure.Protocol? { ToldInTwo(v.dialect, r.id, r.failure); }
  }

  lemma ReportedComplete(v: View, r: Run)
    requires Reported(v, r) && r.pc.SendComplete?
    ensures Reported(v, AdvanceOwn(v, r, Own(Proceed)))
  {
  }

  lemma ReportedSend(v: View, r: Run, m: Turn)
    requires Reported(v, r) && m.Own? && OwnSend(r.pc) && (m.choice.Abandon? ==> v.requestDone)
    ensures Reported(v, AdvanceOwn(v, r, m))
  {
    if v.requestDone {
    } else if r.pc.SendComplete? {
      ReportedComplete(v, r);
    } else if r.pc.SendClose? {
      ReportedClose(v, r);
    } else {
      ReportedError(v, r);
    }
  }

  lemma ReportedChoice(v: View, r: Run, m: Turn)
    requires Reported(v, r) && OnPlan(v.dialect, r) && m.Own? && (r.pc.CheckExecuted? || r.pc.CheckStopped?)
    ensures Reported(v, AdvanceOwn(v, r, m))
  {
  }

  lemma ReportedEarly(v: View, r: Run, m: Turn)
    requires Reported(v, r) && OnPlan(v.dialect, r) && m.Own? && (r.pc.Decode? || r.pc.Intercept? || r.pc.MarkStopped?)
    ensures Reported(v, AdvanceOwn(v, r, m))
  {
  }

  lemma ReportedQuiet(v: View, r: Run, m: Turn)
    requires Reported(v, r) && OnPlan(v.dialect, r) && m.Own? && !OwnSend(r.pc)
    ensures Reported(v, AdvanceOwn(v, r, m))
  {
    if r.pc.CheckExecuted? || r.pc.CheckStopped? {
      ReportedChoice(v, r, m);
    } else if r.pc.Decode? || r.pc.Intercept? || r.pc.MarkStopped? {
      ReportedEarly(v, r, m);
    }
  }

  lemma ReportedStep(v: View, room: bool, r: Run, m: Turn)
    requires Reported(v, r) && OnPlan(v.dialect, r) && CanStep(v, room, r, m)
    ensures Reported(v, Advance(v, r, m))
  {
    if m.OfCall? {
      CallStays(v, room, r, m);
    } else if Begins(r, m) {
    } else if OwnSend(r.pc) {
      ReportedSend(v, r, m);
    } else {
      ReportedQuiet(v, r, m);
    }
  }
}
