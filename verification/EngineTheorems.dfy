/** The guarantees of a websocket connection, in every interleaving of its goroutines. */
module EngineTheorems {
  import opened Apollows
  import opened Streams
  import opened Operation
  import opened OperationMessages
  import opened OperationCalls
  import opened OperationSafety
  import opened Engine
  import opened EngineChannel
  import opened EngineRegistry
  import opened EngineReader
  import opened EngineHandshake
  import opened EngineWire
  import opened EngineSafety

  // ----- Words

  /** The messages one operation enqueues form a word of its dialect's language, at any time; once
      execution was reached they contain no error; and an operation that has finished while the
      request was alive has ended with `complete` (in graphql-transport-ws, unless it was stopped). */
  lemma OperationWords(d: Dialect, timeout: bool, t: State, i: nat)
    requires Reachable(d, timeout, t) && i < |t.runs|
    ensures var word := Kinds(ItemsOf(t.log, ByOperation(i)));
            && GoodWord(d, word)
            && (t.runs[i].executed ==> Error !in word && ConnectionError !in word)
            && (t.runs[i].pc.Finished? && !t.requestDone && (d.GraphqlWs? || !Stopped(ViewOf(t), t.runs[i])) ==>
                  Completed(word) && Complete !in word[..|word| - 1])
  {
    ReachableLocal(d, timeout, t, i);
    GoodSoFar(ViewOf(t), t.runs[i]);
    if Completed(Kinds(t.runs[i].sent)) { CompletesOnce(d, Kinds(t.runs[i].sent)); }
  }

  lemma GoodSoFar(v: View, r: Run)
    requires WordSoFar(v.dialect, r)
    ensures GoodWord(v.dialect, Kinds(r.sent))
  {
    if !Closing(r.pc) { NotCompleted(v.dialect, r); }
  }

  lemma NotCompleted(d: Dialect, r: Run)
    requires WordSoFar(d, r) && !Closing(r.pc)
    ensures Body(d, Kinds(r.sent)) && !Completed(Kinds(r.sent))
  {
    assert Kinds([]) == [];
  }

  lemma CompletesOnce(d: Dialect, word: seq<Kind>)
    requires GoodWord(d, word) && Completed(word)
    ensures Complete !in word[..|word| - 1]
  {
  }

  // ----- Results

  /** An executed operation nobody disturbed, whatever its interceptors did, delivers exactly the
      results of each of its handler calls up to the first errors, each call's in order; those of
      calls that did not overlap one call after the other; and then `complete`. */
  lemma UndisturbedDelivery(d: Dialect, timeout: bool, t: State, i: nat)
    requires Reachable(d, timeout, t) && i < |t.runs|
    requires Closing(t.runs[i].pc) && WillExecute(t.runs[i].plan) && LeftAlone(ViewOf(t), t.runs[i])
    ensures var word := Kinds(ItemsOf(t.log, ByOperation(i)));
            && word == AsKinds(d, Payloads(word)) + [Complete]
            && Interleaves(Payloads(word), t.runs[i].order, Cut(t.runs[i].plan.calls))
            && (!t.runs[i].overlapped ==> Payloads(word) == Flat(t.runs[i].plan.calls))
    ensures |t.runs[i].plan.calls| == 1 ==>
              Payloads(Kinds(ItemsOf(t.log, ByOperation(i)))) == UpToErrors(t.runs[i].plan.calls[0])
  {
    ReachableLocal(d, timeout, t, i);
    UndisturbedWord(ViewOf(t), t.runs[i]);
    if |t.runs[i].plan.calls| == 1 {
      FlatOfOne(t.runs[i].plan.calls[0]);
      assert t.runs[i].plan.calls == [t.runs[i].plan.calls[0]];
    }
  }

  /** At any time the results enqueued interleave what the handler calls delivered; while the request
      lives and the operation is not stopped, that is what the calls received, but for the result in
      hand, and a prefix of their streams up to the first errors. */
  lemma ResultsInOrder(d: Dialect, timeout: bool, t: State, i: nat)
    requires Reachable(d, timeout, t) && i < |t.runs|
    ensures var r := t.runs[i];
            && Interleaves(Payloads(Kinds(ItemsOf(t.log, ByOperation(i)))), r.order, Givens(r.active))
            && |r.active| <= |r.plan.calls|
            && forall k :: 0 <= k < |r.active| ==>
                 && r.active[k].taken <= UpToErrors(r.plan.calls[k])
                 && (Delivering(ViewOf(t), r) ==> r.active[k].given + Pending(r.active[k]) == r.active[k].taken)
  {
    ReachableLocal(d, timeout, t, i);
    var r := t.runs[i];
    forall k | 0 <= k < |r.active|
      ensures r.active[k].taken <= UpToErrors(r.plan.calls[k])
      ensures Delivering(ViewOf(t), r) ==> r.active[k].given + Pending(r.active[k]) == r.active[k].taken
    {
      assert CallOk(ViewOf(t), r, k);
    }
  }

  // ----- Failures

  /** Past its last message an operation whose interceptors did not reach execution has told its
      failure, and nothing else but `complete`: always in graphql-ws; in graphql-transport-ws never
      after an `error`, and otherwise unless it was stopped. */
  lemma FailureReported(d: Dialect, timeout: bool, t: State, i: nat)
    requires Reachable(d, timeout, t) && i < |t.runs| && !t.requestDone
    requires Closing(t.runs[i].pc) && !WillExecute(t.runs[i].plan)
    ensures var items := ItemsOf(t.log, ByOperation(i));
            var failure := FailureOf(d, t.runs[i].plan);
            var told := Told(d, t.runs[i].id, failure);
            var whole := told + [Message(t.runs[i].id, Complete)];
            && (items == told || items == whole)
            && (d.GraphqlWs? ==> items == whole)
            && (d.GraphqlTransportWs? && failure.Ordinary? ==> items == told)
            && (d.GraphqlTransportWs? && !failure.Ordinary? && !Stopped(ViewOf(t), t.runs[i]) ==> items == whole)
  {
    ReachableLocal(d, timeout, t, i);
    WholeFailure(ViewOf(t), t.runs[i]);
  }

  lemma WholeFailure(v: View, r: Run)
    requires WordsOk(v, r) && !v.requestDone && Closing(r.pc) && !WillExecute(r.plan)
    ensures var told := Told(v.dialect, r.id, r.failure);
            var whole := told + [Message(r.id, Complete)];
            && r.failure == FailureOf(v.dialect, r.plan)
            && (r.sent == told || r.sent == whole)
            && (v.dialect.GraphqlWs? ==> r.sent == whole)
            && (v.dialect.GraphqlTransportWs? && r.failure.Ordinary? ==> r.sent == told)
            && (v.dialect.GraphqlTransportWs? && !r.failure.Ordinary? && !Stopped(v, r) ==> r.sent == whole)
  {
    assert Reported(v, r) && OnPlan(v.dialect, r) && CompleteSent(v, r);
    ToldWord(v.dialect, r.id, r.failure);
  }

  lemma ToldWord(d: Dialect, id: string, failure: Failure)
    ensures var told := Told(d, id, failure);
            Kinds(told) == match failure
              case NoFailure => []
              case Ordinary => [Error]
              case Protocol(_) => if d.GraphqlWs? then [ConnectionError] else []
  {
    match failure
    case NoFailure =>
    case Ordinary => KindsAppend([], Message(id, Error));
    case Protocol(code) =>
      if d.GraphqlWs? {
        KindsAppend([], Message(id, ConnectionError));
        KindsAppend([Message(id, ConnectionError)], CloseWith(code));
      } else {
        KindsAppend([], CloseWith(code));
      }
  }

  predicate HasError(word: seq<Kind>) {
    Error in word || ConnectionError in word
  }

  /** The documentation has `complete` or `error` end an operation. In graphql-ws an error is
      followed by `complete`, and there is one exactly if the payload did not decode, or the
      interceptors returned a failure without having reached execution. */
  lemma ErrorThenCompleteIff(timeout: bool, t: State, i: nat)
    requires Reachable(GraphqlWs, timeout, t) && i < |t.runs| && !t.requestDone && Closing(t.runs[i].pc)
    ensures var word := Kinds(ItemsOf(t.log, ByOperation(i))); var plan := t.runs[i].plan;
            && Completed(word)
            && (HasError(word[..|word| - 1]) <==> !plan.decodes || (plan.calls == [] && !plan.outcome.NoFailure?))
  {
    ReachableLocal(GraphqlWs, timeout, t, i);
    var r := t.runs[i];
    if WillExecute(r.plan) {
      ExecutedWord(ViewOf(t), r);
    } else {
      FailureReported(GraphqlWs, timeout, t, i);
      ToldThenComplete(r.id, FailureOf(GraphqlWs, r.plan));
    }
  }

  lemma ExecutedWord(v: View, r: Run)
    requires WordsOk(v, r) && WillExecute(r.plan) && Closing(r.pc) && v.dialect.GraphqlWs? && !v.requestDone
    ensures r.executed && Completed(Kinds(r.sent)) && !HasError(Kinds(r.sent)[..|Kinds(r.sent)| - 1])
  {
    assert Exclusive(r) && OnPlan(v.dialect, r) && CompleteSent(v, r);
  }

  lemma ToldThenComplete(id: string, failure: Failure)
    ensures var word := Kinds(Told(GraphqlWs, id, failure) + [Message(id, Complete)]);
            Completed(word) && (HasError(word[..|word| - 1]) <==> !failure.NoFailure?)
  {
    var told := Told(GraphqlWs, id, failure);
    ToldWord(GraphqlWs, id, failure);
    KindsAppend(told, Message(id, Complete));
    assert (Kinds(told) + [Complete])[..|Kinds(told)|] == Kinds(told);
  }

  /** What a failure told in graphql-transport-ws contains, with or without `complete` after it. */
  lemma ToldTransport(id: string, failure: Failure, code: nat, items: seq<Item>)
    requires var told := Told(GraphqlTransportWs, id, failure);
             items == told || (items == told + [Message(id, Complete)] && !failure.Ordinary?)
    ensures HasError(Kinds(items)) <==> failure.Ordinary?
    ensures HasError(Kinds(items)) ==> Kinds(items) == [Error]
    ensures CloseWith(code) in items <==> failure == Protocol(code)
  {
    ToldWord(GraphqlTransportWs, id, failure);
    KindsAppend(Told(GraphqlTransportWs, id, failure), Message(id, Complete));
  }

  /** In graphql-transport-ws the `error` of an operation is alone, and there is one exactly if the
      interceptors returned an ordinary failure without having reached execution; a protocol failure
      is a close directive with its code. */
  lemma TransportFailureIff(timeout: bool, t: State, i: nat, code: nat)
    requires Reachable(GraphqlTransportWs, timeout, t) && i < |t.runs| && !t.requestDone && Closing(t.runs[i].pc)
    ensures var items := ItemsOf(t.log, ByOperation(i)); var plan := t.runs[i].plan;
            && (HasError(Kinds(items)) <==> plan.decodes && plan.calls == [] && plan.outcome.Ordinary?)
            && (HasError(Kinds(items)) ==> Kinds(items) == [Error])
            && (CloseWith(code) in items <==>
                  !WillExecute(plan) && FailureOf(GraphqlTransportWs, plan) == Protocol(code))
  {
    ReachableLocal(GraphqlTransportWs, timeout, t, i);
    var r := t.runs[i];
    if WillExecute(r.plan) {
      assert Exclusive(r) && OnPlan(GraphqlTransportWs, r) && r.executed;
      assert NoCloseOnceExecuted(r);
    } else {
      FailureReported(GraphqlTransportWs, timeout, t, i);
      ToldTransport(r.id, FailureOf(GraphqlTransportWs, r.plan), code, r.sent);
    }
  }

  // ----- Stopping

  ghost predicate Bounded(s: State, i: nat, bound: nat) {
    && Inv(s) && s.dialect.GraphqlTransportWs?
    && i < |s.runs| && Stopped(ViewOf(s), s.runs[i])
    && |s.runs[i].sent| + Allowance(s.runs[i]) <= bound
  }

  lemma StoppedRunStep(s: State, a: Action, i: nat)
    requires LocalsOk(s) && LaunchOk(s) && Enabled(s, a) && !Crashes(s, a)
    requires s.dialect.GraphqlTransportWs? && i < |s.runs| && Stopped(ViewOf(s), s.runs[i])
    ensures var t := Step(s, a);
            && i < |t.runs| && Stopped(ViewOf(t), t.runs[i])
            && |t.runs[i].sent| + Allowance(t.runs[i]) <= |s.runs[i].sent| + Allowance(s.runs[i])
  {
    ViewStep(s, a);
    if a.OperationGo? && a.run == i {
      AllowanceStep(ViewOf(s), Room(s), s.runs[i], a.turn);
    } else {
      TouchedByOthers(s, a, i);
      AllowanceTouched(s.runs[i], NextRuns(s, a)[i]);
    }
  }

  lemma AllowanceTouched(r: Run, r': Run)
    requires Touched(r, r')
    ensures r'.sent == r.sent && Allowance(r') == Allowance(r) && (r.stopped ==> r'.stopped)
  {
  }

  lemma BoundedStep(s: State, a: Action, i: nat, bound: nat)
    requires Bounded(s, i, bound) && Enabled(s, a)
    ensures Bounded(Step(s, a), i, bound)
  {
    InvStep(s, a);
    if !Crashes(s, a) { StoppedRunStep(s, a, i); }
  }

  lemma BoundedKept(i: nat, bound: nat)
    ensures Kept((s: State) => Bounded(s, i, bound))
  {
    forall s: State, a: Action | Bounded(s, i, bound) && Enabled(s, a) ensures Bounded(Step(s, a), i, bound) {
      BoundedStep(s, a, i, bound);
    }
  }

  /** In graphql-transport-ws, from the moment an operation is marked stopped no more items of it
      enter the channel than its allowance: one for each handler call past its stopped check, or
      else one of the goroutine's own. */
  lemma StopBound(d: Dialect, timeout: bool, s: State, i: nat, acts: seq<Action>, t: State)
    requires Reachable(d, timeout, s) && Leads(s, acts, t)
    requires d.GraphqlTransportWs? && i < |s.runs| && Stopped(ViewOf(s), s.runs[i])
    ensures |ItemsOf(t.log, ByOperation(i))| <= |ItemsOf(s.log, ByOperation(i))| + Allowance(s.runs[i])
  {
    InvReachable(d, timeout, s);
    SameDialect(d, timeout, s);
    var bound := |s.runs[i].sent| + Allowance(s.runs[i]);
    BoundedKept(i, bound);
    KeptLeads((x: State) => Bounded(x, i, bound), s, acts, t);
    assert Bounded(t, i, bound);
    assert ItemsOf(t.log, ByOperation(i)) == SentBy(t, i) && ItemsOf(s.log, ByOperation(i)) == SentBy(s, i);
  }

  /** At most one further item, whatever happens next, unless two handler calls are past the check. */
  lemma AtMostOneAfterStop(d: Dialect, timeout: bool, s: State, i: nat, acts: seq<Action>, t: State)
    requires Reachable(d, timeout, s) && Leads(s, acts, t)
    requires d.GraphqlTransportWs? && i < |s.runs| && Stopped(ViewOf(s), s.runs[i])
    requires CountSending(s.runs[i].active) <= 1
    ensures |ItemsOf(t.log, ByOperation(i))| <= |ItemsOf(s.log, ByOperation(i))| + 1
  {
    StopBound(d, timeout, s, i, acts, t);
    ReachableLocal(d, timeout, s, i);
    AllowanceIsOne(d, s.runs[i]);
  }

  /** Interceptors whose handler calls do not overlap keep the bound of one. */
  lemma AtMostOneInTurn(d: Dialect, timeout: bool, s: State, i: nat, acts: seq<Action>, t: State)
    requires Reachable(d, timeout, s) && Leads(s, acts, t)
    requires d.GraphqlTransportWs? && i < |s.runs| && Stopped(ViewOf(s), s.runs[i])
    requires !s.runs[i].overlapped
    ensures |ItemsOf(t.log, ByOperation(i))| <= |ItemsOf(s.log, ByOperation(i))| + 1
  {
    ReachableLocal(d, timeout, s, i);
    OneSending(s.runs[i].active);
    AtMostOneAfterStop(d, timeout, s, i, acts, t);
  }

  lemma AdvanceFlags(v: View, r: Run, m: Turn)
    ensures var r' := Advance(v, r, m);
            r'.id == r.id && (r.stopped ==> r'.stopped) && (r.executed ==> r'.executed)
  {
  }

  lemma RunFlags(s: State, a: Action, i: nat)
    requires LaunchOk(s) && Enabled(s, a) && i < |s.runs|
    ensures i < |NextRuns(s, a)|
    ensures var r' := NextRuns(s, a)[i];
            r'.id == s.runs[i].id && (s.runs[i].stopped ==> r'.stopped) && (s.runs[i].executed ==> r'.executed)
  {
    if a.OperationGo? && a.run == i {
      AdvanceFlags(ViewOf(s), s.runs[i], a.turn);
    } else {
      TouchedByOthers(s, a, i);
    }
  }

  /** Stopped and Executed are never reset. */
  lemma FlagsNeverReset(s: State, a: Action, i: nat)
    requires LaunchOk(s) && Enabled(s, a) && i < |s.runs|
    ensures var t := Step(s, a);
            && i < |t.runs| && t.runs[i].id == s.runs[i].id
            && (s.runs[i].stopped ==> t.runs[i].stopped)
            && (s.runs[i].executed ==> t.runs[i].executed)
            && (s.requestStopped ==> t.requestStopped)
  {
    if !Crashes(s, a) {
      RunFlags(s, a, i);
      RegistryFields(s, a);
      ViewStep(s, a);
    }
  }

  // ----- Operation IDs

  ghost predicate Ended(s: State, i: nat, items: seq<Item>) {
    Inv(s) && i < |s.runs| && !Live(s.runs[i]) && s.runs[i].sent == items
  }

  lemma EndedAdvance(v: View, room: bool, r: Run, m: Turn)
    requires CanStep(v, room, r, m) && !Live(r) && AllOver(r.active)
    ensures !Live(Advance(v, r, m)) && Advance(v, r, m).sent == r.sent
  {
  }

  lemma EndedRunStep(s: State, a: Action, i: nat)
    requires LaunchOk(s) && Retired(s) && Enabled(s, a) && i < |s.runs| && !Live(s.runs[i])
    ensures i < |NextRuns(s, a)| && !Live(NextRuns(s, a)[i]) && NextRuns(s, a)[i].sent == s.runs[i].sent
  {
    if a.OperationGo? && a.run == i {
      EndedAdvance(ViewOf(s), Room(s), s.runs[i], a.turn);
    } else {
      TouchedByOthers(s, a, i);
    }
  }

  lemma EndedStep(s: State, a: Action, i: nat, items: seq<Item>)
    requires Ended(s, i, items) && Enabled(s, a)
    ensures Ended(Step(s, a), i, items)
  {
    InvStep(s, a);
    CallsRetired(s);
    if !Crashes(s, a) { EndedRunStep(s, a, i); }
  }

  lemma EndedKept(i: nat, items: seq<Item>)
    ensures Kept((s: State) => Ended(s, i, items))
  {
    forall s: State, a: Action | Ended(s, i, items) && Enabled(s, a) ensures Ended(Step(s, a), i, items) {
      EndedStep(s, a, i, items);
    }
  }

  /** For every non-empty ID, the log restricted to the messages that carry it is the words of the
      runs that used the ID, one after the other; and of two runs that use one ID the earlier
      has enqueued its last item before the later one exists. */
  lemma WholeRunsPerId(d: Dialect, timeout: bool, s: State, id: string)
    requires Reachable(d, timeout, s) && id != ""
    ensures OnWire(s.log, id) == Blocks(s.runs, id)
    ensures forall i, j :: 0 <= i < j < |s.runs| && s.runs[i].id == s.runs[j].id ==> !Live(s.runs[i])
  {
    ReachableQueues(d, timeout, s);
    ReachableRuns(d, timeout, s);
  }

  lemma EndedRunsStaySilent(d: Dialect, timeout: bool, s: State, i: nat, acts: seq<Action>, t: State)
    requires Reachable(d, timeout, s) && Leads(s, acts, t) && i < |s.runs| && !Live(s.runs[i])
    ensures ItemsOf(t.log, ByOperation(i)) == ItemsOf(s.log, ByOperation(i))
  {
    InvReachable(d, timeout, s);
    EndedKept(i, s.runs[i].sent);
    KeptLeads((x: State) => Ended(x, i, s.runs[i].sent), s, acts, t);
    assert Ended(t, i, s.runs[i].sent);
    assert ItemsOf(t.log, ByOperation(i)) == SentBy(t, i) && ItemsOf(s.log, ByOperation(i)) == SentBy(s, i);
  }

  /** The operations map is exactly the registered and not yet deleted runs; an insertion never
      overwrites an entry, although lookup and insertion are separate steps; and a deletion removes
      the deleter's own entry. */
  lemma MapIsExact(d: Dialect, timeout: bool, s: State)
    requires Reachable(d, timeout, s)
    ensures forall id, i: nat :: (id in s.operations && s.operations[id] == i)
                        <==> (i < |s.runs| && s.runs[i].id == id && Live(s.runs[i]))
    ensures s.reader.Insert? ==> s.reader.id !in s.operations
    ensures forall i :: 0 <= i < |s.runs| && s.runs[i].pc.Unregister? ==>
              s.runs[i].id in s.operations && s.operations[s.runs[i].id] == i
  {
    ReachableRuns(d, timeout, s);
  }

  // ----- Closing

  /** No goroutine panics: the channel is closed once, nothing is sent on it afterwards, and the
      WaitGroup stays non-negative. Holds when no connection timeout is configured. */
  ghost predicate Calm(s: State) {
    Inv(s) && s.timer.Off? && !s.panicked
  }

  lemma NoCrash(s: State, a: Action)
    requires ShutdownOk(s) && CountOk(s) && LaunchOk(s) && Retired(s) && s.timer.Off? && Enabled(s, a)
    ensures !Crashes(s, a) && NextTimer(s, a).Off?
  {
    if Crashes(s, a) { OnlyTimerCrashes(s, a); }
  }

  lemma CalmStep(s: State, a: Action)
    requires Calm(s) && Enabled(s, a)
    ensures Calm(Step(s, a)) && !Crashes(s, a)
  {
    CallsRetired(s);
    NoCrash(s, a);
    InvStep(s, a);
  }

  lemma CalmKept()
    ensures Kept((s: State) => Calm(s))
  {
    forall s: State, a: Action | Calm(s) && Enabled(s, a) ensures Calm(Step(s, a)) {
      CalmStep(s, a);
    }
  }

  lemma NeverPanics(d: Dialect, t: State)
    requires Reachable(d, false, t)
    ensures !t.panicked && (t.closed <==> t.reader.Gone?)
    ensures t.closed ==> forall i :: 0 <= i < |t.runs| ==> t.runs[i].pc.Finished?
    ensures t.waitGroup == CountRuns(t.runs)
  {
    var acts :| Leads(Start0(d, false), acts, t);
    InvAtStart(d, false);
    CalmKept();
    KeptLeads((s: State) => Calm(s), Start0(d, false), acts, t);
    assert Calm(t);
  }

  // ----- Handshake

  /** At most one acknowledgement; in graphql-transport-ws no operation exists before an accepted
      init, and an operation's items follow the acknowledgement unless that was dropped, which
      takes a cancelled request. */
  lemma Handshake(d: Dialect, timeout: bool, t: State)
    requires Reachable(d, timeout, t)
    ensures AckedOnce(t.log)
    ensures d.GraphqlTransportWs? && t.runs != [] ==> InitEvent(NoFailure) in t.script
    ensures d.GraphqlTransportWs? && !t.ackDropped ==> AckFirst(t.log)
    ensures t.ackDropped ==> t.requestDone
  {
    ReachableHandshake(d, timeout, t);
  }

  // ----- The reader against the validator

  lemma StandsSays(pc: ReaderPc, init: bool, live: set<string>, v: Verdict)
    requires Stands(pc, init, live, v)
    ensures pc.Reading? ==> v == Accepting(init, live)
    ensures pc.Exit? ==> v == Rejected(pc.failure)
    ensures Leaving(pc) ==> v.Rejected?
    ensures v.Rejected? ==> Leaving(pc) || pc.Signal? || pc.InitCall?
  {
  }

  /** The reader accepts what the validator accepts, and the validator's IDs in use are those of the
      operations map: it stays in its loop while no rule is broken, acts on nothing after the first
      violation, and leaves with that violation's error. */
  lemma ReaderRefinesValidator(d: Dialect, timeout: bool, t: State)
    requires Reachable(d, timeout, t)
    ensures forall k :: 0 <= k < |t.script| && !t.script[k].EndedEvent? ==> Validate(d, t.script[..k]).Accepting?
    ensures t.reader.Reading? ==> Validate(d, t.script) == Accepting(t.init, t.operations.Keys)
    ensures t.reader.Exit? ==> Validate(d, t.script) == Rejected(t.reader.failure)
    ensures Leaving(t.reader) ==> Validate(d, t.script).Rejected?
    ensures Validate(d, t.script).Rejected? ==> Leaving(t.reader) || t.reader.Signal? || t.reader.InitCall?
  {
    ReachableReader(d, timeout, t);
    StandsSays(t.reader, t.init, LiveIds(t.reader, t.operations), Validate(d, t.script));
    assert t.operations.Keys + {} == t.operations.Keys;
  }

  predicate NoClose(items: seq<Item>) {
    forall k :: 0 <= k < |items| ==> !items[k].CloseWith?
  }

  lemma FarewellCloses(pc: ReaderPc, code: nat, items: seq<Item>)
    requires Silent(pc) && Speech(GraphqlTransportWs, pc, Rejected(Protocol(code)), items)
    ensures |items| > 0 && items[|items| - 1] == CloseWith(code) && NoClose(items[..|items| - 1])
  {
  }

  /** In graphql-transport-ws a protocol violation makes the reader enqueue exactly one close
      directive, with the violation's code, as its last item; it cannot be dropped. */
  lemma ViolationClosesOnce(timeout: bool, t: State, code: nat)
    requires Reachable(GraphqlTransportWs, timeout, t)
    requires Silent(t.reader) && Validate(GraphqlTransportWs, t.script) == Rejected(Protocol(code))
    ensures var items := ItemsOf(t.log, ByReader);
            |items| > 0 && items[|items| - 1] == CloseWith(code) && NoClose(items[..|items| - 1])
  {
    ReachableReader(GraphqlTransportWs, timeout, t);
    FarewellCloses(t.reader, code, ItemsOf(t.log, ByReader));
  }

  /** What the reader has acted upon: the script without the ends of operations. */
  function Heard(script: seq<Event>): seq<Event> {
    if script == [] then []
    else
      var last := script[|script| - 1];
      Heard(script[..|script| - 1]) + (if last.EndedEvent? then [] else [last])
  }

  lemma HeardAppend(script: seq<Event>, e: Event)
    ensures Heard(script + [e]) == Heard(script) + (if e.EndedEvent? then [] else [e])
  {
    assert (script + [e])[..|script|] == script;
  }

  ghost predicate Quiet(s: State, items: seq<Item>, heard: seq<Event>) {
    Inv(s) && Silent(s.reader) && s.readerSent == items && Heard(s.script) == heard
  }

  lemma SilentReader(s: State, a: Action)
    requires Silent(s.reader) && Enabled(s, a)
    ensures Silent(NextReader(s, a)) && NextReaderSent(s, a) == s.readerSent
    ensures Events(s, a) == [] || (|Events(s, a)| == 1 && Events(s, a)[0].EndedEvent?)
  {
  }

  lemma ReaderParts(s: State, a: Action)
    requires !Crashes(s, a)
    ensures var t := Step(s, a);
            && t.reader == NextReader(s, a) && t.readerSent == NextReaderSent(s, a)
            && t.script == s.script + Events(s, a)
  {
  }

  lemma StepReader(s: State, a: Action)
    ensures var t := Step(s, a);
            || (t.reader == s.reader && t.readerSent == s.readerSent && t.script == s.script)
            || (t.reader == NextReader(s, a) && t.readerSent == NextReaderSent(s, a)
                && t.script == s.script + Events(s, a))
  {
    if !Crashes(s, a) { ReaderParts(s, a); }
  }

  lemma SilentStep(s: State, a: Action)
    requires Silent(s.reader) && Enabled(s, a)
    ensures var t := Step(s, a); Silent(t.reader) && t.readerSent == s.readerSent && Heard(t.script) == Heard(s.script)
  {
    StepReader(s, a);
    SilentReader(s, a);
    if Events(s, a) == [] {
      assert s.script + [] == s.script;
    } else {
      assert Events(s, a) == [Events(s, a)[0]];
      HeardAppend(s.script, Events(s, a)[0]);
    }
  }

  lemma QuietStep(s: State, a: Action, items: seq<Item>, heard: seq<Event>)
    requires Quiet(s, items, heard) && Enabled(s, a)
    ensures Quiet(Step(s, a), items, heard)
  {
    InvStep(s, a);
    SilentStep(s, a);
  }

  lemma QuietKept(items: seq<Item>, heard: seq<Event>)
    ensures Kept((s: State) => Quiet(s, items, heard))
  {
    forall s: State, a: Action | Quiet(s, items, heard) && Enabled(s, a) ensures Quiet(Step(s, a), items, heard) {
      QuietStep(s, a, items, heard);
    }
  }

  /** A reader that has said goodbye neither reads nor sends again. */
  lemma SilentReaderStaysSilent(d: Dialect, timeout: bool, s: State, acts: seq<Action>, t: State)
    requires Reachable(d, timeout, s) && Leads(s, acts, t) && Silent(s.reader)
    ensures Silent(t.reader) && Heard(t.script) == Heard(s.script)
    ensures ItemsOf(t.log, ByReader) == ItemsOf(s.log, ByReader)
  {
    InvReachable(d, timeout, s);
    QuietKept(s.readerSent, Heard(s.script));
    KeptLeads((x: State) => Quiet(x, s.readerSent, Heard(s.script)), s, acts, t);
    assert Quiet(t, s.readerSent, Heard(s.script));
  }

  ghost predicate Talking(s: State) {
    Inv(s) && AnsweredOk(s) && TerminateOk(s)
  }

  lemma TalkingStep(s: State, a: Action)
    requires Talking(s) && Enabled(s, a)
    ensures Talking(Step(s, a))
  {
    InvStep(s, a);
    if !Crashes(s, a) {
      AnsweredStep(s, a);
      TerminateStep(s, a);
    }
  }

  lemma TalkingKept()
    ensures Kept((s: State) => Talking(s))
  {
    forall s: State, a: Action | Talking(s) && Enabled(s, a) ensures Talking(Step(s, a)) { TalkingStep(s, a); }
  }

  lemma ReachableTalking(d: Dialect, timeout: bool, t: State)
    requires Reachable(d, timeout, t)
    ensures Talking(t) && t.dialect == d
  {
    var acts :| Leads(Start0(d, timeout), acts, t);
    InvAtStart(d, timeout);
    TalkingKept();
    KeptLeads((s: State) => Talking(s), Start0(d, timeout), acts, t);
    assert Talking(t);
    SameDialect(d, timeout, t);
  }

  /** While the request lives and the reader is in its loop, everything the reader has enqueued is
      exactly one answer per accepted message, in the order of the messages, but for the answer it
      is about to give. */
  lemma AnswersInOrder(d: Dialect, timeout: bool, t: State)
    requires Reachable(d, timeout, t) && Conversing(t.reader) && !t.requestDone
    ensures ItemsOf(t.log, ByReader) + Owed(t.reader) == Answers(d, t.script)
  {
    ReachableTalking(d, timeout, t);
    assert ItemsOf(t.log, ByReader) == t.readerSent;
  }

  /** A graphql-ws terminate stops every operation, whenever it was registered. */
  lemma TerminateStopsOperations(timeout: bool, t: State, i: nat)
    requires Reachable(GraphqlWs, timeout, t) && i < |t.runs|
    requires TerminateEvent in t.script && !t.reader.TerminateMark?
    ensures Stopped(ViewOf(t), t.runs[i])
  {
    ReachableTalking(GraphqlWs, timeout, t);
  }

  // ----- Delivery

  /** First in, first out, nothing lost: enqueued is delivered then queued, at most one item is
      queued, and the frames attempted are the delivered items in order, once keepalives and
      reactions to failed writes are erased. When the writer returns, everything was delivered. */
  lemma FifoDelivery(d: Dialect, timeout: bool, t: State)
    requires Reachable(d, timeout, t)
    ensures t.log == t.delivered + t.queue && |t.queue| <= 1
    ensures Erase(t.frames) + InHand(t.writer) == t.delivered
    ensures t.writer.Returned? ==> t.closed && t.queue == [] && Erase(t.frames) == t.delivered == t.log
  {
    ReachableQueues(d, timeout, t);
  }
}
