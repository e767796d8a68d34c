/** A connection without a timeout never gets stuck, and once the reader leaves its loop it is torn
    down after boundedly many steps. */
module EngineTermination {
  import opened Apollows
  import opened Operation
  import opened Engine
  import opened EngineChannel
  import opened EngineRegistry
  import opened EngineSafety
  import opened EngineTheorems

  /** Everything has been torn down. */
  predicate Final(s: State) {
    && s.reader.Gone? && s.writer.Returned?
    && s.operations == map[] && s.waitGroup == 0 && s.requestDone
    && s.closed && s.queue == [] && s.delivered == s.log
    && (forall i :: 0 <= i < |s.runs| ==> s.runs[i].pc.Finished?)
  }

  // ----- The measure

  function CallsWeight(calls: seq<seq<Outcome>>): nat {
    if calls == [] then 0 else 2 + 6 * |calls[0]| + CallsWeight(calls[1..])
  }

  function CallWeight(call: Call): nat {
    match call.pc
    case Over => 0
    case Select => 1 + 6 * |call.rest|
    case SendData => 5 + 6 * |call.rest|
    case CheckData => 6 + 6 * |call.rest|
  }

  function ActiveWeight(calls: seq<Call>): nat {
    if calls == [] then 0 else ActiveWeight(calls[..|calls| - 1]) + CallWeight(calls[|calls| - 1])
  }

  function PcWeight(pc: Pc): nat {
    match pc
    case Finished => 0
    case WgDone => 1
    case Unregister => 2
    case CancelContext => 3
    case SendComplete => 7
    case CheckStopped => 8
    case SendClose => 12
    case SendError => 12
    case MarkStopped => 13
    case SendConnectionError => 16
    case CheckExecuted => 17
    case Intercept => 18
    case _ => 19
  }

  /** Steps an operation can still take, each send counted with what the writer does about it. */
  function RunWeight(r: Run): nat {
    PcWeight(r.pc) + CallsWeight(r.calls) + ActiveWeight(r.active)
  }

  function RunsWeight(rs: seq<Run>): nat {
    if rs == [] then 0 else RunsWeight(rs[..|rs| - 1]) + RunWeight(rs[|rs| - 1])
  }

  function ReaderWeight(pc: ReaderPc): nat {
    match pc
    case Gone => 0
    case CloseChannel => 1
    case Wait => 2
    case CancelRequestContext => 3
    case ExitError => 7
    case ExitClose(_) => 7
    case ExitConnectionError(_) => 11
    case _ => 12
  }

  function WriterWeight(pc: WriterPc): nat {
    match pc
    case Returned => 0
    case Idle => 1
    case Reacting => 2
    case _ => 3
  }

  function Total(s: State): nat {
    RunsWeight(s.runs) + ReaderWeight(s.reader) + 3 * |s.queue| + WriterWeight(s.writer)
  }

  lemma {:induction false} RunsWeightUpdate(rs: seq<Run>, i: nat, r: Run)
    requires i < |rs|
    ensures RunsWeight(rs[i := r]) + RunWeight(rs[i]) == RunsWeight(rs) + RunWeight(r)
  {
    var last := |rs| - 1;
    if i == last {
      assert rs[i := r][..last] == rs[..last];
    } else {
      assert rs[i := r][..last] == rs[..last][i := r];
      RunsWeightUpdate(rs[..last], i, r);
    }
  }

  lemma {:induction false} ActiveWeightUpdate(calls: seq<Call>, k: nat, call: Call)
    requires k < |calls|
    ensures ActiveWeight(calls[k := call]) + CallWeight(calls[k]) == ActiveWeight(calls) + CallWeight(call)
  {
    var last := |calls| - 1;
    if k == last {
      assert calls[k := call][..last] == calls[..last];
    } else {
      assert calls[k := call][..last] == calls[..last][k := call];
      ActiveWeightUpdate(calls[..last], k, call);
    }
  }

  lemma ActiveWeightNew(calls: seq<Call>, call: Call)
    ensures ActiveWeight(calls + [call]) == ActiveWeight(calls) + CallWeight(call)
  {
    assert (calls + [call])[..|calls|] == calls;
  }

  lemma CallDecreases(v: View, room: bool, r: Run, m: Turn)
    requires CanStep(v, room, r, m) && m.OfCall?
    ensures RunWeight(Advance(v, r, m)) < RunWeight(r)
    ensures Enqueues(r, m) ==> RunWeight(Advance(v, r, m)) + 4 <= RunWeight(r)
  {
    var skips := v.dialect.GraphqlTransportWs? && Stopped(v, r);
    ActiveWeightUpdate(r.active, m.call, NextCall(skips, r.active[m.call], m.choice));
  }

  lemma OwnDecreases(v: View, room: bool, r: Run, m: Turn)
    requires CanStep(v, room, r, m) && m.Own?
    ensures PcWeight(NextPc(v, r)) < PcWeight(r.pc)
    ensures Enqueues(r, m) ==> PcWeight(NextPc(v, r)) + 4 <= PcWeight(r.pc)
  {
  }

  lemma RunDecreases(v: View, room: bool, r: Run, m: Turn)
    requires CanStep(v, room, r, m)
    ensures RunWeight(Advance(v, r, m)) < RunWeight(r)
    ensures Enqueues(r, m) ==> RunWeight(Advance(v, r, m)) + 4 <= RunWeight(r)
  {
    if m.OfCall? {
      CallDecreases(v, room, r, m);
    } else if Begins(r, m) {
      ActiveWeightNew(r.active, NewCall(r.calls[0]));
    } else {
      OwnDecreases(v, room, r, m);
    }
  }

  /** Steps of the three kinds of goroutine themselves, as opposed to the passing of time, foreign
      cancellations and client messages. */
  predicate Internal(a: Action) {
    a.ReaderGo? || a.OperationGo? || a.WriterTake? || a.WriterWrite? || a.WriterReact? || a.WriterReturn?
  }

  ghost predicate Teardown(s: State) {
    Calm(s) && Leaving(s.reader)
  }

  lemma OperationDecreases(s: State, i: nat, m: Turn)
    requires Enabled(s, OperationGo(i, m)) && !Crashes(s, OperationGo(i, m))
    ensures Total(Step(s, OperationGo(i, m))) < Total(s)
  {
    var t := Step(s, OperationGo(i, m));
    var r' := Advance(ViewOf(s), s.runs[i], m);
    assert t.runs == s.runs[i := r'];
    RunDecreases(ViewOf(s), Room(s), s.runs[i], m);
    RunsWeightUpdate(s.runs, i, r');
    assert |t.queue| == |s.queue| + (if Enqueues(s.runs[i], m) then 1 else 0);
  }

  lemma ReaderDecreases(s: State, c: Choice)
    requires Leaving(s.reader) && ReaderCan(s, c)
    ensures Leaving(ReaderNext(s)) && NextRuns(s, ReaderGo(c)) == s.runs
    ensures ReaderWeight(ReaderNext(s)) + 3 * |Emitted(s, ReaderGo(c))| < ReaderWeight(s.reader)
  {
  }

  lemma WriterDecreases(s: State, a: Action)
    requires Enabled(s, a) && WriterAction(a)
    ensures 3 * |NextQueue(s, a)| + WriterWeight(NextWriter(s, a)) + (if a.WriterTick? then 0 else 1)
         <= 3 * |s.queue| + WriterWeight(s.writer) + (if a.WriterTick? then 2 else 0)
  {
  }

  lemma OthersDecrease(s: State, a: Action)
    requires Leaving(s.reader) && Enabled(s, a) && !Crashes(s, a) && Internal(a) && !a.OperationGo?
    ensures Total(Step(s, a)) < Total(s) && Leaving(Step(s, a).reader)
  {
    if a.ReaderGo? { ReaderDecreases(s, a.choice); } else { WriterDecreases(s, a); }
  }

  lemma EnvironmentRuns(s: State, a: Action)
    requires Enabled(s, a) && !Internal(a) && !a.TimerGo?
    ensures RunsWeight(NextRuns(s, a)) == RunsWeight(s.runs) && Emitted(s, a) == []
  {
    if a.Detach? { RunsWeightUpdate(s.runs, a.run, s.runs[a.run].(detached := true)); }
  }

  lemma EnvironmentKeeps(s: State, a: Action)
    requires Leaving(s.reader) && s.timer.Off? && Enabled(s, a) && !Crashes(s, a) && !Internal(a)
    ensures Total(Step(s, a)) <= Total(s) + (if a.WriterTick? then 2 else 0) && Leaving(Step(s, a).reader)
  {
    EnvironmentRuns(s, a);
  }

  function Work(acts: seq<Action>): nat {
    if acts == [] then 0 else (if Internal(acts[0]) then 1 else 0) + Work(acts[1..])
  }

  function Ticks(acts: seq<Action>): nat {
    if acts == [] then 0 else (if acts[0].WriterTick? then 1 else 0) + Ticks(acts[1..])
  }

  predicate Shrinks(s: State, a: Action, t: State) {
    Total(t) + (if Internal(a) then 1 else 0) <= Total(s) + (if a.WriterTick? then 2 else 0)
  }

  lemma ShrinkStep(s: State, a: Action)
    requires Leaving(s.reader) && s.timer.Off? && Enabled(s, a) && !Crashes(s, a)
    ensures Shrinks(s, a, Step(s, a)) && Leaving(Step(s, a).reader)
  {
    if a.OperationGo? {
      OperationDecreases(s, a.run, a.turn);
    } else if Internal(a) {
      OthersDecrease(s, a);
    } else {
      EnvironmentKeeps(s, a);
    }
  }

  lemma TeardownStep(s: State, a: Action)
    requires Teardown(s) && Enabled(s, a)
    ensures Teardown(Step(s, a)) && Shrinks(s, a, Step(s, a))
  {
    CalmStep(s, a);
    ShrinkStep(s, a);
  }

  lemma TeardownKept()
    ensures Kept((s: State) => Teardown(s))
  {
    forall s: State, a: Action | Teardown(s) && Enabled(s, a) ensures Teardown(Step(s, a)) { TeardownStep(s, a); }
  }

  ghost predicate Shrinking(p: State -> bool) {
    forall s: State, a: Action {:trigger p(Step(s, a))} :: p(s) && Enabled(s, a) ==> Shrinks(s, a, Step(s, a))
  }

  lemma {:induction false} ShrinkLeads(p: State -> bool, s: State, acts: seq<Action>, t: State)
    requires Kept(p) && Shrinking(p) && p(s) && Leads(s, acts, t)
    ensures Total(t) + Work(acts) <= Total(s) + 2 * Ticks(acts)
    decreases |acts|
  {
    LeadsRest(s, acts, t);
    if acts != [] {
      var u := Step(s, acts[0]);
      assert p(u);
      ShrinkLeads(p, u, acts[1..], t);
    }
  }

  lemma TeardownShrinks()
    ensures Shrinking((s: State) => Teardown(s))
  {
    forall s: State, a: Action | Teardown(s) && Enabled(s, a) ensures Shrinks(s, a, Step(s, a)) { TeardownStep(s, a); }
  }

  /** Once the reader has left its loop the goroutines together take boundedly many steps, apart
      from keepalives. */
  lemma TeardownBounded(d: Dialect, s: State, acts: seq<Action>, t: State)
    requires Reachable(d, false, s) && Leaving(s.reader) && Leads(s, acts, t)
    ensures Total(t) + Work(acts) <= Total(s) + 2 * Ticks(acts)
  {
    ReachableCalm(d, s);
    TeardownKept();
    TeardownShrinks();
    ShrinkLeads((x: State) => Teardown(x), s, acts, t);
  }

  // ----- Progress

  lemma {:induction false} SomeCounted(rs: seq<Run>) returns (i: nat)
    requires CountRuns(rs) > 0
    ensures i < |rs| && Counted(rs[i])
  {
    if Counted(rs[|rs| - 1]) {
      i := |rs| - 1;
    } else {
      i := SomeCounted(rs[..|rs| - 1]);
    }
  }

  /** An action that depends on no result still to come from a stream. */
  predicate Unaided(s: State, a: Action) {
    Internal(a) && !(a.OperationGo? && a.run < |s.runs| && Receives(s.runs[a.run], a.turn))
  }

  /** A step an unfinished operation can take without waiting for a result. */
  function NextTurn(r: Run): Turn {
    if !r.pc.Intercept? then Own(Proceed)
    else if r.calls != [] then Begin
    else if AllOver(r.active) then Own(Proceed)
    else
      var k := FirstRunning(r.active);
      OfCall(k, if k < |r.active| && r.active[k].pc.Select? then Abandon else Proceed)
  }

  function FirstRunning(calls: seq<Call>): (k: nat)
    ensures !AllOver(calls) ==> k < |calls| && !calls[k].pc.Over?
  {
    if calls == [] then 0 else if !calls[0].pc.Over? then 0
    else
      assert forall j :: 0 < j < |calls| ==> calls[j] == calls[1..][j - 1];
      FirstRunning(calls[1..]) + 1
  }

  lemma TurnIsOpen(v: View, r: Run)
    requires Counted(r) && !r.pc.Added? && v.requestDone
    ensures CanStep(v, true, r, NextTurn(r)) && !Receives(r, NextTurn(r))
  {
  }

  lemma WaitProgress(s: State) returns (a: Action)
    requires CountOk(s) && LaunchOk(s) && ShutdownOk(s) && !s.panicked && s.queue == [] && s.reader.Wait?
    ensures Enabled(s, a) && Unaided(s, a)
  {
    if s.waitGroup == 0 {
      a := ReaderGo(Proceed);
    } else {
      var i := SomeCounted(s.runs);
      TurnIsOpen(ViewOf(s), s.runs[i]);
      a := OperationGo(i, NextTurn(s.runs[i]));
    }
  }

  lemma LastStateIsFinal(s: State)
    requires RegistryOk(s) && CountOk(s) && ShutdownOk(s) && ChannelOk(s) && s.writer.Returned?
    ensures Final(s)
  {
    NoneCounted(s.runs);
    forall id ensures id !in s.operations {
      if id in s.operations { assert false; }
    }
    assert s.delivered + [] == s.delivered;
  }

  lemma {:induction false} NoneCounted(rs: seq<Run>)
    requires forall i :: 0 <= i < |rs| ==> !Counted(rs[i])
    ensures CountRuns(rs) == 0
  {
    if rs != [] { NoneCounted(rs[..|rs| - 1]); }
  }

  lemma WriterProgress(s: State) returns (a: Action)
    requires !s.panicked && !s.writer.Returned? && (!s.writer.Idle? || s.queue != [] || s.closed)
    ensures Enabled(s, a) && Internal(a) && WriterAction(a)
  {
    if s.writer.Reacting? {
      a := WriterReact;
    } else if !s.writer.Idle? {
      a := WriterWrite(true);
    } else if s.queue != [] {
      a := WriterTake;
    } else {
      a := WriterReturn;
    }
  }

  /** While the connection is being torn down some goroutine can always take a step of its own,
      without waiting for results, until everything is done. */
  lemma TeardownProgress(s: State) returns (a: Action)
    requires Teardown(s) && !Final(s)
    ensures Enabled(s, a) && Unaided(s, a)
  {
    if s.writer.Returned? {
      LastStateIsFinal(s);
      assert false;
    } else if !s.writer.Idle? || s.queue != [] || s.closed {
      a := WriterProgress(s);
    } else if s.reader.Wait? {
      a := WaitProgress(s);
    } else {
      a := ReaderGo(Proceed);
    }
  }

  predicate AllInternal(acts: seq<Action>) {
    forall k :: 0 <= k < |acts| ==> Internal(acts[k])
  }

  /** From every state of `p` that is not final, an internal step leads closer to the end. */
  ghost predicate Progresses(p: State -> bool) {
    forall s: State {:trigger p(s)} :: p(s) && !Final(s) ==>
      exists a, t :: Move(s, a, t) && Internal(a) && p(t) && Total(t) < Total(s)
  }

  lemma ProgressFirst(s: State, a: Action, u: State, acts: seq<Action>, t: State)
    requires Move(s, a, u) && Leads(u, acts, t) && Internal(a) && AllInternal(acts)
    ensures Leads(s, [a] + acts, t) && AllInternal([a] + acts)
  {
    LeadsFirst(s, a, u, acts, t);
  }

  lemma ProgressStep(p: State -> bool, s: State) returns (a: Action, u: State)
    requires Progresses(p) && p(s) && !Final(s)
    ensures Move(s, a, u) && Internal(a) && p(u) && Total(u) < Total(s)
  {
    a, u :| Move(s, a, u) && Internal(a) && p(u) && Total(u) < Total(s);
  }

  lemma {:induction false} ProgressCompletes(p: State -> bool, s: State) returns (acts: seq<Action>, t: State)
    requires Progresses(p) && p(s)
    ensures Leads(s, acts, t) && Final(t) && AllInternal(acts)
    decreases Total(s)
  {
    if Final(s) {
      acts, t := [], s;
      LeadsNone(s);
    } else {
      var a, u := ProgressStep(p, s);
      acts, t := ProgressCompletes(p, u);
      ProgressFirst(s, a, u, acts, t);
      acts := [a] + acts;
    }
  }

  lemma TeardownProgresses()
    ensures Progresses((s: State) => Teardown(s))
  {
    forall s: State | Teardown(s) && !Final(s)
      ensures exists a, t :: Move(s, a, t) && Internal(a) && Teardown(t) && Total(t) < Total(s)
    {
      var a := TeardownProgress(s);
      TeardownStep(s, a);
      assert Move(s, a, Step(s, a));
    }
  }

  /** The teardown reaches the final state: the goroutines can finish on their own. */
  lemma TeardownCompletes(s: State) returns (acts: seq<Action>, t: State)
    requires Teardown(s)
    ensures Leads(s, acts, t) && Final(t) && AllInternal(acts)
  {
    TeardownProgresses();
    acts, t := ProgressCompletes((x: State) => Teardown(x), s);
  }

  /** Without a timeout no reachable state is stuck: unless everything has been torn down, some
      goroutine can take a step of its own or the reader is waiting for the client. */
  lemma NeverStuck(d: Dialect, s: State) returns (a: Action)
    requires Reachable(d, false, s) && !Final(s)
    ensures Enabled(s, a) && (Unaided(s, a) || (s.reader.Reading? && a == ReceiveFailure))
  {
    ReachableCalm(d, s);
    if Leaving(s.reader) {
      a := TeardownProgress(s);
    } else if s.reader.Reading? {
      a := ReceiveFailure;
    } else {
      a := LoopProgress(s);
    }
  }

  lemma ReachableCalm(d: Dialect, s: State)
    requires Reachable(d, false, s)
    ensures Calm(s) && !s.reader.Signal?
  {
    var acts :| Leads(Start0(d, false), acts, s);
    InvAtStart(d, false);
    UnsignalledKept();
    KeptLeads((x: State) => Unsignalled(x), Start0(d, false), acts, s);
    assert Unsignalled(s);
  }

  /** The reader never waits for the timeout goroutine. */
  ghost predicate Unsignalled(s: State) {
    Calm(s) && !s.reader.Signal?
  }

  lemma UnsignalledReader(s: State, a: Action)
    requires s.timer.Off? && !s.reader.Signal?
    ensures !NextReader(s, a).Signal?
  {
  }

  lemma UnsignalledStep(s: State, a: Action)
    requires Unsignalled(s) && Enabled(s, a)
    ensures Unsignalled(Step(s, a)) && !Crashes(s, a)
  {
    CalmStep(s, a);
    UnsignalledReader(s, a);
  }

  lemma UnsignalledKept()
    ensures Kept((s: State) => Unsignalled(s))
  {
    forall s: State, a: Action | Unsignalled(s) && Enabled(s, a) ensures Unsignalled(Step(s, a)) {
      UnsignalledStep(s, a);
    }
  }

  lemma LoopProgress(s: State) returns (a: Action)
    requires !s.panicked && !Leaving(s.reader) && !s.reader.Reading? && !s.reader.Signal?
    requires !s.closed && |s.queue| <= 1 && (s.writer.Returned? ==> s.closed)
    ensures Enabled(s, a) && Unaided(s, a) && !a.OperationGo?
  {
    if ReaderSends(s.reader) && s.queue != [] {
      a := WriterProgress(s);
    } else {
      a := ReaderGo(Proceed);
    }
  }

  // ----- From the loop to the end

  function LoopRank(pc: ReaderPc): nat {
    match pc
    case Lookup(_, _) => 4
    case Insert(_, _) => 3
    case StopLookup(_) => 3
    case InitCall(_) => 2
    case WgAdd(_) => 2
    case StopMark(_) => 2
    case TerminateMark => 2
    case SendAck => 1
    case Spawn(_) => 1
    case StopCancel(_) => 1
    case SendTermination => 1
    case SendPong => 1
    case _ => 0
  }

  function LoopTotal(s: State): nat {
    8 * LoopRank(s.reader) + 3 * |s.queue| + WriterWeight(s.writer)
  }

  lemma LoopShrinks(s: State, a: Action)
    requires !Leaving(s.reader) && !s.reader.Reading? && !s.reader.Signal?
    requires Enabled(s, a) && !Crashes(s, a) && Internal(a) && !a.OperationGo?
    ensures LoopTotal(Step(s, a)) < LoopTotal(s)
  {
    var t := Step(s, a);
    assert t.queue == NextQueue(s, a) && t.reader == NextReader(s, a) && t.writer == NextWriter(s, a);
  }

  /** However a connection got where it is, it can still be torn down properly: the goroutines need
      no more than the client's disconnecting. */
  lemma {:induction false} CompletesFrom(s: State) returns (acts: seq<Action>, t: State)
    requires Unsignalled(s)
    ensures Leads(s, acts, t) && Final(t)
    decreases LoopTotal(s)
  {
    if Leaving(s.reader) {
      acts, t := TeardownCompletes(s);
    } else if s.reader.Reading? {
      CalmStep(s, ReceiveFailure);
      acts, t := TeardownCompletes(Step(s, ReceiveFailure));
      LeadsFirst(s, ReceiveFailure, Step(s, ReceiveFailure), acts, t);
      acts := [ReceiveFailure] + acts;
    } else {
      var a := LoopProgress(s);
      UnsignalledStep(s, a);
      LoopShrinks(s, a);
      acts, t := CompletesFrom(Step(s, a));
      LeadsFirst(s, a, Step(s, a), acts, t);
      acts := [a] + acts;
    }
  }

  lemma Completes(d: Dialect, s: State) returns (acts: seq<Action>, t: State)
    requires Reachable(d, false, s)
    ensures Leads(s, acts, t) && Final(t)
  {
    ReachableCalm(d, s);
    acts, t := CompletesFrom(s);
  }
}
