/** The operations map, the WaitGroup and the shutdown sequence. */
module EngineRegistry {
  import opened Operation
  import opened Engine

  /** The map holds exactly the registered and not yet deleted operations, each under its own ID;
      two operations share an ID only if the earlier one has been deleted. */
  predicate Exact(operations: map<string, nat>, runs: seq<Run>) {
    && (forall id :: id in operations ==>
          operations[id] < |runs| && runs[operations[id]].id == id && Live(runs[operations[id]]))
    && (forall i :: 0 <= i < |runs| && Live(runs[i]) ==> runs[i].id in operations && operations[runs[i].id] == i)
    && (forall i, j :: 0 <= i < j < |runs| && runs[i].id == runs[j].id ==> !Live(runs[i]))
  }

  predicate RegistryOk(s: State) {
    Exact(s.operations, s.runs) && (s.reader.Insert? ==> s.reader.id !in s.operations)
  }

  predicate Unlaunched(r: Run) {
    r.pc.Created? || r.pc.Added?
  }

  /** An operation waits for its `go` statement exactly while the reader is about to execute it. */
  predicate Launching(reader: ReaderPc, runs: seq<Run>) {
    && (forall i :: 0 <= i < |runs| && runs[i].pc.Created? ==> reader == WgAdd(i))
    && (forall i :: 0 <= i < |runs| && runs[i].pc.Added? ==> reader == Spawn(i))
    && (reader.WgAdd? ==> reader.run < |runs| && runs[reader.run].pc.Created?)
    && (reader.Spawn? ==> reader.run < |runs| && runs[reader.run].pc.Added?)
    && (reader.StopMark? ==> reader.run < |runs|)
    && (reader.StopCancel? ==> reader.run < |runs| && runs[reader.run].stopped)
  }

  predicate LaunchOk(s: State) {
    Launching(s.reader, s.runs)
  }

  /** The registry's part of a step. */
  lemma RegistryFields(s: State, a: Action)
    requires !Crashes(s, a)
    ensures var t := Step(s, a);
            t.reader == NextReader(s, a) && t.operations == NextOperations(s, a) && t.runs == NextRuns(s, a)
  {
  }

  lemma AdvanceRegistry(v: View, room: bool, r: Run, m: Turn)
    requires CanStep(v, room, r, m)
    ensures var r' := Advance(v, r, m);
            && r'.id == r.id
            && Live(r') == (Live(r) && !(m.Own? && r.pc.Unregister?))
            && (r.stopped ==> r'.stopped)
            && (r'.pc == r.pc || (!Unlaunched(r') && !Unlaunched(r)))
  {
    if !m.Own? {
      assert Advance(v, r, m).pc == r.pc;
    } else {
      assert Advance(v, r, m).pc == NextPc(v, r);
    }
  }

  /** Everything but the reader's insertion and an operation's own steps leaves identities alone. */
  predicate SameIdentities(rs: seq<Run>, rs': seq<Run>) {
    && |rs| == |rs'|
    && forall i :: 0 <= i < |rs| ==> rs'[i].id == rs[i].id && Live(rs'[i]) == Live(rs[i])
  }

  lemma IdentitiesKept(s: State, a: Action)
    requires LaunchOk(s) && Enabled(s, a) && !a.OperationGo? && !(a.ReaderGo? && s.reader.Insert?)
    ensures SameIdentities(s.runs, NextRuns(s, a))
  {
  }

  lemma QuietStep(s: State, a: Action)
    requires Enabled(s, a) && !a.OperationGo? && !(a.ReaderGo? && s.reader.Insert?)
    requires s.reader.Insert? ==> s.reader.id !in s.operations
    ensures NextOperations(s, a) == s.operations
    ensures NextReader(s, a).Insert? ==> NextReader(s, a).id !in s.operations
  {
  }

  lemma ExactAdvance(operations: map<string, nat>, runs: seq<Run>, i: nat, r': Run)
    requires Exact(operations, runs) && i < |runs| && r'.id == runs[i].id
    ensures Live(r') == Live(runs[i]) ==> Exact(operations, runs[i := r'])
    ensures Live(runs[i]) && !Live(r') ==> Exact(operations - {r'.id}, runs[i := r'])
  {
  }

  lemma ExactInsert(operations: map<string, nat>, runs: seq<Run>, r: Run)
    requires Exact(operations, runs) && r.id !in operations && Live(r)
    ensures Exact(operations[r.id := |runs|], runs + [r])
  {
  }

  lemma OperationRegistry(s: State, i: nat, m: Turn)
    requires RegistryOk(s) && Enabled(s, OperationGo(i, m))
    ensures Exact(NextOperations(s, OperationGo(i, m)), NextRuns(s, OperationGo(i, m)))
    ensures s.reader.Insert? ==> s.reader.id !in NextOperations(s, OperationGo(i, m))
  {
    AdvanceRegistry(ViewOf(s), Room(s), s.runs[i], m);
    ExactAdvance(s.operations, s.runs, i, Advance(ViewOf(s), s.runs[i], m));
  }

  lemma RegistryGoes(s: State, a: Action)
    requires RegistryOk(s) && LaunchOk(s) && Enabled(s, a)
    ensures Exact(NextOperations(s, a), NextRuns(s, a))
    ensures NextReader(s, a).Insert? ==> NextReader(s, a).id !in NextOperations(s, a)
  {
    if a.OperationGo? {
      OperationRegistry(s, a.run, a.turn);
    } else if a.ReaderGo? && s.reader.Insert? {
      ExactInsert(s.operations, s.runs, NewRun(s.reader.id, s.reader.plan));
    } else {
      IdentitiesKept(s, a);
      QuietStep(s, a);
    }
  }

  lemma RegistryStep(s: State, a: Action)
    requires RegistryOk(s) && LaunchOk(s) && Enabled(s, a)
    ensures RegistryOk(Step(s, a))
  {
    if !Crashes(s, a) {
      RegistryGoes(s, a);
      RegistryFields(s, a);
    }
  }

  lemma OperationLaunch(reader: ReaderPc, runs: seq<Run>, i: nat, r': Run)
    requires Launching(reader, runs) && i < |runs|
    requires (runs[i].stopped ==> r'.stopped) && (r'.pc == runs[i].pc || (!Unlaunched(r') && !Unlaunched(runs[i])))
    ensures Launching(reader, runs[i := r'])
  {
  }

  lemma LaunchInsert(s: State, c: Choice)
    requires LaunchOk(s) && s.reader.Insert?
    ensures Launching(ReaderNext(s), NextRuns(s, ReaderGo(c)))
  {
  }

  lemma LaunchAdd(s: State, c: Choice)
    requires LaunchOk(s) && s.reader.WgAdd?
    ensures Launching(ReaderNext(s), NextRuns(s, ReaderGo(c)))
  {
  }

  lemma LaunchSpawn(s: State, c: Choice)
    requires LaunchOk(s) && s.reader.Spawn?
    ensures Launching(ReaderNext(s), NextRuns(s, ReaderGo(c)))
  {
  }

  lemma LaunchStop(s: State, c: Choice)
    requires LaunchOk(s) && RegistryOk(s) && (s.reader.StopLookup? || s.reader.StopMark? || s.reader.StopCancel?)
    ensures Launching(ReaderNext(s), NextRuns(s, ReaderGo(c)))
  {
  }

  /** At every other program point the reader neither launches nor stops an operation. */
  lemma LaunchQuiet(s: State, c: Choice)
    requires LaunchOk(s) && !s.reader.Insert? && !s.reader.WgAdd? && !s.reader.Spawn?
    requires !s.reader.StopLookup? && !s.reader.StopMark? && !s.reader.StopCancel?
    ensures Launching(ReaderNext(s), NextRuns(s, ReaderGo(c)))
  {
  }

  lemma ReaderLaunch(s: State, c: Choice)
    requires LaunchOk(s) && RegistryOk(s)
    ensures Launching(ReaderNext(s), NextRuns(s, ReaderGo(c)))
  {
    match s.reader
    case Insert(_, _) => LaunchInsert(s, c);
    case WgAdd(_) => LaunchAdd(s, c);
    case Spawn(_) => LaunchSpawn(s, c);
    case StopLookup(_) => LaunchStop(s, c);
    case StopMark(_) => LaunchStop(s, c);
    case StopCancel(_) => LaunchStop(s, c);
    case _ => LaunchQuiet(s, c);
  }

  lemma LaunchGoes(s: State, a: Action)
    requires LaunchOk(s) && RegistryOk(s) && Enabled(s, a)
    ensures Launching(NextReader(s, a), NextRuns(s, a))
  {
    if a.OperationGo? {
      AdvanceRegistry(ViewOf(s), Room(s), s.runs[a.run], a.turn);
      OperationLaunch(s.reader, s.runs, a.run, Advance(ViewOf(s), s.runs[a.run], a.turn));
    } else if a.ReaderGo? {
      ReaderLaunch(s, a.choice);
    } else if a.Detach? {
      OperationLaunch(s.reader, s.runs, a.run, s.runs[a.run].(detached := true));
    }
  }

  lemma LaunchStep(s: State, a: Action)
    requires LaunchOk(s) && RegistryOk(s) && Enabled(s, a)
    ensures LaunchOk(Step(s, a))
  {
    if !Crashes(s, a) {
      LaunchGoes(s, a);
      RegistryFields(s, a);
    }
  }

  // ----- WaitGroup

  function Weight(r: Run): nat {
    if Counted(r) then 1 else 0
  }

  function CountRuns(rs: seq<Run>): nat {
    if rs == [] then 0 else CountRuns(rs[..|rs| - 1]) + Weight(rs[|rs| - 1])
  }

  lemma CountAppend(rs: seq<Run>, r: Run)
    ensures CountRuns(rs + [r]) == CountRuns(rs) + Weight(r)
  {
    assert (rs + [r])[..|rs|] == rs;
  }

  lemma {:induction false} CountUpdate(rs: seq<Run>, i: nat, r: Run)
    requires i < |rs|
    ensures CountRuns(rs[i := r]) == CountRuns(rs) - Weight(rs[i]) + Weight(r)
  {
    var last := |rs| - 1;
    if i == last {
      assert rs[i := r][..last] == rs[..last];
    } else {
      assert rs[i := r][..last] == rs[..last][i := r];
      CountUpdate(rs[..last], i, r);
    }
  }

  /** A WaitGroup at zero means that no started operation is unfinished. */
  lemma {:induction false} CountZero(rs: seq<Run>, i: nat)
    requires i < |rs| && CountRuns(rs) == 0
    ensures !Counted(rs[i])
  {
    if i < |rs| - 1 { CountZero(rs[..|rs| - 1], i); }
  }

  predicate CountOk(s: State) {
    s.waitGroup == CountRuns(s.runs)
  }

  lemma CountInsert(s: State)
    requires CountOk(s) && s.reader.Insert?
    ensures NextWaitGroup(s, ReaderGo(Proceed)) == CountRuns(NextRuns(s, ReaderGo(Proceed)))
  {
    CountAppend(s.runs, NewRun(s.reader.id, s.reader.plan));
  }

  lemma CountLaunch(s: State)
    requires CountOk(s) && LaunchOk(s) && (s.reader.WgAdd? || s.reader.Spawn?)
    ensures NextWaitGroup(s, ReaderGo(Proceed)) == CountRuns(NextRuns(s, ReaderGo(Proceed)))
  {
    CountUpdate(s.runs, s.reader.run, s.runs[s.reader.run].(pc := if s.reader.WgAdd? then Added else Decode));
  }

  lemma CountReaderStep(s: State)
    requires CountOk(s) && LaunchOk(s)
    ensures NextWaitGroup(s, ReaderGo(Proceed)) == CountRuns(NextRuns(s, ReaderGo(Proceed)))
  {
    match s.reader
    case Insert(_, _) => CountInsert(s);
    case WgAdd(_) => CountLaunch(s);
    case Spawn(_) => CountLaunch(s);
    case StopMark(i) => CountUpdate(s.runs, i, s.runs[i].(stopped := true));
    case StopCancel(i) => CountUpdate(s.runs, i, s.runs[i].(cancelled := true));
    case _ =>
  }

  lemma AdvanceWeight(v: View, room: bool, r: Run, m: Turn)
    requires CanStep(v, room, r, m)
    ensures Weight(Advance(v, r, m)) + (if m.Own? && r.pc.WgDone? then 1 else 0) == Weight(r)
  {
    if !m.Own? {
      assert Advance(v, r, m).pc == r.pc;
    } else {
      assert Advance(v, r, m).pc == NextPc(v, r);
    }
  }

  lemma CountOperationStep(s: State, i: nat, m: Turn)
    requires CountOk(s) && Enabled(s, OperationGo(i, m))
    ensures NextWaitGroup(s, OperationGo(i, m)) == CountRuns(NextRuns(s, OperationGo(i, m)))
  {
    AdvanceWeight(ViewOf(s), Room(s), s.runs[i], m);
    CountUpdate(s.runs, i, Advance(ViewOf(s), s.runs[i], m));
  }

  lemma CountStep(s: State, a: Action)
    requires CountOk(s) && LaunchOk(s) && Enabled(s, a)
    ensures NextWaitGroup(s, a) == CountRuns(NextRuns(s, a)) >= 0
  {
    if a.OperationGo? {
      CountOperationStep(s, a.run, a.turn);
    } else if a.ReaderGo? {
      CountReaderStep(s);
    } else if a.Detach? {
      CountUpdate(s.runs, a.run, s.runs[a.run].(detached := true));
    }
  }

  // ----- Shutdown

  predicate Leaving(pc: ReaderPc) {
    pc.Exit? || pc.ExitConnectionError? || pc.ExitClose? || pc.ExitError?
      || pc.CancelRequestContext? || pc.Wait? || pc.CloseChannel? || pc.Gone?
  }

  predicate AllFinished(runs: seq<Run>) {
    forall i :: 0 <= i < |runs| ==> runs[i].pc.Finished?
  }

  predicate ShutdownOk(s: State) {
    && (s.closed <==> s.reader.Gone?)
    && (s.reader.Wait? || s.reader.CloseChannel? || s.reader.Gone? ==> s.requestDone)
    && (s.reader.CloseChannel? || s.reader.Gone? ==> AllFinished(s.runs))
  }

  lemma NoneUnfinished(s: State)
    requires CountOk(s) && LaunchOk(s) && s.waitGroup == 0 && s.reader.Wait?
    ensures AllFinished(s.runs)
  {
    forall i | 0 <= i < |s.runs| ensures s.runs[i].pc.Finished? { CountZero(s.runs, i); }
  }

  lemma FinishedKept(s: State, a: Action)
    requires AllFinished(s.runs) && Enabled(s, a) && !(a.ReaderGo? && s.reader.Insert?) && LaunchOk(s)
    ensures AllFinished(NextRuns(s, a))
  {
  }

  lemma ShutdownGoes(s: State, a: Action)
    requires ShutdownOk(s) && CountOk(s) && LaunchOk(s) && Enabled(s, a)
    ensures var pc := NextReader(s, a);
            && (pc.Wait? || pc.CloseChannel? || pc.Gone?
                ==> s.requestDone || (a.ReaderGo? && s.reader.CancelRequestContext?))
            && (pc.CloseChannel? || pc.Gone? ==> AllFinished(NextRuns(s, a)))
            && (pc.Gone? <==> s.closed || (a.ReaderGo? && s.reader.CloseChannel?))
  {
    if a.ReaderGo? && s.reader.Wait? {
      NoneUnfinished(s);
    } else if s.reader.CloseChannel? || s.reader.Gone? {
      FinishedKept(s, a);
    }
  }

  lemma ShutdownStep(s: State, a: Action)
    requires ShutdownOk(s) && CountOk(s) && LaunchOk(s) && Enabled(s, a) && !Crashes(s, a)
    ensures ShutdownOk(Step(s, a))
  {
    ShutdownGoes(s, a);
    RegistryFields(s, a);
  }

  /** No handler call outlives its operation. */
  predicate Retired(s: State) {
    forall i :: 0 <= i < |s.runs| && !Live(s.runs[i]) ==> AllOver(s.runs[i].active)
  }

  /** Only the timeout goroutine can ever send on the closed channel; nothing closes it twice and
      the WaitGroup never goes negative. */
  lemma OnlyTimerCrashes(s: State, a: Action)
    requires ShutdownOk(s) && CountOk(s) && LaunchOk(s) && Retired(s) && Enabled(s, a) && Crashes(s, a)
    ensures a.TimerGo? && !s.timer.Off?
  {
    CountStep(s, a);
  }
}
