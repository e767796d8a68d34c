/** What holds in every state of every interleaving. */
module EngineSafety {
  import opened Apollows
  import opened Operation
  import opened OperationSafety
  import opened Engine
  import opened EngineChannel
  import opened EngineRegistry
  import opened EngineReader
  import opened EngineHandshake
  import opened EngineWire

  predicate LocalsOk(s: State) {
    forall i :: 0 <= i < |s.runs| ==> LocalOk(ViewOf(s), s.runs[i])
  }

  /** The reader and the environment touch a run only by launching it or by setting flags. */
  predicate Touched(r: Run, r': Run) {
    || Disturbed(r, r')
    || (r.pc.Created? && r' == r.(pc := Added))
    || (r.pc.Added? && r' == r.(pc := Decode))
  }

  lemma LocalOkTouched(v: View, v': View, r: Run, r': Run)
    requires LocalOk(v, r) && Later(v, v') && Touched(r, r')
    ensures LocalOk(v', r')
  {
    if Disturbed(r, r') { LocalOkDisturbed(v, v', r, r'); } else { LocalOkDisturbed(v, v', r, r); }
  }

  lemma TouchedByOthers(s: State, a: Action, i: nat)
    requires LaunchOk(s) && Enabled(s, a) && i < |s.runs| && !(a.OperationGo? && a.run == i)
    ensures i < |NextRuns(s, a)| && Touched(s.runs[i], NextRuns(s, a)[i])
  {
  }

  lemma ViewStep(s: State, a: Action)
    requires Enabled(s, a) && !Crashes(s, a)
    ensures Later(ViewOf(s), ViewOf(Step(s, a)))
    ensures a.OperationGo? ==> ViewOf(Step(s, a)) == ViewOf(s)
  {
  }

  /** Runs are only ever added at the end, and only as new ones. */
  lemma RunsGrow(s: State, a: Action)
    requires Enabled(s, a)
    ensures |s.runs| <= |NextRuns(s, a)| <= |s.runs| + 1
    ensures |NextRuns(s, a)| > |s.runs| ==>
              s.reader.Insert? && NextRuns(s, a)[|s.runs|] == NewRun(s.reader.id, s.reader.plan)
  {
  }

  lemma LocalsStep(s: State, a: Action)
    requires s.awaits && LocalsOk(s) && LaunchOk(s) && Enabled(s, a) && !Crashes(s, a)
    ensures LocalsOk(Step(s, a))
  {
    var t := Step(s, a);
    assert t.runs == NextRuns(s, a);
    ViewStep(s, a);
    RunsGrow(s, a);
    forall i | 0 <= i < |t.runs| ensures LocalOk(ViewOf(t), t.runs[i]) {
      if i == |s.runs| {
        LocalOkAtStart(ViewOf(t), s.reader.id, s.reader.plan);
      } else if a.OperationGo? && a.run == i {
        LocalOkStep(ViewOf(s), Room(s), s.runs[i], a.turn);
      } else {
        TouchedByOthers(s, a, i);
        LocalOkTouched(ViewOf(s), ViewOf(t), s.runs[i], t.runs[i]);
      }
    }
  }

  /** The handler calls of an operation end before it does. */
  lemma CallsRetired(s: State)
    requires LocalsOk(s)
    ensures Retired(s)
  {
    forall i | 0 <= i < |s.runs| && !Live(s.runs[i]) ensures AllOver(s.runs[i].active) {
      assert LocalOk(ViewOf(s), s.runs[i]);
    }
  }

  ghost predicate Inv(s: State) {
    && s.awaits
    && ChannelOk(s) && HistoryOk(s)
    && RegistryOk(s) && LaunchOk(s) && CountOk(s) && ShutdownOk(s)
    && LocalsOk(s)
    && ReaderOk(s) && SpeechOk(s)
    && HandshakeOk(s)
    && WireOk(s)
  }

  lemma QueuesAtStart(d: Dialect, timeout: bool)
    ensures var s := Start0(d, timeout); ChannelOk(s) && HistoryOk(s) && WireOk(s)
  {
  }

  lemma RunsAtStart(d: Dialect, timeout: bool)
    ensures var s := Start0(d, timeout);
            RegistryOk(s) && LaunchOk(s) && CountOk(s) && ShutdownOk(s) && LocalsOk(s)
  {
  }

  lemma ReaderAtStart(d: Dialect, timeout: bool)
    ensures var s := Start0(d, timeout); ReaderOk(s) && SpeechOk(s) && HandshakeOk(s)
  {
  }

  lemma InvAtStart(d: Dialect, timeout: bool)
    ensures Inv(Start0(d, timeout))
  {
    QueuesAtStart(d, timeout);
    RunsAtStart(d, timeout);
    ReaderAtStart(d, timeout);
  }

  lemma QueuesAfterCrash(s: State)
    requires ChannelOk(s) && HistoryOk(s) && WireOk(s)
    ensures var t := s.(panicked := true); ChannelOk(t) && HistoryOk(t) && WireOk(t)
  {
    assert forall i: nat :: SentBy(s.(panicked := true), i) == SentBy(s, i);
  }

  lemma RunsAfterCrash(s: State)
    requires RegistryOk(s) && LaunchOk(s) && CountOk(s) && ShutdownOk(s) && LocalsOk(s)
    ensures var t := s.(panicked := true);
            RegistryOk(t) && LaunchOk(t) && CountOk(t) && ShutdownOk(t) && LocalsOk(t)
  {
    assert ViewOf(s.(panicked := true)) == ViewOf(s);
  }

  lemma ReaderAfterCrash(s: State)
    requires ReaderOk(s) && SpeechOk(s) && HandshakeOk(s)
    ensures var t := s.(panicked := true); ReaderOk(t) && SpeechOk(t) && HandshakeOk(t)
  {
  }

  lemma InvAfterCrash(s: State)
    requires Inv(s)
    ensures Inv(s.(panicked := true))
  {
    QueuesAfterCrash(s);
    RunsAfterCrash(s);
    ReaderAfterCrash(s);
  }

  lemma InvStep(s: State, a: Action)
    requires Inv(s) && Enabled(s, a)
    ensures Inv(Step(s, a))
  {
    if Crashes(s, a) {
      InvAfterCrash(s);
    } else {
      CallsRetired(s);
      ChannelStep(s, a);
      HistoryStep(s, a);
      RegistryStep(s, a);
      LaunchStep(s, a);
      CountStep(s, a);
      ShutdownStep(s, a);
      LocalsStep(s, a);
      ReaderStep(s, a);
      SpeechStep(s, a);
      HandshakeStep(s, a);
      WireStep(s, a);
    }
  }

  /** A state predicate every enabled step keeps. */
  ghost predicate Kept(p: State -> bool) {
    forall s: State, a: Action {:trigger p(Step(s, a))} :: p(s) && Enabled(s, a) ==> p(Step(s, a))
  }

  lemma {:induction false} KeptLeads(p: State -> bool, s: State, acts: seq<Action>, t: State)
    requires Kept(p) && p(s) && Leads(s, acts, t)
    ensures p(t)
    decreases |acts|
  {
    LeadsRest(s, acts, t);
    if acts != [] {
      KeptLeads(p, Step(s, acts[0]), acts[1..], t);
    }
  }

  lemma InvKept()
    ensures Kept(s => Inv(s))
  {
    forall s: State, a: Action | Inv(s) && Enabled(s, a) ensures Inv(Step(s, a)) {
      InvStep(s, a);
    }
  }

  lemma InvLeads(s: State, acts: seq<Action>, t: State)
    requires Inv(s) && Leads(s, acts, t)
    ensures Inv(t)
  {
    InvKept();
    KeptLeads(x => Inv(x), s, acts, t);
  }

  lemma InvReachable(d: Dialect, timeout: bool, t: State)
    requires Reachable(d, timeout, t)
    ensures Inv(t)
  {
    var acts :| Leads(Start0(d, timeout), acts, t);
    InvAtStart(d, timeout);
    InvLeads(Start0(d, timeout), acts, t);
  }

  // ----- The invariant's parts, in reachable states

  lemma DialectKept(d: Dialect)
    ensures Kept((s: State) => s.dialect == d)
  {
  }

  lemma SameDialect(d: Dialect, timeout: bool, t: State)
    requires Reachable(d, timeout, t)
    ensures t.dialect == d
  {
    var acts :| Leads(Start0(d, timeout), acts, t);
    DialectKept(d);
    KeptLeads((s: State) => s.dialect == d, Start0(d, timeout), acts, t);
  }

  lemma ReachableQueues(d: Dialect, timeout: bool, t: State)
    requires Reachable(d, timeout, t)
    ensures ChannelOk(t) && HistoryOk(t) && WireOk(t) && t.dialect == d
  {
    InvReachable(d, timeout, t);
    SameDialect(d, timeout, t);
  }

  lemma ReachableRuns(d: Dialect, timeout: bool, t: State)
    requires Reachable(d, timeout, t)
    ensures RegistryOk(t) && LaunchOk(t) && CountOk(t) && ShutdownOk(t) && t.dialect == d
  {
    InvReachable(d, timeout, t);
    SameDialect(d, timeout, t);
  }

  /** Each operation is locally sound, and its history is its part of the log. */
  lemma ReachableLocal(d: Dialect, timeout: bool, t: State, i: nat)
    requires Reachable(d, timeout, t) && i < |t.runs|
    ensures LocalOk(ViewOf(t), t.runs[i]) && ItemsOf(t.log, ByOperation(i)) == t.runs[i].sent && t.dialect == d
  {
    InvReachable(d, timeout, t);
    SameDialect(d, timeout, t);
    assert ItemsOf(t.log, ByOperation(i)) == SentBy(t, i);
  }

  lemma ReachableReader(d: Dialect, timeout: bool, t: State)
    requires Reachable(d, timeout, t)
    ensures Stands(t.reader, t.init, LiveIds(t.reader, t.operations), Validate(d, t.script)) && FirstViolation(t)
    ensures t.dialect == d
    ensures Speech(d, t.reader, Validate(d, t.script), ItemsOf(t.log, ByReader))
    ensures ItemsOf(t.log, ByReader) == t.readerSent
  {
    InvReachable(d, timeout, t);
    SameDialect(d, timeout, t);
  }

  lemma ReachableHandshake(d: Dialect, timeout: bool, t: State)
    requires Reachable(d, timeout, t)
    ensures HandshakeOk(t) && t.dialect == d
  {
    InvReachable(d, timeout, t);
    SameDialect(d, timeout, t);
  }
}
