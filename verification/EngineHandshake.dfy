/** The connection handshake: one acknowledgement at most, and none of an operation's messages
    before it. */
module EngineHandshake {
  import opened Apollows
  import opened Engine
  import opened EngineRegistry
  import opened EngineReader

  predicate IsAck(e: Entry) {
    e.item == Message("", ConnectionAck)
  }

  predicate Acked(log: seq<Entry>) {
    exists p :: 0 <= p < |log| && IsAck(log[p])
  }

  predicate AckedOnce(log: seq<Entry>) {
    forall p, q :: 0 <= p < q < |log| ==> !(IsAck(log[p]) && IsAck(log[q]))
  }

  /** Everything an operation enqueued comes after the acknowledgement. */
  predicate AckFirst(log: seq<Entry>) {
    forall q :: 0 <= q < |log| && log[q].origin.ByOperation? ==> exists p :: 0 <= p < q && IsAck(log[p])
  }

  /** No acknowledgement has been attempted yet. */
  predicate BeforeAck(s: State) {
    !s.init || s.reader.Signal? || s.reader.InitCall? || s.reader.SendAck?
  }

  predicate HandshakeOk(s: State) {
    && AckedOnce(s.log)
    && (BeforeAck(s) ==> !Acked(s.log) && !s.ackDropped)
    && (s.ackDropped ==> s.requestDone)
    && (s.init && !BeforeAck(s) && !Leaving(s.reader) ==> Acked(s.log) || s.ackDropped)
    && (s.dialect.GraphqlTransportWs? && s.runs != [] ==>
          !BeforeAck(s) && (Acked(s.log) || s.ackDropped) && InitEvent(NoFailure) in s.script)
    && (s.dialect.GraphqlTransportWs? && !s.ackDropped ==> AckFirst(s.log))
  }

  /** Having accepted an init means that a successful init is in the script. */
  lemma {:induction false} AcceptedInit(d: Dialect, script: seq<Event>)
    requires Validate(d, script).Accepting? && Validate(d, script).init
    ensures InitEvent(NoFailure) in script
  {
    if Validate(d, script[..|script| - 1]).init {
      AcceptedInit(d, script[..|script| - 1]);
    } else {
      assert script[|script| - 1] == InitEvent(NoFailure);
    }
  }

  lemma AckOnlyFromReader(s: State, a: Action)
    requires Enabled(s, a) && Emitted(s, a) != []
    ensures IsAck(Emitted(s, a)[0]) <==> a.ReaderGo? && s.reader.SendAck?
    ensures Emitted(s, a)[0].origin.ByOperation? <==> a.OperationGo?
  {
  }

  lemma LogGrows(log: seq<Entry>, e: Entry)
    ensures Acked(log + [e]) <==> Acked(log) || IsAck(e)
    ensures AckedOnce(log) && !(Acked(log) && IsAck(e)) ==> AckedOnce(log + [e])
    ensures AckFirst(log) && (e.origin.ByOperation? ==> Acked(log)) ==> AckFirst(log + [e])
  {
    var log' := log + [e];
    assert forall p :: 0 <= p < |log| ==> log'[p] == log[p];
    if Acked(log) {
      var p :| 0 <= p < |log| && IsAck(log[p]);
      assert IsAck(log'[p]);
    }
    if IsAck(e) { assert IsAck(log'[|log|]); }
    if AckFirst(log) && (e.origin.ByOperation? ==> Acked(log)) {
      forall q | 0 <= q < |log'| && log'[q].origin.ByOperation? ensures exists p :: 0 <= p < q && IsAck(log'[p]) {
        if q < |log| {
          var p :| 0 <= p < q && IsAck(log[p]);
          assert IsAck(log'[p]);
        } else {
          var p :| 0 <= p < |log| && IsAck(log[p]);
          assert IsAck(log'[p]);
        }
      }
    }
  }

  /** The log's part of the invariant. */
  lemma AckStep(s: State, a: Action)
    requires HandshakeOk(s) && Enabled(s, a)
    ensures AckedOnce(s.log + Emitted(s, a))
    ensures Acked(s.log + Emitted(s, a)) <==> Acked(s.log) || (a.ReaderGo? && s.reader.SendAck? && Emitted(s, a) != [])
    ensures s.dialect.GraphqlTransportWs? && !s.ackDropped ==> AckFirst(s.log + Emitted(s, a))
  {
    if Emitted(s, a) == [] {
      assert s.log + [] == s.log;
    } else {
      AckOnlyFromReader(s, a);
      assert Emitted(s, a) == [Emitted(s, a)[0]];
      LogGrows(s.log, Emitted(s, a)[0]);
    }
  }

  predicate FlagsOk(s: State) {
    && (s.ackDropped ==> s.requestDone)
    && (BeforeAck(s) ==> !s.ackDropped)
  }

  lemma FlagsStep(s: State, a: Action)
    requires HandshakeOk(s) && VerdictOk(s) && Enabled(s, a) && !Crashes(s, a)
    ensures FlagsOk(Step(s, a))
    ensures BeforeAck(Step(s, a)) ==> BeforeAck(s) && !(a.ReaderGo? && s.reader.SendAck?)
  {
    var t := Step(s, a);
    assert t.reader == NextReader(s, a);
  }

  /** Where the acknowledgement has been attempted, it is in the log or was dropped. */
  lemma AttemptedStep(s: State, a: Action)
    requires HandshakeOk(s) && VerdictOk(s) && Enabled(s, a) && !Crashes(s, a)
    ensures var t := Step(s, a);
            t.init && !BeforeAck(t) && !Leaving(t.reader) ==> Acked(t.log) || t.ackDropped
  {
    AckStep(s, a);
    var t := Step(s, a);
    assert t.reader == NextReader(s, a);
    assert t.log == s.log + Emitted(s, a);
  }

  lemma RegisteredStep(s: State, a: Action)
    requires HandshakeOk(s) && VerdictOk(s) && Authorized(s) && Enabled(s, a) && !Crashes(s, a)
    requires s.dialect.GraphqlTransportWs? && Step(s, a).runs != []
    ensures var t := Step(s, a); !BeforeAck(t) && (Acked(t.log) || t.ackDropped) && InitEvent(NoFailure) in t.script
  {
    AckStep(s, a);
    FlagsStep(s, a);
    var t := Step(s, a);
    assert t.runs == NextRuns(s, a);
    assert t.log == s.log + Emitted(s, a);
    if s.runs == [] {
      assert a.ReaderGo? && s.reader.Insert?;
      AcceptedInit(s.dialect, s.script);
    }
  }

  lemma HandshakeStep(s: State, a: Action)
    requires HandshakeOk(s) && VerdictOk(s) && Authorized(s) && Enabled(s, a) && !Crashes(s, a)
    ensures HandshakeOk(Step(s, a))
  {
    AckStep(s, a);
    FlagsStep(s, a);
    AttemptedStep(s, a);
    var t := Step(s, a);
    assert t.log == s.log + Emitted(s, a);
    if s.dialect.GraphqlTransportWs? && t.runs != [] { RegisteredStep(s, a); }
  }
}
