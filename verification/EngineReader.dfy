/** The reader as an implementation of an abstract validator over client messages, and the
    connection handshake. */
module EngineReader {
  import opened Apollows
  import opened Operation
  import opened Engine
  import opened EngineRegistry

  // ----- The abstract validator

  /** `live` are the IDs in use, which the validator tracks by itself. */
  datatype Verdict = Accepting(init: bool, live: set<string>) | Rejected(failure: Failure)

  /** The protocol's rules, one client message, or end of an operation, at a time. */
  function Judge(d: Dialect, v: Verdict, e: Event): Verdict {
    if v.Rejected? then v
    else match e
      case InitEvent(outcome) =>
        if v.init then Rejected(Protocol(TOO_MANY_INITIALIZATION_REQUESTS))
        else if outcome.NoFailure? then v.(init := true) else Rejected(outcome)
      case StartEvent(id) =>
        if d.GraphqlTransportWs? && !v.init then Rejected(Protocol(UNAUTHORIZED))
        else if id in v.live then Rejected(Protocol(SUBSCRIBER_ALREADY_EXISTS))
        else v.(live := v.live + {id})
      case StopEvent => if d.GraphqlTransportWs? && !v.init then Rejected(Protocol(UNAUTHORIZED)) else v
      case TerminateEvent => if d.GraphqlTransportWs? then Rejected(Protocol(UNAUTHORIZED)) else v
      case PingEvent => v
      case OtherEvent => v
      case FailureEvent => Rejected(Ordinary)
      case EndedEvent(id) => v.(live := v.live - {id})
  }

  function Validate(d: Dialect, script: seq<Event>): Verdict {
    if script == [] then Accepting(false, {})
    else Judge(d, Validate(d, script[..|script| - 1]), script[|script| - 1])
  }

  lemma ValidateAppend(d: Dialect, script: seq<Event>, e: Event)
    ensures Validate(d, script + [e]) == Judge(d, Validate(d, script), e)
  {
    assert (script + [e])[..|script|] == script;
  }

  /** A reader whose loop has been left or is about to be. */
  predicate Refusing(v: Verdict) {
    v.Rejected? && !v.failure.NoFailure?
  }

  /** The IDs in use as the validator should have them: those in the map, and the one the reader
      has looked up and is about to insert. */
  function LiveIds(reader: ReaderPc, operations: map<string, nat>): set<string> {
    operations.Keys + (if reader.Insert? then {reader.id} else {})
  }

  /** Where the reader stands, according to the validator. */
  predicate Stands(pc: ReaderPc, init: bool, live: set<string>, v: Verdict) {
    match pc
    case Signal(outcome) => init && v == (if outcome.NoFailure? then Accepting(true, live) else Rejected(outcome))
    case InitCall(outcome) => init && v == (if outcome.NoFailure? then Accepting(true, live) else Rejected(outcome))
    case SendAck => init && v == Accepting(true, live)
    case Exit(failure) => v == Rejected(failure) && !failure.NoFailure?
    case ExitConnectionError(code) => v == Rejected(Protocol(code))
    case ExitClose(code) => v == Rejected(Protocol(code))
    case ExitError => v == Rejected(Ordinary)
    case CancelRequestContext => Refusing(v)
    case Wait => Refusing(v)
    case CloseChannel => Refusing(v)
    case Gone => Refusing(v)
    case _ => v == Accepting(init, live)
  }

  predicate VerdictOk(s: State) {
    Stands(s.reader, s.init, LiveIds(s.reader, s.operations), Validate(s.dialect, s.script))
  }

  /** The reader acts on nothing after the first violation. */
  predicate FirstViolation(s: State) {
    forall k :: 0 <= k < |s.script| && !s.script[k].EndedEvent? ==> Validate(s.dialect, s.script[..k]).Accepting?
  }

  predicate Registering(pc: ReaderPc) {
    pc.Lookup? || pc.Insert? || pc.WgAdd? || pc.Spawn?
  }

  predicate Authorized(s: State) {
    s.dialect.GraphqlTransportWs? && Registering(s.reader) ==> s.init
  }

  predicate ReaderOk(s: State) {
    VerdictOk(s) && FirstViolation(s) && Authorized(s)
  }

  lemma EventsValidated(s: State, a: Action)
    ensures |Events(s, a)| <= 1
    ensures Validate(s.dialect, s.script + Events(s, a))
         == if Events(s, a) == [] then Validate(s.dialect, s.script)
            else Judge(s.dialect, Validate(s.dialect, s.script), Events(s, a)[0])
  {
    if Events(s, a) == [] {
      assert s.script + [] == s.script;
    } else {
      ValidateAppend(s.dialect, s.script, Events(s, a)[0]);
    }
  }

  function Judged(s: State, a: Action): Verdict {
    var v := Validate(s.dialect, s.script);
    if Events(s, a) == [] then v else Judge(s.dialect, v, Events(s, a)[0])
  }

  lemma ReaderReceives(s: State, m: ClientMessage)
    requires VerdictOk(s) && s.reader.Reading?
    ensures var pc := OnMessage(s, m);
            Stands(pc, s.init || m.Init?, LiveIds(pc, s.operations), Judged(s, Receive(m)))
  {
  }

  /** The reader's own steps, but for the insertion, leave the IDs in use to the lookup's verdict. */
  lemma ReaderProceeds(s: State, c: Choice)
    requires VerdictOk(s) && Authorized(s)
    ensures var pc := ReaderNext(s);
            Stands(pc, s.init, LiveIds(pc, NextOperations(s, ReaderGo(c))), Judged(s, ReaderGo(c)))
  {
    if s.reader.Insert? {
      assert NextOperations(s, ReaderGo(c)).Keys == LiveIds(s.reader, s.operations);
    }
  }

  /** An operation that ends frees its ID, which is never the one about to be inserted. */
  lemma OperationEnds(s: State, i: nat, m: Turn)
    requires VerdictOk(s) && RegistryOk(s) && Enabled(s, OperationGo(i, m))
    ensures var a := OperationGo(i, m);
            Stands(s.reader, s.init, LiveIds(s.reader, NextOperations(s, a)), Judged(s, a))
  {
    if OwnStepAt(s, OperationGo(i, m), Unregister) {
      assert s.runs[i].id in s.operations;
      assert NextOperations(s, OperationGo(i, m)).Keys == s.operations.Keys - {s.runs[i].id};
      assert LiveIds(s.reader, NextOperations(s, OperationGo(i, m)))
          == LiveIds(s.reader, s.operations) - {s.runs[i].id};
    }
  }

  lemma EventsWhileAccepting(s: State, a: Action)
    requires VerdictOk(s) && Enabled(s, a) && Events(s, a) != []
    ensures |Events(s, a)| == 1
    ensures Events(s, a)[0].EndedEvent? || Validate(s.dialect, s.script).Accepting?
  {
  }

  lemma FirstViolationGrows(d: Dialect, script: seq<Event>, e: Event)
    requires forall k :: 0 <= k < |script| && !script[k].EndedEvent? ==> Validate(d, script[..k]).Accepting?
    requires e.EndedEvent? || Validate(d, script).Accepting?
    ensures var all := script + [e];
            forall k :: 0 <= k < |all| && !all[k].EndedEvent? ==> Validate(d, all[..k]).Accepting?
  {
    var all := script + [e];
    forall k | 0 <= k < |all| && !all[k].EndedEvent? ensures Validate(d, all[..k]).Accepting? {
      if k < |script| { assert all[..k] == script[..k]; } else { assert all[..k] == script; }
    }
  }

  lemma FirstViolationStep(s: State, a: Action)
    requires VerdictOk(s) && FirstViolation(s) && Enabled(s, a) && !Crashes(s, a)
    ensures FirstViolation(Step(s, a))
  {
    if Events(s, a) == [] {
      assert s.script + [] == s.script;
    } else {
      EventsWhileAccepting(s, a);
      assert Events(s, a) == [Events(s, a)[0]];
      FirstViolationGrows(s.dialect, s.script, Events(s, a)[0]);
    }
  }

  lemma ReaderGoes(s: State, a: Action)
    requires VerdictOk(s) && Authorized(s) && RegistryOk(s) && Enabled(s, a)
    ensures var pc := NextReader(s, a);
            Stands(pc, s.init || (a.Receive? && a.message.Init?), LiveIds(pc, NextOperations(s, a)), Judged(s, a))
  {
    match a
    case Receive(m) => ReaderReceives(s, m);
    case ReaderGo(c) => ReaderProceeds(s, c);
    case OperationGo(i, m) => OperationEnds(s, i, m);
    case _ =>
  }

  lemma AuthorizedGoes(s: State, a: Action)
    requires Authorized(s) && Enabled(s, a) && s.dialect.GraphqlTransportWs? && Registering(NextReader(s, a))
    ensures s.init || (a.Receive? && a.message.Init?)
  {
  }

  lemma ReaderStep(s: State, a: Action)
    requires ReaderOk(s) && RegistryOk(s) && Enabled(s, a)
    ensures ReaderOk(Step(s, a))
  {
    if !Crashes(s, a) {
      FirstViolationStep(s, a);
      EventsValidated(s, a);
      ReaderGoes(s, a);
      if s.dialect.GraphqlTransportWs? && Registering(NextReader(s, a)) { AuthorizedGoes(s, a); }
    }
  }

  // ----- What the reader sends

  /** What the reader sends while it stays in its loop. */
  predicate Chatter(d: Dialect, item: Item) {
    item == Message("", ConnectionAck) || item == Message("", Pong) || (d.GraphqlWs? && item == CloseWith(CLOSE_NORMAL))
  }

  predicate AllChatter(d: Dialect, items: seq<Item>) {
    forall k :: 0 <= k < |items| ==> Chatter(d, items[k])
  }

  /** Chatter, possibly followed by one more item. */
  predicate ChatterThen(d: Dialect, items: seq<Item>, last: Item) {
    AllChatter(d, items) || (|items| > 0 && items[|items| - 1] == last && AllChatter(d, items[..|items| - 1]))
  }

  /** Everything the reader sends in a connection that ends with `failure`. */
  predicate Farewell(d: Dialect, failure: Failure, items: seq<Item>) {
    if failure.Protocol? then
      && |items| > 0
      && items[|items| - 1] == CloseWith(failure.code)
      && (if d.GraphqlWs? then ChatterThen(d, items[..|items| - 1], Message("", ConnectionError))
          else AllChatter(d, items[..|items| - 1]))
    else ChatterThen(d, items, Message("", Error))
  }

  predicate Silent(pc: ReaderPc) {
    pc.CancelRequestContext? || pc.Wait? || pc.CloseChannel? || pc.Gone?
  }

  /** What the reader has sent so far, standing at `pc`. */
  predicate Speech(d: Dialect, pc: ReaderPc, v: Verdict, items: seq<Item>) {
    if pc.ExitConnectionError? || pc.TerminateMark? || pc.SendTermination? then d.GraphqlWs? && AllChatter(d, items)
    else if Silent(pc) then v.Rejected? && Farewell(d, v.failure, items)
    else if pc.ExitClose? && d.GraphqlWs? then ChatterThen(d, items, Message("", ConnectionError))
    else AllChatter(d, items)
  }

  predicate SpeechOk(s: State) {
    Speech(s.dialect, s.reader, Validate(s.dialect, s.script), s.readerSent)
  }

  lemma SpeechAdded(s: State)
    requires SpeechOk(s) && VerdictOk(s) && ReaderSends(s.reader)
    ensures Speech(s.dialect, ReaderNext(s), Validate(s.dialect, s.script), s.readerSent + [ReaderItem(s.reader)])
  {
    var item := ReaderItem(s.reader);
    assert (s.readerSent + [item])[..|s.readerSent|] == s.readerSent;
  }

  lemma SpeechKept(s: State, c: Choice)
    requires SpeechOk(s) && VerdictOk(s) && (ReaderSends(s.reader) ==> ReaderDroppable(s.reader))
    ensures Speech(s.dialect, ReaderNext(s), Judged(s, ReaderGo(c)), s.readerSent)
  {
  }

  lemma SpeechGoes(s: State, a: Action)
    requires SpeechOk(s) && VerdictOk(s) && Enabled(s, a)
    ensures Speech(s.dialect, NextReader(s, a), Judged(s, a), NextReaderSent(s, a))
  {
    if a.ReaderGo? {
      if ReaderSends(s.reader) && a.choice.Proceed? { SpeechAdded(s); } else { SpeechKept(s, a.choice); }
    }
  }

  lemma SpeechStep(s: State, a: Action)
    requires SpeechOk(s) && VerdictOk(s) && Enabled(s, a) && !Crashes(s, a)
    ensures SpeechOk(Step(s, a))
  {
    EventsValidated(s, a);
    SpeechGoes(s, a);
  }

  // ----- What the reader answers

  /** The reader's answer to a message the validator accepts. */
  function Answer(d: Dialect, v: Verdict, e: Event): seq<Item> {
    if v.Rejected? then []
    else match e
      case InitEvent(outcome) => if !v.init && outcome.NoFailure? then [Message("", ConnectionAck)] else []
      case PingEvent => [Message("", Pong)]
      case TerminateEvent => if d.GraphqlWs? then [CloseWith(CLOSE_NORMAL)] else []
      case _ => []
  }

  function Answers(d: Dialect, script: seq<Event>): seq<Item> {
    if script == [] then []
    else
      var before := script[..|script| - 1];
      Answers(d, before) + Answer(d, Validate(d, before), script[|script| - 1])
  }

  lemma AnswersAppend(d: Dialect, script: seq<Event>, e: Event)
    ensures Answers(d, script + [e]) == Answers(d, script) + Answer(d, Validate(d, script), e)
  {
    assert (script + [e])[..|script|] == script;
  }

  /** The answer the reader is about to give. */
  function Owed(pc: ReaderPc): seq<Item> {
    match pc
    case Signal(outcome) => if outcome.NoFailure? then [Message("", ConnectionAck)] else []
    case InitCall(outcome) => if outcome.NoFailure? then [Message("", ConnectionAck)] else []
    case SendAck => [Message("", ConnectionAck)]
    case SendPong => [Message("", Pong)]
    case TerminateMark => [CloseWith(CLOSE_NORMAL)]
    case SendTermination => [CloseWith(CLOSE_NORMAL)]
    case _ => []
  }

  /** In its loop, or with the decision to leave it just taken. */
  predicate Conversing(pc: ReaderPc) {
    !Leaving(pc) || pc.Exit?
  }

  predicate Answered(d: Dialect, pc: ReaderPc, done: bool, sent: seq<Item>, answers: seq<Item>) {
    Conversing(pc) && !done ==> sent + Owed(pc) == answers
  }

  predicate AnsweredOk(s: State) {
    Answered(s.dialect, s.reader, s.requestDone, s.readerSent, Answers(s.dialect, s.script))
  }

  function NewAnswers(s: State, a: Action): seq<Item> {
    if Events(s, a) == [] then [] else Answer(s.dialect, Validate(s.dialect, s.script), Events(s, a)[0])
  }

  lemma AnswersGrow(s: State, a: Action)
    ensures Answers(s.dialect, s.script + Events(s, a)) == Answers(s.dialect, s.script) + NewAnswers(s, a)
  {
    if Events(s, a) == [] {
      assert s.script + [] == s.script;
    } else {
      EventsValidated(s, a);
      assert Events(s, a) == [Events(s, a)[0]];
      AnswersAppend(s.dialect, s.script, Events(s, a)[0]);
    }
  }

  /** Receiving a message, the reader comes to owe its answer. */
  lemma OwedOnReceipt(s: State, m: ClientMessage)
    requires VerdictOk(s) && s.reader.Reading?
    ensures Owed(OnMessage(s, m)) == NewAnswers(s, Receive(m)) && Owed(s.reader) == []
  {
  }

  /** Whatever it does next, it gives the answer or still owes it; only a cancelled request lets an
      answer be dropped. */
  lemma OwedOrSent(s: State, c: Choice)
    requires VerdictOk(s) && Enabled(s, ReaderGo(c)) && !s.requestDone && Conversing(s.reader)
    requires Conversing(ReaderNext(s))
    ensures NextReaderSent(s, ReaderGo(c)) + Owed(ReaderNext(s)) == s.readerSent + Owed(s.reader)
    ensures NewAnswers(s, ReaderGo(c)) == []
  {
    if ReaderSends(s.reader) {
      var sent := s.readerSent + [ReaderItem(s.reader)];
      assert sent + [] == sent;
    }
  }

  lemma OthersOweNothing(s: State, a: Action)
    requires !a.Receive? && !a.ReceiveFailure? && !a.ReaderGo?
    ensures NextReader(s, a) == s.reader && NextReaderSent(s, a) == s.readerSent && NewAnswers(s, a) == []
  {
  }

  lemma AnsweredGoes(s: State, a: Action)
    requires AnsweredOk(s) && VerdictOk(s) && Enabled(s, a)
    ensures Answered(s.dialect, NextReader(s, a), s.requestDone, NextReaderSent(s, a),
                     Answers(s.dialect, s.script) + NewAnswers(s, a))
  {
    var known := Answers(s.dialect, s.script);
    assert known + [] == known;
    if !s.requestDone && Conversing(NextReader(s, a)) {
      match a
      case Receive(m) => OwedOnReceipt(s, m);
      case ReaderGo(c) =>
        StaysConversing(s);
        OwedOrSent(s, c);
      case ReceiveFailure =>
      case _ => OthersOweNothing(s, a);
    }
  }

  lemma StaysConversing(s: State)
    requires Conversing(ReaderNext(s))
    ensures Conversing(s.reader)
  {
  }

  lemma AnsweredStep(s: State, a: Action)
    requires AnsweredOk(s) && VerdictOk(s) && Enabled(s, a) && !Crashes(s, a)
    ensures AnsweredOk(Step(s, a))
  {
    AnswersGrow(s, a);
    AnsweredGoes(s, a);
  }

  // ----- Termination requests

  /** A graphql-ws terminate stops every operation of the connection. */
  predicate TerminateOk(s: State) {
    s.dialect.GraphqlWs? && TerminateEvent in s.script ==> s.requestStopped || s.reader.TerminateMark?
  }

  lemma TerminateStep(s: State, a: Action)
    requires TerminateOk(s) && Enabled(s, a) && !Crashes(s, a)
    ensures TerminateOk(Step(s, a))
  {
    var t := Step(s, a);
    assert t.script == s.script + Events(s, a);
    assert TerminateEvent in Events(s, a) ==> NextReader(s, a).TerminateMark? || s.dialect.GraphqlTransportWs?;
  }
}
