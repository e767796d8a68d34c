/** The connection as the server keeps it: one object that all its goroutines update in place.

    The methods follow the server's functions: the reader's message handlers and its deferred
    shutdown, and an operation's goroutine. Between any two of their atomic steps `Pause` lets the
    other goroutines take whatever steps the environment has in store, so a method's own steps are
    interleaved with arbitrary interference. Each method is proved to move the object along the
    transition system, and so everything proved of reachable states holds of the object. The fields
    `reader` and `runs` also say where each goroutine stands, which is all the others depend on. */
module Connection {
  import opened Wrappers
  import opened Apollows
  import opened Operation
  import opened OperationMessages
  import opened Engine
  import opened EngineRegistry
  import opened EngineSafety
  import opened EngineTheorems
  import opened ConnectionSteps

  class WebsocketRequest {
    const dialect: Dialect
    const timeout: bool
    /** What the environment has the other goroutines do at each pause. */
    const others: nat -> seq<Action>
    var clock: nat
    var reader: ReaderPc
    var init: bool
    var operations: map<string, nat>
    var runs: seq<Run>
    var waitGroup: int
    var requestDone: bool
    var requestStopped: bool
    var outgoing: seq<Entry>
    var closed: bool
    /** The writer, the timer, whether the process has panicked, and the histories. */
    var world: State
    /** The steps taken so far, by whomever. */
    ghost var acts: seq<Action>

    function Snapshot(): State
      reads this
    {
      world.(dialect := dialect, reader := reader, init := init, operations := operations, runs := runs,
             waitGroup := waitGroup, requestDone := requestDone, requestStopped := requestStopped, queue := outgoing,
             closed := closed)
    }

    ghost function Start(): State {
      Start0(dialect, timeout)
    }

    /** The object is where the steps taken so far lead. */
    ghost predicate Valid()
      reads this
    {
      Leads(Start(), acts, Snapshot())
    }

    constructor (dialect: Dialect, timeout: bool, others: nat -> seq<Action>)
      ensures Valid() && Snapshot() == Start0(dialect, timeout)
    {
      this.dialect, this.timeout, this.others, clock := dialect, timeout, others, 0;
      reader, init, operations, runs, waitGroup := Reading, false, map[], [], 0;
      requestDone, requestStopped, outgoing, closed := false, false, [], false;
      world := Start0(dialect, timeout);
      acts := [];
      new;
      LeadsNone(Snapshot());
    }

    lemma Known()
      requires Valid()
      ensures waitGroup >= 0 && (closed <==> reader.Gone?) && waitGroup == CountRuns(runs)
      ensures reader.CloseChannel? || reader.Gone? ==> AllFinished(runs)
      ensures LaunchOk(Snapshot()) && RegistryOk(Snapshot()) && world.awaits
    {
      InvAtStart(dialect, timeout);
      InvLeads(Start(), acts, Snapshot());
    }

    method Become(t: State)
      requires t.dialect == dialect
      modifies this
      ensures Snapshot() == t && acts == old(acts)
    {
      reader, init, operations, runs, waitGroup := t.reader, t.init, t.operations, t.runs, t.waitGroup;
      requestDone, requestStopped, outgoing, closed := t.requestDone, t.requestStopped, t.queue, t.closed;
      world := t;
    }

    /** The other goroutines, and the environment, take the steps they have in store, as far as they
        can be taken. */
    method Pause(actor: Actor)
      requires Valid()
      modifies this
      ensures Valid() && old(acts) <= acts && Stable(actor, old(Snapshot()), Snapshot())
      ensures actor.Reader? ==> Reads(acts) == Reads(old(acts))
    {
      var turns := others(clock);
      clock := clock + 1;
      var s, steps := Interfere(actor, dialect, timeout, acts, Snapshot(), turns);
      Become(s);
      acts := steps;
    }

    /** A pause of the reader; `go` is false if the process has panicked meanwhile. */
    method PauseReader() returns (go: bool)
      requires Valid()
      modifies this
      ensures Valid() && old(acts) <= acts && go == !world.panicked
      ensures reader == old(reader) && init == old(init) && requestStopped == old(requestStopped)
      ensures closed == old(closed)
      ensures world.readerSent == old(world.readerSent) && (old(requestDone) ==> requestDone)
      ensures operations.Keys <= old(operations).Keys && Plans(runs) == Plans(old(runs))
      ensures waitGroup >= 0 && (closed <==> reader.Gone?)
      ensures Reads(acts) == Reads(old(acts))
    {
      Pause(Reader);
      Known();
      PlansKept(old(runs), runs);
      go := !world.panicked;
    }

    // ----- readWebsocketStart

    /** The lookup under the read lock, the insertion under the write lock, WaitGroup.Add and the `go`
        statement, with the other goroutines running in between. */
    method ReadWebsocketStart(id: string, plan: Plan) returns (err: Failure, done: bool)
      requires Valid() && !world.panicked && reader.Reading?
      modifies this
      ensures Valid() && old(acts) <= acts && done == !world.panicked
      ensures done ==> reader == (if err.NoFailure? then Reading else Exit(err))
      ensures done ==> (err == Protocol(UNAUTHORIZED) <==> dialect.GraphqlTransportWs? && !old(init))
      ensures done && err == Protocol(SUBSCRIBER_ALREADY_EXISTS) ==> id in old(operations)
      ensures done && err.NoFailure? ==> Plans(runs) == Plans(old(runs)) + [(id, plan)]
      ensures done ==> err.NoFailure? || err == Protocol(UNAUTHORIZED) || err == Protocol(SUBSCRIBER_ALREADY_EXISTS)
      ensures Reads(acts) == Reads(old(acts)) + [Some(ClientMessage.Start(id, plan))]
    {
      err := HearStart(id, plan);
      if !err.NoFailure? { return err, true; }
      err, done := StartOperation(id, plan);
    }

    method StartOperation(id: string, plan: Plan) returns (err: Failure, done: bool)
      requires Valid() && !world.panicked && reader == Lookup(id, plan)
      modifies this
      ensures Valid() && old(acts) <= acts && done == !world.panicked
      ensures done ==> reader == (if err.NoFailure? then Reading else Exit(err))
      ensures done && err.NoFailure? ==> Plans(runs) == Plans(old(runs)) + [(id, plan)]
      ensures !err.NoFailure? ==> err == Protocol(SUBSCRIBER_ALREADY_EXISTS) && id in old(operations)
      ensures Reads(acts) == Reads(old(acts))
    {
      err := NoFailure;
      done := PauseReader();
      if !done { return; }
      LookupOperation(id, plan);
      if reader.Exit? { return reader.failure, true; }
      done := RegisterOperation(id, plan);
    }

    /** The message is received, and refused before an init in the transport dialect. */
    method HearStart(id: string, plan: Plan) returns (err: Failure)
      requires Valid() && !world.panicked && reader.Reading?
      modifies this
      ensures Valid() && acts == old(acts) + [Receive(ClientMessage.Start(id, plan))] && !world.panicked
      ensures err == if dialect.GraphqlTransportWs? && !init then Protocol(UNAUTHORIZED) else NoFailure
      ensures reader == (if err.NoFailure? then Lookup(id, plan) else Exit(err))
      ensures runs == old(runs) && operations == old(operations) && init == old(init)
      ensures Reads(acts) == Reads(old(acts)) + [Some(ClientMessage.Start(id, plan))]
    {
      Known();
      Hears(Start(), acts, Snapshot(), ClientMessage.Start(id, plan));
      ReadsAppend(acts, Receive(ClientMessage.Start(id, plan)));
      acts := acts + [Receive(ClientMessage.Start(id, plan))];
      if !init && dialect.GraphqlTransportWs? {
        err := Protocol(UNAUTHORIZED);
        world := world.(script := world.script + [StartEvent(id)]);
        reader := Exit(err);
      } else {
        err := NoFailure;
        reader := Lookup(id, plan);
      }
    }

    method LookupOperation(id: string, plan: Plan)
      requires Valid() && !world.panicked && waitGroup >= 0 && reader == Lookup(id, plan)
      modifies this
      ensures Valid() && acts == old(acts) + [GO] && !world.panicked
      ensures reader == Looked(id, plan, id in operations)
      ensures runs == old(runs) && operations == old(operations)
      ensures Reads(acts) == Reads(old(acts))
    {
      LooksUp(Start(), acts, Snapshot(), id, plan);
      NothingRead(acts, GO);
      acts := acts + [GO];
      world := world.(script := world.script + [StartEvent(id)]);
      reader := Looked(id, plan, id in operations);
    }

    method RegisterOperation(id: string, plan: Plan) returns (done: bool)
      requires Valid() && !world.panicked && reader == Insert(id, plan)
      modifies this
      ensures Valid() && old(acts) <= acts && done == !world.panicked
      ensures done ==> reader.Reading? && Plans(runs) == Plans(old(runs)) + [(id, plan)]
      ensures Reads(acts) == Reads(old(acts))
    {
      done := PauseReader();
      if !done { return; }
      InsertOperation(id, plan);
      PlansAdded(runs[..|runs| - 1], NewRun(id, plan));
      assert runs[..|runs| - 1] + [NewRun(id, plan)] == runs;
      done := LaunchOperation(|runs| - 1);
    }

    method LaunchOperation(i: nat) returns (done: bool)
      requires Valid() && !world.panicked && reader == WgAdd(i) && i < |runs|
      modifies this
      ensures Valid() && old(acts) <= acts && done == !world.panicked && Plans(runs) == Plans(old(runs))
      ensures done ==> reader.Reading?
      ensures Reads(acts) == Reads(old(acts))
    {
      done := PauseReader();
      if !done { return; }
      AddToWaitGroup(i);
      done := PauseReader();
      if !done { return; }
      StartGoroutine(i);
    }

    method InsertOperation(id: string, plan: Plan)
      requires Valid() && !world.panicked && waitGroup >= 0 && reader == Insert(id, plan)
      modifies this
      ensures Valid() && acts == old(acts) + [GO] && !world.panicked
      ensures reader == WgAdd(|old(runs)|) && runs == old(runs) + [NewRun(id, plan)]
      ensures operations == old(operations)[id := |old(runs)|]
      ensures Reads(acts) == Reads(old(acts))
    {
      Inserts(Start(), acts, Snapshot(), id, plan);
      NothingRead(acts, GO);
      acts := acts + [GO];
      operations := operations[id := |runs|];
      runs := runs + [NewRun(id, plan)];
      reader := WgAdd(|runs| - 1);
    }

    method AddToWaitGroup(i: nat)
      requires Valid() && !world.panicked && waitGroup >= 0 && reader == WgAdd(i) && i < |runs|
      modifies this
      ensures Valid() && acts == old(acts) + [GO] && !world.panicked
      ensures reader == Spawn(i) && waitGroup == old(waitGroup) + 1 && Plans(runs) == Plans(old(runs))
      ensures Reads(acts) == Reads(old(acts))
    {
      Adds(Start(), acts, Snapshot(), i);
      NothingRead(acts, GO);
      acts := acts + [GO];
      waitGroup := waitGroup + 1;
      PlansUpdated(runs, i, runs[i].(pc := Added));
      runs := runs[i := runs[i].(pc := Added)];
      reader := Spawn(i);
    }

    method StartGoroutine(i: nat)
      requires Valid() && !world.panicked && waitGroup >= 0 && reader == Spawn(i) && i < |runs|
      modifies this
      ensures Valid() && acts == old(acts) + [GO] && !world.panicked
      ensures reader.Reading? && Plans(runs) == Plans(old(runs))
      ensures Reads(acts) == Reads(old(acts))
    {
      Spawns(Start(), acts, Snapshot(), i);
      NothingRead(acts, GO);
      acts := acts + [GO];
      PlansUpdated(runs, i, runs[i].(pc := Decode));
      runs := runs[i := runs[i].(pc := Decode)];
      reader := Reading;
    }

    // ----- writeWebsocketMessage on the request's context, and the bare send

    /** The select between sending the message of the reader's program point and a done request.
        `done` is false if neither is possible when the pause ends, or the process has panicked. */
    method WriteWebsocketMessage() returns (done: bool)
      requires Valid() && !world.panicked && ReaderDroppable(reader)
      modifies this
      ensures Valid() && old(acts) <= acts && (old(requestDone) ==> requestDone)
      ensures init == old(init) && requestStopped == old(requestStopped)
      ensures !done ==> reader == old(reader)
      ensures done ==> !world.panicked && reader == AfterReaderSend(old(reader))
      ensures done && !requestDone ==> world.readerSent == old(world.readerSent) + [ReaderItem(old(reader))]
      ensures Reads(acts) == Reads(old(acts))
      ensures !done ==> ReaderBlocked(Snapshot())
    {
      done := PauseReader();
      if !done { return; }
      var drop: bool := *;
      if requestDone && (drop || outgoing != []) {
        DropItem();
      } else if outgoing == [] {
        SendItem();
      } else {
        done := false;
      }
    }

    method SendItem()
      requires Valid() && !world.panicked && waitGroup >= 0 && ReaderSends(reader) && !closed && outgoing == []
      modifies this
      ensures Valid() && acts == old(acts) + [GO] && !world.panicked
      ensures reader == AfterReaderSend(old(reader))
      ensures world.readerSent == old(world.readerSent) + [ReaderItem(old(reader))]
      ensures requestDone == old(requestDone) && init == old(init) && requestStopped == old(requestStopped)
      ensures Reads(acts) == Reads(old(acts))
    {
      var item := ReaderItem(reader);
      ReaderSendsItem(Start(), acts, Snapshot(), item);
      NothingRead(acts, GO);
      acts := acts + [GO];
      outgoing := [Entry(ByReader, item)];
      world := world.(log := world.log + [Entry(ByReader, item)], readerSent := world.readerSent + [item]);
      reader := AfterReaderSend(reader);
    }

    method DropItem()
      requires Valid() && !world.panicked && waitGroup >= 0 && ReaderDroppable(reader) && requestDone
      modifies this
      ensures Valid() && acts == old(acts) + [ReaderGo(Abandon)] && !world.panicked
      ensures reader == AfterReaderSend(old(reader))
      ensures requestDone && init == old(init) && requestStopped == old(requestStopped)
      ensures Reads(acts) == Reads(old(acts))
    {
      ReaderDropsItem(Start(), acts, Snapshot());
      NothingRead(acts, ReaderGo(Abandon));
      acts := acts + [ReaderGo(Abandon)];
      world := world.(ackDropped := world.ackDropped || reader.SendAck?);
      reader := AfterReaderSend(reader);
    }

    /** A send outside a select cannot be dropped. */
    method SendOutgoing() returns (done: bool)
      requires Valid() && !world.panicked && ReaderSends(reader) && !ReaderDroppable(reader)
      modifies this
      ensures Valid() && old(acts) <= acts && (old(requestDone) ==> requestDone)
      ensures init == old(init) && requestStopped == old(requestStopped)
      ensures !done ==> reader == old(reader)
      ensures done ==> !world.panicked && reader == AfterReaderSend(old(reader))
      ensures done ==> world.readerSent == old(world.readerSent) + [ReaderItem(old(reader))]
      ensures Reads(acts) == Reads(old(acts))
      ensures !done ==> ReaderBlocked(Snapshot())
    {
      done := PauseReader();
      if !done { return; }
      if outgoing == [] { SendItem(); } else { done := false; }
    }

    // ----- handleError on the request's context

    /** What the client is told of a connection-level error, told in full while the request lives; a
        close directive cannot be dropped. */
    method HandleError(err: Failure) returns (done: bool)
      requires Valid() && !world.panicked && reader == Exit(err) && !err.NoFailure?
      modifies this
      ensures Valid() && old(acts) <= acts && (old(requestDone) ==> requestDone)
      ensures done ==> !world.panicked && reader.CancelRequestContext?
      ensures done && !requestDone ==> world.readerSent == old(world.readerSent) + Told(dialect, "", err)
      ensures done && err.Protocol? ==> EndsWith(world.readerSent, CloseWith(err.code))
      ensures Reads(acts) == Reads(old(acts))
      ensures !done ==> ReaderBlocked(Snapshot())
    {
      ChooseFarewell(err);
      if err.Protocol? {
        done := ReportProtocolError(err.code);
      } else {
        done := ReportOrdinaryError();
      }
    }

    method ReportOrdinaryError() returns (done: bool)
      requires Valid() && !world.panicked && reader.ExitError?
      modifies this
      ensures Valid() && old(acts) <= acts && (old(requestDone) ==> requestDone)
      ensures done ==> !world.panicked && reader.CancelRequestContext?
      ensures done && !requestDone ==> world.readerSent == old(world.readerSent) + Told(dialect, "", Ordinary)
      ensures Reads(acts) == Reads(old(acts))
      ensures !done ==> ReaderBlocked(Snapshot())
    {
      done := WriteWebsocketMessage();
    }

    method ReportProtocolError(code: nat) returns (done: bool)
      requires Valid() && !world.panicked
      requires reader == FarewellPc(dialect, Protocol(code))
      modifies this
      ensures Valid() && old(acts) <= acts && (old(requestDone) ==> requestDone)
      ensures done ==> !world.panicked && reader.CancelRequestContext?
      ensures done && !requestDone ==> world.readerSent == old(world.readerSent) + Told(dialect, "", Protocol(code))
      ensures done ==> EndsWith(world.readerSent, CloseWith(code))
      ensures Reads(acts) == Reads(old(acts))
      ensures !done ==> ReaderBlocked(Snapshot())
    {
      if dialect.GraphqlWs? {
        done := WriteWebsocketMessage();
        if !done { return; }
      }
      done := SendClosing(code);
    }

    method SendClosing(code: nat) returns (done: bool)
      requires Valid() && !world.panicked && reader == ExitClose(code)
      modifies this
      ensures Valid() && old(acts) <= acts && (old(requestDone) ==> requestDone)
      ensures done ==> !world.panicked && reader.CancelRequestContext?
      ensures done ==> world.readerSent == old(world.readerSent) + [CloseWith(code)]
      ensures !done ==> ReaderBlocked(Snapshot())
      ensures Reads(acts) == Reads(old(acts))
    {
      done := SendOutgoing();
    }

    method ChooseFarewell(err: Failure)
      requires Valid() && !world.panicked && reader == Exit(err)
      modifies this
      ensures Valid() && acts == old(acts) + [GO] && world == old(world) && requestDone == old(requestDone)
      ensures reader == FarewellPc(dialect, err)
      ensures Reads(acts) == Reads(old(acts))
    {
      Known();
      Leaves(Start(), acts, Snapshot(), err);
      NothingRead(acts, GO);
      acts := acts + [GO];
      reader := FarewellPc(dialect, err);
    }

    // ----- The other messages

    /** readWebsocketInit, with the rendezvous with the timeout goroutine in front of it. `outcome` is
        what decoding the payload and the Init interceptor return. */
    method ReadWebsocketInit(outcome: Failure) returns (err: Failure, done: bool)
      requires Valid() && !world.panicked && reader.Reading?
      modifies this
      ensures Valid() && old(acts) <= acts && init
      ensures done ==> !world.panicked && reader == (if err.NoFailure? then Reading else Exit(err))
      ensures old(init) ==> done && err == Protocol(TOO_MANY_INITIALIZATION_REQUESTS)
      ensures !old(init) && done ==> err == outcome
      ensures !old(init) && done && err.NoFailure? && !requestDone ==>
                world.readerSent == old(world.readerSent) + [Message("", ConnectionAck)]
      ensures Reads(acts) == Reads(old(acts)) + [Some(Init(outcome))]
      ensures !done ==> ReaderBlocked(Snapshot())
    {
      err := HearInit(outcome);
      if !err.NoFailure? { return err, true; }
      err, done := FinishInit(outcome);
    }

    method FinishInit(outcome: Failure) returns (err: Failure, done: bool)
      requires Valid() && !world.panicked && (reader == InitCall(outcome) || reader == Signal(outcome))
      modifies this
      ensures Valid() && old(acts) <= acts && init == old(init) && err == outcome
      ensures done ==> !world.panicked && reader == (if err.NoFailure? then Reading else Exit(err))
      ensures done && err.NoFailure? && !requestDone ==>
                world.readerSent == old(world.readerSent) + [Message("", ConnectionAck)]
      ensures !done ==> ReaderBlocked(Snapshot())
      ensures Reads(acts) == Reads(old(acts))
    {
      err := outcome;
      done := AnnounceInit(outcome);
      if !done { return; }
      done := AnswerInit(outcome);
    }

    method AnswerInit(outcome: Failure) returns (done: bool)
      requires Valid() && !world.panicked && reader == InitCall(outcome)
      modifies this
      ensures Valid() && old(acts) <= acts && init == old(init)
      ensures done ==> !world.panicked && reader == (if outcome.NoFailure? then Reading else Exit(outcome))
      ensures done && outcome.NoFailure? && !requestDone ==>
                world.readerSent == old(world.readerSent) + [Message("", ConnectionAck)]
      ensures !done ==> ReaderBlocked(Snapshot())
      ensures Reads(acts) == Reads(old(acts))
    {
      done := true;
      InterceptInit(outcome);
      if outcome.NoFailure? { done := WriteWebsocketMessage(); }
    }

    method HearInit(outcome: Failure) returns (err: Failure)
      requires Valid() && !world.panicked && reader.Reading?
      modifies this
      ensures Valid() && acts == old(acts) + [Receive(Init(outcome))] && !world.panicked && init
      ensures err == if old(init) then Protocol(TOO_MANY_INITIALIZATION_REQUESTS) else NoFailure
      ensures reader == if !err.NoFailure? then Exit(err)
                        else if world.timer.Off? then InitCall(outcome) else Signal(outcome)
      ensures world.readerSent == old(world.readerSent)
      ensures Reads(acts) == Reads(old(acts)) + [Some(Init(outcome))]
    {
      Known();
      HearsInit(Start(), acts, Snapshot(), outcome);
      ReadsAppend(acts, Receive(Init(outcome)));
      acts := acts + [Receive(Init(outcome))];
      world := world.(script := world.script + [InitEvent(outcome)]);
      if init {
        err := Protocol(TOO_MANY_INITIALIZATION_REQUESTS);
        reader := Exit(err);
      } else {
        err := NoFailure;
        init := true;
        reader := if world.timer.Off? then InitCall(outcome) else Signal(outcome);
      }
    }

    /** The unbuffered send to the timeout goroutine, if there is one. */
    method AnnounceInit(outcome: Failure) returns (done: bool)
      requires Valid() && !world.panicked && (reader == InitCall(outcome) || reader == Signal(outcome))
      modifies this
      ensures Valid() && old(acts) <= acts && init == old(init) && world.readerSent == old(world.readerSent)
      ensures !done ==> reader == old(reader)
      ensures done ==> !world.panicked && reader == InitCall(outcome)
      ensures Reads(acts) == Reads(old(acts))
      ensures !done ==> ReaderBlocked(Snapshot())
    {
      if reader.InitCall? { return true; }
      done := PauseReader();
      if !done { return; }
      if world.timer.Waiting? { SignalTimer(outcome); } else { done := false; }
    }

    method SignalTimer(outcome: Failure)
      requires Valid() && !world.panicked && waitGroup >= 0 && reader == Signal(outcome) && world.timer.Waiting?
      modifies this
      ensures Valid() && acts == old(acts) + [GO] && !world.panicked && init == old(init)
      ensures reader == InitCall(outcome) && world.readerSent == old(world.readerSent)
      ensures Reads(acts) == Reads(old(acts))
    {
      Signals(Start(), acts, Snapshot());
      NothingRead(acts, GO);
      acts := acts + [GO];
      world := world.(timer := Expired);
      reader := InitCall(outcome);
    }

    method InterceptInit(outcome: Failure)
      requires Valid() && !world.panicked && reader == InitCall(outcome)
      modifies this
      ensures Valid() && acts == old(acts) + [GO] && world == old(world) && init == old(init)
      ensures reader == if outcome.NoFailure? then SendAck else Exit(outcome)
      ensures Reads(acts) == Reads(old(acts))
    {
      Known();
      Intercepts(Start(), acts, Snapshot(), outcome);
      NothingRead(acts, GO);
      acts := acts + [GO];
      reader := if outcome.NoFailure? then SendAck else Exit(outcome);
    }

    /** Any message but an init or a start: the part of its handler before the first shared access. */
    method Hear(m: ClientMessage)
      requires Valid() && !world.panicked && reader.Reading? && !m.Init? && !m.Start?
      modifies this
      ensures Valid() && acts == old(acts) + [Receive(m)] && !world.panicked
      ensures reader == OnMessage(old(Snapshot()), m) && init == old(init)
      ensures operations == old(operations) && runs == old(runs) && world.readerSent == old(world.readerSent)
      ensures Reads(acts) == Reads(old(acts)) + [Some(m)]
    {
      Known();
      Hears(Start(), acts, Snapshot(), m);
      ReadsAppend(acts, Receive(m));
      acts := acts + [Receive(m)];
      var s := Snapshot();
      reader := OnMessage(s, m);
      world := world.(script := Extend(world.script, EventOf(s, m)));
    }

    /** readWebsocketStop: an unknown ID is ignored; a known one's operation is marked stopped, and
        then its context cancelled. */
    method ReadWebsocketStop(id: string) returns (err: Failure, stopped: Option<nat>, done: bool)
      requires Valid() && !world.panicked && reader.Reading?
      modifies this
      ensures Valid() && old(acts) <= acts && done == !world.panicked
      ensures done ==> reader == (if err.NoFailure? then Reading else Exit(err))
      ensures err == if dialect.GraphqlTransportWs? && !old(init) then Protocol(UNAUTHORIZED) else NoFailure
      ensures done && stopped.Some? ==>
                && id in old(operations) && stopped.value < |runs| && runs[stopped.value].id == id
                && runs[stopped.value].stopped && runs[stopped.value].cancelled
      ensures done && err.NoFailure? && stopped.None? ==> id !in operations
      ensures Reads(acts) == Reads(old(acts)) + [Some(Stop(id))]
    {
      stopped, err, done := None, NoFailure, true;
      Hear(Stop(id));
      if reader.Exit? {
        err := reader.failure;
        return;
      }
      stopped, done := StopFound(id);
    }

    method StopFound(id: string) returns (stopped: Option<nat>, done: bool)
      requires Valid() && !world.panicked && reader == StopLookup(id)
      modifies this
      ensures Valid() && old(acts) <= acts && done == !world.panicked && (done ==> reader.Reading?)
      ensures done && stopped.Some? ==>
                && id in old(operations) && stopped.value < |runs| && runs[stopped.value].id == id
                && runs[stopped.value].stopped && runs[stopped.value].cancelled
      ensures done && stopped.None? ==> id !in operations
      ensures Reads(acts) == Reads(old(acts))
    {
      stopped := None;
      done := PauseReader();
      if !done { return; }
      stopped := LookupStopped(id);
      if stopped.Some? { done := StopOperation(stopped.value); }
    }

    method LookupStopped(id: string) returns (found: Option<nat>)
      requires Valid() && !world.panicked && reader == StopLookup(id)
      modifies this
      ensures Valid() && acts == old(acts) + [GO] && !world.panicked
      ensures found.Some? <==> id in operations
      ensures found.Some? ==> found.value == operations[id] < |runs| && runs[found.value].id == id
      ensures reader == (if found.Some? then StopMark(found.value) else Reading)
      ensures operations == old(operations) && runs == old(runs)
      ensures Reads(acts) == Reads(old(acts))
    {
      Known();
      FindsStopped(Start(), acts, Snapshot(), id);
      NothingRead(acts, GO);
      acts := acts + [GO];
      reader := if id in operations then StopMark(operations[id]) else Reading;
      found := if id in operations then Some(operations[id]) else None;
    }

    method StopOperation(i: nat) returns (done: bool)
      requires Valid() && !world.panicked && reader == StopMark(i) && i < |runs|
      modifies this
      ensures Valid() && old(acts) <= acts && done == !world.panicked
      ensures done ==> reader.Reading? && i < |runs| && runs[i].id == old(runs[i].id)
      ensures done ==> runs[i].stopped && runs[i].cancelled
      ensures Reads(acts) == Reads(old(acts))
    {
      done := PauseKeeping(i);
      if !done { return; }
      MarkStopped(i);
      done := PauseKeeping(i);
      if !done { return; }
      CancelStopped(i);
    }

    /** A pause after which the i-th operation still has the flags it had. */
    method PauseKeeping(i: nat) returns (go: bool)
      requires Valid() && i < |runs|
      modifies this
      ensures Valid() && old(acts) <= acts && go == !world.panicked && waitGroup >= 0
      ensures reader == old(reader) && i < |runs| && Kin(old(runs[i]), runs[i])
      ensures Reads(acts) == Reads(old(acts))
    {
      Pause(Reader);
      Known();
      go := !world.panicked;
    }

    method MarkStopped(i: nat)
      requires Valid() && !world.panicked && waitGroup >= 0 && reader == StopMark(i) && i < |runs|
      modifies this
      ensures Valid() && acts == old(acts) + [GO] && !world.panicked
      ensures reader == StopCancel(i) && |runs| == |old(runs)| && runs[i] == old(runs[i]).(stopped := true)
      ensures Reads(acts) == Reads(old(acts))
    {
      Marks(Start(), acts, Snapshot(), i);
      NothingRead(acts, GO);
      acts := acts + [GO];
      runs := runs[i := runs[i].(stopped := true)];
      reader := StopCancel(i);
    }

    method CancelStopped(i: nat)
      requires Valid() && !world.panicked && waitGroup >= 0 && reader == StopCancel(i) && i < |runs|
      modifies this
      ensures Valid() && acts == old(acts) + [GO] && !world.panicked
      ensures reader.Reading? && |runs| == |old(runs)| && runs[i] == old(runs[i]).(cancelled := true)
      ensures Reads(acts) == Reads(old(acts))
    {
      Cancels(Start(), acts, Snapshot(), i);
      NothingRead(acts, GO);
      acts := acts + [GO];
      runs := runs[i := runs[i].(cancelled := true)];
      reader := Reading;
    }

    /** readWebsocketTerminate: everything is stopped, and the socket is to be closed. */
    method ReadWebsocketTerminate() returns (err: Failure, done: bool)
      requires Valid() && !world.panicked && reader.Reading?
      modifies this
      ensures Valid() && old(acts) <= acts
      ensures done ==> !world.panicked && reader == (if err.NoFailure? then Reading else Exit(err))
      ensures err == if dialect.GraphqlTransportWs? then Protocol(UNAUTHORIZED) else NoFailure
      ensures done && err.NoFailure? ==> requestStopped
      ensures done && err.NoFailure? ==> world.readerSent == old(world.readerSent) + [CloseWith(CLOSE_NORMAL)]
      ensures Reads(acts) == Reads(old(acts)) + [Some(Terminate)]
      ensures !done ==> ReaderBlocked(Snapshot())
    {
      err, done := NoFailure, true;
      Hear(Terminate);
      if reader.Exit? {
        err := reader.failure;
        return;
      }
      done := PauseReader();
      if !done { return; }
      MarkTerminated();
      done := SendOutgoing();
    }

    method MarkTerminated()
      requires Valid() && !world.panicked && waitGroup >= 0 && reader.TerminateMark?
      modifies this
      ensures Valid() && acts == old(acts) + [GO] && world == old(world)
      ensures reader.SendTermination? && requestStopped
      ensures Reads(acts) == Reads(old(acts))
    {
      Terminates(Start(), acts, Snapshot());
      NothingRead(acts, GO);
      acts := acts + [GO];
      requestStopped := true;
      reader := SendTermination;
    }

    method ReadWebsocketPing() returns (done: bool)
      requires Valid() && !world.panicked && reader.Reading?
      modifies this
      ensures Valid() && old(acts) <= acts
      ensures done ==> !world.panicked && reader.Reading?
      ensures done && !requestDone ==> world.readerSent == old(world.readerSent) + [Message("", Pong)]
      ensures Reads(acts) == Reads(old(acts)) + [Some(Ping)]
      ensures !done ==> ReaderBlocked(Snapshot())
    {
      Hear(Ping);
      done := WriteWebsocketMessage();
    }

    // ----- readWebsocket

    method ReadMessage(m: ClientMessage) returns (err: Failure, done: bool)
      requires Valid() && !world.panicked && reader.Reading?
      modifies this
      ensures Valid() && old(acts) <= acts
      ensures done ==> !world.panicked && reader == (if err.NoFailure? then Reading else Exit(err))
      ensures Reads(acts) == Reads(old(acts)) + [Some(m)]
      ensures !done ==> ReaderBlocked(Snapshot())
    {
      err, done := NoFailure, true;
      match m
      case Init(outcome) => err, done := ReadWebsocketInit(outcome);
      case Start(id, plan) => err, done := ReadWebsocketStart(id, plan);
      case Stop(id) => var stopped; err, stopped, done := ReadWebsocketStop(id);
      case Terminate => err, done := ReadWebsocketTerminate();
      case Ping => done := ReadWebsocketPing();
      case Unknown => Hear(Unknown);
    }

    /** The reader's loop over the messages the socket yields before it fails, and its deferred
        shutdown: the error is reported, the request cancelled, the operations awaited and the
        channel closed. `read` messages are received, in order; the socket is read to its failure
        unless one of them ends the loop. `done` is false if the reader is blocked when a pause ends,
        or the process has panicked. */
    method ReadWebsocket(messages: seq<ClientMessage>) returns (err: Failure, read: nat, done: bool)
      requires Valid() && !world.panicked && reader.Reading?
      modifies this
      ensures Valid() && old(acts) <= acts
      ensures done ==> !err.NoFailure? && reader.Gone? && closed && requestDone && waitGroup == 0 && AllFinished(runs)
      ensures !done ==> ReaderBlocked(Snapshot())
      ensures read <= |messages|
      ensures || Reads(acts) == Reads(old(acts)) + Each(messages[..read])
              || (read == |messages| && Reads(acts) == Reads(old(acts)) + Each(messages) + [None])
    {
      err, read, done := ReadAll(messages);
      if done && err.NoFailure? { err, done := FailRead(); }
      assert messages[..|messages|] == messages;
      if done { done := Leave(err); }
    }

    /** The deferred function. */
    method Leave(err: Failure) returns (done: bool)
      requires Valid() && !world.panicked && reader == Exit(err) && !err.NoFailure?
      modifies this
      ensures Valid() && old(acts) <= acts
      ensures done ==> reader.Gone? && closed && requestDone && waitGroup == 0 && AllFinished(runs)
      ensures Reads(acts) == Reads(old(acts))
      ensures !done ==> ReaderBlocked(Snapshot())
    {
      done := HandleError(err);
      if done { done := Shutdown(); }
    }

    method ReadAll(messages: seq<ClientMessage>) returns (err: Failure, read: nat, done: bool)
      requires Valid() && !world.panicked && reader.Reading?
      modifies this
      ensures Valid() && old(acts) <= acts && read <= |messages|
      ensures done ==> !world.panicked && reader == (if err.NoFailure? then Reading else Exit(err))
      ensures done && err.NoFailure? ==> read == |messages|
      ensures !done ==> ReaderBlocked(Snapshot())
      ensures Reads(acts) == Reads(old(acts)) + Each(messages[..read])
    {
      err, read, done := NoFailure, 0, true;
      assert Reads(acts) + [] == Reads(acts);
      while read < |messages| && done && err.NoFailure?
        invariant read <= |messages|
        invariant Valid() && old(acts) <= acts
        invariant done ==> !world.panicked && reader == (if err.NoFailure? then Reading else Exit(err))
        invariant !done ==> ReaderBlocked(Snapshot())
        invariant Reads(acts) == Reads(old(acts)) + Each(messages[..read])
        decreases |messages| - read, done
      {
        var got;
        EachMore(messages, read);
        err, got, done := ReadNext(messages[read]);
        if got { read := read + 1; }
      }
    }

    method ReadNext(m: ClientMessage) returns (err: Failure, got: bool, done: bool)
      requires Valid() && !world.panicked && reader.Reading?
      modifies this
      ensures Valid() && old(acts) <= acts && (done ==> got)
      ensures done ==> !world.panicked && reader == (if err.NoFailure? then Reading else Exit(err))
      ensures !done ==> ReaderBlocked(Snapshot())
      ensures Reads(acts) == Reads(old(acts)) + (if got then [Some(m)] else [])
    {
      err := NoFailure;
      done := PauseReader();
      got := done;
      if got { err, done := ReadMessage(m); }
    }

    method FailRead() returns (err: Failure, done: bool)
      requires Valid() && !world.panicked && reader.Reading?
      modifies this
      ensures Valid() && old(acts) <= acts && done == !world.panicked
      ensures done ==> reader == Exit(Ordinary) && err == Ordinary
      ensures Reads(acts) == Reads(old(acts)) + (if done then [None] else [])
    {
      done := PauseReader();
      if !done { return NoFailure, false; }
      HearsFailure(Start(), acts, Snapshot());
      ReadsAppend(acts, ReceiveFailure);
      acts := acts + [ReceiveFailure];
      world := world.(script := world.script + [FailureEvent]);
      reader := Exit(Ordinary);
      err := Ordinary;
    }

    method Shutdown() returns (done: bool)
      requires Valid() && !world.panicked && reader.CancelRequestContext?
      modifies this
      ensures Valid() && old(acts) <= acts
      ensures done ==> reader.Gone? && closed && requestDone && waitGroup == 0 && AllFinished(runs)
      ensures Reads(acts) == Reads(old(acts))
      ensures !done ==> ReaderBlocked(Snapshot())
    {
      done := PauseReader();
      if !done { return; }
      CancelRequestContext();
      done := AwaitOperations();
      if !done { return; }
      done := PauseReader();
      if !done { return; }
      CloseOutgoing();
    }

    method CancelRequestContext()
      requires Valid() && !world.panicked && waitGroup >= 0 && reader.CancelRequestContext?
      modifies this
      ensures Valid() && acts == old(acts) + [GO] && world == old(world) && reader.Wait? && requestDone
      ensures Reads(acts) == Reads(old(acts))
    {
      CancelsRequest(Start(), acts, Snapshot());
      NothingRead(acts, GO);
      acts := acts + [GO];
      requestDone := true;
      reader := ReaderPc.Wait;
    }

    /** WaitGroup.Wait returns once the count is zero. */
    method AwaitOperations() returns (done: bool)
      requires Valid() && !world.panicked && reader.Wait? && requestDone
      modifies this
      ensures Valid() && old(acts) <= acts && requestDone
      ensures done ==> !world.panicked && reader.CloseChannel?
      ensures Reads(acts) == Reads(old(acts))
      ensures !done ==> ReaderBlocked(Snapshot())
    {
      done := PauseReader();
      if !done { return; }
      if waitGroup != 0 { return false; }
      EndsWaiting(Start(), acts, Snapshot());
      NothingRead(acts, GO);
      acts := acts + [GO];
      reader := ReaderPc.CloseChannel;
    }

    method CloseOutgoing()
      requires Valid() && !world.panicked && waitGroup >= 0 && reader.CloseChannel? && requestDone
      modifies this
      ensures Valid() && acts == old(acts) + [GO] && reader.Gone? && closed && requestDone
      ensures waitGroup == 0 && AllFinished(runs)
      ensures Reads(acts) == Reads(old(acts))
    {
      Known();
      ClosesChannel(Start(), acts, Snapshot());
      NothingRead(acts, GO);
      acts := acts + [GO];
      closed := true;
      reader := Gone;
      Unfinished(runs);
    }

    // ----- An operation's goroutine

    /** A pause of the i-th operation's goroutine: meanwhile others may set its flags, and while the
        interceptors run their handler calls go on. */
    method PauseOperation(i: nat) returns (go: bool)
      requires Valid() && i < |runs| && !Unlaunched(runs[i]) && !runs[i].pc.Finished?
      modifies this
      ensures Valid() && old(acts) <= acts && go == !world.panicked
      ensures i < |runs| && StableRun(old(runs[i]), runs[i]) && (old(requestDone) ==> requestDone)
      ensures waitGroup > 0 && !closed && world.awaits
    {
      Pause(Goroutine(i));
      Known();
      CountPositive(runs, i);
      go := !world.panicked;
    }

    method Update(i: nat, r: Run)
      requires Valid() && !world.panicked && i < |runs| && Private(runs[i])
      requires r == AdvanceOwn(ViewOf(Snapshot()), runs[i], OWN)
      modifies this
      ensures Valid() && acts == old(acts) + [OperationGo(i, OWN)] && !world.panicked
      ensures runs == old(runs)[i := r] && requestDone == old(requestDone) && requestStopped == old(requestStopped)
    {
      Known();
      Privately(Start(), acts, Snapshot(), i, r);
      acts := acts + [OperationGo(i, OWN)];
      runs := runs[i := r];
    }

    /** The select between sending the message of the goroutine's program point and a done request.
        `done` is false if neither is possible when the pause ends, or the process has panicked. */
    method WriteOperationMessage(i: nat) returns (done: bool)
      requires Valid() && !world.panicked && i < |runs| && Droppable(runs[i].pc)
      modifies this
      ensures Valid() && old(acts) <= acts && (old(requestDone) ==> requestDone)
      ensures done ==> !world.panicked && i < |runs| && Continues(old(runs[i]), runs[i], AfterSend(old(runs[i].pc)))
      ensures done && !requestDone ==> runs[i].sent == old(runs[i].sent) + [OwnItem(old(runs[i]))]
      ensures !done ==> OperationBlocked(Snapshot(), i)
    {
      done := PauseOperation(i);
      if !done { return; }
      var drop: bool := *;
      if requestDone && (drop || outgoing != []) {
        DropOwnItem(i);
      } else if outgoing == [] {
        SendOwnItem(i);
      } else {
        SendIsBlocked(Snapshot(), i);
        done := false;
      }
    }

    method SendOwnItem(i: nat)
      requires Valid() && !world.panicked && waitGroup > 0 && i < |runs| && OwnSend(runs[i].pc) && !closed
      requires outgoing == []
      modifies this
      ensures Valid() && acts == old(acts) + [OperationGo(i, OWN)] && !world.panicked
      ensures |runs| == |old(runs)| && requestDone == old(requestDone)
      ensures var r := old(runs[i]);
              runs[i] == r.(pc := AfterSend(r.pc), sent := r.sent + [OwnItem(r)])
    {
      var r := runs[i];
      var item := OwnItem(r);
      OwnSendsItem(Start(), acts, Snapshot(), i, item);
      acts := acts + [OperationGo(i, OWN)];
      outgoing := [Entry(ByOperation(i), item)];
      world := world.(log := world.log + [Entry(ByOperation(i), item)]);
      runs := runs[i := r.(pc := AfterSend(r.pc), sent := r.sent + [item])];
    }

    method DropOwnItem(i: nat)
      requires Valid() && !world.panicked && waitGroup > 0 && i < |runs| && Droppable(runs[i].pc) && requestDone
      modifies this
      ensures Valid() && acts == old(acts) + [OperationGo(i, Own(Abandon))] && !world.panicked && requestDone
      ensures |runs| == |old(runs)| && runs[i] == old(runs[i]).(pc := AfterSend(old(runs[i].pc)))
    {
      OwnDropsItem(Start(), acts, Snapshot(), i);
      acts := acts + [OperationGo(i, Own(Abandon))];
      runs := runs[i := runs[i].(pc := AfterSend(runs[i].pc))];
    }

    /** A protocol failure's close directive, which cannot be dropped. */
    method SendOwnClose(i: nat) returns (done: bool)
      requires Valid() && !world.panicked && i < |runs| && runs[i].pc.SendClose?
      modifies this
      ensures Valid() && old(acts) <= acts && (old(requestDone) ==> requestDone)
      ensures done ==> !world.panicked && i < |runs| && Continues(old(runs[i]), runs[i], CheckStopped)
      ensures done ==> runs[i].sent == old(runs[i].sent) + [OwnItem(old(runs[i]))]
      ensures !done ==> OperationBlocked(Snapshot(), i)
    {
      done := PauseOperation(i);
      if !done { return; }
      if outgoing == [] { SendOwnItem(i); } else { done := false; }
    }

    /** The payload is decoded and handed to the interceptors, which come back with a failure or none. */
    method RunInterceptors(i: nat) returns (done: bool)
      requires Valid() && !world.panicked && i < |runs| && runs[i].pc.Decode?
      modifies this
      ensures Valid() && old(acts) <= acts
      ensures done ==> !world.panicked && i < |runs| && SameOperation(old(runs[i]), runs[i], CheckExecuted)
      ensures done ==> runs[i].failure == FailureOf(dialect, runs[i].plan)
      ensures !done ==> OperationBlocked(Snapshot(), i)
    {
      done := true;
      DecodePayload(i);
      if runs[i].plan.decodes { done := AwaitInterceptors(i); }
    }

    method AwaitInterceptors(i: nat) returns (done: bool)
      requires Valid() && !world.panicked && i < |runs| && runs[i].pc.Intercept?
      modifies this
      ensures Valid() && old(acts) <= acts
      ensures done ==> !world.panicked && i < |runs| && SameOperation(old(runs[i]), runs[i], CheckExecuted)
      ensures done ==> runs[i].failure == runs[i].plan.outcome
      ensures !done ==> OperationBlocked(Snapshot(), i)
    {
      done := PauseOperation(i);
      if !done { return; }
      if runs[i].calls != [] || !AllOver(runs[i].active) { return false; }
      ReturnFromInterceptors(i);
    }

    /** An undecodable payload is a protocol error in the transport dialect, an ordinary one otherwise. */
    method DecodePayload(i: nat)
      requires Valid() && !world.panicked && i < |runs| && runs[i].pc.Decode?
      modifies this
      ensures Valid() && acts == old(acts) + [OperationGo(i, OWN)] && !world.panicked && |runs| == |old(runs)|
      ensures var v := old(ViewOf(Snapshot()));
              runs[i] == old(runs[i]).(pc := NextPc(v, old(runs[i])), failure := NextFailure(v, old(runs[i])))
    {
      var r := runs[i];
      var operr := if dialect.GraphqlTransportWs? then Protocol(INVALID_MESSAGE) else Ordinary;
      Update(i, if r.plan.decodes then r.(pc := Intercept) else r.(pc := CheckExecuted, failure := operr));
    }

    method ReturnFromInterceptors(i: nat)
      requires Valid() && !world.panicked && i < |runs| && runs[i].pc.Intercept? && Private(runs[i])
      modifies this
      ensures Valid() && acts == old(acts) + [OperationGo(i, OWN)] && !world.panicked && |runs| == |old(runs)|
      ensures SameOperation(old(runs[i]), runs[i], CheckExecuted) && runs[i].failure == runs[i].plan.outcome
    {
      Update(i, runs[i].(pc := CheckExecuted, failure := runs[i].plan.outcome));
    }

    /** handleError on the operation's context: while the request lives the failure is told in full,
        unless the operation was executed. */
    method ReportFailure(i: nat) returns (done: bool)
      requires Valid() && !world.panicked && i < |runs| && runs[i].pc.CheckExecuted?
      modifies this
      ensures Valid() && old(acts) <= acts && (old(requestDone) ==> requestDone)
      ensures done ==> !world.panicked && i < |runs| && Continues(old(runs[i]), runs[i], CheckStopped)
      ensures done && !requestDone ==>
                runs[i].sent == old(runs[i].sent)
                  + (if old(runs[i].executed) then [] else Told(dialect, old(runs[i].id), old(runs[i].failure)))
      ensures !done ==> OperationBlocked(Snapshot(), i)
    {
      done := PauseOperation(i);
      if !done { return; }
      ChooseReport(i);
      if !runs[i].pc.CheckStopped? { done := TellFailure(i); }
    }

    method TellFailure(i: nat) returns (done: bool)
      requires Valid() && !world.panicked && i < |runs| && !runs[i].failure.NoFailure?
      requires runs[i].pc == if runs[i].failure.Ordinary? then Pc.MarkStopped
                             else if dialect.GraphqlWs? then SendConnectionError else SendClose
      modifies this
      ensures Valid() && old(acts) <= acts && (old(requestDone) ==> requestDone)
      ensures done ==> !world.panicked && i < |runs| && Continues(old(runs[i]), runs[i], CheckStopped)
      ensures done && !requestDone ==>
                runs[i].sent == old(runs[i].sent) + Told(dialect, old(runs[i].id), old(runs[i].failure))
      ensures !done ==> OperationBlocked(Snapshot(), i)
    {
      if runs[i].failure.Ordinary? {
        done := ReportOrdinary(i);
      } else {
        done := ReportProtocol(i);
      }
    }

    /** Nothing is reported without a failure, or by an operation that was executed. */
    method ChooseReport(i: nat)
      requires Valid() && !world.panicked && i < |runs| && runs[i].pc.CheckExecuted?
      modifies this
      ensures Valid() && acts == old(acts) + [OperationGo(i, OWN)] && !world.panicked && |runs| == |old(runs)|
      ensures runs[i] == old(runs[i]).(pc := NextPc(old(ViewOf(Snapshot())), old(runs[i])))
      ensures requestDone == old(requestDone)
    {
      var r := runs[i];
      var next := CheckStopped;
      if !r.failure.NoFailure? && !r.executed {
        next := if r.failure.Ordinary? then Pc.MarkStopped
                else if dialect.GraphqlWs? then SendConnectionError else SendClose;
      }
      Update(i, r.(pc := next));
    }

    /** An error message marks its operation stopped before it is sent. */
    method ReportOrdinary(i: nat) returns (done: bool)
      requires Valid() && !world.panicked && i < |runs| && runs[i].pc.MarkStopped?
      modifies this
      ensures Valid() && old(acts) <= acts && (old(requestDone) ==> requestDone)
      ensures done ==> !world.panicked && i < |runs| && Continues(old(runs[i]), runs[i], CheckStopped)
      ensures done && !requestDone ==> runs[i].sent == old(runs[i].sent) + [Message(old(runs[i].id), Error)]
      ensures !done ==> OperationBlocked(Snapshot(), i)
    {
      done := PauseOperation(i);
      if !done { return; }
      Update(i, runs[i].(pc := SendError, stopped := true));
      done := WriteOperationMessage(i);
    }

    method ReportProtocol(i: nat) returns (done: bool)
      requires Valid() && !world.panicked && i < |runs| && runs[i].failure.Protocol?
      requires runs[i].pc == if dialect.GraphqlWs? then SendConnectionError else SendClose
      modifies this
      ensures Valid() && old(acts) <= acts && (old(requestDone) ==> requestDone)
      ensures done ==> !world.panicked && i < |runs| && Continues(old(runs[i]), runs[i], CheckStopped)
      ensures done && !requestDone ==>
                runs[i].sent == old(runs[i].sent) + Told(dialect, old(runs[i].id), old(runs[i].failure))
      ensures !done ==> OperationBlocked(Snapshot(), i)
    {
      if dialect.GraphqlWs? {
        done := WriteOperationMessage(i);
        if !done { return; }
      }
      done := SendOwnClose(i);
    }

    /** While the request lives `complete` is sent, in the older dialect in any case. */
    method SendCompletion(i: nat) returns (done: bool)
      requires Valid() && !world.panicked && i < |runs| && runs[i].pc.CheckStopped?
      modifies this
      ensures Valid() && old(acts) <= acts && (old(requestDone) ==> requestDone)
      ensures done ==> !world.panicked && i < |runs| && Continues(old(runs[i]), runs[i], CancelContext)
      ensures done && !requestDone ==>
                || runs[i].sent == old(runs[i].sent) + [Message(old(runs[i].id), Complete)]
                || (runs[i].sent == old(runs[i].sent) && dialect.GraphqlTransportWs?
                    && (runs[i].stopped || requestStopped))
      ensures !done ==> OperationBlocked(Snapshot(), i)
    {
      done := PauseOperation(i);
      if !done { return; }
      ChooseCompletion(i);
      if runs[i].pc.SendComplete? { done := WriteOperationMessage(i); }
    }

    method ChooseCompletion(i: nat)
      requires Valid() && !world.panicked && i < |runs| && runs[i].pc.CheckStopped?
      modifies this
      ensures Valid() && acts == old(acts) + [OperationGo(i, OWN)] && !world.panicked && |runs| == |old(runs)|
      ensures runs[i] == old(runs[i]).(pc := NextPc(old(ViewOf(Snapshot())), old(runs[i])))
      ensures requestDone == old(requestDone) && requestStopped == old(requestStopped)
    {
      var stopped := runs[i].stopped || requestStopped;
      Update(i, runs[i].(pc := if !stopped || dialect.GraphqlWs? then SendComplete else CancelContext));
    }

    /** The context is cancelled, the map's entry deleted, and the WaitGroup told. */
    method Unwind(i: nat) returns (done: bool)
      requires Valid() && !world.panicked && i < |runs| && runs[i].pc.CancelContext?
      modifies this
      ensures Valid() && old(acts) <= acts
      ensures done ==> !world.panicked && i < |runs| && Continues(old(runs[i]), runs[i], Finished)
      ensures done ==> runs[i].sent == old(runs[i].sent)
      ensures !done ==> OperationBlocked(Snapshot(), i)
    {
      CancelOperation(i);
      done := PauseOperation(i);
      if !done { return; }
      DeleteOperation(i);
      done := PauseOperation(i);
      if !done { return; }
      DoneWithWaitGroup(i);
    }

    method CancelOperation(i: nat)
      requires Valid() && !world.panicked && i < |runs| && runs[i].pc.CancelContext?
      modifies this
      ensures Valid() && acts == old(acts) + [OperationGo(i, OWN)] && !world.panicked
      ensures |runs| == |old(runs)| && runs[i] == old(runs[i]).(pc := Unregister, cancelled := true)
    {
      Update(i, runs[i].(pc := Unregister, cancelled := true));
    }

    method DeleteOperation(i: nat)
      requires Valid() && !world.panicked && waitGroup > 0 && i < |runs| && runs[i].pc.Unregister?
      modifies this
      ensures Valid() && acts == old(acts) + [OperationGo(i, OWN)] && !world.panicked
      ensures |runs| == |old(runs)| && runs[i] == old(runs[i]).(pc := Pc.WgDone)
      ensures operations == old(operations) - {runs[i].id}
    {
      Deletes(Start(), acts, Snapshot(), i);
      acts := acts + [OperationGo(i, OWN)];
      operations := operations - {runs[i].id};
      world := world.(script := world.script + [EndedEvent(runs[i].id)]);
      runs := runs[i := runs[i].(pc := Pc.WgDone)];
    }

    method DoneWithWaitGroup(i: nat)
      requires Valid() && !world.panicked && waitGroup > 0 && i < |runs| && runs[i].pc.WgDone?
      modifies this
      ensures Valid() && acts == old(acts) + [OperationGo(i, OWN)] && !world.panicked
      ensures |runs| == |old(runs)| && runs[i] == old(runs[i]).(pc := Finished) && waitGroup == old(waitGroup) - 1
    {
      Dones(Start(), acts, Snapshot(), i);
      acts := acts + [OperationGo(i, OWN)];
      waitGroup := waitGroup - 1;
      runs := runs[i := runs[i].(pc := Finished)];
    }

    /** The goroutine of one operation, from decoding its payload to WaitGroup.Done. `done` is false if
        it is blocked when a pause ends, its interceptors have not returned by then, or the process has
        panicked. */
    method ServeOperation(i: nat) returns (done: bool)
      requires Valid() && !world.panicked && i < |runs| && runs[i].pc.Decode?
      modifies this
      ensures Valid() && old(acts) <= acts
      ensures done ==> i < |runs| && SameOperation(old(runs[i]), runs[i], Finished)
      ensures done ==> GoodWord(dialect, Kinds(runs[i].sent))
      ensures done && !requestDone && dialect.GraphqlWs? ==> Completed(Kinds(runs[i].sent))
      ensures done && !requestDone && !WillExecute(runs[i].plan) ==>
                var told := Told(dialect, runs[i].id, FailureOf(dialect, runs[i].plan));
                runs[i].sent == told || runs[i].sent == told + [Message(runs[i].id, Complete)]
      ensures !done ==> OperationBlocked(Snapshot(), i)
    {
      done := RunInterceptors(i);
      if !done { return; }
      done := ReportFailure(i);
      if !done { return; }
      done := SendCompletion(i);
      if !done { return; }
      done := Unwind(i);
      if !done { return; }
      WordIsGood(i);
    }

    /** What the connection's theorems say of the operation. */
    lemma WordIsGood(i: nat)
      requires Valid() && i < |runs| && runs[i].pc.Finished?
      ensures GoodWord(dialect, Kinds(runs[i].sent))
      ensures !requestDone && dialect.GraphqlWs? ==> Completed(Kinds(runs[i].sent))
      ensures !requestDone && !WillExecute(runs[i].plan) ==>
                var told := Told(dialect, runs[i].id, FailureOf(dialect, runs[i].plan));
                runs[i].sent == told || runs[i].sent == told + [Message(runs[i].id, Complete)]
    {
      ReachableLocal(dialect, timeout, Snapshot(), i);
      if !requestDone && !WillExecute(runs[i].plan) { FailureReported(dialect, timeout, Snapshot(), i); }
    }
  }
}
