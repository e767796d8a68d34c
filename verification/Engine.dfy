/** One websocket connection as a transition system: the reader, one goroutine per operation, the
    writer draining the outgoing channel, and the optional connection-timeout goroutine.

    An action is one atomic step of one goroutine, together with the choices that step leaves to
    its environment. Looking an operation up and inserting it are different steps, as are checking
    whether an operation is stopped and sending a message for it. */
module Engine {
  import opened Apollows
  import opened Operation

  datatype Origin = ByReader | ByTimer | ByOperation(index: nat)

  /** An item in the outgoing channel; `origin` is a history annotation that never reaches the wire. */
  datatype Entry = Entry(origin: Origin, item: Item)

  /** Client messages. `outcome` is what decoding the init payload and the Init interceptor return. */
  datatype ClientMessage =
    | Init(outcome: Failure)
    | Start(id: string, plan: Plan)
    | Stop(id: string)
    | Terminate
    | Ping
    | Unknown

  /** What the reader has acted upon, and the ends of operations: EndedEvent is the deletion of an
      operation from the map by its own goroutine. */
  datatype Event =
    | InitEvent(outcome: Failure)
    | StartEvent(id: string)
    | StopEvent
    | TerminateEvent
    | PingEvent
    | OtherEvent
    | FailureEvent
    | EndedEvent(id: string)

  datatype ReaderPc =
    | Reading
    | Signal(outcome: Failure) | InitCall(outcome: Failure) | SendAck
    | Lookup(id: string, plan: Plan) | Insert(id: string, plan: Plan) | WgAdd(run: nat) | Spawn(run: nat)
    | StopLookup(id: string) | StopMark(run: nat) | StopCancel(run: nat)
    | TerminateMark | SendTermination
    | SendPong
    | Exit(failure: Failure) | ExitConnectionError(code: nat) | ExitClose(code: nat) | ExitError
    | CancelRequestContext | Wait | CloseChannel | Gone

  /** `Ticking` writes a keepalive, `Reacting` closes the socket after a write has failed. */
  datatype WriterPc = Idle | Writing(entry: Entry) | Ticking | Reacting | Returned

  /** Off when no connection timeout is configured. */
  datatype TimerPc = Off | Waiting | TimerConnectionError | TimerClose | Expired

  /** What the writer attempts on the socket. */
  datatype Frame = Forwarded(entry: Entry) | Keepalive | ReactionClose

  datatype State = State(
    dialect: Dialect,
    awaits: bool,
    reader: ReaderPc,
    init: bool,
    operations: map<string, nat>,
    runs: seq<Run>,
    waitGroup: int,
    requestDone: bool,
    requestStopped: bool,
    queue: seq<Entry>,
    closed: bool,
    panicked: bool,
    writer: WriterPc,
    timer: TimerPc,
    // histories
    log: seq<Entry>,
    delivered: seq<Entry>,
    frames: seq<Frame>,
    script: seq<Event>,
    readerSent: seq<Item>,
    ackDropped: bool)

  datatype Action =
    | Receive(message: ClientMessage)
    | ReceiveFailure
    | ReaderGo(choice: Choice)
    | OperationGo(run: nat, turn: Turn)
    | WriterTake
    | WriterTick
    | WriterWrite(ok: bool)
    | WriterReact
    | WriterReturn
    | TimerFire
    | TimerQuit
    | TimerGo(choice: Choice)
    | CancelRequest
    | Detach(run: nat)

  /** The reader's next step, taking the sending branch if it is at a select. */
  const GO := ReaderGo(Proceed)

  /** A new connection, whose interceptors await their handler calls. */
  function Start0(dialect: Dialect, timeout: bool): State {
    State(dialect, true, Reading, false, map[], [], 0, false, false, [], false, false, Idle,
          if timeout then Waiting else Off, [], [], [], [], [], false)
  }

  function ViewOf(s: State): View {
    View(s.dialect, s.requestDone, s.requestStopped, s.awaits)
  }

  /** A send does not block: the channel has room, or it is closed and the send panics. */
  predicate Room(s: State) {
    s.closed || |s.queue| < 1
  }

  function Extend<T>(s: seq<T>, more: seq<T>): (r: seq<T>)
    ensures r == s + more
  {
    if more == [] then s else s + more
  }

  // ----- Reader

  predicate ReaderDroppable(pc: ReaderPc) {
    pc.SendAck? || pc.SendPong? || pc.ExitConnectionError? || pc.ExitError?
  }

  predicate ReaderSends(pc: ReaderPc) {
    ReaderDroppable(pc) || pc.SendTermination? || pc.ExitClose?
  }

  predicate ReaderCan(s: State, c: Choice) {
    if s.reader.Reading? || s.reader.Gone? then false
    else if ReaderDroppable(s.reader) && c.Abandon? then s.requestDone
    else
      && c.Proceed?
      && (ReaderSends(s.reader) ==> Room(s))
      && (s.reader.Signal? ==> s.timer.Waiting?)
      && (s.reader.Wait? ==> s.waitGroup == 0)
  }

  function ReaderItem(pc: ReaderPc): Item
    requires ReaderSends(pc)
  {
    match pc
    case SendAck => Message("", ConnectionAck)
    case SendPong => Message("", Pong)
    case SendTermination => CloseWith(CLOSE_NORMAL)
    case ExitConnectionError(_) => Message("", ConnectionError)
    case ExitClose(code) => CloseWith(code)
    case ExitError => Message("", Error)
  }

  /** An init is required before operations, in graphql-transport-ws only. */
  predicate Unauthorized(s: State) {
    !s.init && s.dialect.GraphqlTransportWs?
  }

  function OnMessage(s: State, m: ClientMessage): ReaderPc {
    match m
    case Init(outcome) =>
      if s.init then Exit(Protocol(TOO_MANY_INITIALIZATION_REQUESTS))
      else if s.timer.Off? then InitCall(outcome) else Signal(outcome)
    case Start(id, plan) => if Unauthorized(s) then Exit(Protocol(UNAUTHORIZED)) else Lookup(id, plan)
    case Stop(id) => if Unauthorized(s) then Exit(Protocol(UNAUTHORIZED)) else StopLookup(id)
    case Terminate => if s.dialect.GraphqlTransportWs? then Exit(Protocol(UNAUTHORIZED)) else TerminateMark
    case Ping => SendPong
    case Unknown => Reading
  }

  /** Where the reader goes on once a send has completed or was dropped. */
  function AfterReaderSend(pc: ReaderPc): ReaderPc {
    match pc
    case ExitConnectionError(code) => ExitClose(code)
    case ExitClose(_) => CancelRequestContext
    case ExitError => CancelRequestContext
    case _ => Reading
  }

  function ReaderNext(s: State): ReaderPc {
    if ReaderSends(s.reader) then AfterReaderSend(s.reader)
    else match s.reader
    case Signal(outcome) => InitCall(outcome)
    case InitCall(outcome) => if outcome.NoFailure? then SendAck else Exit(outcome)
    case Lookup(id, plan) =>
      if id in s.operations then Exit(Protocol(SUBSCRIBER_ALREADY_EXISTS)) else Insert(id, plan)
    case Insert(_, _) => WgAdd(|s.runs|)
    case WgAdd(run) => Spawn(run)
    case Spawn(_) => Reading
    case StopLookup(id) => if id in s.operations then StopMark(s.operations[id]) else Reading
    case StopMark(run) => StopCancel(run)
    case StopCancel(_) => Reading
    case TerminateMark => SendTermination
    case Exit(failure) =>
      if failure.Protocol? then
        if s.dialect.GraphqlWs? then ExitConnectionError(failure.code) else ExitClose(failure.code)
      else ExitError
    case CancelRequestContext => Wait
    case Wait => CloseChannel
    case CloseChannel => Gone
    case _ => s.reader
  }

  function NextReader(s: State, a: Action): ReaderPc {
    match a
    case Receive(m) => OnMessage(s, m)
    case ReceiveFailure => Exit(Ordinary)
    case ReaderGo(_) => ReaderNext(s)
    case _ => s.reader
  }

  function EventOf(s: State, m: ClientMessage): seq<Event> {
    match m
    case Init(outcome) => [InitEvent(outcome)]
    case Start(id, _) => if Unauthorized(s) then [StartEvent(id)] else []
    case Stop(_) => [StopEvent]
    case Terminate => [TerminateEvent]
    case Ping => [PingEvent]
    case Unknown => [OtherEvent]
  }

  function Events(s: State, a: Action): seq<Event> {
    match a
    case Receive(m) => EventOf(s, m)
    case ReceiveFailure => [FailureEvent]
    case ReaderGo(_) => if s.reader.Lookup? then [StartEvent(s.reader.id)] else []
    case OperationGo(i, _) => if OwnStepAt(s, a, Unregister) then [EndedEvent(s.runs[i].id)] else []
    case _ => []
  }

  // ----- Shared state

  /** An operation's own goroutine takes its step at the given program point. */
  predicate OwnStepAt(s: State, a: Action, pc: Pc) {
    a.OperationGo? && a.run < |s.runs| && a.turn.Own? && s.runs[a.run].pc == pc
  }

  predicate TimerSends(pc: TimerPc) {
    pc.TimerConnectionError? || pc.TimerClose?
  }

  /** What an action enqueues: nothing, or one entry. */
  function Emitted(s: State, a: Action): seq<Entry> {
    match a
    case ReaderGo(c) =>
      if ReaderSends(s.reader) && c.Proceed? then [Entry(ByReader, ReaderItem(s.reader))] else []
    case OperationGo(i, m) =>
      if i < |s.runs| && Enqueues(s.runs[i], m)
      then [Entry(ByOperation(i), ItemOf(ViewOf(s), s.runs[i], m))] else []
    case TimerGo(c) =>
      if c.Abandon? then []
      else if s.timer.TimerConnectionError? then [Entry(ByTimer, Message("", ConnectionError))]
      else if s.timer.TimerClose? then [Entry(ByTimer, CloseWith(INITIALIZATION_TIMEOUT))]
      else []
    case _ => []
  }

  function NextRuns(s: State, a: Action): seq<Run> {
    match a
    case OperationGo(i, m) =>
      if i < |s.runs| then s.runs[i := Advance(ViewOf(s), s.runs[i], m)] else s.runs
    case Detach(i) => if i < |s.runs| then s.runs[i := s.runs[i].(detached := true)] else s.runs
    case ReaderGo(_) =>
      (match s.reader
       case Insert(id, plan) => s.runs + [NewRun(id, plan)]
       case WgAdd(i) => if i < |s.runs| then s.runs[i := s.runs[i].(pc := Added)] else s.runs
       case Spawn(i) => if i < |s.runs| then s.runs[i := s.runs[i].(pc := Decode)] else s.runs
       case StopMark(i) => if i < |s.runs| then s.runs[i := s.runs[i].(stopped := true)] else s.runs
       case StopCancel(i) => if i < |s.runs| then s.runs[i := s.runs[i].(cancelled := true)] else s.runs
       case _ => s.runs)
    case _ => s.runs
  }

  function NextOperations(s: State, a: Action): map<string, nat> {
    if a.ReaderGo? && s.reader.Insert? then s.operations[s.reader.id := |s.runs|]
    else if OwnStepAt(s, a, Unregister) then s.operations - {s.runs[a.run].id}
    else s.operations
  }

  function NextWaitGroup(s: State, a: Action): int {
    if a.ReaderGo? && s.reader.WgAdd? then s.waitGroup + 1
    else if OwnStepAt(s, a, WgDone) then s.waitGroup - 1
    else s.waitGroup
  }

  function NextQueue(s: State, a: Action): seq<Entry> {
    if a.WriterTake? && |s.queue| > 0 then s.queue[1..] else Extend(s.queue, Emitted(s, a))
  }

  function NextDelivered(s: State, a: Action): seq<Entry> {
    if a.WriterTake? && |s.queue| > 0 then s.delivered + [s.queue[0]] else s.delivered
  }

  function NextReaderSent(s: State, a: Action): seq<Item> {
    if a.ReaderGo? && ReaderSends(s.reader) && a.choice.Proceed? then s.readerSent + [ReaderItem(s.reader)]
    else s.readerSent
  }

  function NextWriter(s: State, a: Action): WriterPc {
    match a
    case WriterTake => if |s.queue| > 0 then Writing(s.queue[0]) else s.writer
    case WriterTick => Ticking
    case WriterWrite(ok) => if ok then Idle else Reacting
    case WriterReact => Idle
    case WriterReturn => Returned
    case _ => s.writer
  }

  function NextFrames(s: State, a: Action): seq<Frame> {
    match a
    case WriterWrite(_) => s.frames + [if s.writer.Writing? then Forwarded(s.writer.entry) else Keepalive]
    case WriterReact => s.frames + [ReactionClose]
    case _ => s.frames
  }

  function NextTimer(s: State, a: Action): TimerPc {
    match a
    case TimerFire => if s.dialect.GraphqlWs? then TimerConnectionError else TimerClose
    case TimerQuit => Expired
    case TimerGo(_) => if s.timer.TimerConnectionError? then TimerClose else Expired
    case ReaderGo(_) => if s.reader.Signal? then Expired else s.timer
    case _ => s.timer
  }

  predicate TimerCan(s: State, c: Choice) {
    if c.Proceed? then TimerSends(s.timer) && Room(s) else s.timer.TimerConnectionError? && s.requestDone
  }

  predicate Enabled(s: State, a: Action) {
    && !s.panicked
    && match a
       case Receive(_) => s.reader.Reading?
       case ReceiveFailure => s.reader.Reading?
       case ReaderGo(c) => ReaderCan(s, c)
       case OperationGo(i, m) => i < |s.runs| && CanStep(ViewOf(s), Room(s), s.runs[i], m)
       case WriterTake => s.writer.Idle? && |s.queue| > 0
       case WriterTick => s.writer.Idle?
       case WriterWrite(_) => s.writer.Writing? || s.writer.Ticking?
       case WriterReact => s.writer.Reacting?
       case WriterReturn => s.writer.Idle? && s.closed && s.queue == []
       case TimerFire => s.timer.Waiting?
       case TimerQuit => s.timer.Waiting? && s.requestDone
       case TimerGo(c) => TimerCan(s, c)
       case CancelRequest => true
       case Detach(i) => i < |s.runs|
  }

  /** Sending on a closed channel, closing it again, and a negative WaitGroup panic. */
  predicate Crashes(s: State, a: Action) {
    || (Emitted(s, a) != [] && s.closed)
    || (a.ReaderGo? && s.reader.CloseChannel? && s.closed)
    || NextWaitGroup(s, a) < 0
  }

  function Step(s: State, a: Action): State {
    if Crashes(s, a) then s.(panicked := true)
    else
      s.(reader := NextReader(s, a),
         init := s.init || (a.Receive? && a.message.Init?),
         operations := NextOperations(s, a),
         runs := NextRuns(s, a),
         waitGroup := NextWaitGroup(s, a),
         requestDone := s.requestDone || a.CancelRequest? || (a.ReaderGo? && s.reader.CancelRequestContext?),
         requestStopped := s.requestStopped || (a.ReaderGo? && s.reader.TerminateMark?),
         queue := NextQueue(s, a),
         closed := s.closed || (a.ReaderGo? && s.reader.CloseChannel?),
         writer := NextWriter(s, a),
         timer := NextTimer(s, a),
         log := Extend(s.log, Emitted(s, a)),
         delivered := NextDelivered(s, a),
         frames := NextFrames(s, a),
         script := Extend(s.script, Events(s, a)),
         readerSent := NextReaderSent(s, a),
         ackDropped := s.ackDropped || (a.ReaderGo? && a.choice.Abandon? && s.reader.SendAck?))
  }

  /** `a` is enabled in `s` and leads to `t`. */
  ghost predicate Move(s: State, a: Action, t: State) {
    Enabled(s, a) && t == Step(s, a)
  }

  /** The k-th action is enabled in the state before it and produces the state after it. */
  ghost predicate Follows(states: seq<State>, acts: seq<Action>, k: nat)
    requires k < |acts| && |states| == |acts| + 1
  {
    Move(states[k], acts[k], states[k + 1])
  }

  ghost predicate Trace(states: seq<State>, acts: seq<Action>) {
    |states| == |acts| + 1 && forall k :: 0 <= k < |acts| ==> Follows(states, acts, k)
  }

  /** `acts` can be taken one after the other from `s`, and leads to `t`. */
  ghost predicate Leads(s: State, acts: seq<Action>, t: State) {
    exists states :: Trace(states, acts) && states[0] == s && states[|acts|] == t
  }

  lemma LeadsNone(s: State)
    ensures Leads(s, [], s)
  {
    assert Trace([s], []);
  }

  lemma TraceLast(states: seq<State>, acts: seq<Action>, a: Action, t: State)
    requires Trace(states, acts) && Move(states[|acts|], a, t)
    ensures Trace(states + [t], acts + [a])
  {
    forall k | 0 <= k <= |acts| ensures Follows(states + [t], acts + [a], k) {
      if k < |acts| { assert Follows(states, acts, k); }
    }
  }

  lemma LeadsLast(s: State, acts: seq<Action>, u: State, a: Action)
    requires Leads(s, acts, u) && Enabled(u, a)
    ensures Leads(s, acts + [a], Step(u, a))
  {
    var states :| Trace(states, acts) && states[0] == s && states[|acts|] == u;
    TraceLast(states, acts, a, Step(u, a));
    var more := states + [Step(u, a)];
    assert more[0] == s && more[|acts + [a]|] == Step(u, a);
  }

  lemma TraceFirst(s: State, a: Action, states: seq<State>, acts: seq<Action>)
    requires Trace(states, acts) && Move(s, a, states[0])
    ensures Trace([s] + states, [a] + acts)
  {
    var more, all := [s] + states, [a] + acts;
    forall k | 0 <= k <= |acts| ensures Follows(more, all, k) {
      if k == 0 {
        assert more[0] == s && all[0] == a && more[1] == states[0];
      } else {
        assert Follows(states, acts, k - 1);
        assert more[k] == states[k - 1] && all[k] == acts[k - 1] && more[k + 1] == states[k];
      }
    }
  }

  lemma LeadsFirst(s: State, a: Action, u: State, acts: seq<Action>, t: State)
    requires Move(s, a, u) && Leads(u, acts, t)
    ensures Leads(s, [a] + acts, t)
  {
    var states :| Trace(states, acts) && states[0] == u && states[|acts|] == t;
    TraceFirst(s, a, states, acts);
    var more := [s] + states;
    assert more[0] == s && more[|[a] + acts|] == t;
  }

  lemma TraceRest(states: seq<State>, acts: seq<Action>)
    requires Trace(states, acts) && acts != []
    ensures Move(states[0], acts[0], states[1]) && Trace(states[1..], acts[1..])
  {
    assert Follows(states, acts, 0);
    forall k | 0 <= k < |acts| - 1 ensures Follows(states[1..], acts[1..], k) {
      assert Follows(states, acts, k + 1);
    }
  }

  lemma LeadsRest(s: State, acts: seq<Action>, t: State)
    requires Leads(s, acts, t)
    ensures acts == [] ==> s == t
    ensures acts != [] ==> Enabled(s, acts[0]) && Leads(Step(s, acts[0]), acts[1..], t)
  {
    var states :| Trace(states, acts) && states[0] == s && states[|acts|] == t;
    if acts != [] {
      TraceRest(states, acts);
      var less := states[1..];
      assert less[0] == Step(s, acts[0]) && less[|acts[1..]|] == t;
    }
  }

  /** `t` is reached in some interleaving of a connection with the given dialect and timeout. */
  ghost predicate Reachable(dialect: Dialect, timeout: bool, t: State) {
    exists acts :: Leads(Start0(dialect, timeout), acts, t)
  }
}
