/** One operation of the websocket engine, as a local state machine: its goroutine, and the calls of
    the operation handler that its interceptors make.

    Interceptors are foreign code. They may call the handler any number of times, one call after the
    other or several at once from goroutines of their own. A connection's interceptors are said to
    await their calls if each returns only after the calls made on its behalf have; otherwise calls
    may go on, and begin, after the operation's goroutine has gone ahead. What interceptors will do is
    drawn when the operation is registered: whether the payload decodes, with which finite result
    streams the handler reaches execution, and what is finally returned. Everything that depends on
    other goroutines (when a call begins, when the interceptors return, which goroutine goes next,
    cancellation, the stopped flags, room in the channel) stays open at every step. */
module Operation {
  import opened Apollows

  /** A select statement either proceeds (sends, receives) or takes its cancellation branch. */
  datatype Choice = Proceed | Abandon

  /** Whose turn it is inside an operation: its own goroutine's, that of one handler call, or that of
      an interceptor which lets another handler call reach execution. */
  datatype Turn = Own(choice: Choice) | OfCall(call: nat, choice: Choice) | Begin

  datatype Plan = Plan(decodes: bool, calls: seq<seq<Outcome>>, outcome: Failure)

  /** Program points. Created precedes WaitGroup.Add and Added precedes the `go` statement; the
      others name the next thing the goroutine does. At Intercept the interceptors are running. */
  datatype Pc =
    | Created | Added
    | Decode | Intercept
    | CheckExecuted | MarkStopped | SendError | SendConnectionError | SendClose
    | CheckStopped | SendComplete | CancelContext | Unregister | WgDone | Finished

  /** Program points of the result loop of one handler call. */
  datatype CallPc = Select | CheckData | SendData | Over

  /** A handler call that has reached execution. `taken` and `given` are histories: the results it
      received, and those it enqueued. */
  datatype Call = Call(pc: CallPc, rest: seq<Outcome>, current: Outcome, taken: seq<Outcome>, given: seq<Outcome>)

  /** `calls` are the streams of the calls still to begin, `active` the calls begun, in that order.
      `stopped`, `executed` and `cancelled` are the flags of the operation's own context;
      `detached` says that a context derived from it by an interceptor was cancelled on its own.
      `sent`, `order` and `overlapped` are histories: the items enqueued, which call enqueued each
      result among them, and whether a call ever began while another one was running. */
  datatype Run = Run(
    id: string,
    plan: Plan,
    pc: Pc,
    calls: seq<seq<Outcome>>,
    active: seq<Call>,
    failure: Failure,
    stopped: bool,
    executed: bool,
    cancelled: bool,
    detached: bool,
    sent: seq<Item>,
    order: seq<nat>,
    overlapped: bool)

  /** The connection as an operation sees it; `awaits` says that its interceptors await their calls. */
  datatype View = View(dialect: Dialect, requestDone: bool, requestStopped: bool, awaits: bool)

  function NewRun(id: string, plan: Plan): Run {
    Run(id, plan, Created, plan.calls, [], NoFailure, false, false, false, false, [], [], false)
  }

  function NewCall(stream: seq<Outcome>): Call {
    Call(Select, stream, Outcome(0, false), [], [])
  }

  /** Registered and not yet deleted from the operations map. */
  predicate Live(r: Run) {
    !r.pc.WgDone? && !r.pc.Finished?
  }

  /** Counted by the WaitGroup. */
  predicate Counted(r: Run) {
    !r.pc.Created? && !r.pc.Finished?
  }

  predicate AllOver(calls: seq<Call>) {
    forall k :: 0 <= k < |calls| ==> calls[k].pc.Over?
  }

  /** ContextOperationStopped: the operation's own flag, or the one on the request context. */
  predicate Stopped(v: View, r: Run) {
    r.stopped || v.requestStopped
  }

  predicate Droppable(pc: Pc) {
    pc.SendError? || pc.SendConnectionError? || pc.SendComplete?
  }

  predicate OwnSend(pc: Pc) {
    Droppable(pc) || pc.SendClose?
  }

  /** The turn is at a send, which its choice completes or drops. */
  predicate Sending(r: Run, m: Turn) {
    match m
    case Own(_) => OwnSend(r.pc)
    case OfCall(k, _) => k < |r.active| && r.active[k].pc.SendData?
    case Begin => false
  }

  predicate Enqueues(r: Run, m: Turn) {
    Sending(r, m) && m.choice.Proceed?
  }

  /** Another handler call reaches execution. */
  predicate Begins(r: Run, m: Turn) {
    m.Begin? && r.calls != []
  }

  /** A call's result loop receives a result, rather than the end of the stream or a cancellation. */
  predicate Receives(r: Run, m: Turn) {
    m.OfCall? && m.choice.Proceed? && m.call < |r.active| && r.active[m.call].pc.Select? && r.active[m.call].rest != []
  }

  predicate CallCan(v: View, room: bool, r: Run, call: Call, c: Choice) {
    match call.pc
    case Select => c.Proceed? || v.requestDone || r.cancelled || r.detached
    case CheckData => c.Proceed?
    case SendData => if c.Proceed? then room else v.requestDone
    case Over => false
  }

  predicate OwnCan(v: View, room: bool, r: Run, c: Choice) {
    if r.pc.Created? || r.pc.Added? || r.pc.Finished? then false
    else if Droppable(r.pc) then if c.Proceed? then room else v.requestDone
    else
      && c.Proceed?
      && (r.pc.SendClose? ==> room)
      && (r.pc.Intercept? && v.awaits ==> r.calls == [] && AllOver(r.active))
  }

  /** Interceptors run once the payload is decoded; those that await their calls only until they
      return. */
  predicate BeginCan(v: View, r: Run) {
    && r.calls != []
    && (r.pc.Intercept? || (!v.awaits && r.plan.decodes && !r.pc.Created? && !r.pc.Added? && !r.pc.Decode?))
  }

  /** Whether the turn can be taken; `room` says a send would not block. */
  predicate CanStep(v: View, room: bool, r: Run, m: Turn) {
    match m
    case Own(c) => OwnCan(v, room, r, c)
    case OfCall(k, c) => k < |r.active| && CallCan(v, room, r, r.active[k], c)
    case Begin => BeginCan(v, r)
  }

  function ResultKind(d: Dialect, o: Outcome): Kind {
    if d.GraphqlWs? then Data(o) else Next(o)
  }

  function OwnItem(r: Run): Item
    requires OwnSend(r.pc)
  {
    match r.pc
    case SendError => Message(r.id, Error)
    case SendConnectionError => Message(r.id, ConnectionError)
    case SendComplete => Message(r.id, Complete)
    case SendClose => CloseWith(if r.failure.Protocol? then r.failure.code else CLOSE_NORMAL)
  }

  /** The item enqueued by a send. */
  function ItemOf(v: View, r: Run, m: Turn): Item
    requires Sending(r, m)
  {
    if m.OfCall? then Message(r.id, ResultKind(v.dialect, r.active[m.call].current)) else OwnItem(r)
  }

  // ----- A handler call

  /** processResult reports a result that carries errors to its caller, which ends the loop. */
  function AfterData(call: Call): CallPc {
    if call.current.errors then Over else Select
  }

  /** One step of a call's result loop; `skips` says that the operation is seen as stopped. */
  function NextCall(skips: bool, call: Call, c: Choice): Call {
    match call.pc
    case Select =>
      if c.Proceed? && call.rest != []
      then call.(pc := CheckData, current := call.rest[0], rest := call.rest[1..], taken := call.taken + [call.rest[0]])
      else call.(pc := Over)
    case CheckData => call.(pc := if skips then AfterData(call) else SendData)
    case SendData =>
      call.(pc := AfterData(call), given := if c.Proceed? then call.given + [call.current] else call.given)
    case Over => call
  }

  // ----- The goroutine

  /** Where control goes once a send has completed or was dropped. */
  function AfterSend(pc: Pc): Pc
    requires OwnSend(pc)
  {
    match pc
    case SendError => CheckStopped
    case SendConnectionError => SendClose
    case SendClose => CheckStopped
    case SendComplete => CancelContext
  }

  /** Where control goes next; a dropped send continues like a completed one. */
  function NextPc(v: View, r: Run): Pc {
    if OwnSend(r.pc) then AfterSend(r.pc)
    else match r.pc
    case Decode => if r.plan.decodes then Intercept else CheckExecuted
    case Intercept => CheckExecuted
    case CheckExecuted =>
      if r.failure.NoFailure? || r.executed then CheckStopped
      else if r.failure.Ordinary? then MarkStopped
      else if v.dialect.GraphqlWs? then SendConnectionError
      else SendClose
    case MarkStopped => SendError
    case CheckStopped => if !Stopped(v, r) || v.dialect.GraphqlWs? then SendComplete else CancelContext
    case CancelContext => Unregister
    case Unregister => WgDone
    case WgDone => Finished
    case _ => r.pc
  }

  function NextFailure(v: View, r: Run): Failure {
    if r.pc.Decode? && !r.plan.decodes then
      if v.dialect.GraphqlTransportWs? then Protocol(INVALID_MESSAGE) else Ordinary
    else if r.pc.Intercept? then r.plan.outcome
    else r.failure
  }

  /** One step of a handler call. */
  function AdvanceCall(v: View, r: Run, m: Turn): Run
    requires m.OfCall? && m.call < |r.active|
  {
    var call := r.active[m.call];
    r.(active := r.active[m.call := NextCall(v.dialect.GraphqlTransportWs? && Stopped(v, r), call, m.choice)],
       sent := if Enqueues(r, m) then r.sent + [ItemOf(v, r, m)] else r.sent,
       order := if Enqueues(r, m) then r.order + [m.call] else r.order)
  }

  /** A handler call reaches execution, which marks the operation executed. */
  function BeginCall(r: Run): Run
    requires r.calls != []
  {
    r.(calls := r.calls[1..],
       active := r.active + [NewCall(r.calls[0])],
       executed := true,
       overlapped := r.overlapped || !AllOver(r.active))
  }

  /** A step of the operation's goroutine. */
  function AdvanceOwn(v: View, r: Run, m: Turn): Run
    requires m.Own?
  {
    r.(pc := NextPc(v, r),
       failure := NextFailure(v, r),
       stopped := r.stopped || r.pc.MarkStopped?,
       cancelled := r.cancelled || r.pc.CancelContext?,
       sent := if Enqueues(r, m) then r.sent + [ItemOf(v, r, m)] else r.sent)
  }

  function Advance(v: View, r: Run, m: Turn): Run {
    match m
    case Own(_) => AdvanceOwn(v, r, m)
    case OfCall(k, _) => if k < |r.active| then AdvanceCall(v, r, m) else r
    case Begin => if r.calls != [] then BeginCall(r) else r
  }
}
