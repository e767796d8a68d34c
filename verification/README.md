# wsgraphql, verified in Dafny

A model of the wsgraphql server (GraphQL over HTTP and over two websocket dialects) with proofs of what
it guarantees. The centre is one websocket connection: a reader, a writer that drains a channel of
capacity one, one goroutine per client operation, and the goroutine of the optional connection timeout.

* `Apollows.dfy`, `Operation.dfy`, `Engine.dfy`: the connection as a transition system. An action is one
  atomic step of one goroutine; the log of everything enqueued is kept as a history. Looking an operation
  up and inserting it are separate steps, as are checking whether it is stopped and sending for it. A
  `select` between a send and a cancelled request may take either branch that is open. A send on a closed
  channel, a second close and a negative WaitGroup are panics that the model can reach. Several calls of an
  operation's handler may be in flight at once, each with a result loop of its own.
* `Streams.dfy`, `OperationMessages.dfy`, `OperationCalls.dfy`, `OperationSafety.dfy`: what one operation
  sends, when it fails and when it delivers results, whatever the other goroutines do.
* `EngineChannel.dfy`, `EngineRegistry.dfy`, `EngineReader.dfy`, `EngineHandshake.dfy`, `EngineWire.dfy`,
  `EngineSafety.dfy`: the inductive invariant, part by part.
* `EngineTheorems.dfy`, `EngineTermination.dfy`, `EngineTimeout.dfy`: the guarantees, for every reachable
  state of every interleaving (`Engine.Reachable`) and every continuation (`Engine.Leads`).
  `EngineWitness.dfy`: runs that exist, which show that bounds and conditions are exact. These guarantees are
  for interceptors that return only after the calls they made of their handler have; `EngineAwaiting.dfy`
  says what holds, and what does not, if they need not.
* `Connection.dfy`, `ConnectionSteps.dfy`: the same connection as an object whose methods follow the server's
  functions, for the reader and for an operation's goroutine, and update its fields in place. Between any two
  atomic steps the other goroutines do whatever they can; every method is proved to stay on the transition
  system, so that everything above is about the object.
* `Contexts.dfy`: the tree of mutable contexts, as heap objects. `OperationContexts.dfy`: the stopped and
  executed flags of an operation in the websocket model are lookups in that tree, and every step that sets
  one is one `Set`.
* `Results.dfy`: the cancellable result loop, error formatting, and the legacy result callback before it.
  `ResultLoops.dfy`: the result loop of a websocket handler call is the same.
* `ParseAst.dfy`: parsing and validation between extension callbacks that may panic.
* `Interceptors.dfy`: interceptor chains and the options that build them up.
* `PlainHttp.dfy`: plain HTTP requests and their responses.

What the environment does is left open: client messages, cancellations, failing writes, keepalives, and
for each operation whether its payload decodes, with which finite result streams its interceptors let the
handler reach execution, in sequence or at once, and what they return. An operation's choices are fixed when
it is registered; as a run consumes them one by one this excludes no finite run. `Engine.Reachable` is about
interceptors that await their handler calls, `EngineAwaiting.ReachableAs` about either kind.

Where comments or documentation and code differ, the code is followed:

* v1/server_websocket.go:364 says that nothing writes to the channel after the operations have been
  awaited. That holds exactly if no connection timeout is configured and interceptors await their handler
  calls (`EngineAwaiting.PanicFreeIff`): a timeout goroutine, and a handler call that outlives its operation,
  can both send on the closed channel.
* Lines 92-93 of the same file say that the reader's exit is ensured. With interceptors that await their calls
  every state can still be torn down exactly if no connection timeout is configured
  (`EngineTimeout.TeardownIffNoTimeout`).
* CHANGELOG.md:36 has results and errors of one operation exclude each other. They do, however often and
  with whatever overlap interceptors call the handler, exactly if interceptors await those calls
  (`EngineAwaiting.ExclusiveIffAwaited`); an interceptor that gives up on its handler and returns an error can
  make its operation send both (`EngineAwaiting.ResultAndError`).
* v1/apollows/proto.go:39-47 says that `complete` or `error` ends an operation. In `graphql-ws` the code sends
  `complete` after an error as well (`EngineWitness.ErrorThenComplete`): exactly if the payload did not decode,
  or the interceptors returned a failure without having reached execution
  (`EngineTheorems.ErrorThenCompleteIff`). In `graphql-transport-ws` an `error` is the operation's only message,
  and an operation whose payload cannot be decoded enqueues a close directive and then `complete`
  (`EngineTheorems.TransportFailureIff`, `EngineTheorems.FailureReported`).
* Setting the stopped flag keeps all but one message of a `graphql-transport-ws` operation out of the channel
  exactly if no two of its handler calls are past their check of the flag (`EngineWitness.AtMostOneIff`);
  two can be (`EngineWitness.TwoPastTheCheck`), but not if interceptors make their calls one after the other
  (`EngineTheorems.AtMostOneInTurn`).
* Extensions that share a name overwrite each other's finish functions; the claim that every finish function
  runs holds exactly if the names are distinct (`ParseAst.AllKeptIffDistinct`).
* A subscription over plain HTTP whose connection cannot be flushed announces the length of its first line
  only, which is wrong exactly if there is more than one result (`PlainHttp.Response.Serve`,
  `PlainHttp.LengthFallsShort`).

## Model

| member | source | states |
|---|---|---|
| EngineTheorems.OperationWords | v1/server_websocket.go:272-300 | At every moment the messages an operation has enqueued form a word `next* complete?` or a lone `error` (transport dialect), or `(data* or error or connection_error) complete?` (older dialect); none is an error once execution was reached; a finished operation has ended with exactly one `complete` if the request was never cancelled (and, in the transport dialect, it was not stopped) |
| EngineTheorems.FailureReported | v1/server_websocket.go:273-291 | While the request lives, a finished operation that did not reach execution has told its failure in full and nothing else but `complete`: `error`, or `connection_error` and a close directive, or in the transport dialect a close directive alone |
| EngineTheorems.ErrorThenCompleteIff | v1/apollows/proto.go:39-47 | In the older dialect a finished operation of a living request ended with `complete`, after an error exactly if its payload did not decode, or its interceptors returned a failure without having reached execution |
| EngineTheorems.TransportFailureIff | v1/server_websocket.go:154-186 | In the transport dialect an `error` is alone and there is one exactly for an ordinary failure before execution; there is a close directive exactly for a protocol failure before execution, with its code |
| EngineTheorems.UndisturbedDelivery | v1/server_websocket.go:418-436 | An executed operation nobody disturbed, whatever its interceptors did, puts exactly the results of each handler call up to the first with errors on the wire, each call's in order, then one `complete`; the calls one after the other unless they overlapped |
| EngineTheorems.ResultsInOrder | v1/server_websocket.go:188-203 | The results enqueued interleave what the handler calls delivered; while the request lives and the operation is not stopped each call has delivered what it received but for the result in hand, in order, none lost; what it received is a prefix of its stream up to the first errors |
| EngineTheorems.StopBound | v1/server_websocket.go:197-203 | In the transport dialect, once an operation is stopped, no more items of it enter the channel than handler calls are past their stopped check, or one of its goroutine's own, in every continuation |
| EngineTheorems.AtMostOneAfterStop | v1/server_websocket.go:197-199 | At most one further item of a stopped operation in the transport dialect, in every continuation, unless two handler calls are past their stopped check |
| EngineTheorems.AtMostOneInTurn | v1/server_websocket.go:197-203 | At most one further item of a stopped operation in the transport dialect, in every continuation, if its handler calls have not overlapped |
| EngineTheorems.FlagsNeverReset | v1/context.go:112-140 | Stopped and executed flags, once set, stay set whatever any goroutine does |
| EngineTheorems.WholeRunsPerId | v1/server_websocket.go:253-268 | The log restricted to a non-empty ID is the words of the runs that used it, one whole run after the other, the earlier ones all deleted |
| EngineTheorems.EndedRunsStaySilent | v1/server_websocket.go:288-297 | A deleted operation never enqueues again |
| EngineTheorems.MapIsExact | v1/server_websocket.go:253-297 | The operations map is exactly the registered and not yet deleted runs; an insertion never overwrites although the lookup was another step; a deletion removes the deleter's own entry |
| EngineTheorems.NeverPanics | v1/server_websocket.go:356-368 | Without a timeout no goroutine sends on the closed channel or closes it again, the WaitGroup counts exactly the unfinished operations, and the channel is closed only after all have finished |
| EngineTheorems.Handshake | v1/server_websocket.go:224-251 | At most one acknowledgement; in the transport dialect an operation exists only after an accepted init, and its items follow the acknowledgement unless that was dropped, which takes a cancelled request |
| EngineTheorems.ReaderRefinesValidator | v1/server_websocket.go:378-415 | The reader agrees with an abstract validator that tracks the handshake and the live IDs by itself, from client messages and ends of operations: its live IDs are those of the map, the reader acts on nothing after the first violation and leaves with that violation's error |
| EngineTheorems.ViolationClosesOnce | v1/server_websocket.go:154-170 | In the transport dialect a violation enqueues exactly one close directive, with the matching code, as the reader's last item; it is never dropped |
| EngineTheorems.SilentReaderStaysSilent | v1/server_websocket.go:356-368 | Once the reader has reported its error it neither reads nor sends again |
| EngineTheorems.AnswersInOrder | v1/server_websocket.go:224-245 | While the request lives the reader has enqueued exactly one answer per accepted init, ping and terminate, in order |
| EngineTheorems.TerminateStopsOperations | v1/server_websocket.go:322-334 | A terminate in the older dialect stops every operation of the connection, registered before or after |
| EngineTheorems.FifoDelivery | v1/server_websocket.go:94-116 | Enqueued is delivered then queued, at most one item is queued, and the frames attempted are the delivered items in order, keepalives and reactions to failed writes erased; nothing is left when the writer returns |
| EngineHandshake.AcceptedInit | v1/server_websocket.go:387-401 | Being past the handshake means that a successful init was received |
| EngineReader.ReaderProceeds | v1/server_websocket.go:154-186 | Each later step of the reader keeps its program point in agreement with the validator's verdict |
| EngineReader.ReaderReceives | v1/server_websocket.go:386-410 | The reader's reaction to each kind of message is the validator's verdict on it: 4429 for a second init, 4401 for operations before the init or any terminate in the transport dialect |
| EngineReader.OperationEnds | v1/server_websocket.go:295-297 | An operation that ends frees its ID for the validator exactly when it does for the reader |
| EngineReader.OwedOrSent | v1/server_websocket.go:210-221 | A living request never lets the reader drop an answer |
| EngineTermination.NeverStuck | v1/server_websocket.go:92-116 | Without a timeout every reachable state that is not the final one has an enabled step of some goroutine, or the reader is waiting for the client |
| EngineTermination.TeardownBounded | v1/server_websocket.go:356-368 | Once the reader has left its loop all goroutines together take at most a number of steps computed from the state, not counting keepalives |
| EngineTermination.TeardownProgress | v1/server.go:68-86 | During the teardown some goroutine can always step without waiting for a result |
| EngineTermination.TeardownCompletes | v1/server_websocket.go:356-368 | The teardown reaches the final state: map empty, WaitGroup zero, request cancelled, channel closed and drained, everything delivered, writer returned |
| EngineTermination.Completes | v1/server_websocket.go:92-116 | From every reachable state the final state can be reached, given only that the client disconnects |
| EngineTermination.RunDecreases | v1/server_websocket.go:272-300 | Every step of an operation brings it nearer its end, sends counted with what the writer does about them |
| EngineTimeout.PanicFreeIffNoTimeout | v1/server_websocket.go:340-376 | Panics are unreachable exactly if no connection timeout is configured |
| EngineTimeout.TimeoutCanPanic | v1/server_websocket.go:340-351 | The run in which the timeout goroutine sends on the closed channel |
| EngineTimeout.TeardownIffNoTimeout | v1/server_websocket.go:396-399 | Every reachable state can still be torn down exactly if no connection timeout is configured |
| EngineTimeout.TimeoutCanBlock | v1/server_websocket.go:396-399 | The run after which the reader waits for ever for the timeout goroutine |
| EngineWitness.OperationCanFinish | v1/server_websocket.go:272-300 | From every reachable state a started operation can finish with the request, the reader and all other operations as they are |
| EngineWitness.EveryPlanFinishes | v1/server_websocket.go:272-300 | Whatever an operation is to do, there is a run in which it does so to its end undisturbed |
| EngineWitness.ErrorThenComplete | v1/apollows/proto.go:39-47 | A run of the older dialect whose operation sends `error` and then `complete` |
| EngineWitness.AtMostOneIff | v1/server_websocket.go:197-203 | A stopped operation of the transport dialect enqueues at most one further item whatever happens exactly if at most one of its handler calls is past the stopped check |
| EngineWitness.TwoPastTheCheck | v1/server_websocket.go:197-203 | A run in which two are |
| EngineAwaiting.ExclusiveIffAwaited | v1/server_websocket.go:284-286 | Results and errors of an operation exclude each other in all runs exactly if interceptors await their handler calls |
| EngineAwaiting.ResultAndError | v1/server_websocket.go:284-286 | A run, in either dialect, of an interceptor that does not, whose operation sends a result and an error |
| EngineAwaiting.SilentIffAwaited | v1/server_websocket.go:288-299 | A finished operation enqueues nothing more in any continuation exactly if interceptors await their handler calls |
| EngineAwaiting.PanicFreeIff | v1/server_websocket.go:356-368 | Panics are unreachable exactly if no connection timeout is configured and interceptors await their handler calls |
| EngineAwaiting.LatePanic | v1/server_websocket.go:205-219 | The run in which a late handler call sends on the closed channel |
| EngineAwaiting.RelaxedLeads | v1/server_websocket.go:90-116 | Every run of a connection whose interceptors await their calls is one of a connection whose interceptors need not |
| EngineChannel.ChannelStep | v1/server_websocket.go:94-116 | Every step keeps the channel first in, first out |
| EngineChannel.HistoryStep | v1/server_websocket.go:205-222 | Every step keeps each goroutine's history equal to its part of the log |
| EngineRegistry.RegistryStep | v1/server_websocket.go:253-297 | Every step keeps the map exact |
| EngineRegistry.CountStep | v1/server_websocket.go:270-299 | Every step keeps the WaitGroup equal to the number of launched and unfinished operations, never negative |
| EngineRegistry.ShutdownStep | v1/server_websocket.go:356-368 | Every step keeps the channel open until the reader is gone and all operations have finished |
| EngineRegistry.OnlyTimerCrashes | v1/server_websocket.go:340-351 | If any step panics it is the timeout goroutine's send |
| EngineHandshake.HandshakeStep | v1/server_websocket.go:224-251 | Every step keeps the acknowledgement unique and before all operation items |
| EngineWire.WireStep | v1/server_websocket.go:253-297 | Every step extends the wire's view of an ID at the end of that ID's last run |
| EngineSafety.InvStep | v1/server_websocket.go:90-116 | Every step of every goroutine keeps the whole invariant |
| EngineSafety.InvReachable | v1/server_websocket.go:90-116 | The invariant holds in every reachable state |
| OperationMessages.WordStep | v1/server_websocket.go:272-300 | Each step keeps an operation's word what its program point allows |
| OperationMessages.ReportedStep | v1/server_websocket.go:154-186 | Each step keeps what was told of a failure what its program point allows |
| OperationCalls.CallsOkStep | v1/server.go:68-86 | Each step keeps what a handler call received a prefix of its stream up to the first errors, all of it at the end unless cancelled, and delivered but for the result in hand |
| OperationCalls.AccountedStep | v1/server_websocket.go:188-203 | Each step keeps the results sent an interleaving of what the calls delivered |
| OperationCalls.InTurnStep | v1/server_websocket.go:418-436 | Each step keeps the results of calls that did not overlap one call after the other |
| OperationSafety.AllowanceStep | v1/server_websocket.go:284-291 | A stopped operation's remaining allowance is never exceeded |
| OperationSafety.UndisturbedWord | v1/server_websocket.go:272-300 | The local form of UndisturbedDelivery |
| Connection.WebsocketRequest.constructor | v1/server_websocket.go:60-67 | A new connection is the transition system's initial state |
| Connection.WebsocketRequest.Pause | v1/server_websocket.go:90-116 | Whatever the other goroutines do between two atomic steps keeps the connection on the transition system, and leaves alone what the paused goroutine relies on; nobody but the reader reads |
| Connection.WebsocketRequest.ReadWebsocketStart | v1/server_websocket.go:248-303 | Under any interference, unless the process panics: exactly this message is read; unauthorized exactly if an init is missing, 4409 only for an ID that was live, and otherwise exactly one new operation with the message's ID |
| Connection.WebsocketRequest.ReadWebsocketStop | v1/server_websocket.go:305-320 | Unless the process panics: the operation found under the ID ends up stopped and cancelled; none is found only if the ID is not live |
| Connection.WebsocketRequest.ReadWebsocketTerminate | v1/server_websocket.go:322-334 | Refused in the transport dialect; otherwise the request is stopped and one close directive enqueued, unless the reader is blocked on the full channel |
| Connection.WebsocketRequest.ReadWebsocketInit | v1/server_websocket.go:224-246 | A second init is refused; a first one ends with its outcome, and is acknowledged unless the request was cancelled, or the reader is blocked on the full channel or the timeout goroutine |
| Connection.WebsocketRequest.WriteWebsocketMessage | v1/server_websocket.go:205-222 | The message is enqueued, or dropped only if the request is done, or neither is possible and the reader is blocked |
| Connection.WebsocketRequest.HandleError | v1/server_websocket.go:154-186 | Unless the reader is blocked, a connection-level error is told in full while the request lives, and a protocol error's close directive is enqueued last in any case |
| Connection.WebsocketRequest.ReadWebsocket | v1/server_websocket.go:353-416 | For any messages and interference: the messages are read in order, up to the one that ends the loop or to the socket's failure; unless it is blocked the reader returns with the request cancelled, all operations finished and the channel closed |
| Connection.WebsocketRequest.ReportFailure | v1/server_websocket.go:284-286 | Unless the goroutine is blocked: while the request lives the operation's failure is told in full, and nothing if the operation was executed |
| Connection.WebsocketRequest.SendCompletion | v1/server_websocket.go:288-291 | Unless the goroutine is blocked: while the request lives `complete` is sent, except by a stopped operation of the transport dialect |
| Connection.WebsocketRequest.ServeOperation | v1/server_websocket.go:272-300 | For any interference: unless the goroutine is blocked, or its interceptors do not return, its operation finishes with a word of the dialect, ended by `complete` in the older dialect if the request lives, and with its failure told if it was not executed |
| Contexts.LookupIsNearest | v1/mutable/api.go:31-45 | A lookup finds the nearest ancestor's binding, and nothing exactly if there is none |
| Contexts.LookupAfterSet | v1/mutable/api.go:23-29 | A Set changes lookups of its key only, and only where nothing nearer binds it |
| Contexts.FlagIsOwnOrInherited | v1/context.go:112-140 | A flag reads as set exactly if the context or an ancestor has it |
| Contexts.TerminateStopsAll | v1/server_websocket.go:327 | A flag on the request is seen by every present and later operation |
| Contexts.FlagNeverReset | v1/context.go:112-140 | No Set that keeps to the protocol hides a flag again |
| Contexts.Context.constructor | v1/mutable/api.go:51-60 | A new context is empty, not cancelled, and below its parent |
| Contexts.Context.Set | v1/mutable/api.go:23-45 | Exactly one binding of exactly one context changes; contexts that are not below it look up what they did before, and one below it finds the new value unless a nearer context binds the key |
| Contexts.Context.Value | v1/mutable/api.go:31-45 | The recursive search returns the lookup along the path |
| Contexts.Context.Cancel | v1/mutable/api.go:47-49 | Exactly the context and its descendants become done |
| Contexts.TypedContext | v1/context.go:66-110 | The stored context, or a fresh one that changes no existing context |
| Contexts.HasFlag | v1/context.go:112-140 | The flag's value along the path, false if missing or of another type |
| Contexts.NewOperation | v1/server_websocket.go:261-264 | A new operation finds itself, its request and its ID, and inherits everything else |
| Contexts.MarkOperation | v1/server_websocket.go:206-208 | A flag lands on the operation of the given context; only contexts at or below it can see a difference; a connection-level error shows in no lookup |
| Contexts.MarkIsLocal | v1/server_websocket.go:206-208 | A flag set on an operation changes no lookup at its request or at a sibling operation |
| Contexts.Terminate | v1/server_websocket.go:327 | The flag is set on the request context |
| OperationContexts.FlagsAreLookups | v1/context.go:112-140 | The stopped and executed flags of the websocket model are the lookups the code makes along an operation's context path |
| OperationContexts.AdvanceMirrors | v1/server_websocket.go:206-208 | Every step of an operation sets at most one flag, by one Set on its own context |
| OperationContexts.StopMirrors | v1/server_websocket.go:310-327 | A stop and a terminate are one Set on the operation's and on the request's context |
| Results.ProcessResult | v1/server.go:89-108 | The processed result with the data's own error first and then all its errors, formatted |
| Results.ErrorsSurvive | v1/server.go:97-108 | The result sent carries errors exactly if the processed one has some, in its data or beside it |
| Results.ProcessResults | v1/server.go:60-87 | What is written is a prefix of the processed results, clean but possibly for the last; the way it ended determines what is returned; undisturbed it is exactly the results up to the first errors |
| Results.NothingAfterErrors | v1/server.go:81-84 | Nothing is written after a result with errors, however the loop ended |
| Results.UpToErrorsIsPrefix | v1/server.go:115-119 | The results up to the first errors: a prefix, everything if there are none, else the last one and only that one has errors |
| Results.ServeResults | v1/server.go:66-87 | The operation is marked executed, then the loop runs |
| Results.LegacyExecute | v1/callbacks.go:85-100 | The callback's goroutine sends results until the callback fails, then its error |
| Results.TransformedUntilVeto | v1/callbacks.go:88-99 | The transformed stream ends with the callback's error |
| Results.ServeLegacy | v1/callbacks.go:83-100 | If the callback first fails on the n-th result and nothing earlier carries errors, exactly n results are written, the n-th with exactly that error, and a ResultError is returned |
| Results.VetoIsWritten | v1/server.go:95-119 | The same, about the processed stream |
| ResultLoops.CallDeliversWhatIsWritten | v1/server.go:60-87 | A handler call of an operation nobody disturbs delivers exactly what the result loop writes for the same results |
| ParseAst.OperationParser.constructor | v1/ast.go:162-188 | No callback has run and no key is set |
| ParseAst.OperationParser.Inits | v1/ast.go:15-37 | Every Init runs once, each panic is reported once, in order |
| ParseAst.OperationParser.Starts | v1/ast.go:42-68 | Every start callback runs once, panics are reported in order, and the finish functions kept are the latest per name |
| ParseAst.OperationParser.Finishes | v1/ast.go:70-99 | In whatever order the map is traversed, each kept finish function runs once and its panic is reported once, beside the errors given |
| ParseAst.OperationParser.Parse | v1/ast.go:192-211 | The phases up to parsing |
| ParseAst.OperationParser.Validate | v1/ast.go:213-225 | The phases from validation on: the errors are exactly the panics and violations, each finish function kept runs once |
| ParseAst.OperationParser.ParseAst | v1/ast.go:162-245 | The errors reported are exactly those of the first phase that failed; once parsing or validation is reached each kept finish function of it has run exactly once; the subscription flag is set on success only and tells whether there is a subscription |
| ParseAst.Subscribes | v1/ast.go:227-240 | True exactly if some definition is a subscription |
| ParseAst.RegisteredIsLatest | v1/ast.go:62-66 | Of the extensions that share a name the latest one's finish function is kept |
| ParseAst.AllKeptIffDistinct | v1/ast.go:113-136 | Every extension that started keeps its finish function exactly if their names are distinct |
| ParseAst.NothingReported | v1/ast.go:92-98 | Nothing is reported exactly if nothing went wrong |
| Interceptors.SkipNil | v1/interceptors.go:124-126 | The loop stops at the next non-nil interceptor |
| Interceptors.ChainIsFold | v1/interceptors.go:119-142 | For every list and handler the chain is the right fold over the non-nil interceptors, outermost first |
| Interceptors.ChainOfChains | v1/interceptors.go:138-142 | Chaining two chains is the chain of both lists |
| Interceptors.ChainIsAssociative | v1/interceptors.go:138-142 | Chaining is associative |
| Interceptors.ExtendedStands | v1/api_server.go:85-124 | Adding an interceptor to a slot, empty or not, appends it to the slot's chain |
| Interceptors.ServerConfig.constructor | v1/api_server.go:27 | Nothing is configured |
| Interceptors.ServerConfig.AddExtra | v1/api_server.go:85-124 | Each stage is extended by what the option supplies for it, independently of the others |
| Interceptors.ServerConfig.Apply | v1/api_server.go:75-124 | One option replaces or extends what is in force |
| Interceptors.ServerConfig.ApplyAll | v1/api_server.go:31-36 | After any sequence of options each stage behaves like one flat chain of the interceptors in force, in option order |
| Interceptors.ServerConfig.InitInterceptors | v1/interceptors.go:198-254 | Every stage is callable; a stage nobody configured runs its handler, that of the HTTP request also reports the error |
| PlainHttp.Response.WritePlainResult | v1/server_plain.go:134-167 | A line is appended unless it cannot be encoded; the first one sets the content length if nothing is flushed |
| PlainHttp.Response.WriteError | v1/api_server.go:189-212 | An error body is written if and only if there is an error and no result body was begun |
| PlainHttp.Response.WriteAll | v1/server_plain.go:100-102 | The lines are the encodable results in order |
| PlainHttp.Response.Handle | v1/server_plain.go:70-132 | A plain request up to the HTTP request interceptor |
| PlainHttp.Response.Serve | v1/interceptors.go:199-212 | An error body is written exactly if the request failed before any result line, never beside one; a request that is not a subscription gets exactly one part, and its content length is the whole body; an unflushed subscription's content length is right exactly if it has one result |
| PlainHttp.LengthFallsShort | v1/server_plain.go:151-153 | A subscription with two results whose announced content length is too short |

## Left out

- EngineTermination.TeardownBounded: keepalives are not counted, as the ticker never stops by itself; it bounds everything else between them.
- EngineTheorems.OperationWords: like all guarantees about `Engine.Reachable` it supposes interceptors that await their handler calls; `EngineAwaiting` shows for exclusivity, silence after the end and panics that this is needed.
- EngineTermination.NeverStuck: assumes that interceptors, resolvers, socket reads of a closed socket and socket writes return.
- Connection.WebsocketRequest.Pause: the writer, the timeout goroutine and the handler calls take part in the connection object as steps of the transition system only; they have no methods of their own.
- A handler call is modelled from the point where it reaches execution; one that fails earlier only shows in what the interceptors return.
- Interceptors that replace a context by one not derived from the given one, overwrite the server's own context keys, or write to the socket themselves.
- Infinite result streams: a finite run of the connection receives only finitely many results, and a stream that yields nothing more is one whose next result is never taken. The legacy callback's goroutine, which stays blocked if the loop ends before the stream, is modelled only by the stream it produces.
- Results are values: a result processor that returns one shared object for several results is not covered, nor is a missing result.
- The five interceptor stages share one generic chain; their different signatures are not repeated.
- JSON encoding and decoding, the websocket upgrade, unknown subprotocols, headers other than content-length, and the library's parser, validator and executor, which are outcomes chosen by the environment.
- The other legacy callback adapters run foreign callbacks before and after their handler and hand its error through; error formatting, message texts of errors, instrumentation and examples have no part in the guarantees stated here.
