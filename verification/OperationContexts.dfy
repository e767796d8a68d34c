/** The flags of an operation in the websocket model are what the mutable contexts say: the bindings
    along the path of an operation's context, or of one derived from it, mirror the flags, and every
    step that sets a flag is one Set. */
module OperationContexts {
  import opened Wrappers
  import opened Operation
  import opened Contexts

  /** Along `chain` the request's context is at position `request` and the operation's at `op`. */
  ghost predicate Mirrors(chain: seq<Bindings>, request: nat, op: nat, v: View, r: Run) {
    && request < op < |chain|
    && OnlySet(chain, OperationStopped) && OnlySet(chain, OperationExecuted)
    && (forall k :: 0 <= k < |chain| ==>
          (OperationStopped in chain[k] <==> (k == request && v.requestStopped) || (k == op && r.stopped)))
    && (forall k :: 0 <= k < |chain| ==> (OperationExecuted in chain[k] <==> k == op && r.executed))
  }

  /** What the model calls stopped and executed are the lookups the code makes. */
  lemma FlagsAreLookups(chain: seq<Bindings>, request: nat, op: nat, v: View, r: Run)
    requires Mirrors(chain, request, op, v, r)
    ensures Stopped(v, r) <==> FlagOf(Lookup(chain, OperationStopped))
    ensures r.executed <==> FlagOf(Lookup(chain, OperationExecuted))
  {
    FlagIsOwnOrInherited(chain, OperationStopped);
    FlagIsOwnOrInherited(chain, OperationExecuted);
    assert OperationStopped in chain[request] <==> v.requestStopped;
    assert OperationStopped in chain[op] <==> r.stopped;
    assert OperationExecuted in chain[op] <==> r.executed;
  }

  /** The flag a step of the operation sets on the operation's context, if any. */
  function FlagSet(r: Run, m: Turn): Option<Key> {
    if Begins(r, m) then Some(OperationExecuted)
    else if m.Own? && r.pc.MarkStopped? then Some(OperationStopped)
    else None
  }

  function AfterSet(chain: seq<Bindings>, i: nat, flag: Option<Key>): seq<Bindings>
    requires i < |chain|
  {
    if flag.None? then chain else chain[i := chain[i][flag.value := Flag(true)]]
  }

  /** An operation's own steps. */
  lemma AdvanceMirrors(chain: seq<Bindings>, request: nat, op: nat, v: View, room: bool, r: Run, m: Turn)
    requires Mirrors(chain, request, op, v, r) && CanStep(v, room, r, m)
    ensures Mirrors(AfterSet(chain, op, FlagSet(r, m)), request, op, v, Advance(v, r, m))
  {
  }

  /** The reader's stop request, and its terminate. */
  lemma StopMirrors(chain: seq<Bindings>, request: nat, op: nat, v: View, r: Run)
    requires Mirrors(chain, request, op, v, r)
    ensures Mirrors(AfterSet(chain, op, Some(OperationStopped)), request, op, v, r.(stopped := true))
    ensures Mirrors(AfterSet(chain, request, Some(OperationStopped)), request, op, v.(requestStopped := true), r)
  {
  }
}
