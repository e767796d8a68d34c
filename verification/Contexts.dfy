/** The tree of mutable contexts: a context looks a key up in its own values first and then in its
    parent, and is done once it or one of its ancestors was cancelled. */
module Contexts {
  import opened Wrappers

  datatype Key =
    | RequestContextKey | OperationContextKey | OperationStopped | OperationExecuted | OperationId
    | Other(n: nat)

  datatype Stored = Node(context: Context) | Flag(set_: bool) | Text(text: string) | Opaque(n: int)

  type Bindings = map<Key, Stored>

  // ----- Lookup along a chain of bindings, from the root to a context

  function Lookup(chain: seq<Bindings>, key: Key): Option<Stored> {
    if chain == [] then None
    else if key in chain[|chain| - 1] then Some(chain[|chain| - 1][key])
    else Lookup(chain[..|chain| - 1], key)
  }

  /** No context below the k-th binds the key. */
  predicate Unbound(chain: seq<Bindings>, k: int, key: Key) {
    forall j :: k < j < |chain| && 0 <= j ==> key !in chain[j]
  }

  /** The k-th context is the nearest one that binds the key. */
  predicate Nearest(chain: seq<Bindings>, k: int, key: Key) {
    0 <= k < |chain| && key in chain[k] && Unbound(chain, k, key)
  }

  /** A lookup finds the nearest ancestor's binding, and nothing exactly if there is none. */
  lemma {:induction false} LookupIsNearest(chain: seq<Bindings>, key: Key)
    ensures Lookup(chain, key) == None <==> Unbound(chain, -1, key)
    ensures forall k :: Nearest(chain, k, key) ==> Lookup(chain, key) == Some(chain[k][key])
    ensures Lookup(chain, key) != None ==> exists k :: Nearest(chain, k, key)
  {
    if chain != [] {
      var last := |chain| - 1;
      var rest := chain[..last];
      LookupIsNearest(rest, key);
      if key in chain[last] {
        assert Nearest(chain, last, key);
      } else {
        assert forall k :: Unbound(rest, k, key) <==> Unbound(chain, k, key);
        assert forall k :: Nearest(rest, k, key) <==> Nearest(chain, k, key);
      }
    }
  }

  /** Binding a key somewhere in the chain changes the lookup of that key only, and only if nothing
      nearer binds it. */
  lemma {:induction false} LookupAfterSet(chain: seq<Bindings>, i: nat, key: Key, value: Stored, other: Key)
    requires i < |chain|
    ensures Lookup(chain[i := chain[i][key := value]], other)
         == if other == key && Unbound(chain, i, key) then Some(value) else Lookup(chain, other)
  {
    var last := |chain| - 1;
    var changed := chain[i := chain[i][key := value]];
    if i < last {
      assert changed[..last] == chain[..last][i := chain[..last][i][key := value]];
      LookupAfterSet(chain[..last], i, key, value, other);
      assert key !in chain[last] ==> (Unbound(chain, i, key) <==> Unbound(chain[..last], i, key));
    } else {
      assert changed[..last] == chain[..last];
    }
  }

  /** The stopped flag is only ever set. */
  predicate OnlySet(chain: seq<Bindings>, key: Key) {
    forall k :: 0 <= k < |chain| && key in chain[k] ==> chain[k][key] == Flag(true)
  }

  function FlagOf(found: Option<Stored>): bool {
    found.Some? && found.value.Flag? && found.value.set_
  }

  /** ContextOperationStopped holds exactly if the flag is set on the context or an ancestor: an
      operation's own flag, or that of its request. */
  lemma FlagIsOwnOrInherited(chain: seq<Bindings>, key: Key)
    requires OnlySet(chain, key)
    ensures FlagOf(Lookup(chain, key)) <==> exists k :: 0 <= k < |chain| && key in chain[k]
  {
    LookupIsNearest(chain, key);
    if Lookup(chain, key) != None {
      var k :| Nearest(chain, k, key);
      assert key in chain[k];
    }
  }

  // ----- The tree

  class Context {
    const parent: Context?
    ghost const path: seq<Context>
    var values: Bindings
    var cancelled: bool

    /** `path` leads from the root to this context. Only constants are involved. */
    ghost predicate Valid()
      decreases |path|
    {
      && |path| > 0 && path[|path| - 1] == this
      && (if parent == null then |path| == 1
          else |parent.path| == |path| - 1 && parent.path == path[..|path| - 1] && parent.Valid())
    }

    ghost function Chain(): seq<Bindings>
      reads path
    {
      seq(|path|, k requires 0 <= k < |path| reads path => path[k].values)
    }

    /** NewMutableContext. */
    constructor (parent: Context?)
      requires parent != null ==> parent.Valid()
      ensures Valid() && this.parent == parent && values == map[] && !cancelled
      ensures path == (if parent == null then [] else parent.path) + [this]
    {
      this.parent := parent;
      this.path := (if parent == null then [] else parent.path) + [this];
      values := map[];
      cancelled := false;
    }

    /** The path of an ancestor is a prefix, so no context occurs twice. */
    lemma {:induction false} PathOfAncestor(k: nat)
      requires Valid() && k < |path|
      ensures path[k].Valid() && path[k].path == path[..k + 1]
      decreases |path|
    {
      if k < |path| - 1 {
        parent.PathOfAncestor(k);
        assert path[..|path| - 1][k] == path[k];
        assert path[..|path| - 1][..k + 1] == path[..k + 1];
      }
    }

    lemma OccursOnce(k: nat)
      requires Valid() && k < |path|
      ensures forall j :: 0 <= j < |path| && path[j] == path[k] ==> j == k
    {
      PathOfAncestor(k);
      forall j | 0 <= j < |path| && path[j] == path[k] ensures j == k { PathOfAncestor(j); }
    }

    /** Exactly one binding changes. Contexts that are not below this one look everything up as before;
        one below it finds the new value unless a nearer context binds the key. */
    method Set(key: Key, value: Stored)
      requires Valid()
      modifies this`values
      ensures values == old(values)[key := value]
      ensures forall c: Context, k: Key :: old(allocated(c)) && this !in c.path ==>
                Lookup(c.Chain(), k) == old(Lookup(c.Chain(), k))
      ensures forall c: Context, i: nat, k: Key ::
                old(allocated(c)) && c.Valid() && i < |c.path| && c.path[i] == this ==>
                  Lookup(c.Chain(), k)
                    == if k == key && Unbound(old(c.Chain()), i, key) then Some(value) else old(Lookup(c.Chain(), k))
    {
      values := values[key := value];
      forall c: Context, k: Key | old(allocated(c)) && this !in c.path
        ensures Lookup(c.Chain(), k) == old(Lookup(c.Chain(), k))
      {
        assert c.Chain() == old(c.Chain());
      }
      forall c: Context, i: nat, k: Key | old(allocated(c)) && c.Valid() && i < |c.path| && c.path[i] == this
        ensures Lookup(c.Chain(), k)
             == if k == key && Unbound(old(c.Chain()), i, key) then Some(value) else old(Lookup(c.Chain(), k))
      {
        c.OccursOnce(i);
        ghost var before := old(c.Chain());
        assert c.Chain() == before[i := before[i][key := value]];
        LookupAfterSet(before, i, key, value, k);
      }
    }

    /** The value bound to a key, nearest first. */
    method Value(key: Key) returns (found: Option<Stored>)
      requires Valid()
      ensures found == Lookup(Chain(), key)
      decreases |path|
    {
      if key in values {
        found := Some(values[key]);
      } else if parent == null {
        found := None;
        assert Chain()[..|path| - 1] == [];
      } else {
        found := parent.Value(key);
        assert Chain()[..|path| - 1] == parent.Chain();
      }
    }

    /** Done once this context or one of its ancestors was cancelled. */
    ghost predicate Done()
      reads path
    {
      exists k :: 0 <= k < |path| && path[k].cancelled
    }

    /** Marks exactly this context and its descendants done. */
    method Cancel()
      requires Valid()
      modifies this`cancelled
      ensures cancelled
      ensures forall c: Context :: old(allocated(c)) ==> (c.Done() <==> old(c.Done()) || this in c.path)
    {
      cancelled := true;
      forall c: Context | old(allocated(c)) && this in c.path ensures c.Done() {
        var k :| 0 <= k < |c.path| && c.path[k] == this;
        assert c.path[k].cancelled;
      }
    }
  }

  // ----- Typed lookups

  /** RequestContext and OperationContext: the mutable context stored under the key, or a fresh one
      below the given context if there is none. No existing context changes. */
  method TypedContext(ctx: Context, key: Key) returns (found: Context)
    requires ctx.Valid()
    ensures var stored := Lookup(ctx.Chain(), key);
            if stored.Some? && stored.value.Node? then found == stored.value.context
            else fresh(found) && found.Valid() && found.parent == ctx
  {
    var stored := ctx.Value(key);
    if stored.Some? && stored.value.Node? {
      found := stored.value.context;
    } else {
      found := new Context(ctx);
    }
  }

  /** ContextOperationStopped and ContextOperationExecuted. */
  method HasFlag(ctx: Context, key: Key) returns (set_: bool)
    requires ctx.Valid()
    ensures set_ == FlagOf(Lookup(ctx.Chain(), key))
  {
    var stored := ctx.Value(key);
    set_ := stored.Some? && stored.value.Flag? && stored.value.set_;
  }

  /** A context stored in the tree stands for itself or an ancestor. */
  ghost predicate Refers(ctx: Context, key: Key, target: Context)
    reads ctx.path
  {
    && ctx.Valid() && target.Valid() && target in ctx.path
    && Lookup(ctx.Chain(), key) == Some(Node(target))
  }

  // ----- One operation of one request

  /** `op` is an operation context below the request context `req`. */
  ghost predicate Operation(req: Context, op: Context)
    reads req.path, op.path
  {
    && Refers(op, RequestContextKey, req) && Refers(op, OperationContextKey, op)
    && req != op
  }

  /** readWebsocketStart: a new operation context below the connection's context, which is the
      request context or was derived from it by the Init interceptor. */
  method NewOperation(req: Context, connection: Context, id: string) returns (op: Context)
    requires Refers(connection, RequestContextKey, req)
    ensures fresh(op) && Operation(req, op) && op.path == connection.path + [op]
    ensures Lookup(op.Chain(), OperationId) == Some(Text(id))
    ensures forall key :: key != OperationContextKey && key != OperationId ==>
              Lookup(op.Chain(), key) == Lookup(connection.Chain(), key)
    ensures forall c: Context :: old(allocated(c)) ==> c.values == old(c.values) && c.cancelled == old(c.cancelled)
  {
    op := new Context(connection);
    op.Set(OperationContextKey, Node(op));
    op.Set(OperationId, Text(id));
    assert op.Chain()[..|op.path| - 1] == connection.Chain();
  }

  /** An operation context is not above its request's. */
  lemma RequestIsAbove(req: Context, op: Context)
    requires Operation(req, op)
    ensures op !in req.path
  {
    var k :| 0 <= k < |op.path| && op.path[k] == req;
    op.PathOfAncestor(k);
    op.OccursOnce(|op.path| - 1);
  }

  /** Two operation contexts that NewOperation made below one connection context are not above each
      other. */
  lemma SiblingsApart(connection: Context, op: Context, sibling: Context)
    requires connection.Valid() && op.Valid() && op != sibling
    requires op.path == connection.path + [op] && sibling.path == connection.path + [sibling]
    ensures op !in sibling.path
  {
    if op in connection.path {
      var j :| 0 <= j < |connection.path| && connection.path[j] == op;
      connection.PathOfAncestor(j);
    }
  }

  /** Setting a flag on the operation of a context: what writeWebsocketMessage does with the stopped
      flag before it sends an error, and processResults with the executed flag. Only contexts at or
      below that operation can see a difference, so its request and its siblings do not; for a
      context of no operation, as when a connection-level error is sent, no context does. */
  method MarkOperation(ctx: Context, flag: Key)
    requires ctx.Valid()
    requires var stored := Lookup(ctx.Chain(), OperationContextKey);
             stored.Some? && stored.value.Node? ==> stored.value.context in ctx.path && stored.value.context.Valid()
    modifies ctx.path
    ensures var stored := old(Lookup(ctx.Chain(), OperationContextKey));
            forall c: Context :: old(allocated(c)) ==>
              && c.cancelled == old(c.cancelled)
              && c.values == if stored.Some? && stored.value.Node? && stored.value.context == c
                             then old(c.values)[flag := Flag(true)] else old(c.values)
    ensures var stored := old(Lookup(ctx.Chain(), OperationContextKey));
            forall c: Context, k: Key ::
              old(allocated(c)) && !(stored.Some? && stored.value.Node? && stored.value.context in c.path) ==>
                Lookup(c.Chain(), k) == old(Lookup(c.Chain(), k))
  {
    var op := TypedContext(ctx, OperationContextKey);
    op.Set(flag, Flag(true));
  }

  /** An error of one operation, or its execution, shows in no lookup of its request or a sibling. */
  method MarkIsLocal(req: Context, connection: Context, op: Context, sibling: Context, flag: Key)
    requires Operation(req, op) && Operation(req, sibling) && connection.Valid() && op != sibling
    requires op.path == connection.path + [op] && sibling.path == connection.path + [sibling]
    modifies op.path
    ensures FlagOf(Lookup(op.Chain(), flag))
    ensures forall k: Key :: Lookup(req.Chain(), k) == old(Lookup(req.Chain(), k))
    ensures forall k: Key :: Lookup(sibling.Chain(), k) == old(Lookup(sibling.Chain(), k))
  {
    RequestIsAbove(req, op);
    SiblingsApart(connection, op, sibling);
    MarkOperation(op, flag);
  }

  /** readWebsocketTerminate: the flag is set on the request context. */
  method Terminate(req: Context, connection: Context)
    requires Refers(connection, RequestContextKey, req)
    modifies req`values
    ensures req.values == old(req.values)[OperationStopped := Flag(true)]
  {
    var found := TypedContext(connection, RequestContextKey);
    found.Set(OperationStopped, Flag(true));
  }

  // ----- What the flags mean

  /** After a terminate every operation of the request is stopped: the present ones, whatever they
      were, and those still to come. A failed operation is stopped, its request and its siblings
      are not. */
  lemma TerminateStopsAll(chain: seq<Bindings>, request: nat, new_: Bindings)
    requires request < |chain| && OnlySet(chain, OperationStopped)
    requires OnlySet([new_], OperationStopped)
    ensures var after := chain[request := chain[request][OperationStopped := Flag(true)]];
            && FlagOf(Lookup(after, OperationStopped))
            && FlagOf(Lookup(after + [new_], OperationStopped))
  {
    var after := chain[request := chain[request][OperationStopped := Flag(true)]];
    FlagIsOwnOrInherited(after, OperationStopped);
    assert OperationStopped in after[request];
    var later := after + [new_];
    assert forall k :: 0 <= k < |after| ==> later[k] == after[k];
    assert later[|after|] == new_ && [new_][0] == new_;
    FlagIsOwnOrInherited(later, OperationStopped);
    assert OperationStopped in later[request];
  }

  /** A flag, once seen, is seen for ever: setting any key of any context of the chain, the flag
      only to true, keeps it. */
  lemma FlagNeverReset(chain: seq<Bindings>, flag: Key, i: nat, key: Key, value: Stored)
    requires i < |chain| && OnlySet(chain, flag) && FlagOf(Lookup(chain, flag))
    requires key == flag ==> value == Flag(true)
    ensures var after := chain[i := chain[i][key := value]]; OnlySet(after, flag) && FlagOf(Lookup(after, flag))
  {
    var after := chain[i := chain[i][key := value]];
    FlagIsOwnOrInherited(chain, flag);
    var k :| 0 <= k < |chain| && flag in chain[k];
    assert flag in after[k];
    FlagIsOwnOrInherited(after, flag);
  }
}
