/** Interceptor chains, and the options that build them up.

    The five stages (HTTP request, init, operation, parse, execute) have the same chain function
    over different signatures; here a stage takes an `A`, which stands for the arguments together
    with the world the stage runs in, and returns an `R`, the result together with the world left
    behind. */
module Interceptors {
  import opened Wrappers

  type Handler<!A, +R> = A -> R
  type Interceptor<!A, !R> = (A, Handler<A, R>) -> R

  /** Handlers are told apart by calling them only, as functions in Go are. */
  ghost predicate Same<A(!new), R(!new)>(h: Handler<A, R>, g: Handler<A, R>) {
    forall a: A :: h(a) == g(a)
  }

  ghost predicate Extensional<A(!new), R(!new)>(i: Interceptor<A, R>) {
    forall h: Handler<A, R>, g: Handler<A, R>, a: A :: Same(h, g) ==> i(a, h) == i(a, g)
  }

  ghost predicate AllExtensional<A(!new), R(!new)>(list: seq<Interceptor<A, R>>) {
    forall k :: 0 <= k < |list| ==> Extensional(list[k])
  }

  // ----- The chain as the source builds it

  function NextPresent<T>(list: seq<Option<T>>, idx: nat): (k: nat)
    requires idx <= |list|
    ensures idx <= k <= |list|
    ensures forall j :: idx <= j < k ==> list[j].None?
    ensures k < |list| ==> list[k].Some?
    decreases |list| - idx
  {
    if idx == |list| || list[idx].Some? then idx else NextPresent(list, idx + 1)
  }

  /** The loop that skips nil interceptors. */
  method SkipNil<T>(list: seq<Option<T>>, start: nat) returns (idx: nat)
    requires start <= |list|
    ensures idx == NextPresent(list, start)
  {
    idx := start;
    while idx < |list| && list[idx].None?
      invariant start <= idx <= |list|
      invariant NextPresent(list, idx) == NextPresent(list, start)
    {
      idx := idx + 1;
    }
  }

  /** The handler that runs the interceptors from `idx` on around `handler`. */
  function ChainFrom<A, R>(list: seq<Option<Interceptor<A, R>>>, idx: nat, handler: Handler<A, R>): Handler<A, R>
    requires idx <= |list|
    decreases |list| - idx
  {
    var k := NextPresent(list, idx);
    if k == |list| then handler
    else (a: A) => list[k].value(a, ChainFrom(list, k + 1, handler))
  }

  function Chain<A, R>(list: seq<Option<Interceptor<A, R>>>): Interceptor<A, R> {
    (a: A, handler: Handler<A, R>) => ChainFrom(list, 0, handler)(a)
  }

  // ----- The chain as it is meant

  function Present<T>(list: seq<Option<T>>): seq<T> {
    if list == [] then []
    else (if list[0].Some? then [list[0].value] else []) + Present(list[1..])
  }

  /** The first interceptor outermost, the handler innermost. */
  function Fold<A, R>(list: seq<Interceptor<A, R>>, handler: Handler<A, R>): Handler<A, R> {
    if list == [] then handler
    else (a: A) => list[0](a, Fold(list[1..], handler))
  }

  lemma {:induction false} PresentSkips<T>(list: seq<Option<T>>, idx: nat)
    requires idx <= |list|
    ensures var k := NextPresent(list, idx);
            Present(list[idx..]) == if k == |list| then [] else [list[k].value] + Present(list[k + 1..])
    decreases |list| - idx
  {
    if idx < |list| {
      assert list[idx..][0] == list[idx] && list[idx..][1..] == list[idx + 1..];
      if list[idx].None? { PresentSkips(list, idx + 1); }
    }
  }

  lemma TailExtensional<A(!new), R(!new)>(i: Interceptor<A, R>, rest: seq<Interceptor<A, R>>)
    requires AllExtensional([i] + rest)
    ensures Extensional(i) && AllExtensional(rest)
  {
    assert ([i] + rest)[0] == i;
    assert forall k :: 0 <= k < |rest| ==> rest[k] == ([i] + rest)[k + 1];
  }

  lemma FoldCons<A(!new), R(!new)>(i: Interceptor<A, R>, rest: seq<Interceptor<A, R>>, h: Handler<A, R>, a: A)
    ensures Fold([i] + rest, h)(a) == i(a, Fold(rest, h))
  {
    assert ([i] + rest)[1..] == rest;
  }

  lemma ChainUnfold<A(!new), R(!new)>(list: seq<Option<Interceptor<A, R>>>, idx: nat, k: nat, handler: Handler<A, R>,
                                      a: A)
    requires idx <= |list| && k == NextPresent(list, idx) < |list|
    ensures ChainFrom(list, idx, handler)(a) == list[k].value(a, ChainFrom(list, k + 1, handler))
  {
  }

  lemma SameResult<A(!new), R(!new)>(i: Interceptor<A, R>, h: Handler<A, R>, g: Handler<A, R>, a: A)
    requires Extensional(i) && Same(h, g)
    ensures i(a, h) == i(a, g)
  {
  }

  /** For every list and handler the chain is the right fold over the non-nil interceptors. */
  lemma {:induction false} ChainIsFold<A(!new), R(!new)>(list: seq<Option<Interceptor<A, R>>>, idx: nat,
                                                         handler: Handler<A, R>)
    requires idx <= |list| && AllExtensional(Present(list[idx..]))
    ensures Same(ChainFrom(list, idx, handler), Fold(Present(list[idx..]), handler))
    decreases |list| - idx
  {
    PresentSkips(list, idx);
    var k := NextPresent(list, idx);
    if k < |list| {
      var i, rest := list[k].value, Present(list[k + 1..]);
      TailExtensional(i, rest);
      ChainIsFold(list, k + 1, handler);
      forall a: A ensures ChainFrom(list, idx, handler)(a) == Fold([i] + rest, handler)(a) {
        ChainUnfold(list, idx, k, handler, a);
        SameResult(i, ChainFrom(list, k + 1, handler), Fold(rest, handler), a);
        FoldCons(i, rest, handler, a);
      }
    }
  }

  lemma {:induction false} FoldRespects<A(!new), R(!new)>(list: seq<Interceptor<A, R>>, h: Handler<A, R>,
                                                          g: Handler<A, R>)
    requires AllExtensional(list) && Same(h, g)
    ensures Same(Fold(list, h), Fold(list, g))
  {
    if list != [] { FoldRespects(list[1..], h, g); }
  }

  lemma {:induction false} FoldAppend<A(!new), R(!new)>(xs: seq<Interceptor<A, R>>, ys: seq<Interceptor<A, R>>,
                                                        h: Handler<A, R>)
    requires AllExtensional(xs)
    ensures Same(Fold(xs + ys, h), Fold(xs, Fold(ys, h)))
  {
    if xs == [] {
      assert xs + ys == ys;
    } else {
      assert (xs + ys)[1..] == xs[1..] + ys;
      FoldAppend(xs[1..], ys, h);
    }
  }

  lemma FoldOne<A(!new), R(!new)>(i: Interceptor<A, R>, h: Handler<A, R>)
    requires Extensional(i)
    ensures forall a: A :: Fold([i], h)(a) == i(a, h)
  {
    assert Fold([i][1..], h) == h;
  }

  // ----- What an interceptor amounts to

  /** `i` behaves like the chain of `list`. */
  ghost predicate Behaves<A(!new), R(!new)>(i: Interceptor<A, R>, list: seq<Interceptor<A, R>>) {
    forall a: A, h: Handler<A, R> :: i(a, h) == Fold(list, h)(a)
  }

  lemma BehavesExtensionally<A(!new), R(!new)>(i: Interceptor<A, R>, list: seq<Interceptor<A, R>>)
    requires AllExtensional(list) && Behaves(i, list)
    ensures Extensional(i)
  {
    forall h: Handler<A, R>, g: Handler<A, R>, a: A | Same(h, g) ensures i(a, h) == i(a, g) {
      FoldRespects(list, h, g);
    }
  }

  /** Chaining two chains is the chain of both lists. */
  lemma ChainOfChains<A(!new), R(!new)>(i: Interceptor<A, R>, xs: seq<Interceptor<A, R>>,
                                                            j: Interceptor<A, R>, ys: seq<Interceptor<A, R>>)
    requires AllExtensional(xs) && AllExtensional(ys) && Behaves(i, xs) && Behaves(j, ys)
    ensures Behaves(Chain([Some(i), Some(j)]), xs + ys)
  {
    var list := [Some(i), Some(j)];
    BehavesExtensionally(i, xs);
    BehavesExtensionally(j, ys);
    assert list[1..] == [Some(j)] && [Some(j)][1..] == [];
    assert Present([Some(j)]) == [j];
    assert Present(list) == [i, j];
    assert list[0..] == list;
    forall a: A, h: Handler<A, R> ensures Chain(list)(a, h) == Fold(xs + ys, h)(a) {
      ChainIsFold(list, 0, h);
      assert [i, j][1..] == [j];
      FoldOne(j, h);
      assert Same(Fold([j], h), Fold(ys, h));
      assert Fold([i, j], h)(a) == i(a, Fold([j], h)) == i(a, Fold(ys, h));
      FoldAppend(xs, ys, h);
    }
  }

  /** Chaining is associative, pointwise. */
  lemma ChainIsAssociative<A(!new), R(!new)>(i: Interceptor<A, R>, j: Interceptor<A, R>, k: Interceptor<A, R>, a: A,
                                             h: Handler<A, R>)
    requires Extensional(i) && Extensional(j) && Extensional(k)
    ensures Chain([Some(Chain([Some(i), Some(j)])), Some(k)])(a, h)
            == Chain([Some(i), Some(Chain([Some(j), Some(k)]))])(a, h)
  {
    SingleBehaves(i);
    SingleBehaves(j);
    SingleBehaves(k);
    var left, right := Chain([Some(i), Some(j)]), Chain([Some(j), Some(k)]);
    ChainOfChains(i, [i], j, [j]);
    ChainOfChains(j, [j], k, [k]);
    ChainOfChains(left, [i] + [j], k, [k]);
    ChainOfChains(i, [i], right, [j] + [k]);
    assert [i] + [j] + [k] == [i] + ([j] + [k]);
  }

  lemma ChainOfOne<A(!new), R(!new)>(i: Interceptor<A, R>)
    requires Extensional(i)
    ensures Behaves(Chain([None, Some(i)]), [i])
  {
    var list := [None, Some(i)];
    assert list[1..] == [Some(i)] && [Some(i)][1..] == [];
    assert Present([Some(i)]) == [i];
    assert Present(list) == [i];
    assert list[0..] == list;
    forall a: A, h: Handler<A, R> ensures Chain(list)(a, h) == Fold([i], h)(a) {
      ChainIsFold(list, 0, h);
    }
  }

  // ----- Options

  datatype Interceptors<!A, !R> = Interceptors(
    httpRequest: Option<Interceptor<A, R>>,
    init: Option<Interceptor<A, R>>,
    operation: Option<Interceptor<A, R>>,
    operationParse: Option<Interceptor<A, R>>,
    operationExecute: Option<Interceptor<A, R>>)

  datatype Stage = HttpRequest | Init | Operation | OperationParse | OperationExecute

  function At<A, R>(interceptors: Interceptors<A, R>, stage: Stage): Option<Interceptor<A, R>> {
    match stage
    case HttpRequest => interceptors.httpRequest
    case Init => interceptors.init
    case Operation => interceptors.operation
    case OperationParse => interceptors.operationParse
    case OperationExecute => interceptors.operationExecute
  }

  /** WithInterceptors replaces what is configured, WithExtraInterceptors adds to it. */
  datatype ServerOption<!A, !R> =
    | WithInterceptors(all: Interceptors<A, R>)
    | WithExtraInterceptors(extra: Interceptors<A, R>)

  /** What an option supplies for a stage: one interceptor, or none. */
  function Supplied<A, R>(option: ServerOption<A, R>, stage: Stage): seq<Interceptor<A, R>> {
    Present([At(if option.WithInterceptors? then option.all else option.extra, stage)])
  }

  /** The interceptors of one stage that a sequence of options leaves in force, in option order. */
  function InForce<A, R>(options: seq<ServerOption<A, R>>, stage: Stage): seq<Interceptor<A, R>> {
    if options == [] then []
    else
      var before := InForce(options[..|options| - 1], stage);
      var last := options[|options| - 1];
      if last.WithInterceptors? then Supplied(last, stage) else before + Supplied(last, stage)
  }

  ghost predicate OptionExtensional<A(!new), R(!new)>(option: ServerOption<A, R>) {
    forall stage: Stage :: AllExtensional(Supplied(option, stage))
  }

  /** A configured slot stands for a list of interceptors: nil for none. */
  ghost predicate Stands<A(!new), R(!new)>(slot: Option<Interceptor<A, R>>, list: seq<Interceptor<A, R>>) {
    && AllExtensional(list)
    && (slot.None? <==> list == [])
    && (slot.Some? ==> Behaves(slot.value, list))
  }

  function Extended<A, R>(slot: Option<Interceptor<A, R>>, extra: Option<Interceptor<A, R>>)
    : Option<Interceptor<A, R>>
  {
    if extra.None? then slot else Some(Chain([slot, extra]))
  }

  lemma PresentOne<T>(o: Option<T>)
    ensures Present([o]) == if o.Some? then [o.value] else []
  {
    assert [o][1..] == [];
  }

  lemma SingleBehaves<A(!new), R(!new)>(i: Interceptor<A, R>)
    requires Extensional(i)
    ensures Behaves(i, [i])
  {
    forall a: A, h: Handler<A, R> ensures i(a, h) == Fold([i], h)(a) { FoldOne(i, h); }
  }

  lemma ExtendedStands<A(!new), R(!new)>(slot: Option<Interceptor<A, R>>, list: seq<Interceptor<A, R>>,
                                                            extra: Option<Interceptor<A, R>>)
    requires Stands(slot, list) && AllExtensional(Present([extra]))
    ensures Stands(Extended(slot, extra), list + Present([extra]))
  {
    PresentOne(extra);
    if extra.None? {
      assert list + [] == list;
    } else {
      var i := extra.value;
      assert Extensional(i) by { assert Present([extra])[0] == i; }
      if slot.None? {
        ChainOfOne(i);
        assert list + [i] == [i];
      } else {
        SingleBehaves(i);
        ChainOfChains(slot.value, list, i, [i]);
      }
    }
  }

  function Direct<A(!new), R(!new)>(): (i: Interceptor<A, R>)
    ensures Behaves(i, [])
  {
    (a: A, h: Handler<A, R>) => h(a)
  }

  function Reporting<A, R>(report: (A, R) -> R): Interceptor<A, R> {
    (a: A, h: Handler<A, R>) => report(a, h(a))
  }

  class ServerConfig<A(!new), R(!new)> {
    var interceptors: Interceptors<A, R>

    /** Every stage stands for the interceptors in force after `options`. */
    ghost predicate Reflects(options: seq<ServerOption<A, R>>)
      reads this
    {
      forall stage: Stage :: Stands(At(interceptors, stage), InForce(options, stage))
    }

    constructor ()
      ensures Reflects([])
    {
      interceptors := Interceptors(None, None, None, None, None);
    }

    /** The WithExtraInterceptors option. */
    method AddExtra(extra: Interceptors<A, R>)
      modifies this
      ensures forall stage: Stage :: At(interceptors, stage) == Extended(At(old(interceptors), stage), At(extra, stage))
    {
      if extra.httpRequest.Some? {
        interceptors := interceptors.(httpRequest := Some(Chain([interceptors.httpRequest, extra.httpRequest])));
      }
      if extra.init.Some? {
        interceptors := interceptors.(init := Some(Chain([interceptors.init, extra.init])));
      }
      if extra.operation.Some? {
        interceptors := interceptors.(operation := Some(Chain([interceptors.operation, extra.operation])));
      }
      if extra.operationParse.Some? {
        interceptors :=
          interceptors.(operationParse := Some(Chain([interceptors.operationParse, extra.operationParse])));
      }
      if extra.operationExecute.Some? {
        interceptors :=
          interceptors.(operationExecute := Some(Chain([interceptors.operationExecute, extra.operationExecute])));
      }
    }

    method Apply(ghost before: seq<ServerOption<A, R>>, option: ServerOption<A, R>)
      requires Reflects(before) && OptionExtensional(option)
      modifies this
      ensures Reflects(before + [option])
    {
      assert (before + [option])[..|before|] == before;
      match option
      case WithInterceptors(all) =>
        interceptors := all;
        forall stage: Stage ensures Stands(At(interceptors, stage), InForce(before + [option], stage)) {
          assert AllExtensional(Supplied(option, stage));
          ReplacedStands(At(all, stage));
        }
      case WithExtraInterceptors(extra) =>
        ghost var was := interceptors;
        AddExtra(extra);
        forall stage: Stage ensures Stands(At(interceptors, stage), InForce(before + [option], stage)) {
          assert AllExtensional(Supplied(option, stage));
          ExtendedStands(At(was, stage), InForce(before, stage), At(extra, stage));
        }
    }

    /** NewServer's loop over its options: each stage behaves like one flat chain of the
        interceptors in force, in option order. */
    method ApplyAll(options: seq<ServerOption<A, R>>)
      requires Reflects([])
      requires forall k :: 0 <= k < |options| ==> OptionExtensional(options[k])
      modifies this
      ensures Reflects(options)
    {
      for k := 0 to |options|
        invariant Reflects(options[..k])
      {
        assert options[..k + 1] == options[..k] + [options[k]];
        Apply(options[..k], options[k]);
      }
      assert options[..|options|] == options;
    }

    /** initInterceptors: a stage nobody configured runs its handler; the HTTP request stage then
        also reports the handler's error, which is `report`. */
    method InitInterceptors(ghost options: seq<ServerOption<A, R>>, report: (A, R) -> R)
      requires Reflects(options)
      modifies this
      ensures forall stage: Stage :: At(interceptors, stage).Some?
      ensures forall stage: Stage :: stage != HttpRequest || InForce(options, stage) != [] ==>
                Behaves(At(interceptors, stage).value, InForce(options, stage))
      ensures InForce(options, HttpRequest) == [] ==>
                && interceptors.httpRequest.Some?
                && forall a: A, h: Handler<A, R> :: interceptors.httpRequest.value(a, h) == report(a, h(a))
    {
      var direct := Direct<A, R>();
      if interceptors.httpRequest.None? {
        interceptors := interceptors.(httpRequest := Some(Reporting(report)));
      }
      if interceptors.init.None? { interceptors := interceptors.(init := Some(direct)); }
      if interceptors.operation.None? { interceptors := interceptors.(operation := Some(direct)); }
      if interceptors.operationParse.None? { interceptors := interceptors.(operationParse := Some(direct)); }
      if interceptors.operationExecute.None? { interceptors := interceptors.(operationExecute := Some(direct)); }
    }
  }

  lemma ReplacedStands<A(!new), R(!new)>(slot: Option<Interceptor<A, R>>)
    requires AllExtensional(Present([slot]))
    ensures Stands(slot, Present([slot]))
  {
    PresentOne(slot);
    if slot.Some? {
      assert Present([slot])[0] == slot.value;
      SingleBehaves(slot.value);
    }
  }
}
