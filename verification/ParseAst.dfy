/** parseAST: initialization, parsing and validation of one operation, with the schema extensions'
    callbacks around them. A callback may panic; the panic becomes one reported error and nothing
    else is disturbed.

    What the library does is drawn beforehand: which callbacks panic, whether the text parses, and
    what validation says. */
module ParseAst {
  import opened Wrappers

  datatype Phase = InitCall | ParseStart | ParseFinish | ValidationStart | ValidationFinish

  datatype Extension = Extension(name: string, panics: set<Phase>)

  /** One invocation of a callback of the extension at `index`. */
  datatype Call = Call(phase: Phase, index: nat)

  datatype Problem = Panicked(phase: Phase, index: nat) | ParseError | Invalid(code: int)

  datatype Definition = Query | Mutation | Subscription | NoOperation

  datatype Document = Unparsable | Parsed(definitions: seq<Definition>, violations: seq<int>, valid: bool)

  predicate Panics(extensions: seq<Extension>, phase: Phase, i: nat) {
    i < |extensions| && phase in extensions[i].panics
  }

  predicate Started(extensions: seq<Extension>, phase: Phase, i: nat) {
    i < |extensions| && phase !in extensions[i].panics
  }

  /** The panics of one phase among the first n extensions, in order. */
  function PanicsOf(extensions: seq<Extension>, phase: Phase, n: nat): seq<Problem>
    requires n <= |extensions|
  {
    if n == 0 then []
    else
      PanicsOf(extensions, phase, n - 1)
        + (if Panics(extensions, phase, n - 1) then [Panicked(phase, n - 1)] else [])
  }

  function CallsOf(phase: Phase, n: nat): seq<Call> {
    seq(n, (k: nat) => Call(phase, k))
  }

  lemma CallsOfNext(phase: Phase, n: nat)
    ensures CallsOf(phase, n + 1) == CallsOf(phase, n) + [Call(phase, n)]
  {
  }

  /** The finish functions kept after the first n start callbacks: one per name, the latest. */
  function Registered(extensions: seq<Extension>, phase: Phase, n: nat): map<string, nat>
    requires n <= |extensions|
  {
    if n == 0 then map[]
    else
      var before := Registered(extensions, phase, n - 1);
      if Panics(extensions, phase, n - 1) then before else before[extensions[n - 1].name := n - 1]
  }

  lemma {:induction false} RegisteredIsLatest(extensions: seq<Extension>, phase: Phase, n: nat)
    requires n <= |extensions|
    ensures var kept := Registered(extensions, phase, n);
            && (forall name :: name in kept ==>
                  && kept[name] < n && Started(extensions, phase, kept[name])
                  && extensions[kept[name]].name == name)
            && (forall i :: 0 <= i < n && Started(extensions, phase, i) ==>
                  extensions[i].name in kept && i <= kept[extensions[i].name])
  {
    if n > 0 { RegisteredIsLatest(extensions, phase, n - 1); }
  }

  predicate DistinctNames(extensions: seq<Extension>, phase: Phase) {
    forall i, j :: 0 <= i < j < |extensions| && Started(extensions, phase, i) && Started(extensions, phase, j) ==>
      extensions[i].name != extensions[j].name
  }

  /** Every extension whose start callback returned keeps its finish function, exactly if no two of
      them share a name: of two that do, only the later one's is kept. */
  lemma AllKeptIffDistinct(extensions: seq<Extension>, phase: Phase)
    ensures var kept := Registered(extensions, phase, |extensions|);
            (forall i :: 0 <= i < |extensions| && Started(extensions, phase, i) ==> i in kept.Values)
              <==> DistinctNames(extensions, phase)
  {
    RegisteredIsLatest(extensions, phase, |extensions|);
    var kept := Registered(extensions, phase, |extensions|);
    if DistinctNames(extensions, phase) {
      forall i | 0 <= i < |extensions| && Started(extensions, phase, i) ensures i in kept.Values {
        assert kept[extensions[i].name] == i;
      }
    } else {
      var i, j :| 0 <= i < j < |extensions| && Started(extensions, phase, i) && Started(extensions, phase, j)
                  && extensions[i].name == extensions[j].name;
      assert j <= kept[extensions[i].name];
      assert i !in kept.Values;
    }
  }

  /** The finish functions that run: those of the kept extensions. */
  function KeptIndices(extensions: seq<Extension>, phase: Phase): set<nat> {
    Registered(extensions, phase, |extensions|).Values
  }

  /** `errors` reports `base` and, once each, the panics of a finish phase among the kept. */
  ghost predicate Reports(errors: seq<Problem>, base: multiset<Problem>, extensions: seq<Extension>, phase: Phase,
                          among: set<nat>) {
    forall p: Problem :: multiset(errors)[p] ==
      base[p]
        + (if p.Panicked? && p.phase == phase && p.index in among && Panics(extensions, phase, p.index)
           then 1 else 0)
  }

  /** `calls` is `base` followed, in some order, by one call per kept extension. */
  ghost predicate CallsOnce(calls: seq<Call>, base: seq<Call>, phase: Phase, among: set<nat>) {
    && base <= calls
    && forall c: Call ::
         multiset(calls)[c] == multiset(base)[c] + (if c.phase == phase && c.index in among then 1 else 0)
  }

  predicate HasSubscription(definitions: seq<Definition>) {
    exists k :: 0 <= k < |definitions| && definitions[k] == Subscription
  }

  predicate Quiet(extensions: seq<Extension>, phase: Phase, among: set<nat>) {
    forall i :: i in among ==> !Panics(extensions, phase, i)
  }

  /** Nothing is reported exactly if there was nothing to report. */
  lemma NothingReported(errors: seq<Problem>, base: seq<Problem>, extensions: seq<Extension>, phase: Phase,
                        among: set<nat>)
    requires Reports(errors, multiset(base), extensions, phase, among) && (errors == [] ==> base == [])
    ensures errors == [] <==> base == [] && Quiet(extensions, phase, among)
  {
    if errors == [] {
      forall i | i in among ensures !Panics(extensions, phase, i) {
        assert multiset(errors)[Panicked(phase, i)] == 0;
      }
    } else if base == [] {
      assert multiset(errors)[errors[0]] > 0;
    }
  }

  lemma OtherPhase(phase: Phase, n: nat, c: Call)
    requires c.phase != phase
    ensures multiset(CallsOf(phase, n))[c] == 0
  {
    assert c !in CallsOf(phase, n);
  }

  /** Each kept extension's finish function ran exactly once, no other ran. */
  ghost predicate FinishedOnce(calls: seq<Call>, phase: Phase, among: set<nat>) {
    forall i: nat :: multiset(calls)[Call(phase, i)] == if i in among then 1 else 0
  }

  function Violations(codes: seq<int>): seq<Problem> {
    seq(|codes|, k requires 0 <= k < |codes| => Invalid(codes[k]))
  }

  predicate Clean(extensions: seq<Extension>, phase: Phase) {
    PanicsOf(extensions, phase, |extensions|) == []
  }

  predicate ParsePassed(extensions: seq<Extension>, document: Document) {
    document.Parsed? && Quiet(extensions, ParseFinish, KeptIndices(extensions, ParseStart))
  }

  predicate ValidationPassed(extensions: seq<Extension>, document: Document) {
    && document.Parsed? && document.valid && document.violations == []
    && Clean(extensions, ValidationStart)
    && Quiet(extensions, ValidationFinish, KeptIndices(extensions, ValidationStart))
  }

  /** What parseAST reports, and which callbacks it invokes: the errors are those of the first phase
      that failed, none lost and none duplicated. */
  ghost predicate Explained(extensions: seq<Extension>, document: Document, result: Option<seq<Problem>>,
                            calls: seq<Call>) {
    var n := |extensions|;
    if !Clean(extensions, InitCall) then
      result == Some(PanicsOf(extensions, InitCall, n)) && calls == CallsOf(InitCall, n)
    else if !Clean(extensions, ParseStart) then
      result == Some(PanicsOf(extensions, ParseStart, n)) && calls == CallsOf(InitCall, n) + CallsOf(ParseStart, n)
    else
      && FinishedOnce(calls, ParseFinish, KeptIndices(extensions, ParseStart))
      && if !ParsePassed(extensions, document) then
           && result.Some?
           && Reports(result.value, if document.Parsed? then multiset{} else multiset{ParseError},
                      extensions, ParseFinish, KeptIndices(extensions, ParseStart))
           && FinishedOnce(calls, ValidationFinish, {})
         else
           && (result.None? <==> ValidationPassed(extensions, document))
           && (result.Some? ==>
                 Reports(result.value,
                         multiset(PanicsOf(extensions, ValidationStart, n)) + multiset(Violations(document.violations)),
                         extensions, ValidationFinish, KeptIndices(extensions, ValidationStart)))
           && FinishedOnce(calls, ValidationFinish, KeptIndices(extensions, ValidationStart))
  }

  lemma ReportsOneMore(errors: seq<Problem>, base: multiset<Problem>, extensions: seq<Extension>, phase: Phase,
                                          done: set<nat>, i: nat)
    requires Reports(errors, base, extensions, phase, done) && i !in done && i < |extensions|
    ensures Reports(if phase in extensions[i].panics then errors + [Panicked(phase, i)] else errors,
                    base, extensions, phase, done + {i})
  {
  }

  lemma CallsOneMore(calls: seq<Call>, base: seq<Call>, phase: Phase, done: set<nat>, i: nat)
    requires CallsOnce(calls, base, phase, done) && i !in done
    ensures CallsOnce(calls + [Call(phase, i)], base, phase, done + {i})
  {
  }

  class OperationParser {
    const extensions: seq<Extension>
    /** params.Context: the callbacks whose returned context it went through. */
    var context: seq<Call>
    /** The keys parseAST sets on the operation context. */
    var hasParams: bool
    var hasAst: Option<bool>
    var subscription: Option<bool>
    ghost var calls: seq<Call>

    constructor (extensions: seq<Extension>)
      ensures this.extensions == extensions && calls == [] && context == []
      ensures !hasParams && hasAst == None && subscription == None
    {
      this.extensions := extensions;
      context, hasParams, hasAst, subscription, calls := [], false, None, None, [];
    }

    /** handleExtensionsInits. */
    method Inits() returns (errors: seq<Problem>)
      modifies this`context, this`calls
      ensures errors == PanicsOf(extensions, InitCall, |extensions|)
      ensures calls == old(calls) + CallsOf(InitCall, |extensions|)
    {
      errors := [];
      for k := 0 to |extensions|
        invariant errors == PanicsOf(extensions, InitCall, k)
        invariant calls == old(calls) + CallsOf(InitCall, k)
      {
        CallsOfNext(InitCall, k);
        calls := calls + [Call(InitCall, k)];
        if InitCall in extensions[k].panics {
          errors := errors + [Panicked(InitCall, k)];
        } else {
          context := context + [Call(InitCall, k)];
        }
      }
    }

    /** The start callbacks of handleExtensionsParseDidStart and handleExtensionsValidationDidStart. */
    method Starts(phase: Phase) returns (errors: seq<Problem>, kept: map<string, nat>)
      modifies this`context, this`calls
      ensures errors == PanicsOf(extensions, phase, |extensions|)
      ensures kept == Registered(extensions, phase, |extensions|)
      ensures calls == old(calls) + CallsOf(phase, |extensions|)
    {
      errors, kept := [], map[];
      for k := 0 to |extensions|
        invariant errors == PanicsOf(extensions, phase, k)
        invariant kept == Registered(extensions, phase, k)
        invariant calls == old(calls) + CallsOf(phase, k)
      {
        CallsOfNext(phase, k);
        assert old(calls) + (CallsOf(phase, k) + [Call(phase, k)]) == old(calls) + CallsOf(phase, k) + [Call(phase, k)];
        calls := calls + [Call(phase, k)];
        if phase in extensions[k].panics {
          errors := errors + [Panicked(phase, k)];
        } else {
          context := context + [Call(phase, k)];
          kept := kept[extensions[k].name := k];
        }
      }
    }

    /** The finish functions, in the arbitrary order of a map iteration. */
    method Finishes(phase: Phase, kept: map<string, nat>, base: seq<Problem>) returns (errors: seq<Problem>)
      requires forall name :: name in kept ==> kept[name] < |extensions| && extensions[kept[name]].name == name
      modifies this`calls
      ensures Reports(errors, multiset(base), extensions, phase, kept.Values)
      ensures CallsOnce(calls, old(calls), phase, kept.Values)
      ensures errors == [] ==> base == []
    {
      errors := base;
      var left := kept.Keys;
      ghost var done: set<nat> := {};
      while left != {}
        invariant left <= kept.Keys
        invariant done == set name | name in kept.Keys - left :: kept[name]
        invariant Reports(errors, multiset(base), extensions, phase, done)
        invariant CallsOnce(calls, old(calls), phase, done)
        invariant base <= errors
        decreases |left|
      {
        var name :| name in left;
        var i := kept[name];
        assert i !in done by {
          assert forall other :: other in kept && kept[other] == i ==> other == name;
        }
        left := left - {name};
        ReportsOneMore(errors, multiset(base), extensions, phase, done, i);
        CallsOneMore(calls, old(calls), phase, done, i);
        done := done + {i};
        calls := calls + [Call(phase, i)];
        if phase in extensions[i].panics {
          errors := errors + [Panicked(phase, i)];
        }
      }
      assert done == kept.Values;
    }

    /** parseAST up to the parse-finish functions; None if everything went well. */
    method Parse(document: Document) returns (result: Option<seq<Problem>>)
      requires calls == []
      modifies this`context, this`calls, this`hasAst
      ensures result == None ==> document.Parsed? && Clean(extensions, InitCall) && Clean(extensions, ParseStart)
      ensures result == None ==> ParsePassed(extensions, document)
      ensures result == None ==>
                && FinishedOnce(calls, ParseFinish, KeptIndices(extensions, ParseStart))
                && FinishedOnce(calls, ValidationFinish, {})
      ensures result != None ==> Explained(extensions, document, result, calls)
    {
      var errors := Inits();
      if errors != [] { return Some(errors); }
      var kept;
      errors, kept := Starts(ParseStart);
      if errors != [] { return Some(errors); }
      hasAst := Some(document.Parsed?);
      RegisteredIsLatest(extensions, ParseStart, |extensions|);
      ghost var before := calls;
      var base := if document.Parsed? then [] else [ParseError];
      errors := Finishes(ParseFinish, kept, base);
      NothingReported(errors, base, extensions, ParseFinish, kept.Values);
      ParseCounts(before, calls, |extensions|, kept.Values);
      result := if errors == [] then None else Some(errors);
    }

    /** parseAST from the validation-start callbacks on, when parsing has passed. */
    method Validate(document: Document) returns (errors: seq<Problem>)
      requires document.Parsed?
      modifies this`context, this`calls
      ensures errors == [] <==>
                && Clean(extensions, ValidationStart) && document.violations == []
                && Quiet(extensions, ValidationFinish, KeptIndices(extensions, ValidationStart))
      ensures Reports(errors,
                      multiset(PanicsOf(extensions, ValidationStart, |extensions|))
                          + multiset(Violations(document.violations)),
                      extensions, ValidationFinish, KeptIndices(extensions, ValidationStart))
      ensures CallsOnce(calls, old(calls) + CallsOf(ValidationStart, |extensions|), ValidationFinish,
                        KeptIndices(extensions, ValidationStart))
    {
      var starting, kept := Starts(ValidationStart);
      RegisteredIsLatest(extensions, ValidationStart, |extensions|);
      var violations := Violations(document.violations);
      var finishing := Finishes(ValidationFinish, kept, violations);
      NothingReported(finishing, violations, extensions, ValidationFinish, kept.Values);
      errors := starting + finishing;
      ReportsBefore(starting, finishing, multiset(violations), extensions, ValidationFinish, kept.Values);
    }

    /** parseAST. The result is None on success, or the errors to report. */
    method ParseAst(document: Document) returns (result: Option<seq<Problem>>)
      requires calls == []
      modifies this
      ensures Explained(extensions, document, result, calls)
      ensures result == None ==> document.Parsed? && subscription == Some(HasSubscription(document.definitions))
      ensures result != None ==> subscription == old(subscription)
    {
      hasParams := true;
      result := Parse(document);
      if result != None { return; }
      ghost var before := calls;
      var errors := Validate(document);
      ValidationCounts(before, before + CallsOf(ValidationStart, |extensions|), calls, |extensions|,
                       KeptIndices(extensions, ParseStart), KeptIndices(extensions, ValidationStart));
      if errors != [] || !document.valid { return Some(errors); }
      var found := Subscribes(document.definitions);
      subscription := Some(found);
    }
  }

  /** Errors found earlier are reported in front. */
  lemma ReportsBefore(earlier: seq<Problem>, errors: seq<Problem>, base: multiset<Problem>, extensions: seq<Extension>,
                      phase: Phase, among: set<nat>)
    requires Reports(errors, base, extensions, phase, among)
    ensures Reports(earlier + errors, multiset(earlier) + base, extensions, phase, among)
  {
    forall p: Problem
      ensures multiset(earlier + errors)[p] == (multiset(earlier) + base)[p]
                + (if p.Panicked? && p.phase == phase && p.index in among && Panics(extensions, phase, p.index)
                   then 1 else 0)
    {
      assert multiset(earlier + errors) == multiset(earlier) + multiset(errors);
    }
  }

  /** The loop that looks for a subscription among the definitions. */
  method Subscribes(definitions: seq<Definition>) returns (found: bool)
    ensures found == HasSubscription(definitions)
  {
    found := false;
    for k := 0 to |definitions|
      invariant found == HasSubscription(definitions[..k])
    {
      assert definitions[..k + 1][k] == definitions[k];
      if definitions[k] == Subscription {
        return true;
      }
    }
    assert definitions[..|definitions|] == definitions;
  }

  lemma ParseCounts(before: seq<Call>, calls: seq<Call>, n: nat, among: set<nat>)
    requires before == CallsOf(InitCall, n) + CallsOf(ParseStart, n) && CallsOnce(calls, before, ParseFinish, among)
    ensures FinishedOnce(calls, ParseFinish, among) && FinishedOnce(calls, ValidationFinish, {})
  {
    forall i: nat, phase: Phase | phase == ParseFinish || phase == ValidationFinish
      ensures multiset(before)[Call(phase, i)] == 0
    {
      OtherPhase(InitCall, n, Call(phase, i));
      OtherPhase(ParseStart, n, Call(phase, i));
    }
  }

  lemma ValidationCounts(before: seq<Call>, middle: seq<Call>, calls: seq<Call>, n: nat, parsed: set<nat>,
                         among: set<nat>)
    requires FinishedOnce(before, ParseFinish, parsed) && FinishedOnce(before, ValidationFinish, {})
    requires middle == before + CallsOf(ValidationStart, n) && CallsOnce(calls, middle, ValidationFinish, among)
    ensures FinishedOnce(calls, ParseFinish, parsed) && FinishedOnce(calls, ValidationFinish, among)
  {
    forall i: nat, phase: Phase | phase == ParseFinish || phase == ValidationFinish
      ensures multiset(middle)[Call(phase, i)] == multiset(before)[Call(phase, i)]
    {
      OtherPhase(ValidationStart, n, Call(phase, i));
    }
  }
}
