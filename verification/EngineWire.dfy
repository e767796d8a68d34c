/** What a client sees for one operation ID: the runs that used it, one whole run after the other. */
module EngineWire {
  import opened Apollows
  import opened Operation
  import opened Engine
  import opened EngineRegistry

  /** The messages of the log that carry the given ID. */
  function OnWire(log: seq<Entry>, id: string): seq<Kind> {
    if log == [] then []
    else
      var last := log[|log| - 1].item;
      OnWire(log[..|log| - 1], id) + (if last.Message? && last.id == id then [last.kind] else [])
  }

  /** The words of the runs registered under the given ID, in order of registration. */
  function Blocks(runs: seq<Run>, id: string): seq<Kind> {
    if runs == [] then []
    else
      var last := runs[|runs| - 1];
      Blocks(runs[..|runs| - 1], id) + (if last.id == id then Kinds(last.sent) else [])
  }

  lemma OnWireAppend(log: seq<Entry>, e: Entry, id: string)
    ensures OnWire(log + [e], id)
         == OnWire(log, id) + (if e.item.Message? && e.item.id == id then [e.item.kind] else [])
  {
    assert (log + [e])[..|log|] == log;
  }

  lemma BlocksAppend(runs: seq<Run>, r: Run, id: string)
    ensures Blocks(runs + [r], id) == Blocks(runs, id) + (if r.id == id then Kinds(r.sent) else [])
  {
    assert (runs + [r])[..|runs|] == runs;
  }

  /** Replacing a run by one with the same ID and word changes no block. */
  lemma {:induction false} BlocksSame(runs: seq<Run>, i: nat, r: Run, id: string)
    requires i < |runs| && r.id == runs[i].id && Kinds(r.sent) == Kinds(runs[i].sent)
    ensures Blocks(runs[i := r], id) == Blocks(runs, id)
  {
    var last := |runs| - 1;
    if i == last {
      assert runs[i := r][..last] == runs[..last];
    } else {
      assert runs[i := r][..last] == runs[..last][i := r];
      BlocksSame(runs[..last], i, r, id);
    }
  }

  /** The last run of an ID extends that ID's blocks at the end. */
  lemma {:induction false} BlocksExtend(runs: seq<Run>, i: nat, r: Run, kind: Kind)
    requires i < |runs| && r.id == runs[i].id && Kinds(r.sent) == Kinds(runs[i].sent) + [kind]
    requires forall j :: i < j < |runs| ==> runs[j].id != r.id
    ensures Blocks(runs[i := r], r.id) == Blocks(runs, r.id) + [kind]
  {
    var last := |runs| - 1;
    if i == last {
      assert runs[i := r][..last] == runs[..last];
      assert Blocks(runs[..last], r.id) + (Kinds(runs[i].sent) + [kind])
          == Blocks(runs[..last], r.id) + Kinds(runs[i].sent) + [kind];
    } else {
      assert runs[i := r][..last] == runs[..last][i := r];
      BlocksExtend(runs[..last], i, r, kind);
    }
  }

  lemma {:induction false} BlocksOther(runs: seq<Run>, i: nat, r: Run, id: string)
    requires i < |runs| && r.id == runs[i].id != id
    ensures Blocks(runs[i := r], id) == Blocks(runs, id)
  {
    var last := |runs| - 1;
    if i == last {
      assert runs[i := r][..last] == runs[..last];
    } else {
      assert runs[i := r][..last] == runs[..last][i := r];
      BlocksOther(runs[..last], i, r, id);
    }
  }

  ghost predicate WireOk(s: State) {
    forall id: string :: id != "" ==> OnWire(s.log, id) == Blocks(s.runs, id)
  }

  /** Connection-level messages carry no ID. */
  lemma QuietItem(s: State, a: Action)
    requires Enabled(s, a) && !a.OperationGo?
    ensures |Emitted(s, a)| <= 1
    ensures Emitted(s, a) != [] ==> var item := Emitted(s, a)[0].item; item.Message? ==> item.id == ""
  {
  }

  lemma QuietOnWire(s: State, a: Action, id: string)
    requires Enabled(s, a) && !a.OperationGo? && id != ""
    ensures OnWire(s.log + Emitted(s, a), id) == OnWire(s.log, id)
  {
    QuietItem(s, a);
    if Emitted(s, a) == [] {
      assert s.log + [] == s.log;
    } else {
      OnWireAppend(s.log, Emitted(s, a)[0], id);
      assert Emitted(s, a) == [Emitted(s, a)[0]];
    }
  }

  lemma QuietBlocks(s: State, a: Action, id: string)
    requires LaunchOk(s) && Enabled(s, a) && !a.OperationGo?
    ensures Blocks(NextRuns(s, a), id) == Blocks(s.runs, id)
  {
    if a.Detach? {
      BlocksSame(s.runs, a.run, s.runs[a.run].(detached := true), id);
    } else if a.ReaderGo? {
      match s.reader
      case Insert(rid, plan) => BlocksAppend(s.runs, NewRun(rid, plan), id);
      case WgAdd(i) => BlocksSame(s.runs, i, s.runs[i].(pc := Added), id);
      case Spawn(i) => BlocksSame(s.runs, i, s.runs[i].(pc := Decode), id);
      case StopMark(i) => BlocksSame(s.runs, i, s.runs[i].(stopped := true), id);
      case StopCancel(i) => BlocksSame(s.runs, i, s.runs[i].(cancelled := true), id);
      case _ =>
    }
  }

  lemma AdvanceSends(v: View, r: Run, m: Turn)
    requires Enqueues(r, m)
    ensures var r' := Advance(v, r, m); var item := ItemOf(v, r, m);
            && r'.id == r.id && r'.sent == r.sent + [item]
            && (item.Message? ==> item.id == r.id)
            && Kinds(r'.sent) == Kinds(r.sent) + (if item.Message? then [item.kind] else [])
  {
    KindsAppend(r.sent, ItemOf(v, r, m));
  }

  lemma OperationSends(runs: seq<Run>, i: nat, r': Run, log: seq<Entry>, item: Item, id: string)
    requires i < |runs| && OnWire(log, id) == Blocks(runs, id)
    requires r'.id == runs[i].id && (item.Message? ==> item.id == runs[i].id)
    requires Kinds(r'.sent) == Kinds(runs[i].sent) + (if item.Message? then [item.kind] else [])
    requires forall j :: i < j < |runs| ==> runs[j].id != runs[i].id
    ensures OnWire(log + [Entry(ByOperation(i), item)], id) == Blocks(runs[i := r'], id)
  {
    OnWireAppend(log, Entry(ByOperation(i), item), id);
    if r'.id != id {
      BlocksOther(runs, i, r', id);
    } else if item.Message? {
      BlocksExtend(runs, i, r', item.kind);
    } else {
      BlocksSame(runs, i, r', id);
    }
  }

  lemma SendersAreLast(s: State, i: nat)
    requires RegistryOk(s) && i < |s.runs| && Live(s.runs[i])
    ensures forall j :: i < j < |s.runs| ==> s.runs[j].id != s.runs[i].id
  {
  }

  /** An operation that can still send has not been deleted. */
  lemma SendersLive(v: View, room: bool, r: Run, m: Turn)
    requires CanStep(v, room, r, m) && Enqueues(r, m) && (r.pc.WgDone? || r.pc.Finished? ==> AllOver(r.active))
    ensures Live(r)
  {
  }

  lemma OperationWire(s: State, i: nat, m: Turn, id: string)
    requires RegistryOk(s) && Retired(s) && Enabled(s, OperationGo(i, m)) && id != ""
    requires OnWire(s.log, id) == Blocks(s.runs, id)
    ensures OnWire(s.log + Emitted(s, OperationGo(i, m)), id) == Blocks(NextRuns(s, OperationGo(i, m)), id)
  {
    var r' := Advance(ViewOf(s), s.runs[i], m);
    if Enqueues(s.runs[i], m) {
      AdvanceSends(ViewOf(s), s.runs[i], m);
      SendersLive(ViewOf(s), Room(s), s.runs[i], m);
      SendersAreLast(s, i);
      OperationSends(s.runs, i, r', s.log, ItemOf(ViewOf(s), s.runs[i], m), id);
    } else {
      assert s.log + [] == s.log;
      AdvanceSilent(ViewOf(s), s.runs[i], m);
      BlocksSame(s.runs, i, r', id);
    }
  }

  lemma AdvanceSilent(v: View, r: Run, m: Turn)
    requires !Enqueues(r, m)
    ensures Advance(v, r, m).id == r.id && Advance(v, r, m).sent == r.sent
  {
  }

  lemma WireStep(s: State, a: Action)
    requires WireOk(s) && RegistryOk(s) && Retired(s) && LaunchOk(s) && Enabled(s, a) && !Crashes(s, a)
    ensures WireOk(Step(s, a))
  {
    var t := Step(s, a);
    assert t.log == s.log + Emitted(s, a) && t.runs == NextRuns(s, a);
    forall id: string | id != "" ensures OnWire(t.log, id) == Blocks(t.runs, id) {
      assert OnWire(s.log, id) == Blocks(s.runs, id);
      if a.OperationGo? {
        OperationWire(s, a.run, a.turn, id);
      } else {
        QuietOnWire(s, a, id);
        QuietBlocks(s, a, id);
      }
    }
  }
}
