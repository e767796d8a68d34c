/** The outgoing channel and the writer: first in, first out, nothing lost; and which part of the
    log each goroutine wrote. */
module EngineChannel {
  import opened Apollows
  import opened Engine

  /** The frames the writer attempted that were asked for through the channel. */
  function Erase(frames: seq<Frame>): seq<Entry> {
    if frames == [] then []
    else
      var last := frames[|frames| - 1];
      Erase(frames[..|frames| - 1]) + (if last.Forwarded? then [last.entry] else [])
  }

  lemma EraseAppend(frames: seq<Frame>, frame: Frame)
    ensures Erase(frames + [frame]) == Erase(frames) + (if frame.Forwarded? then [frame.entry] else [])
  {
    assert (frames + [frame])[..|frames|] == frames;
  }

  function InHand(w: WriterPc): seq<Entry> {
    if w.Writing? then [w.entry] else []
  }

  /** Enqueued equals delivered followed by queued, and the writer attempts exactly what was
      delivered to it, in order. */
  predicate ChannelOk(s: State) {
    && s.log == s.delivered + s.queue
    && |s.queue| <= 1
    && Erase(s.frames) + InHand(s.writer) == s.delivered
    && (s.writer.Returned? ==> s.closed && s.queue == [])
  }

  /** A step enqueues at most one entry, and only into an open channel that has room. */
  lemma EmittedFits(s: State, a: Action)
    requires Enabled(s, a) && !Crashes(s, a)
    ensures |Emitted(s, a)| <= 1
    ensures Emitted(s, a) != [] ==> !s.closed && s.queue == [] && !WriterAction(a)
  {
  }

  predicate WriterAction(a: Action) {
    a.WriterTake? || a.WriterTick? || a.WriterWrite? || a.WriterReact? || a.WriterReturn?
  }

  lemma OrderKept(s: State, a: Action)
    requires ChannelOk(s) && Enabled(s, a) && !Crashes(s, a)
    ensures s.log + Emitted(s, a) == NextDelivered(s, a) + NextQueue(s, a) && |NextQueue(s, a)| <= 1
  {
    EmittedFits(s, a);
    if a.WriterTake? {
      assert s.queue == [s.queue[0]] + s.queue[1..];
    } else {
      assert s.delivered + s.queue + Emitted(s, a) == s.delivered + (s.queue + Emitted(s, a));
    }
  }

  lemma WriteKept(s: State, ok: bool)
    requires Erase(s.frames) + InHand(s.writer) == s.delivered && (s.writer.Writing? || s.writer.Ticking?)
    ensures Erase(NextFrames(s, WriterWrite(ok))) + InHand(NextWriter(s, WriterWrite(ok))) == s.delivered
  {
    if s.writer.Writing? {
      EraseAppend(s.frames, Forwarded(s.writer.entry));
    } else {
      EraseAppend(s.frames, Keepalive);
      assert Erase(s.frames) + [] == Erase(s.frames);
    }
  }

  lemma FramesKept(s: State, a: Action)
    requires Erase(s.frames) + InHand(s.writer) == s.delivered && Enabled(s, a)
    ensures Erase(NextFrames(s, a)) + InHand(NextWriter(s, a)) == NextDelivered(s, a)
  {
    match a
    case WriterWrite(ok) => WriteKept(s, ok);
    case WriterReact => EraseAppend(s.frames, ReactionClose);
    case _ =>
  }

  lemma ReturnKept(s: State, a: Action)
    requires s.writer.Returned? ==> s.closed && s.queue == []
    requires Enabled(s, a) && !Crashes(s, a)
    ensures NextWriter(s, a).Returned? ==> s.closed && NextQueue(s, a) == []
  {
    EmittedFits(s, a);
  }

  lemma ChannelStep(s: State, a: Action)
    requires ChannelOk(s) && Enabled(s, a)
    ensures ChannelOk(Step(s, a))
  {
    if !Crashes(s, a) {
      OrderKept(s, a);
      FramesKept(s, a);
      ReturnKept(s, a);
    }
  }

  /** The items one goroutine enqueued. */
  function ItemsOf(log: seq<Entry>, o: Origin): seq<Item> {
    if log == [] then []
    else
      var last := log[|log| - 1];
      ItemsOf(log[..|log| - 1], o) + (if last.origin == o then [last.item] else [])
  }

  lemma ItemsOfAppend(log: seq<Entry>, new_: seq<Entry>, o: Origin)
    requires |new_| <= 1
    ensures ItemsOf(log + new_, o)
         == ItemsOf(log, o) + (if new_ != [] && new_[0].origin == o then [new_[0].item] else [])
  {
    if new_ == [] {
      assert log + new_ == log;
    } else {
      assert (log + new_)[..|log|] == log;
    }
  }

  function SentBy(s: State, i: nat): seq<Item> {
    if i < |s.runs| then s.runs[i].sent else []
  }

  /** Each goroutine's history is the log restricted to it. */
  ghost predicate HistoryOk(s: State) {
    && ItemsOf(s.log, ByReader) == s.readerSent
    && forall i: nat :: ItemsOf(s.log, ByOperation(i)) == SentBy(s, i)
  }

  lemma HistoryStep(s: State, a: Action)
    requires HistoryOk(s) && Enabled(s, a)
    ensures HistoryOk(Step(s, a))
  {
    var t := Step(s, a);
    if !Crashes(s, a) {
      ItemsOfAppend(s.log, Emitted(s, a), ByReader);
      forall i: nat
        ensures ItemsOf(t.log, ByOperation(i)) == SentBy(t, i)
      {
        ItemsOfAppend(s.log, Emitted(s, a), ByOperation(i));
        assert ItemsOf(s.log, ByOperation(i)) == SentBy(s, i);
        SentByStep(s, a, i);
      }
    }
  }

  lemma OperationSent(s: State, a: Action)
    requires Enabled(s, a) && a.OperationGo?
    ensures NextRuns(s, a)[a.run].sent == s.runs[a.run].sent
            + (if Emitted(s, a) != [] then [Emitted(s, a)[0].item] else [])
  {
    assert s.runs[a.run].sent + [] == s.runs[a.run].sent;
  }

  lemma OthersSent(s: State, a: Action, i: nat)
    requires Enabled(s, a) && i < |s.runs| && !(a.OperationGo? && a.run == i)
    ensures |NextRuns(s, a)| >= |s.runs| && NextRuns(s, a)[i].sent == s.runs[i].sent
    ensures Emitted(s, a) != [] ==> Emitted(s, a)[0].origin != ByOperation(i)
  {
  }

  lemma NewSent(s: State, a: Action, i: nat)
    requires Enabled(s, a) && i >= |s.runs|
    ensures i < |NextRuns(s, a)| ==> NextRuns(s, a)[i].sent == []
    ensures Emitted(s, a) != [] ==> Emitted(s, a)[0].origin != ByOperation(i)
  {
  }

  lemma SentByStep(s: State, a: Action, i: nat)
    requires Enabled(s, a)
    ensures (if i < |NextRuns(s, a)| then NextRuns(s, a)[i].sent else [])
         == SentBy(s, i)
            + (if Emitted(s, a) != [] && Emitted(s, a)[0].origin == ByOperation(i)
               then [Emitted(s, a)[0].item] else [])
  {
    if i >= |s.runs| {
      NewSent(s, a, i);
    } else if a.OperationGo? && a.run == i {
      OperationSent(s, a);
    } else {
      OthersSent(s, a, i);
    }
  }
}
