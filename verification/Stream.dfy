/** The live stream against the durable log: what a drive yields is exactly what was appended. */
module Stream {
  import opened Model
  import opened Engine
  import opened System

  /** A host's log is append-only with a strictly increasing sequence, numbered below the next one. */
  ghost predicate LogOk(w: World) {
    && (forall i, j :: 0 <= i < j < |w.log| ==> w.log[i].sequence < w.log[j].sequence)
    && (forall i :: 0 <= i < |w.log| ==> w.log[i].sequence < w.nextSeq)
  }

  /** The cursor cuts the log at index `cut`. */
  ghost predicate CutAt(w: World, cursor: int, cut: nat) {
    && cut <= |w.log|
    && cursor < w.nextSeq
    && (forall k :: 0 <= k < cut ==> w.log[k].sequence <= cursor)
    && (forall k :: cut <= k < |w.log| ==> w.log[k].sequence > cursor)
  }

  /** The yielded events are the log's events from the drive's mark on, without gap or duplicate. */
  ghost predicate Segment(s: State) {
    && s.mark + |s.e.yielded| <= |s.w.log|
    && (forall k :: 0 <= k < |s.e.yielded| ==> s.e.yielded[k] == s.w.log[s.mark + k])
  }

  ghost predicate StreamInv(s: State) {
    && LogOk(s.w)
    && Segment(s)
    && (s.e.pc.AskSequence? ==> s.e.yielded == [])
    && (!s.e.pc.Resting? && !s.e.pc.AskSequence? ==> CutAt(s.w, s.e.cursor, s.mark + |s.e.yielded|))
  }

  lemma {:induction false} EventsPastIsSuffix(log: seq<Event>, after: int, cut: nat)
    requires cut <= |log|
    requires forall k :: 0 <= k < cut ==> log[k].sequence <= after
    requires forall k :: cut <= k < |log| ==> log[k].sequence > after
    ensures EventsPast(log, after) == log[cut..]
  {
    if |log| > 0 {
      var front := log[..|log| - 1];
      if cut == |log| {
        EventsPastIsSuffix(front, after, cut - 1);
      } else {
        EventsPastIsSuffix(front, after, cut);
        assert log[cut..] == front[cut..] + [log[|log| - 1]];
      }
    }
  }

  lemma DrainedAppends(s: State, events: seq<Event>)
    requires StreamInv(s) && !s.e.pc.Resting? && !s.e.pc.AskSequence?
    requires events == EventsPast(s.w.log, s.e.cursor)
    ensures var e := Yield(s.e, events);
            && e.yielded == s.w.log[s.mark..]
            && CutAt(s.w, e.cursor, |s.w.log|)
  {
    var cut := s.mark + |s.e.yielded|;
    EventsPastIsSuffix(s.w.log, s.e.cursor, cut);
    assert s.w.log[s.mark..] == s.w.log[s.mark..cut] + s.w.log[cut..];
    if |events| > 0 {
      assert events[|events| - 1] == s.w.log[|s.w.log| - 1];
    }
  }

  /** The log grew by at most one event, numbered with the host's next sequence. */
  ghost predicate LogGrew(w: World, w': World) {
    && w.nextSeq <= w'.nextSeq
    && (w'.log == w.log
        || (|w'.log| == |w.log| + 1 && w'.log[..|w.log|] == w.log
            && w'.log[|w.log|].sequence == w.nextSeq < w'.nextSeq))
  }

  lemma MoveGrowsLog(w: World, m: HostMove)
    ensures LogGrew(w, Apply(w, m))
  {
  }

  /** What a served callback means for the stream: what the host answered, and what the log became. */
  ghost predicate StreamReply(w: World, w': World, req: Request, reply: Reply) {
    && LogGrew(w, w')
    && (!req.Append? ==> w'.log == w.log)
    && (req.NextSequence? && reply.Number? ==> reply.n == w.nextSeq)
    && (req.EventsAfter? && reply.Batch? ==> reply.events == EventsPast(w.log, req.after))
  }

  lemma PerformForStream(w: World, req: Request, answer: Answer, outcome: Outcome)
    ensures StreamReply(w, Perform(w, req, answer, outcome).0, req, Perform(w, req, answer, outcome).1)
  {
  }

  /** Growth keeps the invariant while the stream's own variables stand still. */
  lemma GrowthKeepsStream(s: State, t: State)
    requires StreamInv(s) && LogGrew(s.w, t.w)
    requires t.e.yielded == s.e.yielded && t.e.cursor == s.e.cursor && t.mark == s.mark
    requires t.e.pc.Resting? || (!s.e.pc.Resting? && (s.e.pc.AskSequence? <==> t.e.pc.AskSequence?))
    ensures StreamInv(t)
  {
    assert forall k :: 0 <= k < |s.w.log| ==> t.w.log[k] == t.w.log[..|s.w.log|][k];
  }

  /** What the engine does with the stream's variables on one reply. */
  ghost predicate StreamResume(e: Engine, e': Engine, req: Request, reply: Reply) {
    && !e'.pc.AskSequence?
    && (e.pc.Drain? || e.pc.FirstDrain? ==>
          && req == EventsAfter(e.cursor)
          && (if reply.Batch? then
                e'.cursor == Yield(e, reply.events).cursor && e'.yielded == Yield(e, reply.events).yielded
              else e'.cursor == e.cursor && e'.yielded == e.yielded))
    && (e.pc.AskSequence? ==>
          && req.NextSequence? && e'.yielded == e.yielded
          && (e'.pc.Resting? || (reply.Number? && e'.cursor == reply.n - 1)))
    && (!e.pc.Drain? && !e.pc.FirstDrain? && !e.pc.AskSequence? ==>
          e'.cursor == e.cursor && e'.yielded == e.yielded)
  }

  lemma ResumeForStream(cfg: Config, e: Engine, reply: Reply, clock: real)
    requires !e.pc.Resting?
    ensures StreamResume(e, Resume(cfg, e, reply, clock), Ask(e), reply)
  {
  }

  lemma ServedKeepsStream(s: State, t: State, req: Request, reply: Reply)
    requires StreamInv(s) && !s.e.pc.Resting?
    requires StreamReply(s.w, t.w, req, reply) && StreamResume(s.e, t.e, req, reply)
    requires t.mark == if s.e.pc.AskSequence? then |s.w.log| else s.mark
    ensures StreamInv(t)
    ensures (s.e.pc.Drain? && reply.Batch?) || s.e.pc.AskSequence? ==> |t.e.yielded| == |t.w.log| - t.mark
  {
    if (s.e.pc.Drain? || s.e.pc.FirstDrain?) && reply.Batch? {
      DrainedAppends(s, reply.events);
    } else if !s.e.pc.AskSequence? {
      GrowthKeepsStream(s, t);
    }
  }

  /** Only a drain, or the check that the run had already ended, makes a drive return. */
  lemma ReturnsFromDrain(cfg: Config, e: Engine, reply: Reply, clock: real)
    requires !e.pc.Resting?
    ensures var e' := Resume(cfg, e, reply, clock);
            e'.pc.Resting? && e'.pc.exit.Return? ==> (e.pc.Drain? && reply.Batch?) || e.pc.AskSequence?
  {
  }

  lemma StreamStep(cfg: Config, s: State, i: Input)
    requires StreamInv(s)
    ensures StreamInv(Next(cfg, s, i))
    ensures var t := Next(cfg, s, i);
            !s.e.pc.Resting? && t.e.pc.Resting? && t.e.pc.exit.Return? ==> |t.e.yielded| == |t.w.log| - t.mark
  {
    match i
    case Move(m) =>
      MoveGrowsLog(s.w, m);
      GrowthKeepsStream(s, Next(cfg, s, i));
    case Begin =>
    case Serve(answer, outcome, clock) =>
      if !s.e.pc.Resting? {
        var reply := Perform(s.w, Ask(s.e), answer, outcome).1;
        PerformForStream(s.w, Ask(s.e), answer, outcome);
        ResumeForStream(cfg, s.e, reply, clock);
        ReturnsFromDrain(cfg, s.e, reply, clock);
        ServedKeepsStream(s, Next(cfg, s, i), Ask(s.e), reply);
      }
  }

  lemma {:induction false} StreamAlong(cfg: Config, s: State, ins: seq<Input>)
    requires StreamInv(s)
    ensures StreamInv(RunAll(cfg, s, ins))
    decreases |ins|
  {
    if |ins| > 0 {
      StreamStep(cfg, s, ins[0]);
      StreamAlong(cfg, Next(cfg, s, ins[0]), ins[1..]);
    }
  }

  /**
   At every moment of every run, and so on every raise, the yielded events are a gap-free piece of
   the durable log starting at the drive's mark. When a drive returns they are all of it, whoever
   appended the events: engine, handler, host, or the end hook.
   */
  lemma StreamEqualsLog(cfg: Config, w: World, ins: seq<Input>, i: Input)
    requires LogOk(w)
    ensures var s := RunAll(cfg, Start(w), ins);
            && Segment(s)
            && (forall a, b :: 0 <= a < b < |s.e.yielded| ==> s.e.yielded[a].sequence < s.e.yielded[b].sequence)
    ensures var s, t := RunAll(cfg, Start(w), ins), Next(cfg, RunAll(cfg, Start(w), ins), i);
            !s.e.pc.Resting? && t.e.pc.Resting? && t.e.pc.exit.Return?
            ==> t.mark <= |t.w.log| && t.e.yielded == t.w.log[t.mark..]
  {
    StreamAlong(cfg, Start(w), ins);
    StreamStep(cfg, RunAll(cfg, Start(w), ins), i);
  }
}
