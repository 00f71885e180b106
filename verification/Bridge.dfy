/**
 The bridge between a drive and the observer of its stream: a worker thread runs the generator and
 publishes each item through the event loop's callbacks into a queue; the observer takes items until the
 end marker, or leaves. Every interleaving of the atomic steps is a schedule.
 */
module Bridge {

  datatype Entry<T> = Item(value: T) | End

  /** The worker is between entries, holds one it has not checked the observer for, is sending one, or is done. */
  datatype Phase<T> = Idle | Holding(entry: Entry<T>) | Sending(entry: Entry<T>) | Exited

  datatype Observer = Watching | Finished | Departed

  datatype State<T> = State(
    items: seq<T>, made: nat, phase: Phase<T>,
    gone: bool, open: bool, scheduled: seq<Entry<T>>, queue: seq<Entry<T>>,
    observer: Observer, delivered: seq<T>, keepalives: nat)

  datatype Move = Work | RunCallback | Take | Timeout | Depart | CloseLoop

  function Init<T>(items: seq<T>): State<T> {
    State(items, 0, Idle, false, true, [], [], Watching, [], 0)
  }

  function After<T>(entry: Entry<T>): Phase<T> {
    if entry.End? then Exited else Idle
  }

  /** The worker's next atomic step: generate, look at the observer flag, or hand the entry to the loop. */
  function Works<T>(s: State<T>): State<T> {
    match s.phase
    case Idle =>
      if s.made < |s.items| then s.(made := s.made + 1, phase := Holding(Item(s.items[s.made])))
      else s.(phase := Holding(End))
    case Holding(entry) => s.(phase := if s.gone then After(entry) else Sending(entry))
    case Sending(entry) =>
      if s.open then s.(scheduled := s.scheduled + [entry], phase := After(entry))
      else s.(gone := true, phase := After(entry))
    case Exited => s
  }

  function Takes<T>(s: State<T>): State<T>
    requires |s.queue| > 0
  {
    match s.queue[0]
    case Item(value) => s.(queue := s.queue[1..], delivered := s.delivered + [value])
    case End => s.(queue := s.queue[1..], observer := Finished, gone := true)
  }

  function Step<T>(s: State<T>, m: Move): State<T> {
    match m
    case Work => Works(s)
    case RunCallback =>
      if s.open && |s.scheduled| > 0 then s.(queue := s.queue + [s.scheduled[0]], scheduled := s.scheduled[1..]) else s
    case Take => if s.open && s.observer.Watching? && |s.queue| > 0 then Takes(s) else s
    case Timeout => if s.open && s.observer.Watching? then s.(keepalives := s.keepalives + 1) else s
    case Depart => if s.observer.Watching? then s.(observer := Departed, gone := true) else s
    case CloseLoop => s.(open := false)
  }

  function Run<T>(s: State<T>, moves: seq<Move>): State<T>
    decreases |moves|
  {
    if |moves| == 0 then s else Step(Run(s, moves[..|moves| - 1]), moves[|moves| - 1])
  }

  // ---- keep-alives ----

  function Timeouts(moves: seq<Move>): nat {
    if |moves| == 0 then 0
    else Timeouts(moves[..|moves| - 1]) + (if moves[|moves| - 1].Timeout? then 1 else 0)
  }

  function WithoutTimeouts(moves: seq<Move>): seq<Move> {
    if |moves| == 0 then []
    else
      var front, last := WithoutTimeouts(moves[..|moves| - 1]), moves[|moves| - 1];
      if last.Timeout? then front else front + [last]
  }

  /**
   A wait that times out sends a keep-alive and nothing else: the delivery is that of the schedule without timeouts,
   and an observer still watching an open loop has been sent one keep-alive for each.
   */
  lemma {:induction false} KeepAlivesChangeNothing<T>(s: State<T>, moves: seq<Move>)
    ensures var t := Run(s, moves);
            && t.(keepalives := s.keepalives) == Run(s, WithoutTimeouts(moves))
            && (t.open && t.observer.Watching? ==> t.keepalives == s.keepalives + Timeouts(moves))
            && s.keepalives <= t.keepalives <= s.keepalives + Timeouts(moves)
    decreases |moves|
  {
    if |moves| > 0 {
      var front, last := moves[..|moves| - 1], moves[|moves| - 1];
      KeepAlivesChangeNothing(s, front);
      StepsApart(Run(s, front), s.keepalives, last);
      if !last.Timeout? {
        assert (WithoutTimeouts(front) + [last])[..|WithoutTimeouts(front)|] == WithoutTimeouts(front);
      }
    }
  }

  lemma StepsApart<T>(s: State<T>, keepalives: nat, m: Move)
    ensures var t := Step(s, m);
            && (t.open && t.observer.Watching? ==> s.open && s.observer.Watching?)
            && (if m.Timeout? then
                  && t == s.(keepalives := t.keepalives)
                  && t.keepalives == s.keepalives + (if s.open && s.observer.Watching? then 1 else 0)
                else
                  && t.keepalives == s.keepalives
                  && Step(s.(keepalives := keepalives), m) == t.(keepalives := keepalives))
  {
  }

  // ---- after the observer has left, or the loop has closed ----

  /** Entries on their way to the observer, one being sent included. */
  function Underway<T>(s: State<T>): nat {
    |s.scheduled| + |s.queue| + (if s.phase.Sending? then 1 else 0)
  }

  lemma GoneStep<T>(s: State<T>, m: Move)
    requires s.gone
    ensures Step(s, m).gone && Underway(Step(s, m)) <= Underway(s)
    ensures !s.observer.Watching? ==> !Step(s, m).observer.Watching? && Step(s, m).delivered == s.delivered
  {
  }

  lemma {:induction false} GoneSendsNoMore<T>(s: State<T>, moves: seq<Move>)
    requires s.gone && !s.observer.Watching?
    ensures var t := Run(s, moves);
            t.gone && !t.observer.Watching? && t.delivered == s.delivered && Underway(t) <= Underway(s)
    decreases |moves|
  {
    if |moves| > 0 {
      GoneSendsNoMore(s, moves[..|moves| - 1]);
      GoneStep(Run(s, moves[..|moves| - 1]), moves[|moves| - 1]);
    }
  }

  lemma {:induction false} ClosedStaysAsItIs<T>(s: State<T>, moves: seq<Move>)
    requires !s.open
    ensures var t := Run(s, moves);
            !t.open && t.delivered == s.delivered && t.scheduled == s.scheduled && t.queue == s.queue
    decreases |moves|
  {
    if |moves| > 0 {
      ClosedStaysAsItIs(s, moves[..|moves| - 1]);
      ClosedStep(Run(s, moves[..|moves| - 1]), moves[|moves| - 1]);
    }
  }

  lemma ClosedStep<T>(s: State<T>, m: Move)
    requires !s.open
    ensures var t := Step(s, m);
            !t.open && t.delivered == s.delivered && t.scheduled == s.scheduled && t.queue == s.queue
  {
  }

  lemma {:induction false} DepartedIsGone<T>(items: seq<T>, moves: seq<Move>)
    ensures var s := Run(Init(items), moves); !s.observer.Watching? ==> s.gone
    decreases |moves|
  {
    if |moves| > 0 {
      DepartedIsGone(items, moves[..|moves| - 1]);
    }
  }

  /**
   Once the observer has left, or the loop has closed, nothing more is delivered. After a departure the worker sends at
   most the one entry it was already sending; after a close it sends none.
   */
  lemma NothingAfterTheEnd<T>(items: seq<T>, before: seq<Move>, after: seq<Move>)
    ensures var s := Run(Init(items), before);
            var t := Run(s, after);
            && (!s.observer.Watching? || !s.open ==> t.delivered == s.delivered)
            && (!s.observer.Watching? ==>
                  |t.scheduled| + |t.queue| <= |s.scheduled| + |s.queue| + (if s.phase.Sending? then 1 else 0))
            && (!s.open ==> t.scheduled == s.scheduled && t.queue == s.queue)
  {
    DepartedIsGone(items, before);
    var s := Run(Init(items), before);
    if !s.observer.Watching? {
      GoneSendsNoMore(s, after);
    }
    if !s.open {
      ClosedStaysAsItIs(s, after);
    }
  }

  // ---- what every interleaving keeps ----

  /** All the generator gives: its items in order, then the end. */
  function All<T>(items: seq<T>): (all: seq<Entry<T>>)
    ensures |all| == |items| + 1 && all[|items|] == End
    ensures forall k :: 0 <= k < |items| ==> all[k] == Item(items[k])
  {
    seq(|items|, k requires 0 <= k < |items| => Item(items[k])) + [End]
  }

  /** What has left the worker, in order: taken by the observer, queued, or scheduled. */
  function Sent<T>(s: State<T>): seq<Entry<T>> {
    All(s.delivered)[..|s.delivered|] + (if s.observer.Finished? then [End] else []) + s.queue + s.scheduled
  }

  predicate Ended<T>(phase: Phase<T>) {
    phase.Exited? || (!phase.Idle? && phase.entry.End?)
  }

  /** Entries the worker has got from the generator, the end counted as one. */
  function Got<T>(s: State<T>): nat {
    s.made + if Ended(s.phase) then 1 else 0
  }

  function InHand<T>(phase: Phase<T>): nat {
    if phase.Holding? || phase.Sending? then 1 else 0
  }

  ghost predicate Inv<T>(s: State<T>) {
    && s.made <= |s.items| && (Ended(s.phase) ==> s.made == |s.items|)
    && Sent(s) <= All(s.items)
    && |Sent(s)| + InHand(s.phase) <= Got(s)
    && (!s.gone || s.phase.Sending? ==> |Sent(s)| + InHand(s.phase) == Got(s))
    && (s.phase.Holding? || s.phase.Sending? ==> s.phase.entry == All(s.items)[Got(s) - 1])
    && (s.observer.Watching? ==> !s.gone || !s.open)
  }

  lemma TakeMovesOn<T>(s: State<T>)
    requires s.observer.Watching? && |s.queue| > 0
    ensures Sent(Takes(s)) == Sent(s)
  {
    var t := Takes(s);
    assert s.queue == [s.queue[0]] + s.queue[1..];
    if s.queue[0].Item? {
      assert All(t.delivered)[..|t.delivered|] == All(s.delivered)[..|s.delivered|] + [s.queue[0]];
    }
  }

  lemma WorkKeeps<T>(s: State<T>)
    requires Inv(s)
    ensures Inv(Works(s))
  {
    var t := Works(s);
    if s.phase.Sending? && s.open {
      assert Sent(t) == Sent(s) + [s.phase.entry];
    } else {
      assert Sent(t) == Sent(s);
    }
  }

  /** A move that leaves the worker alone and loses no entry. */
  lemma OthersKeep<T>(s: State<T>, t: State<T>)
    requires Inv(s) && Sent(t) == Sent(s)
    requires t.items == s.items && t.made == s.made && t.phase == s.phase && (s.gone ==> t.gone)
    requires t.observer.Watching? ==> !t.gone || !t.open
    ensures Inv(t)
  {
  }

  lemma InvStep<T>(s: State<T>, m: Move)
    requires Inv(s)
    ensures Inv(Step(s, m))
  {
    if m.Work? {
      WorkKeeps(s);
    } else {
      assert Sent(Step(s, m)) == Sent(s) by {
        if m.Take? && s.open && s.observer.Watching? && |s.queue| > 0 {
          TakeMovesOn(s);
        } else if m.RunCallback? && s.open && |s.scheduled| > 0 {
          assert s.scheduled == [s.scheduled[0]] + s.scheduled[1..];
        }
      }
      OthersKeep(s, Step(s, m));
    }
  }

  lemma {:induction false} InvRun<T>(items: seq<T>, moves: seq<Move>)
    ensures Inv(Run(Init(items), moves)) && Run(Init(items), moves).items == items
    decreases |moves|
  {
    if |moves| == 0 {
      assert Sent(Init(items)) == [];
    } else {
      var s := Run(Init(items), moves[..|moves| - 1]);
      InvRun(items, moves[..|moves| - 1]);
      InvStep(s, moves[|moves| - 1]);
      ItemsStay(s, moves[|moves| - 1]);
    }
  }

  lemma ItemsStay<T>(s: State<T>, m: Move)
    ensures Step(s, m).items == s.items
  {
  }

  /**
   In every interleaving what the observer has received is a prefix of the items, in order; the end marker
   comes after all of them and at most once, and an observer that saw it received every item.
   */
  lemma DeliveredInOrder<T>(items: seq<T>, moves: seq<Move>)
    ensures var s := Run(Init(items), moves);
            && s.delivered <= items
            && (forall k :: 0 <= k < |Sent(s)| ==> (Sent(s)[k] == End <==> k == |items|))
            && (s.observer.Finished? ==> s.delivered == items && s.queue == [] && s.scheduled == [])
  {
    InvRun(items, moves);
    var s := Run(Init(items), moves);
    var front := All(s.delivered)[..|s.delivered|];
    forall k | 0 <= k < |s.delivered| ensures k < |items| && s.delivered[k] == items[k] {
      assert Sent(s)[k] == front[k] && All(items)[k] == Sent(s)[k];
    }
    if s.observer.Finished? {
      assert Sent(s)[|s.delivered|] == End && All(items)[|s.delivered|] == End;
    }
  }

  /** The worker's remaining steps: three for each entry it has still to get. */
  function StepsLeft<T>(s: State<T>): int {
    3 * (|s.items| + 1 - Got(s)) + if s.phase.Holding? then 2 else if s.phase.Sending? then 1 else 0
  }

  lemma WorkProgress<T>(s: State<T>, m: Move)
    requires Inv(s)
    ensures StepsLeft(s) >= 0 && (StepsLeft(s) == 0 <==> s.phase.Exited?)
    ensures m.Work? && !s.phase.Exited? ==> StepsLeft(Step(s, m)) < StepsLeft(s)
    ensures !m.Work? || s.phase.Exited? ==> StepsLeft(Step(s, m)) == StepsLeft(s)
  {
  }

  function WorkCount(moves: seq<Move>): nat {
    if |moves| == 0 then 0
    else WorkCount(moves[..|moves| - 1]) + if moves[|moves| - 1].Work? then 1 else 0
  }

  lemma {:induction false} WorkAlong<T>(items: seq<T>, moves: seq<Move>)
    ensures var s := Run(Init(items), moves);
            StepsLeft(s) <= 3 * (|items| + 1) - WorkCount(moves) || s.phase.Exited?
    decreases |moves|
  {
    if |moves| > 0 {
      WorkAlong(items, moves[..|moves| - 1]);
      InvRun(items, moves[..|moves| - 1]);
      WorkProgress(Run(Init(items), moves[..|moves| - 1]), moves[|moves| - 1]);
    }
  }

  /** The worker drains the generator to its end, whatever the observer and the event loop do. */
  lemma WorkerAlwaysDrains<T>(items: seq<T>, moves: seq<Move>)
    requires WorkCount(moves) >= 3 * (|items| + 1)
    ensures var s := Run(Init(items), moves); s.phase.Exited? && s.made == |items|
  {
    WorkAlong(items, moves);
    InvRun(items, moves);
    WorkProgress(Run(Init(items), moves), Work);
  }

  /** An observer that stays is owed nothing once the pipe is empty: it has received every item and the end. */
  lemma StayingObserverGetsAll<T>(items: seq<T>, moves: seq<Move>)
    requires forall m :: m in moves ==> !m.Depart? && !m.CloseLoop?
    ensures var s := Run(Init(items), moves);
            && s.open && !s.observer.Departed?
            && (s.phase.Exited? && s.queue == [] && s.scheduled == [] ==> s.observer.Finished? && s.delivered == items)
  {
    StaysOpen(items, moves);
    InvRun(items, moves);
    DeliveredInOrder(items, moves);
  }

  lemma {:induction false} StaysOpen<T>(items: seq<T>, moves: seq<Move>)
    requires forall m :: m in moves ==> !m.Depart? && !m.CloseLoop?
    ensures Run(Init(items), moves).open && !Run(Init(items), moves).observer.Departed?
    decreases |moves|
  {
    if |moves| > 0 {
      assert forall m :: m in moves[..|moves| - 1] ==> m in moves;
      StaysOpen(items, moves[..|moves| - 1]);
      assert moves[|moves| - 1] in moves;
    }
  }

  // ---- a schedule long enough for a staying observer ----

  function CallbackCount(moves: seq<Move>): nat {
    if |moves| == 0 then 0
    else CallbackCount(moves[..|moves| - 1]) + if moves[|moves| - 1].RunCallback? then 1 else 0
  }

  function TakeCount(moves: seq<Move>): nat {
    if |moves| == 0 then 0
    else TakeCount(moves[..|moves| - 1]) + if moves[|moves| - 1].Take? then 1 else 0
  }

  predicate Stays(moves: seq<Move>) {
    forall m :: m in moves ==> !m.Depart? && !m.CloseLoop?
  }

  lemma {:induction false} RunSplits<T>(s: State<T>, a: seq<Move>, b: seq<Move>)
    ensures Run(s, a + b) == Run(Run(s, a), b)
    decreases |b|
  {
    if |b| == 0 {
      assert a + b == a;
    } else {
      assert (a + b)[..|a + b| - 1] == a + b[..|b| - 1];
      RunSplits(s, a, b[..|b| - 1]);
    }
  }

  /** The worker is done and the loop is open: nothing new is scheduled. */
  predicate Draining<T>(s: State<T>) {
    s.open && s.phase.Exited?
  }

  /** Each of the loop's callbacks empties the schedule by one. */
  lemma {:induction false} LoopDrains<T>(s: State<T>, moves: seq<Move>)
    requires Draining(s) && Stays(moves)
    ensures var t := Run(s, moves);
            && Draining(t)
            && |t.scheduled| <=
               if CallbackCount(moves) >= |s.scheduled| then 0 else |s.scheduled| - CallbackCount(moves)
    decreases |moves|
  {
    if |moves| > 0 {
      var m := moves[|moves| - 1];
      assert m in moves;
      LoopDrains(s, moves[..|moves| - 1]);
    }
  }

  /** With nothing left in the schedule, each of the observer's turns empties the queue by one, until the end marker. */
  lemma {:induction false} ObserverDrains<T>(s: State<T>, moves: seq<Move>)
    requires Draining(s) && Stays(moves) && s.scheduled == [] && !s.observer.Departed?
    ensures var t := Run(s, moves);
            && Draining(t) && t.scheduled == [] && !t.observer.Departed?
            && (t.observer.Finished?
                || |t.queue| <= if TakeCount(moves) >= |s.queue| then 0 else |s.queue| - TakeCount(moves))
    decreases |moves|
  {
    if |moves| > 0 {
      var m := moves[|moves| - 1];
      assert m in moves;
      ObserverDrains(s, moves[..|moves| - 1]);
    }
  }

  /** The pipe never holds more than the items and the end. */
  lemma PipeIsShort<T>(items: seq<T>, moves: seq<Move>)
    ensures var s := Run(Init(items), moves); |s.queue| + |s.scheduled| <= |items| + 1
  {
    InvRun(items, moves);
  }

  /** Once the worker is done, enough callbacks and then enough turns empty the pipe. */
  lemma PipeEmpties<T>(s: State<T>, turns: seq<Move>, takes: seq<Move>)
    requires Draining(s) && !s.observer.Departed? && Stays(turns) && Stays(takes)
    requires CallbackCount(turns) >= |s.scheduled|
    requires !Run(s, turns).observer.Departed? && TakeCount(takes) >= |Run(s, turns).queue|
    ensures var t := Run(Run(s, turns), takes);
            && Draining(t) && t.scheduled == [] && (t.observer.Finished? || t.queue == [])
  {
    LoopDrains(s, turns);
    ObserverDrains(Run(s, turns), takes);
  }

  /**
   An observer that stays receives every item and the end: in any schedule with three worker steps per entry, then
   as many callbacks of the loop as there are entries, then as many turns of its own, whatever moves are mixed in.
   */
  lemma StayingObserverFinishes<T>(items: seq<T>, work: seq<Move>, turns: seq<Move>, takes: seq<Move>)
    requires Stays(work) && Stays(turns) && Stays(takes)
    requires WorkCount(work) >= 3 * (|items| + 1)
    requires CallbackCount(turns) >= |items| + 1 && TakeCount(takes) >= |items| + 1
    ensures var s := Run(Init(items), work + turns + takes); s.observer.Finished? && s.delivered == items
  {
    WorkerAlwaysDrains(items, work);
    StaysOpen(items, work);
    PipeIsShort(items, work);
    RunSplits(Init(items), work, turns);
    StaysOpen(items, work + turns);
    PipeIsShort(items, work + turns);
    RunSplits(Init(items), work + turns, takes);
    PipeEmpties(Run(Init(items), work), turns, takes);
    DeliveredInOrder(items, work + turns + takes);
    StayingObserverGetsAll(items, work + turns + takes);
  }

  // ---- the bridge as the objects it works on ----

  /** The queue, the observer flag, and the loop's callbacks as mutable state; each method is one atomic step. */
  class LiveBridge<T(==)> {
    const items: seq<T>
    var made: nat
    var phase: Phase<T>
    var gone: bool
    var open: bool
    var scheduled: seq<Entry<T>>
    var queue: seq<Entry<T>>
    var observer: Observer
    var delivered: seq<T>
    var keepalives: nat

    function Snapshot(): State<T>
      reads this
    {
      State(items, made, phase, gone, open, scheduled, queue, observer, delivered, keepalives)
    }

    constructor (items: seq<T>)
      ensures Snapshot() == Init(items)
    {
      this.items := items;
      made, phase, gone, open, scheduled, queue := 0, Idle, false, true, [], [];
      observer, delivered, keepalives := Watching, [], 0;
    }

    /** Generates the next item, or the end. */
    method Generate()
      requires phase.Idle?
      modifies this
      ensures Snapshot() == Works(old(Snapshot()))
    {
      if made < |items| {
        phase := Holding(Item(items[made]));
        made := made + 1;
      } else {
        phase := Holding(End);
      }
    }

    /** Publishing, first half: an entry for an observer that has gone is dropped. */
    method CheckObserver()
      requires phase.Holding?
      modifies this
      ensures Snapshot() == Works(old(Snapshot()))
    {
      phase := if gone then After(phase.entry) else Sending(phase.entry);
    }

    /** Publishing, second half: a closed loop means that nobody is observing any more. */
    method CallSoon()
      requires phase.Sending?
      modifies this
      ensures Snapshot() == Works(old(Snapshot()))
    {
      if open {
        scheduled := scheduled + [phase.entry];
      } else {
        gone := true;
      }
      phase := After(phase.entry);
    }

    method PutNoWait()
      requires open && |scheduled| > 0
      modifies this
      ensures Snapshot() == Step(old(Snapshot()), RunCallback)
    {
      queue := queue + [scheduled[0]];
      scheduled := scheduled[1..];
    }

    /** The observer's turn: it yields an item, or returns on the end marker, setting the flag on its way out. */
    method GetEntry()
      requires open && observer.Watching? && |queue| > 0
      modifies this
      ensures Snapshot() == Step(old(Snapshot()), Take)
    {
      var entry := queue[0];
      queue := queue[1..];
      if entry.End? {
        observer := Finished;
        gone := true;
      } else {
        delivered := delivered + [entry.value];
      }
    }

    method Disconnect()
      requires observer.Watching?
      modifies this
      ensures Snapshot() == Step(old(Snapshot()), Depart)
    {
      observer := Departed;
      gone := true;
    }

    /** One move of a schedule; a step that is not enabled does nothing. */
    method MakeMove(m: Move)
      modifies this
      ensures Snapshot() == Step(old(Snapshot()), m)
    {
      match m {
        case Work =>
          if phase.Idle? {
            Generate();
          } else if phase.Holding? {
            CheckObserver();
          } else if phase.Sending? {
            CallSoon();
          }
        case RunCallback =>
          if open && |scheduled| > 0 {
            PutNoWait();
          }
        case Take =>
          if open && observer.Watching? && |queue| > 0 {
            GetEntry();
          }
        case Timeout =>
          if open && observer.Watching? {
            keepalives := keepalives + 1;
          }
        case Depart =>
          if observer.Watching? {
            Disconnect();
          }
        case CloseLoop =>
          open := false;
      }
    }

    /** Plays any schedule. */
    method Play(schedule: seq<Move>)
      requires Snapshot() == Init(items)
      modifies this
      ensures Snapshot() == Run(Init(items), schedule)
      ensures delivered <= items
      ensures observer.Finished? ==> delivered == items
      ensures WorkCount(schedule) >= 3 * (|items| + 1) ==> made == |items|
    {
      var i := 0;
      while i < |schedule|
        invariant 0 <= i <= |schedule|
        invariant Snapshot() == Run(Init(items), schedule[..i])
      {
        assert schedule[..i + 1][..i] == schedule[..i];
        MakeMove(schedule[i]);
        i := i + 1;
      }
      assert schedule[..i] == schedule;
      DeliveredInOrder(items, schedule);
      if WorkCount(schedule) >= 3 * (|items| + 1) {
        WorkerAlwaysDrains(items, schedule);
      }
    }
  }
}
