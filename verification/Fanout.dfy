/** The fan-out of one inbound queue to two providers (stt_tee.py). Every `await` of the
    fan-out task is a step boundary; between steps frames arrive and the task may be
    cancelled. Whether the secondary takes the k-th item is left to an oracle. */
module Fanout {
  import opened Base
  import opened Positions

  /** A frame, or None for the sentinel that ends the stream. */
  type Item = Option<seq<byte>>

  /** A task that was created has not run its first step yet. */
  datatype Phase = Created | Waiting | Finished

  datatype Act = Arrive(item: Item) | Resume | Cancel(secondaryTakes: bool)

  /** `consumed` lists what the task took off the source, `begun` and `cancelled` tell
      whether its first step ran and whether it was cancelled inside its `try`. */
  datatype Tee = Tee(
    source: seq<Item>,
    primary: seq<Item>,
    secondary: seq<Item>,
    drops: nat,
    phase: Phase,
    begun: bool,
    cancelled: bool,
    consumed: seq<Item>)

  const STARTED := Tee([], [], [], 0, Created, false, false, [])

  /** One pass of the loop body: take an item, hand it on. */
  function Take(t: Tee, takes: nat -> bool): Tee
    requires t.source != []
  {
    var item := t.source[0];
    var ok := takes(|t.consumed|);
    t.(source := t.source[1..],
       primary := t.primary + [item],
       secondary := if ok then t.secondary + [item] else t.secondary,
       drops := if ok then t.drops else t.drops + 1,
       consumed := t.consumed + [item],
       phase := if item.None? then Finished else Waiting)
  }

  /** The task runs until it has to wait for the source or the sentinel ends it. */
  function Drain(t: Tee, takes: nat -> bool): Tee
    decreases |t.source|
  {
    if t.source == [] || t.phase.Finished? then t else Drain(Take(t, takes), takes)
  }

  /** A task cancelled before its first step never enters its `try`. */
  function Next(t: Tee, a: Act, takes: nat -> bool): Tee {
    match a
    case Arrive(item) => t.(source := t.source + [item])
    case Resume => if t.phase.Finished? then t else Drain(t.(phase := Waiting, begun := true), takes)
    case Cancel(ok) =>
      if t.phase.Finished? then t
      else if t.phase.Created? then t.(phase := Finished)
      else t.(phase := Finished, cancelled := true, primary := t.primary + [None],
              secondary := if ok then t.secondary + [None] else t.secondary)
  }

  function Run(acts: seq<Act>, takes: nat -> bool): Tee {
    if acts == [] then STARTED else Next(Run(acts[..|acts| - 1], takes), acts[|acts| - 1], takes)
  }

  function Arrived(acts: seq<Act>): seq<Item> {
    if acts == [] then []
    else Arrived(acts[..|acts| - 1]) + (if acts[|acts| - 1].Arrive? then [acts[|acts| - 1].item] else [])
  }

  /** The items the secondary takes. */
  function Taken(items: seq<Item>, takes: nat -> bool): seq<Item> {
    if items == [] then []
    else
      var last := |items| - 1;
      Taken(items[..last], takes) + (if takes(last) then [items[last]] else [])
  }

  function Dropped(items: seq<Item>, takes: nat -> bool): nat {
    if items == [] then 0
    else Dropped(items[..|items| - 1], takes) + (if takes(|items| - 1) then 0 else 1)
  }

  /** Delivered and dropped make up the whole. */
  lemma {:induction false} TakenAndDropped(items: seq<Item>, takes: nat -> bool)
    ensures |Taken(items, takes)| + Dropped(items, takes) == |items|
  {
    if items != [] { TakenAndDropped(items[..|items| - 1], takes); }
  }

  /** Which of the first n items the secondary takes. */
  ghost function Takes(n: nat, takes: nat -> bool): (r: seq<bool>)
    ensures |r| == n && forall k :: 0 <= k < n ==> r[k] == takes(k)
  {
    seq(n, k requires 0 <= k < n => takes(k))
  }

  lemma {:induction false} TakenAt(items: seq<Item>, takes: nat -> bool) returns (at: seq<nat>)
    ensures Picked(items, Takes(|items|, takes), at, Taken(items, takes))
  {
    if items == [] {
      at := [];
    } else {
      var last, chosen := |items| - 1, Takes(|items|, takes);
      var before := TakenAt(items[..last], takes);
      assert chosen[..last] == Takes(last, takes);
      PickedSnoc(items, chosen, before, Taken(items[..last], takes));
      at := Snoced(before, last, chosen[last]);
    }
  }

  /** What the two queues hold, in terms of the items taken off the source. */
  ghost predicate Agrees(t: Tee, takes: nat -> bool) {
    && t.primary == t.consumed + (if t.cancelled then [None] else [])
    && (t.secondary == Taken(t.consumed, takes)
        || (t.cancelled && t.secondary == Taken(t.consumed, takes) + [None]))
    && t.drops == Dropped(t.consumed, takes)
  }

  /** The sentinel is only ever taken last, and how the phases come about. */
  ghost predicate Orderly(t: Tee) {
    && (forall i :: 0 <= i < |t.consumed| - 1 ==> t.consumed[i].Some?)
    && (t.phase.Created? ==> !t.begun)
    && (!t.begun ==> t.consumed == [] && !t.cancelled)
    && (t.cancelled ==> t.phase.Finished?)
    && (t.phase.Waiting? ==> t.begun)
    && (t.consumed != [] && t.consumed[|t.consumed| - 1].None? ==> t.phase.Finished? && !t.cancelled)
    && (t.phase.Finished? && t.begun && !t.cancelled ==>
        t.consumed != [] && t.consumed[|t.consumed| - 1].None?)
  }

  ghost predicate Inv(t: Tee, arrived: seq<Item>, takes: nat -> bool) {
    Agrees(t, takes) && Orderly(t) && t.consumed + t.source == arrived
  }

  lemma TakeKeeps(t: Tee, arrived: seq<Item>, takes: nat -> bool)
    requires Inv(t, arrived, takes) && t.phase.Waiting? && t.source != []
    ensures Inv(Take(t, takes), arrived, takes)
  {
    var u := Take(t, takes);
    assert u.consumed[..|t.consumed|] == t.consumed;
    assert u.consumed + u.source == t.consumed + ([t.source[0]] + t.source[1..]);
  }

  lemma {:induction false} DrainKeeps(t: Tee, arrived: seq<Item>, takes: nat -> bool)
    requires Inv(t, arrived, takes) && !t.phase.Created?
    ensures var u := Drain(t, takes);
      Inv(u, arrived, takes) && u.begun == t.begun && (u.phase.Waiting? ==> u.source == [])
    decreases |t.source|
  {
    if t.source != [] && !t.phase.Finished? {
      TakeKeeps(t, arrived, takes);
      DrainKeeps(Take(t, takes), arrived, takes);
    }
  }

  lemma NextKeeps(t: Tee, arrived: seq<Item>, a: Act, takes: nat -> bool)
    requires Inv(t, arrived, takes)
    ensures Inv(Next(t, a, takes), if a.Arrive? then arrived + [a.item] else arrived, takes)
  {
    if a.Resume? && !t.phase.Finished? { DrainKeeps(t.(phase := Waiting, begun := true), arrived, takes); }
  }

  lemma {:induction false} RunKeeps(acts: seq<Act>, takes: nat -> bool)
    ensures Inv(Run(acts, takes), Arrived(acts), takes)
  {
    if acts != [] {
      RunKeeps(acts[..|acts| - 1], takes);
      NextKeeps(Run(acts[..|acts| - 1], takes), Arrived(acts[..|acts| - 1]), acts[|acts| - 1], takes);
    }
  }

  /** In every run the primary has received exactly the consumed prefix of what arrived,
      apart from the sentinel of a cancel; the secondary has received, in order, the items at
      the positions it took, and how many it did not take was counted. */
  lemma FanOutAgrees(acts: seq<Act>, takes: nat -> bool)
    ensures var t := Run(acts, takes);
      && t.consumed <= Arrived(acts)
      && t.primary == t.consumed + (if t.cancelled then [None] else [])
      && Taken(t.consumed, takes) <= t.secondary
      && (exists at: seq<nat> :: Picked(t.consumed, Takes(|t.consumed|, takes), at, Taken(t.consumed, takes)))
      && |Taken(t.consumed, takes)| + t.drops == |t.consumed|
      && (!t.cancelled ==> |t.secondary| + t.drops == |t.primary|)
  {
    RunKeeps(acts, takes);
    TakenAndDropped(Run(acts, takes).consumed, takes);
    var at := TakenAt(Run(acts, takes).consumed, takes);
  }

  /** Act n cancelled a task that had begun and not finished. */
  ghost predicate CancelHits(acts: seq<Act>, takes: nat -> bool, n: int) {
    0 <= n < |acts| && acts[n].Cancel? && Run(acts[..n], takes).phase.Waiting?
  }

  /** After a cancel that hit, the secondary has got a sentinel behind the items it took if it
      took that too, and nothing more otherwise. */
  lemma {:induction false} CancelReachesSecondary(acts: seq<Act>, takes: nat -> bool) returns (n: nat)
    requires Run(acts, takes).cancelled
    ensures CancelHits(acts, takes, n)
    ensures var t := Run(acts, takes);
      t.secondary == Taken(t.consumed, takes) + if acts[n].secondaryTakes then [None] else []
  {
    var last := |acts| - 1;
    var before := acts[..last];
    RunKeeps(before, takes);
    if Run(before, takes).cancelled {
      n := CancelReachesSecondary(before, takes);
      assert acts[..n] == before[..n];
    } else {
      n := last;
      CancelledByThis(before, acts[last], takes);
    }
  }

  lemma CancelledByThis(before: seq<Act>, a: Act, takes: nat -> bool)
    requires var t := Run(before, takes); !t.cancelled && Next(t, a, takes).cancelled
    ensures a.Cancel? && Run(before, takes).phase.Waiting?
    ensures var t := Run(before, takes);
      Next(t, a, takes).secondary == Taken(t.consumed, takes) + (if a.secondaryTakes then [None] else [])
      && Next(t, a, takes).consumed == t.consumed
  {
    RunKeeps(before, takes);
    if a.Resume? {
      NeverCancels(Run(before, takes).(phase := Waiting, begun := true), takes);
    }
  }

  lemma {:induction false} NeverCancels(t: Tee, takes: nat -> bool)
    ensures Drain(t, takes).cancelled == t.cancelled
    decreases |t.source|
  {
    if t.source != [] && !t.phase.Finished? { NeverCancels(Take(t, takes), takes); }
  }

  /** A task that is resumed leaves nothing behind that it could hand on: it waits with an
      empty source, or it has handed on the sentinel or was cancelled. */
  lemma ResumeConsumesAll(acts: seq<Act>, takes: nat -> bool)
    ensures var t := Run(acts + [Resume], takes);
      && (t.phase.Waiting? ==> t.consumed == Arrived(acts))
      && (t.phase.Finished? && t.begun && !t.cancelled ==> None in t.consumed)
      && !t.phase.Created?
  {
    var more := acts + [Resume];
    assert more[..|acts|] == acts;
    RunKeeps(acts, takes);
    RunKeeps(more, takes);
    var t := Run(acts, takes);
    if !t.phase.Finished? { DrainKeeps(t.(phase := Waiting, begun := true), Arrived(acts), takes); }
  }

  /** Exactly one sentinel, as the last item. */
  ghost predicate EndsOnce(items: seq<Item>) {
    items != [] && forall i :: 0 <= i < |items| ==> (items[i].None? <==> i == |items| - 1)
  }

  /** A finished fan-out has sent the primary its one sentinel, last, if and only if it had
      begun; otherwise it has sent nothing at all, whatever arrived. */
  lemma SentinelIffBegun(acts: seq<Act>, takes: nat -> bool)
    requires Run(acts, takes).phase.Finished?
    ensures var t := Run(acts, takes); if t.begun then EndsOnce(t.primary) else t.primary == []
  {
    RunKeeps(acts, takes);
    var t := Run(acts, takes);
    if t.begun && t.cancelled {
      assert forall i :: 0 <= i < |t.consumed| ==> t.primary[i] == t.consumed[i];
    }
  }

  /** Stopped before its first step, the fan-out leaves the primary without a sentinel
      although a frame was waiting. */
  lemma CancelledBeforeFirstStep(frame: seq<byte>, takes: nat -> bool)
    ensures var acts := [Arrive(Some(frame)), Cancel(true)];
      Run(acts, takes).phase.Finished? && Run(acts, takes).primary == [] && Arrived(acts) == [Some(frame)]
  {
    var acts := [Arrive(Some(frame)), Cancel(true)];
    assert acts[..1] == [Arrive(Some(frame))] && acts[..1][..0] == [];
    assert Run(acts[..1], takes) == Next(STARTED, Arrive(Some(frame)), takes);
    assert Arrived(acts[..1]) == [Some(frame)];
  }

  /** The first of the acts decides whether a fan-out begins: a resume, not a cancel. */
  ghost predicate NoneBefore(acts: seq<Act>, n: nat)
    requires n <= |acts|
  {
    forall i :: 0 <= i < n ==> acts[i].Arrive?
  }

  lemma {:induction false} BegunIff(acts: seq<Act>, n: nat, takes: nat -> bool)
    requires n < |acts| && NoneBefore(acts, n) && !acts[n].Arrive?
    ensures Run(acts, takes).begun <==> acts[n].Resume?
    ensures !Run(acts, takes).phase.Created?
  {
    var last := |acts| - 1;
    var before := acts[..last];
    RunKeeps(before, takes);
    if n < last {
      assert forall i :: 0 <= i <= n ==> before[i] == acts[i];
      BegunIff(before, n, takes);
      var t := Run(before, takes);
      if acts[last].Resume? && !t.phase.Finished? {
        DrainKeeps(t.(phase := Waiting, begun := true), Arrived(before), takes);
      }
    } else {
      NothingYet(before, takes);
      var t := Run(before, takes);
      if acts[last].Resume? {
        DrainKeeps(t.(phase := Waiting, begun := true), Arrived(before), takes);
      }
    }
  }

  lemma {:induction false} NothingYet(acts: seq<Act>, takes: nat -> bool)
    requires NoneBefore(acts, |acts|)
    ensures Run(acts, takes).phase.Created?
  {
    if acts != [] { NothingYet(acts[..|acts| - 1], takes); }
  }

  // ---- the object

  class SttTee {
    const takes: nat -> bool
    var source: seq<Item>
    var primaryQueue: seq<Item>
    var secondaryQueue: seq<Item>
    var secondaryDrops: nat
    var task: Phase
    ghost var begun: bool
    ghost var cancelled: bool
    /** Not a field of the source: the oracle is asked by position. */
    var consumed: seq<Item>

    ghost function Value(): Tee
      reads this
    {
      Tee(source, primaryQueue, secondaryQueue, secondaryDrops, task, begun, cancelled, consumed)
    }

    /** The providers are started; the queues are new and the task is created. */
    constructor (takes: nat -> bool)
      ensures Value() == STARTED && this.takes == takes
    {
      this.takes := takes;
      source, primaryQueue, secondaryQueue, secondaryDrops := [], [], [], 0;
      task, begun, cancelled, consumed := Created, false, false, [];
    }

    /** The body of the loop of `_fanout`. */
    method TakeFrame()
      requires source != [] && task.Waiting?
      modifies this
      ensures Value() == Take(old(Value()), takes)
    {
      var frame := source[0];
      source := source[1..];
      primaryQueue := primaryQueue + [frame];
      if takes(|consumed|) {
        secondaryQueue := secondaryQueue + [frame];
      } else {
        secondaryDrops := secondaryDrops + 1;
      }
      consumed := consumed + [frame];
      if frame.None? { task := Finished; }
    }

    /** The loop of `_fanout` from one wait to the next. */
    method ResumeTask()
      requires !task.Finished?
      modifies this
      ensures Value() == Next(old(Value()), Resume, takes)
    {
      task, begun := Waiting, true;
      ghost var start := Value();
      while source != [] && !task.Finished?
        invariant !task.Created? && Drain(Value(), takes) == Drain(start, takes)
        decreases |source|
      {
        TakeFrame();
      }
    }

    /** The cancel of `stop`, and its handler where the task has one to run. */
    method CancelTask(secondaryTakes: bool)
      modifies this
      ensures Value() == Next(old(Value()), Cancel(secondaryTakes), takes)
    {
      match task {
        case Finished =>
        case Created => task := Finished;
        case Waiting =>
          task, cancelled := Finished, true;
          primaryQueue := primaryQueue + [None];
          if secondaryTakes { secondaryQueue := secondaryQueue + [None]; }
      }
    }

    /** Cancels, waits for the task, stops the providers and forgets the drops. */
    method Stop(secondaryTakes: bool)
      modifies this
      ensures Value() == Next(old(Value()), Cancel(secondaryTakes), takes).(drops := 0) && task.Finished?
    {
      CancelTask(secondaryTakes);
      secondaryDrops := 0;
    }
  }
}
