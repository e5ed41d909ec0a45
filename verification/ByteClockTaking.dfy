/** What becomes of the names on the mark queue when the loop takes them, and of the marks a
    barge-in leaves: by positions, so that none is lost, doubled or moved. */
module ByteClockTaking {
  import opened Base
  import opened ByteClock
  import opened Positions
  import M = ByteClockMarks
  import S = Session

  /** Which queued names are registered. */
  ghost function Registered(names: seq<S.Key>, pending: map<S.Key, nat>): (r: seq<bool>)
    ensures |r| == |names| && forall k :: 0 <= k < |r| ==> (r[k] <==> names[k] in pending)
  {
    seq(|names|, k requires 0 <= k < |names| => names[k] in pending)
  }

  /** The names that marks have, in order. */
  ghost function NamesInOrder(marks: seq<Mark>): (r: seq<S.Key>)
    ensures |r| == |marks| && forall i :: 0 <= i < |r| ==> r[i] == marks[i].name
  {
    seq(|marks|, i requires 0 <= i < |marks| => marks[i].name)
  }

  /** The new marks stand for the queued names at the positions `at`, which go up and are
      exactly those of registered names. */
  ghost predicate TakenAt(names: seq<S.Key>, pending: map<S.Key, nat>, at: seq<nat>, taken: seq<Mark>) {
    Picked(names, Registered(names, pending), at, NamesInOrder(taken))
  }

  lemma {:induction false} NamesOfTaken(
      names: seq<S.Key>, pending: map<S.Key, nat>, target: nat, anchor: Option<nat>, pos: nat)
    requires names != []
    ensures NamesInOrder(Taken(names, pending, target, anchor, pos))
         == (if Registered(names, pending)[0] then [names[0]] else [])
            + NamesInOrder(Taken(names[1..], pending, target, anchor, pos))
  {
    var tail := Taken(names[1..], pending, target, anchor, pos);
    var head := Mark(names[0], target, anchor, pos);
    assert NamesInOrder([head] + tail) == [names[0]] + NamesInOrder(tail);
    assert [] + tail == tail;
  }

  lemma {:induction false} TakenPositions(
      names: seq<S.Key>, pending: map<S.Key, nat>, target: nat, anchor: Option<nat>, pos: nat)
      returns (at: seq<nat>)
    ensures TakenAt(names, pending, at, Taken(names, pending, target, anchor, pos))
  {
    if names == [] {
      at := [];
    } else {
      var rest := TakenPositions(names[1..], pending, target, anchor, pos);
      var chosen, tail := Registered(names, pending), Taken(names[1..], pending, target, anchor, pos);
      assert chosen[1..] == Registered(names[1..], pending);
      PickedCons(names, chosen, rest, NamesInOrder(tail));
      at := Consed(chosen[0], rest);
      NamesOfTaken(names, pending, target, anchor, pos);
    }
  }

  /** The marks that a Take adds. */
  ghost function Added(s: State): seq<Mark>
    requires Enabled(s, Take)
  {
    Next(s, Take).marks[|s.marks|..]
  }

  /** A Take keeps the marks it finds and tracks, behind them, every queued name that is
      registered, in queue order and as often as it was queued, with the target behind all
      audio held then. The queue is left empty. */
  lemma TakeTracksQueued(s: State) returns (at: seq<nat>)
    requires Enabled(s, Take)
    ensures var u := Next(s, Take);
      && u.marks == s.marks + Added(s) && u.sess.markQueue == []
      && TakenAt(s.sess.markQueue, s.sess.pending, at, Added(s))
      && forall m :: m in Added(s) ==> m.target == s.sent + |u.buffer| && (m.anchor.Some? <==> u.buffer == [])
  {
    var u := Next(s, Take);
    var target := s.sent + |u.buffer|;
    var anchor := if target == s.sent then Some(s.pc.now) else None;
    at := TakenPositions(s.sess.markQueue, s.sess.pending, target, anchor, |s.cells|);
    M.TakenMarks(s.sess.markQueue, s.sess.pending, target, anchor, |s.cells|);
    assert Added(s) == Taken(s.sess.markQueue, s.sess.pending, target, anchor, |s.cells|);
  }

  lemma NameTaken(
      names: seq<S.Key>, pending: map<S.Key, nat>, at: seq<nat>, held: seq<Mark>, taken: seq<Mark>, key: S.Key)
      returns (i: nat)
    requires TakenAt(names, pending, at, taken) && key in names && key in pending
    ensures i < |held + taken| && (held + taken)[i].name == key
  {
    var k :| 0 <= k < |names| && names[k] == key;
    var n := PositionOf(Registered(names, pending), at, k);
    i := |held| + n;
    assert NamesInOrder(taken)[n] == key;
  }

  /** So whoever is registered and queued is tracked then. */
  lemma QueuedIsTracked(s: State, key: S.Key) returns (i: nat)
    requires Enabled(s, Take) && key in s.sess.markQueue && key in s.sess.pending
    ensures i < |Next(s, Take).marks| && Next(s, Take).marks[i].name == key
  {
    var at := TakeTracksQueued(s);
    i := NameTaken(s.sess.markQueue, s.sess.pending, at, s.marks, Added(s), key);
  }

  // ---- the marks that a barge-in leaves

  /** Which marks have a name that is not given. */
  ghost function Others(marks: seq<Mark>, names: set<S.Key>): (r: seq<bool>)
    ensures |r| == |marks| && forall k :: 0 <= k < |r| ==> (r[k] <==> marks[k].name !in names)
  {
    seq(|marks|, k requires 0 <= k < |marks| => marks[k].name !in names)
  }

  /** The marks kept are those whose name is not given, in order and each as often as it
      was tracked. */
  lemma {:induction false} BargeInKeepsOthers(marks: seq<Mark>, names: set<S.Key>) returns (at: seq<nat>)
    ensures Picked(marks, Others(marks, names), at, Without(marks, names))
  {
    if marks == [] {
      at := [];
    } else {
      var rest := BargeInKeepsOthers(marks[1..], names);
      var chosen := Others(marks, names);
      assert chosen[1..] == Others(marks[1..], names);
      PickedCons(marks, chosen, rest, Without(marks[1..], names));
      at := Consed(chosen[0], rest);
    }
  }
}
