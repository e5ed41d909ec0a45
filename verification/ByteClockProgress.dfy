/** Progress of the marks, while every mark that still waits for its bytes belongs to a
    registered waiter at each barge-in; and exactly what a barge-in does otherwise. */
module ByteClockProgress {
  import opened Base
  import opened ByteClock
  import opened ByteClockPaths
  import A = ByteClockAudio
  import M = ByteClockMarks
  import S = Session

  /** An earlier mark is reached no later than a later one. */
  ghost predicate InOrder(x: Mark, y: Mark) {
    && x.target <= y.target
    && (x.anchor.Some? && y.anchor.Some? ==> x.anchor.value <= y.anchor.value)
  }

  ghost predicate Ordered(marks: seq<Mark>) {
    forall i, j :: 0 <= i < j < |marks| ==> InOrder(marks[i], marks[j])
  }

  /** Every mark that still waits is covered by audio the writer holds; during the write
      of a barge-in event, it is one the barge-in is about to release. */
  ghost predicate Covered(s: State, m: Mark) {
    m.anchor.None? ==>
      if s.pc.BargeAwait? then m.name in s.pc.names
      else m.target <= s.sent + |s.flight| + |s.buffer|
  }

  ghost predicate Reach(s: State) {
    && Ordered(s.marks)
    && (forall i :: 0 <= i < |s.marks| ==> Covered(s, s.marks[i]))
    && (A.PassTime(s.pc).Some? ==>
        forall i :: 0 <= i < |s.marks| && s.marks[i].anchor.Some? ==> s.marks[i].anchor.value <= A.PassTime(s.pc).value)
  }

  ghost predicate Good(s: State) { A.Inv(s) && M.Inv(s) && Reach(s) }

  /** Every waiting mark belongs to a registered waiter. */
  ghost predicate WaitingArePending(s: State) {
    forall i :: 0 <= i < |s.marks| && s.marks[i].anchor.None? ==> s.marks[i].name in s.sess.pending
  }

  lemma {:induction false} WithoutOrdered(marks: seq<Mark>, names: set<S.Key>)
    requires Ordered(marks)
    ensures Ordered(Without(marks, names))
  {
    if marks != [] {
      WithoutOrdered(marks[1..], names);
      M.WithoutIsSubset(marks[1..], names);
      var rest := Without(marks[1..], names);
      forall j | 0 <= j < |rest| ensures InOrder(marks[0], rest[j]) {
        assert rest[j] in marks[1..];
      }
    }
  }

  lemma TakeKeepsReach(s: State)
    requires Good(s) && Enabled(s, Take)
    ensures Reach(Next(s, Take))
  {
    var u := Next(s, Take);
    var target := s.sent + |u.buffer|;
    var anchor := if target == s.sent then Some(s.pc.now) else None;
    var added := Taken(s.sess.markQueue, s.sess.pending, target, anchor, |s.cells|);
    M.TakenMarks(s.sess.markQueue, s.sess.pending, target, anchor, |s.cells|);
    forall i | 0 <= i < |s.marks| ensures s.marks[i].target <= target {
      assert M.MarkOk(s, s.marks[i]) && Covered(s, s.marks[i]);
    }
    forall i, j | 0 <= i < j < |u.marks| ensures InOrder(u.marks[i], u.marks[j]) {
      if j >= |s.marks| { assert u.marks[j] in added; }
      if i >= |s.marks| { assert u.marks[i] in added; }
    }
    forall i | 0 <= i < |u.marks| ensures Covered(u, u.marks[i]) {
      if i >= |s.marks| { assert u.marks[i] in added; } else { assert Covered(s, s.marks[i]); }
    }
  }

  lemma LandKeepsReach(s: State, t: nat)
    requires Good(s) && Enabled(s, SentOk(t))
    ensures Reach(Next(s, SentOk(t)))
  {
    var u := Next(s, SentOk(t));
    forall i | 0 <= i < |s.marks|
      ensures Covered(u, u.marks[i])
      ensures s.marks[i].anchor.Some? ==> u.marks[i] == s.marks[i] && s.marks[i].anchor.value <= t
    {
      assert M.MarkOk(s, s.marks[i]) && Covered(s, s.marks[i]);
    }
    forall i, j | 0 <= i < j < |u.marks| ensures InOrder(u.marks[i], u.marks[j]) {
      assert InOrder(s.marks[i], s.marks[j]);
      assert M.MarkOk(s, s.marks[i]) && M.MarkOk(s, s.marks[j]);
    }
  }

  lemma BargeDoneKeepsReach(s: State)
    requires Good(s) && Enabled(s, BargeDone)
    ensures Reach(Next(s, BargeDone))
  {
    var u := Next(s, BargeDone);
    WithoutOrdered(s.marks, s.pc.names);
    M.WithoutIsSubset(s.marks, s.pc.names);
    forall i | 0 <= i < |u.marks| ensures Covered(u, u.marks[i]) && u.marks[i] in s.marks {
      assert u.marks[i] in u.marks;
      var j :| 0 <= j < |s.marks| && s.marks[j] == u.marks[i];
      assert Covered(s, s.marks[j]);
    }
  }

  /** The other acts add no mark and lose no audio in front of one. */
  lemma CoverUntouched(s: State, a: Act) returns (n: nat)
    requires A.InTransit(s) && Enabled(s, a) && !a.Take? && !a.SentOk? && !a.BargeDone? && !a.BargeBegin?
    requires !Next(s, a).pc.Stopped?
    ensures var u := Next(s, a);
      && u.sent == s.sent && |u.flight| + |u.buffer| == |s.flight| + |s.buffer|
      && n <= |s.marks| && u.marks == s.marks[n..]
      && (if u.pc.BargeAwait? then u.pc == s.pc else !s.pc.BargeAwait?)
      && (A.PassTime(u.pc).Some? ==> A.PassTime(u.pc) == A.PassTime(s.pc) || A.PassTime(u.pc).value >= s.time)
  {
    if a.Resolve? {
      n := DueMarks(s.marks, a.t, s.latency);
    } else {
      n := 0;
      assert s.marks[0..] == s.marks;
    }
  }

  lemma SuffixOrdered(marks: seq<Mark>, n: nat)
    requires Ordered(marks) && n <= |marks|
    ensures Ordered(marks[n..])
  {
    var rest := marks[n..];
    forall i, j | 0 <= i < j < |rest| ensures InOrder(rest[i], rest[j]) {
      assert rest[i] == marks[n + i] && rest[j] == marks[n + j];
    }
  }

  lemma UntouchedKeepsReach(s: State, u: State, n: nat)
    requires M.Inv(s) && Reach(s)
    requires u.sent == s.sent && |u.flight| + |u.buffer| == |s.flight| + |s.buffer|
    requires n <= |s.marks| && u.marks == s.marks[n..]
    requires if u.pc.BargeAwait? then u.pc == s.pc else !s.pc.BargeAwait?
    requires A.PassTime(u.pc).Some? ==> A.PassTime(u.pc) == A.PassTime(s.pc) || A.PassTime(u.pc).value >= s.time
    ensures Reach(u)
  {
    SuffixOrdered(s.marks, n);
    forall i | 0 <= i < |u.marks| ensures Covered(u, u.marks[i]) {
      assert Covered(s, s.marks[n + i]);
    }
    if A.PassTime(u.pc).Some? {
      forall i | 0 <= i < |u.marks| && u.marks[i].anchor.Some?
        ensures u.marks[i].anchor.value <= A.PassTime(u.pc).value
      {
        assert M.MarkOk(s, s.marks[n + i]);
      }
    }
  }

  lemma BargeBeginKeepsReach(s: State)
    requires Good(s) && Enabled(s, BargeBegin) && WaitingArePending(s)
    ensures Reach(Next(s, BargeBegin))
  {}

  /** Order and cover survive every step but a barge-in that finds a waiting mark whose
      waiter is gone (and the end of the writer). */
  lemma ReachKept(s: State, a: Act)
    requires Good(s) && Enabled(s, a) && !Next(s, a).pc.Stopped?
    requires a.BargeBegin? ==> WaitingArePending(s)
    ensures Good(Next(s, a))
  {
    A.InvKept(s, a);
    M.InvKept(s, a);
    if a.Take? {
      TakeKeepsReach(s);
    } else if a.SentOk? {
      LandKeepsReach(s, a.t);
    } else if a.BargeDone? {
      BargeDoneKeepsReach(s);
    } else if a.BargeBegin? {
      BargeBeginKeepsReach(s);
    } else {
      var n := CoverUntouched(s, a);
      UntouchedKeepsReach(s, Next(s, a), n);
    }
  }

  /** A completed barge-in leaves only covered marks if and only if every waiting mark
      belonged to a waiter registered when it began. `v` is any state the environment
      can leave behind while the event is written. */
  lemma BargeInKeepsCoverIff(s: State, v: State)
    requires Good(s) && Enabled(s, BargeBegin)
    requires A.Inv(v) && M.Inv(v) && Enabled(v, BargeDone)
    requires v.marks == s.marks && v.sent == s.sent && v.pc.names == s.sess.pending.Keys
    ensures var u := Next(v, BargeDone);
      (forall i :: 0 <= i < |u.marks| ==> Covered(u, u.marks[i])) <==> WaitingArePending(s)
  {
    var u := Next(v, BargeDone);
    M.WithoutIsSubset(s.marks, v.pc.names);
    forall i | 0 <= i < |s.marks| && s.marks[i].anchor.None? && s.marks[i].name !in s.sess.pending
      ensures exists k :: 0 <= k < |u.marks| && !Covered(u, u.marks[k])
    {
      assert M.MarkOk(s, s.marks[i]);
      assert s.marks[i] in s.marks;
      assert s.marks[i] in u.marks;
      var k :| 0 <= k < |u.marks| && u.marks[k] == s.marks[i];
      assert !Covered(u, u.marks[k]);
    }
    if WaitingArePending(s) {
      forall i | 0 <= i < |u.marks| ensures Covered(u, u.marks[i]) {
        assert u.marks[i] in u.marks;
        var j :| 0 <= j < |s.marks| && s.marks[j] == u.marks[i];
      }
    }
  }

  /** While a mark waits, every pass that may send does send. */
  lemma DuePassSends(s: State)
    requires Good(s) && Enabled(s, Cut) && Unanchored(s.marks) && s.pc.now >= s.nextSend
    ensures Next(s, Cut).pc.SendAwait?
  {
    var i :| 0 <= i < |s.marks| && s.marks[i].anchor.None?;
    assert M.MarkOk(s, s.marks[i]) && Covered(s, s.marks[i]);
  }

  /** A padded packet reaches every mark. */
  lemma PaddedPacketAnchorsAll(s: State, t: nat)
    requires Good(s) && Enabled(s, SentOk(t)) && |s.flight| < PACKET_BYTES
    ensures !Unanchored(Next(s, SentOk(t)).marks)
  {
    forall i | 0 <= i < |s.marks| ensures Next(s, SentOk(t)).marks[i].anchor.Some? {
      assert Covered(s, s.marks[i]);
    }
  }

  /** An anchored mark resolves at the first resolution after its latency: nothing ahead
      of it can hold it back. */
  lemma AnchoredMarkIsDue(s: State, t: nat, i: nat)
    requires Good(s) && Enabled(s, Resolve(t)) && i < |s.marks|
    requires s.marks[i].anchor.Some? && s.marks[i].anchor.value + s.latency <= t
    ensures i < DueMarks(s.marks, t, s.latency)
  {
    M.DueMarksAreDue(s.marks, t, s.latency);
    assert forall k :: 0 <= k < |s.marks| ==> M.MarkOk(s, s.marks[k]);
    assert forall k :: 0 <= k < i ==> InOrder(s.marks[k], s.marks[i]);
  }

  lemma AnchoredMarkResolves(s: State, t: nat, i: nat)
    requires Good(s) && Enabled(s, Resolve(t)) && i < |s.marks|
    requires s.marks[i].anchor.Some? && s.marks[i].anchor.value + s.latency <= t
    ensures i < DueMarks(s.marks, t, s.latency)
    ensures |Next(s, Resolve(t)).resolved| > |s.resolved| + i
    ensures Next(s, Resolve(t)).resolved[|s.resolved| + i] == Resolved(s.marks[i], t)
    ensures s.marks[i].name in s.sess.pending && s.sess.pending[s.marks[i].name] < |s.sess.waiters| ==>
              Next(s, Resolve(t)).sess.waiters[s.sess.pending[s.marks[i].name]].released
  {
    var n := DueMarks(s.marks, t, s.latency);
    AnchoredMarkIsDue(s, t, i);
    var names := Names(s.marks[..n]);
    assert s.marks[..n][i].name in names;
    assert s.marks[i].name in s.sess.pending ==> s.sess.pending[s.marks[i].name] in S.EventsOf(s.sess, names);
  }

  // ---- how many passes a mark can wait

  /** Passes that came to cut a packet when one was due, from act m on and before act n. */
  ghost function DuePasses(states: seq<State>, acts: seq<Act>, m: nat, n: nat): nat
    requires m <= n <= |acts| < |states|
    decreases n - m
  {
    if n == m then 0
    else DuePasses(states, acts, m, n - 1)
         + if DuePass(states[n - 1], acts[n - 1]) then 1 else 0
  }

  ghost function InFlight(s: State): nat { if s.pc.SendAwait? then 1 else 0 }

  /** The bytes accepted and the packet in flight. */
  ghost function Launched(s: State): nat { s.sent + PACKET_BYTES * InFlight(s) }

  ghost predicate Waits(s: State, target: nat) {
    exists i :: 0 <= i < |s.marks| && s.marks[i].target == target && s.marks[i].anchor.None?
  }

  lemma WaitsBeyondSent(s: State, target: nat)
    requires M.Inv(s) && Waits(s, target)
    ensures target > s.sent && Unanchored(s.marks)
  {
    var i :| 0 <= i < |s.marks| && s.marks[i].target == target && s.marks[i].anchor.None?;
    assert M.MarkOk(s, s.marks[i]);
  }

  ghost predicate DuePass(s: State, a: Act) { a == Cut && s.pc.AtPacket? && s.pc.now >= s.nextSend }

  /** The packet of a due pass, and nothing else, is launched by this act. */
  ghost predicate Launches(s: State, a: Act, t: State) {
    Launched(t) == Launched(s) + PACKET_BYTES * (if DuePass(s, a) then 1 else 0)
  }

  lemma CutLaunches(s: State)
    requires Good(s) && Enabled(s, Cut) && Unanchored(s.marks)
    ensures Launches(s, Cut, Next(s, Cut))
  {
    if DuePass(s, Cut) { DuePassSends(s); }
  }

  lemma OthersLaunchNothing(s: State, a: Act)
    requires Enabled(s, a) && a != Cut && !Next(s, a).pc.Stopped?
    ensures Launches(s, a, Next(s, a))
  {
    if !a.SentOk? { assert Next(s, a).sent == s.sent && InFlight(Next(s, a)) == InFlight(s); }
  }

  lemma PassSendsOnePacket(s: State, a: Act, target: nat)
    requires Good(s) && Enabled(s, a) && !Next(s, a).pc.Stopped? && Waits(s, target)
    ensures Launches(s, a, Next(s, a))
  {
    WaitsBeyondSent(s, target);
    if a == Cut { CutLaunches(s); } else { OthersLaunchNothing(s, a); }
  }

  lemma StoppedStays(s: State, a: Act)
    requires Enabled(s, a) && s.pc.Stopped?
    ensures Next(s, a).pc.Stopped?
  {}

  lemma NotStoppedBefore(states: seq<State>, acts: seq<Act>, n: nat)
    requires IsPath(states, acts) && n < |acts| && !states[n + 1].pc.Stopped?
    ensures !states[n].pc.Stopped?
  {
    assert Steps(states[n], acts[n], states[n + 1]);
    if states[n].pc.Stopped? { StoppedStays(states[n], acts[n]); }
  }

  /** From act m on and before act n every barge-in finds the waiting marks registered. */
  ghost predicate Careful(states: seq<State>, acts: seq<Act>, m: nat, n: nat)
    requires |states| > |acts| && n <= |acts|
  {
    forall k {:trigger acts[k]} :: m <= k < n && acts[k] == BargeBegin ==> WaitingArePending(states[k])
  }

  lemma {:induction false} GoodThrough(states: seq<State>, acts: seq<Act>, m: nat, n: nat)
    requires IsPath(states, acts) && m <= n <= |acts| && Good(states[m]) && Careful(states, acts, m, n)
    requires !states[n].pc.Stopped?
    ensures Good(states[n])
    decreases n - m
  {
    if n > m {
      NotStoppedBefore(states, acts, n - 1);
      GoodThrough(states, acts, m, n - 1);
      assert Steps(states[n - 1], acts[n - 1], states[n]);
      ReachKept(states[n - 1], acts[n - 1]);
    }
  }

  lemma {:induction false} NotStoppedThrough(states: seq<State>, acts: seq<Act>, i: nat, j: nat)
    requires IsPath(states, acts) && i <= j <= |acts| && !states[j].pc.Stopped?
    ensures !states[i].pc.Stopped?
    decreases j - i
  {
    if i < j {
      NotStoppedBefore(states, acts, j - 1);
      NotStoppedThrough(states, acts, i, j - 1);
    }
  }

  lemma GoodStep(s: State, a: Act, t: State, target: nat)
    requires Steps(s, a, t) && Good(s) && !t.pc.Stopped? && Waits(s, target)
    ensures Launches(s, a, t)
  {
    PassSendsOnePacket(s, a, target);
  }

  lemma {:induction false} CountOfSteps(states: seq<State>, acts: seq<Act>, m: nat, n: nat)
    requires m <= n <= |acts| < |states|
    requires forall k {:trigger acts[k]} :: m <= k < n ==> Launches(states[k], acts[k], states[k + 1])
    ensures Launched(states[n]) == Launched(states[m]) + PACKET_BYTES * DuePasses(states, acts, m, n)
    decreases n - m
  {
    if n > m {
      var a := acts[n - 1];
      CountOfSteps(states, acts, m, n - 1);
      assert Launches(states[n - 1], a, states[n]);
    }
  }

  lemma LaunchesAt(states: seq<State>, acts: seq<Act>, m: nat, n: nat, k: nat, target: nat)
    requires IsPath(states, acts) && m <= k < n <= |acts| && Good(states[m]) && !states[n].pc.Stopped?
    requires Waits(states[k], target) && Careful(states, acts, m, n)
    ensures Launches(states[k], acts[k], states[k + 1])
  {
    NotStoppedThrough(states, acts, k + 1, n);
    NotStoppedThrough(states, acts, k, n);
    GoodThrough(states, acts, m, k);
    GoodStep(states[k], acts[k], states[k + 1], target);
  }

  /** While a mark waits, sent bytes grow by one packet for each due pass. */
  lemma DuePassesCountPackets(states: seq<State>, acts: seq<Act>, m: nat, n: nat, target: nat)
    requires IsPath(states, acts) && m <= n <= |acts| && Good(states[m]) && !states[n].pc.Stopped?
    requires forall k :: m <= k <= n ==> Waits(states[k], target)
    requires Careful(states, acts, m, n)
    ensures Launched(states[n]) == Launched(states[m]) + PACKET_BYTES * DuePasses(states, acts, m, n)
  {
    forall k {:trigger acts[k]} | m <= k < n ensures Launches(states[k], acts[k], states[k + 1]) {
      LaunchesAt(states, acts, m, n, k, target);
    }
    CountOfSteps(states, acts, m, n);
  }

  /** A mark that waits through a stretch of the run has seen fewer accepted due packets
      than ceil((target - sent) / 1600): that many due passes anchor it. */
  lemma MarkAnchoredWithinPasses(states: seq<State>, acts: seq<Act>, m: nat, n: nat, target: nat)
    requires IsPath(states, acts) && m <= n <= |acts| && Good(states[m]) && !states[n].pc.Stopped?
    requires Careful(states, acts, m, n) && target >= states[m].sent
    requires DuePasses(states, acts, m, n) + InFlight(states[m]) - InFlight(states[n])
          >= (target - states[m].sent + PACKET_BYTES - 1) / PACKET_BYTES
    ensures exists k :: m <= k <= n && !Waits(states[k], target)
  {
    if forall k :: m <= k <= n ==> Waits(states[k], target) {
      DuePassesCountPackets(states, acts, m, n, target);
      GoodThrough(states, acts, m, n);
      WaitsBeyondSent(states[n], target);
    }
  }
}
