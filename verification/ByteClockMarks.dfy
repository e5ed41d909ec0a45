/** Soundness of the emulated playback marks, over every run: barge-ins, timeouts,
    resets, failures and stale marks included. */
module ByteClockMarks {
  import opened Base
  import opened History
  import opened ByteClock
  import A = ByteClockAudio
  import S = Session

  /** How many bytes queued ahead of a mark have not been discarded. */
  ghost function Ahead(s: State, m: Mark): nat
    requires m.pos <= |s.cells|
  {
    |Live(s.cells[..m.pos])|
  }

  /** The packet that carries the last byte before a mark's target, if any, had been
      accepted by the given time. */
  ghost predicate CarriedBy(s: State, m: Mark, at: nat) {
    m.target > 0 ==>
      (m.target - 1) / PACKET_BYTES < |s.packets| && s.packets[(m.target - 1) / PACKET_BYTES].end <= at
  }

  ghost predicate MarkOk(s: State, m: Mark) {
    && m.pos <= |s.cells|
    && Ahead(s, m) <= |s.wire| + |s.flight| + |s.buffer|
    && (m.anchor.Some? <==> m.target <= s.sent)
    && (m.anchor.None? ==> Ahead(s, m) <= |s.wire| + (m.target - s.sent))
    && (m.anchor.Some? ==> Ahead(s, m) <= |s.wire| && m.anchor.value <= s.time && CarriedBy(s, m, m.anchor.value))
  }

  ghost predicate ResolvedOk(s: State, r: Resolved) {
    MarkOk(s, r.mark) && r.mark.anchor.Some? && r.mark.anchor.value + s.latency <= r.at <= s.time
  }

  ghost predicate Inv(s: State) {
    && (forall i :: 0 <= i < |s.marks| ==> MarkOk(s, s.marks[i]))
    && (forall i :: 0 <= i < |s.resolved| ==> ResolvedOk(s, s.resolved[i]))
  }

  /** Any byte history longer than, or discarded behind the buffer of, the old one. */
  ghost predicate AheadNoWorse(s: State, u: State) {
    && |s.cells| <= |u.cells|
    && forall p :: 0 <= p <= |s.cells| ==>
         |Live(u.cells[..p])| <= |Live(s.cells[..p])|
         && (|Live(s.cells[..p])| <= |s.wire| + |s.flight| + |s.buffer| ==>
             |Live(u.cells[..p])| <= |u.wire| + |u.flight| + |u.buffer|)
  }

  /** A step that writes nothing keeps every mark sound. */
  lemma QuietStepKeepsMark(s: State, u: State, m: Mark)
    requires MarkOk(s, m) && AheadNoWorse(s, u)
    requires u.sent == s.sent && u.wire == s.wire && u.packets == s.packets && u.time >= s.time
    ensures MarkOk(u, m)
  {}

  lemma SameHistory(s: State, u: State)
    requires u.cells == s.cells && |u.wire| + |u.flight| + |u.buffer| >= |s.wire| + |s.flight| + |s.buffer|
    ensures AheadNoWorse(s, u)
  {}

  lemma DiscardNoWorse(s: State, u: State, keep: nat)
    requires u.cells == Discard(s.cells, keep) && keep <= |u.wire| + |u.flight| + |u.buffer|
    ensures AheadNoWorse(s, u)
  {
    forall p | 0 <= p <= |s.cells|
      ensures |u.cells| == |s.cells| && |Live(u.cells[..p])| == Min(keep, |Live(s.cells[..p])|)
    {
      DiscardAhead(s.cells, keep, p);
    }
    DiscardAhead(s.cells, keep, 0);
  }

  lemma EnvNoWorse(s: State, e: EnvAct)
    requires Enabled(s, Env(e))
    ensures AheadNoWorse(s, Next(s, Env(e)))
  {
    var u := Next(s, Env(e));
    match e
    case OnSession(PutOutbound(data)) =>
      forall p | 0 <= p <= |s.cells| ensures u.cells[..p] == s.cells[..p] {}
    case OnSession(Reset) => DiscardNoWorse(s, u, |s.wire| + |s.flight| + |s.buffer|);
    case _ => SameHistory(s, u);
  }

  lemma QuietNoWorse(s: State, a: Act)
    requires A.Inv(s) && Enabled(s, a) && !a.SentOk?
    ensures AheadNoWorse(s, Next(s, a))
  {
    match a
    case BargeBegin => DiscardNoWorse(s, Next(s, a), |s.wire| + |s.flight|);
    case Env(e) => EnvNoWorse(s, e);
    case _ => SameHistory(s, Next(s, a));
  }

  lemma {:induction false} TakenMarks(
      names: seq<S.Key>, pending: map<S.Key, nat>, target: nat, anchor: Option<nat>, pos: nat)
    ensures forall m :: m in Taken(names, pending, target, anchor, pos) ==>
              m == Mark(m.name, target, anchor, pos) && m.name in pending
  {
    if names != [] { TakenMarks(names[1..], pending, target, anchor, pos); }
  }

  /** With nothing in flight a new mark stands exactly behind the drained buffer. */
  lemma NewMarkOk(s: State, m: Mark)
    requires A.Inv(s) && Enabled(s, Take)
    requires var u := Next(s, Take);
      m.target == s.sent + |u.buffer| && m.pos == |s.cells|
      && m.anchor == if m.target == s.sent then Some(s.pc.now) else None
    ensures MarkOk(Next(s, Take), m)
  {
    assert s.cells[..m.pos] == s.cells;
    if m.target == s.sent && m.target > 0 {
      assert (m.target - 1) / PACKET_BYTES == |s.packets| - 1;
    }
  }

  lemma TakeKeepsInv(s: State)
    requires A.Inv(s) && Inv(s) && Enabled(s, Take)
    ensures Inv(Next(s, Take))
  {
    var u := Next(s, Take);
    QuietNoWorse(s, Take);
    var target := s.sent + |u.buffer|;
    var anchor := if target == s.sent then Some(s.pc.now) else None;
    TakenMarks(s.sess.markQueue, s.sess.pending, target, anchor, |s.cells|);
    forall i | 0 <= i < |u.marks| ensures MarkOk(u, u.marks[i]) {
      if i < |s.marks| { QuietStepKeepsMark(s, u, s.marks[i]); } else { NewMarkOk(s, u.marks[i]); }
    }
    forall i | 0 <= i < |u.resolved| ensures ResolvedOk(u, u.resolved[i]) {
      QuietStepKeepsMark(s, u, s.resolved[i].mark);
    }
  }

  /** A landed packet brings every mark it reaches up to date. */
  lemma LandKeepsMark(s: State, t: nat, m: Mark)
    requires A.Inv(s) && Enabled(s, SentOk(t)) && MarkOk(s, m)
    ensures var u := Next(s, SentOk(t));
      MarkOk(u, if m.anchor.None? && m.target <= u.sent then m.(anchor := Some(t)) else m)
  {
    var u := Next(s, SentOk(t));
    assert u.cells[..m.pos] == s.cells[..m.pos];
    if m.anchor.None? && m.target <= u.sent {
      assert s.sent < m.target <= s.sent + PACKET_BYTES;
      assert (m.target - 1) / PACKET_BYTES == |s.packets|;
      assert u.packets[|s.packets|].end == t;
    }
  }

  lemma LandKeepsInv(s: State, t: nat)
    requires A.Inv(s) && Inv(s) && Enabled(s, SentOk(t))
    ensures Inv(Next(s, SentOk(t)))
  {
    var u := Next(s, SentOk(t));
    forall i | 0 <= i < |u.marks| ensures MarkOk(u, u.marks[i]) { LandKeepsMark(s, t, s.marks[i]); }
    forall i | 0 <= i < |u.resolved| ensures ResolvedOk(u, u.resolved[i]) { LandKeepsMark(s, t, s.resolved[i].mark); }
  }

  lemma {:induction false} DueMarksAreDue(marks: seq<Mark>, now: nat, latency: nat)
    ensures var n := DueMarks(marks, now, latency);
      && (forall i :: 0 <= i < n ==> marks[i].anchor.Some? && marks[i].anchor.value + latency <= now)
      && (n < |marks| ==> marks[n].anchor.None? || now < marks[n].anchor.value + latency)
  {
    if !(marks == [] || marks[0].anchor.None? || now < marks[0].anchor.value + latency) {
      DueMarksAreDue(marks[1..], now, latency);
    }
  }

  lemma ResolveKeepsInv(s: State, t: nat)
    requires A.Inv(s) && Inv(s) && Enabled(s, Resolve(t))
    ensures Inv(Next(s, Resolve(t)))
  {
    var u := Next(s, Resolve(t));
    QuietNoWorse(s, Resolve(t));
    forall i | 0 <= i < |s.marks| ensures MarkOk(u, s.marks[i]) { QuietStepKeepsMark(s, u, s.marks[i]); }
    forall i | 0 <= i < |u.resolved| ensures ResolvedOk(u, u.resolved[i]) {
      if i < |s.resolved| {
        QuietStepKeepsMark(s, u, s.resolved[i].mark);
      } else {
        NewlyResolved(s, t, i);
      }
    }
  }

  /** What a resolution adds are due marks, with its reading. */
  lemma NewlyResolved(s: State, t: nat, i: nat)
    requires Enabled(s, Resolve(t)) && |s.resolved| <= i < |Next(s, Resolve(t)).resolved|
    ensures var r := Next(s, Resolve(t)).resolved[i];
      && r.mark in s.marks && r.at == t && r.mark.anchor.Some? && r.mark.anchor.value + s.latency <= t
  {
    DueMarksAreDue(s.marks, t, s.latency);
    assert s.marks[i - |s.resolved|] in s.marks;
  }

  lemma {:induction false} WithoutIsSubset(marks: seq<Mark>, names: set<S.Key>)
    ensures |Without(marks, names)| <= |marks|
    ensures forall m :: m in Without(marks, names) <==> m in marks && m.name !in names
  {
    if marks != [] { WithoutIsSubset(marks[1..], names); }
  }

  /** The acts that neither take, land nor resolve keep or drop marks, nothing else. */
  lemma MarksUntouched(s: State, a: Act)
    requires Enabled(s, a) && !a.SentOk? && !a.Take? && !a.Resolve?
    ensures var u := Next(s, a);
      && u.sent == s.sent && u.wire == s.wire && u.packets == s.packets && u.time >= s.time
      && u.resolved == s.resolved && u.latency == s.latency
      && forall m :: m in u.marks ==> m in s.marks
  {
    if a.BargeDone? { WithoutIsSubset(s.marks, s.pc.names); }
  }

  lemma FewerMarksKeepInv(s: State, u: State)
    requires Inv(s) && AheadNoWorse(s, u)
    requires u.sent == s.sent && u.wire == s.wire && u.packets == s.packets && u.time >= s.time
    requires u.resolved == s.resolved && u.latency == s.latency && forall m :: m in u.marks ==> m in s.marks
    ensures Inv(u)
  {
    forall i | 0 <= i < |u.marks| ensures MarkOk(u, u.marks[i]) {
      assert u.marks[i] in s.marks;
      QuietStepKeepsMark(s, u, u.marks[i]);
    }
    forall i | 0 <= i < |u.resolved| ensures ResolvedOk(u, u.resolved[i]) {
      QuietStepKeepsMark(s, u, s.resolved[i].mark);
    }
  }

  lemma QuietKeepsInv(s: State, a: Act)
    requires A.Inv(s) && Inv(s) && Enabled(s, a) && !a.SentOk? && !a.Take? && !a.Resolve?
    ensures Inv(Next(s, a))
  {
    QuietNoWorse(s, a);
    MarksUntouched(s, a);
    FewerMarksKeepInv(s, Next(s, a));
  }

  lemma InvKept(s: State, a: Act)
    requires A.Inv(s) && Inv(s) && Enabled(s, a)
    ensures Inv(Next(s, a))
  {
    match a
    case Take => TakeKeepsInv(s);
    case SentOk(t) => LandKeepsInv(s, t);
    case Resolve(t) => ResolveKeepsInv(s, t);
    case _ => QuietKeepsInv(s, a);
  }

  /** What a resolved mark proves: the bytes queued ahead of it and never discarded are
      the first bytes of the wire, the packet with its target byte was accepted, and the
      latency has passed since then. */
  lemma ResolvedMarkIsSound(s: State, i: nat)
    requires A.Inv(s) && Inv(s) && i < |s.resolved|
    ensures var r := s.resolved[i];
      && r.mark.pos <= |s.cells|
      && Live(s.cells[..r.mark.pos]) <= s.wire
      && r.mark.target <= s.sent
      && r.mark.anchor.Some? && r.at >= r.mark.anchor.value + s.latency
      && (r.mark.target > 0 ==>
          (r.mark.target - 1) / PACKET_BYTES < |s.packets|
          && r.at >= s.packets[(r.mark.target - 1) / PACKET_BYTES].end + s.latency)
  {
    var r := s.resolved[i];
    assert ResolvedOk(s, r);
    LiveOfPrefix(s.cells, r.mark.pos);
    var whole := s.wire + s.flight + s.buffer + Concat(s.sess.outbound);
    assert whole[..|s.wire|] == s.wire;
    assert Live(s.cells[..r.mark.pos]) == whole[..|Live(s.cells[..r.mark.pos])|];
    assert s.wire[..|Live(s.cells[..r.mark.pos])|] == whole[..|Live(s.cells[..r.mark.pos])|];
  }
}
