/** Which queue the feeder of the ElevenLabs session reads (elevenlabs_stt.py): a start brings
    a queue, but a feeder that is still live keeps the one it was given. */
module SttQueue {
  import opened Base
  import opened SttSession

  /** A live feeder reads the queue of the latest start. */
  ghost predicate UpToDate(s: Stt) {
    HasFeeder(s) ==> s.feedTask.value < |s.feeds| && Some(s.feeds[s.feedTask.value]) == s.inbound
  }

  /** A start that brings another queue while a feeder is live. */
  ghost predicate Outdates(s: Stt, a: Act) { a.Start? && HasFeeder(s) && s.inbound != Some(a.queue) }

  /** A connect that completes while not stopping leaves a feeder on the latest queue if and
      only if the feeder it found was done, or read that queue already. */
  lemma ConnectUpToDateIff(s: Stt, id: nat)
    requires Inv(s) && Enabled(s, Opened(id)) && !s.stopping
    ensures HasFeeder(Next(s, Opened(id)))
    ensures UpToDate(Next(s, Opened(id))) <==> UpToDate(s)
  {}

  /** No feeder was made and no queue named, and none came to life. */
  ghost predicate SameFeeder(s: Stt, u: Stt) {
    && u.inbound == s.inbound && u.feedTask == s.feedTask && u.feeds == s.feeds && |u.feeders| == |s.feeders|
    && (HasFeeder(u) ==> HasFeeder(s))
  }

  lemma FeederOnlyEnds(s: Stt, a: Act)
    requires Enabled(s, a) && (a.FeederEnds? || a.CallStop?)
    ensures SameFeeder(s, Next(s, a))
  {}

  lemma FeederUntouched(s: Stt, a: Act)
    requires Enabled(s, a) && !a.Start? && !a.Opened?
    ensures SameFeeder(s, Next(s, a))
  {
    if a.FeederEnds? || a.CallStop? {
      FeederOnlyEnds(s, a);
    } else {
      assert Next(s, a).feeders == s.feeders;
    }
  }

  lemma UpToDateStep(s: Stt, a: Act)
    requires Inv(s) && Enabled(s, a) && UpToDate(s)
    ensures UpToDate(Next(s, a)) <==> !Outdates(s, a)
  {
    if !a.Start? && !a.Opened? { FeederUntouched(s, a); }
  }

  /** Over every run: a live feeder read the latest queue all along if and only if no start
      so far brought another queue while a feeder was live. */
  lemma {:induction false} UpToDateIff(states: seq<Stt>, acts: seq<Act>, i: nat)
    requires IsRun(states, acts) && i <= |acts|
    ensures (forall n :: 0 <= n <= i ==> UpToDate(states[n]))
       <==> (forall n {:trigger acts[n]} :: 0 <= n < i ==> !Outdates(states[n], acts[n]))
  {
    if i > 0 {
      UpToDateIff(states, acts, i - 1);
      assert Steps(states[i - 1], acts[i - 1], states[i]);
      RunInv(states, acts, i - 1);
      if UpToDate(states[i - 1]) { UpToDateStep(states[i - 1], acts[i - 1]); }
    }
  }

  /** A second start with another queue completes, and the session's only feeder still reads
      the first one. */
  lemma FeederOnOldQueue() returns (states: seq<Stt>, acts: seq<Act>)
    ensures IsRun(states, acts) && acts == [Start(0), Opened(0), Start(1), Closed(1), Opened(1)]
    ensures var s := states[|acts|];
      && s.inbound == Some(1) && s.feeders == [Running] && s.feeds == [0] && s.feedTask == Some(0) && !s.stopping
  {
    var s1 := Next(CREATED, Start(0));
    var s2 := Next(s1, Opened(0));
    states, acts := [CREATED, s1, s2], [Start(0), Opened(0)];
    states, acts := Step(states, acts, Start(1));
    states, acts := Step(states, acts, Closed(1));
    states, acts := Step(states, acts, Opened(1));
  }
}
