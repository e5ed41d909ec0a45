/** The call session shared by threads and transports: `VoiceSession` in session.py.

    `Sess` is the value of the session's fields. A waiter is one running call of
    `send_mark_and_wait`; its index in `waiters` stands for its threading event, so
    `pending` maps a key to the event stored under it. Clear queues are objects in
    the source (a transport keeps the one it saw); here they are indices into
    `clearQueues`, which holds how many requests each of them has. */
module Session {
  import opened Base

  type Key = string

  datatype Outcome = Waiting | Returned | TimedOut

  datatype Waiter = Waiter(key: Key, released: bool, outcome: Outcome)

  /** What the consumer installed: a disconnect callback, a factory for recognisers and one
      for a second recogniser behind each, and a callback for recognisers about to start. */
  datatype Config = Config(callback: bool, factory: bool, secondary: bool, ready: bool)

  /** What lies around a call: whether the connected event is set, how often the disconnect
      callback ran, the current recogniser, how many were made, which of them have a second
      one behind them, and which were announced, started, asked to stop, or only had their
      feeder cancelled. */
  datatype Surroundings = Surroundings(
    wsConnected: bool,
    config: Config,
    callbacks: nat,
    stt: Option<nat>,
    made: nat,
    tees: seq<nat>,
    announced: seq<nat>,
    started: seq<nat>,
    stopped: seq<nat>,
    halted: seq<nat>)

  datatype Sess = Sess(
    hasLoop: bool,
    streamSid: Option<string>,
    pending: map<Key, nat>,
    waiters: seq<Waiter>,
    markQueue: seq<Key>,
    outbound: seq<seq<byte>>,
    inbound: seq<Option<seq<byte>>>,
    clearQueue: Option<nat>,
    clearQueues: seq<nat>,
    disconnectRequested: Option<bool>,
    disconnected: bool,
    generation: nat,
    around: Surroundings)

  const ALONE := Surroundings(false, Config(false, false, false, false), 0, None, 0, [], [], [], [], [])

  const FRESH := Sess(false, None, map[], [], [], [], [], None, [], None, false, 0, ALONE)

  /** What a thread or a transport does to the session in one atomic stretch. */
  datatype Act =
    | SetLoop
    | Connected(sid: string)
    | PutOutbound(data: seq<byte>)
    | PutInbound(frame: Option<seq<byte>>)
    | Register(key: Key)
    | Echo(key: Key)
    | Wake(waiter: nat)
    | Expire(waiter: nat)
    | Disconnect
    | Reset
    | RequestClear
    | RequestDisconnect(generationSeen: Option<nat>)
    | Install(config: Config)
    | StartStt
    | StopStt

  /** The events of `ids` set, all others as they were. */
  function Release(ws: seq<Waiter>, ids: set<nat>): (r: seq<Waiter>)
    ensures |r| == |ws|
    ensures forall i :: 0 <= i < |ws| ==> r[i] == if i in ids then ws[i].(released := true) else ws[i]
  {
    seq(|ws|, i requires 0 <= i < |ws| => if i in ids then ws[i].(released := true) else ws[i])
  }

  /** The events stored under the given keys. */
  function EventsOf(s: Sess, keys: set<Key>): set<nat> {
    set k | k in keys && k in s.pending :: s.pending[k]
  }

  /** `signal_mark_received` for every key of a set. */
  function SignalAll(s: Sess, keys: set<Key>): Sess {
    s.(waiters := Release(s.waiters, EventsOf(s, keys)))
  }

  lemma SignalNone(s: Sess)
    ensures SignalAll(s, {}) == s
  {
    assert EventsOf(s, {}) == {};
    assert Release(s.waiters, {}) == s.waiters;
  }

  /** Signalling keys one by one signals them all. */
  lemma SignalOneMore(s: Sess, keys: set<Key>, key: Key)
    ensures SignalAll(SignalAll(s, keys), {key}) == SignalAll(s, keys + {key})
  {
    var t := SignalAll(s, keys);
    assert EventsOf(t, {key}) == EventsOf(s, {key});
    assert EventsOf(s, keys + {key}) == EventsOf(s, keys) + EventsOf(s, {key});
    assert SignalAll(t, {key}).waiters == SignalAll(s, keys + {key}).waiters;
  }

  /** Creates the intent fields that are still missing. */
  function WithIntentFields(s: Sess): Sess {
    var s1 := if s.disconnectRequested.None? then s.(disconnectRequested := Some(false)) else s;
    if s1.clearQueue.None?
    then s1.(clearQueue := Some(|s1.clearQueues|), clearQueues := s1.clearQueues + [0])
    else s1
  }

  function Pop(s: Sess, waiter: nat, outcome: Outcome): Sess
    requires waiter < |s.waiters|
  {
    s.(pending := s.pending - {s.waiters[waiter].key},
       waiters := s.waiters[waiter := s.waiters[waiter].(outcome := outcome)])
  }

  /** `start_session_stt`: the factory makes a recogniser if there is none. */
  function SttStarted(c: Surroundings): Surroundings {
    var d := if c.config.factory && c.stt.None? then Made(c) else c;
    if d.stt.None? then d
    else d.(announced := if d.config.ready then d.announced + [d.stt.value] else d.announced,
            started := d.started + [d.stt.value])
  }

  function Made(c: Surroundings): Surroundings {
    c.(stt := Some(c.made), made := c.made + 1, tees := if c.config.secondary then c.tees + [c.made] else c.tees)
  }

  function SttStopped(c: Surroundings): Surroundings {
    if c.stt.Some? then c.(stopped := c.stopped + [c.stt.value]) else c
  }

  /** The end of a call; without a loop a recogniser only has its feeder cancelled. */
  function Cleared(c: Surroundings, hasLoop: bool): Surroundings {
    var d := if hasLoop then SttStopped(c)
             else if c.stt.Some? then c.(halted := c.halted + [c.stt.value])
             else c;
    d.(wsConnected := false, stt := None)
  }

  /** An act can be taken: keys are regenerated until unused, a waiter wakes only when
      its event is set and expires only when it is not, and recognition is started by a
      task of the event loop. */
  predicate Enabled(s: Sess, a: Act) {
    match a
    case Register(key) => s.hasLoop ==> key !in s.pending
    case Wake(w) => w < |s.waiters| && s.waiters[w].outcome.Waiting? && s.waiters[w].released
    case Expire(w) => w < |s.waiters| && s.waiters[w].outcome.Waiting? && !s.waiters[w].released
    case StartStt => s.hasLoop
    case _ => true
  }

  /** The first disconnect of a call. */
  function Disconnected(s: Sess): Sess {
    s.(disconnected := true,
       inbound := if s.hasLoop then s.inbound + [None] else s.inbound,
       waiters := Release(s.waiters, s.pending.Values),
       around := if s.around.config.callback then s.around.(callbacks := s.around.callbacks + 1) else s.around)
  }

  function Next(s: Sess, a: Act): Sess
    requires Enabled(s, a)
  {
    match a
    case SetLoop => WithIntentFields(s.(hasLoop := true))
    case Connected(sid) => 
      WithIntentFields(s.(streamSid := Some(sid), hasLoop := true, around := s.around.(wsConnected := true)))
    case PutOutbound(data) => if s.hasLoop then s.(outbound := s.outbound + [data]) else s
    case PutInbound(frame) => if s.hasLoop then s.(inbound := s.inbound + [frame]) else s
    case Register(key) =>
      if !s.hasLoop then s else
      s.(pending := s.pending[key := |s.waiters|],
         waiters := s.waiters + [Waiter(key, false, Waiting)],
         markQueue := s.markQueue + [key])
    case Echo(key) => SignalAll(s, {key})
    case Wake(w) => Pop(s, w, Returned)
    case Expire(w) => Pop(s, w, if s.disconnected then Returned else TimedOut)
    case Disconnect => if s.disconnected then s else Disconnected(s)
    case Reset =>
      s.(generation := s.generation + 1,
         waiters := Release(s.waiters, s.pending.Values),
         pending := map[],
         disconnected := false,
         streamSid := None,
         disconnectRequested := None,
         clearQueue := None,
         inbound := [],
         outbound := [],
         around := Cleared(s.around, s.hasLoop))
    case RequestClear =>
      if s.hasLoop && s.clearQueue.Some? && s.streamSid.Some? && s.clearQueue.value < |s.clearQueues|
      then s.(clearQueues := s.clearQueues[s.clearQueue.value := s.clearQueues[s.clearQueue.value] + 1])
      else s
    case RequestDisconnect(seen) =>
      if s.hasLoop && s.disconnectRequested.Some? && (seen.Some? ==> seen.value == s.generation)
      then s.(disconnectRequested := Some(true))
      else s
    case Install(config) => s.(around := s.around.(config := config))
    case StartStt => s.(around := SttStarted(s.around))
    case StopStt => s.(around := SttStopped(s.around))
  }

  // ---- the handshake

  predicate Live(s: Sess, w: int) { 0 <= w < |s.waiters| && s.waiters[w].outcome.Waiting? }

  predicate Owns(s: Sess, w: int)
    requires 0 <= w < |s.waiters|
  {
    s.waiters[w].key in s.pending && s.pending[s.waiters[w].key] == w
  }

  /** Every stored event belongs to a waiter of that key. */
  ghost predicate Stored(s: Sess) {
    forall k :: k in s.pending ==> s.pending[k] < |s.waiters| && s.waiters[s.pending[k]].key == k
  }

  /** Live waiters hold distinct keys, and one whose event is not set still owns its
      entry, so that an echo, a barge-in, a disconnect or a reset can reach it. */
  ghost predicate Handshake(s: Sess) {
    && Stored(s)
    && (forall w :: Live(s, w) && !s.waiters[w].released ==> Owns(s, w))
    && (forall v, w :: Live(s, v) && Live(s, w) && v != w ==> s.waiters[v].key != s.waiters[w].key)
  }

  /** Keys of waiters that a reset released and unregistered but that have not run yet. */
  ghost function OrphanKeys(s: Sess): set<Key> {
    set w | 0 <= w < |s.waiters| && Live(s, w) && !Owns(s, w) :: s.waiters[w].key
  }

  /** The key a registration picks is not one of a waiter that still has to run. */
  ghost predicate Picks(s: Sess, a: Act) { a.Register? && s.hasLoop ==> a.key !in OrphanKeys(s) }

  lemma FreshHandshake()
    ensures Handshake(FRESH)
  {}

  lemma ReleaseKeepsHandshake(s: Sess, ids: set<nat>)
    requires Handshake(s)
    ensures Handshake(s.(waiters := Release(s.waiters, ids)))
  {
    var t := s.(waiters := Release(s.waiters, ids));
    assert forall w :: Live(t, w) ==> Live(s, w) && t.waiters[w].key == s.waiters[w].key;
  }

  lemma PopKeepsHandshake(s: Sess, w: nat, o: Outcome)
    requires Handshake(s) && Live(s, w) && !o.Waiting?
    ensures Handshake(Pop(s, w, o))
  {
    var t := Pop(s, w, o);
    forall v | Live(t, v)
      ensures v != w && Live(s, v) && t.waiters[v] == s.waiters[v] && t.waiters[v].key != s.waiters[w].key
    {
    }
  }

  lemma RegisterKeepsHandshake(s: Sess, key: Key)
    requires Handshake(s) && s.hasLoop && key !in s.pending && key !in OrphanKeys(s)
    ensures Handshake(Next(s, Register(key)))
  {
    var t := Next(s, Register(key));
    forall v | Live(s, v) ensures s.waiters[v].key != key && t.waiters[v] == s.waiters[v] {
      assert Owns(s, v) || s.waiters[v].key in OrphanKeys(s);
    }
    assert forall v :: Live(t, v) ==> v == |s.waiters| || Live(s, v);
  }

  lemma ResetKeepsHandshake(s: Sess)
    requires Handshake(s)
    ensures Handshake(Next(s, Reset))
    ensures forall w :: Live(s, w) ==> Next(s, Reset).waiters[w].released
  {
    var t := Next(s, Reset);
    forall w | Live(s, w) ensures t.waiters[w].released {
      if !s.waiters[w].released { assert Owns(s, w); assert s.waiters[w].key in s.pending.Keys; }
    }
    assert forall w :: Live(t, w) ==> Live(s, w) && t.waiters[w].key == s.waiters[w].key;
  }

  lemma SameWaitersKeepHandshake(s: Sess, t: Sess)
    requires Handshake(s) && t.waiters == s.waiters && t.pending == s.pending
    ensures Handshake(t)
  {
    assert forall w :: Live(t, w) <==> Live(s, w);
  }

  /** The uniqueness check of the source looks at the registered keys only. It yields
      distinct live keys exactly when it also misses every orphaned key. */
  lemma RegisterKeepsDistinctKeysIff(s: Sess, key: Key)
    requires Handshake(s) && s.hasLoop && key !in s.pending
    ensures Handshake(Next(s, Register(key))) <==> key !in OrphanKeys(s)
  {
    if key in OrphanKeys(s) {
      var t := Next(s, Register(key));
      var w :| 0 <= w < |s.waiters| && Live(s, w) && !Owns(s, w) && s.waiters[w].key == key;
      assert Live(t, w) && Live(t, |s.waiters|) && t.waiters[w].key == t.waiters[|s.waiters|].key;
    } else {
      RegisterKeepsHandshake(s, key);
    }
  }

  /** Every act keeps the handshake, a registration exactly if it avoids orphaned keys. */
  lemma HandshakeKept(s: Sess, a: Act)
    requires Handshake(s) && Enabled(s, a)
    ensures Handshake(Next(s, a)) <==> Picks(s, a)
  {
    match a
    case Register(key) => if s.hasLoop { RegisterKeepsDistinctKeysIff(s, key); }
    case Echo(key) => ReleaseKeepsHandshake(s, EventsOf(s, {key}));
    case Wake(w) => PopKeepsHandshake(s, w, Returned);
    case Expire(w) => PopKeepsHandshake(s, w, if s.disconnected then Returned else TimedOut);
    case Disconnect =>
      ReleaseKeepsHandshake(s, s.pending.Values);
      if !s.disconnected {
        SameWaitersKeepHandshake(s.(waiters := Release(s.waiters, s.pending.Values)), Next(s, a));
      }
    case Reset => ResetKeepsHandshake(s);
    case _ => SameWaitersKeepHandshake(s, Next(s, a));
  }

  /** One echo sets at most the event stored under its key. */
  lemma EchoSetsOneEvent(s: Sess, key: Key, w: nat)
    requires w < |s.waiters| && Next(s, Echo(key)).waiters[w] != s.waiters[w]
    ensures key in s.pending && s.pending[key] == w && Next(s, Echo(key)).waiters[w].released
    ensures forall v :: 0 <= v < |s.waiters| && v != w ==> Next(s, Echo(key)).waiters[v] == s.waiters[v]
  {
    assert w in EventsOf(s, {key});
    assert forall v :: v in EventsOf(s, {key}) ==> v == w;
  }

  /** The first disconnect and every reset release every live waiter. */
  lemma EndOfCallReleasesEveryone(s: Sess, a: Act, w: nat)
    requires Handshake(s) && Live(s, w)
    requires (a == Disconnect && !s.disconnected) || a == Reset
    ensures Next(s, a).waiters[w].released
  {
    if !s.waiters[w].released { assert Owns(s, w); assert s.pending[s.waiters[w].key] in s.pending.Values; }
  }

  /** Waiters are never forgotten: keys stay, events stay set, ended waits stay ended. */
  lemma WaiterStays(s: Sess, a: Act, w: nat)
    requires Enabled(s, a) && w < |s.waiters|
    ensures w < |Next(s, a).waiters|
    ensures Next(s, a).waiters[w].key == s.waiters[w].key
    ensures s.waiters[w].released ==> Next(s, a).waiters[w].released
    ensures !s.waiters[w].outcome.Waiting? ==> Next(s, a).waiters[w].outcome == s.waiters[w].outcome
  {
    match a
    case Wake(v) =>
    case Expire(v) =>
    case Register(key) =>
    case _ => assert |Next(s, a).waiters| == |s.waiters|;
  }

  lemma StoredKept(s: Sess, a: Act)
    requires Stored(s) && Enabled(s, a)
    ensures Stored(Next(s, a))
  {}

  /** Without a wake or an expiry nobody stops waiting. */
  lemma NoOneLeft(s: Sess, a: Act)
    requires Enabled(s, a) && !a.Wake? && !a.Expire?
    ensures var t := Next(s, a);
      && |s.waiters| <= |t.waiters|
      && (forall w :: 0 <= w < |s.waiters| ==>
            t.waiters[w].key == s.waiters[w].key && t.waiters[w].outcome == s.waiters[w].outcome)
      && (!a.Register? ==> |t.waiters| == |s.waiters|)
      && (!a.Register? && (a == Reset ==> s.pending == map[]) ==> t.pending == s.pending)
      && (s.hasLoop ==> t.hasLoop)
  {}

  // ---- runs

  /** Act a leads from s to t. */
  ghost predicate Steps(s: Sess, a: Act, t: Sess) { Enabled(s, a) && t == Next(s, a) }

  ghost predicate IsRun(states: seq<Sess>, acts: seq<Act>) {
    && |states| == |acts| + 1
    && states[0] == FRESH
    && forall i {:trigger acts[i]} :: 0 <= i < |acts| ==> Steps(states[i], acts[i], states[i + 1])
  }

  /** This act sets the event of waiter `w`: its own key echoed, the first disconnect, a reset. */
  ghost predicate Frees(s: Sess, a: Act, w: nat) {
    && w < |s.waiters|
    && s.waiters[w].key in s.pending
    && s.pending[s.waiters[w].key] == w
    && (a == Echo(s.waiters[w].key) || (a == Disconnect && !s.disconnected) || a == Reset)
  }

  /** Act j sets the event of w. */
  ghost predicate FreedAt(states: seq<Sess>, acts: seq<Act>, j: nat, w: nat)
    requires j < |acts| < |states|
  {
    Frees(states[j], acts[j], w)
  }

  ghost predicate FreedBefore(states: seq<Sess>, acts: seq<Act>, i: nat, w: nat)
    requires i <= |acts| < |states|
  {
    exists j :: 0 <= j < i && FreedAt(states, acts, j, w)
  }

  lemma {:induction false} RunStored(states: seq<Sess>, acts: seq<Act>, i: nat)
    requires IsRun(states, acts) && i <= |acts|
    ensures Stored(states[i])
  {
    if i > 0 {
      RunStored(states, acts, i - 1);
      StoredKept(states[i - 1], acts[i - 1]);
    }
  }

  lemma EventSetOnlyByFreeing(s: Sess, a: Act, w: nat)
    requires Stored(s) && Enabled(s, a) && w < |Next(s, a).waiters| && Next(s, a).waiters[w].released
    ensures w < |s.waiters|
    ensures s.waiters[w].released || Frees(s, a, w)
  {
    if w < |s.waiters| && !s.waiters[w].released {
      match a
      case Echo(key) => assert w in EventsOf(s, {key});
      case Disconnect => assert w in s.pending.Values;
      case Reset => assert w in s.pending.Values;
      case _ =>
    }
  }

  lemma SetInStep(states: seq<Sess>, acts: seq<Act>, i: nat, w: nat)
    requires IsRun(states, acts) && i < |acts|
    requires w < |states[i + 1].waiters| && states[i + 1].waiters[w].released
    ensures w < |states[i].waiters| && (states[i].waiters[w].released || Frees(states[i], acts[i], w))
  {
    RunStored(states, acts, i);
    EventSetOnlyByFreeing(states[i], acts[i], w);
  }

  lemma {:induction false} SetEventHasCause(states: seq<Sess>, acts: seq<Act>, i: nat, w: nat) returns (j: nat)
    requires IsRun(states, acts) && i <= |acts|
    requires w < |states[i].waiters| && states[i].waiters[w].released
    ensures j < i && Frees(states[j], acts[j], w)
  {
    if i == 0 { assert false; }
    SetInStep(states, acts, i - 1, w);
    if Frees(states[i - 1], acts[i - 1], w) {
      j := i - 1;
    } else {
      j := SetEventHasCause(states, acts, i - 1, w);
    }
  }

  /** A wait that ends normally was released, or timed out while disconnected. */
  lemma ReturnIsWakeOrExpiry(s: Sess, a: Act, w: nat)
    requires Enabled(s, a) && Live(s, w)
    requires w < |Next(s, a).waiters| && Next(s, a).waiters[w].outcome.Returned?
    ensures s.waiters[w].released || (a == Expire(w) && s.disconnected)
  {
    match a
    case Wake(v) =>
    case Expire(v) =>
    case Register(key) =>
    case _ => NoOneLeft(s, a);
  }

  lemma ReturnInStep(s: Sess, a: Act, t: Sess, w: nat)
    requires Steps(s, a, t) && Live(s, w) && w < |t.waiters| && t.waiters[w].outcome.Returned?
    ensures s.waiters[w].released || (a == Expire(w) && s.disconnected)
  {
    ReturnIsWakeOrExpiry(s, a, w);
  }

  /** A wait ends normally only because its own key was echoed while it was registered,
      the call disconnected or was reset, or it timed out while disconnected. */
  lemma NormalReturnHasCause(states: seq<Sess>, acts: seq<Act>, i: nat, w: nat)
    requires IsRun(states, acts) && i < |acts| && Live(states[i], w)
    requires w < |states[i + 1].waiters| && states[i + 1].waiters[w].outcome.Returned?
    ensures (acts[i] == Expire(w) && states[i].disconnected) || FreedBefore(states, acts, i, w)
  {
    ReturnInStep(states[i], acts[i], states[i + 1], w);
    if states[i].waiters[w].released {
      var j := SetEventHasCause(states, acts, i, w);
      assert FreedAt(states, acts, j, w);
    }
  }

  /** Over runs: the handshake held all along exactly if every registration so far avoided
      the keys orphaned at that moment. */
  lemma {:induction false} RunHandshake(states: seq<Sess>, acts: seq<Act>, i: nat)
    requires IsRun(states, acts) && i <= |acts|
    ensures (forall j :: 0 <= j <= i ==> Handshake(states[j]))
       <==> (forall k :: 0 <= k < i ==> Picks(states[k], acts[k]))
  {
    if i == 0 {
      FreshHandshake();
    } else {
      RunHandshake(states, acts, i - 1);
      assert states[i] == Next(states[i - 1], acts[i - 1]);
      if forall j :: 0 <= j <= i - 1 ==> Handshake(states[j]) {
        HandshakeKept(states[i - 1], acts[i - 1]);
      }
    }
  }

  // ---- one waiter

  /** While waiter w waits and its event is not set, it owns its entry and no other live
      waiter has its key. */
  ghost predicate Secure(s: Sess, w: nat) {
    && Stored(s)
    && (Live(s, w) && !s.waiters[w].released ==>
          Owns(s, w) && forall v :: Live(s, v) && v != w ==> s.waiters[v].key != s.waiters[w].key)
  }

  lemma PopKeepsSecure(s: Sess, w: nat, v: nat, o: Outcome)
    requires Secure(s, w) && w < |s.waiters| && Live(s, v) && !o.Waiting?
    ensures Secure(Pop(s, v, o), w)
  {
    var t := Pop(s, v, o);
    if v != w && Live(t, w) && !t.waiters[w].released {
      assert Live(s, w) && Owns(s, w);
      assert forall u :: Live(t, u) ==> Live(s, u) && t.waiters[u].key == s.waiters[u].key;
    }
  }

  /** That stays so whatever any thread does: a reset or a disconnect that takes the entry
      away sets the event. */
  lemma SecureKept(s: Sess, a: Act, w: nat)
    requires Secure(s, w) && w < |s.waiters| && Enabled(s, a)
    ensures Secure(Next(s, a), w)
  {
    var t := Next(s, a);
    StoredKept(s, a);
    WaiterStays(s, a, w);
    if a.Wake? || a.Expire? {
      PopKeepsSecure(s, w, a.waiter, t.waiters[a.waiter].outcome);
    } else {
      NoOneLeft(s, a);
      if a.Reset? && Live(s, w) && !s.waiters[w].released { assert s.pending[s.waiters[w].key] in s.pending.Values; }
    }
  }

  // ---- which resets are safe

  /** Besides the handshake: nobody is orphaned and every stored event is waited for. */
  ghost predicate Tight(s: Sess) {
    && Handshake(s)
    && (forall w :: Live(s, w) ==> Owns(s, w))
    && (forall k :: k in s.pending ==> Live(s, s.pending[k]))
    && (s.pending != map[] ==> s.hasLoop)
  }

  lemma TightHasNoOrphans(s: Sess)
    requires Tight(s)
    ensures OrphanKeys(s) == {}
  {}

  lemma TightIsSecure(s: Sess, w: nat)
    requires Tight(s)
    ensures Secure(s, w)
  {}

  lemma PopKeepsTight(s: Sess, w: nat, o: Outcome)
    requires Tight(s) && Live(s, w) && !o.Waiting?
    ensures Tight(Pop(s, w, o))
  {
    var t := Pop(s, w, o);
    PopKeepsHandshake(s, w, o);
    forall v | Live(t, v) ensures Owns(t, v) {
      assert Live(s, v) && v != w && t.waiters[v].key == s.waiters[v].key;
    }
    assert forall k :: k in t.pending ==> k in s.pending && s.pending[k] != w;
    if t.pending != map[] {
      var k :| k in t.pending;
      assert k in s.pending;
    }
  }

  /** Every act keeps this, a reset if no mark is registered when it comes. */
  lemma TightKept(s: Sess, a: Act)
    requires Tight(s) && Enabled(s, a) && (a == Reset ==> s.pending == map[])
    ensures Tight(Next(s, a))
  {
    var t := Next(s, a);
    TightHasNoOrphans(s);
    HandshakeKept(s, a);
    if a.Wake? || a.Expire? {
      PopKeepsTight(s, a.waiter, t.waiters[a.waiter].outcome);
    } else {
      NoOneLeft(s, a);
      if !a.Register? {
        SamePendingKeepsTight(s, t);
      } else if s.hasLoop {
        assert forall k :: k in s.pending ==> Live(t, s.pending[k]);
        forall w | Live(t, w) ensures Owns(t, w) {
          if w < |s.waiters| { assert Live(s, w) && Owns(s, w) && s.waiters[w].key != a.key; }
        }
      }
    }
  }

  lemma SamePendingKeepsTight(s: Sess, t: Sess)
    requires Tight(s) && Handshake(t) && t.pending == s.pending && |t.waiters| == |s.waiters|
    requires forall w :: 0 <= w < |s.waiters| ==>
               t.waiters[w].key == s.waiters[w].key && t.waiters[w].outcome == s.waiters[w].outcome
    requires s.hasLoop ==> t.hasLoop
    ensures Tight(t)
  {
    forall w | Live(t, w) ensures Owns(t, w) { assert Live(s, w); }
  }

  /** A reset is safe exactly if no mark is registered when it comes: only then whatever
      key the next registration draws keeps the handshake. */
  lemma ResetSafeIff(s: Sess)
    requires Tight(s)
    ensures (forall key :: key !in Next(s, Reset).pending ==> Handshake(Next(Next(s, Reset), Register(key))))
       <==> s.pending == map[]
  {
    var t := Next(s, Reset);
    ResetKeepsHandshake(s);
    if s.pending == map[] {
      TightKept(s, Reset);
      TightHasNoOrphans(t);
      forall key | key !in t.pending ensures Handshake(Next(t, Register(key))) {
        if s.hasLoop {
          RegisterKeepsDistinctKeysIff(t, key);
        } else {
          SameWaitersKeepHandshake(t, Next(t, Register(key)));
        }
      }
    } else {
      var key :| key in s.pending;
      var w := s.pending[key];
      assert Live(s, w) && Live(t, w) && !Owns(t, w) && t.waiters[w].key == key;
      assert key in OrphanKeys(t);
      RegisterKeepsDistinctKeysIff(t, key);
    }
  }

  /** So the uniqueness check suffices in every run whose resets find no registered mark. */
  lemma {:induction false} HandshakeWithQuietResets(states: seq<Sess>, acts: seq<Act>, i: nat)
    requires IsRun(states, acts) && i <= |acts|
    requires forall k :: 0 <= k < i && acts[k] == Reset ==> states[k].pending == map[]
    ensures Tight(states[i])
  {
    if i > 0 {
      HandshakeWithQuietResets(states, acts, i - 1);
      TightKept(states[i - 1], acts[i - 1]);
    }
  }

  /** In particular between resets. */
  lemma HandshakeBetweenResets(states: seq<Sess>, acts: seq<Act>, i: nat)
    requires IsRun(states, acts) && i <= |acts|
    requires forall k :: 0 <= k < i ==> acts[k] != Reset
    ensures Handshake(states[i]) && forall w :: Live(states[i], w) ==> Owns(states[i], w)
  {
    HandshakeWithQuietResets(states, acts, i);
  }

  lemma RunOn(states: seq<Sess>, acts: seq<Act>, a: Act) returns (states': seq<Sess>, acts': seq<Act>)
    requires IsRun(states, acts) && Enabled(states[|acts|], a)
    ensures IsRun(states', acts') && acts' == acts + [a] && states' == states + [Next(states[|acts|], a)]
  {
    states', acts' := states + [Next(states[|acts|], a)], acts + [a];
    forall i {:trigger acts'[i]} | 0 <= i < |acts'| ensures Steps(states'[i], acts'[i], states'[i + 1]) {
      if i < |acts| { assert Steps(states[i], acts[i], states[i + 1]); }
    }
  }

  /** One waiter registered, released by a reset and not yet run. */
  lemma ReleasedByReset(k: Key) returns (states: seq<Sess>, acts: seq<Act>)
    ensures IsRun(states, acts) && acts == [SetLoop, Register(k), Reset]
    ensures var s := states[3];
      s.hasLoop && s.pending == map[] && s.waiters == [Waiter(k, true, Waiting)] && !s.disconnected
  {
    states, acts := [FRESH], [];
    states, acts := RunOn(states, acts, SetLoop);
    states, acts := RunOn(states, acts, Register(k));
    var s := states[2];
    assert s.pending[k] in s.pending.Values;
    states, acts := RunOn(states, acts, Reset);
  }

  /** After a reset it does not: a released waiter that has not run yet removes the entry
      of a new waiter that drew its key, and the next disconnect misses the new one. */
  lemma KeyReuseAfterReset(k: Key) returns (states: seq<Sess>, acts: seq<Act>)
    ensures IsRun(states, acts) && acts == [SetLoop, Register(k), Reset, Register(k), Wake(0), Disconnect]
    ensures Live(states[6], 1) && !states[6].waiters[1].released && k !in states[6].pending
  {
    states, acts := ReleasedByReset(k);
    states, acts := RunOn(states, acts, Register(k));
    states, acts := RunOn(states, acts, Wake(0));
    assert states[5].pending == map[];
    assert states[5].pending.Values == {};
    states, acts := RunOn(states, acts, Disconnect);
  }
}
