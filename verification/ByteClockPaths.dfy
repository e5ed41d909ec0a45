/** Paths of the send loop's machine, and stretches of them put one behind the other. */
module ByteClockPaths {
  import opened ByteClock

  /** Act a leads from s to t. */
  ghost predicate Steps(s: State, a: Act, t: State) { Enabled(s, a) && t == Next(s, a) }

  ghost predicate IsPath(states: seq<State>, acts: seq<Act>) {
    && |states| == |acts| + 1
    && forall i {:trigger acts[i]} :: 0 <= i < |acts| ==> Steps(states[i], acts[i], states[i + 1])
  }

  lemma Grow(states: seq<State>, acts: seq<Act>, a: Act, u: State)
    requires IsPath(states, acts) && Steps(states[|acts|], a, u)
    ensures IsPath(states + [u], acts + [a])
  {
    var more := acts + [a];
    forall i {:trigger more[i]} | 0 <= i < |more|
      ensures Steps((states + [u])[i], more[i], (states + [u])[i + 1])
    {
      if i < |acts| { assert Steps(states[i], acts[i], states[i + 1]); }
    }
  }

  datatype Stretch = Stretch(states: seq<State>, acts: seq<Act>)

  ghost predicate Leads(r: Stretch, from: State) { IsPath(r.states, r.acts) && r.states[0] == from }

  ghost function End(r: Stretch): State
    requires IsPath(r.states, r.acts)
  {
    r.states[|r.acts|]
  }

  lemma Join(x: Stretch, y: Stretch) returns (r: Stretch)
    requires IsPath(x.states, x.acts) && Leads(y, End(x))
    ensures Leads(r, x.states[0]) && End(r) == End(y) && r.acts == x.acts + y.acts
    ensures forall i :: 0 <= i <= |x.acts| ==> r.states[i] == x.states[i]
    ensures forall i {:trigger y.states[i]} :: 0 <= i <= |y.acts| ==> r.states[|x.acts| + i] == y.states[i]
  {
    r := Stretch(x.states[..|x.acts|] + y.states, x.acts + y.acts);
    forall i {:trigger r.acts[i]} | 0 <= i < |r.acts| ensures Steps(r.states[i], r.acts[i], r.states[i + 1]) {
      JoinSteps(x, y, r, i);
    }
  }

  lemma JoinSteps(x: Stretch, y: Stretch, r: Stretch, i: nat)
    requires IsPath(x.states, x.acts) && Leads(y, End(x)) && i < |x.acts| + |y.acts|
    requires r == Stretch(x.states[..|x.acts|] + y.states, x.acts + y.acts)
    ensures Steps(r.states[i], r.acts[i], r.states[i + 1])
  {
    if i < |x.acts| {
      assert Steps(x.states[i], x.acts[i], x.states[i + 1]);
    } else {
      var k := i - |x.acts|;
      assert Steps(y.states[k], y.acts[k], y.states[k + 1]);
    }
  }
}
