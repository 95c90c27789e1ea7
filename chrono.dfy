/** The timer stack: a process-wide last-in-first-out sequence of start
    instants. `setChrono0` pushes the current instant; `showChrono` pops the
    most recent one and reports the time elapsed since it. */
module Chrono {

  /** An instant read from the system clock, as an opaque tick count. */
  type Time = int

  /** Popping with no matching prior push. */
  datatype Error = EmptyStackPop

  datatype Result<T> = Ok(value: T) | Err(error: Error)

  /** One line the harness reports: its name and the two instants between
      which the elapsed time was measured. */
  datatype Measurement = Measurement(name: string, start: Time, stop: Time)

  /** `vStart.push_back(now)`. */
  function Push(starts: seq<Time>, now: Time): (r: seq<Time>)
    ensures |r| == |starts| + 1
    ensures Pop(r) == Ok((now, starts))
  {
    starts + [now]
  }

  /** `vStart.back()` followed by `vStart.pop_back()`: the most recently pushed
      instant and the stack without it; an empty stack is an error. */
  function Pop(starts: seq<Time>): (r: Result<(Time, seq<Time>)>)
    ensures r.Err? <==> starts == []
    ensures r.Ok? ==> starts == r.value.1 + [r.value.0]
  {
    if starts == [] then Err(EmptyStackPop)
    else Ok((starts[|starts| - 1], starts[..|starts| - 1]))
  }

  /** One timer call: `setChrono0` at an instant, or `showChrono(name)` at one. */
  datatype Step = Start(at: Time) | Stop(name: string, at: Time)

  /** The global `vStart`, an object whose stack the timer calls update in place.
      `trace` records, for the proofs only, every timer call made so far. */
  class ChronoStack {
    var starts: seq<Time>
    ghost var trace: seq<Step>

    constructor ()
      ensures starts == [] && trace == []
    {
      starts := [];
      trace := [];
    }

    /** `setChrono0()`, with the clock reading passed in as `now`. */
    method SetChrono0(now: Time)
      modifies this
      ensures starts == Push(old(starts), now)
      ensures trace == old(trace) + [Start(now)]
    {
      starts := starts + [now];
      trace := trace + [Start(now)];
    }

    /** `showChrono(name)`, with the clock reading passed in as `now`: pops the
        latest start and returns the measurement it reports. */
    method ShowChrono(name: string, now: Time) returns (r: Result<Measurement>)
      modifies this
      ensures old(starts) == [] ==> r == Err(EmptyStackPop) && starts == old(starts)
      ensures old(starts) != [] ==>
                r == Ok(Measurement(name, Pop(old(starts)).value.0, now)) &&
                starts == Pop(old(starts)).value.1
      ensures trace == old(trace) + [Stop(name, now)]
    {
      trace := trace + [Stop(name, now)];
      if starts == [] {
        r := Err(EmptyStackPop);
      } else {
        r := Ok(Measurement(name, starts[|starts| - 1], now));
        starts := starts[..|starts| - 1];
      }
    }
  }

  // ---------------------------------------------------------------------
  // A sequence of timer calls, replayed on a stack, and the bracketing
  // discipline under which it leaves the stack as it found it.
  // ---------------------------------------------------------------------

  /** The effect of one timer call on the stack and on the lines reported so far. */
  function Apply(state: (seq<Time>, seq<Measurement>), step: Step): Result<(seq<Time>, seq<Measurement>)>
  {
    match step
    case Start(t) => Ok((Push(state.0, t), state.1))
    case Stop(name, t) =>
      match Pop(state.0)
      case Err(e) => Err(e)
      case Ok((start, rest)) => Ok((rest, state.1 + [Measurement(name, start, t)]))
  }

  /** The timer calls `steps`, made in order on the stack `starts`: the final
      stack and the lines reported, or the first empty-stack pop. */
  function Replay(starts: seq<Time>, steps: seq<Step>): Result<(seq<Time>, seq<Measurement>)>
  {
    if steps == [] then Ok((starts, []))
    else
      match Replay(starts, steps[..|steps| - 1])
      case Err(e) => Err(e)
      case Ok(state) => Apply(state, steps[|steps| - 1])
  }

  /** How many more pushes than pops the calls `steps` make. */
  function Net(steps: seq<Step>): int
  {
    if steps == [] then 0
    else Net(steps[..|steps| - 1]) + (if steps[|steps| - 1].Start? then 1 else -1)
  }

  /** No prefix of `steps` pops more than `depth` instants beyond what it pushed. */
  ghost predicate NeverUnderflows(depth: nat, steps: seq<Step>)
  {
    forall k :: 0 <= k <= |steps| ==> depth + Net(steps[..k]) >= 0
  }

  /** Every `showChrono` matches an earlier `setChrono0` of the same sequence,
      and every `setChrono0` is matched. */
  ghost predicate Balanced(steps: seq<Step>)
  {
    NeverUnderflows(0, steps) && Net(steps) == 0
  }

  lemma {:induction false} NetAppend(a: seq<Step>, b: seq<Step>)
    ensures Net(a + b) == Net(a) + Net(b)
    decreases |b|
  {
    if b == [] {
      assert a + b == a;
    } else {
      var b' := b[..|b| - 1];
      assert (a + b)[..|a + b| - 1] == a + b';
      assert (a + b)[|a + b| - 1] == b[|b| - 1];
      NetAppend(a, b');
    }
  }

  /** Calls that never pop below what they pushed on top of `extra` succeed,
      leave the part of the stack below `extra` untouched, and change its
      height by their net count. */
  lemma {:induction false} ReplayFrame(base: seq<Time>, extra: seq<Time>, steps: seq<Step>)
    requires NeverUnderflows(|extra|, steps)
    ensures Replay(base + extra, steps).Ok?
    ensures |Replay(base + extra, steps).value.0| == |base| + |extra| + Net(steps)
    ensures base <= Replay(base + extra, steps).value.0
    decreases |steps|
  {
    if steps != [] {
      var init := steps[..|steps| - 1];
      forall k | 0 <= k <= |init|
        ensures |extra| + Net(init[..k]) >= 0
      {
        assert init[..k] == steps[..k];
      }
      ReplayFrame(base, extra, init);
      assert steps[..|steps|] == steps;
      var st := Replay(base + extra, init).value.0;
      if steps[|steps| - 1].Stop? {
        assert base <= st[..|st| - 1];
      } else {
        assert base <= st + [steps[|steps| - 1].at];
      }
    }
  }

  /** A successful replay changes the height of the stack by the net count. */
  lemma {:induction false} ReplayHeight(starts: seq<Time>, steps: seq<Step>)
    requires Replay(starts, steps).Ok?
    ensures |Replay(starts, steps).value.0| == |starts| + Net(steps)
    decreases |steps|
  {
    if steps != [] {
      ReplayHeight(starts, steps[..|steps| - 1]);
    }
  }

  /** A successful replay also succeeds on every prefix of the calls. */
  lemma {:induction false} ReplayPrefix(starts: seq<Time>, steps: seq<Step>, k: nat)
    requires k <= |steps|
    requires Replay(starts, steps).Ok?
    ensures Replay(starts, steps[..k]).Ok?
    decreases |steps|
  {
    if k == |steps| {
      assert steps[..k] == steps;
    } else {
      var init := steps[..|steps| - 1];
      assert init[..k] == steps[..k];
      ReplayPrefix(starts, init, k);
    }
  }

  /** Replaying calls succeeds exactly when no prefix of them pops more than
      the stack held plus what the prefix pushed. */
  lemma ReplayOkIff(starts: seq<Time>, steps: seq<Step>)
    ensures Replay(starts, steps).Ok? <==> NeverUnderflows(|starts|, steps)
  {
    if NeverUnderflows(|starts|, steps) {
      ReplayFrame([], starts, steps);
      assert [] + starts == starts;
    }
    if Replay(starts, steps).Ok? {
      forall k | 0 <= k <= |steps|
        ensures |starts| + Net(steps[..k]) >= 0
      {
        ReplayPrefix(starts, steps, k);
        ReplayHeight(starts, steps[..k]);
      }
    }
  }

  /** Balanced calls, made on any stack, never pop an empty stack and leave
      the stack exactly as they found it. */
  lemma ReplayBalanced(starts: seq<Time>, steps: seq<Step>)
    requires Balanced(steps)
    ensures Replay(starts, steps).Ok?
    ensures Replay(starts, steps).value.0 == starts
  {
    ReplayFrame(starts, [], steps);
    assert starts + [] == starts;
  }

  /** Two balanced sequences of calls, one after the other, are balanced. */
  lemma BalancedConcat(a: seq<Step>, b: seq<Step>)
    requires Balanced(a) && Balanced(b)
    ensures Balanced(a + b)
  {
    NetAppend(a, b);
    forall k | 0 <= k <= |a + b|
      ensures Net((a + b)[..k]) >= 0
    {
      if k <= |a| {
        assert (a + b)[..k] == a[..k];
      } else {
        assert (a + b)[..k] == a + b[..k - |a|];
        NetAppend(a, b[..k - |a|]);
      }
    }
  }

  /** A balanced sequence of calls inside one `setChrono0` ... `showChrono`
      pair is balanced. */
  lemma BalancedWrap(t: Time, body: seq<Step>, name: string, u: Time)
    requires Balanced(body)
    ensures Balanced([Start(t)] + body + [Stop(name, u)])
  {
    var s := [Start(t)] + body + [Stop(name, u)];
    NetAppend([Start(t)], body);
    NetAppend([Start(t)] + body, [Stop(name, u)]);
    assert Net([Start(t)]) == 1 by {
      assert [Start(t)][..0] == [];
    }
    assert Net([Stop(name, u)]) == -1 by {
      assert [Stop(name, u)][..0] == [];
    }
    forall k | 0 <= k <= |s|
      ensures Net(s[..k]) >= 0
    {
      if k == 0 {
        assert s[..k] == [];
      } else if k <= |body| + 1 {
        assert s[..k] == [Start(t)] + body[..k - 1];
        NetAppend([Start(t)], body[..k - 1]);
      } else {
        assert s[..k] == s;
      }
    }
  }

  /** One measured region: `setChrono0()` at its start, then
      `showChrono(name)` at its stop. */
  function Timed(m: Measurement): seq<Step>
  {
    [Start(m.start), Stop(m.name, m.stop)]
  }

  /** Measured regions one after the other. */
  function Regions(ms: seq<Measurement>): seq<Step>
  {
    if ms == [] then [] else Regions(ms[..|ms| - 1]) + Timed(ms[|ms| - 1])
  }

  /** Replaying the calls of `a` and then those of `b` is replaying `b` on the
      stack `a` leaves, the lines of `b` following those of `a`. */
  lemma {:induction false} ReplayAppend(starts: seq<Time>, a: seq<Step>, b: seq<Step>)
    requires Replay(starts, a).Ok?
    ensures Replay(starts, a + b) ==
              match Replay(Replay(starts, a).value.0, b)
              case Err(e) => Err(e)
              case Ok(state) => Ok((state.0, Replay(starts, a).value.1 + state.1))
    decreases |b|
  {
    if b == [] {
      assert a + b == a;
      assert Replay(starts, a).value.1 + [] == Replay(starts, a).value.1;
    } else {
      var b' := b[..|b| - 1];
      assert (a + b)[..|a + b| - 1] == a + b';
      assert (a + b)[|a + b| - 1] == b[|b| - 1];
      ReplayAppend(starts, a, b');
      var first := Replay(starts, a).value.1;
      match Replay(Replay(starts, a).value.0, b')
      case Err(_) =>
      case Ok(state) =>
        match b[|b| - 1]
        case Start(_) =>
        case Stop(name, u) =>
          if state.0 != [] {
            var m := Measurement(name, state.0[|state.0| - 1], u);
            assert (first + state.1) + [m] == first + (state.1 + [m]);
          }
    }
  }

  /** A measured region reports one line and leaves the stack as it found it. */
  lemma ReplayTimed(starts: seq<Time>, m: Measurement)
    ensures Replay(starts, Timed(m)) == Ok((starts, [m]))
  {
    var s := Timed(m);
    var name, t, u := m.name, m.start, m.stop;
    var none: seq<Measurement> := [];
    var pushed := (starts + [t], none);
    assert s[..1][..0] == [];
    assert Replay(starts, s[..1]) == Ok(pushed);
    assert s[..|s| - 1] == s[..1];
    assert Pop(pushed.0) == Ok((t, starts));
    assert Apply(pushed, Stop(name, u)).value.1 == [Measurement(name, t, u)];
  }

  /** Back-to-back measured regions report exactly those measurements and
      leave the stack as they found it. */
  lemma {:induction false} ReplayRegions(starts: seq<Time>, ms: seq<Measurement>)
    ensures Replay(starts, Regions(ms)) == Ok((starts, ms))
    decreases |ms|
  {
    if ms != [] {
      var init := ms[..|ms| - 1];
      ReplayRegions(starts, init);
      ReplayTimed(starts, ms[|ms| - 1]);
      ReplayAppend(starts, Regions(init), Timed(ms[|ms| - 1]));
      assert init + [ms[|ms| - 1]] == ms;
    }
  }

  /** Back-to-back measured regions are balanced. */
  lemma {:induction false} RegionsBalanced(ms: seq<Measurement>)
    ensures Balanced(Regions(ms))
    decreases |ms|
  {
    var none: seq<Step> := [];
    assert none[..0] == none;
    if ms != [] {
      var m := ms[|ms| - 1];
      RegionsBalanced(ms[..|ms| - 1]);
      BalancedWrap(m.start, none, m.name, m.stop);
      assert [Start(m.start)] + none + [Stop(m.name, m.stop)] == Timed(m);
      BalancedConcat(Regions(ms[..|ms| - 1]), Timed(m));
    }
  }
}
