/** The shared health probe: one answer for all callers for the length of its
    time to live, one probe in flight at a time. */
module CachedProbe {
  import opened Numbers
  import opened Wrappers

  /** What a caller gets: the cached answer, or the one in flight, which it shares
      with others or has just started. */
  datatype Served = Cached(value: bool) | Shared | Started

  /** The probe in flight: waiting for an answer, or already over when it was
      recorded, because the call of the probe threw synchronously. (A probe whose
      promise rejects, however early, is an ordinary answer.) */
  datatype Flight = Live | Over

  /** A caller comes (`throws`: should it start a probe, that call would throw
      synchronously), or the answer does; None is a rejection. */
  datatype Event = Arrive(at: int, throws: bool) | Answer(at: int, answer: Option<bool>)

  /** The three variables of the wrapper. */
  datatype State = State(cached: Option<bool>, cachedAt: int, inFlight: Option<Flight>)

  predicate Fresh(s: State, now: int, ttl: nat) {
    s.cached.Some? && now - s.cachedAt < ttl
  }

  /** This caller starts a probe. */
  predicate Starts(s: State, e: Event, ttl: nat) {
    e.Arrive? && !Fresh(s, e.at, ttl) && s.inFlight.None?
  }

  function After(s: State, e: Event, ttl: nat): State {
    match e
    case Arrive(at, throws) =>
      if !Starts(s, e, ttl) then s
      else if throws then State(Some(false), at, Some(Over))
      else s.(inFlight := Some(Live))
    case Answer(at, answer) =>
      if s.inFlight == Some(Live) then State(Some(answer.Some? && answer.value), at, None) else s
  }

  function Run(s: State, es: seq<Event>, ttl: nat): State {
    if es == [] then s else After(Run(s, es[..|es| - 1], ttl), es[|es| - 1], ttl)
  }

  /** When probes are started. */
  function StartTimes(s: State, es: seq<Event>, ttl: nat): seq<int> {
    if es == [] then []
    else
      var n := |es| - 1;
      StartTimes(s, es[..n], ttl) + if Starts(Run(s, es[..n], ttl), es[n], ttl) then [es[n].at] else []
  }

  /** The i-th event starts a probe, and the call throws synchronously. */
  predicate Blows(s: State, es: seq<Event>, ttl: nat, i: nat)
    requires i < |es|
  {
    Starts(Run(s, es[..i], ttl), es[i], ttl) && es[i].throws
  }

  predicate SomeBlows(s: State, es: seq<Event>, ttl: nat) {
    exists i :: 0 <= i < |es| && Blows(s, es, ttl, i)
  }

  /** A flight that is over and still recorded comes about exactly by a started
      probe that throws synchronously. */
  lemma {:induction false} WedgedIff(s: State, es: seq<Event>, ttl: nat)
    ensures Run(s, es, ttl).inFlight == Some(Over)
       <==> s.inFlight == Some(Over) || SomeBlows(s, es, ttl)
  {
    if es != [] {
      var n := |es| - 1;
      WedgedIff(s, es[..n], ttl);
      forall i | 0 <= i < n ensures Blows(s, es, ttl, i) <==> Blows(s, es[..n], ttl, i) {
        assert es[..n][..i] == es[..i];
      }
      assert Run(s, es, ttl).inFlight == Some(Over)
        <==> Run(s, es[..n], ttl).inFlight == Some(Over) || Blows(s, es, ttl, n);
    }
  }

  /** From then on no probe starts, and the answer stays what it was. */
  lemma {:induction false} WedgedForever(s: State, es: seq<Event>, ttl: nat)
    requires s.inFlight == Some(Over)
    ensures Run(s, es, ttl) == s && StartTimes(s, es, ttl) == []
  {
    if es != [] {
      WedgedForever(s, es[..|es| - 1], ttl);
    }
  }

  /** One synchronous throw at the first call, and a caller long after. */
  lemma OneThrowWedges(ttl: nat, later: nat)
    requires later >= ttl
    ensures var es := [Arrive(0, true), Arrive(later, false)];
            StartTimes(State(None, 0, None), es, ttl) == [0]
            && Run(State(None, 0, None), es, ttl) == State(Some(false), 0, Some(Over))
            && !Fresh(Run(State(None, 0, None), es, ttl), later, ttl)
  {
    var s, es := State(None, 0, None), [Arrive(0, true), Arrive(later, false)];
    assert es[..1] == [es[0]] && es[..1][..0] == [];
    assert Run(s, es[..1], ttl) == State(Some(false), 0, Some(Over));
    assert StartTimes(s, es[..1], ttl) == StartTimes(s, es[..1][..0], ttl) + [0];
  }

  ghost predicate Spaced(starts: seq<int>, ttl: nat) {
    forall i | 0 < i < |starts| :: starts[i] - starts[i - 1] >= ttl
  }

  lemma {:induction false} SpacedFar(starts: seq<int>, ttl: nat, i: nat, j: nat)
    requires Spaced(starts, ttl) && i <= j < |starts|
    ensures starts[j] - starts[i] >= (j - i) * ttl
    decreases j
  {
    if i < j {
      SpacedFar(starts, ttl, i, j - 1);
      assert (j - i) * ttl == (j - 1 - i) * ttl + ttl;
    }
  }

  /** Any `j - i + 1` starts within a window of length `width`. */
  lemma WindowBound(starts: seq<int>, ttl: nat, i: nat, j: nat, width: nat)
    requires ttl > 0 && Spaced(starts, ttl) && i <= j < |starts| && starts[j] - starts[i] <= width
    ensures j - i + 1 <= width / ttl + 1
  {
    SpacedFar(starts, ttl, i, j);
    QuotientBound(j - i, ttl, width);
  }

  lemma QuotientBound(n: nat, d: nat, m: nat)
    requires d > 0 && n * d <= m
    ensures n <= m / d
  {
    Scale(m / d + 1, n, d);
    assert m == d * (m / d) + m % d;
  }

  class Probe {
    const ttl: nat
    var cached: Option<bool>
    var cachedAt: int
    var inFlight: Option<Flight>
    /** When probes were started, and the latest time seen. */
    ghost var starts: seq<int>
    ghost var clock: int
    /** How many probes have answered. */
    ghost var answered: nat

    constructor (ttl: nat, now: int)
      ensures Valid() && starts == [] && clock == now && this.ttl == ttl && inFlight.None? && cached.None?
    {
      this.ttl := ttl;
      cached, cachedAt, inFlight, starts, clock, answered := None, now, None, [], now, 0;
    }

    ghost predicate Valid()
      reads this
    {
      && Spaced(starts, ttl) && |starts| == answered + (if inFlight == Some(Live) then 1 else 0)
      && (forall s | s in starts :: s <= clock)
      && (cached.Some? ==> cachedAt <= clock)
      && (starts == [] <==> cached.None? && inFlight.None?)
      && (starts != [] && (inFlight.None? || inFlight.value.Over?) ==> cached.Some? && starts[|starts| - 1] <= cachedAt)
      && (inFlight == Some(Live) && cached.Some? ==> starts[|starts| - 1] - cachedAt >= ttl)
      && (inFlight == Some(Live) ==> starts != [])
    }

    function Now(): State
      reads this
    {
      State(cached, cachedAt, inFlight)
    }

    predicate Expired(now: int)
      reads this
    {
      cached.None? || now - cachedAt >= ttl
    }

    /** One caller at time `now`; `throws` tells whether the call of the probe, should
        it be made, throws synchronously. A cached answer is younger than the time to
        live; a probe starts exactly when there is no such answer and none is recorded
        as in flight. */
    method Call(now: int, throws: bool) returns (served: Served)
      requires Valid() && now >= clock
      modifies this
      ensures Valid() && clock == now
      ensures served.Cached? <==> !old(Expired(now))
      ensures served.Cached? ==> old(cached) == Some(served.value) && now - old(cachedAt) < ttl
      ensures served.Shared? <==> old(Expired(now)) && old(inFlight).Some?
      ensures served.Started? <==> old(Expired(now)) && old(inFlight).None?
      ensures starts == if served.Started? then old(starts) + [now] else old(starts)
      ensures served.Started? ==> inFlight == Some(if throws then Over else Live)
      ensures served.Started? && throws ==> cached == Some(false) && cachedAt == now
      ensures !served.Started? ==> inFlight == old(inFlight)
      ensures !(served.Started? && throws) ==> cached == old(cached) && cachedAt == old(cachedAt)
    {
      clock := now;
      if cached.Some? && now - cachedAt < ttl {
        return Cached(cached.value);
      }
      if inFlight.Some? {
        return Shared;
      }
      served := Started;
      starts := starts + [now];
      if throws {
        // the answer is stored and the flight cleared before the flight is recorded
        cached, cachedAt, answered := Some(false), now, answered + 1;
        inFlight := Some(Over);
      } else {
        inFlight := Some(Live);
      }
    }

    /** The answer arrives; a rejection counts as no. */
    method Settle(now: int, answer: Option<bool>)
      requires Valid() && now >= clock && inFlight == Some(Live)
      modifies this
      ensures Valid() && clock == now && starts == old(starts)
      ensures cached == Some(answer.Some? && answer.value) && cachedAt == now && inFlight.None?
    {
      assert starts[|starts| - 1] in starts;
      clock, answered := now, answered + 1;
      cached, cachedAt, inFlight := Some(answer.Some? && answer.value), now, None;
    }
  }

  /** One event. */
  method Receive(p: Probe, e: Event)
    requires p.Valid() && e.at >= p.clock
    modifies p
    ensures p.Valid() && p.clock <= e.at
    ensures p.Now() == After(old(p.Now()), e, p.ttl)
    ensures p.starts == old(p.starts) + if Starts(old(p.Now()), e, p.ttl) then [e.at] else []
  {
    match e
    case Arrive(at, throws) =>
      var _ := p.Call(at, throws);
    case Answer(at, answer) =>
      if p.inFlight == Some(Live) {
        p.Settle(at, answer);
      }
  }

  lemma {:induction false} RunNext(s: State, es: seq<Event>, ttl: nat, i: nat)
    requires i < |es|
    ensures Run(s, es[..i + 1], ttl) == After(Run(s, es[..i], ttl), es[i], ttl)
    ensures StartTimes(s, es[..i + 1], ttl)
         == StartTimes(s, es[..i], ttl) + if Starts(Run(s, es[..i], ttl), es[i], ttl) then [es[i].at] else []
  {
    assert es[..i + 1][..i] == es[..i];
  }

  /** Any number of callers and answers in the order of time: starts are a time to
      live apart, and the wrapper ends up where the events take it. */
  method Serve(p: Probe, events: seq<Event>)
    requires p.Valid() && (forall e | e in events :: e.at >= p.clock)
    requires forall i, j | 0 <= i < j < |events| :: events[i].at <= events[j].at
    modifies p
    ensures p.Valid() && Spaced(p.starts, p.ttl)
    ensures p.Now() == Run(old(p.Now()), events, p.ttl)
    ensures p.starts == old(p.starts) + StartTimes(old(p.Now()), events, p.ttl)
    ensures p.inFlight == Some(Over)
       <==> old(p.inFlight) == Some(Over) || SomeBlows(old(p.Now()), events, p.ttl)
  {
    ghost var s := p.Now();
    for i := 0 to |events|
      invariant p.Valid() && p.Now() == Run(s, events[..i], p.ttl)
      invariant p.starts == old(p.starts) + StartTimes(s, events[..i], p.ttl)
      invariant forall j | i <= j < |events| :: events[j].at >= p.clock
    {
      RunNext(s, events, p.ttl, i);
      Receive(p, events[i]);
    }
    assert events[..|events|] == events;
    WedgedIff(s, events, p.ttl);
  }
}
