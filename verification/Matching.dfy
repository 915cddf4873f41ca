/** The matching engine (internal/matching/engine.go): any number of searches, each offering its ride
    to one driver after another, interleaved with the drivers' answers and the passing of time.

    A step is one access to something shared: the Redis lock table, the map of accept channels, a
    channel, or the search's own program counter. A run is any sequence of steps; a step that is not
    enabled leaves the state alone. */
module Matching {

  import opened Options
  import StableSort

  type Ride = nat
  type Driver = nat

  /** Times are in milliseconds. */
  const LOCK_TTL: nat := 20_000

  /** The GEO query returns at most ten drivers, the PostGIS fallback five. */
  const MAX_FOUND: nat := 10

  /** `timeout` is how long one offer waits for an answer. */
  datatype Config = Config(maxAttempts: nat, timeout: nat)

  /** `driver` is None for a caller that does not say who it is. */
  datatype Signal = Signal(driver: Option<Driver>, accepted: bool)

  /** A one-slot channel, made for the offer of `ride` to `driver`. */
  datatype Channel = Channel(ride: Ride, driver: Driver, slot: Option<Signal>)

  /** An accept handler between loading the channel from the map and sending on it. */
  datatype Call = Call(ch: nat, sig: Signal)

  datatype Lock = Lock(ride: Ride, expires: int)

  datatype Offer = Offer(driver: Driver, ch: nat)

  /** Where a search is: between rounds, walking its candidates, or inside `offerToDriver` with the
      lock set at `since`, and at last at one of three ends. */
  datatype Phase =
    | Round
    | Trying
    | Locked(d: Driver, since: int)
    | Waiting(d: Driver, since: int, ch: nat, startedAt: int)
    | Closing(d: Driver, since: int, ch: nat, accepted: bool)
    | Unlocking(d: Driver, since: int, ch: nat, accepted: bool)
    | Returned(d: Driver, ch: nat, accepted: bool)
    | Assigned(d: Driver)
    | GaveUp
    | Stopped
  {
    /** The offer is on: the lock has been taken and its deletion is still to come. */
    predicate Live() { Locked? || Waiting? || Closing? || Unlocking? }

    predicate Listening() { Waiting? || Closing? }

    predicate Answered() { Closing? || Unlocking? || Returned? }

    predicate Over() { Assigned? || GaveUp? || Stopped? }
  }

  /** `attempt` counts the rounds begun; `queue` holds the candidates left of this round. */
  datatype Search = Search(attempt: nat, phase: Phase, queue: seq<Driver>, tried: set<Driver>, offers: seq<Offer>)

  datatype State = State(now: int, locks: map<Driver, Lock>, searches: map<Ride, Search>,
                         registry: map<Ride, nat>, channels: seq<Channel>, calls: map<nat, Call>)

  const INITIAL := State(0, map[], map[], map[], [], map[])

  /** What becomes of a Redis command: carried out, not carried out, or carried out with the reply lost. */
  datatype Redis = Done | Failed | Lost

  datatype Action =
    | Quit(gaveUp: bool)
    | NextRound(found: seq<Driver>)
    | TryNext(connected: bool, redis: Redis)
    | Open
    | Receive
    | TimerFires
    | CloseChannel
    | Unlock(executed: bool)
    | AfterOffer

  datatype Event =
    | Tick(d: nat)
    | Begin(ride: Ride)
    | Own(ride: Ride, act: Action)
    | Load(call: nat, ride: Ride, sig: Signal)
    | Send(call: nat)

  // ---------------------------------------------------------------- the steps

  function Put(s: State, r: Ride, q: Search): State
  {
    s.(searches := s.searches[r := q])
  }

  /** SETNX finds no key that is still alive. */
  predicate Free(s: State, d: Driver)
  {
    d !in s.locks || s.locks[d].expires <= s.now
  }

  /** One turn of the candidate loop, up to the SETNX. */
  function TryCandidate(s: State, r: Ride, q: Search, connected: bool, redis: Redis): State
  {
    if q.queue == [] then Put(s, r, q.(phase := Round))
    else
      var d, rest := q.queue[0], q.(queue := q.queue[1..]);
      if d in q.tried || !connected then Put(s, r, rest)
      else
        var marked := rest.(tried := q.tried + {d});
        if redis.Failed? || !Free(s, d) then Put(s, r, marked)
        else
          Put(s.(locks := s.locks[d := Lock(r, s.now + LOCK_TTL)]), r,
              if redis.Done? then marked.(phase := Locked(d, s.now)) else marked)
  }

  function OpenChannel(s: State, r: Ride, q: Search): State
    requires q.phase.Locked?
  {
    var d, ch := q.phase.d, |s.channels|;
    Put(s.(channels := s.channels + [Channel(r, d, None)], registry := s.registry[r := ch]), r,
        q.(phase := Waiting(d, q.phase.since, ch, s.now), offers := q.offers + [Offer(d, ch)]))
  }

  /** The select's receive case: a signal that names another driver is dropped. */
  function ReceiveSignal(s: State, r: Ride, q: Search): State
    requires q.phase.Waiting?
  {
    var p := q.phase;
    if p.ch >= |s.channels| || s.channels[p.ch].slot == None then s
    else
      var sig := s.channels[p.ch].slot.value;
      var t := s.(channels := s.channels[p.ch := s.channels[p.ch].(slot := None)]);
      if sig.driver != None && sig.driver != Some(p.d) then t
      else Put(t, r, q.(phase := Closing(p.d, p.since, p.ch, sig.accepted)))
  }

  function OwnStep(cfg: Config, s: State, r: Ride, act: Action): State
  {
    if r !in s.searches then s
    else
      var q := s.searches[r];
      var p := q.phase;
      match act
      case Quit(gaveUp) =>
        if !p.Round? then s else Put(s, r, q.(phase := if gaveUp then GaveUp else Stopped))
      case NextRound(found) =>
        if !p.Round? || |found| > MAX_FOUND then s
        else if q.attempt >= cfg.maxAttempts then Put(s, r, q.(phase := GaveUp))
        else Put(s, r, q.(attempt := q.attempt + 1, phase := Trying, queue := found))
      case TryNext(connected, redis) =>
        if !p.Trying? then s else TryCandidate(s, r, q, connected, redis)
      case Open =>
        if !p.Locked? then s else OpenChannel(s, r, q)
      case Receive =>
        if !p.Waiting? then s else ReceiveSignal(s, r, q)
      case TimerFires =>
        if !p.Waiting? || s.now < p.startedAt + cfg.timeout then s
        else Put(s, r, q.(phase := Closing(p.d, p.since, p.ch, false)))
      case CloseChannel =>
        if !p.Closing? then s
        else Put(s.(registry := s.registry - {r}), r, q.(phase := Unlocking(p.d, p.since, p.ch, p.accepted)))
      case Unlock(executed) =>
        if !p.Unlocking? then s
        else Put(if executed then s.(locks := s.locks - {p.d}) else s, r, q.(phase := Returned(p.d, p.ch, p.accepted)))
      case AfterOffer =>
        if !p.Returned? then s
        else Put(s, r, q.(phase := if p.accepted then Assigned(p.d) else Trying))
  }

  /** The non-blocking send: a full channel drops the signal. */
  function Deliver(s: State, c: nat): State
    requires c in s.calls
  {
    var call, t := s.calls[c], s.(calls := s.calls - {c});
    if call.ch >= |s.channels| || s.channels[call.ch].slot != None then t
    else
      var ch := s.channels[call.ch];
      t.(channels := s.channels[call.ch := ch.(slot := Some(call.sig))])
  }

  function Step(cfg: Config, s: State, e: Event): State
  {
    match e
    case Tick(d) => s.(now := s.now + d)
    case Begin(r) => if r in s.searches then s else Put(s, r, Search(0, Round, [], {}, []))
    case Own(r, act) => OwnStep(cfg, s, r, act)
    case Load(c, r, sig) =>
      if c in s.calls || r !in s.registry then s else s.(calls := s.calls[c := Call(s.registry[r], sig)])
    case Send(c) => if c !in s.calls then s else Deliver(s, c)
  }

  function RunFrom(cfg: Config, s: State, events: seq<Event>): State
  {
    if events == [] then s else Step(cfg, RunFrom(cfg, s, events[..|events| - 1]), events[|events| - 1])
  }

  function Run(cfg: Config, events: seq<Event>): State
  {
    RunFrom(cfg, INITIAL, events)
  }

  lemma RunOfLast(cfg: Config, s: State, init: seq<Event>, e: Event)
    ensures RunFrom(cfg, s, init + [e]) == Step(cfg, RunFrom(cfg, s, init), e)
  {
    assert (init + [e])[..|init|] == init;
  }

  /** A run can be taken up where another has ended. */
  lemma {:induction false} RunsJoin(cfg: Config, s: State, before: seq<Event>, after: seq<Event>)
    ensures RunFrom(cfg, RunFrom(cfg, s, before), after) == RunFrom(cfg, s, before + after)
  {
    if after == [] {
      assert before + after == before;
    } else {
      var init, e := after[..|after| - 1], after[|after| - 1];
      assert after == init + [e] && before + after == (before + init) + [e];
      RunsJoin(cfg, s, before, init);
      RunOfLast(cfg, s, before + init, e);
      RunOfLast(cfg, RunFrom(cfg, s, before), init, e);
    }
  }

  // ---------------------------------------------------------------- A: one live offer per driver

  predicate LiveAt(s: State, r: Ride)
  {
    r in s.searches && s.searches[r].phase.Live()
  }

  /** Every live offer finds its own lock in the table, expired or not. */
  ghost predicate OwnsItsLock(s: State)
  {
    forall r :: LiveAt(s, r) ==>
      var p := s.searches[r].phase; p.d in s.locks && s.locks[p.d] == Lock(r, p.since + LOCK_TTL)
  }

  /** No live offer is older than the lock's time to live. */
  ghost predicate Timely(s: State)
  {
    forall r :: LiveAt(s, r) ==> s.now < s.searches[r].phase.since + LOCK_TTL
  }

  ghost predicate AlwaysTimely(cfg: Config, events: seq<Event>)
  {
    forall i :: 0 <= i <= |events| ==> Timely(Run(cfg, events[..i]))
  }

  lemma TryKeepsLocks(s: State, r: Ride, connected: bool, redis: Redis)
    requires OwnsItsLock(s) && Timely(s)
    requires r in s.searches && s.searches[r].phase.Trying?
    ensures OwnsItsLock(TryCandidate(s, r, s.searches[r], connected, redis))
  {
    var t := TryCandidate(s, r, s.searches[r], connected, redis);
    forall x | LiveAt(t, x)
      ensures var p := t.searches[x].phase; p.d in t.locks && t.locks[p.d] == Lock(x, p.since + LOCK_TTL)
    {
      if x != r {
        assert LiveAt(s, x) && t.searches[x] == s.searches[x];
        assert !Free(s, s.searches[x].phase.d);
      }
    }
  }

  lemma UnlockKeepsLocks(cfg: Config, s: State, r: Ride, executed: bool)
    requires OwnsItsLock(s)
    requires r in s.searches && s.searches[r].phase.Unlocking?
    ensures OwnsItsLock(OwnStep(cfg, s, r, Unlock(executed)))
  {
    var t := OwnStep(cfg, s, r, Unlock(executed));
    assert LiveAt(s, r);
    forall x | LiveAt(t, x)
      ensures var p := t.searches[x].phase; p.d in t.locks && t.locks[p.d] == Lock(x, p.since + LOCK_TTL)
    {
      assert LiveAt(s, x) && t.searches[x] == s.searches[x];
    }
  }

  predicate SameOffer(p: Phase, q: Phase)
  {
    p.Live() && q.Live() && p.d == q.d && p.since == q.since
  }

  /** The other steps leave the locks, and no offer comes to life in them. */
  lemma QuietStep(cfg: Config, s: State, r: Ride, act: Action)
    requires r in s.searches && !act.TryNext? && !act.Unlock?
    ensures var t := OwnStep(cfg, s, r, act);
            && t.locks == s.locks && r in t.searches
            && (t.searches[r].phase.Live() ==> SameOffer(s.searches[r].phase, t.searches[r].phase))
  {
  }

  lemma QuietStepKeepsLocks(cfg: Config, s: State, r: Ride, act: Action)
    requires OwnsItsLock(s) && r in s.searches && !act.TryNext? && !act.Unlock?
    ensures OwnsItsLock(OwnStep(cfg, s, r, act))
  {
    var t := OwnStep(cfg, s, r, act);
    QuietStep(cfg, s, r, act);
    forall x | LiveAt(t, x)
      ensures var p := t.searches[x].phase; p.d in t.locks && t.locks[p.d] == Lock(x, p.since + LOCK_TTL)
    {
      if x != r {
        OwnFrame(cfg, s, r, act, x);
      }
      assert LiveAt(s, x);
    }
  }

  lemma OwnStepKeepsLocks(cfg: Config, s: State, r: Ride, act: Action)
    requires OwnsItsLock(s) && Timely(s)
    ensures OwnsItsLock(OwnStep(cfg, s, r, act))
  {
    if r in s.searches {
      if act.TryNext? {
        if s.searches[r].phase.Trying? { TryKeepsLocks(s, r, act.connected, act.redis); }
      } else if act.Unlock? {
        if s.searches[r].phase.Unlocking? { UnlockKeepsLocks(cfg, s, r, act.executed); }
      } else {
        QuietStepKeepsLocks(cfg, s, r, act);
      }
    }
  }

  lemma StepKeepsLocks(cfg: Config, s: State, e: Event)
    requires OwnsItsLock(s) && Timely(s)
    ensures OwnsItsLock(Step(cfg, s, e))
  {
    var t := Step(cfg, s, e);
    if e.Own? {
      OwnStepKeepsLocks(cfg, s, e.ride, e.act);
    } else {
      assert t.locks == s.locks;
      assert forall x | LiveAt(t, x) :: LiveAt(s, x) && t.searches[x] == s.searches[x];
    }
  }

  lemma {:induction false} TimelyRunOwnsLocks(cfg: Config, events: seq<Event>)
    requires AlwaysTimely(cfg, events)
    ensures OwnsItsLock(Run(cfg, events)) && Timely(Run(cfg, events))
  {
    assert events[..|events|] == events;
    if events != [] {
      var n := |events| - 1;
      assert forall i | 0 <= i <= n :: events[..n][..i] == events[..i];
      TimelyRunOwnsLocks(cfg, events[..n]);
      StepKeepsLocks(cfg, Run(cfg, events[..n]), events[n]);
    }
  }

  /** In every interleaving in which no offer outlasts the lock, a live offer holds a lock of its own
      that has not expired, and no driver has two live offers. */
  lemma OffersAreExclusive(cfg: Config, events: seq<Event>, r1: Ride, r2: Ride)
    requires AlwaysTimely(cfg, events)
    requires var s := Run(cfg, events);
             LiveAt(s, r1) && LiveAt(s, r2) && s.searches[r1].phase.d == s.searches[r2].phase.d
    ensures r1 == r2
    ensures var s := Run(cfg, events); var d := s.searches[r1].phase.d;
            d in s.locks && s.locks[d].ride == r1 && s.now < s.locks[d].expires
  {
    TimelyRunOwnsLocks(cfg, events);
  }

  /** The deferred delete takes away that lock and nothing else. */
  lemma UnlockDeletesItsOwnLock(cfg: Config, events: seq<Event>, r: Ride)
    requires AlwaysTimely(cfg, events)
    requires r in Run(cfg, events).searches && Run(cfg, events).searches[r].phase.Unlocking?
    ensures var s := Run(cfg, events); var t := Step(cfg, s, Own(r, Unlock(true)));
            forall d :: (d in s.locks && d !in t.locks) ==> s.locks[d].ride == r && s.now < s.locks[d].expires
    ensures var s := Run(cfg, events); var t := Step(cfg, s, Own(r, Unlock(true)));
            forall d | d in t.locks :: d in s.locks && t.locks[d] == s.locks[d]
  {
    TimelyRunOwnsLocks(cfg, events);
    assert LiveAt(Run(cfg, events), r);
  }

  /** The bound is exact. Once a live offer has outlasted its lock, another search can have the same
      driver in three steps, and the first search's delete then removes the other's lock. */
  lemma OverdueOfferCanBeDoubled(cfg: Config, s: State, r: Ride, r2: Ride)
    requires OwnsItsLock(s) && cfg.maxAttempts > 0
    requires LiveAt(s, r) && s.searches[r].phase.since + LOCK_TTL <= s.now && r2 !in s.searches
    ensures var d := s.searches[r].phase.d;
            var t := Step(cfg, Step(cfg, Step(cfg, s, Begin(r2)), Own(r2, NextRound([d]))), Own(r2, TryNext(true, Done)));
            && LiveAt(t, r) && LiveAt(t, r2) && r != r2
            && t.searches[r].phase.d == t.searches[r2].phase.d == d
            && t.locks[d].ride == r2
            && (t.searches[r].phase.Unlocking? ==> d !in Step(cfg, t, Own(r, Unlock(true))).locks)
  {
    var d := s.searches[r].phase.d;
    var t1 := Step(cfg, s, Begin(r2));
    var t2 := Step(cfg, t1, Own(r2, NextRound([d])));
    assert t2.searches[r2] == Search(1, Trying, [d], {}, []);
    var t := Step(cfg, t2, Own(r2, TryNext(true, Done)));
    assert Free(t2, d);
    assert t.searches[r2].phase == Locked(d, s.now) && t.searches[r] == s.searches[r];
  }

  /** A search that sets its lock and is not heard of for as long as the lock lives. */
  function Overdue(r: Ride, d: Driver): seq<Event>
  {
    [Begin(r), Own(r, NextRound([d])), Own(r, TryNext(true, Done)), Tick(LOCK_TTL)]
  }

  /** Where the first three of those steps lead. */
  function FirstLock(r: Ride, d: Driver): State
  {
    State(0, map[d := Lock(r, LOCK_TTL)], map[r := Search(1, Locked(d, 0), [], {d}, [])], map[], [], map[])
  }

  lemma FirstLockIsTaken(cfg: Config, es: seq<Event>, r: Ride, d: Driver)
    requires cfg.maxAttempts > 0 && |es| >= 3
    requires es[0] == Begin(r) && es[1] == Own(r, NextRound([d])) && es[2] == Own(r, TryNext(true, Done))
    ensures At(cfg, es, 3) == FirstLock(r, d)
  {
    var s1 := Step(cfg, INITIAL, es[0]);
    assert s1 == Put(INITIAL, r, Search(0, Round, [], {}, []));
    var s2 := Step(cfg, s1, es[1]);
    assert s2 == Put(INITIAL, r, Search(1, Trying, [d], {}, []));
    assert [d][1..] == [] && {} + {d} == {d};
    assert Step(cfg, s2, es[2]) == FirstLock(r, d);
    assert es[..0] == [];
    AtNext(cfg, es, 0);
    AtNext(cfg, es, 1);
    AtNext(cfg, es, 2);
  }

  lemma OverdueRun(cfg: Config, r: Ride, d: Driver)
    requires cfg.maxAttempts > 0
    ensures Run(cfg, Overdue(r, d)) == FirstLock(r, d).(now := LOCK_TTL)
  {
    var es := Overdue(r, d);
    FirstLockIsTaken(cfg, es, r, d);
    assert es[..4] == es;
    AtNext(cfg, es, 3);
  }

  /** A run from the start that puts two rides to one driver. */
  lemma TwoLiveOffers(cfg: Config, r: Ride, r2: Ride, d: Driver)
    requires cfg.maxAttempts > 0 && r != r2
    ensures var s := Run(cfg, Overdue(r, d) + [Begin(r2), Own(r2, NextRound([d])), Own(r2, TryNext(true, Done))]);
            LiveAt(s, r) && LiveAt(s, r2) && s.searches[r].phase.d == s.searches[r2].phase.d == d
  {
    var es := [Begin(r2), Own(r2, NextRound([d])), Own(r2, TryNext(true, Done))];
    OverdueRun(cfg, r, d);
    var s := Run(cfg, Overdue(r, d));
    assert OwnsItsLock(s) && LiveAt(s, r);
    OverdueOfferCanBeDoubled(cfg, s, r, r2);
    RunsJoin(cfg, INITIAL, Overdue(r, d), es);
    assert es[..1] == [es[0]] && es[..1][..0] == [] && es[..2][..1] == es[..1];
    assert RunFrom(cfg, s, es[..1]) == Step(cfg, s, es[0]);
    assert RunFrom(cfg, s, es[..2]) == Step(cfg, Step(cfg, s, es[0]), es[1]);
  }

  // ---------------------------------------------------------------- B: who is offered, who is assigned

  /** An accept from the driver, or from a caller that does not say who it is. */
  predicate AcceptBy(sig: Signal, d: Driver)
  {
    sig.accepted && (sig.driver == None || sig.driver == Some(d))
  }

  predicate OfferOk(channels: seq<Channel>, r: Ride, q: Search, o: Offer)
  {
    o.driver in q.tried && o.ch < |channels| && channels[o.ch].ride == r && channels[o.ch].driver == o.driver
  }

  ghost predicate OffersOk(channels: seq<Channel>, r: Ride, q: Search)
  {
    && (forall i :: 0 <= i < |q.offers| ==> OfferOk(channels, r, q, q.offers[i]))
    && (forall i, j :: 0 <= i < j < |q.offers| ==> q.offers[i].driver != q.offers[j].driver)
  }

  predicate LastOffer(q: Search, d: Driver, ch: nat)
  {
    q.offers != [] && q.offers[|q.offers| - 1] == Offer(d, ch)
  }

  ghost predicate PhaseOk(s: State, r: Ride, q: Search)
  {
    match q.phase
    case Locked(d, _) => d in q.tried && forall i :: 0 <= i < |q.offers| ==> q.offers[i].driver != d
    case Waiting(d, _, ch, _) => LastOffer(q, d, ch) && r in s.registry && s.registry[r] == ch
    case Closing(d, _, ch, _) => LastOffer(q, d, ch) && r in s.registry && s.registry[r] == ch
    case _ => true
  }

  ghost predicate SearchOk(s: State, r: Ride)
  {
    r in s.searches ==>
      var q := s.searches[r];
      OffersOk(s.channels, r, q) && PhaseOk(s, r, q) && (r in s.registry ==> q.phase.Listening())
  }

  ghost predicate Sound(s: State)
  {
    && (forall r :: SearchOk(s, r))
    && (forall r | r in s.registry :: r in s.searches)
  }

  /** What a step may do to the channels: make new ones, and fill or empty their slots. */
  ghost predicate Grown(before: seq<Channel>, after: seq<Channel>)
  {
    |before| <= |after|
    && forall k :: 0 <= k < |before| ==>
         after[k].ride == before[k].ride && after[k].driver == before[k].driver
  }

  lemma OthersStayOk(s: State, t: State, r: Ride)
    requires SearchOk(s, r) && Grown(s.channels, t.channels)
    requires r in s.searches ==> r in t.searches && t.searches[r] == s.searches[r]
    requires r in t.searches ==> r in s.searches
    requires r in s.registry <==> r in t.registry
    requires r in s.registry ==> t.registry[r] == s.registry[r]
    ensures SearchOk(t, r)
  {
    if r in s.searches {
      var q := s.searches[r];
      assert forall i | 0 <= i < |q.offers| :: OfferOk(s.channels, r, q, q.offers[i]);
      assert OffersOk(t.channels, r, q);
    }
  }

  lemma ChannelsGrow(cfg: Config, s: State, e: Event)
    ensures Grown(s.channels, Step(cfg, s, e).channels)
  {
    if !e.Send? && !(e.Own? && (e.act.Receive? || e.act.Open?)) {
      assert Step(cfg, s, e).channels == s.channels;
    }
  }

  predicate SameFor(s: State, t: State, r: Ride)
  {
    && (r in s.registry <==> r in t.registry)
    && (r in s.registry ==> t.registry[r] == s.registry[r])
    && (r in s.searches <==> r in t.searches)
    && (r in s.searches ==> t.searches[r] == s.searches[r])
  }

  lemma TryFrame(s: State, x: Ride, q: Search, connected: bool, redis: Redis, r: Ride)
    requires x in s.searches && x != r
    ensures SameFor(s, TryCandidate(s, x, q, connected, redis), r)
  {
  }

  lemma OpenFrame(s: State, x: Ride, q: Search, r: Ride)
    requires x in s.searches && x != r && q.phase.Locked?
    ensures SameFor(s, OpenChannel(s, x, q), r)
  {
  }

  lemma OwnFrame(cfg: Config, s: State, x: Ride, act: Action, r: Ride)
    requires x != r
    ensures SameFor(s, OwnStep(cfg, s, x, act), r)
  {
    if x in s.searches {
      var q, t := s.searches[x], OwnStep(cfg, s, x, act);
      if act.TryNext? {
        TryFrame(s, x, q, act.connected, act.redis, r);
      } else if act.Open? {
        if q.phase.Locked? { OpenFrame(s, x, q, r); }
      } else {
        assert t.registry == s.registry || t.registry == s.registry - {x};
        assert t.searches == s.searches || t.searches == s.searches[x := t.searches[x]];
      }
    }
  }

  /** A step of one search leaves the others alone, and so do the handlers and the clock. */
  lemma StepFrame(cfg: Config, s: State, e: Event, r: Ride)
    requires !(e.Begin? && e.ride == r) && !(e.Own? && e.ride == r)
    ensures SameFor(s, Step(cfg, s, e), r)
  {
    if e.Own? {
      OwnFrame(cfg, s, e.ride, e.act, r);
    }
  }

  // Each of a search's own steps keeps its record in order.

  lemma TryOk(s: State, r: Ride, connected: bool, redis: Redis)
    requires SearchOk(s, r) && r in s.searches && s.searches[r].phase.Trying?
    ensures SearchOk(TryCandidate(s, r, s.searches[r], connected, redis), r)
  {
    var q := s.searches[r];
    var t := TryCandidate(s, r, q, connected, redis);
    var u := t.searches[r];
    assert t.registry == s.registry && t.channels == s.channels && u.offers == q.offers && q.tried <= u.tried;
    assert forall i | 0 <= i < |q.offers| :: OfferOk(s.channels, r, q, q.offers[i]);
    assert OffersOk(t.channels, r, u);
  }

  lemma OpenOk(s: State, r: Ride)
    requires SearchOk(s, r) && r in s.searches && s.searches[r].phase.Locked?
    ensures SearchOk(OpenChannel(s, r, s.searches[r]), r)
  {
    var q := s.searches[r];
    var t := OpenChannel(s, r, q);
    var u := t.searches[r];
    forall i | 0 <= i < |u.offers| ensures OfferOk(t.channels, r, u, u.offers[i]) {
      if i < |q.offers| {
        assert OfferOk(s.channels, r, q, q.offers[i]);
      }
    }
    assert OffersOk(t.channels, r, u);
  }

  lemma ReceiveOk(s: State, r: Ride)
    requires SearchOk(s, r) && r in s.searches && s.searches[r].phase.Waiting?
    ensures SearchOk(ReceiveSignal(s, r, s.searches[r]), r)
  {
    var q := s.searches[r];
    var p := q.phase;
    var t := ReceiveSignal(s, r, q);
    var u := t.searches[r];
    assert u.offers == q.offers && u.tried == q.tried && t.registry == s.registry;
    if p.ch < |s.channels| && s.channels[p.ch].slot.Some? {
      assert t.channels == s.channels[p.ch := s.channels[p.ch].(slot := None)];
      forall i | 0 <= i < |u.offers| ensures OfferOk(t.channels, r, u, u.offers[i]) {
        assert OfferOk(s.channels, r, q, q.offers[i]);
      }
      assert OffersOk(t.channels, r, u);
    }
  }

  lemma MovePhaseOk(cfg: Config, s: State, r: Ride, act: Action)
    requires SearchOk(s, r) && r in s.searches
    requires !act.TryNext? && !act.Open? && !act.Receive?
    ensures var t := OwnStep(cfg, s, r, act);
            PhaseOk(t, r, t.searches[r]) && (r in t.registry ==> t.searches[r].phase.Listening())
  {
  }

  lemma MoveOk(cfg: Config, s: State, r: Ride, act: Action)
    requires SearchOk(s, r) && r in s.searches
    requires !act.TryNext? && !act.Open? && !act.Receive?
    ensures SearchOk(OwnStep(cfg, s, r, act), r)
  {
    var q := s.searches[r];
    var t := OwnStep(cfg, s, r, act);
    var u := t.searches[r];
    MovePhaseOk(cfg, s, r, act);
    assert t.channels == s.channels && u.offers == q.offers && u.tried == q.tried;
    assert OffersOk(t.channels, r, u) by {
      assert forall i | 0 <= i < |q.offers| :: OfferOk(s.channels, r, q, q.offers[i]);
    }
  }

  lemma OwnOk(cfg: Config, s: State, r: Ride, act: Action)
    requires Sound(s)
    ensures SearchOk(OwnStep(cfg, s, r, act), r)
  {
    assert SearchOk(s, r);
    if r in s.searches {
      if act.TryNext? {
        if s.searches[r].phase.Trying? { TryOk(s, r, act.connected, act.redis); }
      } else if act.Open? {
        if s.searches[r].phase.Locked? { OpenOk(s, r); }
      } else if act.Receive? {
        if s.searches[r].phase.Waiting? { ReceiveOk(s, r); }
      } else {
        MoveOk(cfg, s, r, act);
      }
    }
  }

  lemma SearchStaysOk(cfg: Config, s: State, e: Event, r: Ride)
    requires Sound(s)
    ensures SearchOk(Step(cfg, s, e), r)
  {
    if e.Own? && e.ride == r {
      OwnOk(cfg, s, r, e.act);
    } else {
      assert SearchOk(s, r);
      if !e.Begin? || e.ride != r {
        ChannelsGrow(cfg, s, e);
        StepFrame(cfg, s, e, r);
        OthersStayOk(s, Step(cfg, s, e), r);
      }
    }
  }

  lemma OwnOffersOnlyGrow(cfg: Config, s: State, r: Ride, act: Action)
    requires r in s.searches
    ensures var t := OwnStep(cfg, s, r, act);
            && r in t.searches && s.searches[r].offers <= t.searches[r].offers
            && (s.searches[r].phase.Over() ==> t.searches[r] == s.searches[r])
  {
  }

  lemma OffersOnlyGrow(cfg: Config, s: State, e: Event, r: Ride)
    requires r in s.searches
    ensures var t := Step(cfg, s, e);
            && r in t.searches && s.searches[r].offers <= t.searches[r].offers
            && (s.searches[r].phase.Over() ==> t.searches[r] == s.searches[r])
  {
    if e.Own? && e.ride == r {
      OwnOffersOnlyGrow(cfg, s, r, e.act);
    } else if !(e.Begin? && e.ride == r) {
      StepFrame(cfg, s, e, r);
    }
  }

  lemma RegisteredIsKnown(cfg: Config, s: State, e: Event, r: Ride)
    requires Sound(s)
    ensures r in Step(cfg, s, e).registry ==> r in Step(cfg, s, e).searches
  {
    if r in s.searches {
      OffersOnlyGrow(cfg, s, e, r);
    } else if !(e.Begin? && e.ride == r) && !(e.Own? && e.ride == r) {
      StepFrame(cfg, s, e, r);
    }
  }

  lemma StepSound(cfg: Config, s: State, e: Event)
    requires Sound(s)
    ensures Sound(Step(cfg, s, e))
  {
    ChannelsGrow(cfg, s, e);
    var t := Step(cfg, s, e);
    forall r ensures SearchOk(t, r) {
      SearchStaysOk(cfg, s, e, r);
    }
    forall r ensures r in t.registry ==> r in t.searches {
      RegisteredIsKnown(cfg, s, e, r);
    }
  }

  lemma {:induction false} RunSound(cfg: Config, events: seq<Event>)
    ensures Sound(Run(cfg, events))
  {
    if events != [] {
      var n := |events| - 1;
      RunSound(cfg, events[..n]);
      StepSound(cfg, Run(cfg, events[..n]), events[n]);
    }
  }

  // Runs: what one search's record says at one point of a run stays true of all later points.

  function At(cfg: Config, events: seq<Event>, i: nat): State
    requires i <= |events|
  {
    Run(cfg, events[..i])
  }

  lemma AtNext(cfg: Config, events: seq<Event>, i: nat)
    requires i < |events|
    ensures At(cfg, events, i + 1) == Step(cfg, At(cfg, events, i), events[i])
  {
    assert events[..i + 1][..i] == events[..i];
  }

  lemma {:induction false} SearchEvolves(cfg: Config, events: seq<Event>, i: nat, j: nat, r: Ride)
    requires i <= j <= |events| && r in At(cfg, events, i).searches
    ensures var s, t := At(cfg, events, i), At(cfg, events, j);
            && r in t.searches && s.searches[r].offers <= t.searches[r].offers
            && (s.searches[r].phase.Over() ==> t.searches[r] == s.searches[r])
    decreases j
  {
    if i < j {
      SearchEvolves(cfg, events, i, j - 1, r);
      AtNext(cfg, events, j - 1);
      OffersOnlyGrow(cfg, At(cfg, events, j - 1), events[j - 1], r);
    }
  }

  /** At step i of the run the search puts its ride to driver d: the request goes out and the channel
      for the answer is stored. */
  ghost predicate OffersTo(cfg: Config, events: seq<Event>, i: nat, r: Ride, d: Driver)
  {
    i < |events| && events[i] == Own(r, Open)
    && r in At(cfg, events, i).searches && At(cfg, events, i).searches[r].phase.Locked?
    && At(cfg, events, i).searches[r].phase.d == d
  }

  /** In every run a driver is offered one ride at most once. */
  lemma OfferedOnce(cfg: Config, events: seq<Event>, i: nat, j: nat, r: Ride, d: Driver)
    requires OffersTo(cfg, events, i, r, d) && OffersTo(cfg, events, j, r, d)
    ensures i == j
  {
    if i < j {
      OfferedLater(cfg, events, i, j, r, d);
    } else if j < i {
      OfferedLater(cfg, events, j, i, r, d);
    }
  }

  lemma OfferedLater(cfg: Config, events: seq<Event>, i: nat, j: nat, r: Ride, d: Driver)
    requires OffersTo(cfg, events, i, r, d) && i < j < |events|
    ensures !OffersTo(cfg, events, j, r, d)
  {
    var s, t := At(cfg, events, i + 1), At(cfg, events, j);
    AtNext(cfg, events, i);
    var n := |At(cfg, events, i).searches[r].offers|;
    assert s.searches[r].offers[n].driver == d;
    SearchEvolves(cfg, events, i + 1, j, r);
    assert t.searches[r].offers[n].driver == d;
    RunSound(cfg, events[..j]);
    assert SearchOk(t, r);
  }

  /** Step i of the run: a handler finds channel ch under the ride and will send `sig` on it. */
  ghost predicate HandlerLoads(cfg: Config, events: seq<Event>, i: nat, ch: nat, sig: Signal)
  {
    i < |events| && events[i].Load? && events[i].sig == sig
    && events[i].ride in At(cfg, events, i).registry && At(cfg, events, i).registry[events[i].ride] == ch
  }

  ghost predicate CameFromHandler(cfg: Config, events: seq<Event>, ch: nat, sig: Signal)
  {
    exists i: nat :: HandlerLoads(cfg, events, i, ch, sig)
  }

  ghost predicate CallsTraced(cfg: Config, events: seq<Event>)
  {
    var s := Run(cfg, events);
    forall c | c in s.calls :: CameFromHandler(cfg, events, s.calls[c].ch, s.calls[c].sig)
  }

  lemma StillFromHandler(cfg: Config, events: seq<Event>, ch: nat, sig: Signal)
    requires events != [] && CameFromHandler(cfg, events[..|events| - 1], ch, sig)
    ensures CameFromHandler(cfg, events, ch, sig)
  {
    var n := |events| - 1;
    var i: nat :| HandlerLoads(cfg, events[..n], i, ch, sig);
    assert events[..n][..i] == events[..i];
    assert HandlerLoads(cfg, events, i, ch, sig);
  }

  lemma OwnKeepsCalls(cfg: Config, s: State, r: Ride, act: Action)
    ensures OwnStep(cfg, s, r, act).calls == s.calls
  {
  }

  lemma CallsComeFromLoads(cfg: Config, s: State, e: Event, c: nat)
    requires c in Step(cfg, s, e).calls
    ensures var call := Step(cfg, s, e).calls[c];
            || (c in s.calls && s.calls[c] == call)
            || (e.Load? && e.sig == call.sig && e.ride in s.registry && s.registry[e.ride] == call.ch)
  {
    if e.Own? {
      OwnKeepsCalls(cfg, s, e.ride, e.act);
    }
  }

  lemma {:induction false} CallsAreTraced(cfg: Config, events: seq<Event>)
    ensures CallsTraced(cfg, events)
  {
    if events != [] {
      var n := |events| - 1;
      var s, e := Run(cfg, events[..n]), events[n];
      var t := Step(cfg, s, e);
      CallsAreTraced(cfg, events[..n]);
      forall c | c in t.calls ensures CameFromHandler(cfg, events, t.calls[c].ch, t.calls[c].sig) {
        CallsComeFromLoads(cfg, s, e, c);
        if c in s.calls && s.calls[c] == t.calls[c] {
          StillFromHandler(cfg, events, t.calls[c].ch, t.calls[c].sig);
        } else {
          assert HandlerLoads(cfg, events, n, t.calls[c].ch, t.calls[c].sig);
        }
      }
    }
  }

  /** At step i a handler, acting for driver d or for a caller it could not name, finds the ride's
      channel while the ride is on offer to d and nobody else; what it will send is an accept. */
  ghost predicate AcceptsOwnOffer(cfg: Config, events: seq<Event>, i: nat, r: Ride, d: Driver)
  {
    && i < |events| && events[i].Load? && events[i].ride == r && AcceptBy(events[i].sig, d)
    && var s := At(cfg, events, i);
       r in s.searches && s.searches[r].phase.Listening() && s.searches[r].phase.d == d
  }

  /** At step k the call's signal goes into the empty slot of channel ch. */
  ghost predicate Delivered(cfg: Config, events: seq<Event>, k: nat, ch: nat, sig: Signal)
  {
    && k < |events| && events[k].Send?
    && var s := At(cfg, events, k);
       events[k].call in s.calls && s.calls[events[k].call] == Call(ch, sig) && ch < |s.channels| && s.channels[ch].slot == None
  }

  /** At step j the search, waiting for d to answer its offer on channel ch, takes the accept `sig` out of
      the channel's slot. */
  ghost predicate Took(cfg: Config, events: seq<Event>, j: nat, r: Ride, d: Driver, ch: nat, sig: Signal)
  {
    && j < |events| && events[j] == Own(r, Receive) && AcceptBy(sig, d)
    && var s := At(cfg, events, j);
       && r in s.searches && s.searches[r].phase.Waiting? && s.searches[r].phase.d == d && s.searches[r].phase.ch == ch
       && ch < |s.channels| && s.channels[ch].slot == Some(sig)
  }

  /** A handler finds the channel of the offer to d, gets its accept into it, and the search takes it out. */
  ghost predicate Handshake(cfg: Config, events: seq<Event>, r: Ride, d: Driver, i: nat, k: nat, j: nat, ch: nat, sig: Signal)
  {
    && i < k < j
    && AcceptsOwnOffer(cfg, events, i, r, d) && HandlerLoads(cfg, events, i, ch, sig)
    && Delivered(cfg, events, k, ch, sig)
    && Took(cfg, events, j, r, d, ch, sig)
  }

  ghost predicate WasDelivered(cfg: Config, events: seq<Event>, ch: nat, sig: Signal)
  {
    exists k: nat :: Delivered(cfg, events, k, ch, sig)
  }

  predicate HoldsSignal(s: State, ch: nat, sig: Signal)
  {
    ch < |s.channels| && s.channels[ch].slot == Some(sig)
  }

  /** Only a send fills a slot. */
  lemma SlotsComeFromCalls(cfg: Config, s: State, e: Event, ch: nat, sig: Signal)
    requires HoldsSignal(Step(cfg, s, e), ch, sig) && !HoldsSignal(s, ch, sig)
    ensures e.Send? && e.call in s.calls && s.calls[e.call] == Call(ch, sig) && ch < |s.channels| && s.channels[ch].slot == None
  {
    if e.Own? {
      OwnFillsNoSlot(cfg, s, e.ride, e.act, ch, sig);
    }
  }

  lemma OwnFillsNoSlot(cfg: Config, s: State, r: Ride, act: Action, ch: nat, sig: Signal)
    requires HoldsSignal(OwnStep(cfg, s, r, act), ch, sig)
    ensures HoldsSignal(s, ch, sig)
  {
    var t := OwnStep(cfg, s, r, act);
    if act.Receive? {
    } else if act.Open? {
    } else {
      assert t.channels == s.channels;
    }
  }

  lemma {:induction false} SlotsAreDelivered(cfg: Config, events: seq<Event>, ch: nat, sig: Signal)
    requires HoldsSignal(Run(cfg, events), ch, sig)
    ensures WasDelivered(cfg, events, ch, sig)
  {
    if events != [] {
      var n := |events| - 1;
      var s := Run(cfg, events[..n]);
      if HoldsSignal(s, ch, sig) {
        SlotsAreDelivered(cfg, events[..n], ch, sig);
        var k: nat :| Delivered(cfg, events[..n], k, ch, sig);
        assert events[..n][..k] == events[..k];
        assert Delivered(cfg, events, k, ch, sig);
      } else {
        SlotsComeFromCalls(cfg, s, events[n], ch, sig);
        assert Delivered(cfg, events, n, ch, sig);
      }
    }
  }

  /** The search has d's accept. */
  predicate AcceptedBy(s: State, r: Ride, d: Driver)
  {
    && r in s.searches
    && var p := s.searches[r].phase;
       (p.Answered() && p.accepted && p.d == d) || p == Assigned(d)
  }

  ghost predicate TookOne(cfg: Config, events: seq<Event>, r: Ride, d: Driver)
  {
    exists j: nat, ch: nat, sig: Signal :: Took(cfg, events, j, r, d, ch, sig)
  }

  lemma OwnAccepts(cfg: Config, s: State, r: Ride, act: Action, d: Driver)
    requires AcceptedBy(OwnStep(cfg, s, r, act), r, d) && !AcceptedBy(s, r, d)
    ensures act.Receive? && r in s.searches && s.searches[r].phase.Waiting?
  {
  }

  lemma ReceiveAccepts(s: State, r: Ride, d: Driver)
    requires r in s.searches && s.searches[r].phase.Waiting? && AcceptedBy(ReceiveSignal(s, r, s.searches[r]), r, d)
    ensures s.searches[r].phase.d == d
    ensures var ch := s.searches[r].phase.ch;
            ch < |s.channels| && s.channels[ch].slot.Some? && AcceptBy(s.channels[ch].slot.value, d)
  {
  }

  /** It got it by receiving it. */
  lemma AcceptsAreReceived(cfg: Config, s: State, e: Event, r: Ride, d: Driver)
    requires AcceptedBy(Step(cfg, s, e), r, d) && !AcceptedBy(s, r, d)
    ensures e == Own(r, Receive) && r in s.searches && s.searches[r].phase.Waiting? && s.searches[r].phase.d == d
    ensures var ch := s.searches[r].phase.ch;
            ch < |s.channels| && s.channels[ch].slot.Some? && AcceptBy(s.channels[ch].slot.value, d)
  {
    if e.Own? && e.ride == r {
      OwnAccepts(cfg, s, r, e.act, d);
      ReceiveAccepts(s, r, d);
    } else if !(e.Begin? && e.ride == r) {
      StepFrame(cfg, s, e, r);
    }
  }

  lemma {:induction false} AcceptsAreTaken(cfg: Config, events: seq<Event>, r: Ride, d: Driver)
    requires AcceptedBy(Run(cfg, events), r, d)
    ensures TookOne(cfg, events, r, d)
  {
    var n := |events| - 1;
    var s := Run(cfg, events[..n]);
    if AcceptedBy(s, r, d) {
      AcceptsAreTaken(cfg, events[..n], r, d);
      var j: nat, ch: nat, sig: Signal :| Took(cfg, events[..n], j, r, d, ch, sig);
      assert events[..n][..j] == events[..j];
      assert Took(cfg, events, j, r, d, ch, sig);
    } else {
      AcceptsAreReceived(cfg, s, events[n], r, d);
      var ch := s.searches[r].phase.ch;
      assert Took(cfg, events, n, r, d, ch, s.channels[ch].slot.value);
    }
  }

  /** What is taken from an offer's channel had been sent into it, and before that a handler had found the
      channel while that offer was on. */
  lemma TakenWasOffered(cfg: Config, events: seq<Event>, j: nat, r: Ride, d: Driver, ch: nat, sig: Signal) returns (i: nat, k: nat)
    requires Took(cfg, events, j, r, d, ch, sig)
    ensures Handshake(cfg, events, r, d, i, k, j, ch, sig)
  {
    var upTo := events[..j];
    SlotsAreDelivered(cfg, upTo, ch, sig);
    k :| Delivered(cfg, upTo, k, ch, sig);
    assert upTo[..k] == events[..k];
    CallsAreTraced(cfg, events[..k]);
    assert CameFromHandler(cfg, events[..k], ch, sig);
    i :| HandlerLoads(cfg, events[..k], i, ch, sig);
    assert events[..k][..i] == events[..i] == upTo[..i];
    ChannelKeepsItsOffer(cfg, upTo, i, events[i].ride, ch);
    RunSound(cfg, upTo);
    WaitingOffer(Run(cfg, upTo), r, d, ch);
  }

  lemma WaitingOffer(s: State, r: Ride, d: Driver, ch: nat)
    requires Sound(s) && r in s.searches && s.searches[r].phase.Waiting?
    requires s.searches[r].phase.d == d && s.searches[r].phase.ch == ch
    ensures ch < |s.channels| && s.channels[ch].ride == r && s.channels[ch].driver == d
  {
    assert SearchOk(s, r);
    var q := s.searches[r];
    assert OfferOk(s.channels, r, q, q.offers[|q.offers| - 1]);
  }

  /** In every run an assigned driver has accepted the offer made to himself: a handler found the channel
      while the ride was on offer to him and nobody else, got the accept into it, and the search, still
      waiting for him, took it from there. */
  lemma AssignedDriverAccepted(cfg: Config, events: seq<Event>, r: Ride, d: Driver)
    requires r in Run(cfg, events).searches && Run(cfg, events).searches[r].phase == Assigned(d)
    ensures exists i: nat, k: nat, j: nat, ch: nat, sig: Signal :: Handshake(cfg, events, r, d, i, k, j, ch, sig)
  {
    AcceptsAreTaken(cfg, events, r, d);
    var j: nat, ch: nat, sig: Signal :| Took(cfg, events, j, r, d, ch, sig);
    var i, k := TakenWasOffered(cfg, events, j, r, d, ch, sig);
  }

  // What an answer leads to: the signal that sits in the slot decides, whatever else goes on.

  /** No step of the ride's own search. */
  predicate Aside(events: seq<Event>, r: Ride)
  {
    forall e <- events :: !(e.Own? && e.ride == r)
  }

  lemma AsideKeepsSearch(cfg: Config, s: State, e: Event, r: Ride)
    requires r in s.searches && !(e.Own? && e.ride == r)
    ensures r in Step(cfg, s, e).searches && Step(cfg, s, e).searches[r] == s.searches[r]
  {
    if !(e.Begin? && e.ride == r) {
      StepFrame(cfg, s, e, r);
    }
  }

  lemma {:induction false} AsideKeepsSearchOfRun(cfg: Config, s: State, events: seq<Event>, r: Ride)
    requires r in s.searches && Aside(events, r)
    ensures r in RunFrom(cfg, s, events).searches && RunFrom(cfg, s, events).searches[r] == s.searches[r]
  {
    if events != [] {
      var n := |events| - 1;
      assert events[n] in events && forall e | e in events[..n] :: e in events;
      AsideKeepsSearchOfRun(cfg, s, events[..n], r);
      AsideKeepsSearch(cfg, RunFrom(cfg, s, events[..n]), events[n], r);
    }
  }

  /** The search waits for d on channel ch, and the slot holds an answer. */
  ghost predicate Answering(s: State, r: Ride, d: Driver, ch: nat, sig: Signal)
  {
    && r in s.searches && s.searches[r].phase.Waiting? && s.searches[r].phase.d == d && s.searches[r].phase.ch == ch
    && HoldsSignal(s, ch, sig)
  }

  /** No other search waits on the channel. */
  lemma OtherChannel(s: State, r: Ride, d: Driver, ch: nat, x: Ride)
    requires Sound(s) && r in s.searches && s.searches[r].phase.Waiting? && s.searches[r].phase.d == d && s.searches[r].phase.ch == ch
    requires x != r && x in s.searches && s.searches[x].phase.Waiting?
    ensures s.searches[x].phase.ch != ch
  {
    WaitingOffer(s, r, d, ch);
    WaitingOffer(s, x, s.searches[x].phase.d, s.searches[x].phase.ch);
  }

  lemma OwnKeepsAnswer(cfg: Config, s: State, x: Ride, act: Action, ch: nat, sig: Signal)
    requires HoldsSignal(s, ch, sig)
    requires x in s.searches && s.searches[x].phase.Waiting? ==> s.searches[x].phase.ch != ch
    ensures HoldsSignal(OwnStep(cfg, s, x, act), ch, sig)
  {
    if act.Receive? {
    } else if act.Open? {
    } else {
      assert OwnStep(cfg, s, x, act).channels == s.channels;
    }
  }

  lemma AsideKeepsAnswer(cfg: Config, s: State, e: Event, r: Ride, d: Driver, ch: nat, sig: Signal)
    requires Sound(s) && Answering(s, r, d, ch, sig) && !(e.Own? && e.ride == r)
    ensures Answering(Step(cfg, s, e), r, d, ch, sig)
  {
    AsideKeepsSearch(cfg, s, e, r);
    if e.Own? {
      if e.ride in s.searches && s.searches[e.ride].phase.Waiting? {
        OtherChannel(s, r, d, ch, e.ride);
      }
      OwnKeepsAnswer(cfg, s, e.ride, e.act, ch, sig);
    }
  }

  lemma {:induction false} AsideKeepsAnswerOfRun(cfg: Config, s: State, events: seq<Event>, r: Ride, d: Driver, ch: nat, sig: Signal)
    requires Sound(s) && Answering(s, r, d, ch, sig) && Aside(events, r)
    ensures Sound(RunFrom(cfg, s, events)) && Answering(RunFrom(cfg, s, events), r, d, ch, sig)
  {
    if events != [] {
      var n := |events| - 1;
      assert events[n] in events && forall e | e in events[..n] :: e in events;
      AsideKeepsAnswerOfRun(cfg, s, events[..n], r, d, ch, sig);
      AsideKeepsAnswer(cfg, RunFrom(cfg, s, events[..n]), events[n], r, d, ch, sig);
      StepSound(cfg, RunFrom(cfg, s, events[..n]), events[n]);
    }
  }

  /** The answer of the driver himself, or of a caller that does not say who it is. */
  predicate MeantFor(sig: Signal, d: Driver)
  {
    sig.driver == None || sig.driver == Some(d)
  }

  /** Receiving empties the slot; an answer of the driver's ends the wait, and another's does not. */
  lemma ReceivedAnswer(cfg: Config, s: State, r: Ride, d: Driver, ch: nat, sig: Signal)
    requires Answering(s, r, d, ch, sig)
    ensures var q, t := s.searches[r], Step(cfg, s, Own(r, Receive));
            && ch < |t.channels| && t.channels[ch].slot == None
            && r in t.searches
            && t.searches[r] == (if MeantFor(sig, d) then q.(phase := Closing(d, q.phase.since, ch, sig.accepted)) else q)
  {
  }

  /** From there three steps, with anything at all between them. */
  lemma ClosedOffer(cfg: Config, s: State, r: Ride, w2: seq<Event>, w3: seq<Event>, x: bool, w4: seq<Event>)
    requires r in s.searches && s.searches[r].phase.Closing? && Aside(w2, r) && Aside(w3, r) && Aside(w4, r)
    ensures var q := s.searches[r]; var t := Answered(cfg, s, r, w2, w3, x, w4);
            && r in t.searches
            && t.searches[r] == q.(phase := if q.phase.accepted then Assigned(q.phase.d) else Trying)
  {
    AsideKeepsSearchOfRun(cfg, s, w2, r);
    var s2 := Step(cfg, RunFrom(cfg, s, w2), Own(r, CloseChannel));
    AsideKeepsSearchOfRun(cfg, s2, w3, r);
    var s3 := Step(cfg, RunFrom(cfg, s2, w3), Own(r, Unlock(x)));
    AsideKeepsSearchOfRun(cfg, s3, w4, r);
  }

  lemma StillWaiting(cfg: Config, s: State, r: Ride, w2: seq<Event>, w3: seq<Event>, x: bool, w4: seq<Event>)
    requires r in s.searches && s.searches[r].phase.Waiting? && Aside(w2, r) && Aside(w3, r) && Aside(w4, r)
    ensures var t := Answered(cfg, s, r, w2, w3, x, w4); r in t.searches && t.searches[r] == s.searches[r]
  {
    AsideKeepsSearchOfRun(cfg, s, w2, r);
    var s2 := Step(cfg, RunFrom(cfg, s, w2), Own(r, CloseChannel));
    AsideKeepsSearchOfRun(cfg, s2, w3, r);
    var s3 := Step(cfg, RunFrom(cfg, s2, w3), Own(r, Unlock(x)));
    AsideKeepsSearchOfRun(cfg, s3, w4, r);
  }

  /** The search's next three steps after a receipt. */
  function Answered(cfg: Config, s: State, r: Ride, w2: seq<Event>, w3: seq<Event>, x: bool, w4: seq<Event>): State
  {
    var s2 := Step(cfg, RunFrom(cfg, s, w2), Own(r, CloseChannel));
    var s3 := Step(cfg, RunFrom(cfg, s2, w3), Own(r, Unlock(x)));
    Step(cfg, RunFrom(cfg, s3, w4), Own(r, AfterOffer))
  }

  /** In every run: while the search waits for d and the slot holds an answer, let anything at all happen
      between its own next four steps. Then d is assigned if and only if the answer is an accept of his,
      the search goes on to the next candidate if it is a decline of his, and it is waiting as before if
      the answer names somebody else. */
  lemma AnswerDecides(cfg: Config, before: seq<Event>, w1: seq<Event>, w2: seq<Event>, w3: seq<Event>, w4: seq<Event>,
                      x: bool, r: Ride, d: Driver, ch: nat, sig: Signal)
    requires Answering(Run(cfg, before), r, d, ch, sig)
    requires Aside(w1, r) && Aside(w2, r) && Aside(w3, r) && Aside(w4, r)
    ensures var q := Run(cfg, before).searches[r];
            var s1 := Step(cfg, RunFrom(cfg, Run(cfg, before), w1), Own(r, Receive));
            var t := Answered(cfg, s1, r, w2, w3, x, w4);
            && r in t.searches
            && t.searches[r] == q.(phase := if AcceptBy(sig, d) then Assigned(d) else if MeantFor(sig, d) then Trying else q.phase)
  {
    var s := Run(cfg, before);
    RunSound(cfg, before);
    AsideKeepsSearchOfRun(cfg, s, w1, r);
    AsideKeepsAnswerOfRun(cfg, s, w1, r, d, ch, sig);
    ReceivedAnswer(cfg, RunFrom(cfg, s, w1), r, d, ch, sig);
    var s1 := Step(cfg, RunFrom(cfg, s, w1), Own(r, Receive));
    if MeantFor(sig, d) {
      ClosedOffer(cfg, s1, r, w2, w3, x, w4);
    } else {
      StillWaiting(cfg, s1, r, w2, w3, x, w4);
    }
  }

  ghost predicate Waits(s: State, r: Ride, d: Driver, ch: nat)
  {
    r in s.searches && s.searches[r].phase.Waiting? && s.searches[r].phase.d == d && s.searches[r].phase.ch == ch
  }

  /** A wait is ended by an answer meant for it and by its timer, and by nothing else. */
  lemma WaitEndsIff(cfg: Config, s: State, e: Event, r: Ride, d: Driver, ch: nat)
    requires Waits(s, r, d, ch) && ch < |s.channels|
    ensures var t, p := Step(cfg, s, e), s.searches[r].phase;
            && r in t.searches
            && (t.searches[r] != s.searches[r] <==>
                  || (e == Own(r, TimerFires) && p.startedAt + cfg.timeout <= s.now)
                  || (e == Own(r, Receive) && s.channels[ch].slot.Some? && MeantFor(s.channels[ch].slot.value, d)))
            && (e == Own(r, TimerFires) && t.searches[r] != s.searches[r] ==>
                  t.searches[r].phase == Closing(d, p.since, ch, false))
  {
    if !(e.Own? && e.ride == r) {
      AsideKeepsSearch(cfg, s, e, r);
    }
  }

  lemma AsideKeepsCall(cfg: Config, s: State, e: Event, c: nat)
    requires c in s.calls && e != Send(c)
    ensures c in Step(cfg, s, e).calls && Step(cfg, s, e).calls[c] == s.calls[c]
  {
    if e.Own? {
      OwnKeepsCalls(cfg, s, e.ride, e.act);
    }
  }

  lemma {:induction false} AsideKeepsCallOfRun(cfg: Config, s: State, events: seq<Event>, c: nat)
    requires c in s.calls && Send(c) !in events
    ensures c in RunFrom(cfg, s, events).calls && RunFrom(cfg, s, events).calls[c] == s.calls[c]
  {
    if events != [] {
      var n := |events| - 1;
      assert events[n] in events && forall e | e in events[..n] :: e in events;
      AsideKeepsCallOfRun(cfg, s, events[..n], c);
      AsideKeepsCall(cfg, RunFrom(cfg, s, events[..n]), events[n], c);
    }
  }

  /** A handler that looks the ride up while it waits for d gets its signal into the offer's slot: at
      whatever time it sends, if the offer is still waiting and no other signal sits there. */
  lemma AnswerArrives(cfg: Config, s: State, c: nat, r: Ride, sig: Signal, d: Driver, ch: nat, meanwhile: seq<Event>)
    requires Sound(s) && Waits(s, r, d, ch) && c !in s.calls && Send(c) !in meanwhile && Aside(meanwhile, r)
    requires var t := RunFrom(cfg, Step(cfg, s, Load(c, r, sig)), meanwhile); ch < |t.channels| && t.channels[ch].slot == None
    ensures var t := RunFrom(cfg, Step(cfg, s, Load(c, r, sig)), meanwhile); Answering(Step(cfg, t, Send(c)), r, d, ch, sig)
  {
    assert SearchOk(s, r);
    var s1 := Step(cfg, s, Load(c, r, sig));
    assert s1.calls[c] == Call(ch, sig) && s1.searches == s.searches;
    AsideKeepsSearchOfRun(cfg, s1, meanwhile, r);
    AsideKeepsCallOfRun(cfg, s1, meanwhile, c);
  }

  /** The first six steps of a search that ends well: found, locked, on offer, accepted. */
  predicate Accepting(es: seq<Event>, r: Ride, d: Driver, c: nat)
  {
    && |es| >= 6
    && es[0] == Begin(r) && es[1] == Own(r, NextRound([d])) && es[2] == Own(r, TryNext(true, Done))
    && es[3] == Own(r, Open) && es[4] == Load(c, r, Signal(Some(d), true)) && es[5] == Send(c)
  }

  lemma AcceptedRun(cfg: Config, es: seq<Event>, r: Ride, d: Driver, c: nat)
    requires cfg.maxAttempts > 0 && Accepting(es, r, d, c)
    ensures var s := At(cfg, es, 6);
            && Answering(s, r, d, 0, Signal(Some(d), true))
            && s.searches[r] == Search(1, Waiting(d, 0, 0, 0), [], {d}, [Offer(d, 0)])
  {
    OnOffer(cfg, es, r, d);
    var s := At(cfg, es, 4);
    RunSound(cfg, es[..4]);
    assert Waits(s, r, d, 0) && RunFrom(cfg, Step(cfg, s, es[4]), []) == Step(cfg, s, es[4]);
    AnswerArrives(cfg, s, c, r, Signal(Some(d), true), d, 0, []);
    AtNext(cfg, es, 4);
    AtNext(cfg, es, 5);
  }

  lemma LastSteps(cfg: Config, es: seq<Event>, r: Ride)
    requires |es| == 10
    requires es[6] == Own(r, Receive) && es[7] == Own(r, CloseChannel) && es[8] == Own(r, Unlock(true)) && es[9] == Own(r, AfterOffer)
    ensures Run(cfg, es) == Answered(cfg, Step(cfg, RunFrom(cfg, At(cfg, es, 6), []), Own(r, Receive)), r, [], [], true, [])
  {
    AtNext(cfg, es, 6);
    AtNext(cfg, es, 7);
    AtNext(cfg, es, 8);
    AtNext(cfg, es, 9);
    assert es[..10] == es;
  }

  /** A run from the start that ends with the driver assigned. */
  lemma AssignedRun(cfg: Config, es: seq<Event>, r: Ride, d: Driver, c: nat)
    requires cfg.maxAttempts > 0 && |es| == 10 && Accepting(es, r, d, c)
    requires es[6] == Own(r, Receive) && es[7] == Own(r, CloseChannel) && es[8] == Own(r, Unlock(true)) && es[9] == Own(r, AfterOffer)
    ensures r in Run(cfg, es).searches && Run(cfg, es).searches[r] == Search(1, Assigned(d), [], {d}, [Offer(d, 0)])
  {
    AcceptedRun(cfg, es, r, d, c);
    LastSteps(cfg, es, r);
    AnswerDecides(cfg, es[..6], [], [], [], [], true, r, d, 0, Signal(Some(d), true));
  }

  lemma OnOffer(cfg: Config, es: seq<Event>, r: Ride, d: Driver)
    requires cfg.maxAttempts > 0 && |es| >= 4
    requires es[0] == Begin(r) && es[1] == Own(r, NextRound([d])) && es[2] == Own(r, TryNext(true, Done)) && es[3] == Own(r, Open)
    ensures var s := At(cfg, es, 4);
            && r in s.searches && s.searches[r] == Search(1, Waiting(d, 0, 0, 0), [], {d}, [Offer(d, 0)])
            && s.channels == [Channel(r, d, None)] && s.calls == map[]
  {
    FirstLockIsTaken(cfg, es, r, d);
    AtNext(cfg, es, 3);
    assert At(cfg, es, 4) == OpenChannel(FirstLock(r, d), r, Search(1, Locked(d, 0), [], {d}, []));
  }

  /** A round begins with all it has found, ten drivers at most, in their order and one attempt is counted,
      unless there is none left. */
  lemma RoundBegins(cfg: Config, s: State, r: Ride, found: seq<Driver>)
    requires r in s.searches && s.searches[r].phase.Round? && |found| <= 10
    ensures var q, t := s.searches[r], Step(cfg, s, Own(r, NextRound(found)));
            && t.(searches := s.searches) == s && r in t.searches
            && t.searches[r] == (if q.attempt < cfg.maxAttempts then Search(q.attempt + 1, Trying, found, q.tried, q.offers)
                                 else q.(phase := GaveUp))
  {
  }

  /** A delete that does not reach Redis leaves the lock to run out. */
  lemma LockGoesIffExecuted(cfg: Config, s: State, r: Ride, executed: bool)
    requires r in s.searches && s.searches[r].phase.Unlocking?
    ensures var p, t := s.searches[r].phase, Step(cfg, s, Own(r, Unlock(executed)));
            && (p.d in t.locks <==> p.d in s.locks && !executed)
            && (forall d | d != p.d :: d in t.locks <==> d in s.locks)
            && (forall d | d in t.locks :: t.locks[d] == s.locks[d])
            && r in t.searches && t.searches[r].phase == Returned(p.d, p.ch, p.accepted)
  {
  }

  // Whom a round puts the ride to: the first of those it found who is connected, has not been tried, and is
  // on no other offer.

  predicate Available(s: State, r: Ride, d: Driver, online: set<Driver>)
    requires r in s.searches
  {
    d in online && d !in s.searches[r].tried && Free(s, d)
  }

  /** What a try comes to, whatever Redis does: the driver counts as tried if he was connected and new, he is
      locked if besides he was free and the command was carried out, and the ride goes to him only if the
      reply arrived too. A lost reply leaves him locked with no offer. */
  lemma TryComesTo(cfg: Config, s: State, r: Ride, connected: bool, redis: Redis)
    requires r in s.searches && s.searches[r].phase.Trying? && s.searches[r].queue != []
    ensures var q := s.searches[r]; var d := q.queue[0]; var t := Step(cfg, s, Own(r, TryNext(connected, redis)));
            var isNew := connected && d !in q.tried; var locked := isNew && Free(s, d) && redis != Failed;
            && r in t.searches && t.searches[r].queue == q.queue[1..]
            && t.searches[r].tried == (if isNew then q.tried + {d} else q.tried)
            && t.locks == (if locked then s.locks[d := Lock(r, s.now + LOCK_TTL)] else s.locks)
            && t.searches[r].phase == (if locked && redis == Done then Locked(d, s.now) else Trying)
  {
  }

  /** The search tries the first n of its candidates; Redis answers. */
  function Tries(r: Ride, queue: seq<Driver>, online: set<Driver>, n: nat): seq<Event>
    requires n <= |queue|
  {
    seq(n, i requires 0 <= i < n => Own(r, TryNext(queue[i] in online, Done)))
  }

  /** What passing over a candidate leaves. */
  lemma PassedOver(cfg: Config, s: State, r: Ride, online: set<Driver>)
    requires r in s.searches && s.searches[r].phase.Trying? && s.searches[r].queue != []
    requires !Available(s, r, s.searches[r].queue[0], online)
    ensures var q := s.searches[r]; var t := Step(cfg, s, Own(r, TryNext(q.queue[0] in online, Done)));
            && t.locks == s.locks && t.now == s.now && r in t.searches
            && t.searches[r].phase == Trying && t.searches[r].queue == q.queue[1..]
            && t.searches[r].tried == (if q.queue[0] in online then q.tried + {q.queue[0]} else q.tried)
  {
    var q := s.searches[r];
    if q.queue[0] in q.tried {
      assert q.tried + {q.queue[0]} == q.tried;
    }
  }

  /** The candidates among the first n who have been marked as tried. */
  function Marked(queue: seq<Driver>, online: set<Driver>, n: nat): set<Driver>
    requires n <= |queue|
  {
    set i | 0 <= i < n && queue[i] in online :: queue[i]
  }

  lemma {:induction false} NoneAvailable(cfg: Config, s: State, r: Ride, online: set<Driver>, n: nat)
    requires r in s.searches && s.searches[r].phase.Trying? && n <= |s.searches[r].queue|
    requires forall i :: 0 <= i < n ==> !Available(s, r, s.searches[r].queue[i], online)
    ensures var q := s.searches[r]; var t := RunFrom(cfg, s, Tries(r, q.queue, online, n));
            && t.locks == s.locks && t.now == s.now && r in t.searches
            && t.searches[r].phase == Trying && t.searches[r].queue == q.queue[n..]
            && t.searches[r].tried == q.tried + Marked(q.queue, online, n)
  {
    var q := s.searches[r];
    if n > 0 {
      NoneAvailable(cfg, s, r, online, n - 1);
      var es := Tries(r, q.queue, online, n);
      assert es[..n - 1] == Tries(r, q.queue, online, n - 1);
      var t := RunFrom(cfg, s, es[..n - 1]);
      assert t.searches[r].queue[0] == q.queue[n - 1];
      PassedOver(cfg, t, r, online);
      MarkedNext(q.queue, online, n - 1);
    }
  }

  lemma MarkedNext(queue: seq<Driver>, online: set<Driver>, n: nat)
    requires n < |queue|
    ensures Marked(queue, online, n + 1) == Marked(queue, online, n) + (if queue[n] in online then {queue[n]} else {})
  {
  }

  /** The round comes to the first available candidate, locks him and nobody else; with none available it
      ends having locked nobody. */
  lemma FirstAvailableIsLocked(cfg: Config, s: State, r: Ride, online: set<Driver>, n: nat)
    requires r in s.searches && s.searches[r].phase.Trying? && n <= |s.searches[r].queue|
    requires forall i :: 0 <= i < n ==> !Available(s, r, s.searches[r].queue[i], online)
    requires n < |s.searches[r].queue| ==> Available(s, r, s.searches[r].queue[n], online)
    ensures var q := s.searches[r]; var t := RunFrom(cfg, s, Tries(r, q.queue, online, n));
            var found := n < |q.queue|;
            var u := Step(cfg, t, Own(r, TryNext(found && q.queue[n] in online, Done)));
            && r in u.searches
            && u.searches[r].phase == (if found then Locked(q.queue[n], s.now) else Round)
            && u.searches[r].queue == (if found then q.queue[n + 1..] else [])
            && u.locks == (if found then s.locks[q.queue[n] := Lock(r, s.now + LOCK_TTL)] else s.locks)
  {
    NoneAvailable(cfg, s, r, online, n);
    var q := s.searches[r];
    var t := RunFrom(cfg, s, Tries(r, q.queue, online, n));
    if n < |q.queue| {
      var d := q.queue[n];
      assert t.searches[r].queue[0] == d && t.searches[r].queue[1..] == q.queue[n + 1..];
      assert d !in Marked(q.queue, online, n);
      assert Free(t, d);
    }
  }

  /** A channel found under a ride was made for that ride's current offer, and is for ever after
      known as that offer's. */
  lemma ChannelKeepsItsOffer(cfg: Config, events: seq<Event>, i: nat, r: Ride, ch: nat)
    requires i <= |events| && r in At(cfg, events, i).registry && At(cfg, events, i).registry[r] == ch
    ensures var s, t := At(cfg, events, i), Run(cfg, events);
            && r in s.searches && s.searches[r].phase.Listening()
            && ch < |t.channels| && t.channels[ch].ride == r && t.channels[ch].driver == s.searches[r].phase.d
  {
    var s := At(cfg, events, i);
    RunSound(cfg, events[..i]);
    assert SearchOk(s, r);
    var q := s.searches[r];
    assert OfferOk(s.channels, r, q, q.offers[|q.offers| - 1]);
    ChannelsPersist(cfg, events, i, |events|);
    assert events[..|events|] == events;
  }

  lemma {:induction false} ChannelsPersist(cfg: Config, events: seq<Event>, i: nat, j: nat)
    requires i <= j <= |events|
    ensures Grown(At(cfg, events, i).channels, At(cfg, events, j).channels)
    decreases j
  {
    if i < j {
      ChannelsPersist(cfg, events, i, j - 1);
      AtNext(cfg, events, j - 1);
      RunSound(cfg, events[..j - 1]);
      ChannelsGrow(cfg, At(cfg, events, j - 1), events[j - 1]);
    }
  }

  /** A search is over when it stops or gives up between two rounds, or out of attempts, or with an accepted
      offer; nothing else ends it. */
  lemma EndsIff(cfg: Config, s: State, e: Event, r: Ride)
    requires r in s.searches && !s.searches[r].phase.Over()
    ensures var q, t := s.searches[r], Step(cfg, s, e);
            && r in t.searches
            && (t.searches[r].phase == Stopped <==> q.phase.Round? && e == Own(r, Quit(false)))
            && (t.searches[r].phase == GaveUp <==>
                  q.phase.Round? && (e == Own(r, Quit(true))
                    || (e.Own? && e.ride == r && e.act.NextRound? && |e.act.found| <= MAX_FOUND && q.attempt >= cfg.maxAttempts)))
            && (forall d :: t.searches[r].phase == Assigned(d) <==>
                  q.phase.Returned? && q.phase.accepted && q.phase.d == d && e == Own(r, AfterOffer))
  {
    if !(e.Own? && e.ride == r) {
      AsideKeepsSearch(cfg, s, e, r);
    } else {
      OwnEndsIff(cfg, s, r, e.act);
    }
  }

  lemma OwnEndsIff(cfg: Config, s: State, r: Ride, act: Action)
    requires r in s.searches && !s.searches[r].phase.Over()
    ensures var q, t := s.searches[r], OwnStep(cfg, s, r, act);
            && r in t.searches
            && (t.searches[r].phase == Stopped <==> q.phase.Round? && act == Quit(false))
            && (t.searches[r].phase == GaveUp <==>
                  q.phase.Round? && (act == Quit(true)
                    || (act.NextRound? && |act.found| <= MAX_FOUND && q.attempt >= cfg.maxAttempts)))
            && (t.searches[r].phase.Assigned? <==> q.phase.Returned? && q.phase.accepted && act == AfterOffer)
            && (t.searches[r].phase.Assigned? ==> t.searches[r].phase.d == q.phase.d)
  {
    if !act.Quit? && !act.NextRound? && !act.AfterOffer? {
      MidwayStep(cfg, s, r, act);
    }
  }

  lemma MidwayStep(cfg: Config, s: State, r: Ride, act: Action)
    requires r in s.searches && !s.searches[r].phase.Over() && !act.Quit? && !act.NextRound? && !act.AfterOffer?
    ensures var t := OwnStep(cfg, s, r, act); r in t.searches && !t.searches[r].phase.Over()
  {
  }

  // ---------------------------------------------------------------- C: every search ends

  /** Steps a round can take: one to begin it, six for each candidate, one to end it. */
  const ROUND := 2 + 6 * MAX_FOUND

  function Budget(cfg: Config): nat
  {
    ROUND * cfg.maxAttempts + 1
  }

  /** An upper bound on the steps a search has left, signals it must drop aside. */
  function Rank(cfg: Config, q: Search): nat
  {
    var later := if q.attempt < cfg.maxAttempts then ROUND * (cfg.maxAttempts - q.attempt) else 0;
    var rest := later + 6 * |q.queue| + 2;
    match q.phase
    case Round => later + 1
    case Trying => rest
    case Returned(_, _, _) => rest + 1
    case Unlocking(_, _, _, _) => rest + 2
    case Closing(_, _, _, _) => rest + 3
    case Waiting(_, _, _, _) => rest + 4
    case Locked(_, _) => rest + 5
    case _ => 0
  }

  /** Is a signal waiting in the channel of the current offer? */
  function Pending(s: State, r: Ride): nat
  {
    if r in s.searches && s.searches[r].phase.Waiting? && s.searches[r].phase.ch < |s.channels|
       && s.channels[s.searches[r].phase.ch].slot.Some? then 1 else 0
  }

  function Potential(cfg: Config, s: State, r: Ride): nat
  {
    if r in s.searches then Rank(cfg, s.searches[r]) + Pending(s, r) else Budget(cfg)
  }

  /** Is this a step of search r that does something? */
  function IsStep(cfg: Config, s: State, e: Event, r: Ride): nat
  {
    if e.Own? && e.ride == r && Step(cfg, s, e) != s then 1 else 0
  }

  /** Is this a signal getting into a channel of ride r? */
  function IsDelivery(s: State, e: Event, r: Ride): nat
  {
    if e.Send? && e.call in s.calls && s.calls[e.call].ch < |s.channels|
       && s.channels[s.calls[e.call].ch].ride == r && s.channels[s.calls[e.call].ch].slot == None then 1 else 0
  }

  lemma TryCosts(cfg: Config, s: State, r: Ride, connected: bool, redis: Redis)
    requires r in s.searches && s.searches[r].phase.Trying?
    ensures Potential(cfg, TryCandidate(s, r, s.searches[r], connected, redis), r) < Potential(cfg, s, r)
  {
  }

  lemma OwnStepCosts(cfg: Config, s: State, r: Ride, act: Action)
    requires r in s.searches && OwnStep(cfg, s, r, act) != s && !act.Receive?
    ensures Potential(cfg, OwnStep(cfg, s, r, act), r) < Potential(cfg, s, r)
  {
    if act.TryNext? {
      TryCosts(cfg, s, r, act.connected, act.redis);
    }
  }

  lemma ReceiveCosts(cfg: Config, s: State, r: Ride)
    requires r in s.searches && OwnStep(cfg, s, r, Receive) != s
    ensures Potential(cfg, OwnStep(cfg, s, r, Receive), r) < Potential(cfg, s, r)
  {
  }

  lemma PendingElsewhere(cfg: Config, s: State, e: Event, r: Ride)
    requires Sound(s) && !(e.Begin? && e.ride == r) && !(e.Own? && e.ride == r)
    ensures Pending(Step(cfg, s, e), r) <= Pending(s, r) + IsDelivery(s, e, r)
  {
    var t := Step(cfg, s, e);
    StepFrame(cfg, s, e, r);
    if Pending(t, r) == 1 && Pending(s, r) == 0 {
      assert SearchOk(s, r);
      var q := s.searches[r];
      assert OfferOk(s.channels, r, q, q.offers[|q.offers| - 1]);
      SlotFills(cfg, s, e, q.phase.ch);
    }
  }

  /** A slot is filled only by a delivery. */
  lemma SlotFills(cfg: Config, s: State, e: Event, ch: nat)
    requires ch < |s.channels| && s.channels[ch].slot == None
    requires ch < |Step(cfg, s, e).channels|
    ensures Step(cfg, s, e).channels[ch].slot == None || IsDelivery(s, e, s.channels[ch].ride) == 1
  {
    var t := Step(cfg, s, e);
    if e.Send? {
    } else if e.Own? && e.act.Receive? {
    } else if e.Own? && e.act.Open? {
    } else {
      assert t.channels == s.channels;
    }
  }

  lemma StepPotential(cfg: Config, s: State, e: Event, r: Ride)
    requires Sound(s)
    ensures IsStep(cfg, s, e, r) + Potential(cfg, Step(cfg, s, e), r) <= Potential(cfg, s, r) + IsDelivery(s, e, r)
  {
    if e.Own? && e.ride == r {
      if Step(cfg, s, e) != s {
        if e.act.Receive? { ReceiveCosts(cfg, s, r); } else { OwnStepCosts(cfg, s, r, e.act); }
      }
    } else if !e.Begin? || e.ride != r {
      StepFrame(cfg, s, e, r);
      PendingElsewhere(cfg, s, e, r);
    }
  }

  function StepsOf(cfg: Config, events: seq<Event>, r: Ride): nat
  {
    if events == [] then 0
    else
      var n := |events| - 1;
      StepsOf(cfg, events[..n], r) + IsStep(cfg, Run(cfg, events[..n]), events[n], r)
  }

  function DeliveriesTo(cfg: Config, events: seq<Event>, r: Ride): nat
  {
    if events == [] then 0
    else
      var n := |events| - 1;
      DeliveriesTo(cfg, events[..n], r) + IsDelivery(Run(cfg, events[..n]), events[n], r)
  }

  /** However a run goes, a search takes at most `ROUND * maxAttempts + 1` steps, and one more for
      each signal handlers get into its channels. */
  lemma {:induction false} SearchIsBounded(cfg: Config, events: seq<Event>, r: Ride)
    ensures StepsOf(cfg, events, r) + Potential(cfg, Run(cfg, events), r) <= Budget(cfg) + DeliveriesTo(cfg, events, r)
  {
    if events != [] {
      var n := |events| - 1;
      SearchIsBounded(cfg, events[..n], r);
      RunSound(cfg, events[..n]);
      StepPotential(cfg, Run(cfg, events[..n]), events[n], r);
    }
  }

  /** The step a search can always take; a wait for an answer ends with its timer. */
  function NextAction(p: Phase): Action
  {
    match p
    case Round => NextRound([])
    case Trying => TryNext(false, Failed)
    case Locked(_, _) => Open
    case Waiting(_, _, _, _) => TimerFires
    case Closing(_, _, _, _) => CloseChannel
    case Unlocking(_, _, _, _) => Unlock(false)
    case _ => AfterOffer
  }

  /** And it is never stuck: unless it is over, some time later its next step does something, whatever
      drivers and Redis do. With `SearchIsBounded`, every search ends. */
  lemma SearchIsNeverStuck(cfg: Config, s: State, r: Ride, wait: nat)
    requires r in s.searches && !s.searches[r].phase.Over()
    requires s.searches[r].phase.Waiting? ==> s.searches[r].phase.startedAt + cfg.timeout <= s.now + wait
    ensures var t := Step(cfg, s, Tick(wait));
            Rank(cfg, Step(cfg, t, Own(r, NextAction(s.searches[r].phase))).searches[r]) < Rank(cfg, s.searches[r])
  {
  }

  // ---------------------------------------------------------------- the order of the candidates

  /** `distance` in metres, `acceptance` in percent. */
  datatype Candidate = Candidate(driver: Driver, distance: real, declines: nat, acceptance: real)

  /** The smaller the better: distance against the search radius, the day's declines (ten at most are
      counted), and the share of offers not accepted. */
  function Score(radius: real, c: Candidate): real
    requires radius > 0.0
  {
    var declines := if c.declines < 10 then c.declines as real else 10.0;
    c.distance / radius * 0.6 + declines / 10.0 * 0.25 + (1.0 - c.acceptance / 100.0) * 0.15
  }

  /** As good in every respect, and nearer. */
  predicate Beats(c: Candidate, other: Candidate)
  {
    c.distance < other.distance && c.declines <= other.declines && c.acceptance >= other.acceptance
  }

  lemma DivisionKeepsOrder(a: real, b: real, n: real)
    requires n > 0.0 && a < b
    ensures a / n < b / n
  {
  }

  lemma BetterScoresLower(radius: real, c: Candidate, other: Candidate)
    requires radius > 0.0 && Beats(c, other)
    ensures Score(radius, c) < Score(radius, other)
  {
    DivisionKeepsOrder(c.distance, other.distance, radius);
  }

  /** At most ten of the day's declines are counted. */
  function Capped(declines: nat): real
  {
    if declines < 10 then declines as real else 10.0
  }

  lemma ScalingKeepsOrder(a: real, b: real, n: real)
    requires n > 0.0
    ensures a <= b <==> n * a <= n * b
  {
    if a > b {
      assert n * (a - b) > 0.0;
    } else {
      assert n * (b - a) >= 0.0;
    }
  }

  /** What the weights come to: a decline counts as much as a 24th of the search radius, a percent of
      acceptance as much as a 400th. */
  lemma ScoreInDistance(radius: real, c: Candidate, other: Candidate)
    requires radius > 0.0
    ensures Score(radius, c) <= Score(radius, other) <==>
            c.distance <= other.distance + radius * ((Capped(other.declines) - Capped(c.declines)) / 24.0
                                                     + (c.acceptance - other.acceptance) / 400.0)
  {
    var x, y := c.distance / radius, other.distance / radius;
    var k := (Capped(other.declines) - Capped(c.declines)) / 24.0 + (c.acceptance - other.acceptance) / 400.0;
    assert c.distance == radius * x && other.distance == radius * y;
    assert Score(radius, c) <= Score(radius, other) <==> x <= y + k;
    ScalingKeepsOrder(x, y + k, radius);
    assert radius * (y + k) == radius * y + radius * k;
  }

  /** The list is sorted in place, candidates of equal score staying in the order they were found. */
  method SortCandidates(candidates: array<Candidate>, radius: real)
    requires radius > 0.0
    modifies candidates
    ensures candidates[..] == StableSort.Sort(old(candidates[..]), c => Score(radius, c))
  {
    StableSort.InsertionSort(candidates, c => Score(radius, c));
  }

  /** Nobody is offered the ride before a driver found with him who beats him. */
  lemma NobodyPrecedesHisBetter(found: seq<Candidate>, radius: real, i: nat, j: nat)
    requires radius > 0.0 && i < j < |found|
    ensures var sorted := StableSort.Sort(found, c => Score(radius, c));
            multiset(sorted) == multiset(found) && !Beats(sorted[j], sorted[i])
  {
    var score := (c: Candidate) => Score(radius, c);
    var sorted := StableSort.Sort(found, c => Score(radius, c));
    StableSort.SortOrders(found, c => Score(radius, c));
    assert score(sorted[i]) <= score(sorted[j]);
    if Beats(sorted[j], sorted[i]) {
      BetterScoresLower(radius, sorted[j], sorted[i]);
    }
  }

  // ---------------------------------------------------------------- the engine

  /** What happens before one step of a search: what the others do, and what the search will find. */
  datatype Turn = Turn(others: seq<Event>, quit: Option<bool>, found: seq<Driver>, connected: bool, redis: Redis,
                       timer: bool, executed: bool)

  predicate Quiet(t: Turn, r: Ride)
  {
    |t.found| <= MAX_FOUND && forall e <- t.others :: !(e.Own? && e.ride == r) && !(e.Begin? && e.ride == r)
  }

  /** The program's next step where the search is, by what the turn has in store for it. The rounds used up,
      nothing is asked any more. */
  function Move(cfg: Config, q: Search, t: Turn): Action
  {
    match q.phase
    case Round => if q.attempt < cfg.maxAttempts && t.quit.Some? then Quit(t.quit.value) else NextRound(t.found)
    case Trying => TryNext(t.connected, t.redis)
    case Locked(_, _) => Open
    case Waiting(_, _, _, _) => if t.timer then TimerFires else Receive
    case Closing(_, _, _, _) => CloseChannel
    case Unlocking(_, _, _, _) => Unlock(t.executed)
    case _ => AfterOffer
  }

  /** The surroundings act, then the search takes one step. */
  function PlayTurn(cfg: Config, s: State, r: Ride, t: Turn): State
  {
    var u := RunFrom(cfg, s, t.others);
    if r in u.searches then Step(cfg, u, Own(r, Move(cfg, u.searches[r], t))) else u
  }

  function Play(cfg: Config, s: State, r: Ride, turns: seq<Turn>): State
  {
    if turns == [] then s else PlayTurn(cfg, Play(cfg, s, r, turns[..|turns| - 1]), r, turns[|turns| - 1])
  }

  lemma PlayNext(cfg: Config, s: State, r: Ride, turns: seq<Turn>, k: nat)
    requires k < |turns|
    ensures Play(cfg, s, r, turns[..k + 1]) == PlayTurn(cfg, Play(cfg, s, r, turns[..k]), r, turns[k])
  {
    assert turns[..k + 1][..k] == turns[..k];
  }

  lemma {:induction false} SoundAfter(cfg: Config, s: State, events: seq<Event>)
    requires Sound(s)
    ensures Sound(RunFrom(cfg, s, events))
  {
    if events != [] {
      var n := |events| - 1;
      SoundAfter(cfg, s, events[..n]);
      StepSound(cfg, RunFrom(cfg, s, events[..n]), events[n]);
    }
  }

  /** What one turn adds to a run. */
  function TurnEvents(cfg: Config, s: State, r: Ride, t: Turn): seq<Event>
  {
    var u := RunFrom(cfg, s, t.others);
    t.others + if r in u.searches then [Own(r, Move(cfg, u.searches[r], t))] else []
  }

  function Events(cfg: Config, s: State, r: Ride, turns: seq<Turn>): seq<Event>
  {
    if turns == [] then []
    else
      var init := turns[..|turns| - 1];
      Events(cfg, s, r, init) + TurnEvents(cfg, Play(cfg, s, r, init), r, turns[|turns| - 1])
  }

  lemma TurnIsRun(cfg: Config, s: State, r: Ride, t: Turn)
    ensures RunFrom(cfg, s, TurnEvents(cfg, s, r, t)) == PlayTurn(cfg, s, r, t)
  {
    var u := RunFrom(cfg, s, t.others);
    if r in u.searches {
      RunOfLast(cfg, s, t.others, Own(r, Move(cfg, u.searches[r], t)));
    } else {
      assert t.others + [] == t.others;
    }
  }

  /** What the program does in its surroundings is a run of the steps above: theirs, and one of its own in each
      turn. So every theorem about runs is one about the program. */
  lemma {:induction false} PlayIsRun(cfg: Config, s: State, r: Ride, turns: seq<Turn>)
    ensures Play(cfg, s, r, turns) == RunFrom(cfg, s, Events(cfg, s, r, turns))
  {
    if turns != [] {
      var init, t := turns[..|turns| - 1], turns[|turns| - 1];
      PlayIsRun(cfg, s, r, init);
      TurnIsRun(cfg, Play(cfg, s, r, init), r, t);
      RunsJoin(cfg, s, Events(cfg, s, r, init), TurnEvents(cfg, Play(cfg, s, r, init), r, t));
    }
  }

  /** The program has played the first k turns. */
  ghost predicate Ready(cfg: Config, s0: State, r: Ride, turns: seq<Turn>, k: nat, s: State)
  {
    && k <= |turns| && (forall t <- turns :: Quiet(t, r))
    && s == Play(cfg, s0, r, turns[..k]) && Sound(s) && r in s.searches
  }

  /** One more turn: the others have acted, and the program takes its step. */
  lemma ReadyNext(cfg: Config, s0: State, r: Ride, turns: seq<Turn>, k: nat, s: State, u: State, act: Action)
    requires Ready(cfg, s0, r, turns, k, s) && k < |turns| && u == RunFrom(cfg, s, turns[k].others)
    requires Sound(u) && r in u.searches && act == Move(cfg, u.searches[r], turns[k])
    requires r in Step(cfg, u, Own(r, act)).searches
    ensures Ready(cfg, s0, r, turns, k + 1, Step(cfg, u, Own(r, act)))
  {
    PlayNext(cfg, s0, r, turns, k);
    StepSound(cfg, u, Own(r, act));
  }

  lemma QuietIsAside(t: Turn, r: Ride)
    requires Quiet(t, r)
    ensures Aside(t.others, r)
  {
  }

  /** One turn of a search in that phase. */
  lemma TurnIs(cfg: Config, s: State, r: Ride, t: Turn)
    requires r in s.searches && Quiet(t, r)
    ensures var u := RunFrom(cfg, s, t.others);
            && r in u.searches && u.searches[r] == s.searches[r]
            && PlayTurn(cfg, s, r, t) == Step(cfg, u, Own(r, Move(cfg, s.searches[r], t)))
  {
    QuietIsAside(t, r);
    AsideKeepsSearchOfRun(cfg, s, t.others, r);
  }

  /** Between rounds: the search leaves if it is made to and has a round left, goes on with what is found then,
      and gives up when the rounds are used up. */
  lemma TurnBetweenRounds(cfg: Config, s: State, r: Ride, t: Turn)
    requires r in s.searches && s.searches[r].phase.Round? && Quiet(t, r)
    ensures var q, v := s.searches[r], PlayTurn(cfg, s, r, t);
            && r in v.searches
            && v.searches[r] == (if q.attempt >= cfg.maxAttempts then q.(phase := GaveUp)
                                 else if t.quit.Some? then q.(phase := if t.quit.value then GaveUp else Stopped)
                                 else Search(q.attempt + 1, Trying, t.found, q.tried, q.offers))
  {
    TurnIs(cfg, s, r, t);
  }

  lemma FourTurns(cfg: Config, s: State, r: Ride, turns: seq<Turn>)
    requires |turns| == 4
    ensures Play(cfg, s, r, turns)
            == PlayTurn(cfg, PlayTurn(cfg, PlayTurn(cfg, PlayTurn(cfg, s, r, turns[0]), r, turns[1]), r, turns[2]), r, turns[3])
  {
    assert turns[..0] == [] && turns[..4] == turns;
    PlayNext(cfg, s, r, turns, 0);
    PlayNext(cfg, s, r, turns, 1);
    PlayNext(cfg, s, r, turns, 2);
    PlayNext(cfg, s, r, turns, 3);
  }

  /** The program and its answers: when it waits for d and there is an answer of his, or in no name, then in four
      turns, unless the timer takes the first, d is assigned if it is an accept, and the next candidate is
      looked at if it is not. */
  lemma ProgramTakesAnswer(cfg: Config, before: seq<Event>, r: Ride, d: Driver, ch: nat, sig: Signal, turns: seq<Turn>)
    requires Answering(Run(cfg, before), r, d, ch, sig) && MeantFor(sig, d)
    requires |turns| == 4 && (forall t <- turns :: Quiet(t, r)) && !turns[0].timer
    ensures var v := Play(cfg, Run(cfg, before), r, turns);
            && r in v.searches
            && v.searches[r] == Run(cfg, before).searches[r].(phase := if sig.accepted then Assigned(d) else Trying)
  {
    var s := Run(cfg, before);
    var q := s.searches[r];
    FourTurns(cfg, s, r, turns);
    RunSound(cfg, before);
    assert turns[0] in turns && turns[1] in turns && turns[2] in turns && turns[3] in turns;
    QuietIsAside(turns[0], r);
    AsideKeepsAnswerOfRun(cfg, s, turns[0].others, r, d, ch, sig);
    TurnIs(cfg, s, r, turns[0]);
    ReceivedAnswer(cfg, RunFrom(cfg, s, turns[0].others), r, d, ch, sig);
    AfterReceipt(cfg, PlayTurn(cfg, s, r, turns[0]), r, turns[1], turns[2], turns[3]);
  }

  lemma AfterReceipt(cfg: Config, s: State, r: Ride, t1: Turn, t2: Turn, t3: Turn)
    requires r in s.searches && s.searches[r].phase.Closing? && Quiet(t1, r) && Quiet(t2, r) && Quiet(t3, r)
    ensures var q, v := s.searches[r], PlayTurn(cfg, PlayTurn(cfg, PlayTurn(cfg, s, r, t1), r, t2), r, t3);
            && r in v.searches
            && v.searches[r] == q.(phase := if q.phase.accepted then Assigned(q.phase.d) else Trying)
  {
    TurnIs(cfg, s, r, t1);
    var s1 := PlayTurn(cfg, s, r, t1);
    TurnIs(cfg, s1, r, t2);
    var s2 := PlayTurn(cfg, s1, r, t2);
    TurnIs(cfg, s2, r, t3);
  }

  lemma WaitsOnAChannel(s: State, r: Ride)
    requires Sound(s) && r in s.searches && s.searches[r].phase.Waiting?
    ensures s.searches[r].phase.ch < |s.channels|
  {
    assert SearchOk(s, r);
    var q := s.searches[r];
    assert OfferOk(s.channels, r, q, q.offers[|q.offers| - 1]);
  }

  lemma TryGoesOn(cfg: Config, s: State, r: Ride, connected: bool, redis: Redis)
    requires r in s.searches && s.searches[r].phase.Trying?
    ensures var t := Step(cfg, s, Own(r, TryNext(connected, redis)));
            && r in t.searches && t.searches[r].attempt == s.searches[r].attempt
            && (t.searches[r].phase.Round? || t.searches[r].phase.Trying? || t.searches[r].phase.Locked?)
  {
  }

  lemma StillListening(cfg: Config, s: State, r: Ride, act: Action)
    requires r in s.searches && s.searches[r].phase.Waiting? && (act.TimerFires? || act.Receive?)
    ensures var t := Step(cfg, s, Own(r, act));
            r in t.searches && t.searches[r].phase.Listening() && t.searches[r].attempt == s.searches[r].attempt
  {
  }

  /** The shared tables and the searches' own records, and the program's accesses to them. */
  class Engine {
    const cfg: Config
    var now: int
    var locks: map<Driver, Lock>
    var searches: map<Ride, Search>
    var acceptChannels: map<Ride, nat>
    var channels: seq<Channel>
    var calls: map<nat, Call>

    function Now(): State
      reads this
    {
      State(now, locks, searches, acceptChannels, channels, calls)
    }

    constructor (cfg: Config)
      ensures this.cfg == cfg && Now() == INITIAL
    {
      this.cfg := cfg;
      now, locks, searches, acceptChannels, channels, calls := 0, map[], map[], map[], [], map[];
    }

    method StartSearch(r: Ride)
      modifies this
      ensures Now() == Step(cfg, old(Now()), Begin(r))
    {
      if r !in searches {
        searches := searches[r := Search(0, Round, [], {}, [])];
      }
    }

    /** The head of the outer loop, once its wait is over and the ride found to be searching still. */
    method BeginRound(r: Ride, found: seq<Driver>)
      requires r in searches && searches[r].phase.Round? && |found| <= MAX_FOUND
      modifies this
      ensures Now() == Step(cfg, old(Now()), Own(r, NextRound(found)))
    {
      var q := searches[r];
      if q.attempt < cfg.maxAttempts {
        searches := searches[r := q.(attempt := q.attempt + 1, phase := Trying, queue := found)];
      } else {
        searches := searches[r := q.(phase := GaveUp)];
      }
    }

    /** The body of the inner loop, up to the SETNX at the head of `offerToDriver`. */
    method TryNextCandidate(r: Ride, connected: bool, redis: Redis)
      requires r in searches && searches[r].phase.Trying?
      modifies this
      ensures Now() == Step(cfg, old(Now()), Own(r, TryNext(connected, redis)))
    {
      var q := searches[r];
      if |q.queue| == 0 {
        searches := searches[r := q.(phase := Round)];
        return;
      }
      var d := q.queue[0];
      q := q.(queue := q.queue[1..]);
      if d !in q.tried && connected {
        q := q.(tried := q.tried + {d});
        if !redis.Failed? && (d !in locks || locks[d].expires <= now) {
          locks := locks[d := Lock(r, now + LOCK_TTL)];
          if redis.Done? {
            q := q.(phase := Locked(d, now));
          }
        }
      }
      searches := searches[r := q];
    }

    method StoreChannel(r: Ride)
      requires r in searches && searches[r].phase.Locked?
      modifies this
      ensures Now() == Step(cfg, old(Now()), Own(r, Open))
    {
      var q, ch := searches[r], |channels|;
      var d := q.phase.d;
      channels := channels + [Channel(r, d, None)];
      acceptChannels := acceptChannels[r := ch];
      searches := searches[r := q.(phase := Waiting(d, q.phase.since, ch, now), offers := q.offers + [Offer(d, ch)])];
    }

    /** One turn of the select loop; `timer` says which case is taken when both are ready. */
    method Select(r: Ride, timer: bool)
      requires r in searches && searches[r].phase.Waiting? && searches[r].phase.ch < |channels|
      modifies this
      ensures Now() == Step(cfg, old(Now()), Own(r, if timer then TimerFires else Receive))
    {
      var q := searches[r];
      var p := q.phase;
      if timer {
        if now >= p.startedAt + cfg.timeout {
          searches := searches[r := q.(phase := Closing(p.d, p.since, p.ch, false))];
        }
        return;
      }
      var c := channels[p.ch];
      if c.slot.Some? {
        var sig := c.slot.value;
        channels := channels[p.ch := c.(slot := None)];
        if sig.driver == None || sig.driver == Some(p.d) {
          searches := searches[r := q.(phase := Closing(p.d, p.since, p.ch, sig.accepted))];
        }
      }
    }

    /** The first of the two deferred calls that run when `offerToDriver` returns. */
    method DeleteChannel(r: Ride)
      requires r in searches && searches[r].phase.Closing?
      modifies this
      ensures Now() == Step(cfg, old(Now()), Own(r, CloseChannel))
    {
      var q := searches[r];
      var p := q.phase;
      acceptChannels := acceptChannels - {r};
      searches := searches[r := q.(phase := Unlocking(p.d, p.since, p.ch, p.accepted))];
    }

    /** The second. */
    method DeleteLock(r: Ride, executed: bool)
      requires r in searches && searches[r].phase.Unlocking?
      modifies this
      ensures Now() == Step(cfg, old(Now()), Own(r, Unlock(executed)))
    {
      var q := searches[r];
      if executed {
        locks := locks - {q.phase.d};
      }
      searches := searches[r := q.(phase := Returned(q.phase.d, q.phase.ch, q.phase.accepted))];
    }

    /** The ride has been found not to be searching, or the deadline has passed or the query failed. */
    method Leave(r: Ride, gaveUp: bool)
      requires r in searches && searches[r].phase.Round?
      modifies this
      ensures Now() == Step(cfg, old(Now()), Own(r, Quit(gaveUp)))
    {
      searches := searches[r := searches[r].(phase := if gaveUp then GaveUp else Stopped)];
    }

    /** What `runLoop` does with the answer: the driver is assigned, or the next one is tried. */
    method Conclude(r: Ride) returns (accepted: bool)
      requires r in searches && searches[r].phase.Returned?
      modifies this
      ensures Now() == Step(cfg, old(Now()), Own(r, AfterOffer))
      ensures accepted == old(searches[r].phase.accepted)
    {
      var q := searches[r];
      accepted := q.phase.accepted;
      searches := searches[r := q.(phase := if accepted then Assigned(q.phase.d) else Trying)];
    }

    /** The load half of `NotifyAccept`; no call is recorded when the map holds no channel. */
    method LoadChannel(call: nat, r: Ride, sig: Signal)
      requires call !in calls
      modifies this
      ensures Now() == Step(cfg, old(Now()), Load(call, r, sig))
    {
      if r in acceptChannels {
        calls := calls[call := Call(acceptChannels[r], sig)];
      }
    }

    /** The send half; `sent` is what `NotifyAccept` returns. */
    method TrySend(call: nat) returns (sent: bool)
      requires call in calls && calls[call].ch < |channels|
      modifies this
      ensures Now() == Step(cfg, old(Now()), Send(call))
      ensures sent == (old(channels[calls[call].ch].slot) == None)
    {
      var ch, sig := calls[call].ch, calls[call].sig;
      calls := calls - {call};
      sent := channels[ch].slot.None?;
      if sent {
        channels := channels[ch := channels[ch].(slot := Some(sig))];
      }
    }

    // The loops of the program. Between any two steps the surroundings act.

    method Yield(r: Ride, t: Turn)
      requires Sound(Now()) && r in searches && Quiet(t, r)
      modifies this
      ensures Now() == RunFrom(cfg, old(Now()), t.others) && Sound(Now())
      ensures r in searches && searches[r] == old(searches[r])
    {
      ghost var s := Now();
      for i := 0 to |t.others|
        invariant Now() == RunFrom(cfg, s, t.others[..i])
      {
        assert t.others[..i + 1][..i] == t.others[..i];
        var u := Step(cfg, Now(), t.others[i]);
        now, locks, searches, acceptChannels, channels, calls := u.now, u.locks, u.searches, u.registry, u.channels, u.calls;
      }
      assert t.others[..|t.others|] == t.others;
      SoundAfter(cfg, s, t.others);
      QuietIsAside(t, r);
      AsideKeepsSearchOfRun(cfg, s, t.others, r);
    }

    method ThenOpen(r: Ride, turns: seq<Turn>, k: nat, ghost s0: State)
      requires Ready(cfg, s0, r, turns, k, Now()) && k < |turns| && searches[r].phase.Locked?
      modifies this
      ensures Ready(cfg, s0, r, turns, k + 1, Now())
      ensures searches[r].phase.Waiting? && searches[r].attempt == old(searches[r].attempt)
    {
      var t := turns[k];
      ghost var s := Now();
      Yield(r, t);
      ReadyNext(cfg, s0, r, turns, k, s, Now(), Open);
      StoreChannel(r);
    }

    method ThenSelect(r: Ride, turns: seq<Turn>, k: nat, ghost s0: State)
      requires Ready(cfg, s0, r, turns, k, Now()) && k < |turns| && searches[r].phase.Waiting?
      modifies this
      ensures Ready(cfg, s0, r, turns, k + 1, Now())
      ensures searches[r].phase.Listening() && searches[r].attempt == old(searches[r].attempt)
    {
      var t := turns[k];
      ghost var s := Now();
      Yield(r, t);
      WaitsOnAChannel(Now(), r);
      ghost var act := if t.timer then TimerFires else Receive;
      StillListening(cfg, Now(), r, act);
      ReadyNext(cfg, s0, r, turns, k, s, Now(), act);
      Select(r, t.timer);
    }

    method ThenClose(r: Ride, turns: seq<Turn>, k: nat, ghost s0: State)
      requires Ready(cfg, s0, r, turns, k, Now()) && k < |turns| && searches[r].phase.Closing?
      modifies this
      ensures Ready(cfg, s0, r, turns, k + 1, Now())
      ensures searches[r].phase.Unlocking? && searches[r].attempt == old(searches[r].attempt)
    {
      var t := turns[k];
      ghost var s := Now();
      Yield(r, t);
      ReadyNext(cfg, s0, r, turns, k, s, Now(), CloseChannel);
      DeleteChannel(r);
    }

    method ThenUnlock(r: Ride, turns: seq<Turn>, k: nat, ghost s0: State)
      requires Ready(cfg, s0, r, turns, k, Now()) && k < |turns| && searches[r].phase.Unlocking?
      modifies this
      ensures Ready(cfg, s0, r, turns, k + 1, Now())
      ensures searches[r].phase.Returned? && searches[r].attempt == old(searches[r].attempt)
    {
      var t := turns[k];
      ghost var s := Now();
      Yield(r, t);
      ReadyNext(cfg, s0, r, turns, k, s, Now(), Unlock(t.executed));
      DeleteLock(r, t.executed);
    }

    method ThenTry(r: Ride, turns: seq<Turn>, k: nat, ghost s0: State)
      requires Ready(cfg, s0, r, turns, k, Now()) && k < |turns| && searches[r].phase.Trying?
      modifies this
      ensures Ready(cfg, s0, r, turns, k + 1, Now())
      ensures searches[r].attempt == old(searches[r].attempt)
      ensures searches[r].phase.Round? || searches[r].phase.Trying? || searches[r].phase.Locked?
    {
      var t := turns[k];
      ghost var s := Now();
      Yield(r, t);
      ReadyNext(cfg, s0, r, turns, k, s, Now(), TryNext(t.connected, t.redis));
      TryGoesOn(cfg, Now(), r, t.connected, t.redis);
      TryNextCandidate(r, t.connected, t.redis);
    }

    method ThenConclude(r: Ride, turns: seq<Turn>, k: nat, ghost s0: State) returns (accepted: bool)
      requires Ready(cfg, s0, r, turns, k, Now()) && k < |turns| && searches[r].phase.Returned?
      modifies this
      ensures Ready(cfg, s0, r, turns, k + 1, Now())
      ensures searches[r].attempt == old(searches[r].attempt)
      ensures if accepted then searches[r].phase.Assigned? else searches[r].phase.Trying?
    {
      var t := turns[k];
      ghost var s := Now();
      Yield(r, t);
      ReadyNext(cfg, s0, r, turns, k, s, Now(), AfterOffer);
      accepted := Conclude(r);
    }

    method ThenBegin(r: Ride, turns: seq<Turn>, k: nat, ghost s0: State)
      requires Ready(cfg, s0, r, turns, k, Now()) && k < |turns| && searches[r].phase.Round?
      requires searches[r].attempt < cfg.maxAttempts ==> turns[k].quit == None
      modifies this
      ensures Ready(cfg, s0, r, turns, k + 1, Now())
      ensures old(searches[r].attempt) < cfg.maxAttempts ==>
                searches[r].phase.Trying? && searches[r].attempt == old(searches[r].attempt) + 1
      ensures old(searches[r].attempt) >= cfg.maxAttempts ==> searches[r].phase.GaveUp?
    {
      var t := turns[k];
      ghost var s := Now();
      Yield(r, t);
      ReadyNext(cfg, s0, r, turns, k, s, Now(), NextRound(t.found));
      BeginRound(r, t.found);
    }

    method ThenLeave(r: Ride, turns: seq<Turn>, k: nat, ghost s0: State)
      requires Ready(cfg, s0, r, turns, k, Now()) && k < |turns| && searches[r].phase.Round?
      requires searches[r].attempt < cfg.maxAttempts && turns[k].quit.Some?
      modifies this
      ensures Ready(cfg, s0, r, turns, k + 1, Now()) && searches[r].phase.Over()
    {
      var t := turns[k];
      ghost var s := Now();
      Yield(r, t);
      ReadyNext(cfg, s0, r, turns, k, s, Now(), Quit(t.quit.value));
      Leave(r, t.quit.value);
    }

    /** The select loop. The turns may run out at any point, here and below. */
    method Await(r: Ride, turns: seq<Turn>, from: nat, ghost s0: State) returns (k: nat)
      requires Ready(cfg, s0, r, turns, from, Now()) && searches[r].phase.Waiting?
      modifies this
      ensures Ready(cfg, s0, r, turns, k, Now()) && from <= k && searches[r].attempt == old(searches[r].attempt)
      ensures k == |turns| || searches[r].phase.Closing?
    {
      k := from;
      while k < |turns| && searches[r].phase.Waiting?
        invariant Ready(cfg, s0, r, turns, k, Now()) && from <= k
        invariant searches[r].phase.Listening() && searches[r].attempt == old(searches[r].attempt)
        decreases |turns| - k
      {
        ThenSelect(r, turns, k, s0);
        k := k + 1;
      }
    }

    /** Everything after the SETNX: the channel, the select loop, and the two deferred deletes. */
    method OfferToDriver(r: Ride, turns: seq<Turn>, from: nat, ghost s0: State) returns (k: nat)
      requires Ready(cfg, s0, r, turns, from, Now()) && searches[r].phase.Locked?
      modifies this
      ensures Ready(cfg, s0, r, turns, k, Now()) && from <= k && searches[r].attempt == old(searches[r].attempt)
      ensures k == |turns| || searches[r].phase.Returned?
    {
      k := from;
      if k < |turns| {
        ThenOpen(r, turns, k, s0);
        k := Await(r, turns, k + 1, s0);
        if k < |turns| {
          k := Withdraw(r, turns, k, s0);
        }
      }
    }

    method Withdraw(r: Ride, turns: seq<Turn>, from: nat, ghost s0: State) returns (k: nat)
      requires Ready(cfg, s0, r, turns, from, Now()) && from < |turns| && searches[r].phase.Closing?
      modifies this
      ensures Ready(cfg, s0, r, turns, k, Now()) && from <= k && searches[r].attempt == old(searches[r].attempt)
      ensures k == |turns| || searches[r].phase.Returned?
    {
      ThenClose(r, turns, from, s0);
      k := from + 1;
      if k < |turns| {
        ThenUnlock(r, turns, k, s0);
        k := k + 1;
      }
    }

    /** The offer and what its answer leads to. */
    method OfferAndConclude(r: Ride, turns: seq<Turn>, from: nat, ghost s0: State) returns (k: nat)
      requires Ready(cfg, s0, r, turns, from, Now()) && searches[r].phase.Locked?
      modifies this
      ensures Ready(cfg, s0, r, turns, k, Now()) && from <= k && searches[r].attempt == old(searches[r].attempt)
      ensures k == |turns| || searches[r].phase.Trying? || searches[r].phase.Assigned?
    {
      k := OfferToDriver(r, turns, from, s0);
      if k < |turns| {
        var _ := ThenConclude(r, turns, k, s0);
        k := k + 1;
      }
    }

    /** One candidate: tried, and offered the ride if he was locked. */
    method TryOne(r: Ride, turns: seq<Turn>, from: nat, ghost s0: State) returns (k: nat)
      requires Ready(cfg, s0, r, turns, from, Now()) && from < |turns| && searches[r].phase.Trying?
      modifies this
      ensures Ready(cfg, s0, r, turns, k, Now()) && from < k && searches[r].attempt == old(searches[r].attempt)
      ensures k == |turns| || searches[r].phase.Trying? || searches[r].phase.Round? || searches[r].phase.Assigned?
    {
      ThenTry(r, turns, from, s0);
      k := from + 1;
      if searches[r].phase.Locked? {
        k := OfferAndConclude(r, turns, k, s0);
      }
    }

    /** The inner loop over the candidates of one round. */
    method TryCandidates(r: Ride, turns: seq<Turn>, from: nat, ghost s0: State) returns (k: nat)
      requires Ready(cfg, s0, r, turns, from, Now()) && searches[r].phase.Trying?
      modifies this
      ensures Ready(cfg, s0, r, turns, k, Now()) && from <= k && searches[r].attempt == old(searches[r].attempt)
      ensures k == |turns| || searches[r].phase.Round? || searches[r].phase.Assigned?
    {
      k := from;
      while k < |turns| && searches[r].phase.Trying?
        invariant Ready(cfg, s0, r, turns, k, Now()) && from <= k && searches[r].attempt == old(searches[r].attempt)
        invariant k == |turns| || searches[r].phase.Trying? || searches[r].phase.Round? || searches[r].phase.Assigned?
        decreases |turns| - k
      {
        k := TryOne(r, turns, k, s0);
      }
    }

    /** The whole search, its rounds and its end: what `Play` says, turn by turn, until the search is over or
        the turns are used up. */
    method RunLoop(r: Ride, turns: seq<Turn>) returns (k: nat)
      requires Sound(Now()) && r !in searches && (forall t <- turns :: Quiet(t, r))
      modifies this
      ensures k <= |turns| && Now() == Play(cfg, Step(cfg, old(Now()), Begin(r)), r, turns[..k])
      ensures r in searches && (k == |turns| || searches[r].phase.Over())
    {
      StepSound(cfg, Now(), Begin(r));
      StartSearch(r);
      ghost var s0 := Now();
      k := 0;
      for attempt := 0 to cfg.maxAttempts
        invariant Ready(cfg, s0, r, turns, k, Now())
        invariant searches[r].attempt == attempt && (k == |turns| || searches[r].phase.Round?)
      {
        if k == |turns| { return; }
        if turns[k].quit.Some? {
          ThenLeave(r, turns, k, s0);
          k := k + 1;
          return;
        }
        ThenBegin(r, turns, k, s0);
        k := TryCandidates(r, turns, k + 1, s0);
        if k == |turns| || searches[r].phase.Assigned? { return; }
      }
      if k == |turns| { return; }
      ThenBegin(r, turns, k, s0);
      k := k + 1;
    }
  }
}
