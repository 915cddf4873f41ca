/** Negotiating one ride's fare (internal/negotiation): offers in rounds between the customer and the
    driver, each within the vehicle's hard bounds and a band around the estimate, until one party
    accepts the other's latest offer or the driver locks a fare agreed by telephone.

    Whoever acts has been found to be a party to the ride. */
module Negotiation {

  import opened Options
  import FareEngine
  import StableSort

  datatype Transport = MotoBike | TukTuk | CabTaxi | LightHilux | HeavyFuso | Other

  datatype Bounds = Bounds(floor: real, cap: real) {
    predicate Has(amount: real) { floor <= amount <= cap }
  }

  function BoundsForVehicle(t: Transport): (b: Bounds)
    ensures 500.0 <= b.floor < b.cap <= 100000.0
  {
    match t
    case MotoBike => Bounds(500.0, 4000.0)
    case TukTuk => Bounds(700.0, 5000.0)
    case CabTaxi => Bounds(2000.0, 15000.0)
    case LightHilux => Bounds(3000.0, 25000.0)
    case HeavyFuso => Bounds(10000.0, 80000.0)
    case Other => Bounds(500.0, 100000.0)
  }

  /** What looking up the vehicle's fare configuration yields. */
  datatype Lookup = NotWired | Unavailable | Found(minFare: int)

  datatype Result =
    | Done
    | InvalidTransition
    | OutOfVehicleBounds
    | ConfigUnavailable
    | BelowMinFare
    | AboveMaxFare
    | RoundLimit
    | NoRound
    | OwnProposal
    | FareLocked

  /** The band around the estimate; an estimate of zero counts as none. */
  function FareBounds(minFare: int, estimate: Option<real>): Bounds
  {
    var lo, hi := minFare as real, minFare as real * 10.0;
    if estimate.Some? && estimate.value > 0.0 then
      var e := estimate.value;
      Bounds(if e * 0.6 > lo then e * 0.6 else lo, if e * 1.8 > hi then e * 1.8 else hi)
    else Bounds(lo, hi)
  }

  function CheckFare(t: Transport, estimate: Option<real>, cfg: Lookup, amount: real): Result
  {
    if !BoundsForVehicle(t).Has(amount) then OutOfVehicleBounds
    else if cfg.Unavailable? then ConfigUnavailable
    else if cfg.NotWired? then Done
    else if amount < FareBounds(cfg.minFare, estimate).floor then BelowMinFare
    else if amount > FareBounds(cfg.minFare, estimate).cap then AboveMaxFare
    else Done
  }

  // ---------------------------------------------------------------- which fares can be agreed at all

  /** For every configuration the console accepts, the metered fare is inside the band that is built
      from it. */
  lemma MeteredFareIsInItsBand(c: FareEngine.Config, km: real, hour: int, waiting: int)
    requires FareEngine.Valid(c)
    ensures var fare := FareEngine.TotalFare(c, km, hour, waiting);
            FareBounds(c.minFare, Some(fare)).Has(fare)
  {
    FareEngine.FareIsAtLeastMin(c, km, hour, waiting);
  }

  /** So it can be agreed exactly when it is within the vehicle's hard bounds. */
  lemma MeteredFareIsAcceptableIff(c: FareEngine.Config, t: Transport, km: real, hour: int, waiting: int)
    requires FareEngine.Valid(c)
    ensures var fare := FareEngine.TotalFare(c, km, hour, waiting);
            CheckFare(t, Some(fare), Found(c.minFare), fare) == Done <==> BoundsForVehicle(t).Has(fare)
  {
    MeteredFareIsInItsBand(c, km, hour, waiting);
  }

  /** The hard bounds and the band are set without regard to each other. There is a fare both allow
      exactly when they overlap; where they do not, no offer can be made and no fare locked. */
  lemma SomeFareIsAcceptableIff(t: Transport, estimate: Option<real>, minFare: int)
    requires minFare > 0
    ensures var hard, band := BoundsForVehicle(t), FareBounds(minFare, estimate);
            (exists amount :: CheckFare(t, estimate, Found(minFare), amount) == Done)
            <==> band.floor <= hard.cap && hard.floor <= band.cap
  {
    var hard, band := BoundsForVehicle(t), FareBounds(minFare, estimate);
    assert band.floor <= band.cap;
    if band.floor <= hard.cap && hard.floor <= band.cap {
      assert CheckFare(t, estimate, Found(minFare), FareEngine.Max(hard.floor, band.floor)) == Done;
    }
  }

  /** A long motorcycle ride is one that cannot be negotiated: the band starts at sixty per cent of its
      estimate, which is above what a motorcycle may cost. */
  lemma LongMotoRideHasNoFare(estimate: real, minFare: int, amount: real)
    requires minFare > 0 && estimate * 0.6 > 4000.0
    ensures CheckFare(MotoBike, Some(estimate), Found(minFare), amount) != Done
  {
  }

  /** A fare passes if it is within the vehicle's hard bounds, at least the minimum fare and sixty per cent of
      the estimate, and at most ten times the one or eighteen tenths of the other. */
  lemma AllowedIff(t: Transport, estimate: Option<real>, cfg: Lookup, amount: real)
    ensures CheckFare(t, estimate, cfg, amount) == Done <==>
            && BoundsForVehicle(t).floor <= amount <= BoundsForVehicle(t).cap
            && cfg != Unavailable
            && (cfg.Found? ==>
                  && amount >= cfg.minFare as real && (estimate.Some? && estimate.value > 0.0 ==> amount >= 0.6 * estimate.value)
                  && (amount <= 10.0 * cfg.minFare as real || (estimate.Some? && 0.0 < estimate.value && amount <= 1.8 * estimate.value)))
  {
  }

  /** The complaint names the bound that is missed, the vehicle's before the band's and the lower before the
      upper. */
  lemma ComplaintIs(t: Transport, estimate: Option<real>, cfg: Lookup, amount: real)
    ensures var within := BoundsForVehicle(t).floor <= amount <= BoundsForVehicle(t).cap;
            var known := estimate.Some? && estimate.value > 0.0;
            var below := cfg.Found? && (amount < cfg.minFare as real || (known && amount < 0.6 * estimate.value));
            && (CheckFare(t, estimate, cfg, amount) == OutOfVehicleBounds <==> !within)
            && (CheckFare(t, estimate, cfg, amount) == ConfigUnavailable <==> within && cfg == Unavailable)
            && (CheckFare(t, estimate, cfg, amount) == BelowMinFare <==> within && below)
            && (CheckFare(t, estimate, cfg, amount) in {Done, OutOfVehicleBounds, ConfigUnavailable, BelowMinFare, AboveMaxFare})
  {
  }

  // ---------------------------------------------------------------- the negotiation

  datatype Role = Customer | Driver

  datatype Response = Accepted | Declined

  datatype Round = Round(number: nat, side: Role, amount: real, response: Option<Response>)

  datatype Status = Negotiating | Confirmed | Cancelled

  datatype Ride = Ride(transport: Transport, estimate: Option<real>, status: Status, rounds: seq<Round>, agreed: Option<real>)

  const MAX_OFFERS_PER_SIDE := 3

  function Opened(t: Transport, estimate: Option<real>): Ride
  {
    Ride(t, estimate, Negotiating, [], None)
  }

  function CountBy(rounds: seq<Round>, side: Role): nat
  {
    if rounds == [] then 0 else CountBy(rounds[..|rounds| - 1], side) + if rounds[|rounds| - 1].side == side then 1 else 0
  }

  function Propose(r: Ride, side: Role, amount: real, cfg: Lookup): (Ride, Result)
  {
    if r.status != Negotiating then (r, InvalidTransition)
    else if CheckFare(r.transport, r.estimate, cfg, amount) != Done then (r, CheckFare(r.transport, r.estimate, cfg, amount))
    else if CountBy(r.rounds, side) >= MAX_OFFERS_PER_SIDE then (r, RoundLimit)
    else (r.(rounds := r.rounds + [Round(|r.rounds| + 1, side, amount, None)]), Done)
  }

  /** The fare is locked once, and the status moves on. */
  function Lock(r: Ride, amount: real): (Ride, Result)
  {
    if r.agreed.Some? then (r, FareLocked)
    else (r.(agreed := Some(amount), status := Confirmed), Done)
  }

  function Respond(r: Ride, response: Response): Ride
    requires r.rounds != []
  {
    var n := |r.rounds| - 1;
    r.(rounds := r.rounds[n := r.rounds[n].(response := Some(response))])
  }

  function Accept(r: Ride, side: Role, cfg: Lookup): (Ride, Result)
  {
    if r.status != Negotiating then (r, InvalidTransition)
    else if r.rounds == [] then (r, NoRound)
    else
      var latest := r.rounds[|r.rounds| - 1];
      if latest.side == side then (r, OwnProposal)
      else if CheckFare(r.transport, r.estimate, cfg, latest.amount) != Done then
        (r, CheckFare(r.transport, r.estimate, cfg, latest.amount))
      else Lock(Respond(r, Accepted), latest.amount)
  }

  function LockManual(r: Ride, amount: real, cfg: Lookup): (Ride, Result)
  {
    if r.status != Negotiating then (r, InvalidTransition)
    else if CheckFare(r.transport, r.estimate, cfg, amount) != Done then (r, CheckFare(r.transport, r.estimate, cfg, amount))
    else Lock(r, amount)
  }

  function Decline(r: Ride): (Ride, Result)
  {
    if r.status != Negotiating then (r, InvalidTransition)
    else if r.rounds == [] then (r, NoRound)
    else (Respond(r, Declined), Done)
  }

  datatype Event =
    | OnPropose(side: Role, amount: real, cfg: Lookup)
    | OnAccept(side: Role, cfg: Lookup)
    | OnLockManual(amount: real, cfg: Lookup)
    | OnDecline
    | OnCancel

  /** The ride may be cancelled from elsewhere. */
  function Step(r: Ride, e: Event): Ride
  {
    match e
    case OnPropose(side, amount, cfg) => Propose(r, side, amount, cfg).0
    case OnAccept(side, cfg) => Accept(r, side, cfg).0
    case OnLockManual(amount, cfg) => LockManual(r, amount, cfg).0
    case OnDecline => Decline(r).0
    case OnCancel => r.(status := Cancelled)
  }

  function Run(r: Ride, events: seq<Event>): Ride
  {
    if events == [] then r else Step(Run(r, events[..|events| - 1]), events[|events| - 1])
  }

  // ---------------------------------------------------------------- what every action keeps

  predicate RoundOk(t: Transport, rounds: seq<Round>, i: nat)
    requires i < |rounds|
  {
    rounds[i].number == i + 1 && BoundsForVehicle(t).Has(rounds[i].amount)
  }

  ghost predicate RoundsOk(t: Transport, rounds: seq<Round>)
  {
    && (forall i :: 0 <= i < |rounds| ==> RoundOk(t, rounds, i))
    && CountBy(rounds, Customer) <= MAX_OFFERS_PER_SIDE && CountBy(rounds, Driver) <= MAX_OFFERS_PER_SIDE
  }

  ghost predicate Sound(r: Ride)
  {
    && RoundsOk(r.transport, r.rounds)
    && (r.agreed.Some? ==> BoundsForVehicle(r.transport).Has(r.agreed.value))
    && (r.status == Negotiating ==> r.agreed == None)
    && (r.status == Confirmed ==> r.agreed.Some?)
  }

  lemma CountOfLast(rounds: seq<Round>, x: Round, side: Role)
    ensures CountBy(rounds + [x], side) == CountBy(rounds, side) + if x.side == side then 1 else 0
  {
    assert (rounds + [x])[..|rounds|] == rounds;
  }

  lemma RespondSound(r: Ride, response: Response)
    requires Sound(r) && r.rounds != []
    ensures Sound(Respond(r, response))
  {
    var n := |r.rounds| - 1;
    var t := Respond(r, response);
    assert t.rounds[..n] == r.rounds[..n];
    forall i | 0 <= i < |t.rounds| ensures RoundOk(t.transport, t.rounds, i) {
      assert RoundOk(r.transport, r.rounds, i);
    }
  }

  lemma LockSound(r: Ride, amount: real)
    requires Sound(r) && BoundsForVehicle(r.transport).Has(amount)
    ensures Sound(Lock(r, amount).0)
  {
  }

  lemma ProposeSound(r: Ride, side: Role, amount: real, cfg: Lookup)
    requires Sound(r)
    ensures Sound(Propose(r, side, amount, cfg).0)
  {
    var t := Propose(r, side, amount, cfg).0;
    if t != r {
      CountOfLast(r.rounds, t.rounds[|r.rounds|], Customer);
      CountOfLast(r.rounds, t.rounds[|r.rounds|], Driver);
      forall i | 0 <= i < |t.rounds| ensures RoundOk(t.transport, t.rounds, i) {
        assert i < |r.rounds| ==> RoundOk(r.transport, r.rounds, i);
      }
    }
  }

  lemma StepSound(r: Ride, e: Event)
    requires Sound(r)
    ensures Sound(Step(r, e))
  {
    match e
    case OnPropose(side, amount, cfg) => ProposeSound(r, side, amount, cfg);
    case OnAccept(side, cfg) =>
      if Accept(r, side, cfg).1 == Done {
        assert RoundOk(r.transport, r.rounds, |r.rounds| - 1);
        RespondSound(r, Accepted);
        LockSound(Respond(r, Accepted), r.rounds[|r.rounds| - 1].amount);
      }
    case OnLockManual(amount, cfg) => if LockManual(r, amount, cfg).1 == Done { LockSound(r, amount); }
    case OnDecline => if Decline(r).1 == Done { RespondSound(r, Declined); }
    case _ =>
  }

  /** In every run the rounds are numbered one to n, at most three to a side; every offer and the
      agreed fare are within the vehicle's hard bounds; a confirmed ride has an agreed fare, and one that
      is still negotiated has none. */
  lemma {:induction false} RunSound(t: Transport, estimate: Option<real>, events: seq<Event>)
    ensures Sound(Run(Opened(t, estimate), events))
  {
    if events != [] {
      RunSound(t, estimate, events[..|events| - 1]);
      StepSound(Run(Opened(t, estimate), events[..|events| - 1]), events[|events| - 1]);
    }
  }

  /** In every run an offer is taken exactly if the ride is still negotiated, the fare passes and the party has
      an offer left; it becomes the next round and nothing else changes. */
  lemma ProposeIff(t: Transport, estimate: Option<real>, events: seq<Event>, side: Role, amount: real, cfg: Lookup)
    ensures var r := Run(Opened(t, estimate), events); var (after, result) := Propose(r, side, amount, cfg);
            && result == (if r.status != Negotiating then InvalidTransition
                          else if CheckFare(t, estimate, cfg, amount) != Done then CheckFare(t, estimate, cfg, amount)
                          else if CountBy(r.rounds, side) == 3 then RoundLimit else Done)
            && after == if result == Done then r.(rounds := r.rounds + [Round(|r.rounds| + 1, side, amount, None)]) else r
  {
    RunSound(t, estimate, events);
    TermsStay(Opened(t, estimate), events);
  }

  lemma {:induction false} TermsStay(r: Ride, events: seq<Event>)
    ensures Run(r, events).transport == r.transport && Run(r, events).estimate == r.estimate
  {
    if events != [] {
      TermsStay(r, events[..|events| - 1]);
    }
  }

  /** An offer just made can be accepted by the other party and not by its maker: that fare is then agreed, the
      ride confirmed, and the offer marked. A driver can lock any fare that passes. */
  lemma OfferIsAgreed(t: Transport, estimate: Option<real>, events: seq<Event>, side: Role, amount: real, cfg: Lookup, who: Role)
    requires Propose(Run(Opened(t, estimate), events), side, amount, cfg).1 == Done
    ensures var r := Propose(Run(Opened(t, estimate), events), side, amount, cfg).0; var (after, result) := Accept(r, who, cfg);
            && result == (if who == side then OwnProposal else Done)
            && (result != Done ==> after == r)
            && (result == Done ==>
                  var n := |r.rounds| - 1;
                  after == r.(agreed := Some(amount), status := Confirmed,
                              rounds := r.rounds[n := r.rounds[n].(response := Some(Accepted))]))
    ensures var r := Run(Opened(t, estimate), events);
            LockManual(r, amount, cfg) == (r.(agreed := Some(amount), status := Confirmed), Done)
  {
    ProposeIff(t, estimate, events, side, amount, cfg);
    RunSound(t, estimate, events);
  }

  /** In every run the answers to an acceptance and to a locked amount, the first hindrance first; a fare that
      is locked already stays, and a cancellation ends the ride and leaves all else. */
  lemma AnswersAre(t: Transport, estimate: Option<real>, events: seq<Event>, side: Role, amount: real, cfg: Lookup)
    ensures var r := Run(Opened(t, estimate), events); var n := |r.rounds| - 1;
            && Accept(r, side, cfg).1
               == (if r.status != Negotiating then InvalidTransition else if n < 0 then NoRound
                   else if r.rounds[n].side == side then OwnProposal else CheckFare(t, estimate, cfg, r.rounds[n].amount))
            && LockManual(r, amount, cfg).1
               == (if r.status != Negotiating then InvalidTransition else CheckFare(t, estimate, cfg, amount))
            && (Accept(r, side, cfg).1 != Done ==> Accept(r, side, cfg).0 == r)
            && (LockManual(r, amount, cfg).1 != Done ==> LockManual(r, amount, cfg).0 == r)
            && (r.agreed.Some? ==> Lock(r, amount) == (r, FareLocked))
            && Step(r, OnCancel) == Ride(t, estimate, Cancelled, r.rounds, r.agreed)
  {
    RunSound(t, estimate, events);
    TermsStay(Opened(t, estimate), events);
  }

  /** Declining marks the latest offer and does no more. */
  lemma DeclineMarks(r: Ride)
    ensures var (after, result) := Decline(r); var n := |r.rounds| - 1;
            && result == (if r.status != Negotiating then InvalidTransition else if n < 0 then NoRound else Done)
            && after == if result == Done then r.(rounds := r.rounds[n := r.rounds[n].(response := Some(Declined))]) else r
  {
  }

  lemma {:induction false} RoundsAreOfSomeone(rounds: seq<Round>)
    ensures |rounds| == CountBy(rounds, Customer) + CountBy(rounds, Driver)
  {
    if rounds != [] {
      RoundsAreOfSomeone(rounds[..|rounds| - 1]);
    }
  }

  lemma AtMostSixRounds(t: Transport, estimate: Option<real>, events: seq<Event>)
    ensures |Run(Opened(t, estimate), events).rounds| <= 2 * MAX_OFFERS_PER_SIDE
  {
    RunSound(t, estimate, events);
    RoundsAreOfSomeone(Run(Opened(t, estimate), events).rounds);
  }

  // ---------------------------------------------------------------- where the agreed fare comes from

  /** At step i the fare is agreed: the driver locks it, or a party accepts the latest offer, which is
      the other party's. */
  ghost predicate AgreedAt(r: Ride, events: seq<Event>, i: nat, fare: real)
  {
    && i < |events|
    && var s := Run(r, events[..i]);
       && s.status == Negotiating
       && match events[i]
          case OnLockManual(amount, _) => amount == fare
          case OnAccept(side, _) =>
            s.rounds != [] && s.rounds[|s.rounds| - 1].side != side && s.rounds[|s.rounds| - 1].amount == fare
          case _ => false
  }

  lemma StepAgrees(r: Ride, e: Event, fare: real)
    requires Step(r, e).agreed == Some(fare) && r.agreed != Some(fare)
    ensures AgreedAt(r, [e], 0, fare)
  {
    assert [e][..0] == [];
  }

  /** In every run the agreed fare was agreed in one of these two ways. */
  lemma {:induction false} AgreedFareIsAgreed(r: Ride, events: seq<Event>, fare: real)
    requires r.agreed == None && Run(r, events).agreed == Some(fare)
    ensures exists i: nat :: AgreedAt(r, events, i, fare)
  {
    var n := |events| - 1;
    var s := Run(r, events[..n]);
    if s.agreed == Some(fare) {
      AgreedFareIsAgreed(r, events[..n], fare);
      var i: nat :| AgreedAt(r, events[..n], i, fare);
      assert events[..n][..i] == events[..i];
      assert AgreedAt(r, events, i, fare);
    } else {
      StepAgrees(s, events[n], fare);
      assert [events[n]][..0] == [];
      assert AgreedAt(r, events, n, fare);
    }
  }

  /** Once agreed, a fare stays agreed. */
  lemma {:induction false} AgreedFareStays(r: Ride, events: seq<Event>)
    requires r.agreed.Some?
    ensures Run(r, events).agreed == r.agreed
  {
    if events != [] {
      AgreedFareStays(r, events[..|events| - 1]);
    }
  }

  /** The latest offer is the other party's and within the bounds of the moment. */
  predicate Acceptable(r: Ride, side: Role, cfg: Lookup)
  {
    && r.status == Negotiating && r.rounds != []
    && r.rounds[|r.rounds| - 1].side != side
    && CheckFare(r.transport, r.estimate, cfg, r.rounds[|r.rounds| - 1].amount) == Done
  }

  /** A decline changes nothing about what accepting does: neither the result nor the fare agreed. */
  lemma DeclineWithdrawsNothing(r: Ride, side: Role, cfg: Lookup)
    ensures Accept(Decline(r).0, side, cfg).1 == Accept(r, side, cfg).1
    ensures Accept(Decline(r).0, side, cfg).0.agreed == Accept(r, side, cfg).0.agreed
  {
  }

  function Declines(n: nat): seq<Event>
  {
    seq(n, _ => OnDecline)
  }

  lemma AcceptIff(r: Ride, side: Role, cfg: Lookup)
    requires Sound(r)
    ensures Accept(r, side, cfg).1 == Done <==> Acceptable(r, side, cfg)
    ensures Accept(r, side, cfg).1 == Done ==> Accept(r, side, cfg).0.agreed == Some(r.rounds[|r.rounds| - 1].amount)
  {
  }

  /** A declined offer is not withdrawn. In every run, and however often the latest offer is declined
      then, exactly the same requests to accept it go through as would have without: those of the party
      that did not make it, be it the one that declined, as long as it is within the bounds. */
  lemma {:induction false} DeclinedOfferCanBeAccepted(t: Transport, estimate: Option<real>, events: seq<Event>, n: nat,
                                                      side: Role, cfg: Lookup)
    ensures var r := Run(Opened(t, estimate), events);
            var after := Accept(Run(r, Declines(n)), side, cfg);
            && (after.1 == Done <==> Acceptable(r, side, cfg))
            && (after.1 == Done ==> after.0.agreed == Some(r.rounds[|r.rounds| - 1].amount))
    decreases n
  {
    var r := Run(Opened(t, estimate), events);
    if n == 0 {
      RunSound(t, estimate, events);
      AcceptIff(r, side, cfg);
    } else {
      DeclinedOfferCanBeAccepted(t, estimate, events, n - 1, side, cfg);
      assert Declines(n)[..n - 1] == Declines(n - 1);
      DeclineWithdrawsNothing(Run(r, Declines(n - 1)), side, cfg);
    }
  }

  lemma RunNext(r: Ride, events: seq<Event>, n: nat)
    requires n < |events|
    ensures Run(r, events[..n + 1]) == Step(Run(r, events[..n]), events[n])
  {
    assert events[..n + 1][..n] == events[..n];
  }

  lemma RunOfThree(r: Ride, events: seq<Event>)
    requires |events| == 3
    ensures Run(r, events) == Step(Step(Step(r, events[0]), events[1]), events[2])
  {
    assert events[..0] == [] && events[..3] == events;
    RunNext(r, events, 0);
    RunNext(r, events, 1);
    RunNext(r, events, 2);
  }

  lemma OfferedDeclinedAccepted(r: Ride, amount: real)
    requires r == Opened(Other, None) && BoundsForVehicle(Other).Has(amount)
    ensures var t := Accept(Decline(Propose(r, Customer, amount, NotWired).0).0, Driver, NotWired).0;
            t.status == Confirmed && t.agreed == Some(amount)
  {
    assert Propose(r, Customer, amount, NotWired).0 == r.(rounds := [Round(1, Customer, amount, None)]);
  }

  /** A run in which an offer is declined and then accepted. */
  lemma DeclinedThenAccepted(amount: real, events: seq<Event>)
    requires BoundsForVehicle(Other).Has(amount) && |events| == 3
    requires events[0] == OnPropose(Customer, amount, NotWired) && events[1] == OnDecline && events[2] == OnAccept(Driver, NotWired)
    ensures var r := Run(Opened(Other, None), events); r.status == Confirmed && r.agreed == Some(amount)
  {
    RunOfThree(Opened(Other, None), events);
    OfferedDeclinedAccepted(Opened(Other, None), amount);
  }

  // ---------------------------------------------------------------- the history

  /** An offer or a text message, by the time it was created. */
  datatype Entry = Entry(at: real, offer: bool, id: nat)

  function TimeOf(): Entry -> real { (e: Entry) => e.at }

  /** The two lists merged, an offer before a text of the same time. */
  function Merge(rounds: seq<Entry>, texts: seq<Entry>): seq<Entry>
    decreases |rounds| + |texts|
  {
    if rounds == [] then texts
    else if texts == [] then rounds
    else if rounds[0].at <= texts[0].at then [rounds[0]] + Merge(rounds[1..], texts)
    else [texts[0]] + Merge(rounds, texts[1..])
  }

  method GetHistory(rounds: seq<Entry>, texts: seq<Entry>) returns (entries: seq<Entry>)
    ensures entries == Merge(rounds, texts)
  {
    entries := [];
    var ri, ti := 0, 0;
    while ri < |rounds| || ti < |texts|
      invariant 0 <= ri <= |rounds| && 0 <= ti <= |texts|
      invariant entries + Merge(rounds[ri..], texts[ti..]) == Merge(rounds, texts)
      decreases |rounds| - ri + |texts| - ti
    {
      var addRound := ri < |rounds|;
      if ri < |rounds| && ti < |texts| {
        addRound := rounds[ri].at <= texts[ti].at;
      }
      MergeStep(rounds[ri..], texts[ti..]);
      if addRound {
        assert rounds[ri..][1..] == rounds[ri + 1..];
        Regroup(entries, [rounds[ri]], Merge(rounds[ri + 1..], texts[ti..]));
        entries := entries + [rounds[ri]];
        ri := ri + 1;
      } else {
        assert texts[ti..][1..] == texts[ti + 1..];
        Regroup(entries, [texts[ti]], Merge(rounds[ri..], texts[ti + 1..]));
        entries := entries + [texts[ti]];
        ti := ti + 1;
      }
    }
  }

  lemma MergeStep(rounds: seq<Entry>, texts: seq<Entry>)
    requires rounds != [] || texts != []
    ensures rounds != [] && (texts == [] || rounds[0].at <= texts[0].at) ==>
              Merge(rounds, texts) == [rounds[0]] + Merge(rounds[1..], texts)
    ensures !(rounds != [] && (texts == [] || rounds[0].at <= texts[0].at)) ==>
              Merge(rounds, texts) == [texts[0]] + Merge(rounds, texts[1..])
  {
    if texts == [] {
      assert rounds == [rounds[0]] + rounds[1..];
      assert Merge(rounds[1..], texts) == rounds[1..];
    } else if rounds == [] {
      assert texts == [texts[0]] + texts[1..];
    }
  }

  lemma {:induction false} ClassOfCons(x: Entry, s: seq<Entry>, k: real)
    ensures StableSort.Class([x] + s, TimeOf(), k) == (if x.at == k then [x] else []) + StableSort.Class(s, TimeOf(), k)
  {
    if s == [] {
      assert [x] + s == [x] && [x][..0] == [];
      assert StableSort.Class([x], TimeOf(), k) == StableSort.Class([], TimeOf(), k) + (if x.at == k then [x] else []);
    } else {
      var n := |s| - 1;
      ClassOfCons(x, s[..n], k);
      assert ([x] + s)[..n + 1] == [x] + s[..n];
    }
  }

  lemma {:induction false} ClassOfConcat(a: seq<Entry>, b: seq<Entry>, k: real)
    ensures StableSort.Class(a + b, TimeOf(), k) == StableSort.Class(a, TimeOf(), k) + StableSort.Class(b, TimeOf(), k)
  {
    if b == [] {
      assert a + b == a;
    } else {
      var n := |b| - 1;
      ClassOfConcat(a, b[..n], k);
      assert (a + b)[..|a| + n] == a + b[..n];
    }
  }

  ghost predicate Ascending(s: seq<Entry>) { StableSort.Ordered(s, TimeOf()) }

  /** Nothing as early as k in an ascending list that starts later. */
  lemma NoneThatEarly(s: seq<Entry>, k: real)
    requires Ascending(s) && (s != [] ==> k < s[0].at)
    ensures StableSort.Class(s, TimeOf(), k) == []
  {
    StableSort.ClassNonEmpty(s, TimeOf(), k);
    forall i | 0 <= i < |s| ensures TimeOf()(s[i]) != k {
      assert TimeOf()(s[0]) <= TimeOf()(s[i]);
    }
  }

  lemma Regroup(h: seq<Entry>, a: seq<Entry>, b: seq<Entry>)
    ensures h + (a + b) == h + a + b
    ensures h == [] || a == [] ==> h + (a + b) == a + (h + b)
  {
    if h == [] {
      assert h + (a + b) == a + b && h + b == b;
    } else if a == [] {
      assert a + b == b && a + (h + b) == h + b;
    }
  }

  lemma {:induction false} MergeKeepsClasses(rounds: seq<Entry>, texts: seq<Entry>, k: real)
    requires Ascending(rounds) && Ascending(texts)
    ensures StableSort.Class(Merge(rounds, texts), TimeOf(), k)
            == StableSort.Class(rounds, TimeOf(), k) + StableSort.Class(texts, TimeOf(), k)
    decreases |rounds| + |texts|, 1
  {
    var a, b := StableSort.Class(rounds, TimeOf(), k), StableSort.Class(texts, TimeOf(), k);
    if rounds == [] {
      assert a + b == b;
    } else if texts == [] {
      assert a + b == a;
    } else {
      MergeStep(rounds, texts);
      if rounds[0].at <= texts[0].at {
        TailAscends(rounds);
        MergeKeepsClasses(rounds[1..], texts, k);
        ClassOfCons(rounds[0], Merge(rounds[1..], texts), k);
        ClassOfCons(rounds[0], rounds[1..], k);
        assert rounds == [rounds[0]] + rounds[1..];
        Regroup(if rounds[0].at == k then [rounds[0]] else [], StableSort.Class(rounds[1..], TimeOf(), k), b);
      } else {
        MergeKeepsClassesTextFirst(rounds, texts, k);
      }
    }
  }

  lemma {:induction false} MergeKeepsClassesTextFirst(rounds: seq<Entry>, texts: seq<Entry>, k: real)
    requires Ascending(rounds) && Ascending(texts) && rounds != [] && texts != [] && texts[0].at < rounds[0].at
    ensures StableSort.Class([texts[0]] + Merge(rounds, texts[1..]), TimeOf(), k)
            == StableSort.Class(rounds, TimeOf(), k) + StableSort.Class(texts, TimeOf(), k)
    decreases |rounds| + |texts|, 0
  {
    TailAscends(texts);
    MergeKeepsClasses(rounds, texts[1..], k);
    ClassOfCons(texts[0], Merge(rounds, texts[1..]), k);
    ClassOfCons(texts[0], texts[1..], k);
    assert texts == [texts[0]] + texts[1..];
    if texts[0].at == k {
      NoneThatEarly(rounds, k);
    }
    Regroup(if texts[0].at == k then [texts[0]] else [], StableSort.Class(rounds, TimeOf(), k), StableSort.Class(texts[1..], TimeOf(), k));
  }

  lemma TailAscends(s: seq<Entry>)
    requires Ascending(s) && s != []
    ensures Ascending(s[1..])
    ensures forall e <- s[1..] :: s[0].at <= e.at
  {
    var t := s[1..];
    forall i, j | 0 <= i < j < |t| ensures TimeOf()(t[i]) <= TimeOf()(t[j]) {
      assert TimeOf()(s[i + 1]) <= TimeOf()(s[j + 1]);
    }
    forall e | e in t ensures s[0].at <= e.at {
      var i :| 0 <= i < |t| && t[i] == e;
      assert TimeOf()(s[0]) <= TimeOf()(s[i + 1]);
    }
  }

  lemma ConsAscends(x: Entry, s: seq<Entry>)
    requires Ascending(s) && forall e <- s :: x.at <= e.at
    ensures Ascending([x] + s)
  {
    var t := [x] + s;
    forall i, j | 0 <= i < j < |t| ensures TimeOf()(t[i]) <= TimeOf()(t[j]) {
      if i == 0 {
        assert s[j - 1] in s;
      } else {
        assert TimeOf()(s[i - 1]) <= TimeOf()(s[j - 1]);
      }
    }
  }

  lemma {:induction false} MergeAscends(rounds: seq<Entry>, texts: seq<Entry>)
    requires Ascending(rounds) && Ascending(texts)
    ensures Ascending(Merge(rounds, texts))
    ensures forall e <- Merge(rounds, texts) :: e in rounds || e in texts
    decreases |rounds| + |texts|
  {
    if rounds != [] && texts != [] {
      TailAscends(rounds);
      TailAscends(texts);
      if rounds[0].at <= texts[0].at {
        MergeAscends(rounds[1..], texts);
        forall e | e in Merge(rounds[1..], texts) ensures rounds[0].at <= e.at {
          if e in texts { HeadIsLeast(texts, e); }
        }
        ConsAscends(rounds[0], Merge(rounds[1..], texts));
      } else {
        MergeAscends(rounds, texts[1..]);
        forall e | e in Merge(rounds, texts[1..]) ensures texts[0].at <= e.at {
          if e in rounds { HeadIsLeast(rounds, e); }
        }
        ConsAscends(texts[0], Merge(rounds, texts[1..]));
      }
    }
  }

  lemma HeadIsLeast(s: seq<Entry>, e: Entry)
    requires Ascending(s) && e in s
    ensures s[0].at <= e.at
  {
    var i :| 0 <= i < |s| && s[i] == e;
    if i > 0 {
      assert TimeOf()(s[0]) <= TimeOf()(s[i]);
    }
  }

  /** The merged history is the stable sort by time of all offers followed by all texts: nothing lost,
      nothing out of order, and an offer before a text of the same moment. */
  lemma MergeIsStableSort(rounds: seq<Entry>, texts: seq<Entry>)
    requires Ascending(rounds) && Ascending(texts)
    ensures Merge(rounds, texts) == StableSort.Sort(rounds + texts, TimeOf())
  {
    var m := Merge(rounds, texts);
    MergeAscends(rounds, texts);
    forall k ensures StableSort.Class(m, TimeOf(), k) == StableSort.Class(rounds + texts, TimeOf(), k) {
      MergeKeepsClasses(rounds, texts, k);
      ClassOfConcat(rounds, texts, k);
    }
    StableSort.StableSortIsUnique(rounds + texts, m, TimeOf());
  }

  // ---------------------------------------------------------------- the service

  class Desk {
    const transport: Transport
    const estimate: Option<real>
    var status: Status
    var rounds: seq<Round>
    var agreed: Option<real>

    function Now(): Ride
      reads this
    {
      Ride(transport, estimate, status, rounds, agreed)
    }

    constructor (transport: Transport, estimate: Option<real>)
      ensures Now() == Opened(transport, estimate)
    {
      this.transport, this.estimate := transport, estimate;
      status, rounds, agreed := Negotiating, [], None;
    }

    method ProposeFare(side: Role, amount: real, cfg: Lookup) returns (result: Result)
      modifies this
      ensures (Now(), result) == Propose(old(Now()), side, amount, cfg)
    {
      if status != Negotiating {
        return InvalidTransition;
      }
      var fault := CheckFare(transport, estimate, cfg, amount);
      if fault != Done {
        return fault;
      }
      if CountBy(rounds, side) >= MAX_OFFERS_PER_SIDE {
        return RoundLimit;
      }
      rounds := rounds + [Round(|rounds| + 1, side, amount, None)];
      return Done;
    }

    method LockFare(amount: real) returns (result: Result)
      modifies this
      ensures (Now(), result) == Lock(old(Now()), amount)
    {
      if agreed.Some? {
        return FareLocked;
      }
      agreed := Some(amount);
      status := Confirmed;
      return Done;
    }

    method AcceptFare(side: Role, cfg: Lookup) returns (result: Result)
      modifies this
      ensures (Now(), result) == Accept(old(Now()), side, cfg)
    {
      if status != Negotiating {
        return InvalidTransition;
      }
      if |rounds| == 0 {
        return NoRound;
      }
      var n := |rounds| - 1;
      var latest := rounds[n];
      if latest.side == side {
        return OwnProposal;
      }
      var fault := CheckFare(transport, estimate, cfg, latest.amount);
      if fault != Done {
        return fault;
      }
      rounds := rounds[n := latest.(response := Some(Accepted))];
      result := LockFare(latest.amount);
    }

    method LockManualFare(amount: real, cfg: Lookup) returns (result: Result)
      modifies this
      ensures (Now(), result) == LockManual(old(Now()), amount, cfg)
    {
      if status != Negotiating {
        return InvalidTransition;
      }
      var fault := CheckFare(transport, estimate, cfg, amount);
      if fault != Done {
        return fault;
      }
      result := LockFare(amount);
    }

    method DeclineFare() returns (result: Result)
      modifies this
      ensures (Now(), result) == Decline(old(Now()))
    {
      if status != Negotiating {
        return InvalidTransition;
      }
      if |rounds| == 0 {
        return NoRound;
      }
      var n := |rounds| - 1;
      rounds := rounds[n := rounds[n].(response := Some(Declined))];
      return Done;
    }
  }
}
