/** Taking one ride credit from the driver when a fare is agreed, and giving it back when the ride is
    cancelled through no fault of his (internal/ride/service.go).

    The charge sets its guard key first and asks the entitlement ledger afterwards. Its failure is
    logged and never blocks the ride, and nothing tries again. */
module Charging {

  import opened Options
  import E = Entitlements
  import N = Negotiation

  /** What a request meets: the packages are wired in, Redis answers, the driver is found. */
  datatype World = World(wired: bool, redisUp: bool, resolved: bool)

  /** A ride, its driver's account, and the whole ledger. `charges` and `refunds` count what went through. */
  datatype Deal = Deal(ride: N.Ride, id: string, driver: E.Owner, books: E.State, guard: bool, charges: nat, refunds: nat)

  function Opening(t: N.Transport, estimate: Option<real>, id: string, driver: E.Owner, books: E.State): Deal
  {
    Deal(N.Opened(t, estimate), id, driver, books, false, 0, 0)
  }

  function Charge(d: Deal, w: World): Deal
  {
    if !w.wired || !w.redisUp || d.guard then d
    else if !w.resolved then d.(guard := true)
    else AfterDeduct(d, E.Deduct(d.books, d.driver, d.id))
  }

  function AfterDeduct(d: Deal, answer: (E.State, E.Result)): Deal
  {
    d.(guard := true, books := answer.0, charges := d.charges + if answer.1 == E.Done then 1 else 0)
  }

  function Refund(d: Deal, w: World): Deal
  {
    if !w.wired || !w.resolved then d
    else AfterRefund(d, E.Refund(d.books, d.driver, d.id))
  }

  function AfterRefund(d: Deal, answer: (E.State, E.Result)): Deal
  {
    d.(books := answer.0, refunds := d.refunds + if answer.1 == E.Done then 1 else 0)
  }

  /** The request locks a fare. */
  predicate Agrees(r: N.Ride, e: N.Event)
  {
    r.agreed == None && N.Step(r, e).agreed.Some?
  }

  /** A confirmed ride cancelled without the driver's fault is refunded. */
  function Cancelled(d: Deal, blameless: bool, w: World): Deal
  {
    var cancelled := d.(ride := N.Step(d.ride, N.OnCancel));
    if d.ride.status == N.Confirmed && blameless then Refund(cancelled, w) else cancelled
  }

  /** `Books` is anything else that happens to the ledger. */
  datatype Event =
    | Talk(e: N.Event, w: World)
    | Cancel(blameless: bool, w: World)
    | Books(op: E.Op)

  function Step(d: Deal, e: Event): Deal
  {
    match e
    case Talk(e, w) =>
      var t := d.(ride := N.Step(d.ride, e));
      if Agrees(d.ride, e) then Charge(t, w) else t
    case Cancel(blameless, w) => Cancelled(d, blameless, w)
    case Books(op) => d.(books := E.Apply(d.books, op))
  }

  function Run(d: Deal, events: seq<Event>): Deal
  {
    if events == [] then d else Step(Run(d, events[..|events| - 1]), events[|events| - 1])
  }

  // ---------------------------------------------------------------- when the credit is taken

  /** Everything is up, and there is a credit that the ride has not used. */
  predicate CreditThere(d: Deal, w: World)
  {
    && w.wired && w.redisUp && w.resolved
    && !E.KeyUsed(d.books.rows, d.id)
    && d.driver in d.books.cache && d.books.cache[d.driver].rides + d.books.cache[d.driver].bonus > 0
  }

  ghost predicate Sound(d: Deal)
  {
    && (d.guard ==> d.ride.agreed.Some?)
    && d.charges <= (if d.guard then 1 else 0)
    && (d.ride.status == N.Negotiating ==> d.ride.agreed == None)
    && (d.ride.status == N.Confirmed ==> d.ride.agreed.Some?)
  }

  lemma StepSound(d: Deal, e: Event)
    requires Sound(d)
    ensures Sound(Step(d, e))
  {
  }

  /** In every run the credit is taken at most once, and not without an agreed fare. */
  lemma {:induction false} RunSound(d: Deal, events: seq<Event>)
    requires Sound(d)
    ensures Sound(Run(d, events))
    ensures Run(d, events).charges <= 1 && (Run(d, events).charges == 1 ==> Run(d, events).ride.agreed.Some?)
  {
    if events != [] {
      RunSound(d, events[..|events| - 1]);
      StepSound(Run(d, events[..|events| - 1]), events[|events| - 1]);
    }
  }

  ghost predicate AgreesAt(d: Deal, events: seq<Event>, i: nat)
  {
    i < |events| && events[i].Talk? && Agrees(Run(d, events[..i]).ride, events[i].e)
  }

  ghost predicate ChargedAt(d: Deal, events: seq<Event>, i: nat)
  {
    AgreesAt(d, events, i) && CreditThere(Run(d, events[..i]), events[i].w)
  }

  /** One step charges exactly when it locks the fare and the credit is there: the guard never stands in
      the way. */
  lemma StepCharges(d: Deal, e: Event)
    requires Sound(d)
    ensures Step(d, e).charges == d.charges + if e.Talk? && Agrees(d.ride, e.e) && CreditThere(d, e.w) then 1 else 0
  {
    E.DeductDoneIff(d.books, d.driver, d.id);
  }

  /** The guard key is set by the step that agrees the fare if the key can be set at all, even if the driver is
      then not found. */
  lemma GuardIs(d: Deal, e: Event)
    ensures Step(d, e).guard <==> d.guard || (e.Talk? && Agrees(d.ride, e.e) && e.w.wired && e.w.redisUp)
  {
  }

  ghost predicate EverCharged(d: Deal, events: seq<Event>)
  {
    exists i: nat :: ChargedAt(d, events, i)
  }

  lemma EverChargedUpTo(d: Deal, events: seq<Event>)
    requires events != []
    ensures EverCharged(d, events) <==> EverCharged(d, events[..|events| - 1]) || ChargedAt(d, events, |events| - 1)
  {
    var n := |events| - 1;
    assert forall i: nat | i < n :: events[..n][..i] == events[..i] && events[..n][i] == events[i];
    assert forall i: nat :: ChargedAt(d, events[..n], i) <==> i < n && ChargedAt(d, events, i);
  }

  /** In every run the driver is charged exactly if at the step that agreed the fare the credit was
      there. */
  lemma {:induction false} ChargedIff(d: Deal, events: seq<Event>)
    requires Sound(d) && d.charges == 0
    ensures Run(d, events).charges == 1 <==> EverCharged(d, events)
    ensures Run(d, events).charges <= 1
  {
    RunSound(d, events);
    if events != [] {
      var n := |events| - 1;
      ChargedIff(d, events[..n]);
      RunSound(d, events[..n]);
      StepCharges(Run(d, events[..n]), events[n]);
      EverChargedUpTo(d, events);
    }
  }

  lemma StepAgreed(d: Deal, e: Event)
    requires d.ride.agreed.Some?
    ensures Step(d, e).ride.agreed == d.ride.agreed
  {
  }

  ghost predicate AgreedBy(d: Deal, events: seq<Event>, n: nat)
    requires n <= |events|
  {
    Run(d, events[..n]).ride.agreed.Some?
  }

  lemma RunNext(d: Deal, events: seq<Event>, n: nat)
    requires n < |events|
    ensures Run(d, events[..n + 1]) == Step(Run(d, events[..n]), events[n])
  {
    assert events[..n + 1][..n] == events[..n];
  }

  lemma AgreedNext(d: Deal, events: seq<Event>, n: nat)
    requires n < |events| && AgreedBy(d, events, n)
    ensures AgreedBy(d, events, n + 1)
  {
    RunNext(d, events, n);
    StepAgreed(Run(d, events[..n]), events[n]);
  }

  lemma {:induction false} AgreedStays(d: Deal, events: seq<Event>, n: nat, m: nat)
    requires n <= m <= |events| && AgreedBy(d, events, n)
    ensures AgreedBy(d, events, m)
    decreases m - n
  {
    if n < m {
      AgreedNext(d, events, n);
      AgreedStays(d, events, n + 1, m);
    }
  }

  /** The fare is agreed at one step at most, so that there is one charge at most to attempt and its
      guard key, whenever it expires, has nothing to guard against. */
  lemma AgreedOnce(d: Deal, events: seq<Event>, i: nat, j: nat)
    requires AgreesAt(d, events, i) && AgreesAt(d, events, j)
    ensures i == j
  {
    if i < j {
      AgreedBefore(d, events, i, j);
    } else if j < i {
      AgreedBefore(d, events, j, i);
    }
  }

  lemma AgreedBefore(d: Deal, events: seq<Event>, i: nat, j: nat)
    requires AgreesAt(d, events, i) && i < j < |events|
    ensures !AgreesAt(d, events, j)
  {
    RunNext(d, events, i);
    assert AgreedBy(d, events, i + 1) by {
      AgreedNow(Run(d, events[..i]), events[i]);
    }
    AgreedStays(d, events, i + 1, j);
  }

  lemma AgreedNow(d: Deal, e: Event)
    requires e.Talk? && Agrees(d.ride, e.e)
    ensures Step(d, e).ride.agreed.Some?
  {
  }

  // ---------------------------------------------------------------- when a credit is given back

  /** Cancelled after it was confirmed and not through the driver's fault, with everything up, and not refunded
      before. Whether it was charged does not come into it. */
  predicate RefundDue(d: Deal, e: Event)
  {
    && e.Cancel? && e.blameless && d.ride.status == N.Confirmed && e.w.wired && e.w.resolved
    && !E.KeyUsed(d.books.rows, E.RefundKey(d.id))
  }

  lemma StepRefunds(d: Deal, e: Event)
    ensures Step(d, e).refunds == d.refunds + if RefundDue(d, e) then 1 else 0
    ensures e.Cancel? ==> Step(d, e).ride == d.ride.(status := N.Cancelled) && Step(d, e).charges == d.charges
  {
  }

  ghost predicate RefundedAt(d: Deal, events: seq<Event>, i: nat)
  {
    i < |events| && RefundDue(Run(d, events[..i]), events[i])
  }

  ghost predicate EverRefunded(d: Deal, events: seq<Event>)
  {
    exists i: nat :: RefundedAt(d, events, i)
  }

  lemma EverRefundedUpTo(d: Deal, events: seq<Event>)
    requires events != []
    ensures EverRefunded(d, events) <==> EverRefunded(d, events[..|events| - 1]) || RefundedAt(d, events, |events| - 1)
  {
    var n := |events| - 1;
    assert forall i: nat | i < n :: events[..n][..i] == events[..i] && events[..n][i] == events[i];
    assert forall i: nat :: RefundedAt(d, events[..n], i) <==> i < n && RefundedAt(d, events, i);
  }

  /** In every run the driver gets a credit back exactly if some step cancelled the confirmed ride like that. */
  lemma {:induction false} RefundedIff(d: Deal, events: seq<Event>)
    requires d.refunds == 0
    ensures Run(d, events).refunds >= 1 <==> EverRefunded(d, events)
  {
    if events != [] {
      var n := |events| - 1;
      RefundedIff(d, events[..n]);
      StepRefunds(Run(d, events[..n]), events[n]);
      EverRefundedUpTo(d, events);
    }
  }

  // ---------------------------------------------------------------- what the ride leaves in the ledger

  /** The ledger's other business: no row under this ride's keys. */
  predicate Foreign(op: E.Op, id: string)
  {
    match op
    case OpGrant(_, _, _, key, _) => key != Some(id) && key != Some(E.RefundKey(id))
    case OpDeduct(_, ride) => ride != id && ride != E.RefundKey(id)
    case OpRefund(_, ride) => E.RefundKey(ride) != id && E.RefundKey(ride) != E.RefundKey(id)
    case _ => true
  }

  ghost predicate Surroundings(events: seq<Event>, id: string)
  {
    forall e <- events :: e.Books? ==> Foreign(e.op, id)
  }

  /** The counts agree with the keys in the ledger. */
  ghost predicate Kept(d: Deal)
  {
    && E.Shaped(d.books.rows) && E.Consistent(d.books)
    && (E.KeyUsed(d.books.rows, d.id) <==> d.charges >= 1)
    && (E.KeyUsed(d.books.rows, E.RefundKey(d.id)) <==> d.refunds >= 1)
    && d.refunds <= 1
    && (d.charges >= 1 ==> E.Charged(d.books.rows, d.driver, d.id))
    && (d.refunds >= 1 ==> E.Refunded(d.books.rows, d.driver, d.id))
  }

  /** Rows appended under other keys. */
  ghost predicate Unrelated(more: seq<E.Row>, id: string)
  {
    forall row <- more :: row.key != Some(id) && row.key != Some(E.RefundKey(id))
  }

  lemma {:induction false} SweepUnrelated(s: E.State, order: seq<E.Owner>, now: int, id: string) returns (more: seq<E.Row>)
    ensures E.Sweep(s, order, now).rows == s.rows + more && Unrelated(more, id)
  {
    more := [];
    if order != [] {
      var before := E.Sweep(s, order[..|order| - 1], now);
      more := SweepUnrelated(s, order[..|order| - 1], now, id);
      var after := E.SweepOne(before, order[|order| - 1], now);
      if after != before {
        more := more + [after.rows[|before.rows|]];
      }
    }
  }

  lemma ForeignUnrelated(s: E.State, op: E.Op, id: string) returns (more: seq<E.Row>)
    requires Foreign(op, id)
    ensures E.Apply(s, op).rows == s.rows + more && Unrelated(more, id)
  {
    var t := E.Apply(s, op);
    more := [];
    match op
    case OpSweep(order, now) => more := SweepUnrelated(s, order, now, id);
    case OpDeduct(o, r) => if E.Deduct(s, o, r).1 == E.Done { more := [t.rows[|s.rows|]]; }
    case OpGrant(o, kind, d, key, e) => if E.Grant(s, o, kind, d, key, e).1 == E.Done { more := [t.rows[|s.rows|]]; }
    case OpRefund(o, r) => if E.Refund(s, o, r).1 == E.Done { more := [t.rows[|s.rows|]]; }
    case OpRevoke(o, d) => if E.Revoke(s, o, d).1 == E.Done { more := [t.rows[|s.rows|]]; }
  }

  lemma KeysOfMore(rows: seq<E.Row>, more: seq<E.Row>, key: string)
    requires forall row <- more :: row.key != Some(key)
    ensures E.KeyUsed(rows + more, key) <==> E.KeyUsed(rows, key)
  {
    var all := rows + more;
    if E.KeyUsed(rows, key) {
      var i :| 0 <= i < |rows| && rows[i].key == Some(key);
      assert all[i] == rows[i];
    }
    if E.KeyUsed(all, key) {
      var i :| 0 <= i < |all| && all[i].key == Some(key);
      if i >= |rows| {
        assert all[i] in more;
      }
    }
  }

  lemma StillThere(rows: seq<E.Row>, more: seq<E.Row>, o: E.Owner, id: string)
    ensures E.Charged(rows, o, id) ==> E.Charged(rows + more, o, id)
    ensures E.Refunded(rows, o, id) ==> E.Refunded(rows + more, o, id)
  {
    var all := rows + more;
    if E.Charged(rows, o, id) {
      var i :| 0 <= i < |rows| && rows[i].owner == o && E.IsCharge(rows[i], id);
      assert all[i] == rows[i];
    }
    if E.Refunded(rows, o, id) {
      var i :| 0 <= i < |rows| && rows[i].owner == o && E.IsRefund(rows[i], id);
      assert all[i] == rows[i];
    }
  }

  lemma BooksKept(d: Deal, op: E.Op)
    requires Kept(d) && Foreign(op, d.id)
    ensures Kept(Step(d, Books(op)))
  {
    var more := ForeignUnrelated(d.books, op, d.id);
    E.ApplyConsistent(d.books, op);
    E.ApplyShaped(d.books, op);
    MoreKept(d, E.Apply(d.books, op), more);
  }

  lemma MoreKept(d: Deal, books: E.State, more: seq<E.Row>)
    requires Kept(d) && E.Shaped(books.rows) && E.Consistent(books)
    requires books.rows == d.books.rows + more && Unrelated(more, d.id)
    ensures Kept(d.(books := books))
  {
    KeysOfMore(d.books.rows, more, d.id);
    KeysOfMore(d.books.rows, more, E.RefundKey(d.id));
    StillThere(d.books.rows, more, d.driver, d.id);
  }

  lemma ChargeKept(d: Deal, w: World)
    requires Kept(d)
    ensures Kept(Charge(d, w))
  {
    var t := Charge(d, w);
    E.RefundKeyDiffers(d.id);
    E.DeductDoneIff(d.books, d.driver, d.id);
    if t.books != d.books {
      var row := t.books.rows[|d.books.rows|];
      assert t.books.rows == d.books.rows + [row];
      E.ApplyConsistent(d.books, E.OpDeduct(d.driver, d.id));
      E.ApplyShaped(d.books, E.OpDeduct(d.driver, d.id));
      E.KeyOfLast(d.books.rows, row, d.id);
      E.KeyOfLast(d.books.rows, row, E.RefundKey(d.id));
      StillThere(d.books.rows, [row], d.driver, d.id);
    }
  }

  lemma RefundKept(d: Deal, w: World)
    requires Kept(d)
    ensures Kept(Refund(d, w))
  {
    E.RefundKeyDiffers(d.id);
    if w.wired && w.resolved && !E.KeyUsed(d.books.rows, E.RefundKey(d.id)) {
      var row := E.RefundAppends(d.books, d.driver, d.id);
      E.ApplyConsistent(d.books, E.OpRefund(d.driver, d.id));
      E.ApplyShaped(d.books, E.OpRefund(d.driver, d.id));
      RefundRowKept(d, Refund(d, w), row);
    }
  }

  lemma RefundRowKept(d: Deal, t: Deal, row: E.Row)
    requires Kept(d) && E.RefundKey(d.id) != d.id && d.refunds == 0
    requires row.owner == d.driver && E.IsRefund(row, d.id) && t.books.rows == d.books.rows + [row]
    requires t == d.(books := t.books, refunds := 1) && E.Shaped(t.books.rows) && E.Consistent(t.books)
    ensures Kept(t)
  {
    E.KeyOfLast(d.books.rows, row, d.id);
    E.KeyOfLast(d.books.rows, row, E.RefundKey(d.id));
    StillThere(d.books.rows, [row], d.driver, d.id);
    assert t.books.rows[|d.books.rows|] == row;
  }

  lemma StepKept(d: Deal, e: Event)
    requires Kept(d) && (e.Books? ==> Foreign(e.op, d.id))
    ensures Kept(Step(d, e))
  {
    match e
    case Books(op) => BooksKept(d, op);
    case Talk(e, w) =>
      var t := d.(ride := N.Step(d.ride, e));
      assert Kept(t);
      ChargeKept(t, w);
    case Cancel(blameless, w) =>
      var t := d.(ride := N.Step(d.ride, N.OnCancel));
      assert Kept(t);
      RefundKept(t, w);
  }

  lemma {:induction false} RunKept(d: Deal, events: seq<Event>)
    requires Kept(d) && Surroundings(events, d.id)
    ensures Kept(Run(d, events)) && Run(d, events).id == d.id && Run(d, events).driver == d.driver
  {
    if events != [] {
      var n := |events| - 1;
      assert events[n] in events && forall e | e in events[..n] :: e in events;
      RunKept(d, events[..n]);
      StepKept(Run(d, events[..n]), events[n]);
    }
  }

  /** What the ride has done to the driver's balance in the end is what was refunded less what was
      charged: nothing, one less, or one more. It is one more exactly when he was refunded and never
      charged. */
  lemma NetOfRide(t: N.Transport, estimate: Option<real>, id: string, driver: E.Owner, ops: seq<E.Op>, events: seq<Event>)
    requires var books := E.Run(E.EMPTY, ops);
             !E.KeyUsed(books.rows, id) && !E.KeyUsed(books.rows, E.RefundKey(id))
    requires Surroundings(events, id)
    ensures var d := Run(Opening(t, estimate, id, driver, E.Run(E.EMPTY, ops)), events);
            && E.RideNet(d.books.rows, driver, id) == d.refunds - d.charges
            && d.refunds <= 1 && d.charges <= 1
            && (E.RideNet(d.books.rows, driver, id) == 1 <==> d.refunds == 1 && d.charges == 0)
  {
    var o := Opening(t, estimate, id, driver, E.Run(E.EMPTY, ops));
    E.RunConsistent(ops);
    E.RunShaped(ops);
    RunKept(o, events);
    RunSound(o, events);
    var d := Run(o, events);
    E.RideNetIs(d.books.rows, driver, id);
    KeysCount(d.books.rows, driver, id);
  }

  lemma KeysCount(rows: seq<E.Row>, o: E.Owner, id: string)
    ensures E.Charged(rows, o, id) ==> E.KeyUsed(rows, id)
    ensures E.Refunded(rows, o, id) ==> E.KeyUsed(rows, E.RefundKey(id))
  {
  }

  // ---------------------------------------------------------------- a run that is never charged

  const UP := World(true, true, true)

  /** The customer offers, the driver accepts. */
  predicate Haggles(offer: Event, answer: Event)
  {
    && offer == Talk(N.OnPropose(N.Customer, 1000.0, N.NotWired), UP)
    && answer == Talk(N.OnAccept(N.Driver, N.NotWired), UP)
  }

  lemma HaggleConfirms(r: N.Ride, offer: Event, answer: Event)
    requires r == N.Opened(N.Other, None) && Haggles(offer, answer)
    ensures var t := N.Step(r, offer.e);
            t.agreed == None && Agrees(t, answer.e) && N.Step(t, answer.e).status == N.Confirmed
  {
    assert N.Step(r, offer.e).rounds == [N.Round(1, N.Customer, 1000.0, None)];
  }

  /** Without a credit, the fare is agreed and the charge is not made. */
  lemma HaggleUncharged(d: Deal, offer: Event, answer: Event)
    requires d.ride == N.Opened(N.Other, None) && !d.guard && !CreditThere(d, UP) && Haggles(offer, answer)
    ensures var t := Step(Step(d, offer), answer);
            t.ride.status == N.Confirmed && t == d.(ride := t.ride, guard := true)
  {
    HaggleConfirms(d.ride, offer, answer);
    E.DeductDoneIff(d.books, d.driver, d.id);
  }

  /** The ledger of a driver who has one ride, with which he may go online. */
  function OneRide(driver: E.Owner): E.State
  {
    E.Apply(E.EMPTY, E.Bought(driver, 1))
  }

  lemma OneRideIsThere(driver: E.Owner)
    ensures E.Cached(OneRide(driver), driver) == E.Credits(1, 0)
  {
    E.AfterPurchase(driver, 1);
  }

  lemma RideTaken(driver: E.Owner, n: int, other: string)
    requires n > 0
    ensures E.Apply(E.Apply(E.EMPTY, E.Bought(driver, n)), E.OpDeduct(driver, other))
            == E.State(map[driver := E.Credits(n - 1, 0)], [E.BoughtRow(driver, n), E.TakenRow(driver, n, other)])
  {
    E.AfterPurchase(driver, n);
    E.AfterOneTaken(E.Apply(E.EMPTY, E.Bought(driver, n)), driver, n, other);
  }

  /** Another ride takes it. */
  lemma LastRideTaken(driver: E.Owner, other: string)
    ensures var books := E.Apply(OneRide(driver), E.OpDeduct(driver, other));
            && driver in books.cache && books.cache[driver] == E.ZERO
            && |books.rows| == 2 && books.rows[0] == E.BoughtRow(driver, 1) && books.rows[1] == E.TakenRow(driver, 1, other)
  {
    RideTaken(driver, 1, other);
  }

  lemma RunOfThree(d: Deal, events: seq<Event>)
    requires |events| == 3
    ensures Run(d, events) == Step(Step(Step(d, events[0]), events[1]), events[2])
  {
    RunNext(d, events, 0);
    RunNext(d, events, 1);
    RunNext(d, events, 2);
    assert events[..0] == [] && events[..3] == events;
  }

  /** A driver with one ride left, of which another ride is then charged. Everything answers, the fare is
      agreed, the ride is confirmed: and he is not charged, and never will be. */
  lemma ConfirmedAndUncharged(id: string, other: string, driver: E.Owner, events: seq<Event>)
    requires |events| == 3 && events[0] == Books(E.OpDeduct(driver, other)) && Haggles(events[1], events[2])
    ensures var d := Run(Opening(N.Other, None, id, driver, OneRide(driver)), events);
            && d.ride.status == N.Confirmed && d.guard && d.charges == 0 && d.refunds == 0
            && d.books == E.Apply(OneRide(driver), E.OpDeduct(driver, other)) && d.driver == driver && d.id == id
  {
    var d := Opening(N.Other, None, id, driver, OneRide(driver));
    LastRideTaken(driver, other);
    HaggleUncharged(Step(d, events[0]), events[1], events[2]);
    RunOfThree(d, events);
  }

  lemma OtherKeysUnused(rows: seq<E.Row>, driver: E.Owner, other: string, key: string)
    requires |rows| == 2 && rows[0] == E.BoughtRow(driver, 1) && rows[1] == E.TakenRow(driver, 1, other) && key != other
    ensures !E.KeyUsed(rows, key)
  {
  }

  lemma RefundedNow(d: Deal)
    requires d.ride.status == N.Confirmed && d.refunds == 0 && E.Cached(d.books, d.driver) == E.ZERO
    requires !E.KeyUsed(d.books.rows, E.RefundKey(d.id))
    ensures var t := Step(d, Cancel(true, UP));
            t.charges == d.charges && t.refunds == 1 && E.Cached(t.books, d.driver) == E.Credits(1, 0)
  {
  }

  lemma ThenRefunded(start: Deal, events: seq<Event>, d: Deal)
    requires |events| == 4 && d == Run(start, events[..3]) && events[3] == Cancel(true, UP)
    requires d.ride.status == N.Confirmed && d.refunds == 0 && E.Cached(d.books, d.driver) == E.ZERO
    requires !E.KeyUsed(d.books.rows, E.RefundKey(d.id))
    ensures var t := Run(start, events);
            t.charges == d.charges && t.refunds == 1 && E.Cached(t.books, d.driver) == E.Credits(1, 0)
  {
    assert events[..4] == events;
    RunNext(start, events, 3);
    RefundedNow(d);
  }

  /** If the customer cancels now, the driver is given a credit for it. */
  lemma UnchargedAndRefunded(id: string, other: string, driver: E.Owner, events: seq<Event>)
    requires |events| == 4 && events[0] == Books(E.OpDeduct(driver, other)) && Haggles(events[1], events[2])
    requires events[3] == Cancel(true, UP) && E.RefundKey(id) != other
    ensures var d := Run(Opening(N.Other, None, id, driver, OneRide(driver)), events);
            d.charges == 0 && d.refunds == 1 && E.Cached(d.books, driver) == E.Credits(1, 0)
  {
    var start := Opening(N.Other, None, id, driver, OneRide(driver));
    ConfirmedAndUncharged(id, other, driver, events[..3]);
    LastRideTaken(driver, other);
    OtherKeysUnused(Run(start, events[..3]).books.rows, driver, other, E.RefundKey(id));
    ThenRefunded(start, events, Run(start, events[..3]));
  }

  // ---------------------------------------------------------------- the service

  class Desk {
    const id: string
    const driver: E.Owner
    const ledger: E.Ledger
    var ride: N.Ride
    var guard: bool
    var charges: nat
    var refunds: nat

    function Now(): Deal
      reads this, ledger
    {
      Deal(ride, id, driver, ledger.Now(), guard, charges, refunds)
    }

    constructor (t: N.Transport, estimate: Option<real>, id: string, driver: E.Owner, ledger: E.Ledger)
      ensures Now() == Opening(t, estimate, id, driver, ledger.Now()) && this.ledger == ledger
    {
      this.id, this.driver, this.ledger := id, driver, ledger;
      ride, guard, charges, refunds := N.Opened(t, estimate), false, 0, 0;
    }

    method ChargeForAgreedFare(w: World)
      modifies this, ledger
      ensures Now() == Charge(old(Now()), w)
    {
      if !w.wired {
        return;
      }
      if !w.redisUp || guard {
        return;
      }
      guard := true;
      if !w.resolved {
        return;
      }
      var result := ledger.DeductOne(driver, id);
      if result == E.Done {
        charges := charges + 1;
      }
      assert Now() == AfterDeduct(old(Now()), (ledger.Now(), result));
    }

    method CountRefund(result: E.Result)
      modifies this`refunds
      ensures Now() == AfterRefund(old(Now()), (old(ledger.Now()), result))
    {
      if result == E.Done {
        refunds := refunds + 1;
      }
    }

    method RefundDriverCredit(w: World)
      modifies this, ledger
      ensures Now() == Refund(old(Now()), w)
    {
      if !w.wired {
        return;
      }
      if !w.resolved {
        return;
      }
      var result := ledger.RefundOne(driver, id);
      CountRefund(result);
    }

    method CancelRide(blameless: bool, w: World)
      modifies this, ledger
      ensures Now() == Cancelled(old(Now()), blameless, w)
    {
      var charged := ride.status == N.Confirmed;
      ride := ride.(status := N.Cancelled);
      if charged && blameless {
        RefundDriverCredit(w);
      }
    }
  }
}
