/** The entitlement ledger (internal/packages/ledger.go and admin_entitlements.go): append-only rows
    of credit movements, with each driver's balance per vehicle type cached beside them.

    `Ledger` is the pair of tables and the program's transactions on it; every method is proved
    equal to a function on `State`, and the theorems are about those functions, over every
    sequence of operations. */
module Entitlements {

  import opened Options

  datatype Owner = Owner(driver: string, vehicleType: string)

  datatype Kind = PurchaseGrant | BonusGrant | AdminGrant | AdminRevoke | RideDeduction | RideRefund | Expiry

  type GrantKind = k: Kind | k == PurchaseGrant || k == BonusGrant || k == AdminGrant witness PurchaseGrant

  /** Regular and bonus rides: a balance, or a change to one. */
  datatype Credits = Credits(rides: int, bonus: int) {
    function Plus(d: Credits): Credits { Credits(rides + d.rides, bonus + d.bonus) }
    function Minus(d: Credits): Credits { Credits(rides - d.rides, bonus - d.bonus) }
    function Floored(): Credits { Credits(Max0(rides), Max0(bonus)) }
    predicate NonNegative() { rides >= 0 && bonus >= 0 }
    predicate AtMost(d: Credits) { rides <= d.rides && bonus <= d.bonus }
  }

  const ZERO := Credits(0, 0)

  function Max0(n: int): (r: int)
    ensures r >= 0 && r >= n && (r == n || r == 0)
  {
    if n < 0 then 0 else n
  }

  datatype Row = Row(owner: Owner, kind: Kind, delta: Credits, balance: Credits, key: Option<string>, expiresAt: Option<int>)

  datatype State = State(cache: map<Owner, Credits>, rows: seq<Row>)

  const EMPTY := State(map[], [])

  datatype Result = Done | Skipped | NoCredits | NotFound | DuplicateKey | BadAmount

  // ---------------------------------------------------------------- aggregates over the rows

  /** Sum of all movements of an owner. */
  function Replay(rows: seq<Row>, o: Owner): Credits
  {
    if rows == [] then ZERO
    else
      var last := rows[|rows| - 1];
      var rest := Replay(rows[..|rows| - 1], o);
      if last.owner == o then rest.Plus(last.delta) else rest
  }

  /** Positive movements that have not expired at `now`. */
  function Live(rows: seq<Row>, o: Owner, now: int): (c: Credits)
    ensures c.NonNegative()
  {
    if rows == [] then ZERO
    else
      var last := rows[|rows| - 1];
      var rest := Live(rows[..|rows| - 1], o, now);
      if last.owner == o && (last.expiresAt == None || last.expiresAt.value > now) then rest.Plus(last.delta.Floored())
      else rest
  }

  /** Negative movements, as positive numbers; `Expiry` rows only when asked for. */
  function Used(rows: seq<Row>, o: Owner, expiries: bool): (c: Credits)
    ensures c.NonNegative()
  {
    if rows == [] then ZERO
    else
      var last := rows[|rows| - 1];
      var rest := Used(rows[..|rows| - 1], o, expiries);
      if last.owner == o && (expiries || last.kind != Expiry) then rest.Plus(ZERO.Minus(last.delta).Floored())
      else rest
  }

  /** The two totals the admin console shows. */
  function Totals(rows: seq<Row>, o: Owner): (int, int)
  {
    if rows == [] then (0, 0)
    else
      var d := rows[|rows| - 1].delta;
      var (granted, consumed) := Totals(rows[..|rows| - 1], o);
      if rows[|rows| - 1].owner == o then
        (granted + Max0(d.rides) + Max0(d.bonus), consumed + Max0(-d.rides) + Max0(-d.bonus))
      else (granted, consumed)
  }

  predicate KeyUsed(rows: seq<Row>, key: string)
  {
    exists i :: 0 <= i < |rows| && rows[i].key == Some(key)
  }

  // ---------------------------------------------------------------- the operations on states

  function Cached(s: State, o: Owner): Credits
  {
    if o in s.cache then s.cache[o] else ZERO
  }

  /** Every transaction ends like this: one row appended, the cache set to the new balance. */
  function Write(s: State, o: Owner, kind: Kind, delta: Credits, key: Option<string>, expiresAt: Option<int>): State
  {
    var balance := Cached(s, o).Plus(delta);
    State(s.cache[o := balance], s.rows + [Row(o, kind, delta, balance, key, expiresAt)])
  }

  function Grant(s: State, o: Owner, kind: GrantKind, d: Credits, key: Option<string>, expiresAt: Option<int>): (State, Result)
  {
    if key.Some? && KeyUsed(s.rows, key.value) then (s, DuplicateKey)
    else (Write(s, o, kind, d, key, expiresAt), Done)
  }

  function Deduct(s: State, o: Owner, ride: string): (State, Result)
  {
    if KeyUsed(s.rows, ride) then (s, Skipped)
    else
      var c := Cached(s, o);
      if o !in s.cache || c.rides + c.bonus <= 0 then (s, NoCredits)
      else (Write(s, o, RideDeduction, if c.rides > 0 then Credits(-1, 0) else Credits(0, -1), Some(ride), None), Done)
  }

  function RefundKey(ride: string): string { "refund:" + ride }

  function Refund(s: State, o: Owner, ride: string): (State, Result)
  {
    if KeyUsed(s.rows, RefundKey(ride)) then (s, Skipped)
    else (Write(s, o, RideRefund, Credits(1, 0), Some(RefundKey(ride)), None), Done)
  }

  function Revoke(s: State, o: Owner, d: Credits): (State, Result)
  {
    if d.rides <= 0 && d.bonus <= 0 then (s, BadAmount)
    else if o !in s.cache then (s, NotFound)
    else
      var actual := s.cache[o].Minus(d).Floored().Minus(s.cache[o]);
      if actual == ZERO then (s, Skipped)
      else (Write(s, o, AdminRevoke, actual, None, None), Done)
  }

  /** What a sweep recomputes an owner's balance to. */
  function Recomputed(rows: seq<Row>, o: Owner, now: int): Credits
  {
    Live(rows, o, now).Minus(Used(rows, o, true)).Floored()
  }

  function SweepOne(s: State, o: Owner, now: int): State
  {
    var c, n := Cached(s, o), Recomputed(s.rows, o, now);
    if o !in s.cache || c.AtMost(n) then s else Write(s, o, Expiry, n.Minus(c), None, None)
  }

  function Sweep(s: State, order: seq<Owner>, now: int): State
  {
    if order == [] then s else SweepOne(Sweep(s, order[..|order| - 1], now), order[|order| - 1], now)
  }

  // ---------------------------------------------------------------- the tables

  class Ledger {
    var cache: map<Owner, Credits>
    var rows: seq<Row>

    function Now(): State
      reads this
    {
      State(cache, rows)
    }

    constructor ()
      ensures Now() == EMPTY
    {
      cache, rows := map[], [];
    }

    /** The insert and the upsert that close every transaction. */
    method Append(o: Owner, kind: Kind, delta: Credits, balance: Credits, key: Option<string>, expiresAt: Option<int>)
      modifies this
      ensures Now() == State(old(cache)[o := balance], old(rows) + [Row(o, kind, delta, balance, key, expiresAt)])
    {
      rows := rows + [Row(o, kind, delta, balance, key, expiresAt)];
      cache := cache[o := balance];
    }

    method GrantCredits(o: Owner, kind: GrantKind, rides: int, bonus: int, key: Option<string>, expiresAt: Option<int>)
      returns (r: Result)
      modifies this
      ensures (Now(), r) == Grant(old(Now()), o, kind, Credits(rides, bonus), key, expiresAt)
    {
      var curRides, curBonus := 0, 0;
      if o in cache {
        curRides, curBonus := cache[o].rides, cache[o].bonus;
      }
      var newRides, newBonus := curRides + rides, curBonus + bonus;
      if key.Some? && KeyUsed(rows, key.value) {
        return DuplicateKey;
      }
      Append(o, kind, Credits(rides, bonus), Credits(newRides, newBonus), key, expiresAt);
      return Done;
    }

    method DeductOne(o: Owner, ride: string) returns (r: Result)
      modifies this
      ensures (Now(), r) == Deduct(old(Now()), o, ride)
    {
      if KeyUsed(rows, ride) {
        return Skipped;
      }
      if o !in cache {
        return NoCredits;
      }
      var curRides, curBonus := cache[o].rides, cache[o].bonus;
      if curRides + curBonus <= 0 {
        return NoCredits;
      }
      var ridesDelta, bonusDelta := 0, 0;
      if curRides > 0 {
        ridesDelta := -1;
        curRides := curRides - 1;
      } else {
        bonusDelta := -1;
        curBonus := curBonus - 1;
      }
      Append(o, RideDeduction, Credits(ridesDelta, bonusDelta), Credits(curRides, curBonus), Some(ride), None);
      return Done;
    }

    method RefundOne(o: Owner, ride: string) returns (r: Result)
      modifies this
      ensures (Now(), r) == Refund(old(Now()), o, ride)
    {
      var refundKey := RefundKey(ride);
      if KeyUsed(rows, refundKey) {
        return Skipped;
      }
      var cur := ZERO;
      if o in cache {
        cur := cache[o];
      }
      cur := cur.Plus(Credits(1, 0));
      Append(o, RideRefund, Credits(1, 0), cur, Some(refundKey), None);
      return Done;
    }

    method AdminRevoke(o: Owner, rides: int, bonus: int) returns (r: Result)
      modifies this
      ensures (Now(), r) == Revoke(old(Now()), o, Credits(rides, bonus))
    {
      if rides <= 0 && bonus <= 0 {
        return BadAmount;
      }
      if o !in cache {
        return NotFound;
      }
      var cur := cache[o];
      var newRides, newBonus := cur.rides - rides, cur.bonus - bonus;
      if newRides < 0 {
        newRides := 0;
      }
      if newBonus < 0 {
        newBonus := 0;
      }
      var actual := Credits(newRides - cur.rides, newBonus - cur.bonus);
      if actual == ZERO {
        return Skipped;
      }
      Append(o, Kind.AdminRevoke, actual, Credits(newRides, newBonus), None, None);
      return Done;
    }

    method SweepOwner(o: Owner, now: int) returns (adjusted: bool)
      requires o in cache
      modifies this
      ensures Now() == SweepOne(old(Now()), o, now)
      ensures |rows| == |old(rows)| + if adjusted then 1 else 0
      ensures cache.Keys == old(cache.Keys)
    {
      var grants, used := Live(rows, o, now), Used(rows, o, true);
      var newRides, newBonus := grants.rides - used.rides, grants.bonus - used.bonus;
      if newRides < 0 {
        newRides := 0;
      }
      if newBonus < 0 {
        newBonus := 0;
      }
      if newRides >= cache[o].rides && newBonus >= cache[o].bonus {
        return false;
      }
      Append(o, Expiry, Credits(newRides - cache[o].rides, newBonus - cache[o].bonus), Credits(newRides, newBonus), None, None);
      return true;
    }

    /** `order` lists the cached owners, each once, as the query returned them. */
    method SweepExpired(order: seq<Owner>, now: int) returns (adjusted: nat)
      requires forall o <- order :: o in cache
      modifies this
      ensures Now() == Sweep(old(Now()), order, now)
      ensures |rows| == |old(rows)| + adjusted
    {
      adjusted := 0;
      var i := 0;
      while i < |order|
        invariant 0 <= i <= |order|
        invariant Now() == Sweep(old(Now()), order[..i], now)
        invariant forall o <- order :: o in cache
        invariant |rows| == |old(rows)| + adjusted
      {
        assert order[..i + 1][..i] == order[..i];
        var done := SweepOwner(order[i], now);
        adjusted := adjusted + if done then 1 else 0;
        i := i + 1;
      }
      assert order[..i] == order;
    }
  }

  // ---------------------------------------------------------------- what every operation keeps

  /** The cache is the replay of the rows, and every row shows the balance it led to. */
  ghost predicate Consistent(s: State)
  {
    && (forall o :: Cached(s, o) == Replay(s.rows, o))
    && (forall i :: 0 <= i < |s.rows| ==> s.rows[i].balance == Replay(s.rows[..i + 1], s.rows[i].owner))
    && (forall i, j :: 0 <= i < j < |s.rows| && s.rows[i].key.Some? ==> s.rows[i].key != s.rows[j].key)
  }

  ghost predicate NonNegative(s: State)
  {
    forall o :: Cached(s, o).NonNegative()
  }

  lemma {:induction false} WriteConsistent(s: State, o: Owner, kind: Kind, delta: Credits, key: Option<string>, e: Option<int>)
    requires Consistent(s)
    requires key.Some? ==> !KeyUsed(s.rows, key.value)
    ensures Consistent(Write(s, o, kind, delta, key, e))
  {
    var t := Write(s, o, kind, delta, key, e);
    var n := |s.rows|;
    assert t.rows[..n] == s.rows;
    forall p ensures Cached(t, p) == Replay(t.rows, p) {
      assert Cached(s, p) == Replay(s.rows, p);
    }
    forall i | 0 <= i < |t.rows| ensures t.rows[i].balance == Replay(t.rows[..i + 1], t.rows[i].owner) {
      if i < n {
        assert t.rows[..i + 1] == s.rows[..i + 1];
      } else {
        assert t.rows[..n + 1] == t.rows;
      }
    }
  }

  datatype Op =
    | OpGrant(o: Owner, kind: GrantKind, d: Credits, key: Option<string>, expiresAt: Option<int>)
    | OpDeduct(o: Owner, ride: string)
    | OpRefund(o: Owner, ride: string)
    | OpRevoke(o: Owner, d: Credits)
    | OpSweep(order: seq<Owner>, now: int)

  function Apply(s: State, op: Op): State
  {
    match op
    case OpGrant(o, kind, d, key, e) => Grant(s, o, kind, d, key, e).0
    case OpDeduct(o, ride) => Deduct(s, o, ride).0
    case OpRefund(o, ride) => Refund(s, o, ride).0
    case OpRevoke(o, d) => Revoke(s, o, d).0
    case OpSweep(order, now) => Sweep(s, order, now)
  }

  function Run(s: State, ops: seq<Op>): State
  {
    if ops == [] then s else Apply(Run(s, ops[..|ops| - 1]), ops[|ops| - 1])
  }

  lemma {:induction false} SweepConsistent(s: State, order: seq<Owner>, now: int)
    requires Consistent(s)
    ensures Consistent(Sweep(s, order, now))
  {
    if order != [] {
      var o := order[|order| - 1];
      SweepConsistent(s, order[..|order| - 1], now);
      var t := Sweep(s, order[..|order| - 1], now);
      WriteConsistent(t, o, Expiry, Recomputed(t.rows, o, now).Minus(Cached(t, o)), None, None);
    }
  }

  lemma ApplyConsistent(s: State, op: Op)
    requires Consistent(s)
    ensures Consistent(Apply(s, op))
  {
    var t := Apply(s, op);
    if op.OpSweep? {
      SweepConsistent(s, op.order, op.now);
    } else if t != s {
      var row := t.rows[|t.rows| - 1];
      WriteConsistent(s, op.o, row.kind, row.delta, row.key, row.expiresAt);
    }
  }

  /** In every run from empty tables the cached balance is the replay of the ledger, each row's
      balance is its prefix sum, and no idempotency key occurs twice. */
  lemma {:induction false} RunConsistent(ops: seq<Op>)
    ensures Consistent(Run(EMPTY, ops))
  {
    if ops != [] {
      RunConsistent(ops[..|ops| - 1]);
      ApplyConsistent(Run(EMPTY, ops[..|ops| - 1]), ops[|ops| - 1]);
    }
  }

  lemma {:induction false} TotalsAreTheReplay(rows: seq<Row>, o: Owner)
    ensures Totals(rows, o).0 - Totals(rows, o).1 == Replay(rows, o).rides + Replay(rows, o).bonus
  {
    if rows != [] {
      TotalsAreTheReplay(rows[..|rows| - 1], o);
    }
  }

  /** Granted minus consumed is what remains, in every run. */
  lemma GrantedMinusConsumed(ops: seq<Op>, o: Owner)
    ensures var s := Run(EMPTY, ops);
            Totals(s.rows, o).0 - Totals(s.rows, o).1 == Cached(s, o).rides + Cached(s, o).bonus
  {
    RunConsistent(ops);
    TotalsAreTheReplay(Run(EMPTY, ops).rows, o);
  }

  // ---------------------------------------------------------------- what one operation does to a balance

  /** A deduction spends a paid ride while there is one, else a bonus ride. */
  function Spend(c: Credits): Credits
  {
    if c.rides > 0 then Credits(c.rides - 1, c.bonus) else Credits(c.rides, c.bonus - 1)
  }

  /** The balance an operation makes of an owner's balance `c`; `used` says that its key has been used.
      Sweeps look at the rows and are apart. */
  function Becomes(c: Credits, op: Op, used: bool): Credits
    requires !op.OpSweep?
  {
    match op
    case OpGrant(_, _, d, _, _) => if used then c else Credits(c.rides + d.rides, c.bonus + d.bonus)
    case OpDeduct(_, _) => if used || c.rides + c.bonus <= 0 then c else Spend(c)
    case OpRefund(_, _) => if used then c else Credits(c.rides + 1, c.bonus)
    case OpRevoke(_, d) =>
      if d.rides <= 0 && d.bonus <= 0 then c else Credits(Max0(c.rides - d.rides), Max0(c.bonus - d.bonus))
  }

  /** The key an operation goes by. */
  function KeyOf(op: Op): Option<string>
  {
    match op
    case OpGrant(_, _, _, key, _) => key
    case OpDeduct(_, ride) => Some(ride)
    case OpRefund(_, ride) => Some(RefundKey(ride))
    case _ => None
  }

  predicate Repeats(rows: seq<Row>, op: Op)
  {
    KeyOf(op).Some? && exists i :: 0 <= i < |rows| && rows[i].key == KeyOf(op)
  }

  lemma RepeatsIs(s: State, op: Op)
    ensures Repeats(s.rows, op) <==> KeyOf(op).Some? && KeyUsed(s.rows, KeyOf(op).value)
  {
    if KeyOf(op).Some? {
      assert forall i | 0 <= i < |s.rows| :: s.rows[i].key == Some(KeyOf(op).value) <==> s.rows[i].key == KeyOf(op);
    }
  }

  lemma GrantBecomes(s: State, op: Op, o: Owner)
    requires op.OpGrant?
    ensures Cached(Apply(s, op), o) == if o != op.o then Cached(s, o) else Becomes(Cached(s, o), op, Repeats(s.rows, op))
  {
    RepeatsIs(s, op);
  }

  lemma DeductBecomes(s: State, op: Op, o: Owner)
    requires op.OpDeduct?
    ensures Cached(Apply(s, op), o) == if o != op.o then Cached(s, o) else Becomes(Cached(s, o), op, Repeats(s.rows, op))
  {
    RepeatsIs(s, op);
  }

  lemma RefundIs(s: State, o: Owner, ride: string)
    ensures Refund(s, o, ride).0
            == if KeyUsed(s.rows, RefundKey(ride)) then s else Write(s, o, RideRefund, Credits(1, 0), Some(RefundKey(ride)), None)
  {
  }

  lemma RefundAdds(s: State, o: Owner, ride: string, p: Owner)
    ensures Cached(Refund(s, o, ride).0, p)
            == if p == o && !KeyUsed(s.rows, RefundKey(ride)) then Cached(s, o).Plus(Credits(1, 0)) else Cached(s, p)
  {
    RefundIs(s, o, ride);
  }

  lemma RefundRepeats(s: State, op: Op)
    requires op.OpRefund?
    ensures Repeats(s.rows, op) <==> KeyUsed(s.rows, RefundKey(op.ride))
  {
    RepeatsIs(s, op);
  }

  lemma RefundMakes(op: Op, c: Credits, used: bool)
    requires op.OpRefund?
    ensures Becomes(c, op, used) == if used then c else c.Plus(Credits(1, 0))
  {
  }

  lemma RefundBecomes(s: State, op: Op, o: Owner)
    requires op.OpRefund?
    ensures Cached(Refund(s, op.o, op.ride).0, o)
            == if o != op.o then Cached(s, o) else Becomes(Cached(s, o), op, Repeats(s.rows, op))
  {
    RefundRepeats(s, op);
    RefundAdds(s, op.o, op.ride, o);
    RefundMakes(op, Cached(s, o), Repeats(s.rows, op));
  }

  lemma RevokeBecomes(s: State, op: Op, o: Owner)
    requires op.OpRevoke?
    ensures Cached(Apply(s, op), o) == if o != op.o || o !in s.cache then Cached(s, o) else Becomes(Cached(s, o), op, false)
  {
  }

  /** A revocation is turned away for an owner without a balance row, whose balance is then zero. */
  lemma BalanceBecomes(s: State, op: Op, o: Owner)
    requires !op.OpSweep?
    ensures Cached(Apply(s, op), o)
            == if o != op.o || (op.OpRevoke? && o !in s.cache) then Cached(s, o) else Becomes(Cached(s, o), op, Repeats(s.rows, op))
  {
    match op
    case OpGrant(_, _, _, _, _) => GrantBecomes(s, op, o);
    case OpDeduct(_, _) => DeductBecomes(s, op, o);
    case OpRefund(_, _) => RefundBecomes(s, op, o);
    case OpRevoke(_, _) => RevokeBecomes(s, op, o);
  }

  // The answers. What is not done leaves the tables as they were.

  lemma GrantAnswers(s: State, o: Owner, kind: GrantKind, d: Credits, key: Option<string>, expiresAt: Option<int>)
    ensures var (t, r) := Grant(s, o, kind, d, key, expiresAt);
            && r == (if key.Some? && KeyUsed(s.rows, key.value) then DuplicateKey else Done)
            && (r == Done <==> t != s)
  {
    var (t, r) := Grant(s, o, kind, d, key, expiresAt);
    if r == Done {
      assert |t.rows| == |s.rows| + 1;
    }
  }

  /** A used key and an empty balance are told apart, the key first. */
  lemma DeductAnswers(s: State, o: Owner, ride: string)
    ensures var (t, r) := Deduct(s, o, ride);
            && r == (if KeyUsed(s.rows, ride) then Skipped
                     else if Cached(s, o).rides + Cached(s, o).bonus <= 0 then NoCredits else Done)
            && (r == Done <==> t != s)
  {
    var (t, r) := Deduct(s, o, ride);
    if r == Done {
      assert |t.rows| == |s.rows| + 1;
    }
  }

  lemma RefundAnswers(s: State, o: Owner, ride: string)
    ensures Refund(s, o, ride).1 == if KeyUsed(s.rows, RefundKey(ride)) then Skipped else Done
  {
  }

  /** A revocation that would take nothing is skipped, and leaves no row. */
  lemma RevokeAnswers(s: State, o: Owner, d: Credits)
    ensures var (t, r) := Revoke(s, o, d); var c := Cached(s, o);
            && r == (if d.rides <= 0 && d.bonus <= 0 then BadAmount else if o !in s.cache then NotFound
                     else if Max0(c.rides - d.rides) == c.rides && Max0(c.bonus - d.bonus) == c.bonus then Skipped else Done)
            && (r == Done <==> t != s)
  {
    var (t, r) := Revoke(s, o, d);
    if r == Done {
      assert |t.rows| == |s.rows| + 1;
    }
  }

  /** One owner's balance through a run without sweeps. */
  function Tally(ops: seq<Op>, o: Owner): Credits
    requires forall op <- ops :: !op.OpSweep?
  {
    if ops == [] then ZERO
    else
      var n := |ops| - 1;
      assert ops[n] in ops;
      var s, c := Run(EMPTY, ops[..n]), Tally(ops[..n], o);
      if ops[n].o != o || (ops[n].OpRevoke? && o !in s.cache) then c else Becomes(c, ops[n], Repeats(s.rows, ops[n]))
  }

  /** In every run without sweeps the balance is what the operations have made of it one after another: grants
      and refunds added, rides spent paid ones first, revocations down to zero, repeats left out. */
  lemma {:induction false} BalanceIsTheTally(ops: seq<Op>, o: Owner)
    requires forall op <- ops :: !op.OpSweep?
    ensures Cached(Run(EMPTY, ops), o) == Tally(ops, o)
  {
    if ops != [] {
      var n := |ops| - 1;
      assert ops[n] in ops;
      BalanceIsTheTally(ops[..n], o);
      BalanceBecomes(Run(EMPTY, ops[..n]), ops[n], o);
    }
  }

  // ---------------------------------------------------------------- what one ride does to a balance

  predicate IsCharge(row: Row, ride: string)
  {
    row.kind == RideDeduction && row.key == Some(ride)
  }

  predicate IsRefund(row: Row, ride: string)
  {
    row.kind == RideRefund && row.key == Some(RefundKey(ride))
  }

  predicate Charged(rows: seq<Row>, o: Owner, ride: string)
  {
    exists i :: 0 <= i < |rows| && rows[i].owner == o && IsCharge(rows[i], ride)
  }

  predicate Refunded(rows: seq<Row>, o: Owner, ride: string)
  {
    exists i :: 0 <= i < |rows| && rows[i].owner == o && IsRefund(rows[i], ride)
  }

  /** What the ride's rows add to an owner's balance. */
  function RideNet(rows: seq<Row>, o: Owner, ride: string): int
  {
    if rows == [] then 0
    else
      var last := rows[|rows| - 1];
      RideNet(rows[..|rows| - 1], o, ride)
      + if last.owner == o && (IsCharge(last, ride) || IsRefund(last, ride)) then last.delta.rides + last.delta.bonus else 0
  }

  /** A deduction takes one ride of either sort under a ride's key, a refund gives back a regular one. */
  ghost predicate RowShape(row: Row)
  {
    && (row.kind == RideDeduction ==> row.key.Some? && (row.delta == Credits(-1, 0) || row.delta == Credits(0, -1)))
    && (row.kind == RideRefund ==> row.delta == Credits(1, 0))
  }

  ghost predicate Shaped(rows: seq<Row>)
  {
    forall row <- rows :: RowShape(row)
  }

  ghost predicate UniqueKeys(rows: seq<Row>)
  {
    forall i, j :: 0 <= i < j < |rows| && rows[i].key.Some? ==> rows[i].key != rows[j].key
  }

  lemma {:induction false} SweepShaped(s: State, order: seq<Owner>, now: int)
    requires Shaped(s.rows)
    ensures Shaped(Sweep(s, order, now).rows)
  {
    if order != [] {
      SweepShaped(s, order[..|order| - 1], now);
    }
  }

  lemma WriteShaped(s: State, o: Owner, kind: Kind, delta: Credits, key: Option<string>, e: Option<int>)
    requires Shaped(s.rows) && RowShape(Row(o, kind, delta, Cached(s, o).Plus(delta), key, e))
    ensures Shaped(Write(s, o, kind, delta, key, e).rows)
  {
  }

  lemma RefundShaped(s: State, o: Owner, ride: string)
    requires Shaped(s.rows)
    ensures Shaped(Refund(s, o, ride).0.rows)
  {
    RefundIs(s, o, ride);
    WriteShaped(s, o, RideRefund, Credits(1, 0), Some(RefundKey(ride)), None);
  }

  lemma DeductIs(s: State, o: Owner, ride: string)
    ensures Deduct(s, o, ride).0
            == if KeyUsed(s.rows, ride) || o !in s.cache || Cached(s, o).rides + Cached(s, o).bonus <= 0 then s
               else Write(s, o, RideDeduction, if Cached(s, o).rides > 0 then Credits(-1, 0) else Credits(0, -1), Some(ride), None)
  {
  }

  lemma DeductShaped(s: State, o: Owner, ride: string)
    requires Shaped(s.rows)
    ensures Shaped(Deduct(s, o, ride).0.rows)
  {
    DeductIs(s, o, ride);
    WriteShaped(s, o, RideDeduction, if Cached(s, o).rides > 0 then Credits(-1, 0) else Credits(0, -1), Some(ride), None);
  }

  lemma ApplyShaped(s: State, op: Op)
    requires Shaped(s.rows)
    ensures Shaped(Apply(s, op).rows)
  {
    if op.OpSweep? {
      SweepShaped(s, op.order, op.now);
    } else if op.OpDeduct? {
      DeductShaped(s, op.o, op.ride);
    } else if op.OpRefund? {
      RefundShaped(s, op.o, op.ride);
    } else if Apply(s, op) != s {
      var row := Apply(s, op).rows[|s.rows|];
      WriteShaped(s, op.o, row.kind, row.delta, row.key, row.expiresAt);
    }
  }

  lemma {:induction false} RunShaped(ops: seq<Op>)
    ensures Shaped(Run(EMPTY, ops).rows)
  {
    if ops != [] {
      RunShaped(ops[..|ops| - 1]);
      ApplyShaped(Run(EMPTY, ops[..|ops| - 1]), ops[|ops| - 1]);
    }
  }

  lemma PrefixRows(rows: seq<Row>)
    requires rows != [] && Shaped(rows) && UniqueKeys(rows)
    ensures Shaped(rows[..|rows| - 1]) && UniqueKeys(rows[..|rows| - 1]) && RowShape(rows[|rows| - 1])
  {
    assert forall row <- rows[..|rows| - 1] :: row in rows;
    assert rows[|rows| - 1] in rows;
  }

  lemma LastCharge(rows: seq<Row>, o: Owner, ride: string)
    requires rows != [] && UniqueKeys(rows)
    ensures var init, last := rows[..|rows| - 1], rows[|rows| - 1];
            && (Charged(rows, o, ride) <==> Charged(init, o, ride) || (last.owner == o && IsCharge(last, ride)))
            && !(Charged(init, o, ride) && IsCharge(last, ride))
  {
    var n := |rows| - 1;
    var init := rows[..n];
    if Charged(rows, o, ride) {
      var i :| 0 <= i < |rows| && rows[i].owner == o && IsCharge(rows[i], ride);
      assert i < n ==> init[i] == rows[i];
    }
    if Charged(init, o, ride) {
      var i :| 0 <= i < n && init[i].owner == o && IsCharge(init[i], ride);
      assert rows[i] == init[i];
    }
  }

  lemma LastRefund(rows: seq<Row>, o: Owner, ride: string)
    requires rows != [] && UniqueKeys(rows)
    ensures var init, last := rows[..|rows| - 1], rows[|rows| - 1];
            && (Refunded(rows, o, ride) <==> Refunded(init, o, ride) || (last.owner == o && IsRefund(last, ride)))
            && !(Refunded(init, o, ride) && IsRefund(last, ride))
  {
    var n := |rows| - 1;
    var init := rows[..n];
    if Refunded(rows, o, ride) {
      var i :| 0 <= i < |rows| && rows[i].owner == o && IsRefund(rows[i], ride);
      assert i < n ==> init[i] == rows[i];
    }
    if Refunded(init, o, ride) {
      var i :| 0 <= i < n && init[i].owner == o && IsRefund(init[i], ride);
      assert rows[i] == init[i];
    }
  }

  lemma {:induction false} RideNetIs(rows: seq<Row>, o: Owner, ride: string)
    requires Shaped(rows) && UniqueKeys(rows)
    ensures RideNet(rows, o, ride) == (if Refunded(rows, o, ride) then 1 else 0) - (if Charged(rows, o, ride) then 1 else 0)
  {
    if rows != [] {
      PrefixRows(rows);
      RideNetIs(rows[..|rows| - 1], o, ride);
      LastCharge(rows, o, ride);
      LastRefund(rows, o, ride);
    }
  }

  /** In every run a ride has at most one deduction and at most one refund row, of whichever owners; and
      all it does to an owner's balance is take one if he was charged and give one if he was refunded. */
  lemma RideChargedOnce(ops: seq<Op>, ride: string, o: Owner)
    ensures var rows := Run(EMPTY, ops).rows;
            && (forall i, j :: 0 <= i < |rows| && 0 <= j < |rows| && IsCharge(rows[i], ride) && IsCharge(rows[j], ride) ==> i == j)
            && (forall i, j :: 0 <= i < |rows| && 0 <= j < |rows| && IsRefund(rows[i], ride) && IsRefund(rows[j], ride) ==> i == j)
            && RideNet(rows, o, ride) == (if Refunded(rows, o, ride) then 1 else 0) - (if Charged(rows, o, ride) then 1 else 0)
  {
    RunConsistent(ops);
    RunShaped(ops);
    RideNetIs(Run(EMPTY, ops).rows, o, ride);
  }

  /** A deduction goes through exactly when nothing has its key yet and there is a ride to take. */
  lemma DeductDoneIff(s: State, o: Owner, ride: string)
    ensures Deduct(s, o, ride).1 == Done
            <==> !KeyUsed(s.rows, ride) && o in s.cache && s.cache[o].rides + s.cache[o].bonus > 0
    ensures Deduct(s, o, ride).1 == Done
            ==> var t := Deduct(s, o, ride).0;
                Charged(t.rows, o, ride) && Cached(t, o).rides + Cached(t, o).bonus == Cached(s, o).rides + Cached(s, o).bonus - 1
  {
    var t := Deduct(s, o, ride).0;
    assert t != s ==> IsCharge(t.rows[|s.rows|], ride);
  }

  lemma KeyOfLast(rows: seq<Row>, row: Row, key: string)
    ensures KeyUsed(rows + [row], key) <==> KeyUsed(rows, key) || row.key == Some(key)
  {
    var all := rows + [row];
    assert all[|rows|] == row && forall i | 0 <= i < |rows| :: all[i] == rows[i];
  }

  lemma RefundAppends(s: State, o: Owner, ride: string) returns (row: Row)
    requires !KeyUsed(s.rows, RefundKey(ride))
    ensures row.owner == o && IsRefund(row, ride) && Refund(s, o, ride).0.rows == s.rows + [row]
  {
    row := Refund(s, o, ride).0.rows[|s.rows|];
  }

  lemma RefundKeyDiffers(ride: string)
    ensures RefundKey(ride) != ride
  {
    assert |RefundKey(ride)| == |ride| + 7;
  }

  /** Refunding never looks for the charge: a deduction just before it, or none, makes no difference. */
  lemma RefundIgnoresCharge(s: State, o: Owner, ride: string)
    ensures Refund(Deduct(s, o, ride).0, o, ride).1 == Refund(s, o, ride).1
  {
    var t := Deduct(s, o, ride).0;
    RefundKeyDiffers(ride);
    if t != s {
      KeyOfLast(s.rows, t.rows[|s.rows|], RefundKey(ride));
    }
  }

  lemma RunNext(ops: seq<Op>, n: nat)
    requires n < |ops|
    ensures Run(EMPTY, ops[..n + 1]) == Apply(Run(EMPTY, ops[..n]), ops[n])
  {
    assert ops[..n + 1][..n] == ops[..n];
  }

  lemma RunOfOne(ops: seq<Op>)
    requires |ops| == 1
    ensures Run(EMPTY, ops) == Apply(EMPTY, ops[0])
  {
    RunNext(ops, 0);
    assert ops[..0] == [] && ops[..1] == ops;
  }

  lemma RunOfTwo(ops: seq<Op>)
    requires |ops| == 2
    ensures Run(EMPTY, ops) == Apply(Apply(EMPTY, ops[0]), ops[1])
  {
    RunNext(ops, 0);
    RunNext(ops, 1);
    assert ops[..0] == [] && ops[..2] == ops;
  }

  lemma LoneRefund(rows: seq<Row>, row: Row, ride: string)
    requires rows == [row] && IsRefund(row, ride) && row.delta == Credits(1, 0)
    ensures RideNet(rows, row.owner, ride) == 1 && forall o :: !Charged(rows, o, ride)
  {
    assert rows[..0] == [];
  }

  /** So a run of one refund leaves a credit for a ride that was never charged. */
  lemma RefundWithoutCharge(o: Owner, ride: string)
    ensures var s := Run(EMPTY, [OpRefund(o, ride)]);
            Cached(s, o) == Credits(1, 0) && RideNet(s.rows, o, ride) == 1 && !Charged(s.rows, o, ride)
  {
    RunOfOne([OpRefund(o, ride)]);
    var row := Row(o, RideRefund, Credits(1, 0), Credits(1, 0), Some(RefundKey(ride)), None);
    LoneRefund([row], row, ride);
  }

  ghost predicate NeverCharged(rows: seq<Row>, ride: string)
  {
    forall row <- rows :: !IsCharge(row, ride)
  }

  lemma {:induction false} SweepTaken(s: State, order: seq<Owner>, now: int, ride: string)
    requires NeverCharged(s.rows, ride)
    ensures NeverCharged(Sweep(s, order, now).rows, ride) && s.rows <= Sweep(s, order, now).rows
  {
    if order != [] {
      SweepTaken(s, order[..|order| - 1], now, ride);
    }
  }

  /** Only a deduction whose key is new appends a charge. */
  lemma ApplyAppends(s: State, op: Op, ride: string) returns (more: seq<Row>)
    requires !op.OpSweep? && KeyUsed(s.rows, ride)
    ensures Apply(s, op).rows == s.rows + more && NeverCharged(more, ride)
  {
    var t := Apply(s, op);
    more := [];
    match op
    case OpDeduct(o, r) => if r != ride && Deduct(s, o, r).1 == Done { more := [t.rows[|s.rows|]]; }
    case OpGrant(o, kind, d, key, e) => if Grant(s, o, kind, d, key, e).1 == Done { more := [t.rows[|s.rows|]]; }
    case OpRefund(o, r) => if Refund(s, o, r).1 == Done { more := [t.rows[|s.rows|]]; }
    case OpRevoke(o, d) => if Revoke(s, o, d).1 == Done { more := [t.rows[|s.rows|]]; }
  }

  lemma StaysTaken(rows: seq<Row>, more: seq<Row>, ride: string)
    requires KeyUsed(rows, ride) && NeverCharged(rows, ride) && NeverCharged(more, ride)
    ensures KeyUsed(rows + more, ride) && NeverCharged(rows + more, ride)
  {
    var i :| 0 <= i < |rows| && rows[i].key == Some(ride);
    assert (rows + more)[i] == rows[i];
  }

  lemma ApplyTaken(s: State, op: Op, ride: string)
    requires KeyUsed(s.rows, ride) && NeverCharged(s.rows, ride)
    ensures KeyUsed(Apply(s, op).rows, ride) && NeverCharged(Apply(s, op).rows, ride)
  {
    var more: seq<Row>;
    if op.OpSweep? {
      SweepTaken(s, op.order, op.now, ride);
      more := Sweep(s, op.order, op.now).rows[|s.rows|..];
      assert NeverCharged(more, ride) && Sweep(s, op.order, op.now).rows == s.rows + more;
    } else {
      more := ApplyAppends(s, op, ride);
    }
    StaysTaken(s.rows, more, ride);
  }

  /** Keys are shared by all kinds of rows: once another row, say a grant, has a ride's id for its key,
      the ride is never charged. */
  lemma {:induction false} TakenKeyBlocksCharge(s: State, ops: seq<Op>, ride: string)
    requires KeyUsed(s.rows, ride) && NeverCharged(s.rows, ride)
    ensures KeyUsed(Run(s, ops).rows, ride) && NeverCharged(Run(s, ops).rows, ride)
  {
    if ops != [] {
      TakenKeyBlocksCharge(s, ops[..|ops| - 1], ride);
      ApplyTaken(Run(s, ops[..|ops| - 1]), ops[|ops| - 1], ride);
    }
  }

  // ---------------------------------------------------------------- no balance goes negative

  /** A grant that would leave a negative balance: the program does not refuse one. */
  predicate Overdraws(s: State, op: Op)
  {
    op.OpGrant? && Apply(s, op) != s && !Cached(s, op.o).Plus(op.d).NonNegative()
  }

  lemma WriteNonNegativeIff(s: State, o: Owner, kind: Kind, delta: Credits, key: Option<string>, e: Option<int>)
    requires NonNegative(s)
    ensures var t := Write(s, o, kind, delta, key, e);
            && Cached(t, o) == Cached(s, o).Plus(delta)
            && (NonNegative(t) <==> Cached(s, o).Plus(delta).NonNegative())
  {
    var t := Write(s, o, kind, delta, key, e);
    assert forall p | p != o :: Cached(t, p) == Cached(s, p);
  }

  lemma {:induction false} SweepNonNegative(s: State, order: seq<Owner>, now: int)
    requires NonNegative(s)
    ensures NonNegative(Sweep(s, order, now))
  {
    if order != [] {
      SweepNonNegative(s, order[..|order| - 1], now);
      var t, o := Sweep(s, order[..|order| - 1], now), order[|order| - 1];
      WriteNonNegativeIff(t, o, Expiry, Recomputed(t.rows, o, now).Minus(Cached(t, o)), None, None);
    }
  }

  /** Balances stay non-negative through an operation exactly when it is not such a grant. */
  lemma ApplyNonNegativeIff(s: State, op: Op)
    requires NonNegative(s)
    ensures NonNegative(Apply(s, op)) <==> !Overdraws(s, op)
  {
    var t := Apply(s, op);
    if op.OpSweep? {
      SweepNonNegative(s, op.order, op.now);
    } else if t != s {
      var row := t.rows[|s.rows|];
      assert t == Write(s, op.o, row.kind, row.delta, row.key, row.expiresAt);
      WriteNonNegativeIff(s, op.o, row.kind, row.delta, row.key, row.expiresAt);
      assert Cached(s, op.o).NonNegative();
    }
  }

  /** No grant of the run overdraws. */
  ghost predicate NoneOverdraws(ops: seq<Op>)
  {
    ops != [] ==>
      var n := |ops| - 1;
      NoneOverdraws(ops[..n]) && !Overdraws(Run(EMPTY, ops[..n]), ops[n])
  }

  /** At no point of the run is a balance negative. */
  ghost predicate NeverNegative(ops: seq<Op>)
  {
    NonNegative(Run(EMPTY, ops)) && (ops != [] ==> NeverNegative(ops[..|ops| - 1]))
  }

  /** A run has no negative balance at any point exactly when none of its grants overdraws. */
  lemma {:induction false} RunNonNegativeIff(ops: seq<Op>)
    ensures NeverNegative(ops) <==> NoneOverdraws(ops)
  {
    if ops == [] {
      assert forall o :: Cached(EMPTY, o).NonNegative();
    } else {
      var n := |ops| - 1;
      RunNonNegativeIff(ops[..n]);
      if NeverNegative(ops[..n]) {
        ApplyNonNegativeIff(Run(EMPTY, ops[..n]), ops[n]);
      }
    }
  }

  /** A run that does: a purchase, and a grant with one positive part. */
  lemma GrantOverdraws(o: Owner)
    ensures var ops := [OpGrant(o, PurchaseGrant, Credits(1, 0), None, None), OpGrant(o, AdminGrant, Credits(1, -1), None, None)];
            Cached(Run(EMPTY, ops), o) == Credits(2, -1)
  {
    RunOfTwo([OpGrant(o, PurchaseGrant, Credits(1, 0), None, None), OpGrant(o, AdminGrant, Credits(1, -1), None, None)]);
  }

  // ---------------------------------------------------------------- revokes compose

  /** What a revoke leaves. */
  lemma RevokeLeaves(s: State, o: Owner, d: Credits)
    requires o in s.cache && NonNegative(s) && (d.rides > 0 || d.bonus > 0)
    ensures var t := Revoke(s, o, d).0;
            o in t.cache && t.cache[o] == s.cache[o].Minus(d).Floored() && NonNegative(t)
  {
    var t := Revoke(s, o, d).0;
    assert forall p | p != o :: Cached(t, p) == Cached(s, p);
    assert forall p :: Cached(s, p).NonNegative();
  }

  function RevokeAll(s: State, o: Owner, ds: seq<Credits>): State
  {
    if ds == [] then s else Revoke(RevokeAll(s, o, ds[..|ds| - 1]), o, ds[|ds| - 1]).0
  }

  function Sum(ds: seq<Credits>): Credits
  {
    if ds == [] then ZERO else Sum(ds[..|ds| - 1]).Plus(ds[|ds| - 1])
  }

  /** A series of revokes of non-negative amounts leaves what one revoke of their sum leaves. */
  lemma {:induction false} RevokesCompose(s: State, o: Owner, ds: seq<Credits>)
    requires o in s.cache && NonNegative(s)
    requires forall d <- ds :: d.NonNegative() && d != ZERO
    ensures var t := RevokeAll(s, o, ds);
            o in t.cache && NonNegative(t) && t.cache[o] == s.cache[o].Minus(Sum(ds)).Floored()
    ensures Sum(ds).NonNegative()
    ensures ds != [] ==> RevokeAll(s, o, ds).cache[o] == Revoke(s, o, Sum(ds)).0.cache[o]
  {
    assert Cached(s, o).NonNegative();
    if ds != [] {
      var n := |ds| - 1;
      assert ds[n] in ds && forall d <- ds[..n] :: d in ds;
      RevokesCompose(s, o, ds[..n]);
      RevokeLeaves(RevokeAll(s, o, ds[..n]), o, ds[n]);
      RevokeLeaves(s, o, Sum(ds));
    }
  }

  /** With amounts of either sign two revokes amount to one of their sum exactly when no component
      is first cut off at zero and then raised. */
  lemma TwoRevokesIff(s: State, o: Owner, a: Credits, b: Credits)
    requires o in s.cache && NonNegative(s)
    requires (a.rides > 0 || a.bonus > 0) && (b.rides > 0 || b.bonus > 0)
    requires a.Plus(b).rides > 0 || a.Plus(b).bonus > 0
    ensures var c := s.cache[o];
            Cached(RevokeAll(s, o, [a, b]), o) == Cached(Revoke(s, o, a.Plus(b)).0, o)
            <==> !(c.rides < a.rides && b.rides < 0) && !(c.bonus < a.bonus && b.bonus < 0)
  {
    assert [a, b][..1] == [a] && [a][..0] == [];
    assert RevokeAll(s, o, [a]) == Revoke(RevokeAll(s, o, []), o, a).0 == Revoke(s, o, a).0;
    RevokeLeaves(s, o, a);
    RevokeLeaves(Revoke(s, o, a).0, o, b);
    RevokeLeaves(s, o, a.Plus(b));
  }

  lemma RevokedOnce(s: State, o: Owner, d: Credits)
    requires o in s.cache && NonNegative(s) && (d.rides > 0 || d.bonus > 0)
    ensures var t := Apply(s, OpRevoke(o, d));
            o in t.cache && NonNegative(t) && Cached(t, o) == Cached(s, o).Minus(d).Floored()
  {
    RevokeLeaves(s, o, d);
  }

  function OneRide(o: Owner): Op
  {
    OpGrant(o, PurchaseGrant, Credits(1, 0), None, None)
  }

  lemma AfterOneRide(o: Owner)
    ensures var s := Apply(EMPTY, OneRide(o));
            NonNegative(s) && o in s.cache && Cached(s, o) == Credits(1, 0)
  {
    WriteNonNegativeIff(EMPTY, o, PurchaseGrant, Credits(1, 0), None, None);
  }

  lemma RunAndRevoke(ops: seq<Op>, o: Owner, d: Credits)
    requires o in Run(EMPTY, ops).cache && NonNegative(Run(EMPTY, ops)) && (d.rides > 0 || d.bonus > 0)
    ensures var s, t := Run(EMPTY, ops), Run(EMPTY, ops + [OpRevoke(o, d)]);
            o in t.cache && NonNegative(t) && Cached(t, o) == Cached(s, o).Minus(d).Floored()
  {
    assert (ops + [OpRevoke(o, d)])[..|ops|] == ops;
    RevokedOnce(Run(EMPTY, ops), o, d);
  }

  lemma RunAndRevokeTwice(ops: seq<Op>, o: Owner, a: Credits, b: Credits)
    requires o in Run(EMPTY, ops).cache && NonNegative(Run(EMPTY, ops))
    requires (a.rides > 0 || a.bonus > 0) && (b.rides > 0 || b.bonus > 0)
    ensures Cached(Run(EMPTY, ops + [OpRevoke(o, a), OpRevoke(o, b)]), o)
            == Cached(Run(EMPTY, ops), o).Minus(a).Floored().Minus(b).Floored()
  {
    RunAndRevoke(ops, o, a);
    RunAndRevoke(ops + [OpRevoke(o, a)], o, b);
    assert ops + [OpRevoke(o, a)] + [OpRevoke(o, b)] == ops + [OpRevoke(o, a), OpRevoke(o, b)];
  }

  lemma CutOffAndRaised()
    ensures Credits(1, 0).Minus(Credits(2, 0)).Floored().Minus(Credits(-1, 1)).Floored() == Credits(1, 0)
    ensures Credits(1, 0).Minus(Credits(1, 1)).Floored() == ZERO
  {
  }

  /** Runs in which they do not: after a purchase of one ride the second of two revokes gives the ride back
      that the first had cut off, and one revoke of their sum takes it. */
  lemma RevokeGivesBack(o: Owner, ops: seq<Op>)
    requires |ops| == 1 && ops[0] == OneRide(o)
    ensures Cached(Run(EMPTY, ops + [OpRevoke(o, Credits(2, 0)), OpRevoke(o, Credits(-1, 1))]), o) == Credits(1, 0)
    ensures Cached(Run(EMPTY, ops + [OpRevoke(o, Credits(1, 1))]), o) == ZERO
  {
    RunOfOne(ops);
    AfterOneRide(o);
    RunAndRevokeTwice(ops, o, Credits(2, 0), Credits(-1, 1));
    RunAndRevoke(ops, o, Credits(1, 1));
    CutOffAndRaised();
  }

  // ---------------------------------------------------------------- the expiry sweep

  lemma {:induction false} LiveAndUsedBoundReplay(rows: seq<Row>, o: Owner, now: int)
    ensures Live(rows, o, now).Minus(Used(rows, o, true)).AtMost(Replay(rows, o))
  {
    if rows != [] {
      LiveAndUsedBoundReplay(rows[..|rows| - 1], o, now);
    }
  }

  /** A sweep never adds credits, and leaves exactly the recomputed balance. */
  lemma SweepLeaves(s: State, o: Owner, now: int)
    requires Consistent(s) && NonNegative(s) && o in s.cache
    ensures var t := SweepOne(s, o, now);
            && Cached(t, o) == Recomputed(s.rows, o, now)
            && Cached(t, o).AtMost(Cached(s, o))
  {
    LiveAndUsedBoundReplay(s.rows, o, now);
    assert Cached(s, o) == Replay(s.rows, o) && Cached(s, o).NonNegative();
  }

  /** Credits of the owner that have lapsed by `now`, spent or not. */
  function Lapsed(rows: seq<Row>, o: Owner, now: int): Credits
  {
    if rows == [] then ZERO
    else
      var last, rest := rows[|rows| - 1], Lapsed(rows[..|rows| - 1], o, now);
      if last.owner == o && last.expiresAt.Some? && last.expiresAt.value <= now
      then Credits(rest.rides + Max0(last.delta.rides), rest.bonus + Max0(last.delta.bonus)) else rest
  }

  /** What earlier sweeps have taken from the owner. */
  function TakenBySweeps(rows: seq<Row>, o: Owner): Credits
  {
    if rows == [] then ZERO
    else
      var last, rest := rows[|rows| - 1], TakenBySweeps(rows[..|rows| - 1], o);
      if last.owner == o && last.kind == Expiry
      then Credits(rest.rides + Max0(-last.delta.rides), rest.bonus + Max0(-last.delta.bonus)) else rest
  }

  lemma Halves(a: int)
    ensures Max0(a) - Max0(0 - a) == a
  {
  }

  lemma {:induction false} LiveLessUsed(rows: seq<Row>, o: Owner, now: int)
    ensures Live(rows, o, now).Minus(Used(rows, o, true)) == Replay(rows, o).Minus(Lapsed(rows, o, now))
  {
    if rows != [] {
      var last := rows[|rows| - 1];
      LiveLessUsed(rows[..|rows| - 1], o, now);
      Halves(last.delta.rides);
      Halves(last.delta.bonus);
    }
  }

  lemma {:induction false} UsedSplits(rows: seq<Row>, o: Owner)
    ensures Used(rows, o, true) == Used(rows, o, false).Plus(TakenBySweeps(rows, o))
  {
    if rows != [] {
      UsedSplits(rows[..|rows| - 1], o);
    }
  }

  /** So a sweep takes from the balance all that has ever lapsed, down to zero. */
  lemma SweepTakesLapsed(s: State, o: Owner, now: int)
    requires Consistent(s) && NonNegative(s) && o in s.cache
    ensures var b, l := Cached(s, o), Lapsed(s.rows, o, now);
            Cached(SweepOne(s, o, now), o) == Credits(Max0(b.rides - l.rides), Max0(b.bonus - l.bonus))
  {
    SweepLeaves(s, o, now);
    LiveLessUsed(s.rows, o, now);
    assert Cached(s, o) == Replay(s.rows, o);
  }

  lemma SweptAggregates(s: State, o: Owner, now: int)
    requires Consistent(s) && NonNegative(s) && o in s.cache
    ensures var t := SweepOne(s, o, now);
            && Live(t.rows, o, now) == Live(s.rows, o, now)
            && Used(t.rows, o, true) == Used(s.rows, o, true).Plus(Cached(s, o).Minus(Cached(t, o)))
  {
    SweepLeaves(s, o, now);
    var t := SweepOne(s, o, now);
    if t != s {
      assert t.rows[..|s.rows|] == s.rows;
    }
  }

  /** What is left of `before` credits, swept down to `after`, when the sweep runs a second time:
      the row the first sweep wrote now counts as consumption, so as much again is taken. */
  function SweptTwice(before: int, after: int): int
  {
    if after > 0 then Max0(after - (before - after)) else 0
  }

  lemma SecondSweepLeaves(s: State, o: Owner, now: int)
    requires Consistent(s) && NonNegative(s) && o in s.cache
    ensures var c, n := Cached(s, o), Recomputed(s.rows, o, now);
            Cached(SweepOne(SweepOne(s, o, now), o, now), o)
            == Credits(SweptTwice(c.rides, n.rides), SweptTwice(c.bonus, n.bonus))
  {
    var t := SweepOne(s, o, now);
    SweepLeaves(s, o, now);
    SweptAggregates(s, o, now);
    SweepConsistent(s, [o], now);
    SweepNonNegative(s, [o], now);
    assert Sweep(s, [o], now) == t by {
      assert [o][..0] == [];
      assert Sweep(s, [], now) == s;
    }
    SweepLeaves(t, o, now);
  }

  /** The program calls the sweep safe to run repeatedly. At one and the same instant a second
      sweep changes nothing exactly when the first did not expire part, but not all, of the
      rides or of the bonus rides. */
  lemma SweepIsIdempotentIff(s: State, o: Owner, now: int)
    requires Consistent(s) && NonNegative(s) && o in s.cache
    ensures var t := SweepOne(s, o, now);
            var c, n := Cached(s, o), Cached(t, o);
            Cached(SweepOne(t, o, now), o) == n
            <==> !(0 < n.rides < c.rides) && !(0 < n.bonus < c.bonus)
  {
    SweepLeaves(s, o, now);
    SecondSweepLeaves(s, o, now);
  }

  // A sweep reads all balances before it starts and locks nothing: other requests get in between.

  /** The write for an owner whose balance was read as `read` and recomputed as `n`. */
  function FinishSweep(s: State, o: Owner, read: Credits, n: Credits): State
  {
    if read.AtMost(n) then s
    else State(s.cache[o := n], s.rows + [Row(o, Expiry, n.Minus(read), n, None, None)])
  }

  /** With nothing in between that is the sweep. */
  lemma SweepIsItsHalves(s: State, o: Owner, now: int)
    requires o in s.cache
    ensures SweepOne(s, o, now) == FinishSweep(s, o, Cached(s, o), Recomputed(s.rows, o, now))
  {
  }

  lemma LateBalance(s: State, o: Owner, read: Credits, n: Credits)
    requires Consistent(s) && !read.AtMost(n)
    ensures var t := FinishSweep(s, o, read, n);
            Replay(t.rows, o) == Cached(s, o).Plus(n.Minus(read)) && Cached(t, o) == n
  {
    assert FinishSweep(s, o, read, n).rows[..|s.rows|] == s.rows;
    assert Cached(s, o) == Replay(s.rows, o);
  }

  /** A write that comes late leaves the ledger consistent exactly if it writes nothing, or the balance is
      still the one that was read. */
  lemma LateSweepIsConsistentIff(s: State, o: Owner, read: Credits, n: Credits)
    requires Consistent(s)
    ensures Consistent(FinishSweep(s, o, read, n)) <==> read.AtMost(n) || read == Cached(s, o)
  {
    if !read.AtMost(n) {
      LateBalance(s, o, read, n);
      if read == Cached(s, o) {
        WriteConsistent(s, o, Expiry, n.Minus(read), None, None);
        assert FinishSweep(s, o, read, n) == Write(s, o, Expiry, n.Minus(read), None, None);
      }
    }
  }

  function Bought(o: Owner, n: int): Op
  {
    OpGrant(o, PurchaseGrant, Credits(n, 0), None, None)
  }

  function BoughtRow(o: Owner, n: int): Row
  {
    Row(o, PurchaseGrant, Credits(n, 0), Credits(n, 0), None, None)
  }

  function TakenRow(o: Owner, n: int, ride: string): Row
  {
    Row(o, RideDeduction, Credits(-1, 0), Credits(n - 1, 0), Some(ride), None)
  }

  lemma AfterPurchase(o: Owner, n: int)
    ensures Apply(EMPTY, Bought(o, n)) == State(map[o := Credits(n, 0)], [BoughtRow(o, n)])
  {
  }

  lemma AfterOneTaken(s: State, o: Owner, n: int, ride: string)
    requires n > 0 && s == State(map[o := Credits(n, 0)], [BoughtRow(o, n)])
    ensures Deduct(s, o, ride).0 == State(map[o := Credits(n - 1, 0)], [BoughtRow(o, n), TakenRow(o, n, ride)])
  {
    assert !KeyUsed(s.rows, ride);
    assert s.cache[o := Credits(n - 1, 0)] == map[o := Credits(n - 1, 0)];
  }

  lemma {:induction false} NoneLapse(rows: seq<Row>, o: Owner, now: int)
    requires forall row <- rows :: row.expiresAt == None
    ensures Lapsed(rows, o, now) == ZERO
  {
    if rows != [] {
      assert rows[|rows| - 1] in rows && forall row | row in rows[..|rows| - 1] :: row in rows;
      NoneLapse(rows[..|rows| - 1], o, now);
    }
  }

  /** What never expires counts in full. */
  lemma RecomputedOfPermanent(rows: seq<Row>, o: Owner, now: int)
    requires forall row <- rows :: row.expiresAt == None
    ensures Recomputed(rows, o, now) == Replay(rows, o).Floored()
  {
    NoneLapse(rows, o, now);
    LiveLessUsed(rows, o, now);
    assert Replay(rows, o).Minus(ZERO) == Replay(rows, o);
  }

  lemma OneTakenRun(o: Owner, n: int, ride: string, ops: seq<Op>)
    requires n > 0 && |ops| == 2 && ops[0] == Bought(o, n) && ops[1] == OpDeduct(o, ride)
    ensures Cached(Run(EMPTY, ops[..1]), o) == Credits(n, 0)
    ensures Run(EMPTY, ops) == State(map[o := Credits(n - 1, 0)], [BoughtRow(o, n), TakenRow(o, n, ride)])
  {
    AfterPurchase(o, n);
    AfterOneTaken(Apply(EMPTY, ops[0]), o, n, ride);
    RunOfOne(ops[..1]);
    RunOfTwo(ops);
  }

  lemma RecomputedAfterOne(s: State, o: Owner, n: int, ride: string, now: int)
    requires n > 0 && Consistent(s) && s == State(map[o := Credits(n - 1, 0)], [BoughtRow(o, n), TakenRow(o, n, ride)])
    ensures Recomputed(s.rows, o, now) == Credits(n - 1, 0)
  {
    RecomputedOfPermanent(s.rows, o, now);
    assert Replay(s.rows, o) == Cached(s, o);
  }

  /** Of n permanent rides one is taken between a sweep's read and its write: the sweep records an expiry of
      one that did not happen, and the ledger has one less than the balance says. */
  lemma LateSweepTakesARide(o: Owner, n: int, ride: string, ops: seq<Op>, now: int)
    requires n > 0 && |ops| == 2 && ops[0] == Bought(o, n) && ops[1] == OpDeduct(o, ride)
    ensures var before, s := Run(EMPTY, ops[..1]), Run(EMPTY, ops);
            var t := FinishSweep(s, o, Cached(before, o), Recomputed(s.rows, o, now));
            Cached(t, o) == Credits(n - 1, 0) && Replay(t.rows, o) == Credits(n - 2, 0)
  {
    OneTakenRun(o, n, ride, ops);
    RunConsistent(ops);
    RecomputedAfterOne(Run(EMPTY, ops), o, n, ride, now);
    LateBalance(Run(EMPTY, ops), o, Credits(n, 0), Credits(n - 1, 0));
  }

  /** The promise: unexpired grants minus everything consumed, floored at zero. Expiry rows are
      not consumption. */
  function Promised(rows: seq<Row>, o: Owner, now: int): Credits
  {
    Live(rows, o, now).Minus(Used(rows, o, false)).Floored()
  }

  lemma Rearranged(live: Credits, used: Credits, consumed: Credits, b: Credits, l: Credits, e: Credits)
    requires live.Minus(used) == b.Minus(l) && used == consumed.Plus(e)
    ensures live.Minus(consumed) == b.Plus(e).Minus(l)
  {
    var x, y := live.Minus(used), b.Minus(l);
    assert live.rides - used.rides == x.rides && x.rides == b.rides - l.rides;
    assert live.bonus - used.bonus == x.bonus && x.bonus == b.bonus - l.bonus;
    assert used.rides == consumed.rides + e.rides && used.bonus == consumed.bonus + e.bonus;
  }

  /** That is the balance less what has lapsed, if what sweeps took is given back first. */
  lemma PromisedIs(rows: seq<Row>, o: Owner, now: int)
    ensures Promised(rows, o, now) == Replay(rows, o).Plus(TakenBySweeps(rows, o)).Minus(Lapsed(rows, o, now)).Floored()
  {
    LiveLessUsed(rows, o, now);
    UsedSplits(rows, o);
    Rearranged(Live(rows, o, now), Used(rows, o, true), Used(rows, o, false),
               Replay(rows, o), Lapsed(rows, o, now), TakenBySweeps(rows, o));
  }

  /** What sweeps have taken so far. */
  function Expired(rows: seq<Row>, o: Owner): Credits
  {
    Used(rows, o, true).Minus(Used(rows, o, false))
  }

  lemma {:induction false} ExpiredNonNegative(rows: seq<Row>, o: Owner)
    ensures Expired(rows, o).NonNegative()
  {
    if rows != [] {
      ExpiredNonNegative(rows[..|rows| - 1], o);
    }
  }

  /** A sweep leaves the promised balance exactly when, for rides and for bonus rides alike, no
      earlier sweep took any or nothing is due anyway. */
  lemma SweepKeepsPromiseIff(s: State, o: Owner, now: int)
    requires Consistent(s) && NonNegative(s) && o in s.cache
    ensures var e, p := Expired(s.rows, o), Promised(s.rows, o, now);
            Cached(SweepOne(s, o, now), o) == p
            <==> (e.rides == 0 || p.rides == 0) && (e.bonus == 0 || p.bonus == 0)
  {
    SweepLeaves(s, o, now);
    ExpiredNonNegative(s.rows, o);
  }

  /** Two grants on empty tables: `a` rides lapsing at `t`, then `b` rides for ever. */
  function TwoGrants(o: Owner, a: int, b: int, t: int): seq<Op>
  {
    [OpGrant(o, PurchaseGrant, Credits(a, 0), None, Some(t)), OpGrant(o, AdminGrant, Credits(b, 0), None, None)]
  }

  lemma TwoGrantsRun(o: Owner, a: int, b: int, t: int)
    ensures var s := Run(EMPTY, TwoGrants(o, a, b, t));
            && s == Write(Write(EMPTY, o, PurchaseGrant, Credits(a, 0), None, Some(t)), o, AdminGrant, Credits(b, 0), None, None)
            && Consistent(s)
  {
    var ops := TwoGrants(o, a, b, t);
    assert ops[..1][..0] == [];
    assert ops[..1] == [ops[0]];
    assert Run(EMPTY, ops[..1]) == Apply(Run(EMPTY, []), ops[0]);
    assert Run(EMPTY, ops) == Apply(Run(EMPTY, ops[..1]), ops[1]);
    RunConsistent(ops);
  }

  /** An owner's balance with the aggregates a sweep reads. */
  datatype Account = Account(cached: Credits, live: Credits, used: Credits, consumed: Credits) {
    function Granted(d: Credits, unexpired: bool): Account {
      this.(cached := cached.Plus(d), live := if unexpired then live.Plus(d) else live)
    }
  }

  function AccountOf(s: State, o: Owner, now: int): Account
  {
    Account(Cached(s, o), Live(s.rows, o, now), Used(s.rows, o, true), Used(s.rows, o, false))
  }

  /** What a grant adds to an owner's balance and to the aggregates. */
  lemma GrantAdds(s: State, o: Owner, kind: Kind, d: Credits, e: Option<int>, now: int)
    requires NonNegative(s) && d.NonNegative() && kind != Expiry
    ensures var t := Write(s, o, kind, d, None, e);
            && NonNegative(t) && o in t.cache
            && AccountOf(t, o, now) == AccountOf(s, o, now).Granted(d, e == None || e.value > now)
  {
    WriteNonNegativeIff(s, o, kind, d, None, e);
    assert Cached(s, o).NonNegative();
    assert Write(s, o, kind, d, None, e).rows[..|s.rows|] == s.rows;
  }

  lemma PartlyLapsed(o: Owner, a: int, b: int, t: int)
    requires a > 0 && b > 0
    ensures var s := Write(Write(EMPTY, o, PurchaseGrant, Credits(a, 0), None, Some(t)), o, AdminGrant, Credits(b, 0), None, None);
            && NonNegative(s) && o in s.cache
            && AccountOf(s, o, t) == Account(ZERO, ZERO, ZERO, ZERO).Granted(Credits(a, 0), false).Granted(Credits(b, 0), true)
  {
    assert AccountOf(EMPTY, o, t) == Account(ZERO, ZERO, ZERO, ZERO);
    GrantAdds(EMPTY, o, PurchaseGrant, Credits(a, 0), Some(t), t);
    GrantAdds(Write(EMPTY, o, PurchaseGrant, Credits(a, 0), None, Some(t)), o, AdminGrant, Credits(b, 0), None, t);
  }

  lemma PartlyLapsedSwept(s: State, o: Owner, a: int, b: int, t: int)
    requires Consistent(s) && NonNegative(s) && o in s.cache && a > 0 && b > 0
    requires AccountOf(s, o, t) == Account(ZERO, ZERO, ZERO, ZERO).Granted(Credits(a, 0), false).Granted(Credits(b, 0), true)
    ensures var once := SweepOne(s, o, t);
            && Promised(s.rows, o, t) == Cached(once, o) == Credits(b, 0)
            && Cached(SweepOne(once, o, t), o) == Credits(Max0(b - a), 0)
  {
    SweepLeaves(s, o, t);
    SecondSweepLeaves(s, o, t);
  }

  /** A run in which sweeping twice destroys credits that never expire: of `a` lapsed and `b`
      permanent rides the first sweep leaves `b`, as it should, the second only `b - a`. */
  lemma SecondSweepTakesLiveCredits(o: Owner, a: int, b: int, t: int)
    requires a > 0 && b > 0
    ensures var s := Run(EMPTY, TwoGrants(o, a, b, t));
            var once := SweepOne(s, o, t);
            && Promised(s.rows, o, t) == Cached(once, o) == Credits(b, 0)
            && Cached(SweepOne(once, o, t), o) == Credits(Max0(b - a), 0)
  {
    TwoGrantsRun(o, a, b, t);
    PartlyLapsed(o, a, b, t);
    PartlyLapsedSwept(Run(EMPTY, TwoGrants(o, a, b, t)), o, a, b, t);
  }
}
