/** Manual payment claims (internal/packagepayments): a driver says he has paid, an admin approves and
    the rides are granted. Rows are versioned, and every transition leaves an audit row. */
module Claims {

  import opened Options

  // ---------------------------------------------------------------- vehicle types and prices

  datatype Vehicle = MotoBike | CabTaxi | HeavyFuso | LightHilux | TukTuk | Unknown

  function Lower(c: char): char
  {
    if 'A' <= c <= 'Z' then c + 32 as char else c
  }

  function LowerAll(s: string): (r: string)
    ensures |r| == |s| && forall i :: 0 <= i < |s| ==> r[i] == Lower(s[i])
  {
    seq(|s|, i requires 0 <= i < |s| => Lower(s[i]))
  }

  /** The characters `strings.TrimSpace` trims. */
  predicate Blank(c: char)
  {
    var n := c as int;
    9 <= n <= 13 || n == 0x20 || n == 0x85 || n == 0xA0 || n == 0x1680 || 0x2000 <= n <= 0x200A
    || n == 0x2028 || n == 0x2029 || n == 0x202F || n == 0x205F || n == 0x3000
  }

  function TrimLeft(s: string): string
  {
    if s != "" && Blank(s[0]) then TrimLeft(s[1..]) else s
  }

  function TrimRight(s: string): string
  {
    if s != "" && Blank(s[|s| - 1]) then TrimRight(s[..|s| - 1]) else s
  }

  function Fold(s: string): string
  {
    LowerAll(TrimRight(TrimLeft(s)))
  }

  /** What a claim's vehicle type, a backend code or a mobile name in letters of any case, stands for. */
  function VehicleOf(text: string): Vehicle
  {
    var v := Fold(text);
    if v == "moto_bike" || v == "moto" then MotoBike
    else if v == "cab_taxi" || v == "cab" then CabTaxi
    else if v == "heavy_fuso" || v == "fuso" then HeavyFuso
    else if v == "light_hilux" || v == "hilux" then LightHilux
    else if v == "tuk_tuk" || v == "rifani" then TukTuk
    else Unknown
  }

  function PricePerRide(v: Vehicle): Option<int>
  {
    match v
    case MotoBike => Some(30)
    case CabTaxi => Some(200)
    case HeavyFuso => Some(1000)
    case LightHilux => Some(1000)
    case TukTuk => Some(700)
    case Unknown => None
  }

  /** floor(amount / price), or None if the vehicle is unknown or the amount buys no ride. */
  function RidesFor(v: Vehicle, amount: int): (r: Option<int>)
    ensures r.Some? <==> PricePerRide(v).Some? && amount >= PricePerRide(v).value
    ensures r.Some? ==> var p := PricePerRide(v).value; r.value >= 1 && r.value * p <= amount < (r.value + 1) * p
  {
    if PricePerRide(v) == None || amount < PricePerRide(v).value then None
    else
      var p := PricePerRide(v).value;
      assert p > 0 && amount == amount / p * p + amount % p;
      Some(amount / p)
  }

  // ---------------------------------------------------------------- the tables

  datatype Status = Created | Submitted | Approved | Rejected | Expired | Cancelled

  datatype Action = DidCreate | DidSubmit | DidResubmit | DidCancel | DidApprove | DidReject

  /** The position of a row is its id. A claim without a package is a custom top-up. */
  datatype Claim = Claim(user: nat, key: string, custom: bool, vehicle: Vehicle, amount: int, expiresAt: int,
                         status: Status, version: nat)

  datatype Audit = Audit(claim: nat, action: Action)

  /** `rides` is None for a package, which brings its own number. */
  datatype Grant = Grant(claim: nat, user: nat, rides: Option<int>)

  datatype State = State(claims: seq<Claim>, audits: seq<Audit>, grants: seq<Grant>)

  const EMPTY := State([], [], [])

  const EXPIRES_AFTER := 120

  datatype Input = Input(provider: string, key: string, vehicleId: string, phone: string, amount: int,
                         packageId: string, offerId: string, vehicleType: string)

  datatype Result =
    | Ok(claim: nat)
    | InvalidProvider
    | InvalidClaim
    | InvalidVehicleType
    | ProviderDisabled
    | NotFound
    | Conflict
    | InvalidCustomClaim
    | GrantFailed

  predicate IsCustom(input: Input) { TrimRight(TrimLeft(input.packageId)) == "" }

  /** The checks of `Create`, in its order; MTN is always enabled. */
  function Validate(input: Input, airtelEnabled: bool): Option<Result>
  {
    var provider := Fold(input.provider);
    var price := PricePerRide(VehicleOf(input.vehicleType));
    if provider != "mtn" && provider != "airtel" then Some(InvalidProvider)
    else if input.key == "" then Some(InvalidClaim)
    else if input.vehicleId == "" || input.phone == "" || input.amount <= 0 then Some(InvalidClaim)
    else if IsCustom(input) && price == None then Some(InvalidVehicleType)
    else if IsCustom(input) && input.amount < price.value then Some(InvalidClaim)
    else if !IsCustom(input) && input.offerId == "" then Some(InvalidClaim)
    else if provider == "airtel" && !airtelEnabled then Some(ProviderDisabled)
    else None
  }

  predicate AllBlank(s: string)
  {
    forall c <- s :: Blank(c)
  }

  /** Nothing to trim at either end. */
  predicate Trimmed(s: string)
  {
    s != "" ==> !Blank(s[0]) && !Blank(s[|s| - 1])
  }

  lemma {:induction false} TrimLeftIs(l: string, rest: string)
    requires AllBlank(l) && (rest != "" ==> !Blank(rest[0]))
    ensures TrimLeft(l + rest) == rest
  {
    if l == "" {
      assert l + rest == rest;
    } else {
      assert l[0] in l && (l + rest)[1..] == l[1..] + rest;
      TrimLeftIs(l[1..], rest);
    }
  }

  lemma {:induction false} TrimRightIs(rest: string, r: string)
    requires AllBlank(r) && (rest != "" ==> !Blank(rest[|rest| - 1]))
    ensures TrimRight(rest + r) == rest
  {
    if r == "" {
      assert rest + r == rest;
    } else {
      var n := |r| - 1;
      assert r[n] in r && (rest + r)[..|rest| + n] == rest + r[..n];
      TrimRightIs(rest, r[..n]);
    }
  }

  lemma {:induction false} TrimLeftOfBlank(s: string)
    requires AllBlank(s)
    ensures TrimLeft(s) == ""
  {
    if s != "" {
      assert s[0] in s;
      TrimLeftOfBlank(s[1..]);
    }
  }

  /** Blanks at both ends are dropped, and nothing else. */
  lemma TrimIs(l: string, core: string, r: string)
    requires AllBlank(l) && AllBlank(r) && Trimmed(core)
    ensures TrimRight(TrimLeft(l + core + r)) == core
  {
    if core == "" {
      assert l + core + r == l + r;
      TrimLeftOfBlank(l + r);
    } else {
      assert l + core + r == l + (core + r);
      TrimLeftIs(l, core + r);
      TrimRightIs(core, r);
    }
  }

  /** The names each vehicle type goes by. */
  function Names(v: Vehicle): set<string>
  {
    match v
    case MotoBike => {"moto_bike", "moto"}
    case CabTaxi => {"cab_taxi", "cab"}
    case HeavyFuso => {"heavy_fuso", "fuso"}
    case LightHilux => {"light_hilux", "hilux"}
    case TukTuk => {"tuk_tuk", "rifani"}
    case Unknown => {}
  }

  lemma NamesDiffer(v: Vehicle, w: Vehicle, name: string)
    requires name in Names(v) && name in Names(w)
    ensures v == w
  {
  }

  lemma NameIs(text: string, v: Vehicle)
    requires v != Unknown
    ensures VehicleOf(text) == v <==> Fold(text) in Names(v)
  {
    if Fold(text) in Names(v) && VehicleOf(text) != v {
      assert VehicleOf(text) == Unknown || Fold(text) in Names(VehicleOf(text));
      if VehicleOf(text) != Unknown { NamesDiffer(v, VehicleOf(text), Fold(text)); }
    }
  }

  /** A type's name is understood in letters of any case and with blanks around it, and no other text is. */
  lemma NamedInAnyDress(l: string, name: string, r: string, v: Vehicle)
    requires AllBlank(l) && AllBlank(r) && Trimmed(name) && v != Unknown
    ensures VehicleOf(l + name + r) == v <==> LowerAll(name) in Names(v)
  {
    TrimIs(l, name, r);
    NameIs(l + name + r, v);
  }

  /** A claim is taken up exactly if it names a provider that is enabled, a key, a vehicle, a phone and an
      amount, and either buys a ride at the price of a known vehicle type or names the offer of a package. */
  lemma ValidIff(input: Input, airtelEnabled: bool)
    ensures Validate(input, airtelEnabled) == None <==>
            && (Fold(input.provider) == "mtn" || (Fold(input.provider) == "airtel" && airtelEnabled))
            && input.key != "" && input.vehicleId != "" && input.phone != "" && input.amount > 0
            && (if TrimRight(TrimLeft(input.packageId)) == "" then RidesFor(VehicleOf(input.vehicleType), input.amount).Some?
                else input.offerId != "")
  {
    assert "mtn" != "airtel";
  }

  /** Otherwise the complaint is the first that applies: the provider's name, what is missing, the vehicle
      type, what the amount or the offer lacks, and last a provider that is switched off. */
  lemma ComplaintIs(input: Input, airtelEnabled: bool)
    ensures Validate(input, airtelEnabled) == Some(InvalidProvider) <==> Fold(input.provider) !in {"mtn", "airtel"}
    ensures Validate(input, airtelEnabled) == Some(InvalidVehicleType) <==>
            && Fold(input.provider) in {"mtn", "airtel"} && Complete(input)
            && TrimRight(TrimLeft(input.packageId)) == "" && VehicleOf(input.vehicleType) == Unknown
    ensures Validate(input, airtelEnabled) == Some(ProviderDisabled) <==>
            Fold(input.provider) == "airtel" && !airtelEnabled && Validate(input, true) == None
    ensures Validate(input, airtelEnabled).Some? ==>
            Validate(input, airtelEnabled).value in {InvalidProvider, InvalidClaim, InvalidVehicleType, ProviderDisabled}
  {
    assert PricePerRide(VehicleOf(input.vehicleType)) == None <==> VehicleOf(input.vehicleType) == Unknown;
  }

  predicate Complete(input: Input)
  {
    input.key != "" && input.vehicleId != "" && input.phone != "" && input.amount > 0
  }

  predicate HasKey(c: Claim, user: nat, key: string) { c.user == user && c.key == key }

  function Find(claims: seq<Claim>, user: nat, key: string): (r: Option<nat>)
    ensures r.Some? ==> r.value < |claims| && HasKey(claims[r.value], user, key)
    ensures r == None ==> forall i :: 0 <= i < |claims| ==> !HasKey(claims[i], user, key)
  {
    if claims == [] then None
    else
      var n := |claims| - 1;
      var earlier := Find(claims[..n], user, key);
      if earlier.Some? then earlier else if HasKey(claims[n], user, key) then Some(n) else None
  }

  function NewClaim(user: nat, input: Input, now: int): Claim
  {
    Claim(user, input.key, IsCustom(input), VehicleOf(input.vehicleType), input.amount, now + EXPIRES_AFTER, Created, 1)
  }

  function Create(s: State, user: nat, input: Input, airtelEnabled: bool, now: int): (State, Result)
  {
    if Validate(input, airtelEnabled).Some? then (s, Validate(input, airtelEnabled).value)
    else if Find(s.claims, user, input.key).Some? then (s, Ok(Find(s.claims, user, input.key).value))
    else
      (State(s.claims + [NewClaim(user, input, now)], s.audits + [Audit(|s.claims|, DidCreate)], s.grants), Ok(|s.claims|))
  }

  // ---------------------------------------------------------------- transitions

  function ExpireOne(c: Claim, user: nat, now: int): Claim
  {
    if c.user == user && (c.status == Created || c.status == Submitted) && c.expiresAt < now
    then c.(status := Expired, version := c.version + 1) else c
  }

  function ExpireAll(claims: seq<Claim>, user: nat, now: int): (r: seq<Claim>)
    ensures |r| == |claims| && forall i :: 0 <= i < |claims| ==> r[i] == ExpireOne(claims[i], user, now)
  {
    if claims == [] then []
    else ExpireAll(claims[..|claims| - 1], user, now) + [ExpireOne(claims[|claims| - 1], user, now)]
  }

  function Expire(s: State, user: nat, now: int): State
  {
    s.(claims := ExpireAll(s.claims, user, now))
  }

  /** The status a driver's or an admin's action leads to, if it is allowed. */
  function Target(from: Status, a: Action): Option<Status>
  {
    match a
    case DidCreate => None
    case DidSubmit => if from == Created then Some(Submitted) else None
    case DidResubmit => if from == Rejected then Some(Submitted) else None
    case DidCancel => if from == Created || from == Submitted || from == Rejected then Some(Cancelled) else None
    case DidApprove => if from == Submitted then Some(Approved) else None
    case DidReject => if from == Submitted then Some(Rejected) else None
  }

  /** The row's update with its version bump, and the audit row. */
  function Move(s: State, id: nat, a: Action, to: Status): State
    requires id < |s.claims|
  {
    var c := s.claims[id];
    s.(claims := s.claims[id := c.(status := to, version := c.version + 1)], audits := s.audits + [Audit(id, a)])
  }

  predicate IsDriverAction(a: Action) { a.DidSubmit? || a.DidResubmit? || a.DidCancel? }

  function DriverMove(s: State, user: nat, id: nat, a: Action): (State, Result)
    requires IsDriverAction(a)
  {
    if id >= |s.claims| || s.claims[id].user != user then (s, NotFound)
    else if Target(s.claims[id].status, a) == None then (s, Conflict)
    else (Move(s, id, a, Target(s.claims[id].status, a).value), Ok(id))
  }

  /** Stale claims expire first. */
  function DriverAct(s: State, user: nat, id: nat, a: Action, now: int): (State, Result)
    requires IsDriverAction(a)
  {
    DriverMove(Expire(s, user, now), user, id, a)
  }

  function GrantOf(id: nat, c: Claim): Grant
  {
    Grant(id, c.user, if c.custom then RidesFor(c.vehicle, c.amount) else None)
  }

  /** `granted` is whether the granter succeeds. */
  function Approve(s: State, id: nat, granted: bool): (State, Result)
  {
    if id >= |s.claims| then (s, NotFound)
    else
      var c := s.claims[id];
      if c.status == Approved then (s, Ok(id))
      else if c.status != Submitted then (s, Conflict)
      else if c.custom && RidesFor(c.vehicle, c.amount) == None then (s, InvalidCustomClaim)
      else if !granted then (s, GrantFailed)
      else
        var g := GrantOf(id, c);
        (Move(s.(grants := s.grants + [g]), id, DidApprove, Approved), Ok(id))
  }

  function Reject(s: State, id: nat): (State, Result)
  {
    if id >= |s.claims| then (s, NotFound)
    else if s.claims[id].status != Submitted then (s, Conflict)
    else (Move(s, id, DidReject, Rejected), Ok(id))
  }

  datatype Event =
    | OnCreate(user: nat, input: Input, airtelEnabled: bool, now: int)
    | OnDriver(user: nat, id: nat, action: Action, now: int)
    | OnLook(user: nat, now: int)
    | OnApprove(id: nat, granted: bool)
    | OnReject(id: nat)

  function Step(s: State, e: Event): State
  {
    match e
    case OnCreate(user, input, airtel, now) => Create(s, user, input, airtel, now).0
    case OnDriver(user, id, a, now) => if IsDriverAction(a) then DriverAct(s, user, id, a, now).0 else s
    case OnLook(user, now) => Expire(s, user, now)
    case OnApprove(id, granted) => Approve(s, id, granted).0
    case OnReject(id) => Reject(s, id).0
  }

  function RunFrom(s: State, events: seq<Event>): State
  {
    if events == [] then s else Step(RunFrom(s, events[..|events| - 1]), events[|events| - 1])
  }

  function Run(events: seq<Event>): State
  {
    RunFrom(EMPTY, events)
  }

  // ---------------------------------------------------------------- what every request keeps

  /** A claim's own audit trail. */
  function Trail(audits: seq<Audit>, id: nat): seq<Action>
  {
    if audits == [] then []
    else Trail(audits[..|audits| - 1], id) + if audits[|audits| - 1].claim == id then [audits[|audits| - 1].action] else []
  }

  /** The status an audit trail leads to, if every step of it was allowed. */
  function Replay(trail: seq<Action>): Option<Status>
  {
    if trail == [] then None
    else
      var n := |trail| - 1;
      if n == 0 then (if trail[0] == DidCreate then Some(Created) else None)
      else
        var before := Replay(trail[..n]);
        if before == None then None else Target(before.value, trail[n])
  }

  /** The trail explains the row: it leads to the row's status and is as long as its version. Expiry
      alone leaves no audit row. */
  predicate Explains(trail: seq<Action>, c: Claim)
  {
    if c.status == Expired then (Replay(trail) == Some(Created) || Replay(trail) == Some(Submitted)) && c.version == |trail| + 1
    else Replay(trail) == Some(c.status) && c.version == |trail|
  }

  function GrantsFor(grants: seq<Grant>, id: nat): nat
  {
    if grants == [] then 0
    else GrantsFor(grants[..|grants| - 1], id) + if grants[|grants| - 1].claim == id then 1 else 0
  }

  /** A custom claim that `Create` let through can be granted. */
  predicate Grantable(c: Claim)
  {
    c.custom ==> RidesFor(c.vehicle, c.amount).Some?
  }

  predicate RowOk(s: State, id: nat)
    requires id < |s.claims|
  {
    && Explains(Trail(s.audits, id), s.claims[id])
    && GrantsFor(s.grants, id) == (if s.claims[id].status == Approved then 1 else 0)
    && Grantable(s.claims[id])
  }

  ghost predicate Sound(s: State)
  {
    && (forall id :: 0 <= id < |s.claims| ==> RowOk(s, id))
    && (forall i, j :: 0 <= i < j < |s.claims| ==> !HasKey(s.claims[j], s.claims[i].user, s.claims[i].key))
    && (forall a <- s.audits :: a.claim < |s.claims|)
    && (forall g <- s.grants :: g.claim < |s.claims|)
  }

  lemma TrailOfLast(audits: seq<Audit>, a: Audit, id: nat)
    ensures Trail(audits + [a], id) == if a.claim == id then Trail(audits, id) + [a.action] else Trail(audits, id)
  {
    assert (audits + [a])[..|audits|] == audits;
    assert Trail(audits, id) + [] == Trail(audits, id);
  }

  lemma GrantsOfLast(grants: seq<Grant>, g: Grant, id: nat)
    ensures GrantsFor(grants + [g], id) == GrantsFor(grants, id) + if g.claim == id then 1 else 0
  {
    assert (grants + [g])[..|grants|] == grants;
  }

  lemma ReplayOfLast(trail: seq<Action>, a: Action)
    requires Replay(trail).Some?
    ensures Replay(trail + [a]) == Target(Replay(trail).value, a)
  {
    assert (trail + [a])[..|trail|] == trail;
  }

  lemma {:induction false} NoTrail(audits: seq<Audit>, grants: seq<Grant>, id: nat)
    requires forall a <- audits :: a.claim < id
    requires forall g <- grants :: g.claim < id
    ensures Trail(audits, id) == [] && GrantsFor(grants, id) == 0
  {
    if audits != [] {
      assert audits[|audits| - 1] in audits;
      NoTrail(audits[..|audits| - 1], grants, id);
    } else if grants != [] {
      assert grants[|grants| - 1] in grants;
      NoTrail(audits, grants[..|grants| - 1], id);
    }
  }

  lemma CreateSound(s: State, user: nat, input: Input, airtelEnabled: bool, now: int)
    requires Sound(s)
    ensures Sound(Create(s, user, input, airtelEnabled, now).0)
  {
    var t := Create(s, user, input, airtelEnabled, now).0;
    if Validate(input, airtelEnabled) == None && Find(s.claims, user, input.key) == None {
      forall id | 0 <= id <= |s.claims| ensures RowOk(t, id) {
        NewRowOk(s, NewClaim(user, input, now), id);
      }
    }
  }

  lemma NewRowOk(s: State, c: Claim, id: nat)
    requires Sound(s) && id <= |s.claims| && c.status == Created && c.version == 1 && Grantable(c)
    ensures RowOk(State(s.claims + [c], s.audits + [Audit(|s.claims|, DidCreate)], s.grants), id)
  {
    TrailOfLast(s.audits, Audit(|s.claims|, DidCreate), id);
    if id == |s.claims| {
      NoTrail(s.audits, s.grants, id);
      assert Replay([DidCreate]) == Some(Created);
    } else {
      assert RowOk(s, id);
    }
  }

  lemma ExpireSound(s: State, user: nat, now: int)
    requires Sound(s)
    ensures Sound(Expire(s, user, now))
  {
    var t := Expire(s, user, now);
    forall id | 0 <= id < |t.claims| ensures RowOk(t, id) {
      assert RowOk(s, id);
    }
  }

  function Plus(grants: seq<Grant>, g: Option<Grant>): seq<Grant>
  {
    if g.Some? then grants + [g.value] else grants
  }

  lemma ExplainsMove(trail: seq<Action>, c: Claim, a: Action)
    requires Explains(trail, c) && Target(c.status, a).Some?
    ensures Explains(trail + [a], c.(status := Target(c.status, a).value, version := c.version + 1))
  {
    ReplayOfLast(trail, a);
  }

  /** The row that moves. */
  lemma MovedRowOk(s: State, id: nat, a: Action, g: Option<Grant>)
    requires id < |s.claims| && RowOk(s, id) && Target(s.claims[id].status, a).Some?
    requires g.Some? ==> g.value.claim == id
    requires a == DidApprove <==> g.Some?
    ensures RowOk(Move(s.(grants := Plus(s.grants, g)), id, a, Target(s.claims[id].status, a).value), id)
  {
    TrailOfLast(s.audits, Audit(id, a), id);
    if g.Some? {
      GrantsOfLast(s.grants, g.value, id);
    }
    ExplainsMove(Trail(s.audits, id), s.claims[id], a);
  }

  /** The others. */
  lemma OtherRowOk(s: State, id: nat, a: Action, g: Option<Grant>, to: Status, i: nat)
    requires id < |s.claims| && i < |s.claims| && i != id && RowOk(s, i)
    requires g.Some? ==> g.value.claim == id
    ensures RowOk(Move(s.(grants := Plus(s.grants, g)), id, a, to), i)
  {
    TrailOfLast(s.audits, Audit(id, a), i);
    if g.Some? {
      GrantsOfLast(s.grants, g.value, i);
    }
  }

  /** An allowed move of one row, its audit row with it, and a grant exactly if it approves. */
  lemma MoveSound(s: State, id: nat, a: Action, g: Option<Grant>)
    requires Sound(s) && id < |s.claims| && Target(s.claims[id].status, a).Some?
    requires g.Some? ==> g.value.claim == id
    requires a == DidApprove <==> g.Some?
    ensures Sound(Move(s.(grants := Plus(s.grants, g)), id, a, Target(s.claims[id].status, a).value))
  {
    var t := Move(s.(grants := Plus(s.grants, g)), id, a, Target(s.claims[id].status, a).value);
    forall i | 0 <= i < |t.claims| ensures RowOk(t, i) {
      assert RowOk(s, i);
      if i == id {
        MovedRowOk(s, id, a, g);
      } else {
        OtherRowOk(s, id, a, g, Target(s.claims[id].status, a).value, i);
      }
    }
  }

  lemma ApproveSound(s: State, id: nat, granted: bool)
    requires Sound(s)
    ensures Sound(Approve(s, id, granted).0)
    ensures Approve(s, id, granted).1 != InvalidCustomClaim
  {
    if id < |s.claims| {
      assert RowOk(s, id);
      var c := s.claims[id];
      if c.status == Submitted && granted {
        var g := GrantOf(id, c);
        MoveSound(s, id, DidApprove, Some(g));
      }
    }
  }

  lemma StepSound(s: State, e: Event)
    requires Sound(s)
    ensures Sound(Step(s, e))
  {
    match e
    case OnCreate(user, input, airtel, now) => CreateSound(s, user, input, airtel, now);
    case OnDriver(user, id, a, now) =>
      if IsDriverAction(a) {
        ExpireSound(s, user, now);
        var t := Expire(s, user, now);
        if id < |t.claims| && t.claims[id].user == user && Target(t.claims[id].status, a).Some? {
          MoveSound(t, id, a, None);
        }
      }
    case OnLook(user, now) => ExpireSound(s, user, now);
    case OnApprove(id, granted) => ApproveSound(s, id, granted);
    case OnReject(id) => if id < |s.claims| && s.claims[id].status == Submitted { MoveSound(s, id, DidReject, None); }
  }

  /** In every run: the audit trail of a claim is an allowed path from its creation to its status, the
      version counts it, one more if the claim has expired; a claim has one grant if it is approved and
      none otherwise; and a user's idempotency key has one claim. */
  lemma {:induction false} RunSound(events: seq<Event>)
    ensures Sound(Run(events))
    ensures var s := Run(events);
            forall id: nat | id < |s.claims| ::
              && s.claims[id].version == |Trail(s.audits, id)| + (if s.claims[id].status == Expired then 1 else 0)
              && GrantsFor(s.grants, id) == (if s.claims[id].status == Approved then 1 else 0)
  {
    if events != [] {
      RunSound(events[..|events| - 1]);
      StepSound(Run(events[..|events| - 1]), events[|events| - 1]);
    }
    var s := Run(events);
    forall id: nat | id < |s.claims|
      ensures s.claims[id].version == |Trail(s.audits, id)| + (if s.claims[id].status == Expired then 1 else 0)
      ensures GrantsFor(s.grants, id) == (if s.claims[id].status == Approved then 1 else 0)
    {
      assert RowOk(s, id);
    }
  }

  /** `Create` has checked what `Approve` checks again: no claim is ever turned away there. */
  lemma NeverInvalidCustomClaim(events: seq<Event>, id: nat, granted: bool)
    ensures Approve(Run(events), id, granted).1 != InvalidCustomClaim
  {
    RunSound(events);
    ApproveSound(Run(events), id, granted);
  }

  predicate Final(c: Claim) { c.status == Approved || c.status == Cancelled || c.status == Expired }

  /** What may become of a row: its user and terms stay, and a final row stays as it is. */
  predicate Follows(c: Claim, d: Claim)
  {
    && (Final(c) ==> d == c)
    && d.user == c.user && d.key == c.key && d.custom == c.custom && d.vehicle == c.vehicle && d.amount == c.amount
    && d.expiresAt == c.expiresAt
  }

  lemma DriverActFollows(s: State, user: nat, i: nat, a: Action, now: int, id: nat)
    requires id < |s.claims| && IsDriverAction(a)
    ensures id < |DriverAct(s, user, i, a, now).0.claims|
    ensures Follows(s.claims[id], DriverAct(s, user, i, a, now).0.claims[id])
  {
    assert Follows(s.claims[id], Expire(s, user, now).claims[id]);
  }

  lemma StepKeepsFinal(s: State, e: Event, id: nat)
    requires id < |s.claims|
    ensures id < |Step(s, e).claims| && Follows(s.claims[id], Step(s, e).claims[id])
  {
    if e.OnDriver? && IsDriverAction(e.action) {
      DriverActFollows(s, e.user, e.id, e.action, e.now, id);
    } else if e.OnCreate? {
      assert s.claims <= Step(s, e).claims;
    }
  }

  lemma FollowsOn(c: Claim, d: Claim, e: Claim)
    requires Follows(c, d) && Follows(d, e)
    ensures Follows(c, e)
  {
  }

  lemma {:induction false} Later(s: State, events: seq<Event>, id: nat)
    requires id < |s.claims|
    ensures id < |RunFrom(s, events).claims| && Follows(s.claims[id], RunFrom(s, events).claims[id])
  {
    if events != [] {
      var m := |events| - 1;
      Later(s, events[..m], id);
      var t := RunFrom(s, events[..m]);
      StepKeepsFinal(t, events[m], id);
      FollowsOn(s.claims[id], t.claims[id], Step(t, events[m]).claims[id]);
    }
  }

  /** An approved, cancelled or expired claim never changes again, and no claim changes hands or terms,
      whatever requests follow. */
  lemma FinalIsFinal(before: seq<Event>, after: seq<Event>, id: nat)
    requires id < |Run(before).claims|
    ensures id < |RunFrom(Run(before), after).claims|
    ensures Follows(Run(before).claims[id], RunFrom(Run(before), after).claims[id])
  {
    Later(Run(before), after, id);
  }

  /** A claim that goes in is the driver's own, with the terms he gave, and lapses two hours later (times are in
      minutes). */
  predicate AsAsked(c: Claim, user: nat, input: Input, now: int)
  {
    && c.user == user && c.key == input.key && c.amount == input.amount
    && c.vehicle == VehicleOf(input.vehicleType) && (c.custom <==> TrimRight(TrimLeft(input.packageId)) == "")
    && c.expiresAt == now + 120
  }

  /** Whatever is requested after a claim was created, its terms are those it was created with; and it was
      created exactly if the input is valid and the key new to the user. */
  lemma ClaimKeepsItsTerms(before: seq<Event>, user: nat, input: Input, airtel: bool, now: int, after: seq<Event>)
    ensures var s := Run(before); var t := Step(s, OnCreate(user, input, airtel, now));
            && (|t.claims| == |s.claims| + 1 <==>
                  Validate(input, airtel) == None && forall i :: 0 <= i < |s.claims| ==> !HasKey(s.claims[i], user, input.key))
            && (|t.claims| != |s.claims| + 1 ==> t == s)
            && (|t.claims| == |s.claims| + 1 ==>
                  var id := |s.claims|;
                  && t.claims[..id] == s.claims && t.claims[id].status == Created
                  && id < |RunFrom(t, after).claims| && AsAsked(RunFrom(t, after).claims[id], user, input, now))
  {
    var s := Run(before);
    var t := Step(s, OnCreate(user, input, airtel, now));
    if |t.claims| == |s.claims| + 1 {
      Later(t, after, |s.claims|);
    }
  }

  /** Looking at his claims, a driver finds none of them open that has lapsed, and no other one changed. */
  lemma LookLapses(s: State, user: nat, now: int, id: nat)
    requires id < |s.claims|
    ensures var c, d := s.claims[id], Step(s, OnLook(user, now)).claims[id];
            var lapsed := c.user == user && (c.status == Created || c.status == Submitted) && now > c.expiresAt;
            d == if lapsed then c.(status := Expired, version := c.version + 1) else c
  {
  }

  // What the audit trail of a claim can look like, read for itself.

  /** What may come after an action. */
  function Successors(a: Action): set<Action>
  {
    match a
    case DidCreate => {DidSubmit, DidCancel}
    case DidSubmit => {DidApprove, DidReject, DidCancel}
    case DidResubmit => {DidApprove, DidReject, DidCancel}
    case DidReject => {DidResubmit, DidCancel}
    case DidApprove => {}
    case DidCancel => {}
  }

  function StatusAfter(a: Action): Status
  {
    match a
    case DidCreate => Created
    case DidSubmit => Submitted
    case DidResubmit => Submitted
    case DidCancel => Cancelled
    case DidApprove => Approved
    case DidReject => Rejected
  }

  predicate InOrder(trail: seq<Action>, i: nat)
  {
    i + 1 < |trail| ==> trail[i + 1] in Successors(trail[i])
  }

  ghost predicate IsPath(trail: seq<Action>)
  {
    trail != [] && trail[0] == DidCreate && forall i: nat :: InOrder(trail, i)
  }

  lemma TargetIs(a: Action, b: Action)
    ensures Target(StatusAfter(a), b).Some? <==> b in Successors(a)
    ensures b in Successors(a) ==> Target(StatusAfter(a), b) == Some(StatusAfter(b))
  {
  }

  lemma {:induction false} ReplayIsPath(trail: seq<Action>)
    ensures Replay(trail).Some? <==> IsPath(trail)
    ensures IsPath(trail) ==> Replay(trail) == Some(StatusAfter(trail[|trail| - 1]))
  {
    if |trail| > 1 {
      var n := |trail| - 1;
      ReplayIsPath(trail[..n]);
      TargetIs(trail[n - 1], trail[n]);
      PathOfLast(trail[..n], trail[n]);
      assert trail == trail[..n] + [trail[n]];
    }
  }

  lemma PathOfLast(init: seq<Action>, a: Action)
    requires init != []
    ensures IsPath(init + [a]) <==> IsPath(init) && a in Successors(init[|init| - 1])
  {
    var t, n := init + [a], |init|;
    forall i: nat ensures InOrder(t, i) <==> if i == n - 1 then a in Successors(init[n - 1]) else InOrder(init, i) {
    }
    if IsPath(init) {
      assert InOrder(init, n - 1);
    }
    if IsPath(t) {
      assert InOrder(t, n - 1);
    }
  }

  /** In every run a claim's trail goes from its creation along allowed steps to its present status, unless
      it lapsed after it was created or submitted. */
  lemma TrailIsPath(events: seq<Event>, id: nat)
    requires id < |Run(events).claims|
    ensures var s := Run(events); var trail := Trail(s.audits, id);
            && IsPath(trail)
            && (s.claims[id].status == Expired ==> StatusAfter(trail[|trail| - 1]) in {Created, Submitted})
            && (s.claims[id].status != Expired ==> s.claims[id].status == StatusAfter(trail[|trail| - 1]))
  {
    RunSound(events);
    var s := Run(events);
    assert RowOk(s, id);
    ReplayIsPath(Trail(s.audits, id));
  }

  lemma DriverAnswer(s: State, id: nat, user: nat, a: Action, now: int, last: Action)
    requires id < |s.claims| && (s.claims[id].status == StatusAfter(last) || s.claims[id].status == Expired) && IsDriverAction(a)
    ensures var c := s.claims[id];
            var lapsed := c.status == Expired || (StatusAfter(last) in {Created, Submitted} && c.expiresAt < now);
            DriverAct(s, user, id, a, now).1
            == if c.user != user then NotFound else if a in Successors(last) && !lapsed then Ok(id) else Conflict
  {
    TargetIs(last, a);
  }

  /** In every run the answers to an approval, a rejection and a driver's request go by the last action on the
      claim alone, and by whether it has lapsed. */
  lemma AnswersAre(events: seq<Event>, id: nat, granted: bool, user: nat, a: Action, now: int)
    requires id < |Run(events).claims|
    ensures var s := Run(events); var trail := Trail(s.audits, id);
            && IsPath(trail)
            && var c, last := s.claims[id], trail[|trail| - 1];
               && Approve(s, id, granted).1
                  == (if c.status == Expired then Conflict else if last == DidApprove then Ok(id)
                      else if DidApprove !in Successors(last) then Conflict else if granted then Ok(id) else GrantFailed)
               && Reject(s, id).1 == (if c.status != Expired && DidReject in Successors(last) then Ok(id) else Conflict)
               && (IsDriverAction(a) ==>
                    var lapsed := c.status == Expired || (StatusAfter(last) in {Created, Submitted} && c.expiresAt < now);
                    DriverAct(s, user, id, a, now).1
                    == if c.user != user then NotFound else if a in Successors(last) && !lapsed then Ok(id) else Conflict)
  {
    TrailIsPath(events, id);
    var s := Run(events);
    var trail := Trail(s.audits, id);
    var last := trail[|trail| - 1];
    RunSound(events);
    ApproveSound(s, id, granted);
    TargetIs(last, DidApprove);
    TargetIs(last, DidReject);
    if IsDriverAction(a) {
      DriverAnswer(s, id, user, a, now, last);
    }
  }

  /** And nobody can do anything with a claim that is not there. */
  lemma NoSuchClaim(s: State, id: nat, granted: bool, user: nat, a: Action, now: int)
    requires id >= |s.claims| && IsDriverAction(a)
    ensures Approve(s, id, granted) == (s, NotFound) && Reject(s, id) == (s, NotFound)
    ensures DriverAct(s, user, id, a, now) == (Step(s, OnLook(user, now)), NotFound)
  {
  }

  // ---------------------------------------------------------------- approvals that overlap

  /** The second half of an approval, from the grant on, for a claim that was read as `c`. Neither the
      grant nor the update looks at the row again. */
  function FinishApproval(s: State, id: nat, c: Claim): State
    requires id < |s.claims|
  {
    var g := GrantOf(id, c);
    Move(s.(grants := s.grants + [g]), id, DidApprove, Approved)
  }

  /** In one piece the two halves are `Approve`. */
  lemma ApproveIsItsHalves(s: State, id: nat)
    requires Sound(s) && id < |s.claims| && s.claims[id].status == Submitted
    ensures Approve(s, id, true).0 == FinishApproval(s, id, s.claims[id])
  {
    assert RowOk(s, id);
  }

  lemma UnsubmittedDoesNotExplain(trail: seq<Action>, c: Claim)
    requires Explains(trail, c) && c.status != Submitted
    ensures !Explains(trail + [DidApprove], c.(status := Approved, version := c.version + 1))
  {
    ReplayOfLast(trail, DidApprove);
  }

  /** If other requests get in between, finishing the approval leaves everything in order exactly if
      the claim is still submitted: otherwise it is granted a second time, or approved after it was
      rejected, cancelled or expired. */
  lemma LateApprovalIsSoundIff(s: State, id: nat, c: Claim)
    requires Sound(s) && id < |s.claims| && c.status == Submitted
    requires c == s.claims[id].(status := Submitted, version := c.version)
    ensures Sound(FinishApproval(s, id, c)) <==> s.claims[id].status == Submitted
    ensures s.claims[id].status == Approved ==> GrantsFor(FinishApproval(s, id, c).grants, id) == 2
  {
    assert RowOk(s, id);
    var t := FinishApproval(s, id, c);
    var g := GrantOf(id, c);
    GrantsOfLast(s.grants, g, id);
    if s.claims[id].status == Submitted {
      MoveSound(s, id, DidApprove, Some(g));
    } else {
      TrailOfLast(s.audits, Audit(id, DidApprove), id);
      UnsubmittedDoesNotExplain(Trail(s.audits, id), s.claims[id]);
      assert !RowOk(t, id);
    }
  }

  lemma FirstClaim(user: nat, input: Input, airtel: bool, now: int)
    requires Validate(input, airtel) == None
    ensures Create(EMPTY, user, input, airtel, now).0 == State([NewClaim(user, input, now)], [Audit(0, DidCreate)], [])
  {
  }

  lemma FirstSubmit(s: State, c: Claim, now: int)
    requires s.claims == [c] && c.status == Created && c.expiresAt >= now
    ensures DriverAct(s, c.user, 0, DidSubmit, now).0.claims == [c.(status := Submitted, version := c.version + 1)]
    ensures DriverAct(s, c.user, 0, DidSubmit, now).0.grants == s.grants
  {
    assert ExpireAll(s.claims, c.user, now) == s.claims;
  }

  lemma RunOfTwo(events: seq<Event>)
    requires |events| == 2
    ensures Run(events) == Step(Step(EMPTY, events[0]), events[1])
  {
    var init := events[..1];
    assert init[..0] == [];
    assert RunFrom(EMPTY, init) == Step(RunFrom(EMPTY, []), events[0]);
  }

  lemma SubmittedRun(user: nat, input: Input, airtel: bool, now: int, events: seq<Event>)
    requires Validate(input, airtel) == None && |events| == 2
    requires events[0] == OnCreate(user, input, airtel, now) && events[1] == OnDriver(user, 0, DidSubmit, now)
    ensures var s := Run(events);
            && |s.claims| == 1 && s.grants == []
            && s.claims[0] == NewClaim(user, input, now).(status := Submitted, version := 2)
  {
    RunOfTwo(events);
    FirstClaim(user, input, airtel, now);
    FirstSubmit(Step(EMPTY, events[0]), NewClaim(user, input, now), now);
  }

  /** A claim created and submitted, then two approvals that have both read it: two grants. */
  lemma TwoApprovalsGrantTwice(user: nat, input: Input, airtel: bool, now: int, events: seq<Event>)
    requires Validate(input, airtel) == None && |events| == 2
    requires events[0] == OnCreate(user, input, airtel, now) && events[1] == OnDriver(user, 0, DidSubmit, now)
    ensures var s := Run(events);
            |s.claims| == 1
            && GrantsFor(FinishApproval(FinishApproval(s, 0, s.claims[0]), 0, s.claims[0]).grants, 0) == 2
  {
    var s := Run(events);
    SubmittedRun(user, input, airtel, now, events);
    RunSound(events);
    ApproveIsItsHalves(s, 0);
    ApproveSound(s, 0, true);
    LateApprovalIsSoundIff(FinishApproval(s, 0, s.claims[0]), 0, s.claims[0]);
  }

  lemma WrongMoveDoesNotExplain(trail: seq<Action>, c: Claim, a: Action, to: Status)
    requires Explains(trail, c) && Target(c.status, a) == None && to != Expired
    ensures !Explains(trail + [a], c.(status := to, version := c.version + 1))
  {
    if c.status != Expired {
      ReplayOfLast(trail, a);
    }
  }

  /** The same goes for the driver's requests and for rejections: the update, for a claim that was read
      with status `from`, does not look again. It leaves everything in order exactly if the claim's status
      at the time of the update still allows the action. */
  lemma LateMoveIsSoundIff(s: State, id: nat, a: Action, from: Status)
    requires Sound(s) && id < |s.claims| && Target(from, a).Some? && a != DidApprove
    ensures Sound(Move(s, id, a, Target(from, a).value)) <==> Target(s.claims[id].status, a).Some?
  {
    assert RowOk(s, id);
    var t := Move(s, id, a, Target(from, a).value);
    if Target(s.claims[id].status, a).Some? {
      MoveSound(s, id, a, None);
    } else {
      TrailOfLast(s.audits, Audit(id, a), id);
      WrongMoveDoesNotExplain(Trail(s.audits, id), s.claims[id], a, Target(from, a).value);
      assert !RowOk(t, id);
    }
  }

  // ---------------------------------------------------------------- approvals that are killed

  /** A request, or an approval that ends after its grant and before its update. */
  datatype Happening = Whole(e: Event) | Killed(id: nat)

  /** The approval gets as far as its grant. */
  predicate Reaches(s: State, id: nat)
  {
    id < |s.claims| && s.claims[id].status == Submitted
    && (s.claims[id].custom ==> RidesFor(s.claims[id].vehicle, s.claims[id].amount).Some?)
  }

  function Happen(s: State, h: Happening): State
  {
    match h
    case Whole(e) => Step(s, e)
    case Killed(id) => if Reaches(s, id) then s.(grants := s.grants + [GrantOf(id, s.claims[id])]) else s
  }

  function RunAll(hs: seq<Happening>): State
  {
    if hs == [] then EMPTY else Happen(RunAll(hs[..|hs| - 1]), hs[|hs| - 1])
  }

  /** How often an approval of the claim was killed after its grant. */
  function Kills(hs: seq<Happening>, id: nat): nat
  {
    if hs == [] then 0
    else
      Kills(hs[..|hs| - 1], id)
      + if hs[|hs| - 1] == Killed(id) && Reaches(RunAll(hs[..|hs| - 1]), id) then 1 else 0
  }

  function WholeOnes(hs: seq<Happening>): seq<Event>
  {
    if hs == [] then []
    else WholeOnes(hs[..|hs| - 1]) + if hs[|hs| - 1].Whole? then [hs[|hs| - 1].e] else []
  }

  /** Requests do not look at the grants, and add the same ones whatever there is. */
  lemma StepAdds(s: State, t: State, e: Event) returns (more: seq<Grant>)
    requires s.claims == t.claims && s.audits == t.audits
    ensures |more| <= 1
    ensures Step(s, e) == Step(t, e).(grants := s.grants + more) && Step(t, e).grants == t.grants + more
  {
    more := [];
    match e
    case OnApprove(id, granted) =>
      if id < |s.claims| && Approve(s, id, granted).0 != s {
        more := [GrantOf(id, s.claims[id])];
      }
    case _ =>
  }

  lemma GrantsOfMore(grants: seq<Grant>, more: seq<Grant>, id: nat)
    requires |more| <= 1
    ensures GrantsFor(grants + more, id) == GrantsFor(grants, id) + GrantsFor(more, id)
  {
    if more == [] {
      assert grants + more == grants;
    } else {
      assert more == [] + [more[0]];
      GrantsOfLast(grants, more[0], id);
      GrantsOfLast([], more[0], id);
    }
  }

  /** The same but for the grants, of which the claim has so many more. */
  predicate Ahead(s: State, t: State, id: nat, extra: nat)
  {
    s.claims == t.claims && s.audits == t.audits && GrantsFor(s.grants, id) == GrantsFor(t.grants, id) + extra
  }

  lemma WholeAhead(s: State, t: State, e: Event, id: nat, extra: nat)
    requires Ahead(s, t, id, extra)
    ensures Ahead(Step(s, e), Step(t, e), id, extra)
  {
    var more := StepAdds(s, t, e);
    GrantsOfMore(s.grants, more, id);
    GrantsOfMore(t.grants, more, id);
  }

  lemma KilledAhead(s: State, t: State, k: nat, id: nat, extra: nat)
    requires Ahead(s, t, id, extra)
    ensures Ahead(Happen(s, Killed(k)), t, id, extra + if k == id && Reaches(s, k) then 1 else 0)
  {
    if Reaches(s, k) {
      GrantsOfLast(s.grants, GrantOf(k, s.claims[k]), id);
    }
  }

  lemma RunOfLast(es: seq<Event>, e: Event)
    ensures Run(es + [e]) == Step(Run(es), e)
  {
    assert (es + [e])[..|es|] == es;
  }

  ghost predicate Agree(hs: seq<Happening>, id: nat)
  {
    Ahead(RunAll(hs), Run(WholeOnes(hs)), id, Kills(hs, id))
  }

  lemma AgreeAfterWhole(init: seq<Happening>, e: Event, id: nat)
    requires Agree(init, id)
    ensures Agree(init + [Whole(e)], id)
  {
    var hs := init + [Whole(e)];
    assert hs[..|hs| - 1] == init;
    WholeAhead(RunAll(init), Run(WholeOnes(init)), e, id, Kills(init, id));
    RunOfLast(WholeOnes(init), e);
  }

  lemma AfterKill(init: seq<Happening>, k: nat, id: nat)
    ensures var hs := init + [Killed(k)];
            && RunAll(hs) == Happen(RunAll(init), Killed(k))
            && WholeOnes(hs) == WholeOnes(init)
            && Kills(hs, id) == Kills(init, id) + if k == id && Reaches(RunAll(init), k) then 1 else 0
  {
    var hs := init + [Killed(k)];
    assert hs[..|hs| - 1] == init;
    assert WholeOnes(init) + [] == WholeOnes(init);
  }

  lemma AgreeAfterKill(init: seq<Happening>, k: nat, id: nat)
    requires Agree(init, id)
    ensures Agree(init + [Killed(k)], id)
  {
    AfterKill(init, k, id);
    KilledAhead(RunAll(init), Run(WholeOnes(init)), k, id, Kills(init, id));
  }

  lemma {:induction false} WholeOnesAgree(hs: seq<Happening>, id: nat)
    ensures Agree(hs, id)
  {
    if hs != [] {
      var init, h := hs[..|hs| - 1], hs[|hs| - 1];
      assert hs == init + [h];
      WholeOnesAgree(init, id);
      if h.Whole? {
        AgreeAfterWhole(init, h.e, id);
      } else {
        AgreeAfterKill(init, h.id, id);
      }
    }
  }

  /** In every run with kills a claim has one grant if it is approved, and one more for every approval of it
      that was killed after its grant; so its grants are right exactly if there was none. */
  lemma KilledRun(hs: seq<Happening>, id: nat)
    requires id < |RunAll(hs).claims|
    ensures var s := RunAll(hs);
            && GrantsFor(s.grants, id) == Kills(hs, id) + (if s.claims[id].status == Approved then 1 else 0)
            && (GrantsFor(s.grants, id) == (if s.claims[id].status == Approved then 1 else 0) <==> Kills(hs, id) == 0)
  {
    WholeOnesAgree(hs, id);
    RunSound(WholeOnes(hs));
  }

  /** And a kill is possible whenever a claim is submitted: the next approval then grants a second time. */
  lemma KilledThenApproved(s: State, id: nat)
    requires Sound(s) && id < |s.claims| && s.claims[id].status == Submitted
    ensures var t := Happen(s, Killed(id));
            GrantsFor(t.grants, id) == 1 && Approve(t, id, true).1 == Ok(id) && GrantsFor(Approve(t, id, true).0.grants, id) == 2
  {
    assert RowOk(s, id);
    var g := GrantOf(id, s.claims[id]);
    GrantsOfLast(s.grants, g, id);
    GrantsOfLast(s.grants + [g], g, id);
  }

  // ---------------------------------------------------------------- how many rides were granted

  function RidesGranted(grants: seq<Grant>): int
  {
    if grants == [] then 0
    else
      var g := grants[|grants| - 1];
      RidesGranted(grants[..|grants| - 1]) + if g.rides.Some? then g.rides.value else 0
  }

  /** The rides an approved custom claim is worth. */
  function Worth(c: Claim): int
  {
    if c.custom && c.status == Approved && RidesFor(c.vehicle, c.amount).Some? then RidesFor(c.vehicle, c.amount).value else 0
  }

  function RidesOwed(claims: seq<Claim>): int
  {
    if claims == [] then 0 else RidesOwed(claims[..|claims| - 1]) + Worth(claims[|claims| - 1])
  }

  lemma {:induction false} OwedOfUpdate(claims: seq<Claim>, id: nat, c: Claim)
    requires id < |claims|
    ensures RidesOwed(claims[id := c]) == RidesOwed(claims) - Worth(claims[id]) + Worth(c)
  {
    var n := |claims| - 1;
    if id == n {
      assert claims[id := c][..n] == claims[..n];
    } else {
      OwedOfUpdate(claims[..n], id, c);
      assert claims[id := c][..n] == claims[..n][id := c];
    }
  }

  lemma {:induction false} ExpiryOwesNothing(claims: seq<Claim>, user: nat, now: int)
    ensures RidesOwed(ExpireAll(claims, user, now)) == RidesOwed(claims)
  {
    if claims != [] {
      var n := |claims| - 1;
      ExpiryOwesNothing(claims[..n], user, now);
      assert ExpireAll(claims, user, now)[..n] == ExpireAll(claims[..n], user, now);
    }
  }

  predicate Settled(s: State) { RidesGranted(s.grants) == RidesOwed(s.claims) }

  lemma MoveOwes(s: State, id: nat, a: Action, to: Status)
    requires id < |s.claims| && s.claims[id].status != Approved && to != Approved && Settled(s)
    ensures Settled(Move(s, id, a, to))
  {
    OwedOfUpdate(s.claims, id, Move(s, id, a, to).claims[id]);
  }

  lemma GrantedOfLast(grants: seq<Grant>, g: Grant)
    ensures RidesGranted(grants + [g]) == RidesGranted(grants) + if g.rides.Some? then g.rides.value else 0
  {
    assert (grants + [g])[..|grants|] == grants;
  }

  lemma ApproveOwes(s: State, id: nat, granted: bool)
    requires Settled(s)
    ensures Settled(Approve(s, id, granted).0)
  {
    var t := Approve(s, id, granted).0;
    if t != s {
      OwedOfUpdate(s.claims, id, t.claims[id]);
      GrantedOfLast(s.grants, GrantOf(id, s.claims[id]));
    }
  }

  lemma DriverMoveOwes(s: State, user: nat, id: nat, a: Action)
    requires Settled(s) && IsDriverAction(a)
    ensures Settled(DriverMove(s, user, id, a).0)
  {
    if id < |s.claims| && Target(s.claims[id].status, a).Some? {
      MoveOwes(s, id, a, Target(s.claims[id].status, a).value);
    }
  }

  lemma ExpireOwes(s: State, user: nat, now: int)
    requires Settled(s)
    ensures Settled(Expire(s, user, now))
  {
    ExpiryOwesNothing(s.claims, user, now);
  }

  lemma StepOwes(s: State, e: Event)
    requires Settled(s)
    ensures Settled(Step(s, e))
  {
    match e
    case OnCreate(user, input, airtel, now) =>
      assert Step(s, e) == s || Step(s, e).claims[..|s.claims|] == s.claims;
    case OnDriver(user, id, a, now) => 
      if IsDriverAction(a) {
        ExpireOwes(s, user, now);
        DriverMoveOwes(Expire(s, user, now), user, id, a);
      }
    case OnLook(user, now) => ExpireOwes(s, user, now);
    case OnApprove(id, granted) => ApproveOwes(s, id, granted);
    case OnReject(id) => if id < |s.claims| && s.claims[id].status == Submitted { MoveOwes(s, id, DidReject, Rejected); }
  }

  /** In every run the rides granted for custom claims are what the approved ones are worth:
      floor(amount / price) for each. */
  lemma {:induction false} GrantedIsOwed(events: seq<Event>)
    ensures RidesGranted(Run(events).grants) == RidesOwed(Run(events).claims)
  {
    if events != [] {
      GrantedIsOwed(events[..|events| - 1]);
      StepOwes(Run(events[..|events| - 1]), events[|events| - 1]);
    }
  }

  // ---------------------------------------------------------------- the service

  class Desk {
    var claims: seq<Claim>
    var audits: seq<Audit>
    var grants: seq<Grant>

    function Now(): State
      reads this
    {
      State(claims, audits, grants)
    }

    constructor ()
      ensures Now() == EMPTY
    {
      claims, audits, grants := [], [], [];
    }

    /** The insert gives way to the claim that has the key already; only a new claim gets an audit row. */
    method CreateClaim(user: nat, input: Input, airtelEnabled: bool, now: int) returns (r: Result)
      modifies this
      ensures (Now(), r) == Create(old(Now()), user, input, airtelEnabled, now)
    {
      var fault := Validate(input, airtelEnabled);
      if fault.Some? {
        return fault.value;
      }
      var existing := Find(claims, user, input.key);
      if existing.Some? {
        return Ok(existing.value);
      }
      var id := |claims|;
      claims := claims + [NewClaim(user, input, now)];
      audits := audits + [Audit(id, DidCreate)];
      return Ok(id);
    }

    method ExpireStale(user: nat, now: int)
      modifies this
      ensures Now() == Expire(old(Now()), user, now)
    {
      for i := 0 to |claims|
        invariant |claims| == |old(claims)| && audits == old(audits) && grants == old(grants)
        invariant forall k :: 0 <= k < |claims| ==>
          claims[k] == if k < i then ExpireOne(old(claims)[k], user, now) else old(claims)[k]
      {
        var c := claims[i];
        if c.user == user && (c.status == Created || c.status == Submitted) && c.expiresAt < now {
          claims := claims[i := c.(status := Expired, version := c.version + 1)];
        }
      }
      assert claims == ExpireAll(old(claims), user, now);
    }

    method UpdateStatus(id: nat, a: Action, to: Status)
      requires id < |claims|
      modifies this
      ensures Now() == Move(old(Now()), id, a, to)
    {
      claims := claims[id := claims[id].(status := to, version := claims[id].version + 1)];
      audits := audits + [Audit(id, a)];
    }

    method Transition(user: nat, id: nat, a: Action, now: int) returns (r: Result)
      requires IsDriverAction(a)
      modifies this
      ensures (Now(), r) == DriverAct(old(Now()), user, id, a, now)
    {
      ExpireStale(user, now);
      if id >= |claims| || claims[id].user != user {
        return NotFound;
      }
      var to := Target(claims[id].status, a);
      if to == None {
        return Conflict;
      }
      UpdateStatus(id, a, to.value);
      return Ok(id);
    }

    method ApproveClaim(id: nat, granted: bool) returns (r: Result)
      modifies this
      ensures (Now(), r) == Approve(old(Now()), id, granted)
    {
      if id >= |claims| {
        return NotFound;
      }
      var c := claims[id];
      if c.status == Approved {
        return Ok(id);
      }
      if c.status != Submitted {
        return Conflict;
      }
      var rides := None;
      if c.custom {
        rides := RidesFor(c.vehicle, c.amount);
        if rides == None {
          return InvalidCustomClaim;
        }
      }
      if !granted {
        return GrantFailed;
      }
      grants := grants + [Grant(id, c.user, rides)];
      UpdateStatus(id, DidApprove, Approved);
      return Ok(id);
    }

    method RejectClaim(id: nat) returns (r: Result)
      modifies this
      ensures (Now(), r) == Reject(old(Now()), id)
    {
      if id >= |claims| {
        return NotFound;
      }
      if claims[id].status != Submitted {
        return Conflict;
      }
      UpdateStatus(id, DidReject, Rejected);
      return Ok(id);
    }
  }
}
