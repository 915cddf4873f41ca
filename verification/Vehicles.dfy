/** A driver's vehicles (internal/driver/vehicles.go): one of them is active, and the profile's transport
    type, which matching goes by, is meant to be equal to its type. The profile is also written by
    applications (internal/driver/service.go) and by the admin console (internal/admin/drivers.go).

    Rows stand in the order of their creation. Codes, plates, licence numbers and the remaining columns are
    numbers, zero standing for an empty code or plate. */
module Vehicles {

  import opened Options

  datatype Vehicle = Vehicle(id: nat, driver: nat, kind: nat, plate: nat, details: int, active: bool)

  datatype Approval = PendingReview | Approved | Rejected | NeedsMoreInfo | Suspended

  datatype Profile = Profile(kind: nat, plate: nat, licence: nat, details: int, status: Approval)

  /** What a driver, or an admin for him, fills in. */
  datatype Form = Form(kind: nat, plate: nat, licence: nat, details: int)

  /** The columns the console writes: any of these, as given. */
  datatype Changes = Changes(kind: Option<nat>, plate: Option<nat>, licence: Option<nat>, details: Option<int>, status: Option<Approval>)

  const REJECTION := Changes(None, None, None, None, Some(Rejected))

  /** `busy` are the drivers with a ride in progress; `next` is the next row's id. */
  datatype State = State(rows: seq<Vehicle>, profiles: map<nat, Profile>, busy: set<nat>, next: nat)

  const EMPTY := State([], map[], {}, 0)

  datatype Result = Ok | NotFound | DuplicatePlate | LastVehicle | LockedOnRide | NotApproved | DuplicateCredentials | AlreadyApplied

  // ---------------------------------------------------------------- queries

  /** The driver's row with this id. */
  function Find(rows: seq<Vehicle>, d: nat, id: nat): (i: Option<nat>)
    ensures i.Some? ==> i.value < |rows| && rows[i.value].driver == d && rows[i.value].id == id
    ensures i == None ==> forall k :: 0 <= k < |rows| ==> !(rows[k].driver == d && rows[k].id == id)
  {
    if rows == [] then None
    else if rows[|rows| - 1].driver == d && rows[|rows| - 1].id == id then Some(|rows| - 1)
    else Find(rows[..|rows| - 1], d, id)
  }

  /** His oldest row. */
  function Oldest(rows: seq<Vehicle>, d: nat): (i: Option<nat>)
    ensures i.Some? ==> i.value < |rows| && rows[i.value].driver == d && forall k :: 0 <= k < i.value ==> rows[k].driver != d
    ensures i == None ==> forall k :: 0 <= k < |rows| ==> rows[k].driver != d
  {
    if rows == [] then None
    else
      var earlier := Oldest(rows[..|rows| - 1], d);
      if earlier.Some? then earlier else if rows[|rows| - 1].driver == d then Some(|rows| - 1) else None
  }

  function Count(rows: seq<Vehicle>, d: nat): (n: nat)
    ensures n == 0 <==> forall k :: 0 <= k < |rows| ==> rows[k].driver != d
  {
    if rows == [] then 0 else Count(rows[..|rows| - 1], d) + if rows[|rows| - 1].driver == d then 1 else 0
  }

  predicate PlateUsed(rows: seq<Vehicle>, plate: nat)
  {
    exists i :: 0 <= i < |rows| && rows[i].plate == plate
  }

  /** Plates of profiles are unique too: another profile has this one. */
  predicate PlateHeld(s: State, d: nat, plate: nat)
  {
    exists x :: x in s.profiles && x != d && s.profiles[x].plate == plate
  }

  /** And so are licence numbers. */
  predicate LicenceHeld(s: State, d: nat, licence: nat)
  {
    exists x :: x in s.profiles && x != d && s.profiles[x].licence == licence
  }

  predicate FormTaken(s: State, d: nat, f: Form)
  {
    PlateHeld(s, d, f.plate) || LicenceHeld(s, d, f.licence)
  }

  predicate ChangesTaken(s: State, d: nat, c: Changes)
  {
    (c.plate.Some? && PlateHeld(s, d, c.plate.value)) || (c.licence.Some? && LicenceHeld(s, d, c.licence.value))
  }

  // ---------------------------------------------------------------- updates

  /** All of the driver's rows inactive but the one picked. */
  function SetActive(rows: seq<Vehicle>, d: nat, pick: Option<nat>): (r: seq<Vehicle>)
    ensures |r| == |rows|
    ensures forall i :: 0 <= i < |rows| ==> r[i] == if rows[i].driver == d then rows[i].(active := pick == Some(rows[i].id)) else rows[i]
  {
    if rows == [] then []
    else
      var v := rows[|rows| - 1];
      SetActive(rows[..|rows| - 1], d, pick) + [if v.driver == d then v.(active := pick == Some(v.id)) else v]
  }

  /** `ActivateVehicle`: the flags and the profile in one transaction, which another profile with the
      same plate makes fail. */
  function Activate(s: State, d: nat, i: nat): (State, Result)
    requires i < |s.rows| && d in s.profiles
  {
    var v := s.rows[i];
    if PlateHeld(s, d, v.plate) then (s, DuplicatePlate)
    else
      (s.(rows := SetActive(s.rows, d, Some(v.id)),
          profiles := s.profiles[d := s.profiles[d].(kind := v.kind, plate := v.plate, details := v.details)]), Ok)
  }

  /** The repository's `CreateVehicle`: a row to be active clears the driver's other flags first, and
      they stay cleared if the plate turns out to be taken. */
  function Insert(s: State, d: nat, kind: nat, plate: nat, details: int, active: bool): (State, Result)
  {
    var t := if active then s.(rows := SetActive(s.rows, d, None)) else s;
    if PlateUsed(t.rows, plate) then (t, DuplicatePlate)
    else (t.(rows := t.rows + [Vehicle(t.next, d, kind, plate, details, active)], next := t.next + 1), Ok)
  }

  function ProfileOf(f: Form, status: Approval): Profile
  {
    Profile(f.kind, f.plate, f.licence, f.details, status)
  }

  function WithProfile(s: State, d: nat, p: Profile): State
  {
    s.(profiles := s.profiles[d := p])
  }

  /** An application makes the profile and mirrors it into the first row, letting a duplicate plate of a
      row pass. A rejected driver's next application overwrites the profile and no row. */
  function Apply(s: State, d: nat, f: Form): (State, Result)
  {
    if d in s.profiles && s.profiles[d].status != Rejected then (s, AlreadyApplied)
    else if FormTaken(s, d, f) then (s, DuplicateCredentials)
    else
      var t := WithProfile(s, d, ProfileOf(f, PendingReview));
      (if d in s.profiles then t else Insert(t, d, f.kind, f.plate, f.details, true).0, Ok)
  }

  /** A driver registered in the console is approved at once and gets no row. */
  function Register(s: State, d: nat, f: Form): (State, Result)
  {
    if d in s.profiles then (s, AlreadyApplied)
    else if FormTaken(s, d, f) then (s, DuplicateCredentials)
    else (WithProfile(s, d, ProfileOf(f, Approved)), Ok)
  }

  function Changed(p: Profile, c: Changes): Profile
  {
    Profile(if c.kind.Some? then c.kind.value else p.kind,
            if c.plate.Some? then c.plate.value else p.plate,
            if c.licence.Some? then c.licence.value else p.licence,
            if c.details.Some? then c.details.value else p.details,
            if c.status.Some? then c.status.value else p.status)
  }

  /** Reviews, suspensions and reinstatements write the status alone. */
  function Edit(s: State, d: nat, c: Changes): (State, Result)
  {
    if d !in s.profiles then (s, NotFound)
    else if ChangesTaken(s, d, c) then (s, DuplicateCredentials)
    else (WithProfile(s, d, Changed(s.profiles[d], c)), Ok)
  }

  function Create(s: State, d: nat, kind: nat, plate: nat, details: int): (State, Result)
  {
    if d !in s.profiles then (s, NotFound)
    else Insert(s, d, kind, plate, details, Count(s.rows, d) == 0)
  }

  /** Listing makes up for a missing first row from the profile, if it can. */
  function List(s: State, d: nat): State
  {
    if d !in s.profiles || Count(s.rows, d) > 0 || s.profiles[d].kind == 0 || s.profiles[d].plate == 0 then s
    else Insert(s, d, s.profiles[d].kind, s.profiles[d].plate, s.profiles[d].details, true).0
  }

  function Update(s: State, d: nat, id: nat, plate: Option<nat>, details: Option<int>): (State, Result)
  {
    var i := Find(s.rows, d, id);
    if d !in s.profiles || i == None then (s, NotFound)
    else
      var v := s.rows[i.value];
      if d in s.busy && v.active then (s, LockedOnRide)
      else if plate.Some? && plate.value != v.plate && PlateUsed(s.rows, plate.value) then (s, DuplicatePlate)
      else
        (s.(rows := s.rows[i.value := v.(plate := if plate.Some? then plate.value else v.plate,
                                         details := if details.Some? then details.value else v.details)]), Ok)
  }

  function Without(rows: seq<Vehicle>, i: nat): (r: seq<Vehicle>)
    requires i < |rows|
    ensures |r| == |rows| - 1
    ensures forall k :: 0 <= k < |r| ==> r[k] == if k < i then rows[k] else rows[k + 1]
  {
    rows[..i] + rows[i + 1..]
  }

  /** Row i goes. The oldest of the remaining vehicles takes over from an active one; whether its activation
      succeeds is not looked at. */
  function Remove(s: State, d: nat, i: nat): State
    requires i < |s.rows| && d in s.profiles
  {
    var t := s.(rows := Without(s.rows, i));
    var next := Oldest(t.rows, d);
    if s.rows[i].active && next.Some? then Activate(t, d, next.value).0 else t
  }

  function Delete(s: State, d: nat, id: nat): (State, Result)
  {
    var i := Find(s.rows, d, id);
    if d !in s.profiles || i == None then (s, NotFound)
    else if d in s.busy && s.rows[i.value].active then (s, LockedOnRide)
    else if Count(s.rows, d) <= 1 then (s, LastVehicle)
    else (Remove(s, d, i.value), Ok)
  }

  function Switch(s: State, d: nat, id: nat): (State, Result)
  {
    if d !in s.profiles then (s, NotFound)
    else if s.profiles[d].status != Approved then (s, NotApproved)
    else if d in s.busy then (s, LockedOnRide)
    else
      var i := Find(s.rows, d, id);
      if i == None then (s, NotFound) else Activate(s, d, i.value)
  }

  datatype Event =
    | OnApply(d: nat, form: Form)
    | OnRegister(d: nat, form: Form)
    | OnEdit(d: nat, changes: Changes)
    | OnCreate(d: nat, kind: nat, plate: nat, details: int)
    | OnList(d: nat)
    | OnUpdate(d: nat, id: nat, newPlate: Option<nat>, newDetails: Option<int>)
    | OnDelete(d: nat, id: nat)
    | OnSwitch(d: nat, id: nat)
    | RideBegins(d: nat)
    | RideEnds(d: nat)

  function Step(s: State, e: Event): State
  {
    match e
    case OnApply(d, f) => Apply(s, d, f).0
    case OnRegister(d, f) => Register(s, d, f).0
    case OnEdit(d, c) => Edit(s, d, c).0
    case OnCreate(d, kind, plate, details) => Create(s, d, kind, plate, details).0
    case OnList(d) => List(s, d)
    case OnUpdate(d, id, plate, details) => Update(s, d, id, plate, details).0
    case OnDelete(d, id) => Delete(s, d, id).0
    case OnSwitch(d, id) => Switch(s, d, id).0
    case RideBegins(d) => s.(busy := s.busy + {d})
    case RideEnds(d) => s.(busy := s.busy - {d})
  }

  function RunFrom(s: State, events: seq<Event>): State
  {
    if events == [] then s else Step(RunFrom(s, events[..|events| - 1]), events[|events| - 1])
  }

  // ---------------------------------------------------------------- at most one active vehicle

  predicate ActiveAt(rows: seq<Vehicle>, d: nat, i: nat)
  {
    i < |rows| && rows[i].driver == d && rows[i].active
  }

  ghost predicate OnlyActive(rows: seq<Vehicle>, d: nat, i: nat)
  {
    ActiveAt(rows, d, i) && forall k: nat :: ActiveAt(rows, d, k) ==> k == i
  }

  ghost predicate AtMostOneActive(rows: seq<Vehicle>)
  {
    forall i, j :: 0 <= i < j < |rows| && rows[i].driver == rows[j].driver && rows[i].active ==> !rows[j].active
  }

  ghost predicate UniqueIds(s: State)
  {
    && (forall i, j :: 0 <= i < j < |s.rows| ==> s.rows[i].id != s.rows[j].id)
    && (forall i :: 0 <= i < |s.rows| ==> s.rows[i].id < s.next)
  }

  ghost predicate UniquePlates(rows: seq<Vehicle>)
  {
    forall i, j :: 0 <= i < j < |rows| ==> rows[i].plate != rows[j].plate
  }

  ghost predicate UniqueCredentials(s: State)
  {
    && (forall x, y | x in s.profiles && y in s.profiles && s.profiles[x].plate == s.profiles[y].plate :: x == y)
    && (forall x, y | x in s.profiles && y in s.profiles && s.profiles[x].licence == s.profiles[y].licence :: x == y)
  }

  ghost predicate Sound(s: State)
  {
    && UniqueIds(s) && UniquePlates(s.rows) && AtMostOneActive(s.rows) && UniqueCredentials(s)
    && (forall i :: 0 <= i < |s.rows| ==> s.rows[i].driver in s.profiles)
  }

  lemma ClearingNone(rows: seq<Vehicle>, d: nat)
    requires Count(rows, d) == 0
    ensures SetActive(rows, d, None) == rows
  {
  }

  lemma AppendSound(s: State, v: Vehicle)
    requires Sound(s) && v.id == s.next && v.driver in s.profiles && !PlateUsed(s.rows, v.plate)
    requires v.active ==> Count(s.rows, v.driver) == 0
    ensures Sound(s.(rows := s.rows + [v], next := s.next + 1))
  {
  }

  /** A new row, active exactly when it is the driver's first. */
  lemma InsertSound(s: State, d: nat, kind: nat, plate: nat, details: int)
    requires Sound(s) && d in s.profiles
    ensures Sound(Insert(s, d, kind, plate, details, Count(s.rows, d) == 0).0)
  {
    var v := Vehicle(s.next, d, kind, plate, details, Count(s.rows, d) == 0);
    var t := Insert(s, d, kind, plate, details, Count(s.rows, d) == 0).0;
    if Count(s.rows, d) == 0 {
      ClearingNone(s.rows, d);
    }
    if PlateUsed(s.rows, plate) {
      assert t == s;
    } else {
      AppendSound(s, v);
      assert t == s.(rows := s.rows + [v], next := s.next + 1);
    }
  }

  lemma SetActivePicks(rows: seq<Vehicle>, d: nat, i: nat)
    requires forall j, k :: 0 <= j < k < |rows| ==> rows[j].id != rows[k].id
    requires i < |rows| && rows[i].driver == d
    ensures OnlyActive(SetActive(rows, d, Some(rows[i].id)), d, i)
  {
  }

  lemma SetActiveSound(rows: seq<Vehicle>, d: nat, id: nat)
    requires forall j, k :: 0 <= j < k < |rows| ==> rows[j].id != rows[k].id
    requires AtMostOneActive(rows) && UniquePlates(rows)
    ensures AtMostOneActive(SetActive(rows, d, Some(id))) && UniquePlates(SetActive(rows, d, Some(id)))
  {
  }

  lemma ActivateSound(s: State, d: nat, i: nat)
    requires Sound(s) && i < |s.rows| && s.rows[i].driver == d && d in s.profiles
    ensures Sound(Activate(s, d, i).0)
  {
    if !PlateHeld(s, d, s.rows[i].plate) {
      SetActiveSound(s.rows, d, s.rows[i].id);
    }
  }

  lemma {:induction false} CountAppends(a: seq<Vehicle>, b: seq<Vehicle>, d: nat)
    ensures Count(a + b, d) == Count(a, d) + Count(b, d)
  {
    if b == [] {
      assert a + b == a;
    } else {
      var n := |b| - 1;
      CountAppends(a, b[..n], d);
      assert (a + b)[..|a| + n] == a + b[..n];
    }
  }

  lemma CountWithout(rows: seq<Vehicle>, i: nat, d: nat)
    requires i < |rows|
    ensures Count(Without(rows, i), d) == Count(rows, d) - if rows[i].driver == d then 1 else 0
  {
    var v := rows[i];
    CountAppends(rows[..i], rows[i + 1..], d);
    CountAppends(rows[..i] + [v], rows[i + 1..], d);
    CountAppends(rows[..i], [v], d);
    assert rows == rows[..i] + [v] + rows[i + 1..];
    assert Count([v], d) == if v.driver == d then 1 else 0 by { assert [v][..0] == []; }
  }

  lemma WithoutUnique(rows: seq<Vehicle>, i: nat)
    requires UniquePlates(rows) && AtMostOneActive(rows) && i < |rows|
    ensures UniquePlates(Without(rows, i)) && AtMostOneActive(Without(rows, i))
  {
  }

  lemma WithoutIds(s: State, i: nat)
    requires UniqueIds(s) && i < |s.rows|
    ensures UniqueIds(s.(rows := Without(s.rows, i)))
  {
  }

  lemma WithoutSound(s: State, i: nat)
    requires Sound(s) && i < |s.rows|
    ensures Sound(s.(rows := Without(s.rows, i)))
  {
    WithoutUnique(s.rows, i);
    WithoutIds(s, i);
  }

  lemma RemoveSound(s: State, d: nat, i: nat)
    requires Sound(s) && i < |s.rows| && s.rows[i].driver == d && d in s.profiles
    ensures Sound(Remove(s, d, i))
  {
    var t := s.(rows := Without(s.rows, i));
    WithoutSound(s, i);
    var next := Oldest(t.rows, d);
    if s.rows[i].active && next.Some? {
      ActivateSound(t, d, next.value);
    }
  }

  lemma DeleteSound(s: State, d: nat, id: nat)
    requires Sound(s)
    ensures Sound(Delete(s, d, id).0)
  {
    if Delete(s, d, id).1 == Ok {
      RemoveSound(s, d, Find(s.rows, d, id).value);
    }
  }

  lemma ProfileSound(s: State, d: nat, p: Profile)
    requires Sound(s) && !PlateHeld(s, d, p.plate) && !LicenceHeld(s, d, p.licence)
    ensures Sound(WithProfile(s, d, p))
  {
  }

  lemma ApplySound(s: State, d: nat, f: Form)
    requires Sound(s)
    ensures Sound(Apply(s, d, f).0)
  {
    if Apply(s, d, f).1 == Ok {
      ProfileSound(s, d, ProfileOf(f, PendingReview));
      if d !in s.profiles {
        InsertSound(WithProfile(s, d, ProfileOf(f, PendingReview)), d, f.kind, f.plate, f.details);
      }
    }
  }

  lemma RegisterSound(s: State, d: nat, f: Form)
    requires Sound(s)
    ensures Sound(Register(s, d, f).0)
  {
    if Register(s, d, f).1 == Ok {
      ProfileSound(s, d, ProfileOf(f, Approved));
    }
  }

  lemma EditSound(s: State, d: nat, c: Changes)
    requires Sound(s)
    ensures Sound(Edit(s, d, c).0)
  {
    if Edit(s, d, c).1 == Ok {
      ProfileSound(s, d, Changed(s.profiles[d], c));
    }
  }

  lemma UpdateSound(s: State, d: nat, id: nat, plate: Option<nat>, details: Option<int>)
    requires Sound(s)
    ensures Sound(Update(s, d, id, plate, details).0)
  {
  }

  lemma StepSound(s: State, e: Event)
    requires Sound(s)
    ensures Sound(Step(s, e))
  {
    match e
    case OnApply(d, f) => ApplySound(s, d, f);
    case OnRegister(d, f) => RegisterSound(s, d, f);
    case OnEdit(d, c) => EditSound(s, d, c);
    case OnCreate(d, kind, plate, details) => if d in s.profiles { InsertSound(s, d, kind, plate, details); }
    case OnList(d) =>
      if d in s.profiles { InsertSound(s, d, s.profiles[d].kind, s.profiles[d].plate, s.profiles[d].details); }
    case OnUpdate(d, id, plate, details) => UpdateSound(s, d, id, plate, details);
    case OnDelete(d, id) => DeleteSound(s, d, id);
    case OnSwitch(d, id) => if d in s.profiles && Find(s.rows, d, id).Some? { ActivateSound(s, d, Find(s.rows, d, id).value); }
    case _ =>
  }

  /** In every run no driver has two active vehicles, and no id, plate or licence number is used twice. */
  lemma {:induction false} RunSound(events: seq<Event>)
    ensures Sound(RunFrom(EMPTY, events))
  {
    if events != [] {
      RunSound(events[..|events| - 1]);
      StepSound(RunFrom(EMPTY, events[..|events| - 1]), events[|events| - 1]);
    }
  }

  // ---------------------------------------------------------------- what a step does to one driver

  // What the driver's requests come to, told by the vehicles' ids.

  /** Some vehicle already has the plate. */
  predicate Plated(rows: seq<Vehicle>, plate: nat)
  {
    exists v <- rows :: v.plate == plate
  }

  predicate HasVehicle(rows: seq<Vehicle>, d: nat)
  {
    exists v <- rows :: v.driver == d
  }

  lemma PlateUsedIs(rows: seq<Vehicle>, plate: nat)
    ensures PlateUsed(rows, plate) <==> Plated(rows, plate)
  {
    if PlateUsed(rows, plate) {
      var i :| 0 <= i < |rows| && rows[i].plate == plate;
      assert rows[i] in rows;
    }
  }

  /** A row that goes in active takes the flags from the driver's others, even if it is turned away then. */
  lemma InsertClears(s: State, d: nat, kind: nat, plate: nat, details: int, active: bool)
    ensures var (t, r) := Insert(s, d, kind, plate, details, active); var n := |s.rows|;
            && r == (if Plated(s.rows, plate) then DuplicatePlate else Ok)
            && n <= |t.rows|
            && (forall i :: 0 <= i < n ==> t.rows[i] == if active && s.rows[i].driver == d then s.rows[i].(active := false) else s.rows[i])
            && t.rows[n..] == (if r == Ok then [Vehicle(s.next, d, kind, plate, details, active)] else [])
            && t.profiles == s.profiles && t.busy == s.busy
  {
    PlateUsedIs(s.rows, plate);
    var rows := if active then SetActive(s.rows, d, None) else s.rows;
    PlateUsedIs(rows, plate);
    assert Plated(rows, plate) <==> Plated(s.rows, plate) by {
      SamePlates(s.rows, rows, plate);
    }
  }

  lemma SamePlates(rows: seq<Vehicle>, t: seq<Vehicle>, plate: nat)
    requires |t| == |rows| && forall i :: 0 <= i < |rows| ==> t[i].plate == rows[i].plate
    ensures PlateUsed(t, plate) <==> PlateUsed(rows, plate)
    ensures Plated(t, plate) <==> Plated(rows, plate)
  {
    PlateUsedIs(rows, plate);
    PlateUsedIs(t, plate);
    if PlateUsed(rows, plate) {
      var i :| 0 <= i < |rows| && rows[i].plate == plate;
      assert t[i].plate == plate;
    }
    if PlateUsed(t, plate) {
      var i :| 0 <= i < |t| && t[i].plate == plate;
      assert rows[i].plate == plate;
    }
  }

  /** A vehicle is added as described unless its plate is taken, and is active if it is the driver's first;
      no other vehicle is touched. */
  lemma CreateIs(s: State, d: nat, kind: nat, plate: nat, details: int)
    ensures var (t, r) := Create(s, d, kind, plate, details);
            && r == (if d !in s.profiles then NotFound else if Plated(s.rows, plate) then DuplicatePlate else Ok)
            && t == if r == Ok
                    then s.(rows := s.rows + [Vehicle(s.next, d, kind, plate, details, !HasVehicle(s.rows, d))], next := s.next + 1)
                    else s
  {
    PlateUsedIs(s.rows, plate);
    if Count(s.rows, d) == 0 {
      ClearingNone(s.rows, d);
    }
  }

  /** Listing adds nothing but the vehicle of a profile that has a type and a plate, for a driver who has none
      and if the plate is free. */
  lemma ListIs(s: State, d: nat)
    ensures var t := List(s, d);
            var wanted := d in s.profiles && !HasVehicle(s.rows, d) && s.profiles[d].kind != 0 && s.profiles[d].plate != 0
                          && !Plated(s.rows, s.profiles[d].plate);
            t == if wanted
                 then s.(rows := s.rows + [Vehicle(s.next, d, s.profiles[d].kind, s.profiles[d].plate, s.profiles[d].details, true)],
                         next := s.next + 1)
                 else s
  {
    if d in s.profiles {
      PlateUsedIs(s.rows, s.profiles[d].plate);
    }
    if Count(s.rows, d) == 0 {
      ClearingNone(s.rows, d);
    }
  }

  /** The driver's vehicle with this id. */
  predicate Owned(s: State, d: nat, id: nat, v: Vehicle)
  {
    v in s.rows && v.driver == d && v.id == id
  }

  lemma FoundIs(s: State, d: nat, id: nat, v: Vehicle)
    requires UniqueIds(s) && Owned(s, d, id, v)
    ensures Find(s.rows, d, id).Some? && s.rows[Find(s.rows, d, id).value] == v
  {
    var k :| 0 <= k < |s.rows| && s.rows[k] == v;
  }

  lemma NotFoundIs(s: State, d: nat, id: nat)
    requires forall v :: !Owned(s, d, id, v)
    ensures Find(s.rows, d, id) == None
  {
    var i := Find(s.rows, d, id);
    if i.Some? {
      assert Owned(s, d, id, s.rows[i.value]);
    }
  }

  function Described(v: Vehicle, plate: Option<nat>, details: Option<int>): Vehicle
  {
    v.(plate := if plate.Some? then plate.value else v.plate, details := if details.Some? then details.value else v.details)
  }

  /** Plate and details of one's own vehicle can be changed, except of the active one on a ride and to the
      plate of another vehicle. */
  lemma UpdateIs(s: State, d: nat, id: nat, plate: Option<nat>, details: Option<int>, v: Vehicle, w: Vehicle)
    requires Sound(s) && Owned(s, d, id, v)
    ensures var (t, r) := Update(s, d, id, plate, details);
            && r == (if d in s.busy && v.active then LockedOnRide
                     else if plate.Some? && exists u <- s.rows :: u.id != id && u.plate == plate.value then DuplicatePlate else Ok)
            && t.profiles == s.profiles && t.busy == s.busy && t.next == s.next
            && (w in t.rows <==>
                  if r == Ok then
                    (w in s.rows && w.id != id) || w == Described(v, plate, details)
                  else w in s.rows)
  {
    FoundIs(s, d, id, v);
    var i := Find(s.rows, d, id).value;
    if plate.Some? {
      PlateUsedIs(s.rows, plate.value);
      OtherPlate(s, i, plate.value);
    }
    UpdatedRows(s, i, Described(v, plate, details), w);
  }

  lemma OtherPlate(s: State, i: nat, plate: nat)
    requires Sound(s) && i < |s.rows|
    ensures plate != s.rows[i].plate && Plated(s.rows, plate) <==> exists u <- s.rows :: u.id != s.rows[i].id && u.plate == plate
  {
    if u :| u in s.rows && u.id != s.rows[i].id && u.plate == plate {
      var k :| 0 <= k < |s.rows| && s.rows[k] == u;
      assert k != i;
    }
  }

  lemma UpdatedRows(s: State, i: nat, u: Vehicle, w: Vehicle)
    requires UniqueIds(s) && i < |s.rows| && u.id == s.rows[i].id
    ensures w in s.rows[i := u] <==> (w in s.rows && w.id != u.id) || w == u
  {
    var t := s.rows[i := u];
    if w in s.rows && w.id != u.id {
      var k :| 0 <= k < |s.rows| && s.rows[k] == w;
      assert t[k] == w;
    }
    assert t[i] == u;
    if w in t && w != u {
      var k :| 0 <= k < |t| && t[k] == w;
      assert s.rows[k] == w;
    }
  }

  /** The vehicle as it is after its driver has made the one with this id active. */
  function Activated(v: Vehicle, d: nat, id: nat): Vehicle
  {
    if v.driver == d then v.(active := v.id == id) else v
  }

  lemma ActivatedRows(rows: seq<Vehicle>, d: nat, id: nat, w: Vehicle)
    ensures w in SetActive(rows, d, Some(id)) <==> exists u <- rows :: w == Activated(u, d, id)
  {
    var t := SetActive(rows, d, Some(id));
    if w in t {
      var k :| 0 <= k < |t| && t[k] == w;
      assert rows[k] in rows && w == Activated(rows[k], d, id);
    }
    if u :| u in rows && w == Activated(u, d, id) {
      var k :| 0 <= k < |rows| && rows[k] == u;
      assert t[k] == w;
    }
  }

  /** The profile with the vehicle's columns. */
  function Showing(p: Profile, v: Vehicle): Profile
  {
    Profile(v.kind, v.plate, p.licence, v.details, p.status)
  }

  /** An approved driver who is not on a ride switches to a vehicle of his own, unless another profile has its
      plate: it is the active one of his, and the profile shows it. */
  lemma SwitchIs(s: State, d: nat, id: nat, v: Vehicle, w: Vehicle)
    requires UniqueIds(s) && Owned(s, d, id, v) && d in s.profiles
    ensures var (t, r) := Switch(s, d, id); var p := s.profiles[d];
            && r == (if p.status != Approved then NotApproved else if d in s.busy then LockedOnRide
                     else if exists x | x in s.profiles && x != d :: s.profiles[x].plate == v.plate then DuplicatePlate else Ok)
            && (r != Ok ==> t == s)
            && (r == Ok ==>
                  && (w in t.rows <==> exists u <- s.rows :: w == Activated(u, d, id))
                  && t.profiles == s.profiles[d := Showing(p, v)]
                  && t.busy == s.busy && t.next == s.next)
  {
    FoundIs(s, d, id, v);
    ActivatedRows(s.rows, d, id, w);
  }

  /** A vehicle of somebody else's is as good as none. */
  lemma NotHis(s: State, d: nat, id: nat, plate: Option<nat>, details: Option<int>)
    requires d !in s.profiles || forall v :: !Owned(s, d, id, v)
    ensures Update(s, d, id, plate, details) == (s, NotFound) && Delete(s, d, id) == (s, NotFound)
    ensures Switch(s, d, id).0 == s && Switch(s, d, id).1 in {NotFound, NotApproved, LockedOnRide}
  {
    if d in s.profiles {
      NotFoundIs(s, d, id);
    }
  }

  /** Rows stand in the order of their ids. */
  ghost predicate Ascending(rows: seq<Vehicle>)
  {
    forall i, j :: 0 <= i < j < |rows| ==> rows[i].id < rows[j].id
  }

  lemma SameIds(rows: seq<Vehicle>, t: seq<Vehicle>)
    requires Ascending(rows) && |t| == |rows| && forall i :: 0 <= i < |rows| ==> t[i].id == rows[i].id
    ensures Ascending(t)
  {
  }

  lemma InsertAscending(s: State, d: nat, kind: nat, plate: nat, details: int, active: bool)
    requires UniqueIds(s) && Ascending(s.rows)
    ensures Ascending(Insert(s, d, kind, plate, details, active).0.rows)
  {
    var rows := if active then SetActive(s.rows, d, None) else s.rows;
    SameIds(s.rows, rows);
    assert forall i | 0 <= i < |rows| :: rows[i].id == s.rows[i].id < s.next;
  }

  lemma RemoveAscending(s: State, d: nat, i: nat)
    requires i < |s.rows| && d in s.profiles && Ascending(s.rows)
    ensures Ascending(Remove(s, d, i).rows)
  {
    var rest := Without(s.rows, i);
    assert Ascending(rest);
    SameIds(rest, Remove(s, d, i).rows);
  }

  lemma OwnAscending(s: State, e: Event)
    requires UniqueIds(s) && Ascending(s.rows) && (e.OnUpdate? || e.OnDelete? || e.OnSwitch?)
    ensures Ascending(Step(s, e).rows)
  {
    if e.OnDelete? {
      if Delete(s, e.d, e.id).1 == Ok { RemoveAscending(s, e.d, Find(s.rows, e.d, e.id).value); }
    } else {
      SameIds(s.rows, Step(s, e).rows);
    }
  }

  lemma StepAscending(s: State, e: Event)
    requires UniqueIds(s) && Ascending(s.rows)
    ensures Ascending(Step(s, e).rows)
  {
    match e
    case OnApply(d, f) => InsertAscending(WithProfile(s, d, ProfileOf(f, PendingReview)), d, f.kind, f.plate, f.details, true);
    case OnCreate(d, kind, plate, details) => InsertAscending(s, d, kind, plate, details, Count(s.rows, d) == 0);
    case OnList(d) =>
      if d in s.profiles { InsertAscending(s, d, s.profiles[d].kind, s.profiles[d].plate, s.profiles[d].details, true); }
    case OnRegister(d, f) =>
    case OnEdit(d, c) =>
    case RideBegins(d) =>
    case RideEnds(d) =>
    case _ => OwnAscending(s, e);
  }

  lemma {:induction false} RunAscending(events: seq<Event>)
    ensures Ascending(RunFrom(EMPTY, events).rows)
  {
    if events != [] {
      var n := |events| - 1;
      RunAscending(events[..n]);
      RunSound(events[..n]);
      StepAscending(RunFrom(EMPTY, events[..n]), events[n]);
    }
  }

  /** The driver's oldest vehicle, the one with this id aside. */
  ghost predicate IsNext(s: State, d: nat, id: nat, o: Vehicle)
  {
    && o in s.rows && o.driver == d && o.id != id
    && forall u <- s.rows :: u.driver == d && u.id != id ==> o.id <= u.id
  }

  lemma WithoutRow(s: State, i: nat, w: Vehicle)
    requires UniqueIds(s) && i < |s.rows|
    ensures w in Without(s.rows, i) <==> w in s.rows && w.id != s.rows[i].id
  {
    var t := Without(s.rows, i);
    if w in s.rows && w.id != s.rows[i].id {
      var k :| 0 <= k < |s.rows| && s.rows[k] == w;
      assert t[if k < i then k else k - 1] == w;
    }
    if w in t {
      var k :| 0 <= k < |t| && t[k] == w;
      assert s.rows[if k < i then k else k + 1] == w;
    }
  }

  lemma OldestIsLeast(t: seq<Vehicle>, d: nat, k: nat)
    requires Ascending(t) && k < |t| && t[k].driver == d
    ensures Oldest(t, d).Some? && t[Oldest(t, d).value].driver == d && t[Oldest(t, d).value].id <= t[k].id
  {
  }

  lemma SameRow(s: State, v: Vehicle, w: Vehicle)
    requires UniqueIds(s) && v in s.rows && w in s.rows && v.id == w.id
    ensures v == w
  {
    var i :| 0 <= i < |s.rows| && s.rows[i] == v;
    var j :| 0 <= j < |s.rows| && s.rows[j] == w;
    assert !(i < j) && !(j < i);
  }

  lemma NextIsOldest(s: State, d: nat, i: nat, o: Vehicle)
    requires UniqueIds(s) && Ascending(s.rows) && i < |s.rows| && IsNext(s, d, s.rows[i].id, o)
    ensures var t := Without(s.rows, i); Oldest(t, d).Some? && t[Oldest(t, d).value] == o
  {
    var t := Without(s.rows, i);
    assert Ascending(t);
    WithoutRow(s, i, o);
    var k :| 0 <= k < |t| && t[k] == o;
    OldestIsLeast(t, d, k);
    var first := t[Oldest(t, d).value];
    WithoutRow(s, i, first);
    SameRow(s, first, o);
  }

  lemma DeleteAnswers(s: State, d: nat, id: nat, v: Vehicle, o: Vehicle)
    requires UniqueIds(s) && d in s.profiles && Owned(s, d, id, v) && IsNext(s, d, id, o)
    ensures Delete(s, d, id).1 == if d in s.busy && v.active then LockedOnRide else Ok
    ensures Delete(s, d, id).1 != Ok ==> Delete(s, d, id).0 == s
  {
    FoundIs(s, d, id, v);
    TwoOwned(s.rows, d, v, o);
  }

  lemma {:induction false} TwoOwned(rows: seq<Vehicle>, d: nat, v: Vehicle, o: Vehicle)
    requires v in rows && o in rows && v != o && v.driver == d && o.driver == d
    ensures Count(rows, d) >= 2
  {
    var n := |rows| - 1;
    assert rows == rows[..n] + [rows[n]];
    if rows[n] == v {
      assert o in rows[..n];
      var k :| 0 <= k < n && rows[..n][k] == o;
    } else if rows[n] == o {
      assert v in rows[..n];
      var k :| 0 <= k < n && rows[..n][k] == v;
    } else {
      TwoOwned(rows[..n], d, v, o);
    }
  }

  lemma RestActivated(s: State, d: nat, i: nat, o: Vehicle, w: Vehicle)
    requires UniqueIds(s) && i < |s.rows|
    ensures w in SetActive(Without(s.rows, i), d, Some(o.id)) <==>
            exists u <- s.rows :: u.id != s.rows[i].id && w == Activated(u, d, o.id)
  {
    var rest := Without(s.rows, i);
    ActivatedRows(rest, d, o.id, w);
    forall u ensures u in rest <==> u in s.rows && u.id != s.rows[i].id { WithoutRow(s, i, u); }
  }

  /** The oldest of the others is to take over, and no other profile has its plate. */
  predicate TakesOver(s: State, d: nat, v: Vehicle, o: Vehicle)
  {
    v.active && !exists x | x in s.profiles && x != d :: s.profiles[x].plate == o.plate
  }

  lemma ActivateIs(s: State, d: nat, i: nat)
    requires i < |s.rows| && d in s.profiles
    ensures var o, t := s.rows[i], Activate(s, d, i).0;
            t == if PlateHeld(s, d, o.plate) then s
                 else s.(rows := SetActive(s.rows, d, Some(o.id)), profiles := s.profiles[d := Showing(s.profiles[d], o)])
  {
  }

  lemma RemoveIs(s: State, d: nat, i: nat, o: Vehicle)
    requires UniqueIds(s) && Ascending(s.rows) && i < |s.rows| && d in s.profiles && IsNext(s, d, s.rows[i].id, o)
    ensures var rest := Without(s.rows, i);
            Remove(s, d, i) == if TakesOver(s, d, s.rows[i], o)
                               then s.(rows := SetActive(rest, d, Some(o.id)), profiles := s.profiles[d := Showing(s.profiles[d], o)])
                               else s.(rows := rest)
  {
    var t := s.(rows := Without(s.rows, i));
    NextIsOldest(s, d, i, o);
    ActivateIs(t, d, Oldest(t.rows, d).value);
    assert PlateHeld(t, d, o.plate) <==> exists x | x in s.profiles && x != d :: s.profiles[x].plate == o.plate;
  }

  lemma DeleteRemoves(s: State, d: nat, id: nat, v: Vehicle)
    requires UniqueIds(s) && Owned(s, d, id, v) && Delete(s, d, id).1 == Ok
    ensures d in s.profiles && Find(s.rows, d, id).Some? && s.rows[Find(s.rows, d, id).value] == v
    ensures Delete(s, d, id).0 == Remove(s, d, Find(s.rows, d, id).value)
  {
    FoundIs(s, d, id, v);
  }

  /** A driver's other vehicles stay when one is deleted. If it was the active one, the oldest of them takes
      over, in his profile too, unless another profile has its plate. */
  lemma DeleteIs(s: State, d: nat, id: nat, v: Vehicle, o: Vehicle, w: Vehicle)
    requires UniqueIds(s) && Ascending(s.rows) && Owned(s, d, id, v) && IsNext(s, d, id, o)
    requires Delete(s, d, id).1 == Ok
    ensures var t := Delete(s, d, id).0;
            && (w in t.rows <==> if TakesOver(s, d, v, o) then exists u <- s.rows :: u.id != id && w == Activated(u, d, o.id)
                                 else w in s.rows && w.id != id)
            && t.profiles == (if TakesOver(s, d, v, o) then s.profiles[d := Showing(s.profiles[d], o)] else s.profiles)
            && t.busy == s.busy && t.next == s.next
  {
    DeleteRemoves(s, d, id, v);
    var i := Find(s.rows, d, id).value;
    RemoveIs(s, d, i, o);
    RestActivated(s, d, i, o, w);
    WithoutRow(s, i, w);
  }

  /** But not his last one. */
  lemma LastStays(s: State, d: nat, id: nat, v: Vehicle)
    requires UniqueIds(s) && d in s.profiles && Owned(s, d, id, v) && forall u <- s.rows :: u.driver == d ==> u.id == id
    ensures Delete(s, d, id).0 == s && Delete(s, d, id).1 == if d in s.busy && v.active then LockedOnRide else LastVehicle
  {
    FoundIs(s, d, id, v);
    OnlyOne(s.rows, d, id);
  }

  lemma {:induction false} OnlyOne(rows: seq<Vehicle>, d: nat, id: nat)
    requires forall u <- rows :: u.driver == d ==> u.id == id
    requires forall i, j :: 0 <= i < j < |rows| ==> rows[i].id != rows[j].id
    ensures Count(rows, d) <= 1
  {
    if rows != [] {
      var n := |rows| - 1;
      assert rows[n] in rows && forall u | u in rows[..n] :: u in rows;
      OnlyOne(rows[..n], d, id);
      if rows[n].driver == d {
        assert forall k | 0 <= k < n :: rows[..n][k].driver != d;
      }
    }
  }

  /** Another driver's profile has the plate or the licence number. */
  predicate Elsewhere(s: State, d: nat, plate: Option<nat>, licence: Option<nat>)
  {
    exists x | x in s.profiles && x != d ::
      (plate.Some? && s.profiles[x].plate == plate.value) || (licence.Some? && s.profiles[x].licence == licence.value)
  }

  /** An application is taken from a driver who has no profile or a rejected one, with credentials of his own;
      it makes the profile anew, and for a new driver a first, active vehicle if no other has the plate. */
  lemma ApplyIs(s: State, d: nat, f: Form)
    requires Sound(s)
    ensures var (t, r) := Apply(s, d, f);
            && r == (if d in s.profiles && s.profiles[d].status != Rejected then AlreadyApplied
                     else if Elsewhere(s, d, Some(f.plate), Some(f.licence)) then DuplicateCredentials else Ok)
            && (r != Ok ==> t == s)
            && (r == Ok ==>
                  && t.profiles == s.profiles[d := Profile(f.kind, f.plate, f.licence, f.details, PendingReview)] && t.busy == s.busy
                  && t.rows == s.rows + if d !in s.profiles && !Plated(s.rows, f.plate)
                                        then [Vehicle(s.next, d, f.kind, f.plate, f.details, true)] else [])
  {
    PlateUsedIs(s.rows, f.plate);
    TakenIs(s, d, Some(f.plate), Some(f.licence));
    if d !in s.profiles {
      forall k | 0 <= k < |s.rows| ensures s.rows[k].driver != d { }
      ClearingNone(s.rows, d);
    }
  }

  lemma TakenIs(s: State, d: nat, plate: Option<nat>, licence: Option<nat>)
    ensures (plate.Some? && PlateHeld(s, d, plate.value)) || (licence.Some? && LicenceHeld(s, d, licence.value))
            <==> Elsewhere(s, d, plate, licence)
  {
  }

  /** A driver registered in the console has an approved profile and no vehicle; the console's edits write the
      columns given and leave the others. */
  lemma ConsoleIs(s: State, d: nat, f: Form, c: Changes)
    ensures var (t, r) := Register(s, d, f);
            && r == (if d in s.profiles then AlreadyApplied
                     else if Elsewhere(s, d, Some(f.plate), Some(f.licence)) then DuplicateCredentials else Ok)
            && t == if r == Ok then s.(profiles := s.profiles[d := Profile(f.kind, f.plate, f.licence, f.details, Approved)]) else s
    ensures var (t, r) := Edit(s, d, c);
            && r == (if d !in s.profiles then NotFound else if Elsewhere(s, d, c.plate, c.licence) then DuplicateCredentials else Ok)
            && (r != Ok ==> t == s)
            && (r == Ok ==>
                  && t.rows == s.rows && t.busy == s.busy && t.next == s.next && t.profiles.Keys == s.profiles.Keys
                  && (forall x | x in s.profiles && x != d :: t.profiles[x] == s.profiles[x])
                  && Written(s.profiles[d].kind, c.kind, t.profiles[d].kind)
                  && Written(s.profiles[d].plate, c.plate, t.profiles[d].plate)
                  && Written(s.profiles[d].licence, c.licence, t.profiles[d].licence)
                  && Written(s.profiles[d].details, c.details, t.profiles[d].details)
                  && Written(s.profiles[d].status, c.status, t.profiles[d].status))
  {
    TakenIs(s, d, Some(f.plate), Some(f.licence));
    TakenIs(s, d, c.plate, c.licence);
  }

  predicate Written<T(==)>(before: T, given: Option<T>, after: T)
  {
    if given == None then after == before else given == Some(after)
  }

  lemma SameDrivers(rows: seq<Vehicle>, t: seq<Vehicle>, d: nat)
    requires |rows| <= |t| && forall k :: 0 <= k < |rows| ==> t[k].driver == rows[k].driver
    ensures Count(rows, d) > 0 ==> Count(t, d) > 0
  {
  }

  lemma RemoveKeepsSome(s: State, x: nat, i: nat, d: nat)
    requires i < |s.rows| && s.rows[i].driver == x && x in s.profiles
    requires Count(s.rows, d) > if x == d then 1 else 0
    ensures Count(Remove(s, x, i).rows, d) > 0
  {
    CountWithout(s.rows, i, d);
    SameDrivers(Without(s.rows, i), Remove(s, x, i).rows, d);
  }

  lemma DeleteKeepsSome(s: State, x: nat, id: nat, d: nat)
    requires Count(s.rows, d) > 0
    ensures Count(Delete(s, x, id).0.rows, d) > 0
  {
    if Delete(s, x, id).1 == Ok {
      RemoveKeepsSome(s, x, Find(s.rows, x, id).value, d);
    }
  }

  lemma SwitchKeepsSome(s: State, x: nat, id: nat, d: nat)
    requires Count(s.rows, d) > 0
    ensures Count(Switch(s, x, id).0.rows, d) > 0
  {
    SameDrivers(s.rows, Switch(s, x, id).0.rows, d);
  }

  lemma InsertKeepsSome(s: State, x: nat, kind: nat, plate: nat, details: int, active: bool, d: nat)
    requires Count(s.rows, d) > 0
    ensures Count(Insert(s, x, kind, plate, details, active).0.rows, d) > 0
  {
    SameDrivers(s.rows, Insert(s, x, kind, plate, details, active).0.rows, d);
  }

  lemma ApplyKeepsSome(s: State, x: nat, f: Form, d: nat)
    requires Count(s.rows, d) > 0
    ensures Count(Apply(s, x, f).0.rows, d) > 0
  {
    if x !in s.profiles {
      InsertKeepsSome(WithProfile(s, x, ProfileOf(f, PendingReview)), x, f.kind, f.plate, f.details, true, d);
    }
  }

  lemma ListKeepsSome(s: State, x: nat, d: nat)
    requires Count(s.rows, d) > 0
    ensures Count(List(s, x).rows, d) > 0
  {
    if x in s.profiles {
      InsertKeepsSome(s, x, s.profiles[x].kind, s.profiles[x].plate, s.profiles[x].details, true, d);
    }
  }

  lemma UpdateKeepsSome(s: State, x: nat, id: nat, plate: Option<nat>, details: Option<int>, d: nat)
    requires Count(s.rows, d) > 0
    ensures Count(Update(s, x, id, plate, details).0.rows, d) > 0
  {
    SameDrivers(s.rows, Update(s, x, id, plate, details).0.rows, d);
  }

  lemma StepKeepsSome(s: State, e: Event, d: nat)
    requires Count(s.rows, d) > 0
    ensures Count(Step(s, e).rows, d) > 0
  {
    match e
    case OnDelete(x, id) => DeleteKeepsSome(s, x, id, d);
    case OnUpdate(x, id, plate, details) => UpdateKeepsSome(s, x, id, plate, details, d);
    case OnSwitch(x, id) => SwitchKeepsSome(s, x, id, d);
    case OnApply(x, f) => ApplyKeepsSome(s, x, f, d);
    case OnCreate(x, kind, plate, details) => InsertKeepsSome(s, x, kind, plate, details, Count(s.rows, x) == 0, d);
    case OnList(x) => ListKeepsSome(s, x, d);
    case _ =>
  }

  /** A driver who has a vehicle has one ever after. */
  lemma {:induction false} AlwaysAVehicle(s: State, events: seq<Event>, d: nat)
    requires Count(s.rows, d) > 0
    ensures Count(RunFrom(s, events).rows, d) > 0
  {
    if events != [] {
      AlwaysAVehicle(s, events[..|events| - 1], d);
      StepKeepsSome(RunFrom(s, events[..|events| - 1]), events[|events| - 1], d);
    }
  }

  // ---------------------------------------------------------------- at least one active vehicle

  ghost predicate HasActive(rows: seq<Vehicle>, d: nat)
  {
    exists i: nat :: ActiveAt(rows, d, i)
  }

  /** No vehicle, or one that is active. */
  ghost predicate Settled(rows: seq<Vehicle>, d: nat)
  {
    Count(rows, d) > 0 ==> HasActive(rows, d)
  }

  /** The active vehicle is deleted, and the one to take over has a plate that another driver's profile
      has, so that its activation fails. */
  predicate Orphans(s: State, e: Event, d: nat)
  {
    && e.OnDelete? && e.d == d && Delete(s, d, e.id).1 == Ok
    && LeavesNoneActive(s, d, Find(s.rows, d, e.id).value)
  }

  predicate LeavesNoneActive(s: State, d: nat, i: nat)
    requires i < |s.rows|
  {
    s.rows[i].active
    && var rest := Without(s.rows, i);
       var next := Oldest(rest, d);
       next.Some? && PlateHeld(s, d, rest[next.value].plate)
  }

  /** The driver's rows carry over with their flags. */
  lemma StaysSettled(rows: seq<Vehicle>, t: seq<Vehicle>, d: nat)
    requires Settled(rows, d) && |rows| <= |t|
    requires forall i :: 0 <= i < |rows| ==> t[i].driver == rows[i].driver && (rows[i].driver == d ==> t[i].active == rows[i].active)
    requires forall i :: |rows| <= i < |t| && t[i].driver == d ==> t[i].active || Count(rows, d) > 0
    ensures Settled(t, d)
  {
    if Count(rows, d) > 0 {
      var i: nat :| ActiveAt(rows, d, i);
      assert ActiveAt(t, d, i);
    } else if Count(t, d) > 0 {
      var i :| 0 <= i < |t| && t[i].driver == d;
      assert ActiveAt(t, d, i);
    }
  }

  lemma InsertSettled(s: State, x: nat, kind: nat, plate: nat, details: int, d: nat)
    requires Settled(s.rows, d)
    ensures Settled(Insert(s, x, kind, plate, details, Count(s.rows, x) == 0).0.rows, d)
  {
    if Count(s.rows, x) == 0 {
      ClearingNone(s.rows, x);
    }
    StaysSettled(s.rows, Insert(s, x, kind, plate, details, Count(s.rows, x) == 0).0.rows, d);
  }

  lemma ActivateSettled(s: State, x: nat, i: nat, d: nat)
    requires Sound(s) && i < |s.rows| && s.rows[i].driver == x && x in s.profiles
    requires x != d ==> Settled(s.rows, d)
    requires x == d && PlateHeld(s, x, s.rows[i].plate) ==> Settled(s.rows, d)
    ensures Settled(Activate(s, x, i).0.rows, d)
  {
    var t := Activate(s, x, i).0;
    if x == d {
      if !PlateHeld(s, x, s.rows[i].plate) {
        SetActivePicks(s.rows, d, i);
        assert ActiveAt(t.rows, d, i);
      }
    } else {
      StaysSettled(s.rows, t.rows, d);
    }
  }

  lemma ActiveMoves(rows: seq<Vehicle>, i: nat, d: nat, k: nat)
    requires i < |rows| && ActiveAt(rows, d, k) && k != i
    ensures HasActive(Without(rows, i), d)
  {
    assert ActiveAt(Without(rows, i), d, if k < i then k else k - 1);
  }

  lemma WithoutSettled(rows: seq<Vehicle>, i: nat, d: nat)
    requires Settled(rows, d) && i < |rows| && !(rows[i].driver == d && rows[i].active)
    ensures Settled(Without(rows, i), d)
  {
    CountWithout(rows, i, d);
    if Count(rows, d) > 0 {
      var k: nat :| ActiveAt(rows, d, k);
      ActiveMoves(rows, i, d, k);
    }
  }

  /** A row that is not the driver's active one goes, and another driver's oldest may take over. */
  lemma DeleteOtherSettled(s: State, x: nat, i: nat, d: nat)
    requires Sound(s) && Settled(s.rows, d) && i < |s.rows| && s.rows[i].driver == x && x in s.profiles
    requires !(x == d && s.rows[i].active)
    ensures var t := s.(rows := Without(s.rows, i));
            && Settled(t.rows, d)
            && forall k: nat :: k < |t.rows| && t.rows[k].driver == x && x != d ==> Settled(Activate(t, x, k).0.rows, d)
  {
    var t := s.(rows := Without(s.rows, i));
    WithoutSound(s, i);
    WithoutSettled(s.rows, i, d);
    forall k: nat | k < |t.rows| && t.rows[k].driver == x && x != d ensures Settled(Activate(t, x, k).0.rows, d) {
      ActivateSettled(t, x, k, d);
    }
  }

  /** His active row goes, and his oldest takes over if its plate lets it. */
  lemma DeleteActiveSettledIff(s: State, i: nat, k: nat, d: nat)
    requires Sound(s) && i < |s.rows| && ActiveAt(s.rows, d, i) && d in s.profiles
    requires k < |Without(s.rows, i)| && Without(s.rows, i)[k].driver == d
    ensures var t := s.(rows := Without(s.rows, i));
            Settled(Activate(t, d, k).0.rows, d) <==> !PlateHeld(s, d, t.rows[k].plate)
  {
    var t := s.(rows := Without(s.rows, i));
    WithoutSound(s, i);
    if PlateHeld(t, d, t.rows[k].plate) {
      NoneLeftActive(s, i);
    } else {
      ActivateSettled(t, d, k, d);
    }
  }

  lemma RemoveSettledIff(s: State, x: nat, i: nat, d: nat)
    requires Sound(s) && Settled(s.rows, d) && i < |s.rows| && s.rows[i].driver == x && x in s.profiles
    requires Count(s.rows, x) > 1
    ensures Settled(Remove(s, x, i).rows, d) <==> !(x == d && LeavesNoneActive(s, d, i))
  {
    CountWithout(s.rows, i, x);
    if x == d && s.rows[i].active {
      DeleteActiveSettledIff(s, i, Oldest(Without(s.rows, i), x).value, d);
    } else {
      DeleteOtherSettled(s, x, i, d);
    }
  }

  lemma DeleteSettledIff(s: State, x: nat, id: nat, d: nat)
    requires Sound(s) && Settled(s.rows, d)
    ensures Settled(Delete(s, x, id).0.rows, d) <==> !Orphans(s, OnDelete(x, id), d)
  {
    if Delete(s, x, id).1 == Ok {
      RemoveSettledIff(s, x, Find(s.rows, x, id).value, d);
    }
  }

  lemma NoneLeftActive(s: State, i: nat)
    requires Sound(s) && i < |s.rows| && s.rows[i].active
    ensures !HasActive(Without(s.rows, i), s.rows[i].driver)
  {
    var d, t := s.rows[i].driver, Without(s.rows, i);
    forall k: nat ensures !ActiveAt(t, d, k) {
      if k < |t| {
        assert t[k] == s.rows[if k < i then k else k + 1];
      }
    }
  }

  lemma SwitchSettled(s: State, x: nat, id: nat, d: nat)
    requires Sound(s) && Settled(s.rows, d)
    ensures Settled(Switch(s, x, id).0.rows, d)
  {
    if x in s.profiles && Find(s.rows, x, id).Some? {
      ActivateSettled(s, x, Find(s.rows, x, id).value, d);
    }
  }

  lemma ApplySettled(s: State, x: nat, f: Form, d: nat)
    requires Settled(s.rows, d)
    requires x !in s.profiles ==> Count(s.rows, x) == 0
    ensures Settled(Apply(s, x, f).0.rows, d)
  {
    if x !in s.profiles {
      InsertSettled(WithProfile(s, x, ProfileOf(f, PendingReview)), x, f.kind, f.plate, f.details, d);
    }
  }

  lemma ListSettled(s: State, x: nat, d: nat)
    requires Settled(s.rows, d)
    ensures Settled(List(s, x).rows, d)
  {
    if x in s.profiles {
      InsertSettled(s, x, s.profiles[x].kind, s.profiles[x].plate, s.profiles[x].details, d);
    }
  }

  lemma UpdateSettled(s: State, x: nat, id: nat, plate: Option<nat>, details: Option<int>, d: nat)
    requires Settled(s.rows, d)
    ensures Settled(Update(s, x, id, plate, details).0.rows, d)
  {
    StaysSettled(s.rows, Update(s, x, id, plate, details).0.rows, d);
  }

  lemma OthersSettled(s: State, e: Event, d: nat)
    requires Sound(s) && Settled(s.rows, d) && !e.OnDelete?
    ensures Settled(Step(s, e).rows, d)
  {
    match e
    case OnApply(x, f) => ApplySettled(s, x, f, d);
    case OnCreate(x, kind, plate, details) => InsertSettled(s, x, kind, plate, details, d);
    case OnList(x) => ListSettled(s, x, d);
    case OnUpdate(x, id, plate, details) => UpdateSettled(s, x, id, plate, details, d);
    case OnSwitch(x, id) => SwitchSettled(s, x, id, d);
    case _ =>
  }

  /** A driver who has vehicles keeps one active through every request but that one. */
  lemma SettledIff(s: State, e: Event, d: nat)
    requires Sound(s) && Settled(s.rows, d)
    ensures Settled(Step(s, e).rows, d) <==> !Orphans(s, e, d)
  {
    if e.OnDelete? {
      DeleteSettledIff(s, e.d, e.id, d);
    } else {
      OthersSettled(s, e, d);
    }
  }

  ghost predicate NeverOrphans(events: seq<Event>, d: nat)
  {
    forall k :: 0 <= k < |events| ==> !Orphans(RunFrom(EMPTY, events[..k]), events[k], d)
  }

  lemma {:induction false} RunSettled(events: seq<Event>, d: nat)
    requires NeverOrphans(events, d)
    ensures Settled(RunFrom(EMPTY, events).rows, d)
  {
    if events != [] {
      var n := |events| - 1;
      forall k | 0 <= k < n ensures !Orphans(RunFrom(EMPTY, events[..n][..k]), events[..n][k], d) {
        assert events[..n][..k] == events[..k];
      }
      RunSettled(events[..n], d);
      RunSound(events[..n]);
      SettledIff(RunFrom(EMPTY, events[..n]), events[n], d);
    }
  }

  /** So in every run in which it does not happen to him, a driver with vehicles has exactly one active. */
  lemma ExactlyOneActive(events: seq<Event>, d: nat)
    requires NeverOrphans(events, d) && Count(RunFrom(EMPTY, events).rows, d) > 0
    ensures exists i: nat :: OnlyActive(RunFrom(EMPTY, events).rows, d, i)
  {
    RunSettled(events, d);
    RunSound(events);
    var rows := RunFrom(EMPTY, events).rows;
    var i: nat :| ActiveAt(rows, d, i);
    assert OnlyActive(rows, d, i);
  }

  // ---------------------------------------------------------------- the active type is the profile's

  ghost predicate Mirrors(s: State, d: nat)
  {
    forall i: nat :: ActiveAt(s.rows, d, i) ==> d in s.profiles && s.rows[i].kind == s.profiles[d].kind
  }

  /** The type a request writes to an existing profile without touching a row: a rejected driver's new
      application, or the console. */
  function KindWritten(s: State, e: Event, d: nat): Option<nat>
  {
    match e
    case OnApply(x, f) =>
      if x == d && d in s.profiles && s.profiles[d].status == Rejected && !FormTaken(s, d, f) then Some(f.kind) else None
    case OnEdit(x, c) =>
      if x == d && d in s.profiles && !ChangesTaken(s, d, c) then c.kind else None
    case _ => None
  }

  /** What makes the types differ: the first vehicle is created with a type that is not the profile's, the
      new row being active and the profile not told; or the profile's type is overwritten with one that
      is not the active vehicle's. */
  ghost predicate Departs(s: State, e: Event, d: nat)
  {
    || (e.OnCreate? && e.d == d && d in s.profiles && Count(s.rows, d) == 0 && !PlateUsed(s.rows, e.plate) && e.kind != s.profiles[d].kind)
    || (KindWritten(s, e, d).Some? && exists i: nat :: ActiveAt(s.rows, d, i) && s.rows[i].kind != KindWritten(s, e, d).value)
  }

  lemma InsertMirrors(s: State, x: nat, kind: nat, plate: nat, details: int, d: nat)
    requires Mirrors(s, d) && (x == d && Count(s.rows, x) == 0 ==> d in s.profiles && kind == s.profiles[d].kind)
    ensures Mirrors(Insert(s, x, kind, plate, details, Count(s.rows, x) == 0).0, d)
  {
    if Count(s.rows, x) == 0 {
      ClearingNone(s.rows, x);
    }
    var t := Insert(s, x, kind, plate, details, Count(s.rows, x) == 0).0;
    assert forall k: nat | k < |s.rows| :: t.rows[k] == s.rows[k];
    assert forall k: nat | ActiveAt(t.rows, d, k) && k < |s.rows| :: ActiveAt(s.rows, d, k);
  }

  lemma ActivateMirrors(s: State, x: nat, i: nat, d: nat)
    requires Sound(s) && i < |s.rows| && s.rows[i].driver == x && x in s.profiles
    requires Mirrors(s, d) || (x == d && !PlateHeld(s, x, s.rows[i].plate))
    ensures Mirrors(Activate(s, x, i).0, d)
  {
    var t := Activate(s, x, i).0;
    if !PlateHeld(s, x, s.rows[i].plate) {
      if x == d {
        SetActivePicks(s.rows, d, i);
      } else {
        assert forall k: nat | ActiveAt(t.rows, d, k) :: ActiveAt(s.rows, d, k) && t.rows[k] == s.rows[k];
      }
    }
  }

  lemma WithoutMirrors(s: State, i: nat, d: nat)
    requires i < |s.rows| && Mirrors(s, d)
    ensures Mirrors(s.(rows := Without(s.rows, i)), d)
  {
    var t := s.(rows := Without(s.rows, i));
    forall k: nat | ActiveAt(t.rows, d, k) ensures d in t.profiles && t.rows[k].kind == t.profiles[d].kind {
      assert ActiveAt(s.rows, d, if k < i then k else k + 1);
    }
  }

  lemma DeleteMirrors(s: State, x: nat, id: nat, d: nat)
    requires Sound(s) && Mirrors(s, d)
    ensures Mirrors(Delete(s, x, id).0, d)
  {
    if Delete(s, x, id).1 == Ok {
      var i := Find(s.rows, x, id).value;
      var t := s.(rows := Without(s.rows, i));
      WithoutSound(s, i);
      WithoutMirrors(s, i, d);
      var next := Oldest(t.rows, x);
      if s.rows[i].active && next.Some? {
        ActivateMirrors(t, x, next.value, d);
      }
    }
  }

  lemma UpdateMirrors(s: State, x: nat, id: nat, plate: Option<nat>, details: Option<int>, d: nat)
    requires Mirrors(s, d)
    ensures Mirrors(Update(s, x, id, plate, details).0, d)
  {
    var t := Update(s, x, id, plate, details).0;
    assert forall k: nat | ActiveAt(t.rows, d, k) :: ActiveAt(s.rows, d, k) && t.rows[k].kind == s.rows[k].kind;
  }

  lemma SwitchKeepsMirrors(s: State, x: nat, id: nat, d: nat)
    requires Sound(s) && Mirrors(s, d)
    ensures Mirrors(Switch(s, x, id).0, d)
  {
    if x in s.profiles && Find(s.rows, x, id).Some? {
      ActivateMirrors(s, x, Find(s.rows, x, id).value, d);
    }
  }

  lemma CreateMirrorsIff(s: State, x: nat, kind: nat, plate: nat, details: int, d: nat)
    requires Sound(s) && Mirrors(s, d)
    ensures Mirrors(Create(s, x, kind, plate, details).0, d) <==> !Departs(s, OnCreate(x, kind, plate, details), d)
  {
    if Count(s.rows, x) == 0 {
      ClearingNone(s.rows, x);
    }
    var t := Create(s, x, kind, plate, details).0;
    if Departs(s, OnCreate(x, kind, plate, details), d) {
      assert ActiveAt(t.rows, d, |s.rows|);
    } else if x in s.profiles && !PlateUsed(s.rows, plate) {
      InsertMirrors(s, x, kind, plate, details, d);
    }
  }

  lemma ProfileMirrorsIff(s: State, p: Profile, d: nat)
    requires Mirrors(s, d)
    ensures Mirrors(WithProfile(s, d, p), d) <==> !(exists i: nat :: ActiveAt(s.rows, d, i) && s.rows[i].kind != p.kind)
  {
  }

  lemma ApplyMirrorsIff(s: State, x: nat, f: Form, d: nat)
    requires Sound(s) && Mirrors(s, d)
    ensures Mirrors(Apply(s, x, f).0, d) <==> !Departs(s, OnApply(x, f), d)
  {
    if Apply(s, x, f).1 == Ok {
      var p := ProfileOf(f, PendingReview);
      if x in s.profiles {
        if x == d { ProfileMirrorsIff(s, p, d); }
      } else {
        assert Mirrors(WithProfile(s, x, p), d);
        InsertMirrors(WithProfile(s, x, p), x, f.kind, f.plate, f.details, d);
      }
    }
  }

  lemma EditMirrorsIff(s: State, x: nat, c: Changes, d: nat)
    requires Mirrors(s, d)
    ensures Mirrors(Edit(s, x, c).0, d) <==> !Departs(s, OnEdit(x, c), d)
  {
    if x == d && Edit(s, d, c).1 == Ok {
      ProfileMirrorsIff(s, Changed(s.profiles[d], c), d);
    }
  }

  /** Every request keeps the profile's transport type equal to the active vehicle's type, except those;
      and those make them differ. */
  lemma MirrorsIff(s: State, e: Event, d: nat)
    requires Sound(s) && Mirrors(s, d)
    ensures Mirrors(Step(s, e), d) <==> !Departs(s, e, d)
  {
    match e
    case OnApply(x, f) => ApplyMirrorsIff(s, x, f, d);
    case OnEdit(x, c) => EditMirrorsIff(s, x, c, d);
    case OnCreate(x, kind, plate, details) => CreateMirrorsIff(s, x, kind, plate, details, d);
    case OnList(x) =>
      if x in s.profiles && Count(s.rows, x) == 0 {
        InsertMirrors(s, x, s.profiles[x].kind, s.profiles[x].plate, s.profiles[x].details, d);
      }
    case OnUpdate(x, id, plate, details) => UpdateMirrors(s, x, id, plate, details, d);
    case OnDelete(x, id) => DeleteMirrors(s, x, id, d);
    case OnSwitch(x, id) => SwitchKeepsMirrors(s, x, id, d);
    case _ =>
  }

  ghost predicate NeverDeparts(events: seq<Event>, d: nat)
  {
    forall k :: 0 <= k < |events| ==> !Departs(RunFrom(EMPTY, events[..k]), events[k], d)
  }

  /** In every run without them the types agree. */
  lemma {:induction false} RunMirrors(events: seq<Event>, d: nat)
    requires NeverDeparts(events, d)
    ensures Mirrors(RunFrom(EMPTY, events), d)
  {
    if events != [] {
      var n := |events| - 1;
      forall k | 0 <= k < n ensures !Departs(RunFrom(EMPTY, events[..n][..k]), events[..n][k], d) {
        assert events[..n][..k] == events[..k];
      }
      RunMirrors(events[..n], d);
      RunSound(events[..n]);
      MirrorsIff(RunFrom(EMPTY, events[..n]), events[n], d);
    }
  }

  /** A switch puts it right. */
  lemma SwitchMirrors(s: State, d: nat, id: nat)
    requires Sound(s) && Switch(s, d, id).1 == Ok
    ensures Mirrors(Switch(s, d, id).0, d)
  {
    ActivateMirrors(s, d, Find(s.rows, d, id).value, d);
  }

  /** A run that leaves a driver with a vehicle and none active. The first has a vehicle with plate q
      beside his active one; the second applies with plate q, which no profile has yet; then the first
      deletes his active vehicle. */
  function OrphaningRun(d: nat, x: nat, p: nat, q: nat): seq<Event>
  {
    [OnApply(d, Form(1, p, p, 0)), OnCreate(d, 1, q, 0), OnApply(x, Form(1, q, q, 0)), OnDelete(d, 0)]
  }

  lemma FourEvents(s: State, events: seq<Event>)
    requires |events| == 4
    ensures RunFrom(s, events) == Step(Step(Step(Step(s, events[0]), events[1]), events[2]), events[3])
  {
    assert events[..3][..2] == events[..2] && events[..2][..1] == events[..1] && events[..1][..0] == [];
    assert RunFrom(s, events[..1]) == Step(RunFrom(s, []), events[0]);
    assert RunFrom(s, events[..2]) == Step(RunFrom(s, events[..1]), events[1]);
    assert RunFrom(s, events[..3]) == Step(RunFrom(s, events[..2]), events[2]);
  }

  lemma FirstApplication(d: nat, p: nat)
    ensures Step(EMPTY, OnApply(d, Form(1, p, p, 0)))
            == State([Vehicle(0, d, 1, p, 0, true)], map[d := Profile(1, p, p, 0, PendingReview)], {}, 1)
  {
    assert SetActive([], d, None) == [];
  }

  lemma SecondVehicle(d: nat, p: nat, q: nat)
    requires p != q
    ensures var s := State([Vehicle(0, d, 1, p, 0, true)], map[d := Profile(1, p, p, 0, PendingReview)], {}, 1);
            Step(s, OnCreate(d, 1, q, 0)) == s.(rows := [Vehicle(0, d, 1, p, 0, true), Vehicle(1, d, 1, q, 0, false)], next := 2)
  {
    var s := State([Vehicle(0, d, 1, p, 0, true)], map[d := Profile(1, p, p, 0, PendingReview)], {}, 1);
    assert Count(s.rows, d) > 0 by { assert s.rows[0].driver == d; }
  }

  lemma OtherApplication(s: State, d: nat, x: nat, p: nat, q: nat)
    requires d != x && p != q && s.profiles == map[d := Profile(1, p, p, 0, PendingReview)]
    requires s.rows == [Vehicle(0, d, 1, p, 0, true), Vehicle(1, d, 1, q, 0, false)]
    ensures Step(s, OnApply(x, Form(1, q, q, 0))) == s.(profiles := s.profiles[x := Profile(1, q, q, 0, PendingReview)])
  {
    var t := s.(profiles := s.profiles[x := Profile(1, q, q, 0, PendingReview)]);
    ClearingNone(t.rows, x);
    assert t.rows[1].plate == q;
  }

  lemma TwoRows(v: Vehicle, w: Vehicle)
    requires v.driver == w.driver && v.id != w.id
    ensures Find([v, w], v.driver, v.id) == Some(0) && Count([v, w], v.driver) == 2
    ensures Without([v, w], 0) == [w] && Oldest([w], v.driver) == Some(0)
  {
    assert [v, w][..1] == [v] && [v][..0] == [] && [w][..0] == [];
    assert Count([v], v.driver) == 1;
  }

  lemma OrphanedRemove(s: State, d: nat, x: nat, v: Vehicle, w: Vehicle)
    requires d != x && d in s.profiles && x in s.profiles && s.profiles[x].plate == w.plate
    requires s.rows == [v, w] && v.driver == w.driver == d && v.id != w.id
    ensures Remove(s, d, 0).rows == [w]
  {
    TwoRows(v, w);
    assert PlateHeld(s.(rows := [w]), d, w.plate);
  }

  lemma OrphanedDelete(s: State, d: nat, x: nat, v: Vehicle, w: Vehicle)
    requires d != x && d in s.profiles && x in s.profiles && s.profiles[x].plate == w.plate && s.busy == {}
    requires s.rows == [v, w] && v.driver == w.driver == d && v.id != w.id
    ensures Step(s, OnDelete(d, v.id)).rows == [w]
  {
    TwoRows(v, w);
    assert Delete(s, d, v.id) == (Remove(s, d, 0), Ok);
    OrphanedRemove(s, d, x, v, w);
  }

  lemma OrphaningHappens(d: nat, x: nat, p: nat, q: nat)
    requires d != x && p != q
    ensures RunFrom(EMPTY, OrphaningRun(d, x, p, q)).rows == [Vehicle(1, d, 1, q, 0, false)]
    ensures !Settled(RunFrom(EMPTY, OrphaningRun(d, x, p, q)).rows, d)
  {
    FourEvents(EMPTY, OrphaningRun(d, x, p, q));
    FirstApplication(d, p);
    SecondVehicle(d, p, q);
    var s := State([Vehicle(0, d, 1, p, 0, true), Vehicle(1, d, 1, q, 0, false)], map[d := Profile(1, p, p, 0, PendingReview)], {}, 2);
    OtherApplication(s, d, x, p, q);
    OrphanedDelete(s.(profiles := s.profiles[x := Profile(1, q, q, 0, PendingReview)]), d, x, s.rows[0], s.rows[1]);
    var rows := [Vehicle(1, d, 1, q, 0, false)];
    assert rows[0].driver == d;
    assert forall i: nat :: !ActiveAt(rows, d, i);
  }

  /** And one in which a driver who was rejected applies again with another type: his first row mirrors
      the profile, and then they differ. */
  lemma ResubmissionDeparts(d: nat, p: nat, kind: nat)
    requires kind != 1
    ensures var s := Step(Step(EMPTY, OnApply(d, Form(1, p, p, 0))), OnEdit(d, REJECTION));
            Mirrors(s, d) && !Mirrors(Step(s, OnApply(d, Form(kind, p, p, 0))), d)
  {
    FirstApplication(d, p);
    var s := Step(Step(EMPTY, OnApply(d, Form(1, p, p, 0))), OnEdit(d, REJECTION));
    assert s.profiles[d] == Profile(1, p, p, 0, Rejected);
    assert ActiveAt(Step(s, OnApply(d, Form(kind, p, p, 0))).rows, d, 0);
  }

  /** And one in which a driver registered in the console, who has a profile and no vehicle, creates his
      first with another type. */
  lemma RegistrationDeparts(d: nat, p: nat, kind: nat)
    requires kind != 1
    ensures var s := Step(EMPTY, OnRegister(d, Form(1, p, p, 0)));
            Count(s.rows, d) == 0 && Mirrors(s, d) && !Mirrors(Step(s, OnCreate(d, kind, p, 0)), d)
  {
    var s := Step(EMPTY, OnRegister(d, Form(1, p, p, 0)));
    assert s == State([], map[d := Profile(1, p, p, 0, Approved)], {}, 0);
    ClearingNone(s.rows, d);
    assert ActiveAt(Step(s, OnCreate(d, kind, p, 0)).rows, d, 0);
  }

  // ---------------------------------------------------------------- nothing changes during a ride

  predicate ActiveRow(s: State, d: nat, v: Vehicle)
  {
    v in s.rows && v.driver == d && v.active
  }

  predicate SameVehicle(p: Profile, q: Profile)
  {
    p.kind == q.kind && p.plate == q.plate && p.details == q.details
  }

  lemma InWithout(rows: seq<Vehicle>, i: nat, v: Vehicle)
    requires i < |rows| && v in rows && v != rows[i]
    ensures v in Without(rows, i)
  {
    var k :| 0 <= k < |rows| && rows[k] == v;
    assert Without(rows, i)[if k < i then k else k - 1] == v;
  }

  lemma OthersKeepRow(s: State, x: nat, i: nat, v: Vehicle)
    requires v in s.rows && v.driver != x && i < |s.rows| && x in s.profiles
    ensures v in Activate(s, x, i).0.rows
  {
    var k :| 0 <= k < |s.rows| && s.rows[k] == v;
    assert Activate(s, x, i).0.rows[k] == v;
  }

  lemma DeleteKeepsRow(s: State, x: nat, id: nat, d: nat, v: Vehicle)
    requires d in s.busy && ActiveRow(s, d, v)
    ensures ActiveRow(Delete(s, x, id).0, d, v)
    ensures d in s.profiles ==> d in Delete(s, x, id).0.profiles && SameVehicle(s.profiles[d], Delete(s, x, id).0.profiles[d])
  {
    if Delete(s, x, id).1 == Ok {
      var i := Find(s.rows, x, id).value;
      InWithout(s.rows, i, v);
      var t := s.(rows := Without(s.rows, i));
      var next := Oldest(t.rows, x);
      if s.rows[i].active && next.Some? {
        OthersKeepRow(t, x, next.value, v);
      }
    }
  }

  lemma UpdateKeepsRow(s: State, x: nat, id: nat, plate: Option<nat>, details: Option<int>, d: nat, v: Vehicle)
    requires d in s.busy && ActiveRow(s, d, v)
    ensures ActiveRow(Update(s, x, id, plate, details).0, d, v)
  {
    var k :| 0 <= k < |s.rows| && s.rows[k] == v;
    assert Update(s, x, id, plate, details).0.rows[k] == v;
  }

  lemma InsertKeepsRow(s: State, x: nat, kind: nat, plate: nat, details: int, v: Vehicle)
    requires v in s.rows
    ensures v in Insert(s, x, kind, plate, details, Count(s.rows, x) == 0).0.rows
  {
    if Count(s.rows, x) == 0 {
      ClearingNone(s.rows, x);
    }
  }

  lemma ApplyKeepsRow(s: State, x: nat, f: Form, v: Vehicle)
    requires Sound(s) && v in s.rows
    ensures v in Apply(s, x, f).0.rows
  {
    if x !in s.profiles && Apply(s, x, f).1 == Ok {
      InsertKeepsRow(WithProfile(s, x, ProfileOf(f, PendingReview)), x, f.kind, f.plate, f.details, v);
    }
  }

  /** The profile's vehicle columns are overwritten, by a rejected driver's new application or by the
      console, with something else than they hold. */
  predicate Rewrites(s: State, e: Event, d: nat)
    requires d in s.profiles
  {
    var p := s.profiles[d];
    match e
    case OnApply(x, f) =>
      x == d && p.status == Rejected && !FormTaken(s, d, f) && !SameVehicle(p, ProfileOf(f, PendingReview))
    case OnEdit(x, c) => x == d && !ChangesTaken(s, d, c) && !SameVehicle(p, Changed(p, c))
    case _ => false
  }

  lemma ProfileStepIff(s: State, e: Event, d: nat)
    requires d in s.busy && d in s.profiles && (e.OnApply? || e.OnEdit?)
    ensures d in Step(s, e).profiles
    ensures SameVehicle(s.profiles[d], Step(s, e).profiles[d]) <==> !Rewrites(s, e, d)
  {
  }

  lemma InsertKeepsProfiles(s: State, x: nat, kind: nat, plate: nat, details: int, active: bool)
    ensures Insert(s, x, kind, plate, details, active).0.profiles == s.profiles
  {
  }

  lemma ListKeepsRow(s: State, x: nat, v: Vehicle)
    requires v in s.rows
    ensures v in List(s, x).rows && List(s, x).profiles == s.profiles
  {
    if x in s.profiles {
      InsertKeepsRow(s, x, s.profiles[x].kind, s.profiles[x].plate, s.profiles[x].details, v);
    }
  }

  lemma SwitchKeepsRow(s: State, x: nat, id: nat, d: nat, v: Vehicle)
    requires d in s.busy && d in s.profiles && ActiveRow(s, d, v)
    ensures v in Switch(s, x, id).0.rows
    ensures d in Switch(s, x, id).0.profiles && Switch(s, x, id).0.profiles[d] == s.profiles[d]
  {
    if x in s.profiles && x !in s.busy && Find(s.rows, x, id).Some? {
      OthersKeepRow(s, x, Find(s.rows, x, id).value, v);
    }
  }

  lemma ProfileStepKeepsRow(s: State, e: Event, d: nat, v: Vehicle)
    requires Sound(s) && d in s.busy && d in s.profiles && ActiveRow(s, d, v) && (e.OnApply? || e.OnEdit?)
    ensures d in Step(s, e).busy && ActiveRow(Step(s, e), d, v)
  {
    if e.OnApply? {
      ApplyKeepsRow(s, e.d, e.form, v);
    }
  }

  lemma RowStepKeepsRow(s: State, e: Event, d: nat, v: Vehicle)
    requires d in s.busy && d in s.profiles && ActiveRow(s, d, v) && e != RideEnds(d) && !e.OnApply? && !e.OnEdit?
    ensures d in Step(s, e).busy && ActiveRow(Step(s, e), d, v)
    ensures d in Step(s, e).profiles && SameVehicle(s.profiles[d], Step(s, e).profiles[d])
  {
    match e
    case OnCreate(x, kind, plate, details) =>
      InsertKeepsRow(s, x, kind, plate, details, v);
      InsertKeepsProfiles(s, x, kind, plate, details, Count(s.rows, x) == 0);
    case OnList(x) => ListKeepsRow(s, x, v);
    case OnUpdate(x, id, plate, details) => UpdateKeepsRow(s, x, id, plate, details, d, v);
    case OnDelete(x, id) => DeleteKeepsRow(s, x, id, d, v);
    case OnSwitch(x, id) => SwitchKeepsRow(s, x, id, d, v);
    case _ =>
  }

  lemma StepKeepsRow(s: State, e: Event, d: nat, v: Vehicle)
    requires Sound(s) && d in s.busy && d in s.profiles && ActiveRow(s, d, v) && e != RideEnds(d)
    ensures d in Step(s, e).busy && d in Step(s, e).profiles && ActiveRow(Step(s, e), d, v)
    ensures SameVehicle(s.profiles[d], Step(s, e).profiles[d]) <==> !Rewrites(s, e, d)
  {
    if e.OnApply? || e.OnEdit? {
      ProfileStepKeepsRow(s, e, d, v);
      ProfileStepIff(s, e, d);
    } else {
      RowStepKeepsRow(s, e, d, v);
    }
  }

  /** The driver's last ride has begun and not ended. */
  predicate OnRide(events: seq<Event>, d: nat)
  {
    if events == [] then false
    else
      var e := events[|events| - 1];
      if e == RideBegins(d) then true else if e == RideEnds(d) then false else OnRide(events[..|events| - 1], d)
  }

  lemma {:induction false} OnRideIff(events: seq<Event>, d: nat)
    ensures d in RunFrom(EMPTY, events).busy <==> OnRide(events, d)
  {
    if events != [] {
      var n := |events| - 1;
      OnRideIff(events[..n], d);
      StepBusy(RunFrom(EMPTY, events[..n]), events[n], d);
    }
  }

  lemma StepBusy(s: State, e: Event, d: nat)
    ensures d in Step(s, e).busy <==> if e == RideBegins(d) then true else if e == RideEnds(d) then false else d in s.busy
  {
  }

  /** From the start of a ride to its end the driver's active vehicle does not change in any column,
      whatever is requested meanwhile. */
  lemma {:induction false} RideKeepsVehicle(s: State, events: seq<Event>, d: nat, v: Vehicle)
    requires Sound(s) && d in s.busy && d in s.profiles && ActiveRow(s, d, v) && RideEnds(d) !in events
    ensures var t := RunFrom(s, events); Sound(t) && d in t.busy && d in t.profiles && ActiveRow(t, d, v)
  {
    if events != [] {
      var n := |events| - 1;
      assert events[n] in events;
      RideKeepsVehicle(s, events[..n], d, v);
      StepKeepsRow(RunFrom(s, events[..n]), events[n], d, v);
      StepSound(RunFrom(s, events[..n]), events[n]);
    }
  }

  /** What his profile says of it changes in a step of the ride exactly if the step rewrites it. */
  lemma RideKeepsProfileIff(s: State, events: seq<Event>, e: Event, d: nat, v: Vehicle)
    requires Sound(s) && d in s.busy && d in s.profiles && ActiveRow(s, d, v) && RideEnds(d) !in events && e != RideEnds(d)
    ensures var t := RunFrom(s, events);
            d in t.profiles && d in Step(t, e).profiles
            && (SameVehicle(t.profiles[d], Step(t, e).profiles[d]) <==> !Rewrites(t, e, d))
  {
    RideKeepsVehicle(s, events, d, v);
    StepKeepsRow(RunFrom(s, events), e, d, v);
  }

  // ---------------------------------------------------------------- the service

  class Garage {
    var rows: seq<Vehicle>
    var profiles: map<nat, Profile>
    var busy: set<nat>
    var next: nat

    function Now(): State
      reads this
    {
      State(rows, profiles, busy, next)
    }

    constructor ()
      ensures Now() == EMPTY
    {
      rows, profiles, busy, next := [], map[], {}, 0;
    }

    method Deactivate(d: nat)
      modifies this`rows
      ensures |rows| == |old(rows)|
      ensures forall k :: 0 <= k < |rows| ==> rows[k] == if old(rows)[k].driver == d then old(rows)[k].(active := false) else old(rows)[k]
    {
      for i := 0 to |rows|
        invariant |rows| == |old(rows)|
        invariant forall k :: 0 <= k < |rows| ==>
          rows[k] == if k < i && old(rows)[k].driver == d then old(rows)[k].(active := false) else old(rows)[k]
      {
        if rows[i].driver == d {
          rows := rows[i := rows[i].(active := false)];
        }
      }
    }

    method InsertVehicle(d: nat, kind: nat, plate: nat, details: int, setActive: bool) returns (r: Result)
      modifies this
      ensures (Now(), r) == Insert(old(Now()), d, kind, plate, details, setActive)
    {
      if setActive {
        Deactivate(d);
        assert rows == SetActive(old(rows), d, None);
      }
      if PlateUsed(rows, plate) {
        return DuplicatePlate;
      }
      rows := rows + [Vehicle(next, d, kind, plate, details, setActive)];
      next := next + 1;
      return Ok;
    }

    method SubmitApplication(d: nat, f: Form) returns (r: Result)
      modifies this
      ensures (Now(), r) == Apply(old(Now()), d, f)
    {
      if d in profiles {
        if profiles[d].status != Rejected {
          return AlreadyApplied;
        }
        if PlateHeld(Now(), d, f.plate) || LicenceHeld(Now(), d, f.licence) {
          return DuplicateCredentials;
        }
        profiles := profiles[d := Profile(f.kind, f.plate, f.licence, f.details, PendingReview)];
        return Ok;
      }
      if PlateHeld(Now(), d, f.plate) || LicenceHeld(Now(), d, f.licence) {
        return DuplicateCredentials;
      }
      profiles := profiles[d := Profile(f.kind, f.plate, f.licence, f.details, PendingReview)];
      var _ := InsertVehicle(d, f.kind, f.plate, f.details, true);
      return Ok;
    }

    method CreateDriverFromAdmin(d: nat, f: Form) returns (r: Result)
      modifies this
      ensures (Now(), r) == Register(old(Now()), d, f)
    {
      if d in profiles {
        return AlreadyApplied;
      }
      if PlateHeld(Now(), d, f.plate) || LicenceHeld(Now(), d, f.licence) {
        return DuplicateCredentials;
      }
      profiles := profiles[d := Profile(f.kind, f.plate, f.licence, f.details, Approved)];
      return Ok;
    }

    method UpdateDriver(d: nat, c: Changes) returns (r: Result)
      modifies this
      ensures (Now(), r) == Edit(old(Now()), d, c)
    {
      if d !in profiles {
        return NotFound;
      }
      if c.plate.Some? && PlateHeld(Now(), d, c.plate.value) {
        return DuplicateCredentials;
      }
      if c.licence.Some? && LicenceHeld(Now(), d, c.licence.value) {
        return DuplicateCredentials;
      }
      var p := profiles[d];
      if c.kind.Some? {
        p := p.(kind := c.kind.value);
      }
      if c.plate.Some? {
        p := p.(plate := c.plate.value);
      }
      if c.licence.Some? {
        p := p.(licence := c.licence.value);
      }
      if c.details.Some? {
        p := p.(details := c.details.value);
      }
      if c.status.Some? {
        p := p.(status := c.status.value);
      }
      profiles := profiles[d := p];
      return Ok;
    }

    method CreateVehicle(d: nat, kind: nat, plate: nat, details: int) returns (r: Result)
      modifies this
      ensures (Now(), r) == Create(old(Now()), d, kind, plate, details)
    {
      if d !in profiles {
        return NotFound;
      }
      var setActive := Count(rows, d) == 0;
      r := InsertVehicle(d, kind, plate, details, setActive);
    }

    method ListVehicles(d: nat)
      modifies this
      ensures Now() == List(old(Now()), d)
    {
      if d in profiles && Count(rows, d) == 0 && profiles[d].kind != 0 && profiles[d].plate != 0 {
        var _ := InsertVehicle(d, profiles[d].kind, profiles[d].plate, profiles[d].details, true);
      }
    }

    method UpdateVehicle(d: nat, id: nat, plate: Option<nat>, details: Option<int>) returns (r: Result)
      modifies this
      ensures (Now(), r) == Update(old(Now()), d, id, plate, details)
    {
      var i := Find(rows, d, id);
      if d !in profiles || i == None {
        return NotFound;
      }
      var v := rows[i.value];
      if d in busy && v.active {
        return LockedOnRide;
      }
      if plate.Some? {
        if plate.value != v.plate && PlateUsed(rows, plate.value) {
          return DuplicatePlate;
        }
        v := v.(plate := plate.value);
      }
      if details.Some? {
        v := v.(details := details.value);
      }
      rows := rows[i.value := v];
      return Ok;
    }

    method ActivateRow(d: nat, i: nat) returns (r: Result)
      requires i < |rows| && rows[i].driver == d && d in profiles
      requires forall j, k :: 0 <= j < k < |rows| ==> rows[j].id != rows[k].id
      modifies this
      ensures (Now(), r) == Activate(old(Now()), d, i)
    {
      var v := rows[i];
      if PlateHeld(Now(), d, v.plate) {
        return DuplicatePlate;
      }
      Deactivate(d);
      rows := rows[i := rows[i].(active := true)];
      profiles := profiles[d := profiles[d].(kind := v.kind, plate := v.plate, details := v.details)];
      assert rows == SetActive(old(rows), d, Some(v.id));
      return Ok;
    }

    method DeleteVehicle(d: nat, id: nat) returns (r: Result)
      requires forall j, k :: 0 <= j < k < |rows| ==> rows[j].id != rows[k].id
      modifies this
      ensures (Now(), r) == Delete(old(Now()), d, id)
    {
      var i := Find(rows, d, id);
      if d !in profiles || i == None {
        return NotFound;
      }
      var v := rows[i.value];
      if d in busy && v.active {
        return LockedOnRide;
      }
      if Count(rows, d) <= 1 {
        return LastVehicle;
      }
      rows := Without(rows, i.value);
      if v.active {
        var oldest := Oldest(rows, d);
        if oldest.Some? {
          var _ := ActivateRow(d, oldest.value);
        }
      }
      return Ok;
    }

    method ActivateVehicle(d: nat, id: nat) returns (r: Result)
      requires forall j, k :: 0 <= j < k < |rows| ==> rows[j].id != rows[k].id
      modifies this
      ensures (Now(), r) == Switch(old(Now()), d, id)
    {
      if d !in profiles {
        return NotFound;
      }
      if profiles[d].status != Approved {
        return NotApproved;
      }
      if d in busy {
        return LockedOnRide;
      }
      var i := Find(rows, d, id);
      if i == None {
        return NotFound;
      }
      r := ActivateRow(d, i.value);
    }
  }
}
