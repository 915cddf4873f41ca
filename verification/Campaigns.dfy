/** Notification campaigns (internal/admin/notifications.go): created to be sent at once, kept as drafts,
    or scheduled; sent by an admin's "send now" or by any of several dispatcher replicas.

    Claiming a campaign, one UPDATE, and handing it to delivery are separate steps, and between them the
    process may die. A step that is not possible leaves the state alone. */
module Campaigns {

  import opened Options

  datatype Status = Draft | Scheduled | Sent

  datatype Campaign = Campaign(status: Status, scheduledAt: Option<int>, sentAt: Option<int>)

  /** Who claimed the campaign: the request that created it, a dispatcher, or "send now". */
  datatype Origin = Creation | Dispatcher | SendNow

  datatype Fate = Waiting | Delivered | Lost

  /** A claim a process holds in a local variable: made `at` a time, and what has become of it. */
  datatype Claim = Claim(id: nat, origin: Origin, process: nat, at: int, fate: Fate)

  /** `born` remembers every campaign as it was inserted; `delivered` what was handed to delivery. */
  datatype State = State(now: int, rows: map<nat, Campaign>, born: seq<Campaign>, claims: seq<Claim>, delivered: seq<nat>)

  const EMPTY := State(0, map[], [], [], [])

  const BATCH := 50

  datatype Result = Ok | InvalidInput | InvalidState | NotFound

  // ---------------------------------------------------------------- creation

  /** The row to insert: a schedule in the past means at once, a draft has no schedule. */
  function Inserted(wanted: Status, at: Option<int>, now: int): Option<Campaign>
  {
    match wanted
    case Sent => Some(Campaign(Sent, None, Some(now)))
    case Draft => Some(Campaign(Draft, None, None))
    case Scheduled =>
      if at == None then None
      else if at.value > now then Some(Campaign(Scheduled, at, None))
      else Some(Campaign(Sent, None, Some(now)))
  }

  function Create(s: State, process: nat, wanted: Status, at: Option<int>): (State, Result)
  {
    var row := Inserted(wanted, at, s.now);
    if row == None then (s, InvalidInput)
    else
      var id := |s.born|;
      var t := s.(rows := s.rows[id := row.value], born := s.born + [row.value]);
      (if row.value.status == Sent then t.(claims := s.claims + [Claim(id, Creation, process, s.now, Waiting)]) else t, Ok)
  }

  // ---------------------------------------------------------------- claims

  predicate Due(s: State, id: nat)
  {
    id in s.rows && s.rows[id].status == Scheduled && s.rows[id].scheduledAt.Some? && s.rows[id].scheduledAt.value <= s.now
  }

  function DueAt(s: State, id: nat): int
  {
    if Due(s, id) then s.rows[id].scheduledAt.value else 0
  }

  /** What the claiming query may pick while other transactions hold some rows locked: the oldest due
      rows that are free, fifty at most, and all of them if they are fewer. */
  ghost predicate Pickable(s: State, locked: set<nat>, picked: seq<nat>)
  {
    && |picked| <= BATCH
    && (forall id <- picked :: Due(s, id) && id !in locked)
    && (forall i, j :: 0 <= i < j < |picked| ==> picked[i] != picked[j] && DueAt(s, picked[i]) <= DueAt(s, picked[j]))
    && (forall id | id in s.rows && Due(s, id) && id !in locked && id !in picked ::
          |picked| == BATCH && DueAt(s, picked[BATCH - 1]) <= DueAt(s, id))
  }

  function ClaimOne(s: State, process: nat, id: nat): State
  {
    if !Due(s, id) then s
    else
      s.(rows := s.rows[id := s.rows[id].(status := Sent, sentAt := Some(s.now))],
         claims := s.claims + [Claim(id, Dispatcher, process, s.now, Waiting)])
  }

  function ClaimAll(s: State, process: nat, picked: seq<nat>): State
  {
    if picked == [] then s else ClaimOne(ClaimAll(s, process, picked[..|picked| - 1]), process, picked[|picked| - 1])
  }

  function SendCampaignNow(s: State, process: nat, id: nat): (State, Result)
  {
    if id !in s.rows then (s, NotFound)
    else if s.rows[id].status == Sent then (s, InvalidState)
    else
      (s.(rows := s.rows[id := Campaign(Sent, None, Some(s.now))],
          claims := s.claims + [Claim(id, SendNow, process, s.now, Waiting)]), Ok)
  }

  function Delete(s: State, id: nat): (State, Result)
  {
    if id !in s.rows then (s, NotFound) else (s.(rows := s.rows - {id}), Ok)
  }

  /** A process hands on what it holds. */
  function Deliver(s: State, k: nat): State
  {
    if k >= |s.claims| || s.claims[k].fate != Waiting then s
    else s.(claims := s.claims[k := s.claims[k].(fate := Delivered)], delivered := s.delivered + [s.claims[k].id])
  }

  function LoseAll(claims: seq<Claim>, process: nat): (r: seq<Claim>)
    ensures |r| == |claims|
    ensures forall k :: 0 <= k < |claims| ==>
      r[k] == if claims[k].process == process && claims[k].fate == Waiting then claims[k].(fate := Lost) else claims[k]
  {
    if claims == [] then []
    else
      var c := claims[|claims| - 1];
      LoseAll(claims[..|claims| - 1], process) + [if c.process == process && c.fate == Waiting then c.(fate := Lost) else c]
  }

  datatype Event =
    | Tick(d: nat)
    | OnCreate(process: nat, wanted: Status, at: Option<int>)
    | OnDispatch(process: nat, locked: set<nat>, picked: seq<nat>)
    | OnSendNow(process: nat, id: nat)
    | OnDelete(id: nat)
    | OnDeliver(k: nat)
    | Crash(process: nat)

  ghost function Step(s: State, e: Event): State
  {
    match e
    case Tick(d) => s.(now := s.now + d)
    case OnCreate(process, wanted, at) => Create(s, process, wanted, at).0
    case OnDispatch(process, locked, picked) => if Pickable(s, locked, picked) then ClaimAll(s, process, picked) else s
    case OnSendNow(process, id) => SendCampaignNow(s, process, id).0
    case OnDelete(id) => Delete(s, id).0
    case OnDeliver(k) => Deliver(s, k)
    case Crash(process) => s.(claims := LoseAll(s.claims, process))
  }

  ghost function Run(events: seq<Event>): State
  {
    if events == [] then EMPTY else Step(Run(events[..|events| - 1]), events[|events| - 1])
  }

  // ---------------------------------------------------------------- what a request comes to

  /** A campaign goes out at once if it is to, or if its time has come already; only then is it claimed. A
      later time is kept, a draft has none, and a schedule without a time is refused. */
  lemma CreateIs(s: State, process: nat, wanted: Status, at: Option<int>)
    ensures var (t, r) := Create(s, process, wanted, at); var id := |s.born|;
            var atOnce := wanted == Sent || (wanted == Scheduled && at.Some? && at.value <= s.now);
            && r == (if wanted == Scheduled && at == None then InvalidInput else Ok)
            && (r != Ok ==> t == s)
            && (r == Ok ==>
                  && t.born == s.born + [t.rows[id]] && t.rows == s.rows[id := t.rows[id]]
                  && t.rows[id] == Campaign(if atOnce then Sent else wanted, if wanted == Scheduled && !atOnce then at else None,
                                            if atOnce then Some(s.now) else None)
                  && t.claims == s.claims + (if atOnce then [Claim(id, Creation, process, s.now, Waiting)] else [])
                  && t.delivered == s.delivered && t.now == s.now)
  {
    var t := Create(s, process, wanted, at).0;
    assert s.claims + [] == s.claims;
  }

  /** "Send now" claims a campaign that has not been sent, and a deletion takes any away; no other campaign is
      touched. */
  lemma SendNowIs(s: State, process: nat, id: nat)
    ensures var (t, r) := SendCampaignNow(s, process, id);
            && r == (if id !in s.rows then NotFound else if s.rows[id].status == Sent then InvalidState else Ok)
            && (r != Ok ==> t == s)
            && (r == Ok ==>
                  && t.rows == s.rows[id := Campaign(Sent, None, Some(s.now))]
                  && t.claims == s.claims + [Claim(id, SendNow, process, s.now, Waiting)]
                  && t.born == s.born && t.delivered == s.delivered && t.now == s.now)
    ensures var (t, r) := Delete(s, id);
            && r == (if id in s.rows then Ok else NotFound) && t == s.(rows := t.rows)
            && id !in t.rows && (forall x | x != id :: x in t.rows <==> x in s.rows)
            && (forall x | x in t.rows :: t.rows[x] == s.rows[x])
  {
  }

  // ---------------------------------------------------------------- what every step keeps

  ghost predicate HasClaim(claims: seq<Claim>, id: nat)
  {
    exists k :: 0 <= k < |claims| && claims[k].id == id
  }

  /** A row has been sent exactly if it has a time of sending, and exactly if somebody claimed it; until
      then it is as it was inserted. */
  ghost predicate RowOk(s: State, id: nat)
  {
    id in s.rows ==>
      && id < |s.born|
      && (s.rows[id].status == Sent <==> s.rows[id].sentAt.Some?)
      && (s.rows[id].status == Sent <==> HasClaim(s.claims, id))
      && (s.rows[id].status != Sent ==> s.rows[id] == s.born[id])
  }

  /** A claim is of a campaign that its origin may claim. */
  predicate ClaimOk(s: State, c: Claim)
  {
    && c.id < |s.born|
    && match c.origin
       case Creation => s.born[c.id].status == Sent
       case Dispatcher => s.born[c.id].status == Scheduled && s.born[c.id].scheduledAt.Some? && s.born[c.id].scheduledAt.value <= c.at
       case SendNow => s.born[c.id].status != Sent
  }

  ghost predicate ClaimsOk(s: State)
  {
    && (forall k :: 0 <= k < |s.claims| ==> ClaimOk(s, s.claims[k]))
    && (forall j, k :: 0 <= j < k < |s.claims| ==> s.claims[j].id != s.claims[k].id)
  }

  predicate CarriedOut(claims: seq<Claim>, id: nat)
  {
    exists k :: 0 <= k < |claims| && claims[k].id == id && claims[k].fate == Delivered
  }

  /** What was delivered is what claims were carried out, each once. */
  ghost predicate DeliveredOk(claims: seq<Claim>, delivered: seq<nat>)
  {
    && (forall i, j :: 0 <= i < j < |delivered| ==> delivered[i] != delivered[j])
    && (forall id :: id in delivered <==> CarriedOut(claims, id))
  }

  ghost predicate Sound(s: State)
  {
    (forall id :: RowOk(s, id)) && ClaimsOk(s) && DeliveredOk(s.claims, s.delivered)
  }

  lemma DeliveredAfterClaim(claims: seq<Claim>, delivered: seq<nat>, c: Claim)
    requires DeliveredOk(claims, delivered) && c.fate == Waiting
    ensures DeliveredOk(claims + [c], delivered)
  {
    var t := claims + [c];
    forall id ensures CarriedOut(t, id) <==> CarriedOut(claims, id) {
      if CarriedOut(claims, id) {
        var k :| 0 <= k < |claims| && claims[k].id == id && claims[k].fate == Delivered;
        assert t[k] == claims[k];
      }
    }
  }

  /** A row that is not yet sent is sent, and the claim recorded. */
  lemma ClaimSound(s: State, id: nat, row: Campaign, c: Claim)
    requires Sound(s) && id in s.rows && s.rows[id].status != Sent
    requires row.status == Sent && row.sentAt.Some?
    requires c.id == id && c.fate == Waiting && ClaimOk(s, c)
    ensures Sound(s.(rows := s.rows[id := row], claims := s.claims + [c]))
  {
    var t := s.(rows := s.rows[id := row], claims := s.claims + [c]);
    assert RowOk(s, id);
    DeliveredAfterClaim(s.claims, s.delivered, c);
    forall x ensures RowOk(t, x) {
      assert RowOk(s, x);
      assert t.claims[|s.claims|].id == id;
      assert HasClaim(s.claims, x) ==> HasClaim(t.claims, x) by {
        if HasClaim(s.claims, x) {
          var k :| 0 <= k < |s.claims| && s.claims[k].id == x;
          assert t.claims[k].id == x;
        }
      }
    }
  }

  lemma NewRowOk(s: State, row: Campaign, x: nat)
    requires Sound(s) && row.status != Sent && row.sentAt == None
    ensures RowOk(s.(rows := s.rows[|s.born| := row], born := s.born + [row]), x)
  {
    assert RowOk(s, x);
    assert x == |s.born| ==> !HasClaim(s.claims, x) by {
      assert forall k | 0 <= k < |s.claims| :: ClaimOk(s, s.claims[k]);
    }
  }

  lemma CreateSound(s: State, process: nat, wanted: Status, at: Option<int>)
    requires Sound(s)
    ensures Sound(Create(s, process, wanted, at).0)
  {
    var row := Inserted(wanted, at, s.now);
    if row.Some? {
      var id := |s.born|;
      var t := Create(s, process, wanted, at).0;
      assert forall k | 0 <= k < |s.claims| :: ClaimOk(s, s.claims[k]);
      if row.value.status == Sent {
        DeliveredAfterClaim(s.claims, s.delivered, t.claims[|s.claims|]);
        forall x ensures RowOk(t, x) {
          assert RowOk(s, x);
          assert t.claims[|s.claims|].id == id;
          if x != id && HasClaim(s.claims, x) {
            var k :| 0 <= k < |s.claims| && s.claims[k].id == x;
            assert t.claims[k].id == x;
          }
        }
      } else {
        forall x ensures RowOk(t, x) {
          NewRowOk(s, row.value, x);
        }
      }
    }
  }

  lemma {:induction false} ClaimAllSound(s: State, process: nat, picked: seq<nat>)
    requires Sound(s)
    ensures Sound(ClaimAll(s, process, picked))
  {
    if picked != [] {
      var n := |picked| - 1;
      ClaimAllSound(s, process, picked[..n]);
      var t := ClaimAll(s, process, picked[..n]);
      var id := picked[n];
      if Due(t, id) {
        assert RowOk(t, id);
        ClaimSound(t, id, t.rows[id].(status := Sent, sentAt := Some(t.now)), Claim(id, Dispatcher, process, t.now, Waiting));
      }
    }
  }

  /** Fates may change, and nothing else about a claim. */
  predicate SameClaims(claims: seq<Claim>, t: seq<Claim>)
  {
    |claims| == |t| && forall k :: 0 <= k < |claims| ==> t[k] == claims[k].(fate := t[k].fate)
  }

  lemma FatesSound(s: State, t: State)
    requires Sound(s) && t == s.(claims := t.claims, delivered := t.delivered)
    requires SameClaims(s.claims, t.claims) && DeliveredOk(t.claims, t.delivered)
    ensures Sound(t)
  {
    assert forall k | 0 <= k < |s.claims| :: ClaimOk(s, s.claims[k]) && t.claims[k].id == s.claims[k].id && t.claims[k].origin == s.claims[k].origin;
    forall x ensures RowOk(t, x) {
      assert RowOk(s, x);
      assert HasClaim(s.claims, x) <==> HasClaim(t.claims, x) by {
        if HasClaim(s.claims, x) {
          var k :| 0 <= k < |s.claims| && s.claims[k].id == x;
          assert t.claims[k].id == x;
        }
      }
    }
  }

  lemma DeliverSound(s: State, k: nat)
    requires Sound(s)
    ensures Sound(Deliver(s, k))
  {
    if k < |s.claims| && s.claims[k].fate == Waiting {
      var t := Deliver(s, k);
      var done := s.claims[k].id;
      assert t.claims[k].id == done && t.claims[k].fate == Delivered;
      assert !CarriedOut(s.claims, done);
      forall id ensures CarriedOut(t.claims, id) <==> CarriedOut(s.claims, id) || id == done {
        if CarriedOut(s.claims, id) {
          var j :| 0 <= j < |s.claims| && s.claims[j].id == id && s.claims[j].fate == Delivered;
          assert t.claims[j] == s.claims[j];
        }
      }
      FatesSound(s, t);
    }
  }

  lemma CrashSound(s: State, process: nat)
    requires Sound(s)
    ensures Sound(s.(claims := LoseAll(s.claims, process)))
  {
    var t := s.(claims := LoseAll(s.claims, process));
    forall id ensures CarriedOut(t.claims, id) <==> CarriedOut(s.claims, id) {
      if CarriedOut(s.claims, id) {
        var j :| 0 <= j < |s.claims| && s.claims[j].id == id && s.claims[j].fate == Delivered;
        assert t.claims[j] == s.claims[j];
      }
    }
    FatesSound(s, t);
  }

  lemma SendNowSound(s: State, process: nat, id: nat)
    requires Sound(s)
    ensures Sound(SendCampaignNow(s, process, id).0)
  {
    assert RowOk(s, id);
    if id in s.rows && s.rows[id].status != Sent {
      ClaimSound(s, id, Campaign(Sent, None, Some(s.now)), Claim(id, SendNow, process, s.now, Waiting));
    }
  }

  lemma DeleteSound(s: State, id: nat)
    requires Sound(s)
    ensures Sound(Delete(s, id).0)
  {
    assert forall x :: RowOk(s, x) ==> RowOk(Delete(s, id).0, x);
  }

  lemma TickSound(s: State, d: nat)
    requires Sound(s)
    ensures Sound(s.(now := s.now + d))
  {
    var t := s.(now := s.now + d);
    assert forall x :: RowOk(s, x) ==> RowOk(t, x);
    assert forall k | 0 <= k < |s.claims| :: ClaimOk(s, s.claims[k]) && ClaimOk(t, t.claims[k]);
  }

  lemma StepSound(s: State, e: Event)
    requires Sound(s)
    ensures Sound(Step(s, e))
  {
    match e
    case Tick(d) => TickSound(s, d);
    case OnCreate(process, wanted, at) => CreateSound(s, process, wanted, at);
    case OnDispatch(process, locked, picked) => ClaimAllSound(s, process, picked);
    case OnSendNow(process, id) => SendNowSound(s, process, id);
    case OnDelete(id) => DeleteSound(s, id);
    case OnDeliver(k) => DeliverSound(s, k);
    case Crash(process) => CrashSound(s, process);
  }

  lemma {:induction false} RunSound(events: seq<Event>)
    ensures Sound(Run(events))
  {
    if events != [] {
      RunSound(events[..|events| - 1]);
      StepSound(Run(events[..|events| - 1]), events[|events| - 1]);
    }
  }

  // ---------------------------------------------------------------- the promises

  /** Under any interleaving of replicas, requests and deaths, no campaign is handed to delivery twice. */
  lemma DeliveredOnce(events: seq<Event>, i: nat, j: nat)
    requires i < |Run(events).delivered| && j < |Run(events).delivered|
    requires Run(events).delivered[i] == Run(events).delivered[j]
    ensures i == j
  {
    RunSound(events);
  }

  /** Every delivery comes from a claim its origin was entitled to: a campaign inserted as a draft is
      delivered only by "send now", one inserted as scheduled by "send now" or by a dispatcher, and by
      a dispatcher only after its time had come. */
  lemma DeliveredRightly(events: seq<Event>, id: nat)
    requires id in Run(events).delivered
    ensures exists c :: c in Run(events).claims && c.id == id && c.fate == Delivered && ClaimOk(Run(events), c)
  {
    RunSound(events);
    var s := Run(events);
    assert CarriedOut(s.claims, id);
    var k :| 0 <= k < |s.claims| && s.claims[k].id == id && s.claims[k].fate == Delivered;
    assert s.claims[k] in s.claims && ClaimOk(s, s.claims[k]);
  }

  /** Whoever claims a campaign that was inserted as a draft does so by "send now". */
  lemma DraftOnlyBySendNow(events: seq<Event>, k: nat)
    requires k < |Run(events).claims|
    ensures var s := Run(events);
            s.claims[k].id < |s.born| && (s.born[s.claims[k].id].status == Draft ==> s.claims[k].origin == SendNow)
  {
    RunSound(events);
    assert ClaimOk(Run(events), Run(events).claims[k]);
  }

  ghost predicate Pending(claims: seq<Claim>, id: nat, fate: Fate)
  {
    exists k :: 0 <= k < |claims| && claims[k].id == id && claims[k].fate == fate
  }

  /** A campaign is marked sent exactly if it has a time of sending, and exactly if it has been
      delivered, is about to be, or was lost with the process that had claimed it. */
  lemma SentIff(events: seq<Event>, id: nat)
    requires id in Run(events).rows
    ensures var s := Run(events);
            && (s.rows[id].status == Sent <==> s.rows[id].sentAt.Some?)
            && (s.rows[id].status == Sent <==> id in s.delivered || Pending(s.claims, id, Waiting) || Pending(s.claims, id, Lost))
  {
    RunSound(events);
    var s := Run(events);
    assert RowOk(s, id);
    assert HasClaim(s.claims, id) <==> CarriedOut(s.claims, id) || Pending(s.claims, id, Waiting) || Pending(s.claims, id, Lost) by {
      if HasClaim(s.claims, id) {
        var k :| 0 <= k < |s.claims| && s.claims[k].id == id;
        assert s.claims[k].fate == Delivered || s.claims[k].fate == Waiting || s.claims[k].fate == Lost;
      }
    }
  }

  predicate LostClaim(s: State, k: nat, id: nat)
  {
    k < |s.claims| && s.claims[k].id == id && s.claims[k].fate == Lost
  }

  lemma {:induction false} ClaimAllKeeps(s: State, process: nat, picked: seq<nat>)
    ensures s.claims <= ClaimAll(s, process, picked).claims
  {
    if picked != [] {
      ClaimAllKeeps(s, process, picked[..|picked| - 1]);
    }
  }

  lemma StepKeepsLost(s: State, e: Event, k: nat, id: nat)
    requires LostClaim(s, k, id)
    ensures LostClaim(Step(s, e), k, id)
  {
    if e.OnDispatch? {
      ClaimAllKeeps(s, e.process, e.picked);
    }
  }

  lemma {:induction false} LostStays(events: seq<Event>, i: nat, k: nat, id: nat)
    requires i <= |events| && LostClaim(Run(events[..i]), k, id)
    ensures LostClaim(Run(events), k, id)
    decreases |events|
  {
    if i == |events| {
      assert events[..i] == events;
    } else {
      var n := |events| - 1;
      assert events[..n][..i] == events[..i];
      LostStays(events[..n], i, k, id);
      StepKeepsLost(Run(events[..n]), events[n], k, id);
    }
  }

  /** What a process holds when it dies is never delivered, by nobody: it stays marked sent. */
  lemma LostForGood(events: seq<Event>, i: nat, k: nat)
    requires i < |events| && events[i].Crash? && k < |Run(events[..i]).claims|
    requires Run(events[..i]).claims[k].process == events[i].process && Run(events[..i]).claims[k].fate == Waiting
    ensures LostClaim(Run(events), k, Run(events[..i]).claims[k].id)
    ensures Run(events[..i]).claims[k].id !in Run(events).delivered
  {
    var id := Run(events[..i]).claims[k].id;
    assert events[..i + 1][..i] == events[..i];
    assert LostClaim(Run(events[..i + 1]), k, id);
    LostStays(events, i + 1, k, id);
    RunSound(events);
    assert !CarriedOut(Run(events).claims, id);
  }

  predicate NoneLost(claims: seq<Claim>)
  {
    forall c <- claims :: c.fate != Lost
  }

  lemma {:induction false} ClaimAllLosesNone(s: State, process: nat, picked: seq<nat>)
    requires NoneLost(s.claims)
    ensures NoneLost(ClaimAll(s, process, picked).claims)
  {
    if picked != [] {
      ClaimAllLosesNone(s, process, picked[..|picked| - 1]);
    }
  }

  lemma {:induction false} NoCrashNoLoss(events: seq<Event>)
    requires forall e <- events :: !e.Crash?
    ensures NoneLost(Run(events).claims)
  {
    if events != [] {
      var n := |events| - 1;
      assert events[n] in events;
      NoCrashNoLoss(events[..n]);
      if events[n].OnDispatch? {
        ClaimAllLosesNone(Run(events[..n]), events[n].process, events[n].picked);
      }
    }
  }

  /** Where no process dies and nothing is left waiting, sent means delivered, once. */
  lemma SentMeansDelivered(events: seq<Event>, id: nat)
    requires forall e <- events :: !e.Crash?
    requires id in Run(events).rows && !Pending(Run(events).claims, id, Waiting)
    ensures Run(events).rows[id].status == Sent <==> id in Run(events).delivered
  {
    SentIff(events, id);
    NoCrashNoLoss(events);
  }

  lemma {:induction false} ClaimAllTakes(s: State, process: nat, picked: seq<nat>)
    requires forall i, j :: 0 <= i < j < |picked| ==> picked[i] != picked[j]
    requires forall id <- picked :: Due(s, id)
    ensures var t := ClaimAll(s, process, picked);
            && t.now == s.now && t.rows.Keys == s.rows.Keys
            && (forall id | id in s.rows :: t.rows[id] == if id in picked then s.rows[id].(status := Sent, sentAt := Some(s.now)) else s.rows[id])
  {
    if picked != [] {
      var n := |picked| - 1;
      assert picked == picked[..n] + [picked[n]] && picked[n] in picked;
      ClaimAllTakes(s, process, picked[..n]);
      assert picked[n] !in picked[..n];
    }
  }

  function DueSet(s: State): set<nat>
  {
    set id | id in s.rows && Due(s, id)
  }

  function Elements(picked: seq<nat>): set<nat>
  {
    set id | id in picked
  }

  lemma {:induction false} ElementsCount(picked: seq<nat>)
    requires forall i, j :: 0 <= i < j < |picked| ==> picked[i] != picked[j]
    ensures |Elements(picked)| == |picked|
  {
    if picked != [] {
      var n := |picked| - 1;
      ElementsCount(picked[..n]);
      assert picked == picked[..n] + [picked[n]] && picked[n] !in picked[..n];
      assert Elements(picked) == Elements(picked[..n]) + {picked[n]};
    }
  }

  lemma PickedAreTaken(s: State, process: nat, picked: seq<nat>)
    requires Pickable(s, {}, picked)
    ensures DueSet(ClaimAll(s, process, picked)) == DueSet(s) - Elements(picked)
    ensures Elements(picked) <= DueSet(s)
  {
    ClaimAllTakes(s, process, picked);
    var t := ClaimAll(s, process, picked);
    forall id ensures id in DueSet(t) <==> id in DueSet(s) && id !in picked {
      assert id in t.rows <==> id in s.rows;
    }
  }

  lemma TakenCount(s: State, picked: seq<nat>)
    requires Pickable(s, {}, picked) && Elements(picked) <= DueSet(s)
    ensures |picked| == if |DueSet(s)| <= BATCH then |DueSet(s)| else BATCH
    ensures |DueSet(s) - Elements(picked)| == |DueSet(s)| - |picked|
  {
    ElementsCount(picked);
    assert DueSet(s) == Elements(picked) + (DueSet(s) - Elements(picked));
    if DueSet(s) - Elements(picked) != {} {
      var id :| id in DueSet(s) - Elements(picked);
      assert id !in picked;
    }
  }

  /** A dispatcher that finds no row locked takes fifty of the due campaigns, or all if they are fewer, and
      those it leaves are due no earlier than those it takes. */
  lemma DispatchTakesTheOldest(s: State, process: nat, picked: seq<nat>)
    requires Pickable(s, {}, picked)
    ensures var t := ClaimAll(s, process, picked);
            && |DueSet(t)| == (if |DueSet(s)| <= BATCH then 0 else |DueSet(s)| - BATCH)
            && forall x, y | x in DueSet(s) && x !in DueSet(t) && y in DueSet(t) :: DueAt(s, x) <= DueAt(s, y)
  {
    PickedAreTaken(s, process, picked);
    TakenCount(s, picked);
    var t := ClaimAll(s, process, picked);
    forall x, y | x in DueSet(s) && x !in DueSet(t) && y in DueSet(t) ensures DueAt(s, x) <= DueAt(s, y) {
      assert x in picked && y in s.rows && y !in picked;
      var i :| 0 <= i < |picked| && picked[i] == x;
      assert DueAt(s, picked[i]) <= DueAt(s, picked[BATCH - 1]);
    }
  }

  lemma {:induction false} ClaimAllClaims(s: State, process: nat, picked: seq<nat>, id: nat)
    requires forall i, j :: 0 <= i < j < |picked| ==> picked[i] != picked[j]
    requires (forall x <- picked :: Due(s, x)) && id in picked
    ensures Claim(id, Dispatcher, process, s.now, Waiting) in ClaimAll(s, process, picked).claims
  {
    var n := |picked| - 1;
    assert picked == picked[..n] + [picked[n]] && picked[n] in picked;
    ClaimAllTakes(s, process, picked[..n]);
    assert picked[n] !in picked[..n];
    if id != picked[n] {
      ClaimAllClaims(s, process, picked[..n], id);
    }
  }

  lemma DueArePicked(s: State, picked: seq<nat>, id: nat)
    requires Pickable(s, {}, picked) && |DueSet(s)| <= BATCH && Due(s, id)
    ensures id in picked
  {
    assert Elements(picked) <= DueSet(s);
    TakenCount(s, picked);
    assert id in DueSet(s) && DueSet(s) - Elements(picked) == {};
    assert id in Elements(picked);
  }

  lemma DispatchedIs(s: State, process: nat, picked: seq<nat>, id: nat)
    requires Pickable(s, {}, picked) && id in s.rows
    ensures var t := Step(s, OnDispatch(process, {}, picked));
            && id in t.rows
            && t.rows[id] == (if id in picked then s.rows[id].(status := Sent, sentAt := Some(s.now)) else s.rows[id])
            && (id in picked ==> Claim(id, Dispatcher, process, s.now, Waiting) in t.claims)
  {
    ClaimAllTakes(s, process, picked);
    assert id in ClaimAll(s, process, picked).rows.Keys;
    if id in picked {
      ClaimAllClaims(s, process, picked, id);
    }
  }

  /** A scheduled campaign goes out with the first unhindered dispatch at or after its time, if no more than
      fifty are due, and never with one before it. */
  lemma GoesOutOnTime(s: State, id: nat, at: int, d: nat, process: nat, picked: seq<nat>)
    requires id in s.rows && s.rows[id].status == Scheduled && s.rows[id].scheduledAt == Some(at)
    requires Pickable(Step(s, Tick(d)), {}, picked) && |DueSet(Step(s, Tick(d)))| <= 50
    ensures var t := Step(Step(s, Tick(d)), OnDispatch(process, {}, picked));
            && id in t.rows
            && (at <= s.now + d ==> t.rows[id] == s.rows[id].(status := Sent, sentAt := Some(s.now + d))
                                    && Claim(id, Dispatcher, process, s.now + d, Waiting) in t.claims)
            && (at > s.now + d ==> t.rows[id] == s.rows[id])
  {
    var u := Step(s, Tick(d));
    DispatchedIs(u, process, picked, id);
    if at <= s.now + d {
      DueArePicked(u, picked, id);
    } else {
      assert !Due(u, id);
    }
  }

  /** Dispatchers one after the other, each finding no row locked. */
  ghost predicate InTurn(s: State, process: nat, picks: seq<seq<nat>>)
    decreases |picks|
  {
    picks != [] ==> Pickable(s, {}, picks[0]) && InTurn(ClaimAll(s, process, picks[0]), process, picks[1..])
  }

  function Dispatched(s: State, process: nat, picks: seq<seq<nat>>): State
    decreases |picks|
  {
    if picks == [] then s else Dispatched(ClaimAll(s, process, picks[0]), process, picks[1..])
  }

  /** After n of them none is due if and only if at most fifty times n were. */
  lemma {:induction false} DispatchTakesAllDue(s: State, process: nat, picks: seq<seq<nat>>)
    requires InTurn(s, process, picks)
    ensures var left := |DueSet(s)| - BATCH * |picks|;
            && |DueSet(Dispatched(s, process, picks))| == (if left <= 0 then 0 else left)
            && (DueSet(Dispatched(s, process, picks)) == {} <==> |DueSet(s)| <= BATCH * |picks|)
    decreases |picks|
  {
    if picks != [] {
      DispatchTakesTheOldest(s, process, picks[0]);
      DispatchTakesAllDue(ClaimAll(s, process, picks[0]), process, picks[1..]);
    }
  }

  // ---------------------------------------------------------------- the service

  class Board {
    var now: int
    var rows: map<nat, Campaign>
    var born: seq<Campaign>
    var claims: seq<Claim>
    var delivered: seq<nat>

    function Now(): State
      reads this
    {
      State(now, rows, born, claims, delivered)
    }

    constructor ()
      ensures Now() == EMPTY
    {
      now, rows, born, claims, delivered := 0, map[], [], [], [];
    }

    method CreateCampaign(process: nat, wanted: Status, at: Option<int>) returns (r: Result)
      modifies this
      ensures (Now(), r) == Create(old(Now()), process, wanted, at)
    {
      var status, scheduledAt := wanted, at;
      if status == Scheduled {
        if scheduledAt == None {
          return InvalidInput;
        }
        if scheduledAt.value <= now {
          status, scheduledAt := Sent, None;
        }
      } else {
        scheduledAt := None;
      }
      var sentAt := None;
      if status == Sent {
        sentAt := Some(now);
      }
      var id := |born|;
      rows := rows[id := Campaign(status, scheduledAt, sentAt)];
      born := born + [Campaign(status, scheduledAt, sentAt)];
      if status == Sent {
        claims := claims + [Claim(id, Creation, process, now, Waiting)];
      }
      return Ok;
    }

    /** The claiming UPDATE over the rows its query picked. */
    method ClaimDue(process: nat, ghost locked: set<nat>, picked: seq<nat>)
      requires Pickable(Now(), locked, picked)
      modifies this
      ensures Now() == ClaimAll(old(Now()), process, picked)
    {
      for i := 0 to |picked|
        invariant Now() == ClaimAll(old(Now()), process, picked[..i])
      {
        assert picked[..i + 1][..i] == picked[..i];
        var id := picked[i];
        if Due(Now(), id) {
          rows := rows[id := rows[id].(status := Sent, sentAt := Some(now))];
          claims := claims + [Claim(id, Dispatcher, process, now, Waiting)];
        }
      }
      assert picked[..|picked|] == picked;
    }

    method SendCampaign(process: nat, id: nat) returns (r: Result)
      modifies this
      ensures (Now(), r) == SendCampaignNow(old(Now()), process, id)
    {
      if id !in rows {
        return NotFound;
      }
      if rows[id].status != Draft && rows[id].status != Scheduled {
        return InvalidState;
      }
      rows := rows[id := Campaign(Sent, None, Some(now))];
      claims := claims + [Claim(id, SendNow, process, now, Waiting)];
      return Ok;
    }

    method DeleteCampaign(id: nat) returns (r: Result)
      modifies this
      ensures (Now(), r) == Delete(old(Now()), id)
    {
      if id !in rows {
        return NotFound;
      }
      rows := rows - {id};
      return Ok;
    }

    method DeliverClaim(k: nat)
      requires k < |claims| && claims[k].fate == Waiting
      modifies this
      ensures Now() == Deliver(old(Now()), k)
    {
      delivered := delivered + [claims[k].id];
      claims := claims[k := claims[k].(fate := Delivered)];
    }
  }
}
