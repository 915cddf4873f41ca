/** Posting package sales to the journal: live, in the transaction that settles a purchase or after an
    admin recorded one (internal/packages/purchase.go), and afterwards by the backfill command
    (cmd/ledger-backfill), of which any number of runs may be under way, be killed, and be started again.

    Outside a transaction the journal's insert of an entry and the inserts of its lines commit one by
    one, so a posting that is cut off can leave an entry without all of its lines. `Tear` and `TearLive`
    are these events. */
module Backfill {

  import opened Journal
  import opened Options
  import Finance

  datatype Status = Pending | Paid | Failed

  /** `Charged` waits for its payment. A `Promotional` purchase takes none, whatever its price, and is PAID
      from the start, as is one `Recorded` by an admin for a driver who paid by other means. */
  datatype Route = Charged | Promotional | Recorded

  /** `momo`: the provider is mtn, airtel or momo. `at` is when it was paid, or else created. */
  datatype Purchase = Purchase(id: string, price: int, momo: bool, at: int, route: Route, status: Status)

  const CASH_MOMO: Code := 1000
  const CASH_MANUAL: Code := 1010

  function SaleKey(id: string): string
  {
    "purchase_paid:" + id
  }

  function SaleLines(p: Purchase): seq<Line>
  {
    [Line(if p.momo then CASH_MOMO else CASH_MANUAL, p.price, 0), Line(Finance.PACKAGE_REVENUE, 0, p.price)]
  }

  function SaleEntry(p: Purchase): Entry
  {
    Entry(p.at, SaleKey(p.id), SaleLines(p))
  }

  predicate Due(p: Purchase)
  {
    p.status == Paid && p.price > 0
  }

  /** What the command's query returns. */
  function Sales(purchases: seq<Purchase>): (r: seq<Purchase>)
  {
    if purchases == [] then []
    else
      var p := purchases[|purchases| - 1];
      Sales(purchases[..|purchases| - 1]) + if Due(p) then [p] else []
  }

  /** `runs` holds, for every backfill under way, the sales it has still to post. */
  datatype State = State(purchases: seq<Purchase>, entries: seq<Entry>, runs: map<nat, seq<Purchase>>)

  const EMPTY := State([], [], map[])

  /** `Settle` is one transaction, which posts the sale if the ledger is wired in. The purchases recorded by
      an admin are marked paid (again) and posted one statement at a time: `MarkPaid`, and `PostLive` or
      `TearLive`, or neither. */
  datatype Event =
    | Buy(id: string, price: int, momo: bool, at: int, route: Route)
    | Settle(i: nat, at: int, success: bool, wired: bool)
    | MarkPaid(i: nat, at: int)
    | PostLive(i: nat)
    | TearLive(i: nat, lines: nat)
    | Start(run: nat)
    | PostNext(run: nat)
    | Kill(run: nat)
    | Tear(run: nat, lines: nat)

  predicate Known(purchases: seq<Purchase>, id: string)
  {
    exists i :: 0 <= i < |purchases| && purchases[i].id == id
  }

  function SettleOne(s: State, i: nat, at: int, success: bool, wired: bool): State
    requires i < |s.purchases|
  {
    if s.purchases[i].status != Pending then s
    else
      var p := s.purchases[i].(status := if success then Paid else Failed, at := at);
      var t := s.(purchases := s.purchases[i := p]);
      if wired && Due(p) then t.(entries := PostTo(s.entries, SaleEntry(p)).0) else t
  }

  /** The entry goes in with its first lines only. */
  function TearSale(entries: seq<Entry>, p: Purchase, lines: nat): seq<Entry>
  {
    if lines >= 2 || KeyUsed(entries, SaleKey(p.id)) then entries
    else
      var e := SaleEntry(p);
      entries + [e.(lines := e.lines[..lines])]
  }

  predicate PostsLive(s: State, i: nat)
  {
    i < |s.purchases| && s.purchases[i].route == Recorded && Due(s.purchases[i])
  }

  function Step(s: State, e: Event): State
  {
    match e
    case Buy(id, price, momo, at, route) =>
      if Known(s.purchases, id) then s
      else s.(purchases := s.purchases + [Purchase(id, price, momo, at, route, if route == Charged then Pending else Paid)])
    case Settle(i, at, success, wired) =>
      if i < |s.purchases| then SettleOne(s, i, at, success, wired) else s
    case MarkPaid(i, at) =>
      if i < |s.purchases| && s.purchases[i].status == Paid
      then s.(purchases := s.purchases[i := s.purchases[i].(at := at)]) else s
    case PostLive(i) =>
      if PostsLive(s, i) then s.(entries := PostTo(s.entries, SaleEntry(s.purchases[i])).0) else s
    case TearLive(i, lines) =>
      if PostsLive(s, i) then s.(entries := TearSale(s.entries, s.purchases[i], lines)) else s
    case Start(run) => if run in s.runs then s else s.(runs := s.runs[run := Sales(s.purchases)])
    case PostNext(run) =>
      if run !in s.runs || s.runs[run] == [] then s
      else s.(entries := PostTo(s.entries, SaleEntry(s.runs[run][0])).0, runs := s.runs[run := s.runs[run][1..]])
    case Kill(run) => s.(runs := s.runs - {run})
    case Tear(run, lines) =>
      if run !in s.runs || s.runs[run] == [] then s
      else s.(entries := TearSale(s.entries, s.runs[run][0], lines), runs := s.runs - {run})
  }

  function Run(s: State, events: seq<Event>): State
  {
    if events == [] then s else Step(Run(s, events[..|events| - 1]), events[|events| - 1])
  }

  // ---------------------------------------------------------------- what every event keeps

  /** The entry belongs to the purchase, whole or torn. */
  predicate EntryOf(e: Entry, p: Purchase)
  {
    Due(p) && e.key == SaleKey(p.id) && (e.lines == SaleLines(p) || e.lines == SaleLines(p)[..1] || e.lines == [])
  }

  predicate HasPurchase(purchases: seq<Purchase>, e: Entry)
  {
    exists i :: 0 <= i < |purchases| && EntryOf(e, purchases[i])
  }

  /** The same sale, read perhaps before it was marked paid again. */
  predicate SameSale(p: Purchase, q: Purchase)
  {
    p.id == q.id && p.price == q.price && p.momo == q.momo && p.route == q.route && (Due(p) ==> Due(q))
  }

  predicate Listed(purchases: seq<Purchase>, p: Purchase)
  {
    Due(p) && exists i :: 0 <= i < |purchases| && SameSale(p, purchases[i])
  }

  ghost predicate UniqueIds(purchases: seq<Purchase>)
  {
    forall i, j :: 0 <= i < j < |purchases| ==> purchases[i].id != purchases[j].id
  }

  ghost predicate UniqueKeys(entries: seq<Entry>)
  {
    forall i, j :: 0 <= i < j < |entries| ==> entries[i].key != entries[j].key
  }

  ghost predicate EntriesAreSales(s: State)
  {
    forall e <- s.entries :: HasPurchase(s.purchases, e)
  }

  ghost predicate RunsListSales(s: State)
  {
    forall run | run in s.runs :: forall p <- s.runs[run] :: Listed(s.purchases, p)
  }

  ghost predicate Sound(s: State)
  {
    && UniqueIds(s.purchases) && UniqueKeys(s.entries) && EntriesAreSales(s) && RunsListSales(s)
    && (forall p <- s.purchases :: p.status != Paid ==> p.route == Charged)
  }

  lemma {:induction false} SalesAre(purchases: seq<Purchase>, p: Purchase)
    ensures p in Sales(purchases) <==> p in purchases && Due(p)
  {
    if purchases != [] {
      var n := |purchases| - 1;
      SalesAre(purchases[..n], p);
      assert purchases == purchases[..n] + [purchases[n]];
    }
  }

  lemma SaleIsWellFormed(p: Purchase)
    requires Due(p)
    ensures WellFormed(SaleEntry(p))
  {
    var ls := SaleLines(p);
    assert ls[..1][..0] == [] && ls[..1] == [ls[0]];
    assert SaleKey(p.id) != "" by { assert |SaleKey(p.id)| >= 14; }
    assert Debits(ls) == Debits(ls[..1]) + ls[1].debit && Credits(ls) == Credits(ls[..1]) + ls[1].credit;
  }

  /** Adding an entry under a new key. */
  lemma AddEntry(s: State, entries: seq<Entry>, e: Entry, p: Purchase)
    requires Sound(s) && entries == s.entries + [e] && !KeyUsed(s.entries, e.key)
    requires Listed(s.purchases, p) && EntryOf(e, p)
    ensures Sound(s.(entries := entries))
  {
    var i :| 0 <= i < |s.purchases| && SameSale(p, s.purchases[i]);
    assert EntryOf(e, s.purchases[i]);
  }

  lemma PostSale(s: State, p: Purchase)
    requires Sound(s) && Listed(s.purchases, p)
    ensures Sound(s.(entries := PostTo(s.entries, SaleEntry(p)).0))
    ensures KeyUsed(PostTo(s.entries, SaleEntry(p)).0, SaleKey(p.id))
  {
    SaleIsWellFormed(p);
    PostedIff(s.entries, SaleEntry(p));
    var after := PostTo(s.entries, SaleEntry(p)).0;
    if after != s.entries {
      AddEntry(s, after, SaleEntry(p), p);
      assert after[|s.entries|].key == SaleKey(p.id);
    }
  }

  lemma TearSaleSound(s: State, p: Purchase, lines: nat)
    requires Sound(s) && Listed(s.purchases, p)
    ensures Sound(s.(entries := TearSale(s.entries, p, lines)))
    ensures lines < 2 ==> KeyUsed(TearSale(s.entries, p, lines), SaleKey(p.id))
  {
    var after := TearSale(s.entries, p, lines);
    if after != s.entries {
      AddEntry(s, after, after[|s.entries|], p);
      assert after[|s.entries|].key == SaleKey(p.id);
    }
  }

  /** Purchases are only ever added, and one that is due stays the same sale. */
  ghost predicate Grows(ps: seq<Purchase>, qs: seq<Purchase>)
  {
    |ps| <= |qs| && forall i :: 0 <= i < |ps| ==> SameSale(ps[i], qs[i])
  }

  lemma StepGrows(s: State, e: Event)
    ensures Grows(s.purchases, Step(s, e).purchases)
  {
  }

  lemma {:induction false} RunGrows(s: State, events: seq<Event>)
    ensures Grows(s.purchases, Run(s, events).purchases)
  {
    if events != [] {
      RunGrows(s, events[..|events| - 1]);
      StepGrows(Run(s, events[..|events| - 1]), events[|events| - 1]);
    }
  }

  /** Entries and lists refer to the grown purchases as they did to the old ones. */
  lemma GrownSound(s: State, purchases: seq<Purchase>)
    requires Sound(s) && Grows(s.purchases, purchases) && UniqueIds(purchases)
    requires forall p <- purchases :: p.status != Paid ==> p.route == Charged
    ensures Sound(s.(purchases := purchases))
  {
    var t := s.(purchases := purchases);
    forall e <- t.entries ensures HasPurchase(t.purchases, e) {
      var i :| 0 <= i < |s.purchases| && EntryOf(e, s.purchases[i]);
      assert EntryOf(e, t.purchases[i]);
    }
    forall run, p | run in t.runs && p in t.runs[run] ensures Listed(t.purchases, p) {
      var i :| 0 <= i < |s.purchases| && SameSale(p, s.purchases[i]);
      assert SameSale(p, t.purchases[i]);
    }
  }

  lemma PurchaseStepSound(s: State, e: Event)
    requires Sound(s) && (e.Buy? || e.MarkPaid?)
    ensures Sound(Step(s, e))
  {
    StepGrows(s, e);
    GrownSound(s, Step(s, e).purchases);
  }

  lemma SettleSound(s: State, i: nat, at: int, success: bool, wired: bool)
    requires Sound(s) && i < |s.purchases|
    ensures Sound(SettleOne(s, i, at, success, wired))
  {
    if s.purchases[i].status == Pending {
      var t := SettleOne(s, i, at, success, false);
      GrownSound(s, t.purchases);
      if wired && Due(t.purchases[i]) {
        PostSale(t, t.purchases[i]);
      }
    }
  }

  lemma LiveSound(s: State, e: Event)
    requires Sound(s) && (e.PostLive? || e.TearLive?)
    ensures Sound(Step(s, e))
  {
    if PostsLive(s, e.i) {
      assert SameSale(s.purchases[e.i], s.purchases[e.i]);
      if e.PostLive? {
        PostSale(s, s.purchases[e.i]);
      } else {
        TearSaleSound(s, s.purchases[e.i], e.lines);
      }
    }
  }

  lemma StartSound(s: State, run: nat)
    requires Sound(s)
    ensures Sound(Step(s, Start(run)))
  {
    forall p | p in Sales(s.purchases) ensures Listed(s.purchases, p) {
      SalesAre(s.purchases, p);
      var i :| 0 <= i < |s.purchases| && s.purchases[i] == p;
      assert SameSale(p, s.purchases[i]);
    }
  }

  lemma BackfillSound(s: State, e: Event)
    requires Sound(s) && (e.PostNext? || e.Tear?)
    ensures Sound(Step(s, e))
  {
    if e.run in s.runs && s.runs[e.run] != [] {
      assert s.runs[e.run][0] in s.runs[e.run];
      assert forall p | p in s.runs[e.run][1..] :: p in s.runs[e.run];
      if e.PostNext? {
        PostSale(s, s.runs[e.run][0]);
      } else {
        TearSaleSound(s, s.runs[e.run][0], e.lines);
      }
    }
  }

  lemma StepSound(s: State, e: Event)
    requires Sound(s)
    ensures Sound(Step(s, e))
  {
    match e
    case Settle(i, at, success, wired) => if i < |s.purchases| { SettleSound(s, i, at, success, wired); }
    case Start(run) => StartSound(s, run);
    case Kill(run) =>
    case _ =>
      if e.Buy? || e.MarkPaid? {
        PurchaseStepSound(s, e);
      } else if e.PostLive? || e.TearLive? {
        LiveSound(s, e);
      } else {
        BackfillSound(s, e);
      }
  }

  /** However postings are interleaved, torn and repeated, no purchase gets a second entry. */
  lemma {:induction false} RunSound(s: State, events: seq<Event>)
    requires Sound(s)
    ensures Sound(Run(s, events))
  {
    if events != [] {
      RunSound(s, events[..|events| - 1]);
      StepSound(Run(s, events[..|events| - 1]), events[|events| - 1]);
    }
  }

  // ---------------------------------------------------------------- package revenue

  function LinesRevenue(lines: seq<Line>): int
  {
    if lines == [] then 0
    else
      var l := lines[|lines| - 1];
      LinesRevenue(lines[..|lines| - 1]) + if l.account == Finance.PACKAGE_REVENUE then l.credit - l.debit else 0
  }

  /** Package revenue of all time, entry by entry. */
  function BookRevenue(entries: seq<Entry>): int
  {
    if entries == [] then 0 else BookRevenue(entries[..|entries| - 1]) + LinesRevenue(entries[|entries| - 1].lines)
  }

  /** The part of it under one key. */
  function Booked(entries: seq<Entry>, key: string): int
  {
    if entries == [] then 0
    else
      var e := entries[|entries| - 1];
      Booked(entries[..|entries| - 1], key) + if e.key == key then LinesRevenue(e.lines) else 0
  }

  function SumBooked(entries: seq<Entry>, purchases: seq<Purchase>): int
  {
    if purchases == [] then 0
    else SumBooked(entries, purchases[..|purchases| - 1]) + Booked(entries, SaleKey(purchases[|purchases| - 1].id))
  }

  function PaidTotal(purchases: seq<Purchase>): int
  {
    if purchases == [] then 0
    else
      var p := purchases[|purchases| - 1];
      PaidTotal(purchases[..|purchases| - 1]) + if Due(p) then p.price else 0
  }

  predicate Torn(entries: seq<Entry>, p: Purchase)
  {
    exists i :: 0 <= i < |entries| && entries[i].key == SaleKey(p.id) && |entries[i].lines| < 2
  }

  /** What is missing for want of lines. */
  function LostTotal(entries: seq<Entry>, purchases: seq<Purchase>): int
  {
    if purchases == [] then 0
    else
      var p := purchases[|purchases| - 1];
      LostTotal(entries, purchases[..|purchases| - 1]) + if Torn(entries, p) then p.price else 0
  }

  predicate Unbooked(entries: seq<Entry>, p: Purchase)
  {
    Due(p) && !KeyUsed(entries, SaleKey(p.id))
  }

  /** What is missing for want of an entry. */
  function UnbookedTotal(entries: seq<Entry>, purchases: seq<Purchase>): int
  {
    if purchases == [] then 0
    else
      var p := purchases[|purchases| - 1];
      UnbookedTotal(entries, purchases[..|purchases| - 1]) + if Unbooked(entries, p) then p.price else 0
  }

  function Matches(purchases: seq<Purchase>, key: string): nat
  {
    if purchases == [] then 0
    else Matches(purchases[..|purchases| - 1], key) + if SaleKey(purchases[|purchases| - 1].id) == key then 1 else 0
  }

  lemma SaleKeyInjective(a: string, b: string)
    requires SaleKey(a) == SaleKey(b)
    ensures a == b
  {
    assert SaleKey(a)[14..] == a && SaleKey(b)[14..] == b;
  }

  lemma {:induction false} MatchesOnce(purchases: seq<Purchase>, i: nat)
    requires UniqueIds(purchases) && i < |purchases|
    ensures Matches(purchases, SaleKey(purchases[i].id)) == 1
  {
    var n := |purchases| - 1;
    if i < n {
      MatchesOnce(purchases[..n], i);
      if SaleKey(purchases[n].id) == SaleKey(purchases[i].id) {
        SaleKeyInjective(purchases[n].id, purchases[i].id);
      }
    } else {
      MatchesNone(purchases[..n], purchases[i].id);
    }
  }

  lemma {:induction false} MatchesNone(purchases: seq<Purchase>, id: string)
    requires !Known(purchases, id)
    ensures Matches(purchases, SaleKey(id)) == 0
  {
    if purchases != [] {
      var n := |purchases| - 1;
      assert forall i | 0 <= i < n :: purchases[..n][i] == purchases[i];
      MatchesNone(purchases[..n], id);
      if SaleKey(purchases[n].id) == SaleKey(id) {
        SaleKeyInjective(purchases[n].id, id);
      }
    }
  }

  lemma {:induction false} OneMoreEntry(entries: seq<Entry>, purchases: seq<Purchase>)
    requires entries != []
    ensures var e := entries[|entries| - 1];
            SumBooked(entries, purchases)
            == SumBooked(entries[..|entries| - 1], purchases) + Matches(purchases, e.key) * LinesRevenue(e.lines)
  {
    if purchases != [] {
      var n := |purchases| - 1;
      OneMoreEntry(entries, purchases[..n]);
      var e := entries[|entries| - 1];
      var m := Matches(purchases[..n], e.key);
      assert (m + 1) * LinesRevenue(e.lines) == m * LinesRevenue(e.lines) + LinesRevenue(e.lines);
    }
  }

  lemma {:induction false} NoEntries(purchases: seq<Purchase>)
    ensures SumBooked([], purchases) == 0
  {
    if purchases != [] {
      NoEntries(purchases[..|purchases| - 1]);
    }
  }

  lemma LastEntryMatches(entries: seq<Entry>, purchases: seq<Purchase>)
    requires UniqueIds(purchases) && entries != [] && HasPurchase(purchases, entries[|entries| - 1])
    ensures SumBooked(entries, purchases)
            == SumBooked(entries[..|entries| - 1], purchases) + LinesRevenue(entries[|entries| - 1].lines)
  {
    var e := entries[|entries| - 1];
    var i :| 0 <= i < |purchases| && EntryOf(e, purchases[i]);
    MatchesOnce(purchases, i);
    OneMoreEntry(entries, purchases);
    assert Matches(purchases, e.key) == 1;
  }

  lemma {:induction false} RevenueByPurchase(entries: seq<Entry>, purchases: seq<Purchase>)
    requires UniqueIds(purchases) && forall e <- entries :: HasPurchase(purchases, e)
    ensures BookRevenue(entries) == SumBooked(entries, purchases)
  {
    if entries == [] {
      NoEntries(purchases);
    } else {
      var n := |entries| - 1;
      assert entries[n] in entries && forall e | e in entries[..n] :: e in entries;
      RevenueByPurchase(entries[..n], purchases);
      LastEntryMatches(entries, purchases);
    }
  }

  lemma {:induction false} BookedIs(entries: seq<Entry>, key: string)
    requires UniqueKeys(entries)
    ensures !KeyUsed(entries, key) ==> Booked(entries, key) == 0
    ensures forall i :: 0 <= i < |entries| && entries[i].key == key ==> Booked(entries, key) == LinesRevenue(entries[i].lines)
  {
    if entries != [] {
      var n := |entries| - 1;
      assert forall i | 0 <= i < n :: entries[..n][i] == entries[i];
      BookedIs(entries[..n], key);
    }
  }

  lemma SaleRevenue(p: Purchase)
    ensures LinesRevenue(SaleLines(p)) == p.price
    ensures LinesRevenue(SaleLines(p)[..1]) == LinesRevenue([]) == 0
  {
    var ls := SaleLines(p);
    assert ls[..1][..0] == [] && ls[..1] == [ls[0]];
    assert LinesRevenue(ls) == LinesRevenue(ls[..1]) + ls[1].credit;
  }

  predicate Covered(entries: seq<Entry>, purchases: seq<Purchase>)
  {
    forall p <- purchases :: Due(p) ==> KeyUsed(entries, SaleKey(p.id))
  }

  /** What one purchase adds to package revenue. */
  lemma BookedForPurchase(s: State, i: nat)
    requires Sound(s) && i < |s.purchases|
    ensures var p := s.purchases[i];
            && Booked(s.entries, SaleKey(p.id)) == (if Due(p) && !Unbooked(s.entries, p) && !Torn(s.entries, p) then p.price else 0)
            && (Torn(s.entries, p) ==> Due(p) && !Unbooked(s.entries, p))
  {
    var p := s.purchases[i];
    BookedIs(s.entries, SaleKey(p.id));
    SaleRevenue(p);
    if KeyUsed(s.entries, SaleKey(p.id)) {
      var k :| 0 <= k < |s.entries| && s.entries[k].key == SaleKey(p.id);
      assert s.entries[k] in s.entries;
      var j :| 0 <= j < |s.purchases| && EntryOf(s.entries[k], s.purchases[j]);
      SaleKeyInjective(s.purchases[j].id, p.id);
      assert j == i;
    }
  }

  /** Neither torn nor without an entry. */
  predicate AllWhole(entries: seq<Entry>, purchases: seq<Purchase>)
  {
    forall p <- purchases :: !Torn(entries, p) && !Unbooked(entries, p)
  }

  lemma {:induction false} SumOverPurchases(s: State, n: nat)
    requires Sound(s) && n <= |s.purchases|
    ensures var ps := s.purchases[..n];
            && SumBooked(s.entries, ps) == PaidTotal(ps) - LostTotal(s.entries, ps) - UnbookedTotal(s.entries, ps)
            && LostTotal(s.entries, ps) >= 0 && UnbookedTotal(s.entries, ps) >= 0
            && (LostTotal(s.entries, ps) + UnbookedTotal(s.entries, ps) == 0 <==> AllWhole(s.entries, ps))
  {
    if n > 0 {
      SumOverPurchases(s, n - 1);
      var ps := s.purchases[..n];
      assert ps[..n - 1] == s.purchases[..n - 1] && ps == ps[..n - 1] + [s.purchases[n - 1]];
      BookedForPurchase(s, n - 1);
    }
  }

  /** In every state the system can be in, package revenue is the sum of the prices of the paid
      purchases, less those of the torn entries and of the purchases without an entry; so it is that sum
      exactly when no paid purchase is torn or without an entry. */
  lemma RevenueIs(s: State)
    requires Sound(s)
    ensures BookRevenue(s.entries)
            == PaidTotal(s.purchases) - LostTotal(s.entries, s.purchases) - UnbookedTotal(s.entries, s.purchases)
    ensures LostTotal(s.entries, s.purchases) >= 0 && UnbookedTotal(s.entries, s.purchases) >= 0
    ensures BookRevenue(s.entries) == PaidTotal(s.purchases) <==> AllWhole(s.entries, s.purchases)
  {
    RevenueByPurchase(s.entries, s.purchases);
    SumOverPurchases(s, |s.purchases|);
    assert s.purchases[..|s.purchases|] == s.purchases;
  }

  lemma {:induction false} RunRevenueIs(events: seq<Event>)
    ensures var t := Run(EMPTY, events);
            && BookRevenue(t.entries)
               == PaidTotal(t.purchases) - LostTotal(t.entries, t.purchases) - UnbookedTotal(t.entries, t.purchases)
            && (BookRevenue(t.entries) == PaidTotal(t.purchases) <==> AllWhole(t.entries, t.purchases))
  {
    RunSound(EMPTY, events);
    RevenueIs(Run(EMPTY, events));
  }

  // ---------------------------------------------------------------- purchases that get no entry

  /** A purchase comes to be PAID with a price and without an entry. */
  predicate LeavesUnbooked(e: Event)
  {
    (e.Buy? && e.route != Charged && e.price > 0) || (e.Settle? && !e.wired)
  }

  lemma EntriesOnlyGrow(s: State, e: Event)
    ensures s.entries <= Step(s, e).entries
  {
  }

  lemma UsedForGood(before: seq<Entry>, after: seq<Entry>, key: string)
    requires before <= after && KeyUsed(before, key)
    ensures KeyUsed(after, key)
  {
    var i :| 0 <= i < |before| && before[i].key == key;
    assert after[i] == before[i];
  }

  lemma StepCovered(s: State, e: Event)
    requires Sound(s) && Covered(s.entries, s.purchases) && !LeavesUnbooked(e)
    ensures Covered(Step(s, e).entries, Step(s, e).purchases)
  {
    var t := Step(s, e);
    EntriesOnlyGrow(s, e);
    if e.Settle? && e.i < |s.purchases| && Due(t.purchases[e.i]) && t != s {
      SaleIsWellFormed(t.purchases[e.i]);
      PostedIff(s.entries, SaleEntry(t.purchases[e.i]));
      assert KeyUsed(s.entries, SaleKey(t.purchases[e.i].id)) || t.entries[|s.entries|].key == SaleKey(t.purchases[e.i].id);
    }
    forall i | 0 <= i < |t.purchases| && Due(t.purchases[i]) ensures KeyUsed(t.entries, SaleKey(t.purchases[i].id)) {
      if i < |s.purchases| && Due(s.purchases[i]) {
        assert s.purchases[i] in s.purchases;
        UsedForGood(s.entries, t.entries, SaleKey(s.purchases[i].id));
      }
    }
  }

  /** The transaction that settles a purchase never leaves it paid and without its entry: only the two
      paths that insert PAID rows, and a ledger not wired in, do. */
  lemma {:induction false} SettlingBooks(events: seq<Event>)
    requires forall e <- events :: !LeavesUnbooked(e)
    ensures Covered(Run(EMPTY, events).entries, Run(EMPTY, events).purchases)
  {
    if events != [] {
      var n := |events| - 1;
      assert events[n] in events;
      SettlingBooks(events[..n]);
      RunSound(EMPTY, events[..n]);
      StepCovered(Run(EMPTY, events[..n]), events[n]);
    }
  }

  lemma KeyHasPurchase(s: State, id: string) returns (j: nat)
    requires Sound(s) && KeyUsed(s.entries, SaleKey(id))
    ensures j < |s.purchases| && s.purchases[j].id == id && Due(s.purchases[j])
  {
    var k :| 0 <= k < |s.entries| && s.entries[k].key == SaleKey(id);
    assert s.entries[k] in s.entries;
    j :| 0 <= j < |s.purchases| && EntryOf(s.entries[k], s.purchases[j]);
    SaleKeyInjective(s.purchases[j].id, id);
  }

  /** An event of no backfill adds an entry for a purchase that is not promotional, if it adds any. */
  lemma LiveEntry(s: State, e: Event, id: string)
    requires Sound(s) && !e.PostNext? && !e.Tear?
    requires KeyUsed(Step(s, e).entries, SaleKey(id)) && !KeyUsed(s.entries, SaleKey(id))
    ensures (e.Settle? || e.PostLive? || e.TearLive?) && e.i < |s.purchases| == |Step(s, e).purchases|
    ensures s.purchases[e.i].id == id && s.purchases[e.i].route != Promotional
  {
    var t := Step(s, e);
    var k :| 0 <= k < |t.entries| && t.entries[k].key == SaleKey(id);
    assert s.purchases[e.i] in s.purchases;
    SaleKeyInjective(s.purchases[e.i].id, id);
  }

  lemma StepPromotional(s: State, e: Event, i: nat)
    requires Sound(s) && !e.PostNext? && !e.Tear? && i < |Step(s, e).purchases|
    requires Step(s, e).purchases[i].route == Promotional
    requires i < |s.purchases| ==> !KeyUsed(s.entries, SaleKey(s.purchases[i].id))
    ensures !KeyUsed(Step(s, e).entries, SaleKey(Step(s, e).purchases[i].id))
  {
    var id := Step(s, e).purchases[i].id;
    StepGrows(s, e);
    StepSound(s, e);
    if KeyUsed(Step(s, e).entries, SaleKey(id)) {
      if KeyUsed(s.entries, SaleKey(id)) {
        var _ := KeyHasPurchase(s, id);
      } else {
        LiveEntry(s, e, id);
      }
    }
  }

  /** Without a backfill, promotional purchases are never booked. */
  lemma {:induction false} PromotionalOnlyByBackfill(events: seq<Event>, i: nat)
    requires forall e <- events :: !e.PostNext? && !e.Tear?
    requires i < |Run(EMPTY, events).purchases| && Run(EMPTY, events).purchases[i].route == Promotional
    ensures !KeyUsed(Run(EMPTY, events).entries, SaleKey(Run(EMPTY, events).purchases[i].id))
  {
    if events != [] {
      var n := |events| - 1;
      var s := Run(EMPTY, events[..n]);
      assert events[n] in events;
      StepGrows(s, events[n]);
      if i < |s.purchases| {
        PromotionalOnlyByBackfill(events[..n], i);
      }
      RunSound(EMPTY, events[..n]);
      StepPromotional(s, events[n], i);
    }
  }

  lemma RunOfTwo(a: Event, b: Event)
    ensures Run(EMPTY, [a]) == Step(EMPTY, a)
    ensures Run(EMPTY, [a, b]) == Step(Step(EMPTY, a), b)
  {
    assert [a][..0] == [] && [a, b][..1] == [a];
  }

  lemma RunOfThree(a: Event, b: Event, c: Event)
    ensures Run(EMPTY, [a, b, c]) == Step(Step(Step(EMPTY, a), b), c)
  {
    RunOfTwo(a, b);
    assert [a, b, c][..2] == [a, b];
  }

  /** A backfill that has got to the end of its list beside a purchase that it came too early for:
      nothing is torn, and the books are short of its price. */
  lemma PromotionalSaleIsUnbooked(id: string, price: int)
    requires price > 0
    ensures var t := Run(EMPTY, [Start(0), Buy(id, price, false, 0, Promotional)]);
            0 in t.runs && t.runs[0] == [] && BookRevenue(t.entries) == 0 && PaidTotal(t.purchases) == price
  {
    RunOfTwo(Start(0), Buy(id, price, false, 0, Promotional));
    var s := Step(EMPTY, Start(0));
    assert s.purchases == [] && s.runs[0] == [];
    var p := Purchase(id, price, false, 0, Promotional, Paid);
    var t := Step(s, Buy(id, price, false, 0, Promotional));
    assert t == State([p], [], s.runs) && [p][..0] == [];
  }

  /** And a later backfill books it: cash received and package revenue for a purchase that took no
      payment. */
  lemma PromotionalSaleIsBooked(id: string, price: int)
    requires price > 0
    ensures var t := Run(EMPTY, [Buy(id, price, false, 0, Promotional), Start(0), PostNext(0)]);
            BookRevenue(t.entries) == price && |t.entries| == 1 && Line(CASH_MANUAL, price, 0) in t.entries[0].lines
  {
    RunOfThree(Buy(id, price, false, 0, Promotional), Start(0), PostNext(0));
    var p := Purchase(id, price, false, 0, Promotional, Paid);
    var s := Step(EMPTY, Buy(id, price, false, 0, Promotional));
    assert s.purchases == [p] && s.purchases[..0] == [];
    assert Sales(s.purchases) == Sales([]) + [p] == [p];
    SaleIsWellFormed(p);
    PostedIff([], SaleEntry(p));
    var t := Run(EMPTY, [Buy(id, price, false, 0, Promotional), Start(0), PostNext(0)]);
    assert t.entries == [SaleEntry(p)] && t.entries[..0] == [];
    SaleRevenue(p);
    assert SaleLines(p)[0] in SaleLines(p);
  }

  // ---------------------------------------------------------------- one run that completes

  predicate ListsId(list: seq<Purchase>, id: string)
  {
    exists i :: 0 <= i < |list| && list[i].id == id
  }

  predicate DueId(purchases: seq<Purchase>, id: string)
  {
    exists i :: 0 <= i < |purchases| && purchases[i].id == id && Due(purchases[i])
  }

  /** While the run is under way, the sale has its entry or is still on the run's list. */
  predicate Coming(s: State, run: nat, id: string)
  {
    DueId(s.purchases, id) && (run in s.runs ==> KeyUsed(s.entries, SaleKey(id)) || ListsId(s.runs[run], id))
  }

  lemma KeysStayUsed(s: State, e: Event, key: string)
    requires KeyUsed(s.entries, key)
    ensures KeyUsed(Step(s, e).entries, key)
  {
    EntriesOnlyGrow(s, e);
    UsedForGood(s.entries, Step(s, e).entries, key);
  }

  lemma DueStays(s: State, e: Event, id: string)
    requires DueId(s.purchases, id)
    ensures DueId(Step(s, e).purchases, id)
  {
    StepGrows(s, e);
    var i :| 0 <= i < |s.purchases| && s.purchases[i].id == id && Due(s.purchases[i]);
    assert Step(s, e).purchases[i].id == id;
  }

  lemma StartLists(purchases: seq<Purchase>, id: string)
    requires DueId(purchases, id)
    ensures ListsId(Sales(purchases), id)
  {
    var i :| 0 <= i < |purchases| && purchases[i].id == id && Due(purchases[i]);
    SalesAre(purchases, purchases[i]);
    var k :| 0 <= k < |Sales(purchases)| && Sales(purchases)[k] == purchases[i];
    assert Sales(purchases)[k].id == id;
  }

  lemma PostNextComing(s: State, run: nat, id: string)
    requires Sound(s) && Coming(s, run, id)
    ensures Coming(Step(s, PostNext(run)), run, id)
  {
    var e := PostNext(run);
    DueStays(s, e, id);
    if KeyUsed(s.entries, SaleKey(id)) {
      KeysStayUsed(s, e, SaleKey(id));
    } else if run in s.runs {
      var i :| 0 <= i < |s.runs[run]| && s.runs[run][i].id == id;
      assert s.runs[run][i] in s.runs[run];
      if i == 0 {
        PostSale(s, s.runs[run][0]);
      } else {
        assert Step(s, e).runs[run][i - 1].id == id;
      }
    }
  }

  lemma StepComing(s: State, e: Event, run: nat, id: string)
    requires Sound(s) && Coming(s, run, id)
    ensures Coming(Step(s, e), run, id)
  {
    if e == PostNext(run) {
      PostNextComing(s, run, id);
    } else {
      DueStays(s, e, id);
      if KeyUsed(s.entries, SaleKey(id)) {
        KeysStayUsed(s, e, SaleKey(id));
      } else if e == Start(run) {
        StartLists(s.purchases, id);
      }
    }
  }

  lemma {:induction false} RunComing(s: State, events: seq<Event>, run: nat, id: string)
    requires Sound(s) && Coming(s, run, id)
    ensures Coming(Run(s, events), run, id)
  {
    if events != [] {
      var n := |events| - 1;
      RunComing(s, events[..n], run, id);
      RunSound(s, events[..n]);
      StepComing(Run(s, events[..n]), events[n], run, id);
    }
  }

  /** From any state the system can be in, when a run that starts has got to the end of its list, then
      whatever went on beside it every purchase that was due at its start has its entry. */
  lemma CompletedRunBooksEverySale(s: State, run: nat, events: seq<Event>, p: Purchase)
    requires Sound(s) && run !in s.runs && p in s.purchases && Due(p)
    requires var t := Run(Step(s, Start(run)), events); run in t.runs && t.runs[run] == []
    ensures KeyUsed(Run(Step(s, Start(run)), events).entries, SaleKey(p.id))
  {
    var i :| 0 <= i < |s.purchases| && s.purchases[i] == p;
    assert DueId(s.purchases, p.id);
    StartLists(s.purchases, p.id);
    StartSound(s, run);
    RunComing(Step(s, Start(run)), events, run, p.id);
  }

  /** Purchases due before are booked: what is without an entry is of a purchase that became due later. */
  lemma {:induction false} UnbookedIsNew(before: seq<Purchase>, after: seq<Purchase>, entries: seq<Entry>)
    requires Grows(before, after) && Covered(entries, before)
    ensures PaidTotal(after) - UnbookedTotal(entries, after) >= PaidTotal(before)
    decreases |after|
  {
    if after != [] {
      var n := |after| - 1;
      if |before| == |after| {
        assert before[n] in before;
        assert forall p | p in before[..n] :: p in before;
        UnbookedIsNew(before[..n], after[..n], entries);
      } else {
        UnbookedIsNew(before, after[..n], entries);
      }
    }
  }

  /** So then package revenue is at least what was paid at the run's start, less what is torn. */
  lemma CompletedRunRevenue(s: State, run: nat, events: seq<Event>)
    requires Sound(s) && run !in s.runs
    requires var t := Run(Step(s, Start(run)), events); run in t.runs && t.runs[run] == []
    ensures var t := Run(Step(s, Start(run)), events);
            BookRevenue(t.entries) >= PaidTotal(s.purchases) - LostTotal(t.entries, t.purchases)
  {
    var t := Run(Step(s, Start(run)), events);
    forall p <- s.purchases | Due(p) ensures KeyUsed(t.entries, SaleKey(p.id)) {
      CompletedRunBooksEverySale(s, run, events, p);
    }
    StartSound(s, run);
    RunSound(Step(s, Start(run)), events);
    RunGrows(Step(s, Start(run)), events);
    RevenueIs(t);
    UnbookedIsNew(s.purchases, t.purchases, t.entries);
  }

  // ---------------------------------------------------------------- tears

  /** A torn entry is never completed: every later attempt finds its key taken. */
  lemma {:induction false} TornForever(s: State, events: seq<Event>, p: Purchase)
    requires Torn(s.entries, p)
    ensures Torn(Run(s, events).entries, p)
  {
    if events != [] {
      var n := |events| - 1;
      TornForever(s, events[..n], p);
      var t := Run(s, events[..n]);
      EntriesOnlyGrow(t, events[n]);
      var i :| 0 <= i < |t.entries| && t.entries[i].key == SaleKey(p.id) && |t.entries[i].lines| < 2;
      assert Step(t, events[n]).entries[i] == t.entries[i];
    }
  }

  /** A posting that ends between the entry and its last line tears the sale, unless it was posted
      before, be it a backfill's or a live one. */
  lemma KilledInsidePosting(entries: seq<Entry>, p: Purchase, lines: nat)
    requires lines < 2 && !KeyUsed(entries, SaleKey(p.id))
    ensures Torn(TearSale(entries, p, lines), p)
  {
    assert TearSale(entries, p, lines)[|entries|].key == SaleKey(p.id);
  }

  lemma StepUntorn(s: State, e: Event)
    requires forall x <- s.entries :: |x.lines| >= 2
    requires !e.Tear? && !e.TearLive?
    ensures forall x <- Step(s, e).entries :: |x.lines| >= 2
  {
  }

  /** Killed between two postings, however often, a backfill loses nothing. */
  lemma {:induction false} NoTearNoLoss(events: seq<Event>, p: Purchase)
    requires forall e <- events :: !e.Tear? && !e.TearLive?
    ensures forall x <- Run(EMPTY, events).entries :: |x.lines| >= 2
    ensures !Torn(Run(EMPTY, events).entries, p)
  {
    if events != [] {
      var n := |events| - 1;
      assert events[n] in events;
      NoTearNoLoss(events[..n], p);
      StepUntorn(Run(EMPTY, events[..n]), events[n]);
    }
  }

  // ---------------------------------------------------------------- the ledger's own revenue query

  lemma {:induction false} RevenueAppends(ps: seq<Finance.Posting>, qs: seq<Finance.Posting>, chart: Finance.Chart, only: Option<Code>, w: Finance.Window)
    ensures Finance.RevenueIn(ps + qs, chart, only, w) == Finance.RevenueIn(ps, chart, only, w) + Finance.RevenueIn(qs, chart, only, w)
  {
    if qs == [] {
      assert ps + qs == ps;
    } else {
      var n := |qs| - 1;
      RevenueAppends(ps, qs[..n], chart, only, w);
      assert (ps + qs)[..|ps| + n] == ps + qs[..n];
    }
  }

  const ALL_TIME := Finance.Closed(None, None)

  ghost predicate HasPackageRevenue(chart: Finance.Chart)
  {
    Finance.PACKAGE_REVENUE in chart && chart[Finance.PACKAGE_REVENUE].kind == Finance.Revenue
  }

  lemma {:induction false} RevenueOfLines(date: int, lines: seq<Line>, chart: Finance.Chart, w: Finance.Window)
    requires HasPackageRevenue(chart)
    ensures Finance.RevenueIn(Finance.LinesAt(date, lines), chart, Some(Finance.PACKAGE_REVENUE), w)
            == if w.Has(date) then LinesRevenue(lines) else 0
  {
    if lines != [] {
      var n := |lines| - 1;
      RevenueOfLines(date, lines[..n], chart, w);
      var ps := Finance.LinesAt(date, lines);
      assert ps[..|ps| - 1] == Finance.LinesAt(date, lines[..n]);
    }
  }

  /** `BookRevenue` is the package revenue the ledger's query reports for all of time. */
  lemma {:induction false} BookRevenueIsReported(entries: seq<Entry>, chart: Finance.Chart)
    requires HasPackageRevenue(chart)
    ensures Finance.RevenueIn(Finance.Postings(entries), chart, Some(Finance.PACKAGE_REVENUE), ALL_TIME) == BookRevenue(entries)
  {
    if entries != [] {
      var n := |entries| - 1;
      var e := entries[n];
      BookRevenueIsReported(entries[..n], chart);
      RevenueOfLines(e.date, e.lines, chart, ALL_TIME);
      RevenueAppends(Finance.Postings(entries[..n]), Finance.LinesAt(e.date, e.lines), chart, Some(Finance.PACKAGE_REVENUE), ALL_TIME);
    }
  }

  // ---------------------------------------------------------------- when and where a sale is booked

  /** A sale on its way into the journal, with so many of its two lines. */
  datatype Entering = Entering(sale: Purchase, lines: nat)

  /** The sale an event has in hand, as it is at that moment. */
  function InHand(s: State, e: Event): (r: Option<Entering>)
    ensures r.Some? ==> r.value.lines <= 2
  {
    match e
    case Settle(i, at, success, wired) =>
      if i < |s.purchases| && s.purchases[i].status == Pending && success && wired && s.purchases[i].price > 0
      then Some(Entering(s.purchases[i].(status := Paid, at := at), 2)) else None
    case PostLive(i) =>
      if i < |s.purchases| && s.purchases[i].route == Recorded && s.purchases[i].status == Paid && s.purchases[i].price > 0
      then Some(Entering(s.purchases[i], 2)) else None
    case TearLive(i, lines) =>
      if i < |s.purchases| && s.purchases[i].route == Recorded && s.purchases[i].status == Paid && s.purchases[i].price > 0 && lines < 2
      then Some(Entering(s.purchases[i], lines)) else None
    case PostNext(run) =>
      if run in s.runs && s.runs[run] != [] then Some(Entering(s.runs[run][0], 2)) else None
    case Tear(run, lines) =>
      if run in s.runs && s.runs[run] != [] && lines < 2 then Some(Entering(s.runs[run][0], lines)) else None
    case _ => None
  }

  /** It gets in unless it has been there before. */
  function Enters(s: State, e: Event): (r: Option<Entering>)
    ensures r.Some? ==> r.value.lines <= 2
  {
    var h := InHand(s, e);
    if h.Some? && !KeyUsed(s.entries, SaleKey(h.value.sale.id)) then h else None
  }

  lemma InHandIsDue(s: State, e: Event)
    requires Sound(s) && InHand(s, e).Some?
    ensures Due(InHand(s, e).value.sale)
  {
    if e.PostNext? || e.Tear? {
      assert s.runs[e.run][0] in s.runs[e.run];
    }
  }

  /** The entry it makes. */
  function EntryFor(x: Entering): Entry
    requires x.lines <= 2
  {
    Entry(x.sale.at, SaleKey(x.sale.id), SaleLines(x.sale)[..x.lines])
  }

  lemma PostedWhole(entries: seq<Entry>, p: Purchase)
    requires Due(p)
    ensures PostTo(entries, SaleEntry(p)).0
            == if KeyUsed(entries, SaleKey(p.id)) then entries else entries + [EntryFor(Entering(p, 2))]
  {
    SaleIsWellFormed(p);
    PostedIff(entries, SaleEntry(p));
    assert SaleLines(p)[..2] == SaleLines(p);
  }

  lemma EntersIs(s: State, e: Event)
    requires Sound(s)
    ensures Step(s, e).entries == match Enters(s, e) case None => s.entries case Some(x) => s.entries + [EntryFor(x)]
  {
    if InHand(s, e).Some? {
      InHandIsDue(s, e);
      if e.Settle? || e.PostLive? || e.PostNext? {
        PostedWhole(s.entries, InHand(s, e).value.sale);
      }
    }
  }

  /** Debits less credits of one account. */
  function AccountNet(ps: seq<Finance.Posting>, code: Code, w: Finance.Window): int
  {
    if ps == [] then 0
    else
      var p := ps[|ps| - 1];
      AccountNet(ps[..|ps| - 1], code, w) + if w.Has(p.date) && p.line.account == code then p.line.debit - p.line.credit else 0
  }

  lemma AccountOfLast(ps: seq<Finance.Posting>, p: Finance.Posting, code: Code, w: Finance.Window)
    ensures AccountNet(ps + [p], code, w)
            == AccountNet(ps, code, w) + if w.Has(p.date) && p.line.account == code then p.line.debit - p.line.credit else 0
  {
    assert (ps + [p])[..|ps|] == ps;
  }

  lemma RevenueOfEntry(entries: seq<Entry>, x: Entering, chart: Finance.Chart, w: Finance.Window)
    requires HasPackageRevenue(chart) && x.lines <= 2
    ensures Finance.RevenueIn(Finance.Postings(entries + [EntryFor(x)]), chart, Some(Finance.PACKAGE_REVENUE), w)
            == Finance.RevenueIn(Finance.Postings(entries), chart, Some(Finance.PACKAGE_REVENUE), w)
               + if x.lines == 2 && w.Has(x.sale.at) then x.sale.price else 0
  {
    var e := EntryFor(x);
    assert (entries + [e])[..|entries|] == entries;
    RevenueOfLines(e.date, e.lines, chart, w);
    RevenueAppends(Finance.Postings(entries), Finance.LinesAt(e.date, e.lines), chart, Some(Finance.PACKAGE_REVENUE), w);
    SaleRevenue(x.sale);
    assert SaleLines(x.sale)[..2] == SaleLines(x.sale) && SaleLines(x.sale)[..0] == [];
  }

  /** MoMo payments are received on one account, all others on the other. */
  function CashAccount(p: Purchase): Code
  {
    if p.momo then 1000 else 1010
  }

  lemma LinesOfEntry(x: Entering)
    requires x.lines <= 2
    ensures var e := EntryFor(x); var ps := Finance.LinesAt(e.date, e.lines);
            ps == [Finance.Posting(x.sale.at, Line(CashAccount(x.sale), x.sale.price, 0)),
                   Finance.Posting(x.sale.at, Line(Finance.PACKAGE_REVENUE, 0, x.sale.price))][..x.lines]
  {
    var ls := SaleLines(x.sale);
    assert ls[..2] == ls && ls[..1] == [ls[0]] && ls[..0] == [] && [ls[0]][..0] == [];
    assert Finance.LinesAt(x.sale.at, [ls[0]]) == Finance.LinesAt(x.sale.at, []) + [Finance.Posting(x.sale.at, ls[0])];
    if x.lines == 2 {
      assert Finance.LinesAt(x.sale.at, ls) == Finance.LinesAt(x.sale.at, [ls[0]]) + [Finance.Posting(x.sale.at, ls[1])];
    }
  }

  lemma CashOfEntry(entries: seq<Entry>, x: Entering, code: Code, w: Finance.Window)
    requires x.lines <= 2 && (code == CASH_MOMO || code == CASH_MANUAL)
    ensures AccountNet(Finance.Postings(entries + [EntryFor(x)]), code, w)
            == AccountNet(Finance.Postings(entries), code, w)
               + if x.lines >= 1 && w.Has(x.sale.at) && code == CashAccount(x.sale) then x.sale.price else 0
  {
    var e := EntryFor(x);
    assert (entries + [e])[..|entries|] == entries;
    LinesOfEntry(x);
    var ps, p := Finance.Postings(entries), Finance.Posting(x.sale.at, Line(CashAccount(x.sale), x.sale.price, 0));
    var q := Finance.Posting(x.sale.at, Line(Finance.PACKAGE_REVENUE, 0, x.sale.price));
    if x.lines == 0 {
      assert Finance.Postings(entries + [e]) == ps;
    } else if x.lines == 1 {
      assert Finance.Postings(entries + [e]) == ps + [p];
      AccountOfLast(ps, p, code, w);
    } else {
      assert Finance.Postings(entries + [e]) == ps + [p] + [q];
      AccountOfLast(ps, p, code, w);
      AccountOfLast(ps + [p], q, code, w);
    }
  }

  /** In every window, an event raises package revenue by the price of the sale it books if the sale was
      paid in that window, and by nothing otherwise; cash is debited where such payments are received. */
  lemma SaleCountsWhenPaid(s: State, e: Event, chart: Finance.Chart, w: Finance.Window)
    requires Sound(s) && HasPackageRevenue(chart)
    ensures Finance.RevenueIn(Finance.Postings(Step(s, e).entries), chart, Some(Finance.PACKAGE_REVENUE), w)
            == Finance.RevenueIn(Finance.Postings(s.entries), chart, Some(Finance.PACKAGE_REVENUE), w) + RevenueFrom(Enters(s, e), w)
    ensures forall code | code == CASH_MOMO || code == CASH_MANUAL ::
              AccountNet(Finance.Postings(Step(s, e).entries), code, w)
              == AccountNet(Finance.Postings(s.entries), code, w) + CashFrom(Enters(s, e), code, w)
  {
    EntersIs(s, e);
    if Enters(s, e).Some? {
      RevenueOfEntry(s.entries, Enters(s, e).value, chart, w);
      CashOfEntry(s.entries, Enters(s, e).value, CASH_MOMO, w);
      CashOfEntry(s.entries, Enters(s, e).value, CASH_MANUAL, w);
    }
  }

  function RevenueFrom(x: Option<Entering>, w: Finance.Window): int
  {
    if x.Some? && x.value.lines == 2 && w.Has(x.value.sale.at) then x.value.sale.price else 0
  }

  function CashFrom(x: Option<Entering>, code: Code, w: Finance.Window): int
  {
    if x.Some? && x.value.lines >= 1 && w.Has(x.value.sale.at) && code == CashAccount(x.value.sale) then x.value.sale.price else 0
  }

  /** The prices of the sales a run has booked whole and that were paid in the window. */
  function RevenueOver(events: seq<Event>, w: Finance.Window): int
  {
    if events == [] then 0
    else
      var n := |events| - 1;
      RevenueOver(events[..n], w) + RevenueFrom(Enters(Run(EMPTY, events[..n]), events[n]), w)
  }

  function CashOver(events: seq<Event>, code: Code, w: Finance.Window): int
  {
    if events == [] then 0
    else
      var n := |events| - 1;
      CashOver(events[..n], code, w) + CashFrom(Enters(Run(EMPTY, events[..n]), events[n]), code, w)
  }

  /** In every run and every window, package revenue is the prices of the sales booked whole and paid in it,
      and each cash account holds the prices of the sales received there, half-booked ones too. */
  lemma {:induction false} RevenueOfWindow(events: seq<Event>, chart: Finance.Chart, w: Finance.Window)
    requires HasPackageRevenue(chart)
    ensures Finance.RevenueIn(Finance.Postings(Run(EMPTY, events).entries), chart, Some(Finance.PACKAGE_REVENUE), w)
            == RevenueOver(events, w)
    ensures forall code | code == CASH_MOMO || code == CASH_MANUAL ::
              AccountNet(Finance.Postings(Run(EMPTY, events).entries), code, w) == CashOver(events, code, w)
  {
    if events != [] {
      var n := |events| - 1;
      RevenueOfWindow(events[..n], chart, w);
      RunSound(EMPTY, events[..n]);
      SaleCountsWhenPaid(Run(EMPTY, events[..n]), events[n], chart, w);
    }
  }

  /** At step k the sale of this purchase is entered. */
  predicate EnteredAt(events: seq<Event>, k: nat, id: string)
  {
    && k < |events|
    && var x := Enters(Run(EMPTY, events[..k]), events[k]); x.Some? && x.value.sale.id == id
  }

  ghost predicate Entered(events: seq<Event>, id: string)
  {
    exists k: nat :: EnteredAt(events, k, id)
  }

  lemma EntersKey(s: State, e: Event, id: string)
    requires Sound(s)
    ensures KeyUsed(Step(s, e).entries, SaleKey(id)) <==>
            KeyUsed(s.entries, SaleKey(id)) || (Enters(s, e).Some? && Enters(s, e).value.sale.id == id)
  {
    EntersIs(s, e);
    EntriesOnlyGrow(s, e);
    if KeyUsed(s.entries, SaleKey(id)) {
      UsedForGood(s.entries, Step(s, e).entries, SaleKey(id));
    }
    if Enters(s, e).Some? {
      assert Step(s, e).entries[|s.entries|].key == SaleKey(Enters(s, e).value.sale.id);
      if KeyUsed(Step(s, e).entries, SaleKey(id)) && !KeyUsed(s.entries, SaleKey(id)) {
        SaleKeyInjective(Enters(s, e).value.sale.id, id);
      }
    }
  }

  lemma EnteredBefore(events: seq<Event>, n: nat, k: nat, id: string)
    requires k < n <= |events|
    ensures EnteredAt(events[..n], k, id) <==> EnteredAt(events, k, id)
  {
    assert events[..n][..k] == events[..k];
  }

  lemma EnteredNext(events: seq<Event>, n: nat, id: string)
    requires |events| == n + 1
    ensures Entered(events, id) <==> Entered(events[..n], id) || EnteredAt(events, n, id)
  {
    if Entered(events, id) {
      var k: nat :| EnteredAt(events, k, id);
      if k < n { EnteredBefore(events, n, k, id); }
    }
    if Entered(events[..n], id) {
      var k: nat :| EnteredAt(events[..n], k, id);
      EnteredBefore(events, n, k, id);
    }
  }

  /** A purchase is booked exactly if some step has entered it, */
  lemma {:induction false} BookedIffEntered(events: seq<Event>, id: string)
    ensures KeyUsed(Run(EMPTY, events).entries, SaleKey(id)) <==> Entered(events, id)
  {
    if events != [] {
      var n := |events| - 1;
      BookedIffEntered(events[..n], id);
      RunSound(EMPTY, events[..n]);
      EntersKey(Run(EMPTY, events[..n]), events[n], id);
      EnteredNext(events, n, id);
    }
  }

  /** and no two steps enter the same one. */
  lemma EnteredOnce(events: seq<Event>, i: nat, j: nat, id: string)
    requires EnteredAt(events, i, id) && EnteredAt(events, j, id)
    ensures i == j
  {
    if i != j {
      var first, later := if i < j then i else j, if i < j then j else i;
      EnteredBefore(events, later, first, id);
      BookedIffEntered(events[..later], id);
    }
  }

  // ---------------------------------------------------------------- the life of a purchase

  /** A purchase that waits for its payment is settled once; a paid one can only be dated anew. */
  function Paying(p: Purchase, e: Event, i: nat): Purchase
  {
    match e
    case Settle(j, at, success, _) =>
      if j == i && p.status == Pending then p.(status := if success then Paid else Failed, at := at) else p
    case MarkPaid(j, at) => if j == i && p.status == Paid then p.(at := at) else p
    case _ => p
  }

  /** The purchase after what has happened since it was bought. */
  function Life(p: Purchase, events: seq<Event>, i: nat): Purchase
  {
    if events == [] then p else Paying(Life(p, events[..|events| - 1], i), events[|events| - 1], i)
  }

  lemma StepPays(s: State, e: Event, i: nat)
    requires i < |s.purchases|
    ensures i < |Step(s, e).purchases| && Step(s, e).purchases[i] == Paying(s.purchases[i], e, i)
  {
  }

  lemma {:induction false} RunPays(s: State, events: seq<Event>, i: nat)
    requires i < |s.purchases|
    ensures i < |Run(s, events).purchases| && Run(s, events).purchases[i] == Life(s.purchases[i], events, i)
  {
    if events != [] {
      var n := |events| - 1;
      RunPays(s, events[..n], i);
      StepPays(Run(s, events[..n]), events[n], i);
    }
  }

  /** A purchase goes in as it was made, unless its id is taken, and from then on only its own settlement and
      the dates it is given change it. */
  lemma PurchaseLives(s: State, id: string, price: int, momo: bool, at: int, route: Route, events: seq<Event>)
    ensures var t := Step(s, Buy(id, price, momo, at, route)); var n := |s.purchases|;
            && t.entries == s.entries && t.runs == s.runs
            && (t == s <==> exists i :: 0 <= i < n && s.purchases[i].id == id)
            && (t != s ==>
                  && |t.purchases| == n + 1 && t.purchases[..n] == s.purchases
                  && n < |Run(t, events).purchases|
                  && Run(t, events).purchases[n]
                     == Life(Purchase(id, price, momo, at, route, if route == Charged then Pending else Paid), events, n))
  {
    var t := Step(s, Buy(id, price, momo, at, route));
    if t != s {
      RunPays(t, events, |s.purchases|);
    }
  }

  /** A backfill that was killed posts nothing more, until one is started again under that number. */
  lemma {:induction false} KilledForGood(s: State, run: nat, events: seq<Event>)
    requires Start(run) !in events
    ensures var t := Run(Step(s, Kill(run)), events);
            && run !in t.runs
            && Enters(t, PostNext(run)) == None && Step(t, PostNext(run)) == t
            && (forall lines: nat :: Step(t, Tear(run, lines)) == t)
  {
    if events != [] {
      var n := |events| - 1;
      assert events[n] in events && forall e | e in events[..n] :: e in events;
      KilledForGood(s, run, events[..n]);
    }
  }

  // ---------------------------------------------------------------- the command

  function PostAll(entries: seq<Entry>, sales: seq<Purchase>): seq<Entry>
  {
    if sales == [] then entries
    else PostTo(PostAll(entries, sales[..|sales| - 1]), SaleEntry(sales[|sales| - 1])).0
  }

  lemma {:induction false} PostAllPosts(entries: seq<Entry>, sales: seq<Purchase>)
    requires forall p <- sales :: Due(p)
    ensures entries <= PostAll(entries, sales)
    ensures forall p <- sales :: KeyUsed(PostAll(entries, sales), SaleKey(p.id))
  {
    if sales != [] {
      var n := |sales| - 1;
      var p := sales[n];
      assert p in sales && sales == sales[..n] + [p];
      PostAllPosts(entries, sales[..n]);
      SaleIsWellFormed(p);
      var before := PostAll(entries, sales[..n]);
      PostedIff(before, SaleEntry(p));
      var after := PostAll(entries, sales);
      assert KeyUsed(before, SaleKey(p.id)) || after[|before|].key == SaleKey(p.id);
      forall q <- sales ensures KeyUsed(after, SaleKey(q.id)) {
        if q in sales[..n] {
          UsedForGood(before, after, SaleKey(q.id));
        }
      }
    }
  }

  lemma {:induction false} PostAllAgain(entries: seq<Entry>, sales: seq<Purchase>)
    requires forall p <- sales :: KeyUsed(entries, SaleKey(p.id))
    ensures PostAll(entries, sales) == entries
  {
    if sales != [] {
      assert sales[|sales| - 1] in sales;
      PostAllAgain(entries, sales[..|sales| - 1]);
    }
  }

  /** The purchase's entry as accounting wants it: on the day of payment, cash received against package
      revenue. */
  predicate IsSaleOf(e: Entry, p: Purchase)
  {
    && Due(p) && e.date == p.at && e.key == SaleKey(p.id)
    && e.lines == [Line(CashAccount(p), p.price, 0), Line(Finance.PACKAGE_REVENUE, 0, p.price)]
  }

  predicate AllSalesOf(entries: seq<Entry>, sales: seq<Purchase>)
  {
    forall e <- entries :: exists p <- sales :: IsSaleOf(e, p)
  }

  lemma {:induction false} PostAllAdds(entries: seq<Entry>, sales: seq<Purchase>)
    requires forall p <- sales :: Due(p)
    ensures entries <= PostAll(entries, sales) && AllSalesOf(PostAll(entries, sales)[|entries|..], sales)
  {
    if sales != [] {
      var n := |sales| - 1;
      var p := sales[n];
      assert p in sales && sales == sales[..n] + [p];
      PostAllAdds(entries, sales[..n]);
      PostedWhole(PostAll(entries, sales[..n]), p);
      assert IsSaleOf(EntryFor(Entering(p, 2)), p) by {
        assert SaleLines(p)[..2] == SaleLines(p);
      }
      forall e <- PostAll(entries, sales)[|entries|..] ensures exists q <- sales :: IsSaleOf(e, q) {
        if e in PostAll(entries, sales[..n])[|entries|..] {
          var q :| q in sales[..n] && IsSaleOf(e, q);
          assert q in sales;
        } else {
          assert e == EntryFor(Entering(p, 2));
        }
      }
    }
  }

  /** An undisturbed run: every paid sale has an entry afterwards, what is new is dated and charged as the
      sale was, and running the command again would change nothing. */
  method BackfillAll(book: Book, purchases: seq<Purchase>) returns (posted: nat)
    modifies book
    ensures book.entries == PostAll(old(book.entries), Sales(purchases))
    ensures Covered(book.entries, purchases)
    ensures old(book.entries) <= book.entries && AllSalesOf(book.entries[|old(book.entries)|..], purchases)
    ensures PostAll(book.entries, Sales(purchases)) == book.entries
    ensures posted == |Sales(purchases)|
  {
    var sales: seq<Purchase> := [];
    for i := 0 to |purchases|
      invariant sales == Sales(purchases[..i])
      invariant book.entries == old(book.entries)
    {
      assert purchases[..i + 1][..i] == purchases[..i];
      if Due(purchases[i]) {
        sales := sales + [purchases[i]];
      }
    }
    assert purchases[..|purchases|] == purchases;
    posted := 0;
    for i := 0 to |sales|
      invariant book.entries == PostAll(old(book.entries), sales[..i])
      invariant posted == i
    {
      assert sales[..i + 1][..i] == sales[..i];
      var _ := book.Post(SaleEntry(sales[i]));
      posted := posted + 1;
    }
    assert sales[..|sales|] == sales;
    forall p ensures p in sales <==> p in purchases && Due(p) {
      SalesAre(purchases, p);
    }
    PostAllPosts(old(book.entries), sales);
    PostAllAdds(old(book.entries), sales);
    PostAllAgain(book.entries, sales);
  }
}
