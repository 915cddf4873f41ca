/** The finance reports over the journals the program really leaves: postings outside a transaction can be
    cut off after an entry's first line. */
module Reports {

  import opened Backfill
  import opened Finance
  import opened Journal
  import opened Options

  // ---------------------------------------------------------------- what the reports are off by

  /** An entry cut off between its two lines. */
  predicate Half(e: Entry)
  {
    |e.lines| == 1
  }

  /** The first-line debits of the half entries in the window. */
  function Stray(entries: seq<Entry>, w: Window): int
  {
    if entries == [] then 0
    else
      var e := entries[|entries| - 1];
      Stray(entries[..|entries| - 1], w) + StrayOf(e, w)
  }

  function StrayOf(e: Entry, w: Window): int
  {
    if w.Has(e.date) && Half(e) then e.lines[0].debit else 0
  }

  predicate NoneHalf(entries: seq<Entry>, w: Window)
  {
    forall e <- entries :: !(w.Has(e.date) && Half(e))
  }

  /** Whole, without lines, or with the debit alone. */
  predicate SaleShaped(e: Entry)
  {
    && Debits(e.lines) - Credits(e.lines) == (if Half(e) then e.lines[0].debit else 0)
    && (Half(e) ==> e.lines[0].debit > 0)
  }

  lemma SaleIsShaped(e: Entry, p: Purchase)
    requires EntryOf(e, p)
    ensures SaleShaped(e)
  {
    var ls := SaleLines(p);
    SaleIsWellFormed(p);
    assert ls[..1] == [ls[0]] && [ls[0]][..0] == [];
    assert Debits([ls[0]]) == Debits([]) + p.price && Credits([ls[0]]) == Credits([]) + 0;
  }

  lemma NoneHalfOfLast(init: seq<Entry>, e: Entry, w: Window)
    ensures NoneHalf(init + [e], w) <==> NoneHalf(init, w) && !(w.Has(e.date) && Half(e))
  {
    assert e in init + [e];
  }

  lemma StrayOfLast(init: seq<Entry>, e: Entry, w: Window)
    ensures Stray(init + [e], w) == Stray(init, w) + StrayOf(e, w)
  {
    assert (init + [e])[..|init|] == init;
  }

  /** What one entry adds to the net of a window. */
  predicate EntryNets(e: Entry, w: Window)
  {
    && Total(LinesAt(e.date, e.lines), Net, w) == StrayOf(e, w)
    && StrayOf(e, w) >= 0 && (StrayOf(e, w) == 0 <==> !(w.Has(e.date) && Half(e)))
  }

  predicate Nets(entries: seq<Entry>, w: Window)
  {
    && Total(Postings(entries), Net, w) == Stray(entries, w)
    && Stray(entries, w) >= 0 && (Stray(entries, w) == 0 <==> NoneHalf(entries, w))
  }

  lemma EntryNet(s: Backfill.State, i: nat, w: Window)
    requires Backfill.Sound(s) && i < |s.entries|
    ensures EntryNets(s.entries[i], w)
  {
    var e := s.entries[i];
    assert e in s.entries;
    var k :| 0 <= k < |s.purchases| && EntryOf(e, s.purchases[k]);
    SaleIsShaped(e, s.purchases[k]);
    TotalOfLines(e.date, e.lines, w);
  }

  lemma NetOfLast(init: seq<Entry>, e: Entry, w: Window)
    ensures Total(Postings(init + [e]), Net, w) == Total(Postings(init), Net, w) + Total(LinesAt(e.date, e.lines), Net, w)
  {
    assert (init + [e])[..|init|] == init;
    TotalAppends(Postings(init), LinesAt(e.date, e.lines), Net, w);
  }

  lemma OneMoreNets(init: seq<Entry>, e: Entry, w: Window)
    requires Nets(init, w) && EntryNets(e, w)
    ensures Nets(init + [e], w)
  {
    NetOfLast(init, e, w);
    StrayOfLast(init, e, w);
    NoneHalfOfLast(init, e, w);
  }

  lemma NextNets(s: Backfill.State, n: nat, w: Window)
    requires Backfill.Sound(s) && n < |s.entries| && Nets(s.entries[..n], w)
    ensures Nets(s.entries[..n + 1], w)
  {
    EntryNet(s, n, w);
    OneMoreNets(s.entries[..n], s.entries[n], w);
    assert s.entries[..n + 1] == s.entries[..n] + [s.entries[n]];
  }

  lemma NoneNets(w: Window)
    ensures Nets([], w)
  {
  }

  lemma {:induction false} NetIsStray(s: Backfill.State, n: nat, w: Window)
    requires Backfill.Sound(s) && n <= |s.entries|
    ensures Nets(s.entries[..n], w)
  {
    if n == 0 {
      NoneNets(w);
      assert s.entries[..0] == [];
    } else {
      NetIsStray(s, n - 1, w);
      NextNets(s, n - 1, w);
    }
  }

  /** In every run and every window debits exceed credits by the debits of the half entries, and so they
      are equal exactly when there is none in the window. */
  lemma NetOfRun(events: seq<Event>, w: Window)
    ensures var entries := Backfill.Run(Backfill.EMPTY, events).entries;
            && Total(Postings(entries), Net, w) == Stray(entries, w) >= 0
            && (Total(Postings(entries), Net, w) == 0 <==> NoneHalf(entries, w))
  {
    var s := Backfill.Run(Backfill.EMPTY, events);
    Backfill.RunSound(Backfill.EMPTY, events);
    NetIsStray(s, |s.entries|, w);
    assert s.entries[..|s.entries|] == s.entries;
  }

  // ---------------------------------------------------------------- the two reports

  /** The three accounts that sales are posted to. */
  ghost predicate HasSaleAccounts(chart: Chart)
  {
    CASH_MOMO in chart && CASH_MANUAL in chart && PACKAGE_REVENUE in chart
  }

  predicate OnSaleAccount(l: Line)
  {
    l.account == CASH_MOMO || l.account == CASH_MANUAL || l.account == PACKAGE_REVENUE
  }

  lemma {:induction false} LinesAreCharted(date: int, lines: seq<Line>, chart: Chart)
    requires HasSaleAccounts(chart) && forall l <- lines :: OnSaleAccount(l)
    ensures Charted(LinesAt(date, lines), chart)
  {
    if lines != [] {
      var n := |lines| - 1;
      assert lines[n] in lines && forall l | l in lines[..n] :: l in lines;
      LinesAreCharted(date, lines[..n], chart);
    }
  }

  lemma {:induction false} PostingsAreCharted(entries: seq<Entry>, chart: Chart)
    requires HasSaleAccounts(chart) && forall e <- entries :: forall l <- e.lines :: OnSaleAccount(l)
    ensures Charted(Postings(entries), chart)
  {
    if entries != [] {
      var n := |entries| - 1;
      assert entries[n] in entries && forall e | e in entries[..n] :: e in entries;
      PostingsAreCharted(entries[..n], chart);
      LinesAreCharted(entries[n].date, entries[n].lines, chart);
    }
  }

  lemma RunIsCharted(events: seq<Event>, chart: Chart)
    requires HasSaleAccounts(chart)
    ensures Charted(Postings(Backfill.Run(Backfill.EMPTY, events).entries), chart)
  {
    Backfill.RunSound(Backfill.EMPTY, events);
    var s := Backfill.Run(Backfill.EMPTY, events);
    forall e <- s.entries ensures forall l <- e.lines :: OnSaleAccount(l) {
      var i :| 0 <= i < |s.purchases| && EntryOf(e, s.purchases[i]);
      assert forall l <- SaleLines(s.purchases[i]) :: OnSaleAccount(l);
      assert forall l <- SaleLines(s.purchases[i])[..1] :: l in SaleLines(s.purchases[i]);
    }
    PostingsAreCharted(s.entries, chart);
  }

  /** In every run, for every chart with the sales accounts, the trial balance of a window is off by the
      debits of the half entries in it, and balances exactly if there is none. */
  lemma TrialBalanceBalancesIff(events: seq<Event>, chart: Chart, names: seq<Group>, w: Window)
    requires HasSaleAccounts(chart) && Divides(names, chart)
    ensures var entries := Backfill.Run(Backfill.EMPTY, events).entries;
            var rows := TrialRowsOf(Postings(entries), chart, names, w);
            && SumDebits(rows) - SumCredits(rows) == Stray(entries, w)
            && (SumDebits(rows) == SumCredits(rows) <==> NoneHalf(entries, w))
  {
    var ps := Postings(Backfill.Run(Backfill.EMPTY, events).entries);
    RunIsCharted(events, chart);
    NetOfRun(events, w);
    TrialTotals(ps, chart, names, w);
    SumsExchange(ps, chart, names, Debit, w);
    SumsExchange(ps, chart, names, Credit, w);
    NetIsDifference(ps, w);
  }

  /** And the balance sheet as of a date is off by those up to the date. */
  lemma BalanceSheetBalancesIff(events: seq<Event>, chart: Chart, groups: seq<Group>, asOf: Option<int>)
    requires HasSaleAccounts(chart) && Divides(groups, chart) && forall g <- groups :: g.kind.Some?
    ensures var entries := Backfill.Run(Backfill.EMPTY, events).entries;
            var bs := BalancesOf(Postings(entries), chart, groups, Closed(None, asOf));
            var equity := -SumOfKind(bs, {Equity}) - SumOfKind(bs, {Revenue, Expense});
            && SumOfKind(bs, {Asset}) - (-SumOfKind(bs, {Liability}) + equity) == Stray(entries, Closed(None, asOf))
            && (SumOfKind(bs, {Asset}) == -SumOfKind(bs, {Liability}) + equity <==> NoneHalf(entries, Closed(None, asOf)))
  {
    var ps := Postings(Backfill.Run(Backfill.EMPTY, events).entries);
    RunIsCharted(events, chart);
    NetOfRun(events, Closed(None, asOf));
    KindsAddUp(ps, chart, groups, Closed(None, asOf));
    SumsExchange(ps, chart, groups, Net, Closed(None, asOf));
  }

  // ---------------------------------------------------------------- it stays

  lemma StrayNext(s: Backfill.State, n: nat, w: Window)
    requires Backfill.Sound(s) && n < |s.entries|
    ensures Stray(s.entries[..n], w) <= Stray(s.entries[..n + 1], w)
  {
    EntryNet(s, n, w);
    StrayOfLast(s.entries[..n], s.entries[n], w);
    assert s.entries[..n + 1] == s.entries[..n] + [s.entries[n]];
  }

  lemma {:induction false} StrayGrows(s: Backfill.State, n: nat, m: nat, w: Window)
    requires Backfill.Sound(s) && n <= m <= |s.entries|
    ensures Stray(s.entries[..n], w) <= Stray(s.entries[..m], w)
    decreases m
  {
    if n < m {
      StrayGrows(s, n, m - 1, w);
      StrayNext(s, m - 1, w);
    }
  }

  lemma {:induction false} RunOnlyAppends(s: Backfill.State, events: seq<Event>)
    ensures s.entries <= Backfill.Run(s, events).entries
  {
    if events != [] {
      var n := |events| - 1;
      RunOnlyAppends(s, events[..n]);
      EntriesOnlyGrow(Backfill.Run(s, events[..n]), events[n]);
    }
  }

  /** What the reports are off by is never made up for, whatever is posted afterwards. */
  lemma OffForGood(s: Backfill.State, events: seq<Event>, w: Window)
    requires Backfill.Sound(s)
    ensures Stray(s.entries, w) <= Stray(Backfill.Run(s, events).entries, w)
  {
    var t := Backfill.Run(s, events);
    Backfill.RunSound(s, events);
    RunOnlyAppends(s, events);
    StrayGrows(t, |s.entries|, |t.entries|, w);
    assert t.entries[..|s.entries|] == s.entries && t.entries[..|t.entries|] == t.entries;
  }

  /** A run that unbalances the books: an admin records a purchase, and its posting is cut off after the
      first line. */
  function CutOff(id: string, price: int): seq<Event>
  {
    [Buy(id, price, false, 0, Recorded), TearLive(0, 1)]
  }

  lemma CutOffUnbalances(id: string, price: int)
    requires price > 0
    ensures var entries := Backfill.Run(Backfill.EMPTY, CutOff(id, price)).entries;
            Total(Postings(entries), Net, ALL_TIME) == Stray(entries, ALL_TIME) == price
  {
    var p := Purchase(id, price, false, 0, Recorded, Paid);
    RunOfTwo(CutOff(id, price)[0], CutOff(id, price)[1]);
    var s := Backfill.Step(Backfill.EMPTY, CutOff(id, price)[0]);
    assert s == Backfill.State([p], [], map[]);
    var ls := SaleLines(p);
    assert ls[..1] == [ls[0]];
    var e := Entry(0, SaleKey(id), [ls[0]]);
    assert Backfill.Step(s, CutOff(id, price)[1]).entries == [] + [e] == [e];
    assert [e][..0] == [];
    NetOfRun(CutOff(id, price), ALL_TIME);
  }
}
