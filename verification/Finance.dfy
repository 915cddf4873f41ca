/** The finance reports (internal/finance) and the revenue query (internal/ledger/ledger.go): sums over
    the journal, regrouped by account, by name and by type.

    A report's query is a function of the journal; the loops over its rows are methods. The chart of
    accounts is a parameter, and so is the order in which a query lists its groups. */
module Finance {

  import opened Journal
  import opened Options

  datatype Kind = Asset | Liability | Equity | Revenue | Expense

  datatype Account = Account(name: string, kind: Kind)

  type Chart = map<Code, Account>

  /** One posted line with the date of its entry. */
  datatype Posting = Posting(date: int, line: Line)

  datatype Window =
    | Closed(start: Option<int>, end: Option<int>)
    | HalfOpen(from: int, to: int)
  {
    predicate Has(date: int) {
      match this
      case Closed(s, e) => (s.Some? ==> date >= s.value) && (e.Some? ==> date <= e.value)
      case HalfOpen(f, t) => f <= date < t
    }
  }

  datatype Measure = Debit | Credit | Net

  function Amount(l: Line, m: Measure): int
  {
    match m
    case Debit => l.debit
    case Credit => l.credit
    case Net => l.debit - l.credit
  }

  /** A GROUP BY key: an account name, with or without the account's type. */
  datatype Group = Group(name: string, kind: Option<Kind>)

  predicate InGroup(a: Account, g: Group)
  {
    a.name == g.name && (g.kind.Some? ==> g.kind.value == a.kind)
  }

  predicate LineIn(l: Line, chart: Chart, g: Group)
  {
    l.account in chart && InGroup(chart[l.account], g)
  }

  // ---------------------------------------------------------------- sums

  function LinesAt(date: int, lines: seq<Line>): (ps: seq<Posting>)
  {
    if lines == [] then [] else LinesAt(date, lines[..|lines| - 1]) + [Posting(date, lines[|lines| - 1])]
  }

  /** The journal joined with its lines. */
  function Postings(entries: seq<Entry>): seq<Posting>
  {
    if entries == [] then []
    else
      var e := entries[|entries| - 1];
      Postings(entries[..|entries| - 1]) + LinesAt(e.date, e.lines)
  }

  function Total(ps: seq<Posting>, m: Measure, w: Window): int
  {
    if ps == [] then 0
    else
      var p := ps[|ps| - 1];
      Total(ps[..|ps| - 1], m, w) + if w.Has(p.date) then Amount(p.line, m) else 0
  }

  function GroupTotal(ps: seq<Posting>, chart: Chart, g: Group, m: Measure, w: Window): int
  {
    if ps == [] then 0
    else
      var p := ps[|ps| - 1];
      GroupTotal(ps[..|ps| - 1], chart, g, m, w) + if w.Has(p.date) && LineIn(p.line, chart, g) then Amount(p.line, m) else 0
  }

  function SumOfGroups(ps: seq<Posting>, chart: Chart, groups: seq<Group>, m: Measure, w: Window): int
  {
    if groups == [] then 0
    else SumOfGroups(ps, chart, groups[..|groups| - 1], m, w) + GroupTotal(ps, chart, groups[|groups| - 1], m, w)
  }

  // ---------------------------------------------------------------- sums exchanged

  /** How many of the groups an account falls into. */
  function Hits(a: Account, groups: seq<Group>): nat
  {
    if groups == [] then 0
    else Hits(a, groups[..|groups| - 1]) + if InGroup(a, groups[|groups| - 1]) then 1 else 0
  }

  /** The groups divide the chart. */
  ghost predicate Divides(groups: seq<Group>, chart: Chart)
  {
    forall c | c in chart :: Hits(chart[c], groups) == 1
  }

  ghost predicate Charted(ps: seq<Posting>, chart: Chart)
  {
    forall p <- ps :: p.line.account in chart
  }

  /** The groups of a chart, one for each of the accounts listed. */
  function GroupsFor(codes: seq<Code>, chart: Chart, byKind: bool): (groups: seq<Group>)
    requires forall c <- codes :: c in chart
    ensures |groups| == |codes|
    ensures byKind ==> forall g <- groups :: g.kind.Some?
  {
    if codes == [] then []
    else
      var c := codes[|codes| - 1];
      assert c in codes;
      GroupsFor(codes[..|codes| - 1], chart, byKind) + [Group(chart[c].name, if byKind then Some(chart[c].kind) else None)]
  }

  lemma HitsOfLast(a: Account, gs: seq<Group>, g: Group)
    ensures Hits(a, gs + [g]) == Hits(a, gs) + if InGroup(a, g) then 1 else 0
  {
    assert (gs + [g])[..|gs|] == gs;
  }

  lemma InPrefix(codes: seq<Code>, c: Code)
    requires codes != [] && forall i, j :: 0 <= i < j < |codes| ==> codes[i] != codes[j]
    ensures c in codes <==> c in codes[..|codes| - 1] || c == codes[|codes| - 1]
    ensures codes[|codes| - 1] !in codes[..|codes| - 1]
  {
  }

  lemma {:induction false} HitsOnce(codes: seq<Code>, chart: Chart, byKind: bool, c: Code)
    requires c in chart && forall d <- codes :: d in chart
    requires forall d | d in chart && chart[d].name == chart[c].name :: d == c
    requires forall i, j :: 0 <= i < j < |codes| ==> codes[i] != codes[j]
    ensures Hits(chart[c], GroupsFor(codes, chart, byKind)) == if c in codes then 1 else 0
  {
    if codes != [] {
      var n := |codes| - 1;
      var d := codes[n];
      assert d in codes;
      HitsOnce(codes[..n], chart, byKind, c);
      HitsOfLast(chart[c], GroupsFor(codes[..n], chart, byKind), Group(chart[d].name, if byKind then Some(chart[d].kind) else None));
      InPrefix(codes, c);
    }
  }

  /** As long as names are unique, as in the seeded chart, listing every account once divides it. */
  lemma UniqueNamesDivide(codes: seq<Code>, chart: Chart, byKind: bool)
    requires forall c :: c in codes <==> c in chart
    requires forall i, j :: 0 <= i < j < |codes| ==> codes[i] != codes[j]
    requires forall c, d | c in chart && d in chart && chart[c].name == chart[d].name :: c == d
    ensures Divides(GroupsFor(codes, chart, byKind), chart)
  {
    forall c | c in chart ensures Hits(chart[c], GroupsFor(codes, chart, byKind)) == 1 {
      HitsOnce(codes, chart, byKind, c);
    }
  }

  /** The key of an account in a GROUP BY. */
  function KeyOf(a: Account, byKind: bool): Group
  {
    Group(a.name, if byKind then Some(a.kind) else None)
  }

  /** What GROUP BY lists: keys of one form, no two alike. */
  ghost predicate DistinctKeys(groups: seq<Group>, byKind: bool)
  {
    && (forall g <- groups :: g.kind.Some? == byKind)
    && (forall i, j :: 0 <= i < j < |groups| ==> groups[i] != groups[j])
  }

  lemma {:induction false} HitsOfKeys(a: Account, groups: seq<Group>, byKind: bool)
    requires DistinctKeys(groups, byKind)
    ensures Hits(a, groups) == if KeyOf(a, byKind) in groups then 1 else 0
  {
    if groups != [] {
      var n := |groups| - 1;
      assert groups == groups[..n] + [groups[n]] && groups[n] in groups;
      assert forall g | g in groups[..n] :: g in groups && g != groups[n];
      HitsOfKeys(a, groups[..n], byKind);
      assert InGroup(a, groups[n]) <==> groups[n] == KeyOf(a, byKind);
    }
  }

  /** A list of distinct keys, with types or without, divides the chart exactly when it has the key of
      every account, however many accounts share a name. */
  lemma DistinctGroupsDivideIff(groups: seq<Group>, chart: Chart, byKind: bool)
    requires DistinctKeys(groups, byKind)
    ensures Divides(groups, chart) <==> forall c | c in chart :: KeyOf(chart[c], byKind) in groups
  {
    forall c | c in chart ensures Hits(chart[c], groups) == if KeyOf(chart[c], byKind) in groups then 1 else 0 {
      HitsOfKeys(chart[c], groups, byKind);
    }
  }

  lemma {:induction false} OneMorePosting(ps: seq<Posting>, chart: Chart, groups: seq<Group>, m: Measure, w: Window)
    requires ps != [] && ps[|ps| - 1].line.account in chart
    ensures var p := ps[|ps| - 1];
            SumOfGroups(ps, chart, groups, m, w)
            == SumOfGroups(ps[..|ps| - 1], chart, groups, m, w)
               + if w.Has(p.date) then Hits(chart[p.line.account], groups) * Amount(p.line, m) else 0
  {
    if groups != [] {
      var n := |groups| - 1;
      OneMorePosting(ps, chart, groups[..n], m, w);
      var p := ps[|ps| - 1];
      var h := Hits(chart[p.line.account], groups[..n]);
      assert (h + 1) * Amount(p.line, m) == h * Amount(p.line, m) + Amount(p.line, m);
    }
  }

  lemma {:induction false} NoPostings(chart: Chart, groups: seq<Group>, m: Measure, w: Window)
    ensures SumOfGroups([], chart, groups, m, w) == 0
  {
    if groups != [] {
      NoPostings(chart, groups[..|groups| - 1], m, w);
    }
  }

  /** Summed group by group or line by line, the total is the same. */
  lemma {:induction false} SumsExchange(ps: seq<Posting>, chart: Chart, groups: seq<Group>, m: Measure, w: Window)
    requires Divides(groups, chart) && Charted(ps, chart)
    ensures SumOfGroups(ps, chart, groups, m, w) == Total(ps, m, w)
  {
    if ps == [] {
      NoPostings(chart, groups, m, w);
    } else {
      var n := |ps| - 1;
      assert ps[n] in ps;
      SumsExchange(ps[..n], chart, groups, m, w);
      OneMorePosting(ps, chart, groups, m, w);
    }
  }

  lemma {:induction false} NetIsDifference(ps: seq<Posting>, w: Window)
    ensures Total(ps, Net, w) == Total(ps, Debit, w) - Total(ps, Credit, w)
  {
    if ps != [] {
      NetIsDifference(ps[..|ps| - 1], w);
    }
  }

  lemma {:induction false} TotalAppends(ps: seq<Posting>, qs: seq<Posting>, m: Measure, w: Window)
    ensures Total(ps + qs, m, w) == Total(ps, m, w) + Total(qs, m, w)
  {
    if qs == [] {
      assert ps + qs == ps;
    } else {
      var n := |qs| - 1;
      TotalAppends(ps, qs[..n], m, w);
      assert (ps + qs)[..|ps| + n] == ps + qs[..n];
    }
  }

  lemma {:induction false} TotalOfLines(date: int, lines: seq<Line>, w: Window)
    ensures Total(LinesAt(date, lines), Net, w) == if w.Has(date) then Debits(lines) - Credits(lines) else 0
  {
    if lines != [] {
      var n := |lines| - 1;
      TotalOfLines(date, lines[..n], w);
      assert LinesAt(date, lines)[..|LinesAt(date, lines)| - 1] == LinesAt(date, lines[..n]);
    }
  }

  /** In a journal of balanced entries debits equal credits in every window. */
  lemma {:induction false} BalancedInEveryWindow(entries: seq<Entry>, w: Window)
    requires forall e <- entries :: Debits(e.lines) == Credits(e.lines)
    ensures Total(Postings(entries), Net, w) == 0
  {
    if entries != [] {
      var n := |entries| - 1;
      var e := entries[n];
      assert e in entries;
      BalancedInEveryWindow(entries[..n], w);
      TotalOfLines(e.date, e.lines, w);
      TotalAppends(Postings(entries[..n]), LinesAt(e.date, e.lines), Net, w);
    }
  }

  // ---------------------------------------------------------------- the trial balance

  datatype TrialRow = TrialRow(name: string, debits: int, credits: int)

  /** The inner join yields a group only if it has a line in the window. */
  predicate HasLines(ps: seq<Posting>, chart: Chart, g: Group, w: Window)
  {
    exists i :: 0 <= i < |ps| && w.Has(ps[i].date) && LineIn(ps[i].line, chart, g)
  }

  function TrialRowsOf(ps: seq<Posting>, chart: Chart, names: seq<Group>, w: Window): seq<TrialRow>
  {
    if names == [] then []
    else
      var g := names[|names| - 1];
      TrialRowsOf(ps, chart, names[..|names| - 1], w)
      + if HasLines(ps, chart, g, w) then
          [TrialRow(g.name, GroupTotal(ps, chart, g, Debit, w), GroupTotal(ps, chart, g, Credit, w))]
        else []
  }

  function SumDebits(rows: seq<TrialRow>): int
  {
    if rows == [] then 0 else SumDebits(rows[..|rows| - 1]) + rows[|rows| - 1].debits
  }

  function SumCredits(rows: seq<TrialRow>): int
  {
    if rows == [] then 0 else SumCredits(rows[..|rows| - 1]) + rows[|rows| - 1].credits
  }

  datatype TrialBalance = TrialBalance(rows: seq<TrialRow>, totalDebit: int, totalCredit: int, balanced: bool)

  method GetTrialBalanceRows(result: seq<TrialRow>) returns (out: seq<TrialRow>, totalDebit: int, totalCredit: int)
    ensures out == result && totalDebit == SumDebits(result) && totalCredit == SumCredits(result)
  {
    out, totalDebit, totalCredit := [], 0, 0;
    for i := 0 to |result|
      invariant out == result[..i]
      invariant totalDebit == SumDebits(out) && totalCredit == SumCredits(out)
    {
      var row := result[i];
      totalDebit := totalDebit + row.debits;
      totalCredit := totalCredit + row.credits;
      assert (out + [row])[..i] == out;
      out := out + [row];
    }
  }

  method GetTrialBalance(ps: seq<Posting>, chart: Chart, names: seq<Group>, start: Option<int>, end: Option<int>)
    returns (tb: TrialBalance)
    requires Divides(names, chart) && Charted(ps, chart)
    ensures tb.rows == TrialRowsOf(ps, chart, names, Closed(start, end))
    ensures tb.totalDebit == Total(ps, Debit, Closed(start, end))
    ensures tb.totalCredit == Total(ps, Credit, Closed(start, end))
    ensures tb.balanced <==> Total(ps, Net, Closed(start, end)) == 0
  {
    var rows, totalDebit, totalCredit := GetTrialBalanceRows(TrialRowsOf(ps, chart, names, Closed(start, end)));
    tb := TrialBalance(rows, totalDebit, totalCredit, totalDebit == totalCredit);
    TrialTotals(ps, chart, names, Closed(start, end));
    SumsExchange(ps, chart, names, Debit, Closed(start, end));
    SumsExchange(ps, chart, names, Credit, Closed(start, end));
    NetIsDifference(ps, Closed(start, end));
  }

  lemma {:induction false} SilentGroup(ps: seq<Posting>, chart: Chart, g: Group, m: Measure, w: Window)
    requires !HasLines(ps, chart, g, w)
    ensures GroupTotal(ps, chart, g, m, w) == 0
  {
    if ps != [] {
      var n := |ps| - 1;
      assert !(w.Has(ps[n].date) && LineIn(ps[n].line, chart, g));
      assert forall i | 0 <= i < n :: ps[..n][i] == ps[i];
      SilentGroup(ps[..n], chart, g, m, w);
    }
  }

  /** The rows left out add nothing. */
  lemma {:induction false} TrialTotals(ps: seq<Posting>, chart: Chart, names: seq<Group>, w: Window)
    ensures SumDebits(TrialRowsOf(ps, chart, names, w)) == SumOfGroups(ps, chart, names, Debit, w)
    ensures SumCredits(TrialRowsOf(ps, chart, names, w)) == SumOfGroups(ps, chart, names, Credit, w)
  {
    if names != [] {
      var n := |names| - 1;
      var g := names[n];
      TrialTotals(ps, chart, names[..n], w);
      var rows := TrialRowsOf(ps, chart, names[..n], w);
      if HasLines(ps, chart, g, w) {
        var row := TrialRow(g.name, GroupTotal(ps, chart, g, Debit, w), GroupTotal(ps, chart, g, Credit, w));
        assert (rows + [row])[..|rows|] == rows;
      } else {
        SilentGroup(ps, chart, g, Debit, w);
        SilentGroup(ps, chart, g, Credit, w);
        assert rows + [] == rows;
      }
    }
  }

  lemma {:induction false} GroupIsListed(ps: seq<Posting>, chart: Chart, names: seq<Group>, w: Window, row: TrialRow)
    requires forall g <- names :: g.kind == None
    ensures row in TrialRowsOf(ps, chart, names, w) <==>
            var g := Group(row.name, None);
            && g in names && HasLines(ps, chart, g, w)
            && row.debits == GroupTotal(ps, chart, g, Debit, w) && row.credits == GroupTotal(ps, chart, g, Credit, w)
  {
    if names != [] {
      var n := |names| - 1;
      var g := names[n];
      assert g in names && names == names[..n] + [g] && g == Group(g.name, None);
      GroupIsListed(ps, chart, names[..n], w, row);
    }
  }

  /** Some line in the window is on an account of this name. */
  predicate Moves(ps: seq<Posting>, chart: Chart, name: string, w: Window)
  {
    exists i :: 0 <= i < |ps| && w.Has(ps[i].date) && ps[i].line.account in chart && chart[ps[i].line.account].name == name
  }

  lemma MovesIs(ps: seq<Posting>, chart: Chart, name: string, w: Window)
    ensures HasLines(ps, chart, Group(name, None), w) <==> Moves(ps, chart, name, w)
  {
    var g := Group(name, None);
    forall i | 0 <= i < |ps|
      ensures LineIn(ps[i].line, chart, g) <==> ps[i].line.account in chart && chart[ps[i].line.account].name == name
    {
    }
  }

  /** A row of the trial balance is an account name that has lines in the window, with its own debits and
      credits. */
  lemma TrialRowShows(ps: seq<Posting>, chart: Chart, names: seq<Group>, w: Window, row: TrialRow)
    requires DistinctKeys(names, false)
    ensures row in TrialRowsOf(ps, chart, names, w) <==>
            && Group(row.name, None) in names && Moves(ps, chart, row.name, w)
            && (row.debits, row.credits) == NameTotal(ps, chart, row.name, w)
  {
    GroupIsListed(ps, chart, names, w, row);
    NamesAreGroups(ps, chart, row.name, w);
    MovesIs(ps, chart, row.name, w);
  }

  /** The debits and the credits of the accounts of one name, line by line. */
  function NameTotal(ps: seq<Posting>, chart: Chart, name: string, w: Window): (int, int)
  {
    if ps == [] then (0, 0)
    else
      var p, earlier := ps[|ps| - 1], NameTotal(ps[..|ps| - 1], chart, name, w);
      if w.Has(p.date) && p.line.account in chart && chart[p.line.account].name == name
      then (earlier.0 + p.line.debit, earlier.1 + p.line.credit) else earlier
  }

  lemma {:induction false} NamesAreGroups(ps: seq<Posting>, chart: Chart, name: string, w: Window)
    ensures GroupTotal(ps, chart, Group(name, None), Debit, w) == NameTotal(ps, chart, name, w).0
    ensures GroupTotal(ps, chart, Group(name, None), Credit, w) == NameTotal(ps, chart, name, w).1
  {
    if ps != [] {
      NamesAreGroups(ps[..|ps| - 1], chart, name, w);
    }
  }

  /** Both ends of a reported period belong to it. */
  lemma {:induction false} ClosedIsHalfOpen(ps: seq<Posting>, m: Measure, start: int, end: int)
    ensures Total(ps, m, Closed(Some(start), Some(end))) == Total(ps, m, HalfOpen(start, end + 1))
  {
    if ps != [] {
      ClosedIsHalfOpen(ps[..|ps| - 1], m, start, end);
    }
  }

  /** And a balance as of one day with the movements after it makes the balance as of a later day. */
  lemma {:induction false} PeriodsAddUp(ps: seq<Posting>, m: Measure, asOf: int, later: int)
    requires asOf <= later
    ensures Total(ps, m, Closed(None, Some(later))) == Total(ps, m, Closed(None, Some(asOf))) + Total(ps, m, HalfOpen(asOf + 1, later + 1))
  {
    if ps != [] {
      PeriodsAddUp(ps[..|ps| - 1], m, asOf, later);
    }
  }

  // ---------------------------------------------------------------- the balance sheet

  datatype Balance = Balance(name: string, kind: Kind, balance: int)

  /** Groups with their type, those without net movement dropped. */
  function BalancesOf(ps: seq<Posting>, chart: Chart, groups: seq<Group>, w: Window): seq<Balance>
    requires forall g <- groups :: g.kind.Some?
  {
    if groups == [] then []
    else
      var g := groups[|groups| - 1];
      var b := GroupTotal(ps, chart, g, Net, w);
      assert g in groups;
      BalancesOf(ps, chart, groups[..|groups| - 1], w) + if b != 0 then [Balance(g.name, g.kind.value, b)] else []
  }

  function SumOfKind(bs: seq<Balance>, kinds: set<Kind>): int
  {
    if bs == [] then 0
    else
      var b := bs[|bs| - 1];
      SumOfKind(bs[..|bs| - 1], kinds) + if b.kind in kinds then b.balance else 0
  }

  datatype Section = Section(account: string, balance: int)

  function SumOfSections(s: seq<Section>): int
  {
    if s == [] then 0 else SumOfSections(s[..|s| - 1]) + s[|s| - 1].balance
  }

  datatype BalanceSheet = BalanceSheet(assets: seq<Section>, totalAssets: int,
                                       liabilities: seq<Section>, totalLiabilities: int,
                                       equity: seq<Section>, totalEquity: int)

  /** Every total is the sum of the lines shown above it. */
  predicate Adds(b: BalanceSheet)
  {
    && SumOfSections(b.assets) == b.totalAssets
    && SumOfSections(b.liabilities) == b.totalLiabilities
    && SumOfSections(b.equity) == b.totalEquity
  }

  /** The lines of one section, debits shown as they are or credits as positive. */
  function Sections(bs: seq<Balance>, kind: Kind, sign: int): seq<Section>
  {
    if bs == [] then []
    else
      var b := bs[|bs| - 1];
      Sections(bs[..|bs| - 1], kind, sign) + if b.kind == kind then [Section(b.name, sign * b.balance)] else []
  }

  lemma {:induction false} SectionsSum(bs: seq<Balance>, kind: Kind, sign: int)
    ensures SumOfSections(Sections(bs, kind, sign)) == sign * SumOfKind(bs, {kind})
  {
    if bs != [] {
      var n := |bs| - 1;
      SectionsSum(bs[..n], kind, sign);
      if bs[n].kind == kind {
        Extend(Sections(bs[..n], kind, sign), bs[n].name, sign * bs[n].balance);
        assert sign * (SumOfKind(bs[..n], {kind}) + bs[n].balance) == sign * SumOfKind(bs[..n], {kind}) + sign * bs[n].balance;
      } else {
        assert Sections(bs[..n], kind, sign) + [] == Sections(bs[..n], kind, sign);
      }
    }
  }

  method GetBalanceSheet(balances: seq<Balance>) returns (sheet: BalanceSheet)
    ensures Adds(sheet)
    ensures sheet.totalAssets == SumOfKind(balances, {Asset})
    ensures sheet.totalLiabilities == -SumOfKind(balances, {Liability})
    ensures sheet.totalEquity == -SumOfKind(balances, {Equity}) - SumOfKind(balances, {Revenue, Expense})
    ensures sheet.assets == Sections(balances, Asset, 1)
    ensures sheet.liabilities == Sections(balances, Liability, -1)
    ensures sheet.equity == Sections(balances, Equity, -1) + [Section("Retained Earnings", -SumOfKind(balances, {Revenue, Expense}))]
  {
    var assets: seq<Section>, liabilities: seq<Section>, equity: seq<Section> := [], [], [];
    var totalAssets, totalLiabilities, totalEquity, retainedEarnings := 0, 0, 0, 0;
    for i := 0 to |balances|
      invariant assets == Sections(balances[..i], Asset, 1) && totalAssets == SumOfKind(balances[..i], {Asset})
      invariant liabilities == Sections(balances[..i], Liability, -1) && totalLiabilities == -SumOfKind(balances[..i], {Liability})
      invariant equity == Sections(balances[..i], Equity, -1) && totalEquity == -SumOfKind(balances[..i], {Equity})
      invariant retainedEarnings == -SumOfKind(balances[..i], {Revenue, Expense})
    {
      var b := balances[i];
      assert balances[..i + 1][..i] == balances[..i];
      match b.kind {
        case Asset =>
          assets := assets + [Section(b.name, b.balance)];
          totalAssets := totalAssets + b.balance;
        case Liability =>
          liabilities := liabilities + [Section(b.name, -b.balance)];
          totalLiabilities := totalLiabilities + -b.balance;
        case Equity =>
          equity := equity + [Section(b.name, -b.balance)];
          totalEquity := totalEquity + -b.balance;
        case _ =>
          retainedEarnings := retainedEarnings + -b.balance;
      }
    }
    assert balances[..|balances|] == balances;
    SectionsSum(balances, Asset, 1);
    SectionsSum(balances, Liability, -1);
    SectionsSum(balances, Equity, -1);
    Extend(equity, "Retained Earnings", retainedEarnings);
    equity := equity + [Section("Retained Earnings", retainedEarnings)];
    totalEquity := totalEquity + retainedEarnings;
    sheet := BalanceSheet(assets, totalAssets, liabilities, totalLiabilities, equity, totalEquity);
  }

  lemma Extend(s: seq<Section>, account: string, balance: int)
    ensures SumOfSections(s + [Section(account, balance)]) == SumOfSections(s) + balance
  {
    assert (s + [Section(account, balance)])[..|s|] == s;
  }

  /** Assets less liabilities less equity, as a balance sheet signs them. */
  function Gap(bs: seq<Balance>): int
  {
    SumOfKind(bs, {Asset}) + SumOfKind(bs, {Liability}) + SumOfKind(bs, {Equity}) + SumOfKind(bs, {Revenue, Expense})
  }

  lemma GapOfLast(bs: seq<Balance>, b: Balance)
    ensures Gap(bs + [b]) == Gap(bs) + b.balance
  {
    assert (bs + [b])[..|bs|] == bs;
    match b.kind
    case Asset => assert b.kind in {Asset};
    case Liability => assert b.kind in {Liability};
    case Equity => assert b.kind in {Equity};
    case _ => assert b.kind in {Revenue, Expense};
  }

  lemma {:induction false} KindsAddUp(ps: seq<Posting>, chart: Chart, groups: seq<Group>, w: Window)
    requires forall g <- groups :: g.kind.Some?
    ensures Gap(BalancesOf(ps, chart, groups, w)) == SumOfGroups(ps, chart, groups, Net, w)
  {
    if groups != [] {
      var n := |groups| - 1;
      var g := groups[n];
      assert g in groups;
      KindsAddUp(ps, chart, groups[..n], w);
      var bs, b := BalancesOf(ps, chart, groups[..n], w), GroupTotal(ps, chart, g, Net, w);
      if b != 0 {
        GapOfLast(bs, Balance(g.name, g.kind.value, b));
      } else {
        assert bs + [] == bs;
      }
    }
  }

  /** What the lines of the journal that fall on accounts of these kinds come to. */
  function KindNet(ps: seq<Posting>, chart: Chart, kinds: set<Kind>, w: Window): int
  {
    if ps == [] then 0
    else
      var p := ps[|ps| - 1];
      KindNet(ps[..|ps| - 1], chart, kinds, w)
      + if w.Has(p.date) && p.line.account in chart && chart[p.line.account].kind in kinds then p.line.debit - p.line.credit else 0
  }

  /** The groups of these kinds. */
  function OfKinds(groups: seq<Group>, kinds: set<Kind>): (r: seq<Group>)
    requires forall g <- groups :: g.kind.Some?
  {
    if groups == [] then []
    else
      var g := groups[|groups| - 1];
      assert g in groups;
      OfKinds(groups[..|groups| - 1], kinds) + if g.kind.value in kinds then [g] else []
  }

  lemma {:induction false} HitsOfKinds(a: Account, groups: seq<Group>, kinds: set<Kind>)
    requires forall g <- groups :: g.kind.Some?
    ensures Hits(a, OfKinds(groups, kinds)) == if a.kind in kinds then Hits(a, groups) else 0
  {
    if groups != [] {
      var n := |groups| - 1;
      var g := groups[n];
      assert g in groups;
      HitsOfKinds(a, groups[..n], kinds);
      HitsOfLast(a, OfKinds(groups[..n], kinds), g);
      assert OfKinds(groups[..n], kinds) + [] == OfKinds(groups[..n], kinds);
    }
  }

  lemma KindOfLast(bs: seq<Balance>, b: Balance, kinds: set<Kind>)
    ensures SumOfKind(bs + [b], kinds) == SumOfKind(bs, kinds) + if b.kind in kinds then b.balance else 0
  {
    assert (bs + [b])[..|bs|] == bs;
  }

  lemma GroupsOfLast(ps: seq<Posting>, chart: Chart, gs: seq<Group>, g: Group, w: Window)
    ensures SumOfGroups(ps, chart, gs + [g], Net, w) == SumOfGroups(ps, chart, gs, Net, w) + GroupTotal(ps, chart, g, Net, w)
  {
    assert (gs + [g])[..|gs|] == gs;
  }

  lemma {:induction false} KindsAreGroups(ps: seq<Posting>, chart: Chart, groups: seq<Group>, kinds: set<Kind>, w: Window)
    requires forall g <- groups :: g.kind.Some?
    ensures SumOfKind(BalancesOf(ps, chart, groups, w), kinds) == SumOfGroups(ps, chart, OfKinds(groups, kinds), Net, w)
  {
    if groups != [] {
      var n := |groups| - 1;
      var g := groups[n];
      assert g in groups;
      KindsAreGroups(ps, chart, groups[..n], kinds, w);
      var bs, gs := BalancesOf(ps, chart, groups[..n], w), OfKinds(groups[..n], kinds);
      var b := Balance(g.name, g.kind.value, GroupTotal(ps, chart, g, Net, w));
      assert BalancesOf(ps, chart, groups, w) == if b.balance != 0 then bs + [b] else bs;
      assert OfKinds(groups, kinds) == if b.kind in kinds then gs + [g] else gs;
      KindOfLast(bs, b, kinds);
      GroupsOfLast(ps, chart, gs, g, w);
    }
  }

  lemma {:induction false} GroupsAreKinds(ps: seq<Posting>, chart: Chart, groups: seq<Group>, kinds: set<Kind>, w: Window)
    requires (forall g <- groups :: g.kind.Some?) && Divides(groups, chart) && Charted(ps, chart)
    ensures SumOfGroups(ps, chart, OfKinds(groups, kinds), Net, w) == KindNet(ps, chart, kinds, w)
  {
    if ps == [] {
      NoPostings(chart, OfKinds(groups, kinds), Net, w);
    } else {
      var n := |ps| - 1;
      assert ps[n] in ps;
      GroupsAreKinds(ps[..n], chart, groups, kinds, w);
      OneMorePosting(ps, chart, OfKinds(groups, kinds), Net, w);
      HitsOfKinds(chart[ps[n].line.account], groups, kinds);
    }
  }

  /** Each type of account is credited with its own lines and no others: the balances listed under some
      types add up to the lines posted to accounts of those types. */
  lemma KindsAreTheirLines(ps: seq<Posting>, chart: Chart, groups: seq<Group>, kinds: set<Kind>, w: Window)
    requires (forall g <- groups :: g.kind.Some?) && Divides(groups, chart) && Charted(ps, chart)
    ensures SumOfKind(BalancesOf(ps, chart, groups, w), kinds) == KindNet(ps, chart, kinds, w)
  {
    KindsAreGroups(ps, chart, groups, kinds, w);
    GroupsAreKinds(ps, chart, groups, kinds, w);
  }

  /** A section shows the accounts of its type that have moved, each under its name with its own lines. */
  lemma {:induction false} SectionShows(ps: seq<Posting>, chart: Chart, groups: seq<Group>, w: Window, kind: Kind, sign: int,
                                        name: string, balance: int)
    requires forall g <- groups :: g.kind.Some?
    ensures Section(name, balance) in Sections(BalancesOf(ps, chart, groups, w), kind, sign) <==>
            && Group(name, Some(kind)) in groups
            && GroupTotal(ps, chart, Group(name, Some(kind)), Net, w) != 0
            && balance == sign * GroupTotal(ps, chart, Group(name, Some(kind)), Net, w)
  {
    if groups != [] {
      var n := |groups| - 1;
      var g := groups[n];
      assert g in groups && groups == groups[..n] + [g];
      SectionShows(ps, chart, groups[..n], w, kind, sign, name, balance);
      var bs, b := BalancesOf(ps, chart, groups[..n], w), GroupTotal(ps, chart, g, Net, w);
      if b != 0 {
        SectionsOfLast(bs, Balance(g.name, g.kind.value, b), kind, sign);
      } else {
        assert bs + [] == bs;
      }
      assert g == Group(g.name, Some(g.kind.value));
    }
  }

  lemma SectionsOfLast(bs: seq<Balance>, b: Balance, kind: Kind, sign: int)
    ensures Sections(bs + [b], kind, sign)
            == Sections(bs, kind, sign) + if b.kind == kind then [Section(b.name, sign * b.balance)] else []
  {
    assert (bs + [b])[..|bs|] == bs;
  }

  lemma FourKinds(ps: seq<Posting>, chart: Chart, groups: seq<Group>, w: Window)
    requires (forall g <- groups :: g.kind.Some?) && Divides(groups, chart) && Charted(ps, chart)
    ensures SumOfKind(BalancesOf(ps, chart, groups, w), {Asset}) == KindNet(ps, chart, {Asset}, w)
    ensures SumOfKind(BalancesOf(ps, chart, groups, w), {Liability}) == KindNet(ps, chart, {Liability}, w)
    ensures SumOfKind(BalancesOf(ps, chart, groups, w), {Equity}) == KindNet(ps, chart, {Equity}, w)
    ensures SumOfKind(BalancesOf(ps, chart, groups, w), {Revenue, Expense}) == KindNet(ps, chart, {Revenue, Expense}, w)
    ensures Gap(BalancesOf(ps, chart, groups, w)) == Total(ps, Net, w)
  {
    KindsAreTheirLines(ps, chart, groups, {Asset}, w);
    KindsAreTheirLines(ps, chart, groups, {Liability}, w);
    KindsAreTheirLines(ps, chart, groups, {Equity}, w);
    KindsAreTheirLines(ps, chart, groups, {Revenue, Expense}, w);
    KindsAddUp(ps, chart, groups, w);
    SumsExchange(ps, chart, groups, Net, w);
  }

  /** The query and the loop together, over a journal of any kind, sound or tampered with: each total is
      the sum of the lines posted to accounts of its type, revenue and expense going to retained earnings,
      and the sheet is off by exactly what the trial balance up to the same date is off by. */
  method BalanceSheetAsOf(ps: seq<Posting>, chart: Chart, groups: seq<Group>, asOf: Option<int>) returns (sheet: BalanceSheet)
    requires forall g <- groups :: g.kind.Some?
    requires Divides(groups, chart) && Charted(ps, chart)
    ensures Adds(sheet)
    ensures sheet.totalAssets == KindNet(ps, chart, {Asset}, Closed(None, asOf))
    ensures sheet.totalLiabilities == -KindNet(ps, chart, {Liability}, Closed(None, asOf))
    ensures sheet.totalEquity
            == -KindNet(ps, chart, {Equity}, Closed(None, asOf)) - KindNet(ps, chart, {Revenue, Expense}, Closed(None, asOf))
    ensures sheet.assets == Sections(BalancesOf(ps, chart, groups, Closed(None, asOf)), Asset, 1)
    ensures sheet.liabilities == Sections(BalancesOf(ps, chart, groups, Closed(None, asOf)), Liability, -1)
    ensures sheet.equity == Sections(BalancesOf(ps, chart, groups, Closed(None, asOf)), Equity, -1)
                            + [Section("Retained Earnings", -KindNet(ps, chart, {Revenue, Expense}, Closed(None, asOf)))]
    ensures sheet.totalAssets - (sheet.totalLiabilities + sheet.totalEquity) == Total(ps, Net, Closed(None, asOf))
  {
    var balances := BalancesOf(ps, chart, groups, Closed(None, asOf));
    sheet := GetBalanceSheet(balances);
    FourKinds(ps, chart, groups, Closed(None, asOf));
  }

  /** In every journal that whole postings can produce, in whatever order entries were tried and retried,
      debits equal credits in every window: the trial balance balances. */
  lemma TrialBalanceBalances(attempts: seq<Entry>, chart: Chart, names: seq<Group>, w: Window)
    requires Divides(names, chart) && Charted(Postings(Run(attempts)), chart)
    ensures var rows := TrialRowsOf(Postings(Run(attempts)), chart, names, w); SumDebits(rows) == SumCredits(rows)
  {
    var ps := Postings(Run(attempts));
    RunIsSound(attempts);
    BalancedInEveryWindow(Run(attempts), w);
    TrialTotals(ps, chart, names, w);
    SumsExchange(ps, chart, names, Debit, w);
    SumsExchange(ps, chart, names, Credit, w);
    NetIsDifference(ps, w);
  }

  /** And total assets equal total liabilities plus total equity as of every date. */
  lemma BalanceSheetBalances(attempts: seq<Entry>, chart: Chart, groups: seq<Group>, asOf: Option<int>)
    requires forall g <- groups :: g.kind.Some?
    requires Divides(groups, chart) && Charted(Postings(Run(attempts)), chart)
    ensures var bs := BalancesOf(Postings(Run(attempts)), chart, groups, Closed(None, asOf));
            SumOfKind(bs, {Asset}) == -SumOfKind(bs, {Liability}) + (-SumOfKind(bs, {Equity}) - SumOfKind(bs, {Revenue, Expense}))
    ensures var ps, w := Postings(Run(attempts)), Closed(None, asOf);
            KindNet(ps, chart, {Asset}, w)
            == -KindNet(ps, chart, {Liability}, w) - KindNet(ps, chart, {Equity}, w) - KindNet(ps, chart, {Revenue, Expense}, w)
  {
    var ps := Postings(Run(attempts));
    RunIsSound(attempts);
    BalancedInEveryWindow(Run(attempts), Closed(None, asOf));
    FourKinds(ps, chart, groups, Closed(None, asOf));
  }

  // ---------------------------------------------------------------- revenue

  const PACKAGE_REVENUE: Code := 4000
  const COMMISSION_REVENUE: Code := 4100

  predicate IsRevenue(l: Line, chart: Chart)
  {
    l.account in chart && chart[l.account].kind == Revenue
  }

  /** Credits less debits of the revenue accounts, or of one of them. */
  function RevenueIn(ps: seq<Posting>, chart: Chart, only: Option<Code>, w: Window): int
  {
    if ps == [] then 0
    else
      var p := ps[|ps| - 1];
      RevenueIn(ps[..|ps| - 1], chart, only, w)
      + if w.Has(p.date) && IsRevenue(p.line, chart) && (only.Some? ==> p.line.account == only.value) then -Amount(p.line, Net) else 0
  }

  /** The revenue query and the balance sheet count the same lines. */
  lemma {:induction false} RevenueIsKindNet(ps: seq<Posting>, chart: Chart, w: Window)
    ensures RevenueIn(ps, chart, None, w) == -KindNet(ps, chart, {Revenue}, w)
  {
    if ps != [] {
      RevenueIsKindNet(ps[..|ps| - 1], chart, w);
    }
  }

  /** Consecutive windows share no posting and miss none. */
  lemma {:induction false} RevenueAddsUp(ps: seq<Posting>, chart: Chart, only: Option<Code>, from: int, mid: int, to: int)
    requires from <= mid <= to
    ensures RevenueIn(ps, chart, only, HalfOpen(from, to))
            == RevenueIn(ps, chart, only, HalfOpen(from, mid)) + RevenueIn(ps, chart, only, HalfOpen(mid, to))
  {
    if ps != [] {
      RevenueAddsUp(ps[..|ps| - 1], chart, only, from, mid, to);
    }
  }

  /** The seeded chart has two revenue accounts, so the total is the two parts reported beside it. */
  lemma {:induction false} RevenueIsItsParts(ps: seq<Posting>, chart: Chart, w: Window)
    requires forall c | c in chart && chart[c].kind == Revenue :: c == PACKAGE_REVENUE || c == COMMISSION_REVENUE
    ensures RevenueIn(ps, chart, None, w)
            == RevenueIn(ps, chart, Some(PACKAGE_REVENUE), w) + RevenueIn(ps, chart, Some(COMMISSION_REVENUE), w)
  {
    if ps != [] {
      RevenueIsItsParts(ps[..|ps| - 1], chart, w);
    }
  }
}
