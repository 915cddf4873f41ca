/** Dashboard alerts (internal/dashboard/service.go): the newest rows of two tables merged, sorted
    newest first in place, and cut to the limit. */
module Alerts {
  import opened StableSort

  datatype Kind = Incident | Ticket

  datatype Alert = Alert(id: string, kind: Kind, tone: string, title: string, detail: string, occurredAt: int)

  /** The filter's kind: "" (both), one kind, or a word the program does not know. */
  datatype KindFilter = Both | Only(kind: Kind) | Unknown

  /** A query ordered newest first with a LIMIT, or its failure. */
  datatype Query = Rows(rows: seq<Alert>) | Failed

  datatype Outcome = Listed(alerts: seq<Alert>) | Error

  /** Sort key: later times come first. */
  function Age(a: Alert): real { -(a.occurredAt as real) }

  function EffectiveLimit(limit: int): (n: nat)
    ensures 1 <= n <= 100
  {
    if limit <= 0 || limit > 100 then 10 else limit
  }

  function Min(a: nat, b: nat): nat { if a <= b then a else b }

  predicate Wants(f: KindFilter, k: Kind) { f == Both || f == Only(k) }

  /** r is a newest-first selection of n of the rows in `table`: all of them if there are fewer,
      and nothing newer than a selected row is left out. Ties may be resolved either way. */
  ghost predicate Selection(r: seq<Alert>, table: multiset<Alert>, n: nat)
  {
    && multiset(r) <= table
    && |r| == Min(n, |table|)
    && Ordered(r, Age)
    && forall x, y :: x in r && multiset(r)[y] < table[y] ==> y.occurredAt <= x.occurredAt
  }

  /** The rows a query contributes. */
  function Asked(f: KindFilter, k: Kind, q: Query): seq<Alert>
  {
    if Wants(f, k) && q.Rows? then q.rows else []
  }

  function Newest(n: nat, all: seq<Alert>): seq<Alert>
  {
    Sort(all, Age)[..Min(n, |all|)]
  }

  /** The program: append what the queries returned, insertion-sort the slice, truncate. A failed
      ticket query returns what has been appended so far. */
  method ListAlerts(limit: int, f: KindFilter, incidents: Query, tickets: Query) returns (r: Outcome)
    ensures r == (if Wants(f, Incident) && incidents.Failed? then Error
                  else if Wants(f, Ticket) && tickets.Failed? then Listed(Asked(f, Incident, incidents))
                  else Listed(Newest(EffectiveLimit(limit), Asked(f, Incident, incidents) + Asked(f, Ticket, tickets))))
  {
    var n := EffectiveLimit(limit);
    var out: seq<Alert> := [];
    if Wants(f, Incident) {
      if incidents.Failed? {
        return Error;
      }
      out := out + incidents.rows;
    }
    if Wants(f, Ticket) {
      if tickets.Failed? {
        return Listed(out);
      }
      out := out + tickets.rows;
    }
    assert out == Asked(f, Incident, incidents) + Asked(f, Ticket, tickets);
    out := SortAndCut(out, n);
    r := Listed(out);
  }

  /** Sorts the merged slice in place and truncates it. */
  method SortAndCut(out: seq<Alert>, n: nat) returns (r: seq<Alert>)
    ensures r == Newest(n, out)
  {
    var a := new Alert[|out|](i requires 0 <= i < |out| => out[i]);
    assert a[..] == out;
    InsertionSort(a, Age);
    r := a[..];
    if |r| > n {
      r := r[..n];
    } else {
      assert r == r[..|out|];
    }
  }

  // ---------------------------------------------------------------- the merge selects the newest

  lemma SubmultisetSize<T>(a: multiset<T>, b: multiset<T>)
    requires a <= b
    ensures |a| <= |b|
    ensures forall y :: a[y] < b[y] ==> |a| < |b|
  {
    assert b == a + (b - a);
    forall y | a[y] < b[y] ensures |a| < |b| {
      assert y in b - a;
    }
  }

  /** Rows newer than position p of the sorted merge all lie before p. */
  lemma NewerLieBefore(q: seq<Alert>, s: seq<Alert>, p: nat, at: int)
    requires multiset(q) <= multiset(s) && Ordered(s, Age) && p < |s|
    requires s[p].occurredAt < at && forall x <- q :: at <= x.occurredAt
    ensures |q| <= p
  {
    assert forall i | p <= i < |s| :: Age(s[p]) <= Age(s[i]);
    assert s == s[..p] + s[p..];
    forall e | e in q ensures multiset(q)[e] <= multiset(s[..p])[e] {
      assert e !in s[p..];
      assert multiset(s)[e] == multiset(s[..p])[e] + multiset(s[p..])[e];
    }
    SubmultisetSize(multiset(q), multiset(s[..p]));
  }

  /** A row a query left out is no newer than any of the first n of the sorted merge: the n rows
      the query did return are all in there and at least as new. */
  lemma LeftOut(q: seq<Alert>, t: multiset<Alert>, s: seq<Alert>, n: nat, p: nat, y: Alert)
    requires Selection(q, t, n) && multiset(q)[y] < t[y]
    requires multiset(q) <= multiset(s) && Ordered(s, Age) && p < Min(n, |s|)
    ensures y.occurredAt <= s[p].occurredAt
  {
    SubmultisetSize(multiset(q), t);
    assert |multiset(q)| == |q| == n;
    if s[p].occurredAt < y.occurredAt {
      NewerLieBefore(q, s, p, y.occurredAt);
    }
  }

  lemma CutIsOlder(s: seq<Alert>, k: nat, x: Alert, y: Alert)
    requires Ordered(s, Age) && k <= |s| && x in s[..k] && y in s[k..]
    ensures y.occurredAt <= x.occurredAt
  {
    var i :| 0 <= i < k && s[i] == x;
    var j :| 0 <= j < |s[k..]| && s[k..][j] == y;
    assert Age(s[i]) <= Age(s[k + j]);
  }

  lemma CutKeepsCount(s: seq<Alert>, k: nat, y: Alert)
    requires k <= |s| && y !in s[k..]
    ensures multiset(s)[y] == multiset(s[..k])[y]
  {
    assert s == s[..k] + s[k..];
  }

  lemma MergedLeftOut(q1: seq<Alert>, t1: multiset<Alert>, q2: seq<Alert>, t2: multiset<Alert>, s: seq<Alert>, n: nat,
                      k: nat, x: Alert, y: Alert)
    requires Selection(q1, t1, n) && Selection(q2, t2, n)
    requires Ordered(s, Age) && multiset(s) == multiset(q1) + multiset(q2) && k == Min(n, |s|)
    requires x in s[..k] && multiset(s[..k])[y] < t1[y] + t2[y]
    ensures y.occurredAt <= x.occurredAt
  {
    if y in s[k..] {
      CutIsOlder(s, k, x, y);
    } else {
      CutKeepsCount(s, k, y);
      var p :| 0 <= p < k && s[p] == x;
      if multiset(q1)[y] < t1[y] {
        LeftOut(q1, t1, s, n, p, y);
      } else {
        assert multiset(q2)[y] < t2[y];
        LeftOut(q2, t2, s, n, p, y);
      }
    }
  }

  lemma MergedFits(q1: seq<Alert>, t1: multiset<Alert>, q2: seq<Alert>, t2: multiset<Alert>, s: seq<Alert>, n: nat)
    requires multiset(q1) <= t1 && |q1| == Min(n, |t1|)
    requires multiset(q2) <= t2 && |q2| == Min(n, |t2|)
    requires multiset(s) == multiset(q1) + multiset(q2)
    ensures |s| == |q1| + |q2|
    ensures Min(n, |s|) == Min(n, |t1 + t2|)
    ensures multiset(s[..Min(n, |s|)]) <= t1 + t2
  {
    assert |multiset(s)| == |s| && |multiset(q1)| == |q1| && |multiset(q2)| == |q2|;
    var k := Min(n, |s|);
    assert s == s[..k] + s[k..];
    assert multiset(s[..k]) <= multiset(s) <= t1 + t2;
  }

  /** Cutting the sorted merge of two selections to n selects the newest n of both tables. */
  lemma MergeSelects(q1: seq<Alert>, t1: multiset<Alert>, q2: seq<Alert>, t2: multiset<Alert>, s: seq<Alert>, n: nat)
    requires Selection(q1, t1, n) && Selection(q2, t2, n)
    requires Ordered(s, Age) && multiset(s) == multiset(q1) + multiset(q2)
    ensures Selection(s[..Min(n, |s|)], t1 + t2, n)
  {
    MergedFits(q1, t1, q2, t2, s, n);
    var k := Min(n, |s|);
    forall x, y | x in s[..k] && multiset(s[..k])[y] < (t1 + t2)[y] ensures y.occurredAt <= x.occurredAt {
      MergedLeftOut(q1, t1, q2, t2, s, n, k, x, y);
    }
  }

  /** What the console receives when no query fails: the newest `limit` alerts of the full tables
      the filter asks for, newest first; ten if the limit is not between 1 and 100. */
  lemma AlertsAreTheNewest(limit: int, n: nat, f: KindFilter, incs: seq<Alert>, incTable: multiset<Alert>,
                           ticks: seq<Alert>, tickTable: multiset<Alert>)
    requires n == if 1 <= limit <= 100 then limit else 10
    requires Selection(incs, incTable, n) && Selection(ticks, tickTable, n)
    ensures var table := (if f == Both || f == Only(Incident) then incTable else multiset{})
                         + (if f == Both || f == Only(Ticket) then tickTable else multiset{});
            Selection(Newest(EffectiveLimit(limit), Asked(f, Incident, Rows(incs)) + Asked(f, Ticket, Rows(ticks))), table, n)
  {
    var q1, t1 := Asked(f, Incident, Rows(incs)), if Wants(f, Incident) then incTable else multiset{};
    var q2, t2 := Asked(f, Ticket, Rows(ticks)), if Wants(f, Ticket) then tickTable else multiset{};
    SortOrders(q1 + q2, Age);
    MergeSelects(q1, t1, q2, t2, Sort(q1 + q2, Age), n);
  }
}
