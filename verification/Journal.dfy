/** The general ledger (internal/ledger/ledger.go): an append-only journal of balanced entries, posted
    at most once per idempotency key. */
module Journal {

  import opened Options

  /** Account codes are numbers; zero stands for the empty code. */
  type Code = nat

  datatype Line = Line(account: Code, debit: int, credit: int)

  datatype Entry = Entry(date: int, key: string, lines: seq<Line>)

  datatype Refusal = TooFewLines | NoKey | NoAccount | NotOneSided | NegativeAmount | Unbalanced

  datatype Outcome = Posted | AlreadyPosted | Refused(why: Refusal)

  // ---------------------------------------------------------------- validation

  function LineFault(l: Line): Option<Refusal>
  {
    if l.account == 0 then Some(NoAccount)
    else if (l.debit == 0) == (l.credit == 0) then Some(NotOneSided)
    else if l.debit < 0 || l.credit < 0 then Some(NegativeAmount)
    else None
  }

  /** The fault of the first faulty line. */
  function FirstFault(lines: seq<Line>): Option<Refusal>
  {
    if lines == [] then None
    else
      var earlier := FirstFault(lines[..|lines| - 1]);
      if earlier.Some? then earlier else LineFault(lines[|lines| - 1])
  }

  function Debits(lines: seq<Line>): int
  {
    if lines == [] then 0 else Debits(lines[..|lines| - 1]) + lines[|lines| - 1].debit
  }

  function Credits(lines: seq<Line>): int
  {
    if lines == [] then 0 else Credits(lines[..|lines| - 1]) + lines[|lines| - 1].credit
  }

  function Check(e: Entry): Option<Refusal>
  {
    if |e.lines| < 2 then Some(TooFewLines)
    else if e.key == "" then Some(NoKey)
    else if FirstFault(e.lines).Some? then FirstFault(e.lines)
    else if Debits(e.lines) != Credits(e.lines) then Some(Unbalanced)
    else None
  }

  /** A debit or a credit of a positive amount on a named account. */
  predicate Leg(l: Line)
  {
    l.account != 0 && ((l.debit > 0 && l.credit == 0) || (l.debit == 0 && l.credit > 0))
  }

  /** A record of one economic event. */
  predicate WellFormed(e: Entry)
  {
    |e.lines| >= 2 && e.key != "" && (forall l <- e.lines :: Leg(l)) && Debits(e.lines) == Credits(e.lines)
  }

  lemma LineFaultIff(l: Line)
    ensures LineFault(l) == None <==> Leg(l)
  {
  }

  predicate AllLegs(lines: seq<Line>)
  {
    forall l <- lines :: Leg(l)
  }

  lemma LegsOfLast(init: seq<Line>, l: Line)
    ensures AllLegs(init + [l]) <==> AllLegs(init) && Leg(l)
  {
    assert l in init + [l] && forall x | x in init :: x in init + [l];
  }

  lemma {:induction false} NoFaultIff(lines: seq<Line>)
    ensures FirstFault(lines) == None <==> AllLegs(lines)
  {
    if lines != [] {
      var n := |lines| - 1;
      NoFaultIff(lines[..n]);
      LineFaultIff(lines[n]);
      LegsOfLast(lines[..n], lines[n]);
      assert lines == lines[..n] + [lines[n]];
    }
  }

  /** Exactly the well-formed entries pass. */
  lemma CheckIff(e: Entry)
    ensures Check(e) == None <==> WellFormed(e)
  {
    NoFaultIff(e.lines);
  }

  /** Line i is the first that is no leg. */
  ghost predicate FirstBad(lines: seq<Line>, i: nat)
  {
    i < |lines| && !Leg(lines[i]) && forall j :: 0 <= j < i ==> Leg(lines[j])
  }

  lemma {:induction false} FaultIsOfFirstBad(lines: seq<Line>, i: nat)
    requires FirstBad(lines, i)
    ensures FirstFault(lines) == LineFault(lines[i])
  {
    var n := |lines| - 1;
    if i < n {
      FaultIsOfFirstBad(lines[..n], i);
    } else {
      NoFaultIff(lines[..n]);
    }
  }

  /** What a refusal complains of: the number of lines, then the key, then the first bad line, and the
      balance only if the lines are all right. */
  lemma RefusalIs(e: Entry, i: nat)
    ensures Check(e) == Some(TooFewLines) <==> |e.lines| < 2
    ensures Check(e) == Some(NoKey) <==> |e.lines| >= 2 && e.key == ""
    ensures |e.lines| >= 2 && e.key != "" && FirstBad(e.lines, i) ==>
              var l := e.lines[i];
              && (Check(e) == Some(NoAccount) <==> l.account == 0)
              && (Check(e) == Some(NotOneSided) <==>
                    l.account != 0 && ((l.debit == 0 && l.credit == 0) || (l.debit != 0 && l.credit != 0)))
              && (Check(e) == Some(NegativeAmount) <==>
                    l.account != 0 && ((l.debit == 0 && l.credit < 0) || (l.debit < 0 && l.credit == 0)))
    ensures Check(e) == Some(Unbalanced) <==>
              |e.lines| >= 2 && e.key != "" && (forall l <- e.lines :: Leg(l)) && Debits(e.lines) != Credits(e.lines)
  {
    NoFaultIff(e.lines);
    FaultsOfLines(e.lines);
    if FirstBad(e.lines, i) {
      FaultIsOfFirstBad(e.lines, i);
    }
  }

  lemma {:induction false} FaultsOfLines(lines: seq<Line>)
    ensures FirstFault(lines).Some? ==> FirstFault(lines).value in {NoAccount, NotOneSided, NegativeAmount}
  {
    if lines != [] {
      FaultsOfLines(lines[..|lines| - 1]);
    }
  }

  // ---------------------------------------------------------------- posting

  predicate KeyUsed(entries: seq<Entry>, key: string)
  {
    exists i :: 0 <= i < |entries| && entries[i].key == key
  }

  function PostTo(entries: seq<Entry>, e: Entry): (seq<Entry>, Outcome)
  {
    if Check(e).Some? then (entries, Refused(Check(e).value))
    else if KeyUsed(entries, e.key) then (entries, AlreadyPosted)
    else (entries + [e], Posted)
  }

  class Book {
    var entries: seq<Entry>

    constructor ()
      ensures entries == []
    {
      entries := [];
    }

    method Post(e: Entry) returns (outcome: Outcome)
      modifies this
      ensures (entries, outcome) == PostTo(old(entries), e)
    {
      if |e.lines| < 2 {
        return Refused(TooFewLines);
      }
      if e.key == "" {
        return Refused(NoKey);
      }
      var totalDebit, totalCredit := 0, 0;
      for i := 0 to |e.lines|
        invariant totalDebit == Debits(e.lines[..i]) && totalCredit == Credits(e.lines[..i])
        invariant FirstFault(e.lines[..i]) == None
        invariant entries == old(entries)
      {
        var l := e.lines[i];
        assert e.lines[..i + 1][..i] == e.lines[..i];
        FaultIsFirst(e.lines, i + 1);
        if l.account == 0 {
          return Refused(NoAccount);
        }
        if (l.debit == 0) == (l.credit == 0) {
          return Refused(NotOneSided);
        }
        if l.debit < 0 || l.credit < 0 {
          return Refused(NegativeAmount);
        }
        totalDebit := totalDebit + l.debit;
        totalCredit := totalCredit + l.credit;
      }
      assert e.lines[..|e.lines|] == e.lines;
      if totalDebit != totalCredit {
        return Refused(Unbalanced);
      }
      if KeyUsed(entries, e.key) {
        return AlreadyPosted;
      }
      entries := entries + [e];
      return Posted;
    }
  }

  lemma {:induction false} FaultIsFirst(lines: seq<Line>, n: nat)
    requires n <= |lines|
    ensures FirstFault(lines[..n]).Some? ==> FirstFault(lines) == FirstFault(lines[..n])
    decreases |lines|
  {
    if n == |lines| {
      assert lines[..n] == lines;
    } else {
      var m := |lines| - 1;
      FaultIsFirst(lines[..m], n);
      assert lines[..m][..n] == lines[..n];
    }
  }

  // ---------------------------------------------------------------- every journal

  /** Only well-formed entries, no key twice. */
  ghost predicate Sound(entries: seq<Entry>)
  {
    && (forall i :: 0 <= i < |entries| ==> WellFormed(entries[i]))
    && (forall i, j :: 0 <= i < j < |entries| ==> entries[i].key != entries[j].key)
  }

  /** The journal after a series of attempts to post, each carried out whole: in a transaction, or not cut
      off between its statements. */
  function Run(attempts: seq<Entry>): seq<Entry>
  {
    if attempts == [] then [] else PostTo(Run(attempts[..|attempts| - 1]), attempts[|attempts| - 1]).0
  }

  lemma {:induction false} RunIsSound(attempts: seq<Entry>)
    ensures Sound(Run(attempts))
  {
    if attempts != [] {
      var n := |attempts| - 1;
      RunIsSound(attempts[..n]);
      CheckIff(attempts[n]);
    }
  }

  /** Nothing posted is ever changed or lost. */
  lemma {:induction false} RunOnlyAppends(attempts: seq<Entry>, n: nat)
    requires n <= |attempts|
    ensures Run(attempts[..n]) <= Run(attempts)
    decreases |attempts|
  {
    if n == |attempts| {
      assert attempts[..n] == attempts;
    } else {
      var m := |attempts| - 1;
      RunOnlyAppends(attempts[..m], n);
      assert attempts[..m][..n] == attempts[..n];
    }
  }

  /** Retries are harmless: wherever in a run an attempt repeats a key already posted, even with other
      lines, the journal is the one without that attempt. */
  lemma {:induction false} RetryChangesNothing(before: seq<Entry>, e: Entry, after: seq<Entry>)
    requires KeyUsed(Run(before), e.key)
    ensures Run(before + [e] + after) == Run(before + after)
  {
    if after == [] {
      assert before + [e] + [] == before + [e] && before + [] == before && (before + [e])[..|before|] == before;
    } else {
      var n := |after| - 1;
      RetryChangesNothing(before, e, after[..n]);
      assert (before + [e] + after)[..|before| + 1 + n] == before + [e] + after[..n];
      assert (before + after)[..|before| + n] == before + after[..n];
    }
  }

  /** And an entry is posted exactly when it is well-formed and its key new. */
  lemma PostedIff(entries: seq<Entry>, e: Entry)
    ensures PostTo(entries, e).1 == Posted <==> WellFormed(e) && !KeyUsed(entries, e.key)
    ensures PostTo(entries, e).1 == Posted ==> PostTo(entries, e).0 == entries + [e]
    ensures PostTo(entries, e).1 != Posted ==> PostTo(entries, e).0 == entries
  {
    CheckIff(e);
  }
}
