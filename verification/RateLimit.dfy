/** The rate limiters (internal/middleware/ratelimit.go): a counter per key, incremented by a script
    that sets the key's expiry when the counter is new, and compared with a maximum. */
module RateLimit {

  import opened Options

  type Key = nat

  type Positive = n: nat | n > 0 witness 1

  /** An expired counter may still be in the table; it is as good as none. */
  datatype Counter = Counter(count: Positive, expires: int)

  /** `window` is the counter's time to live, `max` the number of requests admitted in it. */
  datatype Limit = Limit(max: nat, window: nat)

  predicate Live(c: Option<Counter>, now: int)
  {
    c.Some? && now < c.value.expires
  }

  /** INCR, and EXPIRE if the result is one. */
  function Increment(l: Limit, c: Option<Counter>, now: int): Counter
  {
    if Live(c, now) then Counter(c.value.count + 1, c.value.expires) else Counter(1, now + l.window)
  }

  // ---------------------------------------------------------------- one key

  /** The counter after requests at these times. */
  function After(l: Limit, c: Option<Counter>, times: seq<int>): Option<Counter>
    decreases |times|
  {
    if times == [] then c else After(l, Some(Increment(l, c, times[0])), times[1..])
  }

  /** How many of them are admitted. */
  function Admitted(l: Limit, c: Option<Counter>, times: seq<int>): nat
    decreases |times|
  {
    if times == [] then 0
    else
      var next := Increment(l, c, times[0]);
      (if next.count <= l.max then 1 else 0) + Admitted(l, Some(next), times[1..])
  }

  ghost predicate InOrder(times: seq<int>)
  {
    forall i, j :: 0 <= i < j < |times| ==> times[i] <= times[j]
  }

  ghost predicate Within(times: seq<int>, from: int, to: int)
  {
    forall t <- times :: from <= t < to
  }

  /** What a live counter still lets through. */
  function Room(l: Limit, c: Option<Counter>, now: int): nat
  {
    if Live(c, now) && c.value.count < l.max then l.max - c.value.count else 0
  }

  /** When the next window can start. */
  function NextStart(c: Option<Counter>, now: int): int
  {
    if Live(c, now) then c.value.expires else now
  }

  /** k times n, by addition. */
  function Times(k: nat, n: nat): nat
  {
    if k == 0 then 0 else n + Times(k - 1, n)
  }

  lemma {:induction false} TimesIsProduct(k: nat, n: nat)
    ensures Times(k, n) == k * n
  {
    if k > 0 {
      TimesIsProduct(k - 1, n);
    }
  }

  lemma {:induction false} TimesZero(k: nat)
    ensures Times(k, 0) == 0
  {
    if k > 0 {
      TimesZero(k - 1);
    }
  }

  lemma {:induction false} AdmittedAtMost(l: Limit, c: Option<Counter>, now: int, times: seq<int>, to: int, k: nat)
    requires InOrder(times) && Within(times, now, to)
    requires to <= NextStart(c, now) + Times(k, l.window)
    ensures Admitted(l, c, times) <= Room(l, c, now) + Times(k, l.max)
    decreases |times|
  {
    if times != [] {
      var t, rest := times[0], times[1..];
      var next := Increment(l, c, t);
      assert t in times && forall x | x in rest :: x in times;
      assert Within(rest, t, to) && InOrder(rest);
      if Live(c, t) {
        AdmittedAtMost(l, Some(next), t, rest, to, k);
      } else {
        assert k > 0;
        TimesZero(k);
        AdmittedAtMost(l, Some(next), t, rest, to, k - 1);
      }
    }
  }

  /** From the moment a key is created until it expires, no more than `max` requests get through. */
  lemma LifeAdmitsAtMost(l: Limit, c: Option<Counter>, times: seq<int>)
    requires times != [] && !Live(c, times[0]) && InOrder(times)
    requires Within(times, times[0], times[0] + l.window)
    ensures Admitted(l, c, times) <= l.max
  {
    assert Times(1, l.window) == l.window + Times(0, l.window) && Times(1, l.max) == l.max + Times(0, l.max);
    AdmittedAtMost(l, c, times[0], times, times[0] + l.window, 1);
  }

  /** Whatever came before, any stretch as long as k windows lets through fewer than (k + 1) * max
      requests, and no more than k * max if no counter is live as it starts. */
  lemma WindowsAdmitAtMost(l: Limit, before: seq<int>, inside: seq<int>, from: int, k: nat)
    requires InOrder(inside) && Within(inside, from, from + k * l.window)
    requires l.max > 0
    ensures Admitted(l, After(l, None, before), inside) < (k + 1) * l.max
    ensures !Live(After(l, None, before), from) ==> Admitted(l, After(l, None, before), inside) <= k * l.max
  {
    var c := After(l, None, before);
    TimesIsProduct(k, l.window);
    TimesIsProduct(k, l.max);
    AdmittedAtMost(l, c, from, inside, from + k * l.window, k);
    assert (k + 1) * l.max == k * l.max + l.max;
  }

  // ---------------------------------------------------------------- the bound is met

  function Repeat(t: int, n: nat): (r: seq<int>)
    ensures |r| == n && forall i :: 0 <= i < n ==> r[i] == t
  {
    if n == 0 then [] else [t] + Repeat(t, n - 1)
  }

  lemma {:induction false} RepeatAdmits(l: Limit, c: Counter, t: int, n: nat)
    requires t < c.expires && c.count + n <= l.max
    ensures Admitted(l, Some(c), Repeat(t, n)) == n
    ensures After(l, Some(c), Repeat(t, n)) == Some(Counter(c.count + n, c.expires))
    decreases n
  {
    if n > 0 {
      assert Repeat(t, n)[0] == t && Repeat(t, n)[1..] == Repeat(t, n - 1);
      RepeatAdmits(l, Counter(c.count + 1, c.expires), t, n - 1);
    }
  }

  lemma BurstAdmits(l: Limit, c: Option<Counter>, t: int)
    requires !Live(c, t) && l.max > 0 && l.window > 0
    ensures Admitted(l, c, Repeat(t, l.max)) == l.max
    ensures After(l, c, Repeat(t, l.max)) == Some(Counter(l.max, t + l.window))
  {
    assert Repeat(t, l.max)[0] == t && Repeat(t, l.max)[1..] == Repeat(t, l.max - 1);
    RepeatAdmits(l, Counter(1, t + l.window), t, l.max - 1);
  }

  lemma {:induction false} Splits(l: Limit, c: Option<Counter>, a: seq<int>, b: seq<int>)
    ensures Admitted(l, c, a + b) == Admitted(l, c, a) + Admitted(l, After(l, c, a), b)
    ensures After(l, c, a + b) == After(l, After(l, c, a), b)
    decreases |a|
  {
    if a == [] {
      assert a + b == b;
    } else {
      assert (a + b)[1..] == a[1..] + b;
      Splits(l, Some(Increment(l, c, a[0])), a[1..], b);
    }
  }

  /** A burst of `max` requests as each of the first k windows after time zero runs out. */
  function Bursts(l: Limit, k: nat): seq<int>
  {
    if k == 0 then [] else Bursts(l, k - 1) + Repeat(k * l.window, l.max)
  }

  lemma {:induction false} BurstsAdmit(l: Limit, k: nat)
    requires l.max > 0 && l.window > 0
    ensures Admitted(l, Some(Counter(l.max, l.window)), Bursts(l, k)) == k * l.max
    ensures After(l, Some(Counter(l.max, l.window)), Bursts(l, k)) == Some(Counter(l.max, (k + 1) * l.window))
  {
    if k > 0 {
      var c := Some(Counter(l.max, l.window));
      BurstsAdmit(l, k - 1);
      Splits(l, c, Bursts(l, k - 1), Repeat(k * l.window, l.max));
      BurstAdmits(l, After(l, c, Bursts(l, k - 1)), k * l.window);
      assert k * l.max == (k - 1) * l.max + l.max && (k + 1) * l.window == k * l.window + l.window;
    }
  }

  lemma OneAfterTheOther(a: seq<int>, b: seq<int>, from: int, mid: int, to: int)
    requires InOrder(a) && InOrder(b) && Within(a, from, mid + 1) && Within(b, mid, to) && from <= mid < to
    ensures InOrder(a + b) && Within(a + b, from, to)
  {
    var s := a + b;
    assert forall i | 0 <= i < |s| :: s[i] == if i < |a| then a[i] else b[i - |a|];
    assert forall i | 0 <= i < |a| :: a[i] in a;
    assert forall i | 0 <= i < |b| :: b[i] in b;
  }

  lemma {:induction false} BurstsAreInOrder(l: Limit, k: nat)
    requires k > 0
    ensures InOrder(Bursts(l, k)) && Within(Bursts(l, k), l.window, k * l.window + 1)
  {
    if k > 1 {
      BurstsAreInOrder(l, k - 1);
      assert k * l.window == (k - 1) * l.window + l.window;
      assert (k - 1) * l.window >= l.window;
      OneAfterTheOther(Bursts(l, k - 1), Repeat(k * l.window, l.max), l.window, k * l.window, k * l.window + 1);
    }
  }

  /** The bound cannot be lowered: one request at time zero, the rest of that window's allowance just
      before it ends, and a burst as each further window begins put (k + 1) * max - 1 admitted
      requests into a stretch of k windows. */
  lemma BoundIsMet(l: Limit, k: nat)
    requires l.max > 0 && l.window > 1 && k > 0
    ensures var inside := Repeat(l.window - 1, l.max - 1) + Bursts(l, k);
            InOrder(inside) && Within(inside, l.window - 1, l.window - 1 + k * l.window)
    ensures var inside := Repeat(l.window - 1, l.max - 1) + Bursts(l, k);
            Admitted(l, After(l, None, [0]), inside) == (k + 1) * l.max - 1
  {
    var a := Repeat(l.window - 1, l.max - 1);
    BurstsAreInOrder(l, k);
    assert k * l.window >= l.window by { assert k * l.window == (k - 1) * l.window + l.window; }
    OneAfterTheOther(a, Bursts(l, k), l.window - 1, l.window - 1, l.window - 1 + k * l.window);
    BoundAdmits(l, k);
  }

  lemma BoundAdmits(l: Limit, k: nat)
    requires l.max > 0 && l.window > 1
    ensures Admitted(l, After(l, None, [0]), Repeat(l.window - 1, l.max - 1) + Bursts(l, k)) == (k + 1) * l.max - 1
  {
    assert [0][1..] == [];
    var c := Some(Counter(1, l.window));
    assert After(l, None, [0]) == After(l, c, []) == c;
    RepeatAdmits(l, Counter(1, l.window), l.window - 1, l.max - 1);
    Splits(l, c, Repeat(l.window - 1, l.max - 1), Bursts(l, k));
    BurstsAdmit(l, k);
    assert (k + 1) * l.max == k * l.max + l.max;
  }

  // ---------------------------------------------------------------- the table

  datatype Request = Request(key: Key, at: int)

  function Stored(table: map<Key, Counter>, k: Key): Option<Counter>
  {
    if k in table then Some(table[k]) else None
  }

  /** The shared table, with one limiter in front of it. */
  class Limiter {
    const limit: Limit
    var table: map<Key, Counter>

    constructor (limit: Limit)
      ensures this.limit == limit && table == map[]
    {
      this.limit, table := limit, map[];
    }

    method AtomicIncr(k: Key, now: int) returns (count: nat)
      modifies this
      ensures table == old(table)[k := Increment(limit, Stored(old(table), k), now)]
      ensures count == table[k].count
    {
      count := 1;
      if k in table && now < table[k].expires {
        count := table[k].count + 1;
      }
      if count == 1 {
        table := table[k := Counter(1, now + limit.window)];
      } else {
        table := table[k := Counter(count, table[k].expires)];
      }
    }

    /** Serves the requests of all keys in the order they come in, counting those let through. */
    method Serve(requests: seq<Request>) returns (admitted: map<Key, nat>)
      requires table == map[]
      modifies this
      ensures forall k :: Tracks(limit, table, admitted, requests, k)
    {
      admitted := map[];
      for i := 0 to |requests|
        invariant forall k :: Tracks(limit, table, admitted, requests[..i], k)
      {
        var r := requests[i];
        ghost var was, before := table, admitted;
        var count := AtomicIncr(r.key, r.at);
        if count <= limit.max {
          admitted := admitted[r.key := 1 + if r.key in admitted then admitted[r.key] else 0];
        }
        ghost var seen := requests[..i + 1];
        assert seen[..i] == requests[..i];
        forall k ensures Tracks(limit, table, admitted, seen, k) {
          TracksOneMore(limit, was, before, seen, k);
        }
      }
      assert requests[..|requests|] == requests;
    }
  }

  /** When the requests of one key came in. */
  function TimesOf(requests: seq<Request>, k: Key): seq<int>
  {
    if requests == [] then []
    else
      var r := requests[|requests| - 1];
      TimesOf(requests[..|requests| - 1], k) + if r.key == k then [r.at] else []
  }

  /** The table holds for the key what its own requests make of it, and as many were let through. */
  predicate Tracks(l: Limit, table: map<Key, Counter>, admitted: map<Key, nat>, requests: seq<Request>, k: Key)
  {
    && Stored(table, k) == After(l, None, TimesOf(requests, k))
    && (if k in admitted then admitted[k] else 0) == Admitted(l, None, TimesOf(requests, k))
  }

  lemma TracksOneMore(l: Limit, table: map<Key, Counter>, admitted: map<Key, nat>, requests: seq<Request>, k: Key)
    requires requests != [] && Tracks(l, table, admitted, requests[..|requests| - 1], k)
    ensures var r := requests[|requests| - 1];
            var c := Increment(l, Stored(table, r.key), r.at);
            Tracks(l, table[r.key := c],
                   if c.count <= l.max then admitted[r.key := 1 + if r.key in admitted then admitted[r.key] else 0] else admitted,
                   requests, k)
  {
    var n := |requests| - 1;
    var r := requests[n];
    if r.key == k {
      OneMore(l, TimesOf(requests[..n], k), r.at);
    } else {
      assert TimesOf(requests, k) == TimesOf(requests[..n], k);
    }
  }

  lemma OneMore(l: Limit, times: seq<int>, t: int)
    ensures var c := Increment(l, After(l, None, times), t);
            && After(l, None, times + [t]) == Some(c)
            && Admitted(l, None, times + [t]) == Admitted(l, None, times) + if c.count <= l.max then 1 else 0
  {
    Splits(l, None, times, [t]);
    assert [t][1..] == [];
    var c := After(l, None, times);
    assert After(l, c, [t]) == After(l, Some(Increment(l, c, t)), []);
    assert Admitted(l, Some(Increment(l, c, t)), []) == 0;
  }
}
