/** The six-character geohash of the route cache (internal/location/service.go).

    The program finds a hash by thirty alternating bisections of the longitude and the latitude
    range. All bounds it meets are dyadic fractions of 45 degrees, which a float64 holds
    exactly, so reals are a faithful stand-in.

    Three layers: the loop (`Geohash6`) computes the bits of the bisection (`Bisection`, `Bits`,
    `HashN`); the bisection index is shown equal to plain arithmetic, the clamped floor of the
    scaled coordinate (`Quantise`); and the text form is shown to be invertible (`CellOf`). */
module Geohash {

  function Pow2(n: nat): (p: nat)
    ensures p > 0
  {
    if n == 0 then 1 else 2 * Pow2(n - 1)
  }

  type bit = n: nat | n < 2

  // ---------------------------------------------------------------- bisection of one range

  /** What bisecting leaves: the remaining range and the bits so far, read as a number. */
  datatype Span = Span(min: real, max: real, index: nat)

  function Halve(x: real, s: Span): Span
  {
    var mid := (s.min + s.max) / 2.0;
    if x >= mid then Span(mid, s.max, 2 * s.index + 1) else Span(s.min, mid, 2 * s.index)
  }

  /** The bit the next bisection yields. */
  function Up(x: real, s: Span): bit
  {
    if x >= (s.min + s.max) / 2.0 then 1 else 0
  }

  function Bisection(x: real, lo: real, hi: real, n: nat): Span
  {
    if n == 0 then Span(lo, hi, 0) else Halve(x, Bisection(x, lo, hi, n - 1))
  }

  // ---------------------------------------------------------------- the same by arithmetic

  function Portion(k: real, w: real, p: real): real
    requires p > 0.0
  {
    k * w / p
  }

  /** Position of x in [lo, hi), measured in cells when the range is cut into 2^n cells. */
  function Scaled(x: real, lo: real, hi: real, n: nat): real
    requires lo < hi
  {
    Portion(x - lo, Pow2(n) as real, hi - lo)
  }

  /** Index of the cell x falls in, clamped to the outermost cells for a point on or beyond
      an edge of the range. */
  function Quantise(x: real, lo: real, hi: real, n: nat): (q: nat)
    requires lo < hi
    ensures q < Pow2(n)
  {
    var s := Scaled(x, lo, hi, n);
    if s < 0.0 then 0 else if s >= Pow2(n) as real then Pow2(n) - 1 else s.Floor
  }

  /** Lower edge of cell q. */
  function Edge(lo: real, hi: real, n: nat, q: nat): real
    requires lo < hi
  {
    lo + Portion(q as real, hi - lo, Pow2(n) as real)
  }

  lemma Quotient(b: real, c: real)
    requires c > 0.0
    ensures (b / c) * c == b
  {
  }

  lemma ScaleIff(a: real, b: real, c: real)
    requires c > 0.0
    ensures a <= b <==> a * c <= b * c
  {
    if a <= b {
      assert (b - a) * c >= 0.0;
    } else {
      assert (a - b) * c > 0.0;
    }
  }

  lemma DivLeIff(a: real, b: real, c: real)
    requires c > 0.0
    ensures a <= b / c <==> a * c <= b
  {
    Quotient(b, c);
    ScaleIff(a, b / c, c);
  }

  lemma DivGeIff(a: real, b: real, c: real)
    requires c > 0.0
    ensures b / c <= a <==> b <= a * c
  {
    Quotient(b, c);
    ScaleIff(b / c, a, c);
  }

  lemma PortionIff(y: real, w: real, p: real, k: real)
    requires w > 0.0 && p > 0.0
    ensures Portion(k, w, p) <= y <==> k <= Portion(y, p, w)
  {
    DivLeIff(k, y * p, w);
    DivGeIff(y, k * w, p);
  }

  lemma EdgeIff(x: real, lo: real, hi: real, n: nat, q: nat)
    requires lo < hi
    ensures x >= Edge(lo, hi, n, q) <==> Scaled(x, lo, hi, n) >= q as real
  {
    PortionIff(x - lo, hi - lo, Pow2(n) as real, q as real);
  }

  lemma EdgesHalve(lo: real, hi: real, n: nat, q: nat)
    requires lo < hi
    ensures Edge(lo, hi, n + 1, 2 * q) == Edge(lo, hi, n, q)
    ensures (Edge(lo, hi, n, q) + Edge(lo, hi, n, q + 1)) / 2.0 == Edge(lo, hi, n + 1, 2 * q + 1)
  {
    var w, p := hi - lo, Pow2(n) as real;
    var e := w / (2.0 * p);
    assert w == e * (2.0 * p);
    assert Pow2(n + 1) as real == 2.0 * p;
    Multiple(w, p, q, 2.0 * e);
    Multiple(w, p, q + 1, 2.0 * e);
    Multiple(w, 2.0 * p, 2 * q, e);
    Multiple(w, 2.0 * p, 2 * q + 1, e);
    var k := q as real;
    assert (2 * q) as real * e == k * (2.0 * e);
    assert (2 * q + 1) as real * e == k * (2.0 * e) + e;
    assert (q + 1) as real * (2.0 * e) == k * (2.0 * e) + 2.0 * e;
  }

  lemma Multiple(w: real, p: real, q: nat, e: real)
    requires p > 0.0 && w == e * p
    ensures Portion(q as real, w, p) == q as real * e
  {
    assert q as real * w == (q as real * e) * p;
  }

  lemma ScaledDoubles(x: real, lo: real, hi: real, n: nat)
    requires lo < hi
    ensures Scaled(x, lo, hi, n + 1) == 2.0 * Scaled(x, lo, hi, n)
  {
    var w, p := hi - lo, Pow2(n) as real;
    var a := (x - lo) * p;
    assert Pow2(n + 1) as real == 2.0 * p;
    assert Portion(x - lo, 2.0 * p, w) == (2.0 * a) / w == 2.0 * (a / w);
  }

  /** Cutting the cells in two refines the index by exactly one bit: 1 iff x is at or above the
      middle of its cell. */
  lemma QuantiseRefines(x: real, lo: real, hi: real, n: nat)
    requires lo < hi
    ensures var q := Quantise(x, lo, hi, n);
            Quantise(x, lo, hi, n + 1) == 2 * q + (if x >= Edge(lo, hi, n + 1, 2 * q + 1) then 1 else 0)
  {
    var q := Quantise(x, lo, hi, n);
    var s := Scaled(x, lo, hi, n);
    ScaledDoubles(x, lo, hi, n);
    EdgeIff(x, lo, hi, n + 1, 2 * q + 1);
  }

  /** Bisection computes the clamped floor quantisation, for every number of bits and every
      point, and the range it is left with is that cell. */
  lemma {:induction false} BisectionQuantises(x: real, lo: real, hi: real, n: nat)
    requires lo < hi
    ensures var q := Quantise(x, lo, hi, n);
            Bisection(x, lo, hi, n) == Span(Edge(lo, hi, n, q), Edge(lo, hi, n, q + 1), q)
  {
    if n == 0 {
      assert Pow2(0) == 1;
      assert Edge(lo, hi, 0, 0) == lo && Edge(lo, hi, 0, 1) == hi;
    } else {
      BisectionQuantises(x, lo, hi, n - 1);
      var q := Quantise(x, lo, hi, n - 1);
      QuantiseRefines(x, lo, hi, n - 1);
      EdgesHalve(lo, hi, n - 1, q);
      EdgesHalve(lo, hi, n - 1, q + 1);
    }
  }

  /** A point of the range lies between the edges of its cell. */
  lemma QuantiseContains(x: real, lo: real, hi: real, n: nat)
    requires lo <= x < hi
    ensures var q := Quantise(x, lo, hi, n);
            Edge(lo, hi, n, q) <= x < Edge(lo, hi, n, q + 1)
  {
    var q := Quantise(x, lo, hi, n);
    EdgeIff(x, lo, hi, n, 0);
    EdgeIff(x, lo, hi, n, Pow2(n));
    LastEdge(lo, hi, n);
    EdgeIff(x, lo, hi, n, q);
    EdgeIff(x, lo, hi, n, q + 1);
  }

  lemma Cancel(w: real, p: real)
    requires p > 0.0
    ensures Portion(p, w, p) == w && Portion(0.0, w, p) == 0.0
  {
    DivLeIff(w, p * w, p);
    DivGeIff(w, p * w, p);
  }

  lemma LastEdge(lo: real, hi: real, n: nat)
    requires lo < hi
    ensures Edge(lo, hi, n, 0) == lo && Edge(lo, hi, n, Pow2(n)) == hi
  {
    Cancel(hi - lo, Pow2(n) as real);
  }

  // ---------------------------------------------------------------- two coordinates as bits

  /** The bits the first m longitude and k latitude bisections yield, in the order of the loop. */
  function Bits(lat: real, lng: real, m: nat, k: nat): (s: seq<bit>)
    requires k <= m <= k + 1
    ensures |s| == m + k
    decreases m + k
  {
    if m == 0 then []
    else if m > k then Bits(lat, lng, m - 1, k) + [Up(lng, Bisection(lng, -180.0, 180.0, m - 1))]
    else Bits(lat, lng, m, k - 1) + [Up(lat, Bisection(lat, -90.0, 90.0, k - 1))]
  }

  /** Reads m + k alternating bits as two numbers: the bits at even positions as one of m bits,
      those at odd positions as one of k bits. */
  function Unweave(s: seq<bit>, m: nat, k: nat): (nat, nat)
    requires k <= m <= k + 1 && |s| == m + k
    decreases m + k
  {
    if m == 0 then (0, 0)
    else
      var rest, b := s[..m + k - 1], s[m + k - 1];
      if m > k then (2 * Unweave(rest, m - 1, k).0 + b, Unweave(rest, m - 1, k).1)
      else (Unweave(rest, m, k - 1).0, 2 * Unweave(rest, m, k - 1).1 + b)
  }

  lemma {:induction false} UnweaveInjective(s: seq<bit>, t: seq<bit>, m: nat, k: nat)
    requires k <= m <= k + 1 && |s| == |t| == m + k && Unweave(s, m, k) == Unweave(t, m, k)
    ensures s == t
    decreases m + k
  {
    if m > 0 {
      var n := m + k - 1;
      if m > k {
        UnweaveInjective(s[..n], t[..n], m - 1, k);
      } else {
        UnweaveInjective(s[..n], t[..n], m, k - 1);
      }
      assert s == s[..n] + [s[n]] && t == t[..n] + [t[n]];
    }
  }

  /** The two bisection indices are interleaved bit by bit, longitude first. */
  lemma {:induction false} BitsInterleave(lat: real, lng: real, m: nat, k: nat)
    requires k <= m <= k + 1
    ensures Unweave(Bits(lat, lng, m, k), m, k)
            == (Bisection(lng, -180.0, 180.0, m).index, Bisection(lat, -90.0, 90.0, k).index)
    decreases m + k
  {
    if m > k {
      BitsInterleave(lat, lng, m - 1, k);
      assert Bits(lat, lng, m, k)[..m + k - 1] == Bits(lat, lng, m - 1, k);
    } else if m > 0 {
      BitsInterleave(lat, lng, m, k - 1);
      assert Bits(lat, lng, m, k)[..m + k - 1] == Bits(lat, lng, m, k - 1);
    }
  }

  // ---------------------------------------------------------------- bits as text

  /** The base-32 letter of a digit: the digits 0-9, then the letters without a, i, l and o. */
  function Letter(d: nat): (c: char)
    requires d < 32
    ensures DigitOf(c) == d
  {
    if d < 10 then '0' + d as char
    else if d < 17 then 'b' + (d - 10) as char
    else if d < 19 then 'j' + (d - 17) as char
    else if d < 21 then 'm' + (d - 19) as char
    else 'p' + (d - 21) as char
  }

  function DigitOf(c: char): nat
  {
    if '0' <= c <= '9' then (c - '0') as nat
    else if 'b' <= c <= 'h' then 10 + (c - 'b') as nat
    else if 'j' <= c <= 'k' then 17 + (c - 'j') as nat
    else if 'm' <= c <= 'n' then 19 + (c - 'm') as nat
    else if 'p' <= c <= 'z' then 21 + (c - 'p') as nat
    else 32
  }

  /** The program keeps the letters in one string. */
  lemma LettersAreTheAlphabet(d: nat)
    requires d < 32
    ensures Letter(d) == "0123456789bcdefghjkmnpqrstuvwxyz"[d]
  {
  }

  /** Up to five bits as the high bits of a five-bit number. */
  function Aligned(s: seq<bit>): (v: nat)
    requires |s| <= 5
    ensures v < 32
  {
    16 * At(s, 0) + 8 * At(s, 1) + 4 * At(s, 2) + 2 * At(s, 3) + At(s, 4)
  }

  function At(s: seq<bit>, j: nat): (v: nat)
    ensures v < 2
  {
    if j < |s| then s[j] else 0
  }

  lemma {:induction false} AlignedStep(s: seq<bit>, b: bit)
    requires |s| < 5
    ensures Aligned(s + [b]) == Aligned(s) + (if b == 1 then Pow2(4 - |s|) else 0)
  {
    assert Pow2(0) == 1 && Pow2(1) == 2 && Pow2(2) == 4;
    assert Pow2(3) == 2 * Pow2(2) && Pow2(4) == 2 * Pow2(3);
    var t := s + [b];
    assert forall j | 0 <= j < |s| :: t[j] == s[j];
  }

  /** The five bits of a digit. */
  function FiveBits(d: nat): (s: seq<bit>)
    ensures |s| == 5
  {
    [d / 16 % 2, d / 8 % 2, d / 4 % 2, d / 2 % 2, d % 2]
  }

  lemma DigitsOfFive(a: bit, b: bit, c: bit, d: bit, e: bit)
    ensures FiveBits(16 * a + 8 * b + 4 * c + 2 * d + e) == [a, b, c, d, e]
  {
    var v := 16 * a + 8 * b + 4 * c + 2 * d + e;
    assert v / 16 == a && v / 8 == 2 * a + b && v / 4 == 4 * a + 2 * b + c && v / 2 == 8 * a + 4 * b + 2 * c + d;
  }

  lemma FiveBitsRoundTrip(s: seq<bit>)
    requires |s| == 5
    ensures Aligned(s) < 32 && FiveBits(Aligned(s)) == s
  {
    DigitsOfFive(s[0], s[1], s[2], s[3], s[4]);
  }

  /** The text of 5n bits, five to a letter. */
  function Text(s: seq<bit>, n: nat): (t: string)
    requires |s| == 5 * n
    ensures |t| == n
  {
    if n == 0 then ""
    else
      FiveBitsRoundTrip(s[5 * (n - 1)..]);
      Text(s[..5 * (n - 1)], n - 1) + [Letter(Aligned(s[5 * (n - 1)..]))]
  }

  function FromText(t: string): (s: seq<bit>)
    ensures |s| == 5 * |t|
  {
    if t == "" then [] else FromText(t[..|t| - 1]) + FiveBits(DigitOf(t[|t| - 1]))
  }

  lemma {:induction false} TextRoundTrip(s: seq<bit>, n: nat)
    requires |s| == 5 * n
    ensures FromText(Text(s, n)) == s
  {
    if n > 0 {
      var head, tail := s[..5 * (n - 1)], s[5 * (n - 1)..];
      TextRoundTrip(head, n - 1);
      FiveBitsRoundTrip(tail);
      assert Text(s, n)[..n - 1] == Text(head, n - 1);
      assert s == head + tail;
    }
  }

  lemma {:induction false} TextStep(s: seq<bit>, t: seq<bit>, n: nat)
    requires |s| == 5 * n && |t| == 5
    ensures Aligned(t) < 32 && Text(s + t, n + 1) == Text(s, n) + [Letter(Aligned(t))]
  {
    FiveBitsRoundTrip(t);
    assert (s + t)[..5 * n] == s && (s + t)[5 * n..] == t;
  }

  // ---------------------------------------------------------------- the hash

  /** How many of the 5n bits of n characters are longitude bits, and how many latitude bits. */
  function LngBits(n: nat): nat { (5 * n + 1) / 2 }

  function LatBits(n: nat): nat { 5 * n / 2 }

  /** The hash of n characters. */
  function HashN(lat: real, lng: real, n: nat): (h: string)
    ensures |h| == n
  {
    Text(Bits(lat, lng, LngBits(n), LatBits(n)), n)
  }

  function Hash(lat: real, lng: real): string { HashN(lat, lng, 6) }

  lemma HashOfBits(lat: real, lng: real, m: nat, k: nat, n: nat)
    requires k <= m <= k + 1 && m + k == 5 * n
    ensures HashN(lat, lng, n) == Text(Bits(lat, lng, m, k), n)
  {
  }

  /** Where the loop stands after m longitude and k latitude bisections: the bits so far are
      those of the finished characters (`done`) and of the current one (`chunk`). */
  datatype Trace = Trace(m: nat, k: nat, lngs: Span, lats: Span, done: seq<bit>, chunk: seq<bit>)

  ghost predicate Follows(lat: real, lng: real, isLng: bool, bit: int, ch: int, i: nat, tr: Trace)
  {
    && (if isLng then tr.m == tr.k else tr.m == tr.k + 1)
    && tr.lngs == Bisection(lng, -180.0, 180.0, tr.m)
    && tr.lats == Bisection(lat, -90.0, 90.0, tr.k)
    && tr.done + tr.chunk == Bits(lat, lng, tr.m, tr.k)
    && |tr.done| == 5 * i && |tr.chunk| == 4 - bit && 0 <= bit <= 4
    && ch == Aligned(tr.chunk)
  }

  /** One pass of the loop, before the character is completed or the bit counter decremented. */
  function Advance(lat: real, lng: real, isLng: bool, tr: Trace): Trace
  {
    var up := if isLng then Up(lng, tr.lngs) else Up(lat, tr.lats);
    tr.(m := if isLng then tr.m + 1 else tr.m,
        k := if isLng then tr.k else tr.k + 1,
        lngs := if isLng then Halve(lng, tr.lngs) else tr.lngs,
        lats := if isLng then tr.lats else Halve(lat, tr.lats),
        chunk := tr.chunk + [up])
  }

  lemma AdvanceBits(lat: real, lng: real, isLng: bool, bit: int, ch: int, i: nat, tr: Trace)
    requires Follows(lat, lng, isLng, bit, ch, i, tr)
    ensures var next := Advance(lat, lng, isLng, tr);
            && (next.m == next.k || next.m == next.k + 1)
            && next.done + next.chunk == Bits(lat, lng, next.m, next.k)
  {
    var next := Advance(lat, lng, isLng, tr);
    assert next.done + next.chunk == (tr.done + tr.chunk) + [next.chunk[|tr.chunk|]];
  }

  lemma AdvanceFollows(lat: real, lng: real, isLng: bool, bit: int, ch: int, i: nat, tr: Trace)
    requires Follows(lat, lng, isLng, bit, ch, i, tr)
    ensures var next := Advance(lat, lng, isLng, tr);
            var up := if isLng then Up(lng, tr.lngs) else Up(lat, tr.lats);
            var ch' := if up == 1 then ch + Pow2(bit) else ch;
            if bit > 0 then Follows(lat, lng, !isLng, bit - 1, ch', i, next)
            else |next.chunk| == 5 && ch' == Aligned(next.chunk)
                 && Follows(lat, lng, !isLng, 4, 0, i + 1, next.(done := tr.done + next.chunk, chunk := []))
  {
    AdvanceBits(lat, lng, isLng, bit, ch, i, tr);
    AlignedStep(tr.chunk, if isLng then Up(lng, tr.lngs) else Up(lat, tr.lats));
  }

  /** The program's variables: the two ranges, and where it is in the current character. */
  datatype Vars = Vars(minLat: real, maxLat: real, minLng: real, maxLng: real, isLng: bool, bit: int, ch: int)

  predicate RangesMatch(v: Vars, tr: Trace)
  {
    tr.lngs.min == v.minLng && tr.lngs.max == v.maxLng && tr.lats.min == v.minLat && tr.lats.max == v.maxLat
  }

  ghost predicate Tracks(lat: real, lng: real, v: Vars, text: string, tr: Trace)
  {
    && Follows(lat, lng, v.isLng, v.bit, v.ch, |text|, tr)
    && RangesMatch(v, tr)
    && text == Text(tr.done, |text|)
  }

  /** The range cut and the bit put into `ch`. */
  function Cut(lat: real, lng: real, v: Vars): Vars
    requires v.bit >= 0
  {
    if v.isLng then
      var mid := (v.minLng + v.maxLng) / 2.0;
      if lng >= mid then v.(ch := v.ch + Pow2(v.bit), minLng := mid) else v.(maxLng := mid)
    else
      var mid := (v.minLat + v.maxLat) / 2.0;
      if lat >= mid then v.(ch := v.ch + Pow2(v.bit), minLat := mid) else v.(maxLat := mid)
  }

  lemma CutMatches(lat: real, lng: real, v: Vars, tr: Trace)
    requires RangesMatch(v, tr) && v.bit >= 0
    ensures RangesMatch(Cut(lat, lng, v), Advance(lat, lng, v.isLng, tr))
    ensures var up := if v.isLng then Up(lng, tr.lngs) else Up(lat, tr.lats);
            Cut(lat, lng, v).ch == if up == 1 then v.ch + Pow2(v.bit) else v.ch
  {
  }

  /** A bit inside a character. */
  lemma CutInside(lat: real, lng: real, v: Vars, text: string, tr: Trace)
    requires Tracks(lat, lng, v, text, tr) && v.bit > 0
    ensures Tracks(lat, lng, Cut(lat, lng, v).(isLng := !v.isLng, bit := v.bit - 1), text, Advance(lat, lng, v.isLng, tr))
  {
    CutMatches(lat, lng, v, tr);
    AdvanceFollows(lat, lng, v.isLng, v.bit, v.ch, |text|, tr);
  }

  /** The last bit of one. */
  lemma CutAtEnd(lat: real, lng: real, v: Vars, text: string, tr: Trace)
    requires Tracks(lat, lng, v, text, tr) && v.bit == 0
    ensures var w, next := Cut(lat, lng, v), Advance(lat, lng, v.isLng, tr);
            && 0 <= w.ch < 32
            && Tracks(lat, lng, w.(isLng := !v.isLng, bit := 4, ch := 0), text + [Letter(w.ch)],
                      next.(done := tr.done + next.chunk, chunk := []))
  {
    var next := Advance(lat, lng, v.isLng, tr);
    CutMatches(lat, lng, v, tr);
    AdvanceFollows(lat, lng, v.isLng, v.bit, v.ch, |text|, tr);
    TextStep(tr.done, next.chunk, |text|);
  }

  lemma TracksToTheEnd(lat: real, lng: real, v: Vars, text: string, tr: Trace)
    requires Tracks(lat, lng, v, text, tr) && v.bit == 4
    ensures text == HashN(lat, lng, |text|)
  {
    assert tr.chunk == [] && tr.done + tr.chunk == tr.done;
    HashOfBits(lat, lng, tr.m, tr.k, |text|);
  }

  /** One bisection. `ch` gains bit `bit` by addition: that bit is still clear when the program or-s it in. */
  method Bisect(lat: real, lng: real, minLat: real, maxLat: real, minLng: real, maxLng: real, isLng: bool, bit: int, ch: int)
    returns (minLat': real, maxLat': real, minLng': real, maxLng': real, ch': int)
    requires bit >= 0
    ensures Vars(minLat', maxLat', minLng', maxLng', isLng, bit, ch')
            == Cut(lat, lng, Vars(minLat, maxLat, minLng, maxLng, isLng, bit, ch))
  {
    minLat', maxLat', minLng', maxLng', ch' := minLat, maxLat, minLng, maxLng, ch;
    if isLng {
      var mid := (minLng + maxLng) / 2.0;
      if lng >= mid {
        ch' := ch + Pow2(bit);
        minLng' := mid;
      } else {
        maxLng' := mid;
      }
    } else {
      var mid := (minLat + maxLat) / 2.0;
      if lat >= mid {
        ch' := ch + Pow2(bit);
        minLat' := mid;
      } else {
        maxLat' := mid;
      }
    }
  }

  /** The bisection loop, with the program's own variables, for n characters (the program's n is 6). */
  method Encode(lat: real, lng: real, n: nat) returns (hash: string)
    ensures hash == HashN(lat, lng, n)
  {
    var minLat, maxLat := -90.0, 90.0;
    var minLng, maxLng := -180.0, 180.0;
    var buffer := new char[n];
    var isLng, bit, ch, i := true, 4, 0, 0;
    ghost var tr := Trace(0, 0, Span(minLng, maxLng, 0), Span(minLat, maxLat, 0), [], []);
    while i < n
      invariant 0 <= bit <= 4 && 0 <= i <= n && (i == n ==> bit == 4)
      invariant Tracks(lat, lng, Vars(minLat, maxLat, minLng, maxLng, isLng, bit, ch), buffer[..i], tr)
      decreases n - i, bit
    {
      ghost var v, text, was := Vars(minLat, maxLat, minLng, maxLng, isLng, bit, ch), buffer[..i], tr;
      minLat, maxLat, minLng, maxLng, ch := Bisect(lat, lng, minLat, maxLat, minLng, maxLng, isLng, bit, ch);
      tr := Advance(lat, lng, isLng, tr);
      isLng := !isLng;
      if bit == 0 {
        assert 0 <= ch < 32 by { CutAtEnd(lat, lng, v, text, was); }
        buffer[i] := Letter(ch);
        assert buffer[..i + 1] == text + [Letter(ch)];
        CutAtEnd(lat, lng, v, text, was);
        tr := tr.(done := was.done + tr.chunk, chunk := []);
        i := i + 1;
        bit := 4;
        ch := 0;
      } else {
        CutInside(lat, lng, v, text, was);
        bit := bit - 1;
      }
    }
    hash := buffer[..];
    assert buffer[..i] == hash;
    TracksToTheEnd(lat, lng, Vars(minLat, maxLat, minLng, maxLng, isLng, bit, ch), hash, tr);
  }

  method Geohash6(lat: real, lng: real) returns (hash: string)
    ensures hash == Hash(lat, lng)
  {
    hash := Encode(lat, lng, 6);
  }

  // ---------------------------------------------------------------- theorems

  /** The grid cell (longitude index, latitude index) a hash stands for. */
  function CellOf(hash: string): (nat, nat)
  {
    Unweave(FromText(hash), LngBits(|hash|), LatBits(|hash|))
  }

  /** The cell of a point by floor quantisation. */
  function Cell(lat: real, lng: real, n: nat): (nat, nat)
  {
    (Quantise(lng, -180.0, 180.0, LngBits(n)), Quantise(lat, -90.0, 90.0, LatBits(n)))
  }

  /** The hash determines the cell, at every precision: decoding it returns the two floor
      quantisations. */
  lemma HashRoundTrip(lat: real, lng: real, n: nat)
    ensures CellOf(HashN(lat, lng, n)) == Cell(lat, lng, n)
  {
    var m, k := LngBits(n), LatBits(n);
    TextRoundTrip(Bits(lat, lng, m, k), n);
    BitsInterleave(lat, lng, m, k);
    BisectionQuantises(lng, -180.0, 180.0, m);
    BisectionQuantises(lat, -90.0, 90.0, k);
  }

  /** Two points share a hash exactly when they lie in the same cell. */
  lemma SameHashIffSameCell(lat1: real, lng1: real, lat2: real, lng2: real, n: nat)
    ensures HashN(lat1, lng1, n) == HashN(lat2, lng2, n) <==> Cell(lat1, lng1, n) == Cell(lat2, lng2, n)
  {
    HashRoundTrip(lat1, lng1, n);
    HashRoundTrip(lat2, lng2, n);
    var s1, s2 := Bits(lat1, lng1, LngBits(n), LatBits(n)), Bits(lat2, lng2, LngBits(n), LatBits(n));
    TextRoundTrip(s1, n);
    TextRoundTrip(s2, n);
    if Unweave(s1, LngBits(n), LatBits(n)) == Unweave(s2, LngBits(n), LatBits(n)) {
      UnweaveInjective(s1, s2, LngBits(n), LatBits(n));
    }
  }

  /** A point of the map lies inside the cell its hash decodes to. */
  lemma HashLocates(lat: real, lng: real, n: nat)
    requires -90.0 <= lat < 90.0 && -180.0 <= lng < 180.0
    ensures var (x, y) := CellOf(HashN(lat, lng, n));
            && Edge(-180.0, 180.0, LngBits(n), x) <= lng < Edge(-180.0, 180.0, LngBits(n), x + 1)
            && Edge(-90.0, 90.0, LatBits(n), y) <= lat < Edge(-90.0, 90.0, LatBits(n), y + 1)
  {
    HashRoundTrip(lat, lng, n);
    QuantiseContains(lng, -180.0, 180.0, LngBits(n));
    QuantiseContains(lat, -90.0, 90.0, LatBits(n));
  }

  /** The cache key of a route: both end cells and the vehicle type. */
  function CacheKey(pickupLat: real, pickupLng: real, destLat: real, destLng: real, vehicle: string): string
  {
    Hash(pickupLat, pickupLng) + ":" + Hash(destLat, destLng) + ":" + vehicle
  }

  /** Two requests share a cache entry exactly when both ends lie in the same cells and the
      vehicle types are equal. */
  lemma CacheKeyInjective(aLat: real, aLng: real, bLat: real, bLng: real, v: string,
                          cLat: real, cLng: real, dLat: real, dLng: real, w: string)
    ensures CacheKey(aLat, aLng, bLat, bLng, v) == CacheKey(cLat, cLng, dLat, dLng, w)
            <==> && Cell(aLat, aLng, 6) == Cell(cLat, cLng, 6)
                 && Cell(bLat, bLng, 6) == Cell(dLat, dLng, 6)
                 && v == w
  {
    SameHashIffSameCell(aLat, aLng, cLat, cLng, 6);
    SameHashIffSameCell(bLat, bLng, dLat, dLng, 6);
    KeyParts(Hash(aLat, aLng), Hash(bLat, bLng), v, Hash(cLat, cLng), Hash(dLat, dLng), w);
  }

  lemma KeyParts(a: string, b: string, v: string, c: string, d: string, w: string)
    requires |a| == |c| && |b| == |d|
    ensures a + ":" + b + ":" + v == c + ":" + d + ":" + w <==> a == c && b == d && v == w
  {
    var k, l := a + ":" + b + ":" + v, c + ":" + d + ":" + w;
    if k == l {
      assert k[..|a|] == a && l[..|a|] == c;
      assert k[|a| + 1..|a| + 1 + |b|] == b && l[|a| + 1..|a| + 1 + |b|] == d;
      assert k[|a| + |b| + 2..] == v && l[|a| + |b| + 2..] == w;
    }
  }
}
