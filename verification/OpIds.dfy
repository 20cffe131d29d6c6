/** Names of op files: clock, counter, random part and kind. The outbox is listed
    by sorting the names, so they have to sort in the order of enqueueing. */
module OpIds {
  import opened Numbers
  import opened Text

  /** String comparison by code units. */
  predicate Precedes(a: string, b: string) {
    b != "" && (a == "" || a[0] < b[0] || (a[0] == b[0] && Precedes(a[1..], b[1..])))
  }

  function Zeros(n: nat): string {
    if n == 0 then "" else "0" + Zeros(n - 1)
  }

  function PadStart(s: string): string {
    if |s| >= 4 then s else Zeros(4 - |s|) + s
  }

  /** `rest` is the random part, the kind and the suffix. */
  function FileName(clock: nat, counter: nat, rest: string): string {
    Digits(clock) + "-" + PadStart(Digits(counter)) + "-" + rest
  }

  // ------------------------------------------------------------ fixed width

  function Pow10(n: nat): (p: nat)
    ensures p > 0
  {
    if n == 0 then 1 else 10 * Pow10(n - 1)
  }

  function Digit(n: nat): char {
    ('0' as int + n % 10) as char
  }

  /** The last `w` decimal digits. */
  function Fixed(n: nat, w: nat): (s: string)
    ensures |s| == w && forall i | 0 <= i < w :: '0' <= s[i] <= '9'
  {
    if w == 0 then "" else Fixed(n / 10, w - 1) + [Digit(n)]
  }

  lemma {:induction false} PowAdds(i: nat, j: nat)
    ensures Pow10(i + j) == Pow10(i) * Pow10(j)
  {
    if i > 0 {
      PowAdds(i - 1, j);
      assert 10 * (Pow10(i - 1) * Pow10(j)) == (10 * Pow10(i - 1)) * Pow10(j);
    }
  }

  lemma DivideTwice(n: nat, p: nat)
    requires p > 0
    ensures n / 10 / p == n / (10 * p)
  {
    var q, r := n / 10 / p, n / 10 % p;
    assert n / 10 == p * q + r;
    assert n == (10 * p) * q + (10 * r + n % 10) by {
      assert n == 10 * (n / 10) + n % 10;
      assert 10 * (p * q) == (10 * p) * q;
    }
    QuotientIs(n, 10 * p, q, 10 * r + n % 10);
  }

  function Quotient(n: nat, d: nat): nat
    requires d > 0
  {
    n / d
  }

  /** Without its last `i` digits. */
  function Leading(n: nat, i: nat): nat {
    Quotient(n, Pow10(i))
  }

  lemma LeadingNext(n: nat, i: nat)
    ensures Leading(n / 10, i) == Leading(n, i + 1)
  {
    DivideTwice(n, Pow10(i));
  }

  lemma {:induction false} FixedSplits(n: nat, w: nat, i: nat)
    ensures Fixed(n, w + i) == Fixed(Leading(n, i), w) + Fixed(n, i)
  {
    if i == 0 {
      assert Leading(n, 0) == n / 1 == n;
    } else {
      FixedSplits(n / 10, w, i - 1);
      LeadingNext(n, i - 1);
      FixedNext(n, w, i);
    }
  }

  lemma FixedNext(n: nat, w: nat, i: nat)
    requires i > 0 && Fixed(n / 10, w + (i - 1)) == Fixed(Leading(n, i), w) + Fixed(n / 10, i - 1)
    ensures Fixed(n, w + i) == Fixed(Leading(n, i), w) + Fixed(n, i)
  {
  }

  lemma {:induction false} DigitsAreFixed(n: nat)
    ensures Digits(n) == Fixed(n, |Digits(n)|) && n < Pow10(|Digits(n)|)
  {
    if n >= 10 {
      DigitsAreFixed(n / 10);
      assert n == 10 * (n / 10) + n % 10;
    } else {
      assert Pow10(1) == 10 && Fixed(n, 1) == Fixed(n / 10, 0) + [Digit(n)];
    }
  }

  lemma {:induction false} LeadingZeros(n: nat, w: nat, k: nat)
    requires n < Pow10(w)
    ensures Fixed(n, k + w) == Zeros(k) + Fixed(n, w)
  {
    FixedSplits(n, k, w);
    QuotientIs(n, Pow10(w), 0, n);
    ZeroIsZeros(k);
  }

  lemma {:induction false} ZeroIsZeros(k: nat)
    ensures Fixed(0, k) == Zeros(k)
  {
    if k > 0 {
      ZeroIsZeros(k - 1);
      ZerosShift(k - 1);
    }
  }

  lemma {:induction false} ZerosShift(k: nat)
    ensures Zeros(k) + "0" == "0" + Zeros(k)
  {
    if k > 0 {
      ZerosShift(k - 1);
      assert Zeros(k) + "0" == "0" + (Zeros(k - 1) + "0");
    }
  }

  /** Digits of the counter in its name. */
  function Width(n: nat): nat {
    if |Digits(n)| >= 4 then |Digits(n)| else 4
  }

  lemma PaddedIsFixed(n: nat)
    ensures PadStart(Digits(n)) == Fixed(n, Width(n)) && n < Pow10(Width(n))
  {
    DigitsAreFixed(n);
    if |Digits(n)| < 4 {
      LeadingZeros(n, |Digits(n)|, 4 - |Digits(n)|);
      PowAdds(4 - |Digits(n)|, |Digits(n)|);
      assert Pow10(4) == Pow10(4 - |Digits(n)|) * Pow10(|Digits(n)|) >= Pow10(|Digits(n)|);
    }
  }

  // ------------------------------------------------------------ order

  lemma {:induction false} PrefixCancels(p: string, a: string, b: string)
    ensures Precedes(p + a, p + b) <==> Precedes(a, b)
  {
    if p == "" {
      assert p + a == a && p + b == b;
    } else {
      PrefixCancels(p[1..], a, b);
      assert (p + a)[1..] == p[1..] + a && (p + b)[1..] == p[1..] + b;
    }
  }

  lemma {:induction false} OnlyOneWay(a: string, b: string)
    requires Precedes(a, b)
    ensures !Precedes(b, a)
  {
    if a != "" && a[0] == b[0] {
      OnlyOneWay(a[1..], b[1..]);
    }
  }

  /** In equal width, names sort as numbers do, whatever follows. */
  lemma {:induction false} FixedSorts(n: nat, m: nat, w: nat, x: string, y: string)
    requires n < m < Pow10(w)
    ensures Precedes(Fixed(n, w) + x, Fixed(m, w) + y)
  {
    if w > 0 {
      assert Fixed(n, w) + x == Fixed(n / 10, w - 1) + ([Digit(n)] + x);
      assert Fixed(m, w) + y == Fixed(m / 10, w - 1) + ([Digit(m)] + y);
      if n / 10 < m / 10 {
        FixedSorts(n / 10, m / 10, w - 1, [Digit(n)] + x, [Digit(m)] + y);
      } else {
        PrefixCancels(Fixed(n / 10, w - 1), [Digit(n)] + x, [Digit(m)] + y);
      }
    }
  }

  lemma {:induction false} WidthGrows(n: nat, m: nat)
    requires n <= m
    ensures |Digits(n)| <= |Digits(m)| && Width(n) <= Width(m)
  {
    if n >= 10 {
      WidthGrows(n / 10, m / 10);
    }
  }

  /** Two counters within one millisecond sort in order exactly if the earlier one
      is no more than the leading digits of the later one. */
  lemma CountersSortIff(n: nat, m: nat, x: string, y: string)
    requires n < m
    ensures Width(n) <= Width(m)
    ensures Precedes(PadStart(Digits(n)) + "-" + x, PadStart(Digits(m)) + "-" + y)
       <==> n <= Leading(m, Width(m) - Width(n))
  {
    WidthGrows(n, m);
    PaddedIsFixed(n);
    PaddedIsFixed(m);
    var w, i := Width(n), Width(m) - Width(n);
    FixedSplits(m, w, i);
    LeadingIsShort(m, w, i);
    assert Fixed(m, w + i) + "-" + y == Fixed(Leading(m, i), w) + (Fixed(m, i) + ("-" + y));
    assert Fixed(n, w) + "-" + x == Fixed(n, w) + ("-" + x);
    LeadingDecides(n, m, w, i, "-" + x, Fixed(m, i) + ("-" + y));
  }

  lemma LeadingDecides(n: nat, m: nat, w: nat, i: nat, a: string, b: string)
    requires n < Pow10(w) && Leading(m, i) < Pow10(w) && n < m
    requires a != "" && a[0] == '-' && b != "" && (i > 0 ==> '0' <= b[0] <= '9')
    ensures Precedes(Fixed(n, w) + a, Fixed(Leading(m, i), w) + b) <==> n <= Leading(m, i)
  {
    var lead := Leading(m, i);
    if n < lead {
      FixedSorts(n, lead, w, a, b);
    } else if n == lead {
      PrefixCancels(Fixed(n, w), a, b);
      assert Leading(m, 0) == m / 1 == m;
    } else {
      FixedSorts(lead, n, w, b, a);
      OnlyOneWay(Fixed(lead, w) + b, Fixed(n, w) + a);
    }
  }

  lemma LeadingIsShort(m: nat, w: nat, i: nat)
    requires m < Pow10(w + i)
    ensures Leading(m, i) < Pow10(w)
  {
    PowAdds(i, w);
    Scale(Pow10(w), Leading(m, i), Pow10(i));
    assert m == Pow10(i) * Leading(m, i) + m % Pow10(i);
  }

  /** Two enqueues of one process sort in order exactly if the clock has moved on
      or, within a millisecond, the earlier counter is no more than the leading
      digits of the later one. Clocks have one width until the year 2286. */
  lemma NamesSortIff(clock: nat, counter: nat, rest: string, clock': nat, counter': nat, rest': string)
    requires |Digits(clock)| == |Digits(clock')| && counter < counter'
    ensures Width(counter) <= Width(counter')
    ensures Precedes(FileName(clock, counter, rest), FileName(clock', counter', rest'))
       <==> clock < clock' || (clock == clock' && counter <= Leading(counter', Width(counter') - Width(counter)))
  {
    if clock == clock' {
      SameClock(clock, counter, rest, counter', rest');
    } else if clock < clock' {
      ClocksDecide(clock, counter, rest, clock', counter', rest');
    } else {
      ClocksDecide(clock', counter', rest', clock, counter, rest);
      OnlyOneWay(FileName(clock', counter', rest'), FileName(clock, counter, rest));
    }
    CountersSortIff(counter, counter', rest, rest');
  }

  lemma ClocksDecide(clock: nat, counter: nat, rest: string, clock': nat, counter': nat, rest': string)
    requires |Digits(clock)| == |Digits(clock')| && clock < clock'
    ensures Precedes(FileName(clock, counter, rest), FileName(clock', counter', rest'))
  {
    DigitsAreFixed(clock);
    DigitsAreFixed(clock');
    var p, p' := PadStart(Digits(counter)), PadStart(Digits(counter'));
    Regroup(Digits(clock), p, rest);
    Regroup(Digits(clock'), p', rest');
    FixedSorts(clock, clock', |Digits(clock)|, "-" + p + "-" + rest, "-" + p' + "-" + rest');
  }

  /** A later enqueue, by the clock or, while the counter keeps its four digits,
      within a millisecond, has the later name. */
  lemma NamesSortInOrder(clock: nat, counter: nat, rest: string, clock': nat, counter': nat, rest': string)
    requires |Digits(clock)| == |Digits(clock')| && counter < counter'
    requires clock < clock' || (clock == clock' && counter' < 10000)
    ensures Precedes(FileName(clock, counter, rest), FileName(clock', counter', rest'))
  {
    if clock == clock' {
      SmallWidth(counter);
      SmallWidth(counter');
      assert Leading(counter', 0) == counter' / 1 == counter';
    }
    NamesSortIff(clock, counter, rest, clock', counter', rest');
  }

  lemma SameClock(clock: nat, counter: nat, rest: string, counter': nat, rest': string)
    ensures Precedes(FileName(clock, counter, rest), FileName(clock, counter', rest'))
       <==> Precedes(PadStart(Digits(counter)) + "-" + rest, PadStart(Digits(counter')) + "-" + rest')
  {
    SamePrefix(Digits(clock), PadStart(Digits(counter)), rest, PadStart(Digits(counter')), rest');
  }

  lemma Regroup(d: string, p: string, r: string)
    ensures d + "-" + p + "-" + r == (d + "-") + (p + "-" + r) == d + ("-" + p + "-" + r)
  {
  }

  lemma SamePrefix(d: string, p: string, r: string, p': string, r': string)
    ensures Precedes(d + "-" + p + "-" + r, d + "-" + p' + "-" + r') <==> Precedes(p + "-" + r, p' + "-" + r')
  {
    Regroup(d, p, r);
    Regroup(d, p', r');
    PrefixCancels(d + "-", p + "-" + r, p' + "-" + r');
  }

  lemma SmallWidth(n: nat)
    requires n < 10000
    ensures Width(n) == 4
  {
    assert n >= 10 ==> |Digits(n)| == 1 + |Digits(n / 10)|;
    assert n >= 100 ==> |Digits(n / 10)| == 1 + |Digits(n / 10 / 10)|;
    assert n >= 1000 ==> |Digits(n / 10 / 10)| == 1 + |Digits(n / 10 / 10 / 10)|;
  }

  /** The ten-thousandth op of one process sorts before its predecessor when both
      fall into the same millisecond. */
  lemma OrderBreaksAtTenThousand(clock: nat, rest: string, rest': string)
    ensures !Precedes(FileName(clock, 9999, rest), FileName(clock, 10000, rest'))
  {
    SmallWidth(9999);
    assert |Digits(10000)| == 1 + |Digits(1000)| && |Digits(1000)| == 1 + |Digits(100)|;
    assert |Digits(100)| == 1 + |Digits(10)| && |Digits(10)| == 2;
    assert Pow10(1) == 10 && Leading(10000, 1) == 1000;
    CountersSortIff(9999, 10000, rest, rest');
    SameClock(clock, 9999, rest, 10000, rest');
  }
}
