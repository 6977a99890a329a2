/**
 * created_at is text in Go's RFC3339Nano layout, which drops trailing zeros of the fraction
 * (time-secfrac in section 5.6 of RFC 3339 has any number of digits). This module says exactly
 * when comparing two such texts agrees with comparing the instants.
 */
module Timestamps {
  import opened Basics

  predicate Digits(n: string) {
    forall i | 0 <= i < |n| :: '0' <= n[i] <= '9'
  }

  function Pow10(k: nat): (p: nat)
    ensures p >= 1
  {
    if k == 0 then 1 else 10 * Pow10(k - 1)
  }

  /** The number a digit string denotes; nine digits give the nanoseconds within a second. */
  function Value(n: string): (v: nat)
    requires Digits(n)
    ensures v < Pow10(|n|)
  {
    if |n| == 0 then 0
    else
      var d := (n[0] - '0') as nat;
      assert d * Pow10(|n| - 1) <= 9 * Pow10(|n| - 1);
      d * Pow10(|n| - 1) + Value(n[1..])
  }

  function Strip(n: string): string {
    if |n| > 0 && n[|n| - 1] == '0' then Strip(n[..|n| - 1]) else n
  }

  function Tail(fraction: string): string {
    if fraction == "" then "Z" else "." + fraction + "Z"
  }

  /** The text of an instant: `second` is the fixed-width part up to the seconds. */
  function Format(second: string, n: string): string {
    second + Tail(Strip(n))
  }

  function Zeros(k: nat): string {
    seq(k, _ => '0')
  }

  lemma {:induction false} StripDropsZeros(n: string)
    requires Digits(n)
    ensures |Strip(n)| <= |n| && n == Strip(n) + Zeros(|n| - |Strip(n)|) && Digits(Strip(n))
  {
    if |n| > 0 && n[|n| - 1] == '0' {
      StripDropsZeros(n[..|n| - 1]);
      assert n == n[..|n| - 1] + ['0'];
    }
  }

  lemma LeadingDigitDecides(x: nat, y: nat, p: nat, u: nat, v: nat)
    requires x < y && u < p
    ensures x * p + u < y * p + v
  {
    assert (y - x - 1) * p >= 0;
    assert y * p == x * p + p + (y - x - 1) * p;
  }

  lemma {:induction false} ValueOrder(a: string, b: string)
    requires Digits(a) && Digits(b) && |a| == |b|
    ensures Less(a, b) <==> Value(a) < Value(b)
  {
    if |a| > 0 {
      var x, y := (a[0] - '0') as nat, (b[0] - '0') as nat;
      if x < y {
        LeadingDigitDecides(x, y, Pow10(|a| - 1), Value(a[1..]), Value(b[1..]));
      } else if y < x {
        LeadingDigitDecides(y, x, Pow10(|a| - 1), Value(b[1..]), Value(a[1..]));
      } else {
        ValueOrder(a[1..], b[1..]);
      }
    }
  }

  /** Texts that differ at some position compare the same whatever follows. */
  lemma {:induction false} OrderFixedByFirstDifference(x: string, y: string, u: string, v: string)
    requires !(x <= y) && !(y <= x)
    ensures Less(x + u, y + v) <==> Less(x, y)
  {
    if x[0] == y[0] {
      assert x == [x[0]] + x[1..] && y == [y[0]] + y[1..];
      OrderFixedByFirstDifference(x[1..], y[1..], u, v);
      assert (x + u)[1..] == x[1..] + u && (y + v)[1..] == y[1..] + v;
    }
  }

  lemma {:induction false} NothingBelowZeros(p: string)
    requires Digits(p)
    ensures !Less(p, Zeros(|p|))
  {
    if |p| > 0 {
      NothingBelowZeros(p[1..]);
      assert Zeros(|p|)[1..] == Zeros(|p| - 1);
    }
  }

  lemma SmallerIsNotExtension(a: string, b: string)
    requires Digits(a) && Digits(b) && |a| == |b| && Less(a, b)
    ensures !(Strip(b) <= Strip(a))
  {
    StripDropsZeros(a);
    StripDropsZeros(b);
    var y, k := Strip(b), |b| - |Strip(b)|;
    if y <= Strip(a) {
      var rest := a[|y|..];
      assert |rest| == k && a == y + rest && b == y + Zeros(k) by {
        assert Strip(a) <= a;
      }
      LessAfterPrefix(y, rest, Zeros(k));
      NothingBelowZeros(rest);
    }
  }

  /** A text whose fraction is continued by the other's sorts after it: 'Z' follows '.' and digits. */
  lemma ExtensionSortsFirst(x: string, y: string)
    requires Digits(y) && x <= y && x != y
    ensures !Less(Tail(x), Tail(y))
  {
    if x != "" {
      var rest := y[|x|..] + "Z";
      assert Tail(y) == "." + x + rest && Tail(x) == "." + x + "Z";
      assert !Less("Z", rest);
      hide Less, Tail;
      LessAfterPrefix("." + x, "Z", rest);
    }
  }

  /** Fractions that part ways keep their order inside the text. */
  lemma TailKeepsDifference(x: string, y: string)
    requires !(x <= y) && !(y <= x)
    ensures Less(Tail(x), Tail(y)) <==> Less(x, y)
  {
    assert y != "" && x != "";
    OrderFixedByFirstDifference(x, y, "Z", "Z");
    LessAfterPrefix(".", x + "Z", y + "Z");
    assert "." + x + "Z" == "." + (x + "Z") && "." + y + "Z" == "." + (y + "Z");
  }

  /**
   * Two instants of the same second: their texts are in time order if and only if the shorter
   * fraction is not continued by the longer one.
   */
  lemma TextOrderIsTimeOrder(second: string, a: string, b: string)
    requires Digits(a) && Digits(b) && |a| == |b| && Value(a) < Value(b)
    ensures Less(Format(second, a), Format(second, b)) <==> !(Strip(a) <= Strip(b))
  {
    hide Strip, Less, Value, Tail, Digits;
    ValueOrder(a, b);
    SmallerIsNotExtension(a, b);
    var x, y := Strip(a), Strip(b);
    LessAfterPrefix(second, Tail(x), Tail(y));
    if x <= y {
      StripDropsZeros(b);
      assert x != y;
      ExtensionSortsFirst(x, y);
    } else {
      StrippedKeepOrder(a, b);
      TailKeepsDifference(x, y);
    }
  }

  lemma StrippedKeepOrder(a: string, b: string)
    requires Digits(a) && Digits(b) && !(Strip(a) <= Strip(b)) && !(Strip(b) <= Strip(a))
    ensures Less(a, b) <==> Less(Strip(a), Strip(b))
  {
    hide Less;
    StripDropsZeros(a);
    StripDropsZeros(b);
    OrderFixedByFirstDifference(Strip(a), Strip(b), Zeros(|a| - |Strip(a)|), Zeros(|b| - |Strip(b)|));
  }

  /** Different instants of a second have different texts. */
  lemma FormatInjective(second: string, a: string, b: string)
    requires Digits(a) && Digits(b) && |a| == |b| && Format(second, a) == Format(second, b)
    ensures a == b
  {
    StripDropsZeros(a);
    StripDropsZeros(b);
    var x, y := Strip(a), Strip(b);
    assert Tail(x) == Format(second, a)[|second|..] == Format(second, b)[|second|..] == Tail(y);
    if x != "" {
      assert x == Tail(x)[1..|Tail(x)| - 1] && y == Tail(y)[1..|Tail(y)| - 1];
    }
  }

  // ---- instants of different seconds -------------------------------------------------------------------

  /** The calendar fields of an instant, in UTC. */
  datatype Civil = Civil(year: nat, month: nat, day: nat, hour: nat, minute: nat, second: nat)

  /** The years four digits can show; the other fields have two. */
  predicate Printable(c: Civil) {
    c.year < 10000 && c.month < 100 && c.day < 100 && c.hour < 100 && c.minute < 100 && c.second < 100
  }

  predicate EarlierSecond(c: Civil, d: Civil) {
    c.year < d.year
    || (c.year == d.year && (c.month < d.month
    || (c.month == d.month && (c.day < d.day
    || (c.day == d.day && (c.hour < d.hour
    || (c.hour == d.hour && (c.minute < d.minute
    || (c.minute == d.minute && c.second < d.second)))))))))
  }

  /** `n` in `k` digits. */
  function Pad(n: nat, k: nat): (text: string)
    ensures |text| == k
  {
    if k == 0 then "" else Pad(n / 10, k - 1) + ['0' + (n % 10) as char]
  }

  /** The fixed-width part of the layout, up to the seconds. */
  function SecondText(c: Civil): (text: string)
    ensures |text| == 19
  {
    Pad(c.year, 4) + ("-" + (Pad(c.month,
                                 2) + ("-" + (Pad(c.day,
                                                  2) + ("T" + (Pad(c.hour,
                                                                   2) + (":" + (Pad(c.minute,
                                                                       2) + (":" + Pad(c.second, 2))))))))))
  }

  /** Texts with leading parts of one length are ordered by these parts first. */
  lemma {:induction false} LessByParts(a: string, b: string, u: string, v: string)
    requires |a| == |b|
    ensures Less(a + u, b + v) <==> Less(a, b) || (a == b && Less(u, v))
  {
    if |a| == 0 {
      assert a + u == u && b + v == v;
    } else {
      LessByParts(a[1..], b[1..], u, v);
      assert (a + u)[1..] == a[1..] + u && (b + v)[1..] == b[1..] + v;
      assert a == [a[0]] + a[1..] && b == [b[0]] + b[1..];
    }
  }

  lemma {:induction false} PadOrder(m: nat, n: nat, k: nat)
    requires m < Pow10(k) && n < Pow10(k)
    ensures Less(Pad(m, k), Pad(n, k)) <==> m < n
    ensures Pad(m, k) == Pad(n, k) <==> m == n
  {
    if k > 0 {
      PadOrder(m / 10, n / 10, k - 1);
      var x, y := ['0' + (m % 10) as char], ['0' + (n % 10) as char];
      LessByParts(Pad(m / 10, k - 1), Pad(n / 10, k - 1), x, y);
      assert Less(x, y) <==> m % 10 < n % 10;
      assert Pad(m, k)[..k - 1] == Pad(m / 10, k - 1) && Pad(n, k)[..k - 1] == Pad(n / 10, k - 1);
      assert Pad(m, k)[k - 1] == x[0] && Pad(n, k)[k - 1] == y[0];
    }
  }

  lemma FieldOrder(m: nat, n: nat, k: nat, u: string, v: string)
    requires m < Pow10(k) && n < Pow10(k)
    ensures Less(Pad(m, k) + u, Pad(n, k) + v) <==> m < n || (m == n && Less(u, v))
  {
    PadOrder(m, n, k);
    LessByParts(Pad(m, k), Pad(n, k), u, v);
  }

  lemma SecondOrder(c: Civil, d: Civil)
    requires Printable(c) && Printable(d)
    ensures Less(SecondText(c), SecondText(d)) <==> EarlierSecond(c, d)
  {
    assert Pow10(2) == 100 && Pow10(4) == 10000;
    hide Less, Pad, Pow10;
    var c1, d1 := ":" + Pad(c.second, 2), ":" + Pad(d.second, 2);
    PadOrder(c.second, d.second, 2);
    LessAfterPrefix(":", Pad(c.second, 2), Pad(d.second, 2));
    var c2, d2 := Pad(c.minute, 2) + c1, Pad(d.minute, 2) + d1;
    FieldOrder(c.minute, d.minute, 2, c1, d1);
    LessAfterPrefix(":", c2, d2);
    var c3, d3 := Pad(c.hour, 2) + (":" + c2), Pad(d.hour, 2) + (":" + d2);
    FieldOrder(c.hour, d.hour, 2, ":" + c2, ":" + d2);
    LessAfterPrefix("T", c3, d3);
    var c4, d4 := Pad(c.day, 2) + ("T" + c3), Pad(d.day, 2) + ("T" + d3);
    FieldOrder(c.day, d.day, 2, "T" + c3, "T" + d3);
    LessAfterPrefix("-", c4, d4);
    var c5, d5 := Pad(c.month, 2) + ("-" + c4), Pad(d.month, 2) + ("-" + d4);
    FieldOrder(c.month, d.month, 2, "-" + c4, "-" + d4);
    LessAfterPrefix("-", c5, d5);
    FieldOrder(c.year, d.year, 4, "-" + c5, "-" + d5);
  }

  /**
   * Exactly when text order is time order, for any two instants: the later text sorts after the
   * earlier one unless both fall into one second and the earlier fraction is continued by the later.
   */
  lemma TextOrderExactly(c: Civil, a: string, d: Civil, b: string)
    requires Printable(c) && Printable(d) && Digits(a) && Digits(b) && |a| == |b|
    requires EarlierSecond(c, d) || (c == d && Value(a) < Value(b))
    ensures Less(Format(SecondText(c), a), Format(SecondText(d), b)) <==> !(c == d && Strip(a) <= Strip(b))
  {
    hide SecondText, Less, Strip, Tail, Value;
    if c == d {
      TextOrderIsTimeOrder(SecondText(c), a, b);
    } else {
      SecondOrder(c, d);
      LessByParts(SecondText(c), SecondText(d), Tail(Strip(a)), Tail(Strip(b)));
    }
  }
}
