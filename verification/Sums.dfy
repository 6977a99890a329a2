/** Sums over table rows. */
module Sums {

  function SumOf<T>(rows: seq<T>, f: T -> int): int {
    if |rows| == 0 then 0 else SumOf(rows[..|rows| - 1], f) + f(rows[|rows| - 1])
  }

  lemma SumAppend<T>(rows: seq<T>, row: T, f: T -> int)
    ensures SumOf(rows + [row], f) == SumOf(rows, f) + f(row)
  {
    assert (rows + [row])[..|rows|] == rows;
  }

  lemma {:induction false} SumConcat<T>(a: seq<T>, b: seq<T>, f: T -> int)
    ensures SumOf(a + b, f) == SumOf(a, f) + SumOf(b, f)
  {
    if |b| == 0 {
      assert a + b == a;
    } else {
      assert (a + b)[..|a + b| - 1] == a + b[..|b| - 1];
      SumConcat(a, b[..|b| - 1], f);
    }
  }

  function Inserted<T>(rows: seq<T>, at: nat, row: T): seq<T>
    requires at <= |rows|
  {
    rows[..at] + [row] + rows[at..]
  }

  /** Where a row of the longer table was before. */
  lemma InsertedAt<T>(rows: seq<T>, at: nat, row: T)
    requires at <= |rows|
    ensures var all := Inserted(rows, at, row);
            && |all| == |rows| + 1 && all[at] == row
            && (forall i | 0 <= i < at :: all[i] == rows[i])
            && (forall i | at < i < |all| :: all[i] == rows[i - 1])
            && (forall i | 0 <= i < |rows| :: all[if i < at then i else i + 1] == rows[i])
  {
  }

  /** Inserting a row anywhere adds its value. */
  lemma SumInsert<T>(rows: seq<T>, at: nat, row: T, f: T -> int)
    requires at <= |rows|
    ensures SumOf(Inserted(rows, at, row), f) == SumOf(rows, f) + f(row)
  {
    hide SumOf;
    var a, b := rows[..at], rows[at..];
    SumConcat(a, b, f);
    assert rows == a + b;
    SumAppend(a, row, f);
    SumConcat(a + [row], b, f);
  }

  lemma {:induction false} SumBounds<T>(rows: seq<T>, f: T -> int)
    requires forall i | 0 <= i < |rows| :: f(rows[i]) >= 0
    ensures SumOf(rows, f) >= 0
    ensures forall i | 0 <= i < |rows| :: f(rows[i]) <= SumOf(rows, f)
  {
    if |rows| > 0 {
      SumBounds(rows[..|rows| - 1], f);
      assert forall i | 0 <= i < |rows| - 1 :: rows[i] == rows[..|rows| - 1][i];
    }
  }

  lemma {:induction false} SumZero<T>(rows: seq<T>, f: T -> int)
    requires forall i | 0 <= i < |rows| :: f(rows[i]) == 0
    ensures SumOf(rows, f) == 0
  {
    if |rows| > 0 {
      SumZero(rows[..|rows| - 1], f);
    }
  }

  lemma {:induction false} SumPlus<T>(rows: seq<T>, f: T -> int, g: T -> int, h: T -> int)
    requires forall i | 0 <= i < |rows| :: h(rows[i]) == f(rows[i]) + g(rows[i])
    ensures SumOf(rows, h) == SumOf(rows, f) + SumOf(rows, g)
  {
    if |rows| > 0 {
      SumPlus(rows[..|rows| - 1], f, g, h);
    }
  }

  // ---- sums per key, as GROUP BY computes them --------------------------------------------------

  function Only<T, K(==)>(key: T -> K, k: K, f: T -> int): T -> int {
    (row: T) => if key(row) == k then f(row) else 0
  }

  function SumAt<T, K(==)>(rows: seq<T>, key: T -> K, k: K, f: T -> int): int {
    SumOf(rows, Only(key, k, f))
  }

  predicate Distinct<K(==)>(keys: seq<K>) {
    forall i, j | 0 <= i < j < |keys| :: keys[i] != keys[j]
  }

  function SumKeys<T, K(==)>(rows: seq<T>, keys: seq<K>, key: T -> K, f: T -> int): int {
    if |keys| == 0 then 0 else SumKeys(rows, keys[..|keys| - 1], key, f) + SumAt(rows, key, keys[|keys| - 1], f)
  }

  lemma {:induction false} SumKeysAppend<T, K>(rows: seq<T>, row: T, keys: seq<K>, key: T -> K, f: T -> int)
    requires Distinct(keys)
    ensures SumKeys(rows + [row], keys, key, f) ==
            SumKeys(rows, keys, key, f) + (if key(row) in keys then f(row) else 0)
  {
    if |keys| > 0 {
      var front, last := keys[..|keys| - 1], keys[|keys| - 1];
      SumKeysAppend(rows, row, front, key, f);
      SumAppend(rows, row, Only(key, last, f));
      assert keys == front + [last];
    }
  }

  lemma {:induction false} SumKeysEmpty<T, K>(keys: seq<K>, key: T -> K, f: T -> int)
    ensures SumKeys([], keys, key, f) == 0
  {
    if |keys| > 0 {
      SumKeysEmpty(keys[..|keys| - 1], key, f);
    }
  }

  /** Adding up per key loses nothing when every row that counts has one of the keys. */
  lemma {:induction false} SumByKey<T, K>(rows: seq<T>, keys: seq<K>, key: T -> K, f: T -> int)
    requires Distinct(keys)
    requires forall i | 0 <= i < |rows| :: f(rows[i]) == 0 || key(rows[i]) in keys
    ensures SumKeys(rows, keys, key, f) == SumOf(rows, f)
  {
    if |rows| == 0 {
      SumKeysEmpty(keys, key, f);
    } else {
      var front, last := rows[..|rows| - 1], rows[|rows| - 1];
      SumByKey(front, keys, key, f);
      SumKeysAppend(front, last, keys, key, f);
      assert rows == front + [last];
    }
  }

  lemma SumAtLast<T, K>(rows: seq<T>, key: T -> K, k: K, f: T -> int)
    requires |rows| > 0
    ensures var last := rows[|rows| - 1];
            SumAt(rows, key, k, f) == SumAt(rows[..|rows| - 1], key, k, f) + (if key(last) == k then f(last) else 0)
  {
    assert Only(key, k, f)(rows[|rows| - 1]) == if key(rows[|rows| - 1]) == k then f(rows[|rows| - 1]) else 0;
  }

  lemma SumAtAppend<T, K>(rows: seq<T>, row: T, key: T -> K, k: K, f: T -> int)
    ensures SumAt(rows + [row], key, k, f) == SumAt(rows, key, k, f) + (if key(row) == k then f(row) else 0)
  {
    SumAtLast(rows + [row], key, k, f);
    assert (rows + [row])[..|rows|] == rows;
  }

  /** A key no row has sums to nothing. */
  lemma SumAtAbsent<T, K>(rows: seq<T>, key: T -> K, k: K, f: T -> int)
    requires forall i | 0 <= i < |rows| :: key(rows[i]) != k
    ensures SumAt(rows, key, k, f) == 0
  {
    SumZero(rows, Only(key, k, f));
  }
}
