/**
 * The table operations the scripts perform with pandas: `drop_duplicates` on one key column
 * (keeping the first or the last row of each key), a left `merge` on a key, and the
 * append-then-deduplicate save that every collector ends with.
 */
module Table {
  import opened Wrappers

  /** The keys that occur in a table. */
  function KeysOf<T, K>(rows: seq<T>, key: T -> K): set<K> {
    if rows == [] then {} else {key(rows[0])} + KeysOf(rows[1..], key)
  }

  predicate UniqueKeys<T, K(==)>(rows: seq<T>, key: T -> K) {
    forall i, j :: 0 <= i < j < |rows| ==> key(rows[i]) != key(rows[j])
  }

  /** A key is among the keys of a table exactly when some row carries it. */
  lemma {:induction false} KeysOfIndex<T, K>(rows: seq<T>, key: T -> K, k: K)
    ensures k in KeysOf(rows, key) <==> exists i :: 0 <= i < |rows| && key(rows[i]) == k
  {
    if rows != [] {
      KeysOfIndex(rows[1..], key, k);
      if exists i :: 0 <= i < |rows[1..]| && key(rows[1..][i]) == k {
        var i :| 0 <= i < |rows[1..]| && key(rows[1..][i]) == k;
        assert key(rows[i + 1]) == k;
      }
      if exists i :: 0 <= i < |rows| && key(rows[i]) == k {
        var i :| 0 <= i < |rows| && key(rows[i]) == k;
        if i > 0 { assert key(rows[1..][i - 1]) == k; }
      }
    }
  }

  lemma {:induction false} KeysOfAppend<T, K>(a: seq<T>, b: seq<T>, key: T -> K)
    ensures KeysOf(a + b, key) == KeysOf(a, key) + KeysOf(b, key)
  {
    if a == [] {
      assert a + b == b;
    } else {
      assert (a + b)[1..] == a[1..] + b;
      KeysOfAppend(a[1..], b, key);
    }
  }

  /** In a table with unique keys, the first row's key does not recur. */
  lemma HeadKeyFresh<T, K>(rows: seq<T>, key: T -> K)
    requires rows != [] && UniqueKeys(rows, key)
    ensures key(rows[0]) !in KeysOf(rows[1..], key)
  {
    KeysOfIndex(rows[1..], key, key(rows[0]));
    forall i | 0 <= i < |rows[1..]| ensures key(rows[1..][i]) != key(rows[0]) {
      assert rows[1..][i] == rows[i + 1];
    }
  }

  /** `drop_duplicates(subset=key, keep='last')`: the last row of every key, in table order. */
  function DedupKeepLast<T, K(==)>(rows: seq<T>, key: T -> K): (r: seq<T>)
    ensures KeysOf(r, key) == KeysOf(rows, key)
    ensures UniqueKeys(r, key)
    ensures forall i :: 0 <= i < |r| ==> r[i] in rows
  {
    if rows == [] then []
    else
      var rest := DedupKeepLast(rows[1..], key);
      if key(rows[0]) in KeysOf(rows[1..], key) then rest
      else
        assert ([rows[0]] + rest)[1..] == rest;
        KeysOfIndex(rest, key, key(rows[0]));
        [rows[0]] + rest
  }

  /** The last row of the table that has key `k`. */
  function LastWith<T, K(==)>(rows: seq<T>, key: T -> K, k: K): (x: T)
    requires k in KeysOf(rows, key)
    ensures x in rows && key(x) == k
  {
    if k !in KeysOf(rows[1..], key) then rows[0] else LastWith(rows[1..], key, k)
  }

  /** The first row of the table that has key `k`. */
  function FirstWith<T, K(==)>(rows: seq<T>, key: T -> K, k: K): (x: T)
    requires k in KeysOf(rows, key)
    ensures x in rows && key(x) == k
  {
    if key(rows[0]) == k then rows[0] else FirstWith(rows[1..], key, k)
  }

  /** Keep-last deduplication keeps, for every key, exactly the last row with that key. */
  lemma {:induction false} DedupKeepLastIsLast<T, K>(rows: seq<T>, key: T -> K)
    ensures forall i :: 0 <= i < |DedupKeepLast(rows, key)| ==>
              key(DedupKeepLast(rows, key)[i]) in KeysOf(rows, key) &&
              DedupKeepLast(rows, key)[i] == LastWith(rows, key, key(DedupKeepLast(rows, key)[i]))
  {
    if rows != [] {
      DedupKeepLastIsLast(rows[1..], key);
    }
  }

  /** After appending new rows to old ones, the last row of a key the new rows have is a new row. */
  lemma {:induction false} LastWithAppend<T, K>(old_: seq<T>, new_: seq<T>, key: T -> K, k: K)
    requires k in KeysOf(new_, key)
    ensures k in KeysOf(old_ + new_, key)
    ensures LastWith(old_ + new_, key, k) == LastWith(new_, key, k)
    decreases |old_|
  {
    KeysOfAppend(old_, new_, key);
    if old_ == [] {
      assert old_ + new_ == new_;
    } else {
      var all := old_ + new_;
      assert all[1..] == old_[1..] + new_;
      KeysOfAppend(old_[1..], new_, key);
      LastWithAppend(old_[1..], new_, key, k);
    }
  }

  /** Deduplicating a table whose keys are already unique changes nothing. */
  lemma {:induction false} DedupUniqueIsIdentity<T, K>(rows: seq<T>, key: T -> K)
    requires UniqueKeys(rows, key)
    ensures DedupKeepLast(rows, key) == rows
  {
    if rows != [] {
      assert UniqueKeys(rows[1..], key);
      DedupUniqueIsIdentity(rows[1..], key);
      HeadKeyFresh(rows, key);
    }
  }

  /** Rows whose keys all recur later are dropped by keep-last deduplication. */
  lemma {:induction false} DedupShadowed<T, K>(a: seq<T>, b: seq<T>, key: T -> K)
    requires KeysOf(a, key) <= KeysOf(b, key)
    ensures DedupKeepLast(a + b, key) == DedupKeepLast(b, key)
  {
    if a == [] {
      assert a + b == b;
    } else {
      var ab := a + b;
      assert ab[1..] == a[1..] + b;
      KeysOfAppend(a[1..], b, key);
      DedupShadowed(a[1..], b, key);
    }
  }

  /** Appending a table with unique keys to itself and deduplicating gives the table back. */
  lemma SelfAppendIdempotent<T, K>(rows: seq<T>, key: T -> K)
    requires UniqueKeys(rows, key)
    ensures DedupKeepLast(rows + rows, key) == rows
  {
    DedupShadowed(rows, rows, key);
    DedupUniqueIsIdentity(rows, key);
  }

  /** `drop_duplicates(subset=key)` (keep='first'): the first row of every key, in table order. */
  function DedupKeepFirst<T, K(==)>(rows: seq<T>, key: T -> K): (r: seq<T>)
    ensures KeysOf(r, key) == KeysOf(rows, key)
    ensures UniqueKeys(r, key)
    ensures forall i :: 0 <= i < |r| ==> r[i] in rows
  {
    if rows == [] then []
    else
      var init := rows[..|rows| - 1];
      var last := rows[|rows| - 1];
      var rest := DedupKeepFirst(init, key);
      assert rows == init + [last];
      KeysOfAppend(init, [last], key);
      if key(last) in KeysOf(init, key) then rest
      else
        KeysOfAppend(rest, [last], key);
        KeysOfIndex(rest, key, key(last));
        rest + [last]
  }

  /** Keep-first deduplication keeps, for every key, exactly the first row with that key. */
  lemma {:induction false} DedupKeepFirstIsFirst<T, K>(rows: seq<T>, key: T -> K)
    ensures forall i :: 0 <= i < |DedupKeepFirst(rows, key)| ==>
              key(DedupKeepFirst(rows, key)[i]) in KeysOf(rows, key) &&
              DedupKeepFirst(rows, key)[i] == FirstWith(rows, key, key(DedupKeepFirst(rows, key)[i]))
  {
    if rows != [] {
      var init := rows[..|rows| - 1];
      var last := rows[|rows| - 1];
      assert rows == init + [last];
      DedupKeepFirstIsFirst(init, key);
      KeysOfAppend(init, [last], key);
      forall k | k in KeysOf(init, key) ensures FirstWith(rows, key, k) == FirstWith(init, key, k) {
        FirstWithAppend(init, [last], key, k);
      }
      if key(last) !in KeysOf(init, key) {
        FirstWithNew(init, last, key);
      }
    }
  }

  lemma {:induction false} FirstWithAppend<T, K>(a: seq<T>, b: seq<T>, key: T -> K, k: K)
    requires k in KeysOf(a, key)
    ensures k in KeysOf(a + b, key)
    ensures FirstWith(a + b, key, k) == FirstWith(a, key, k)
  {
    KeysOfAppend(a, b, key);
    if key(a[0]) != k {
      assert (a + b)[1..] == a[1..] + b;
      FirstWithAppend(a[1..], b, key, k);
    }
  }

  lemma {:induction false} FirstWithNew<T, K>(a: seq<T>, x: T, key: T -> K)
    requires key(x) !in KeysOf(a, key)
    ensures key(x) in KeysOf(a + [x], key)
    ensures FirstWith(a + [x], key, key(x)) == x
  {
    KeysOfAppend(a, [x], key);
    if a != [] {
      assert (a + [x])[1..] == a[1..] + [x];
      FirstWithNew(a[1..], x, key);
    }
  }

  /** The rows of `right` whose key is `k`, in order. */
  function MatchesOf<R, K(==)>(right: seq<R>, rk: R -> K, k: K): (m: seq<R>)
    ensures forall i :: 0 <= i < |m| ==> m[i] in right && rk(m[i]) == k
    ensures m == [] <==> k !in KeysOf(right, rk)
  {
    if right == [] then []
    else (if rk(right[0]) == k then [right[0]] else []) + MatchesOf(right[1..], rk, k)
  }

  /** Each left row paired with each of its matches. */
  function Pairs<L, R>(l: L, m: seq<R>): (p: seq<(L, Option<R>)>)
    ensures |p| == |m|
    ensures forall i :: 0 <= i < |p| ==> p[i] == (l, Some(m[i]))
  {
    if m == [] then [] else [(l, Some(m[0]))] + Pairs(l, m[1..])
  }

  /**
   * `left.merge(right, on=key, how='left')`: every left row in order, paired with each matching
   * right row in right order, or with `None` when no right row has its key.
   */
  function LeftJoin<L, R, K(==)>(left: seq<L>, right: seq<R>, lk: L -> K, rk: R -> K): (out: seq<(L, Option<R>)>)
    ensures forall i :: 0 <= i < |out| ==> out[i].0 in left
    ensures forall i :: 0 <= i < |out| ==> (out[i].1.None? <==> lk(out[i].0) !in KeysOf(right, rk))
    ensures forall i :: 0 <= i < |out| && out[i].1.Some? ==>
              out[i].1.value in right && rk(out[i].1.value) == lk(out[i].0)
    ensures |out| >= |left|
  {
    if left == [] then []
    else
      var m := MatchesOf(right, rk, lk(left[0]));
      (if m == [] then [(left[0], None)] else Pairs(left[0], m)) + LeftJoin(left[1..], right, lk, rk)
  }

  /** A left join keeps every left row. */
  lemma {:induction false} LeftJoinKeepsLeft<L, R, K>(left: seq<L>, right: seq<R>, lk: L -> K, rk: R -> K, j: nat)
    requires j < |left|
    ensures exists i :: 0 <= i < |LeftJoin(left, right, lk, rk)| && LeftJoin(left, right, lk, rk)[i].0 == left[j]
  {
    var out := LeftJoin(left, right, lk, rk);
    var m := MatchesOf(right, rk, lk(left[0]));
    var here := if m == [] then [(left[0], None)] else Pairs(left[0], m);
    assert out == here + LeftJoin(left[1..], right, lk, rk);
    if j == 0 {
      assert out[0] == here[0];
    } else {
      LeftJoinKeepsLeft(left[1..], right, lk, rk, j - 1);
      var rest := LeftJoin(left[1..], right, lk, rk);
      var i :| 0 <= i < |rest| && rest[i].0 == left[1..][j - 1];
      assert out[|here| + i] == rest[i];
    }
  }

  lemma {:induction false} MatchesOfUnique<R, K>(right: seq<R>, rk: R -> K, k: K)
    requires UniqueKeys(right, rk)
    ensures |MatchesOf(right, rk, k)| <= 1
  {
    if right != [] {
      assert UniqueKeys(right[1..], rk);
      MatchesOfUnique(right[1..], rk, k);
      HeadKeyFresh(right, rk);
    }
  }

  /** When the right table has unique keys, the join has one row per left row, in left order. */
  lemma {:induction false} LeftJoinUniqueRight<L, R, K>(left: seq<L>, right: seq<R>, lk: L -> K, rk: R -> K)
    requires UniqueKeys(right, rk)
    ensures |LeftJoin(left, right, lk, rk)| == |left|
    ensures forall i :: 0 <= i < |left| ==> LeftJoin(left, right, lk, rk)[i].0 == left[i]
  {
    if left != [] {
      MatchesOfUnique(right, rk, lk(left[0]));
      LeftJoinUniqueRight(left[1..], right, lk, rk);
      var rest := LeftJoin(left[1..], right, lk, rk);
      var h := LeftJoinHead(left, right, lk, rk);
      var out := [h] + rest;
      forall i | 0 <= i < |left| ensures out[i].0 == left[i] {
        if i > 0 { assert out[i] == rest[i - 1]; }
      }
    }
  }

  /** With at most one match, the first left row contributes exactly one row to the join. */
  lemma LeftJoinHead<L, R, K>(left: seq<L>, right: seq<R>, lk: L -> K, rk: R -> K) returns (h: (L, Option<R>))
    requires left != [] && |MatchesOf(right, rk, lk(left[0]))| <= 1
    ensures h.0 == left[0] && LeftJoin(left, right, lk, rk) == [h] + LeftJoin(left[1..], right, lk, rk)
  {
    var m := MatchesOf(right, rk, lk(left[0]));
    if m == [] {
      h := (left[0], None);
    } else {
      h := (left[0], Some(m[0]));
      assert Pairs(left[0], m) == [h];
    }
  }

  /**
   * The final save of a collector. `None` when nothing was collected: the output file is not touched.
   * Otherwise the rows written: the existing file's rows followed by the new ones, deduplicated on the
   * key keeping the last row, or the new rows alone when there is no file yet.
   */
  function AppendSave<T, K(==)>(existing: Option<seq<T>>, collected: seq<T>, key: T -> K): (w: Option<seq<T>>)
    ensures w.None? <==> collected == []
    ensures w.Some? && existing.None? ==> w.value == collected
    ensures w.Some? && existing.Some? ==>
              UniqueKeys(w.value, key) && KeysOf(w.value, key) == KeysOf(existing.value + collected, key)
  {
    if collected == [] then None
    else match existing
      case None => Some(collected)
      case Some(rows) => Some(DedupKeepLast(rows + collected, key))
  }

  /** In an append save onto an existing file, every newly collected key ends up with its latest new row. */
  lemma NewRowsWin<T, K>(existing: seq<T>, collected: seq<T>, key: T -> K, k: K)
    requires k in KeysOf(collected, key)
    ensures AppendSave(Some(existing), collected, key).Some?
    ensures exists i :: 0 <= i < |AppendSave(Some(existing), collected, key).value| &&
              AppendSave(Some(existing), collected, key).value[i] == LastWith(collected, key, k)
  {
    var all := existing + collected;
    var w := DedupKeepLast(all, key);
    LastWithAppend(existing, collected, key, k);
    KeysOfIndex(w, key, k);
    var i :| 0 <= i < |w| && key(w[i]) == k;
    DedupKeepLastIsLast(all, key);
    assert w[i] == LastWith(all, key, k);
  }
}
