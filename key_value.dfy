/**
 * The storefront's key/value tables (site settings, user roles) as lists of
 * rows, and the three ways the source reads them: a dictionary built by a
 * `forEach` loop (a later row with the same key overwrites an earlier one),
 * `rows.find(...)` (the first row with the key wins) and an upsert of
 * several pairs in turn.
 */
module KeyValue {
  import opened Common

  /** The dictionary a loop `m[row.key] = row.value` leaves behind. */
  function LastWins<K(==), V>(rows: seq<(K, V)>): map<K, V> {
    if rows == [] then map[]
    else LastWins(rows[..|rows| - 1])[rows[|rows| - 1].0 := rows[|rows| - 1].1]
  }

  /** The `forEach` loop itself. */
  method BuildMap<K(==), V>(rows: seq<(K, V)>) returns (m: map<K, V>)
    ensures m == LastWins(rows)
  {
    m := map[];
    for i := 0 to |rows|
      invariant m == LastWins(rows[..i])
    {
      assert rows[..i + 1][..i] == rows[..i];
      m := m[rows[i].0 := rows[i].1];
    }
    assert rows[..|rows|] == rows;
  }

  /** A key is in the dictionary exactly when some row carries it. */
  lemma {:induction false} LastWinsKeys<K, V>(rows: seq<(K, V)>, k: K)
    ensures k in LastWins(rows) <==> exists i :: 0 <= i < |rows| && rows[i].0 == k
  {
    if rows != [] {
      var init := rows[..|rows| - 1];
      LastWinsKeys(init, k);
      if k != rows[|rows| - 1].0 && k in LastWins(rows) {
        var i :| 0 <= i < |init| && init[i].0 == k;
        assert rows[i].0 == k;
      }
      if exists i :: 0 <= i < |rows| && rows[i].0 == k {
        var i :| 0 <= i < |rows| && rows[i].0 == k;
        if i < |init| {
          assert init[i].0 == k;
        }
      }
    }
  }

  /** The value of a key is the value of the last row that carries it. */
  lemma {:induction false} LastWinsValue<K, V>(rows: seq<(K, V)>, j: nat)
    requires j < |rows|
    requires forall i :: j < i < |rows| ==> rows[i].0 != rows[j].0
    ensures rows[j].0 in LastWins(rows) && LastWins(rows)[rows[j].0] == rows[j].1
  {
    if j < |rows| - 1 {
      var init := rows[..|rows| - 1];
      assert init[j] == rows[j];
      LastWinsValue(init, j);
    }
  }

  /** `m[k]`, absent as `None`. */
  function Lookup<K(==), V>(m: map<K, V>, k: K): Option<V> {
    if k in m then Some(m[k]) else None
  }

  /** `rows.find(r => r.key == k)?.value`. */
  function FindFirst<K(==), V>(rows: seq<(K, V)>, k: K): (r: Option<V>)
    ensures r.Some? <==> exists i :: 0 <= i < |rows| && rows[i].0 == k
  {
    if rows == [] then None
    else if rows[0].0 == k then Some(rows[0].1)
    else
      var r := FindFirst(rows[1..], k);
      assert forall i :: 1 <= i < |rows| ==> rows[i] == rows[1..][i - 1];
      r
  }

  /** No two rows carry the same key (the `key` column is unique). */
  predicate UniqueKeys<K(==), V>(rows: seq<(K, V)>) {
    forall i, j :: 0 <= i < j < |rows| ==> rows[i].0 != rows[j].0
  }

  lemma {:induction false} FindFirstIndex<K, V>(rows: seq<(K, V)>, k: K, j: nat)
    requires j < |rows| && rows[j].0 == k
    requires forall i :: 0 <= i < j ==> rows[i].0 != k
    ensures FindFirst(rows, k) == Some(rows[j].1)
  {
    if j > 0 {
      FindFirstIndex(rows[1..], k, j - 1);
    }
  }

  /**
   * With unique keys, the first row and the last row with a key are the same
   * row, so `find` and the `forEach` dictionary agree.
   */
  lemma FindFirstAgreesWithLastWins<K, V>(rows: seq<(K, V)>, k: K)
    requires UniqueKeys(rows)
    ensures FindFirst(rows, k) == Lookup(LastWins(rows), k)
  {
    LastWinsKeys(rows, k);
    if j :| 0 <= j < |rows| && rows[j].0 == k {
      FindFirstIndex(rows, k, j);
      LastWinsValue(rows, j);
    }
  }

  /** Upserting the pairs one after another (`onConflict: "key"`). */
  function Upsert<K(==), V>(m: map<K, V>, pairs: seq<(K, V)>): map<K, V>
    decreases |pairs|
  {
    if pairs == [] then m else Upsert(m[pairs[0].0 := pairs[0].1], pairs[1..])
  }

  /** After an upsert, every upserted key holds the value of its last pair, and the rest are untouched. */
  lemma {:induction false} UpsertLookup<K, V>(m: map<K, V>, pairs: seq<(K, V)>, k: K)
    ensures Lookup(Upsert(m, pairs), k) == (if k in LastWins(pairs) then Some(LastWins(pairs)[k]) else Lookup(m, k))
    decreases |pairs|
  {
    if pairs != [] {
      UpsertLookup(m[pairs[0].0 := pairs[0].1], pairs[1..], k);
      LastWinsKeys(pairs, k);
      LastWinsKeys(pairs[1..], k);
      if k in LastWins(pairs[1..]) {
        var i :| 0 <= i < |pairs[1..]| && pairs[1..][i].0 == k;
        LastWinsShift(pairs, k);
      } else if k == pairs[0].0 {
        LastWinsValue(pairs, 0);
      } else {
        assert forall i :: 0 <= i < |pairs| ==> pairs[i].0 != k by {
          forall i | 0 <= i < |pairs| ensures pairs[i].0 != k {
            if i > 0 { assert pairs[i] == pairs[1..][i - 1]; }
          }
        }
      }
    }
  }

  /** Dropping the first row does not change the value of a key a later row carries. */
  lemma {:induction false} LastWinsShift<K, V>(pairs: seq<(K, V)>, k: K)
    requires pairs != [] && k in LastWins(pairs[1..])
    ensures k in LastWins(pairs) && LastWins(pairs)[k] == LastWins(pairs[1..])[k]
  {
    var n := |pairs|;
    var tail := pairs[1..];
    if k != pairs[n - 1].0 {
      var init := pairs[..n - 1];
      assert tail[..|tail| - 1] == init[1..];
      assert tail[|tail| - 1] == pairs[n - 1];
      LastWinsShift(init, k);
    }
  }
}
