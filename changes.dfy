/**
 * Properties of the key vector, of the change detection between two key
 * vectors, and of the `'|'`-joined composite keys.
 */
module ChangeFacts {
  import opened Values
  import opened GroupBuilders
  import opened ControlBreak

  // ---------------------------------------------------------------------------
  // Group keys

  /** A field the record does not have reads as null, whose key is the empty string. */
  lemma MissingFieldKey(spec: GroupSpec, rec: Record, name: string)
    requires spec.expression == Field(name) && name !in rec
    ensures GroupKey(spec, rec) == ""
  {
  }

  /** An object value is keyed by its 32-character identity token. */
  lemma ObjectKey(spec: GroupSpec, rec: Record, id: nat)
    requires Eval(spec.expression, rec) == Obj(id)
    ensures GroupKey(spec, rec) == IdentityToken(id) && |GroupKey(spec, rec)| == 32
  {
  }

  // ---------------------------------------------------------------------------
  // Change detection

  /** Level `i` occurs in the list of changes. */
  predicate Names(changed: seq<(nat, string)>, i: nat) {
    exists j :: 0 <= j < |changed| && changed[j].0 == i
  }

  /** Levels strictly increase along the list. */
  predicate Ascending(changed: seq<(nat, string)>) {
    forall j, k :: 0 <= j < k < |changed| ==> changed[j].0 < changed[k].0
  }

  lemma NamesAppend(a: seq<(nat, string)>, b: seq<(nat, string)>, i: nat)
    ensures Names(a + b, i) <==> Names(a, i) || Names(b, i)
  {
    if Names(a + b, i) {
      var j :| 0 <= j < |a + b| && (a + b)[j].0 == i;
      if j < |a| {
        assert a[j] == (a + b)[j];
      } else {
        assert b[j - |a|] == (a + b)[j];
      }
    }
    if Names(a, i) {
      var j :| 0 <= j < |a| && a[j].0 == i;
      assert (a + b)[j] == a[j];
    }
    if Names(b, i) {
      var j :| 0 <= j < |b| && b[j].0 == i;
      assert (a + b)[|a| + j] == b[j];
    }
  }

  /** Below `n`, the first loop records exactly the levels whose keys differ. */
  lemma {:induction false} DifferingIff(prev: seq<string>, cur: seq<string>, n: nat, i: nat)
    requires n <= |prev| && n <= |cur| && i < n
    ensures Names(Differing(prev, cur, n), i) <==> prev[i] != cur[i]
    decreases n
  {
    var d := Differing(prev, cur, n - 1);
    var tail: seq<(nat, string)> := if prev[n - 1] != cur[n - 1] then [(n - 1, cur[n - 1])] else [];
    assert Differing(prev, cur, n) == d + tail;
    NamesAppend(d, tail, i);
    if i < n - 1 {
      DifferingIff(prev, cur, n - 1, i);
    } else {
      DifferingChanges(prev, cur, n - 1);
      assert !Names(d, i);
      if prev[i] != cur[i] {
        assert tail[0].0 == i;
      }
    }
  }

  /** The second loop lists every level from `from` below `n`, in order, with its key. */
  lemma {:induction false} AppendedExact(cur: seq<string>, from: nat, n: nat)
    requires from <= n <= |cur|
    ensures |Appended(cur, from, n)| == n - from
    ensures forall t :: 0 <= t < n - from ==> Appended(cur, from, n)[t] == (from + t, cur[from + t])
    decreases n
  {
    if n > from {
      AppendedExact(cur, from, n - 1);
    }
  }

  /**
   * On the levels both vectors have, a level is reported exactly when its
   * key differs.
   */
  lemma DetectChangesCommon(prev: seq<string>, cur: seq<string>, i: nat)
    requires i < |prev| && i < |cur|
    ensures Names(DetectChanges(prev, cur), i) <==> prev[i] != cur[i]
  {
    var m := MinLength(prev, cur);
    NamesAppend(Differing(prev, cur, m), Appended(cur, m, |cur|), i);
    DifferingIff(prev, cur, m, i);
    AppendedChanges(cur, m, |cur|);
  }

  /**
   * Every level of `cur` beyond the length of `prev` is reported; with
   * `DetectChangesBounded` and `DetectChangesAscending`, each entry carries the
   * new key of its level and the entries are in ascending order.
   */
  lemma DetectChangesTail(prev: seq<string>, cur: seq<string>, i: nat)
    requires |prev| <= i < |cur|
    ensures Names(DetectChanges(prev, cur), i)
  {
    var m := MinLength(prev, cur);
    var d := Differing(prev, cur, m);
    var a := Appended(cur, m, |cur|);
    AppendedExact(cur, m, |cur|);
    assert (d + a)[|d| + (i - m)] == a[i - m];
  }

  lemma {:induction false} DifferingAscending(prev: seq<string>, cur: seq<string>, n: nat)
    requires n <= |prev| && n <= |cur|
    ensures Ascending(Differing(prev, cur, n))
    decreases n
  {
    if n > 0 {
      DifferingAscending(prev, cur, n - 1);
      DifferingChanges(prev, cur, n - 1);
    }
  }

  /** The changes are listed by ascending level. */
  lemma DetectChangesAscending(prev: seq<string>, cur: seq<string>)
    ensures Ascending(DetectChanges(prev, cur))
  {
    var m := MinLength(prev, cur);
    var d: seq<(nat, string)> := Differing(prev, cur, m);
    var a: seq<(nat, string)> := Appended(cur, m, |cur|);
    DifferingAscending(prev, cur, m);
    DifferingChanges(prev, cur, m);
    AppendedExact(cur, m, |cur|);
    forall j, k | 0 <= j < k < |d + a|
      ensures (d + a)[j].0 < (d + a)[k].0
    {
      if k < |d| {
        assert (d + a)[j] == d[j] && (d + a)[k] == d[k];
      } else if j < |d| {
        assert (d + a)[j] == d[j] && (d + a)[k] == a[k - |d|];
      } else {
        assert (d + a)[j] == a[j - |d|] && (d + a)[k] == a[k - |d|];
      }
    }
  }

  /** Against an empty previous vector every level is reported, in order. */
  lemma DetectChangesFromNothing(cur: seq<string>)
    ensures |DetectChanges([], cur)| == |cur|
    ensures forall j :: 0 <= j < |cur| ==> DetectChanges([], cur)[j] == (j, cur[j])
  {
    AppendedExact(cur, 0, |cur|);
    assert DetectChanges([], cur) == Appended(cur, 0, |cur|);
  }

  // ---------------------------------------------------------------------------
  // Composite keys

  lemma JoinStep(parts: seq<string>, n: nat)
    requires 1 <= n < |parts|
    ensures Join(parts[..n + 1]) == Join(parts[..n]) + "|" + parts[n]
  {
    assert parts[..n + 1][..n] == parts[..n];
  }

  /** A deeper level's composite key is strictly longer. */
  lemma {:induction false} PrefixKeyLonger(keys: seq<string>, l1: nat, l2: nat)
    requires l1 < l2 < |keys|
    ensures |PrefixKey(keys, l1)| < |PrefixKey(keys, l2)|
    decreases l2
  {
    JoinStep(keys, l2);
    if l1 < l2 - 1 {
      PrefixKeyLonger(keys, l1, l2 - 1);
    }
  }

  /** The levels of one key vector never share a composite key. */
  lemma PrefixKeysDistinct(keys: seq<string>, l1: nat, l2: nat)
    requires l1 < |keys| && l2 < |keys| && l1 != l2
    ensures PrefixKey(keys, l1) != PrefixKey(keys, l2)
  {
    if l1 < l2 {
      PrefixKeyLonger(keys, l1, l2);
    } else {
      PrefixKeyLonger(keys, l2, l1);
    }
  }

  /**
   * The join is not injective once a key contains the separator: a one-level
   * key `a|b` and the two-level prefix `a`, `b` share a composite key.
   */
  lemma JoinCollision()
    ensures PrefixKey(["a|b"], 0) == PrefixKey(["a", "b"], 1) == "a|b"
  {
    assert ["a", "b"][..1] == ["a"];
  }
}
