/** The order in which Object.keys lists the keys of an ordinary object
    (OrdinaryOwnPropertyKeys in ECMAScript): first the array-index keys
    in ascending numeric order, then every other string key in the order
    it was first added. Assigning to an existing key keeps its place;
    `delete` removes it. The chat state keeps this list beside each
    record whose key order the program observes. */
module JsKeys {
  import opened JsString

  /** `a` may be listed before `b`: an array index may only be preceded
      by smaller array indices; any distinct key may precede a key that
      is not an array index. */
  predicate KeyBefore(a: string, b: string) {
    if IsArrayIndex(b) then IsArrayIndex(a) && DecimalValue(a) < DecimalValue(b) else a != b
  }

  /** What Object.keys order demands of a key list on its own: the
      array-index keys come first and in ascending numeric order, and no
      key occurs twice. The order among the other keys is insertion
      order, which is a property of how the list was built, not of the
      list: InsertKeyShape and RemoveKeyShape state it. */
  predicate Ordered(ks: seq<string>) {
    forall i, j :: 0 <= i < j < |ks| ==> KeyBefore(ks[i], ks[j])
  }

  /** `ks` lists the same keys as `m`, index keys first and ascending,
      without duplicates (`Ordered`). Insertion order among the other
      keys is what InsertKeyShape and RemoveKeyShape add. */
  ghost predicate KeysOf<V>(ks: seq<string>, m: map<string, V>) {
    Ordered(ks) && forall k :: k in m <==> k in ks
  }

  /** `a` is obtained from `b` by dropping elements. */
  predicate Subsequence<T(==)>(a: seq<T>, b: seq<T>)
    decreases |b|
  {
    || |a| == 0
    || (|b| > 0 && ((a[0] == b[0] && Subsequence(a[1..], b[1..])) || Subsequence(a, b[1..])))
  }

  /** Where the key `k` ends up when it is first assigned. */
  function InsertKey(ks: seq<string>, k: string): (r: seq<string>)
    ensures k in r
    ensures |r| == if k in ks then |ks| else |ks| + 1
  {
    if k in ks then ks
    else if !IsArrayIndex(k) then ks + [k]
    else InsertIndex(ks, k)
  }

  /** Places the array-index key `k` after the smaller array indices. */
  function InsertIndex(ks: seq<string>, k: string): (r: seq<string>)
    requires IsArrayIndex(k)
    ensures k in r && |r| == |ks| + 1
    decreases |ks|
  {
    if |ks| == 0 || !IsArrayIndex(ks[0]) || DecimalValue(k) < DecimalValue(ks[0]) then [k] + ks
    else [ks[0]] + InsertIndex(ks[1..], k)
  }

  /** The key list after `delete obj[k]`. */
  function RemoveKey(ks: seq<string>, k: string): (r: seq<string>)
    ensures k !in r && |r| <= |ks|
    decreases |ks|
  {
    if |ks| == 0 then []
    else if ks[0] == k then RemoveKey(ks[1..], k)
    else [ks[0]] + RemoveKey(ks[1..], k)
  }

  /** `Object.keys(obj)[0] || ''`: the first key, or '' when there is
      none (the empty string is the only falsy key, and it maps to ''
      either way). */
  function FirstOrEmpty(ks: seq<string>): (r: string)
    ensures |ks| > 0 ==> r in ks
    ensures |ks| == 0 ==> r == ""
  {
    if |ks| > 0 then ks[0] else ""
  }

  lemma {:induction false} InsertIndexShape(ks: seq<string>, k: string)
    requires IsArrayIndex(k) && Ordered(ks) && k !in ks
    ensures Ordered(InsertIndex(ks, k))
    ensures forall x :: x in InsertIndex(ks, k) <==> x in ks || x == k
    decreases |ks|
  {
    var r := InsertIndex(ks, k);
    if |ks| == 0 || !IsArrayIndex(ks[0]) || DecimalValue(k) < DecimalValue(ks[0]) {
      assert r == [k] + ks;
      forall i, j | 0 <= i < j < |r| ensures KeyBefore(r[i], r[j]) {
        if i == 0 {
          if IsArrayIndex(r[j]) {
            // r[j] == ks[j-1] is an index, so ks[0] is an index no larger than it
            if j > 1 { assert KeyBefore(ks[0], ks[j - 1]); }
          }
        } else {
          assert KeyBefore(ks[i - 1], ks[j - 1]);
        }
      }
    } else {
      var tail := ks[1..];
      assert Ordered(tail) by {
        forall i, j | 0 <= i < j < |tail| ensures KeyBefore(tail[i], tail[j]) {
          assert KeyBefore(ks[i + 1], ks[j + 1]);
        }
      }
      InsertIndexShape(tail, k);
      var rt := InsertIndex(tail, k);
      assert r == [ks[0]] + rt;
      // ks[0] is an index; it is not k, hence by canonicity its value is smaller
      assert DecimalValue(ks[0]) < DecimalValue(k) by {
        if DecimalValue(ks[0]) == DecimalValue(k) {
          CanonicalInjective(ks[0], k);
        }
      }
      forall j | 1 <= j < |r| ensures KeyBefore(r[0], r[j]) {
        var x := rt[j - 1];
        assert x in rt;
        if x != k {
          assert x in tail;
          var m :| 0 <= m < |tail| && tail[m] == x;
          assert KeyBefore(ks[0], ks[m + 1]);
        }
      }
      forall i, j | 0 <= i < j < |r| ensures KeyBefore(r[i], r[j]) {
        if i > 0 { assert KeyBefore(rt[i - 1], rt[j - 1]); }
      }
    }
  }

  /** Assigning a key keeps the list in Object.keys order: it adds
      exactly that key, the keys already there keep their relative order,
      and a new key that is not an array index goes last. */
  lemma InsertKeyShape(ks: seq<string>, k: string)
    requires Ordered(ks)
    ensures Ordered(InsertKey(ks, k))
    ensures forall x :: x in InsertKey(ks, k) <==> x in ks || x == k
    ensures Subsequence(ks, InsertKey(ks, k))
    ensures k !in ks && !IsArrayIndex(k) ==> InsertKey(ks, k) == ks + [k]
  {
    if k in ks {
      SubsequenceRefl(ks);
    } else {
      if IsArrayIndex(k) {
        InsertIndexShape(ks, k);
        SubsequenceInsertIndex(ks, k);
      } else {
        SubsequenceAppend(ks, k);
        var r := ks + [k];
        forall i, j | 0 <= i < j < |r| ensures KeyBefore(r[i], r[j]) {
          if j < |ks| { assert KeyBefore(ks[i], ks[j]); }
        }
      }
    }
  }

  lemma {:induction false} SubsequenceRefl<T>(a: seq<T>)
    ensures Subsequence(a, a)
    decreases |a|
  {
    if |a| > 0 {
      SubsequenceRefl(a[1..]);
    }
  }

  lemma {:induction false} SubsequenceAppend<T>(a: seq<T>, x: T)
    ensures Subsequence(a, a + [x])
    decreases |a|
  {
    if |a| > 0 {
      SubsequenceAppend(a[1..], x);
      assert (a + [x])[1..] == a[1..] + [x];
    }
  }

  lemma {:induction false} SubsequenceInsertIndex(ks: seq<string>, k: string)
    requires IsArrayIndex(k)
    ensures Subsequence(ks, InsertIndex(ks, k))
    decreases |ks|
  {
    var r := InsertIndex(ks, k);
    if |ks| == 0 || !IsArrayIndex(ks[0]) || DecimalValue(k) < DecimalValue(ks[0]) {
      SubsequenceRefl(ks);
      assert r[1..] == ks;
    } else {
      SubsequenceInsertIndex(ks[1..], k);
      assert r[1..] == InsertIndex(ks[1..], k);
    }
  }

  /** A key that is not an array index, such as the decimal string of a
      Date.now() value, goes to the end: among such keys Object.keys is
      insertion order. */
  lemma InsertTimestampKey(ks: seq<string>, n: nat)
    requires n > MaxArrayIndex && NatToString(n) !in ks
    ensures InsertKey(ks, NatToString(n)) == ks + [NatToString(n)]
  {
    NatToStringArrayIndex(n);
  }

  /** Deleting a key keeps the list in Object.keys order, removes exactly
      that key and keeps the relative order of the others. */
  lemma {:induction false} RemoveKeyShape(ks: seq<string>, k: string)
    requires Ordered(ks)
    ensures Ordered(RemoveKey(ks, k))
    ensures forall x :: x in RemoveKey(ks, k) <==> x in ks && x != k
    ensures Subsequence(RemoveKey(ks, k), ks)
    decreases |ks|
  {
    if |ks| > 0 {
      var tail := ks[1..];
      assert Ordered(tail) by {
        forall i, j | 0 <= i < j < |tail| ensures KeyBefore(tail[i], tail[j]) {
          assert KeyBefore(ks[i + 1], ks[j + 1]);
        }
      }
      RemoveKeyShape(tail, k);
      var rt := RemoveKey(tail, k);
      if ks[0] == k {
        assert Subsequence(rt, ks);
      } else {
        var r := [ks[0]] + rt;
        forall i, j | 0 <= i < j < |r| ensures KeyBefore(r[i], r[j]) {
          if i == 0 {
            assert rt[j - 1] in rt;
            assert rt[j - 1] in tail;
            var m :| 0 <= m < |tail| && tail[m] == rt[j - 1];
            assert KeyBefore(ks[0], ks[m + 1]);
          } else {
            assert KeyBefore(rt[i - 1], rt[j - 1]);
          }
        }
        assert r[1..] == rt;
      }
    }
  }

  /** Creating a fresh key and deleting it again gives back the key list
      it started from. */
  lemma RemoveInsertRoundTrip(ks: seq<string>, k: string)
    requires Ordered(ks) && k !in ks
    ensures RemoveKey(InsertKey(ks, k), k) == ks
  {
    if IsArrayIndex(k) {
      RemoveInsertIndex(ks, k);
    } else {
      RemoveAbsent(ks, k);
      RemoveAppend(ks, k);
    }
  }

  lemma {:induction false} RemoveAbsent(ks: seq<string>, k: string)
    requires k !in ks
    ensures RemoveKey(ks, k) == ks
    decreases |ks|
  {
    if |ks| > 0 {
      RemoveAbsent(ks[1..], k);
      assert ks == [ks[0]] + ks[1..];
    }
  }

  lemma {:induction false} RemoveAppend(ks: seq<string>, k: string)
    ensures RemoveKey(ks + [k], k) == RemoveKey(ks, k)
    decreases |ks|
  {
    if |ks| == 0 {
      assert [k][1..] == [];
    } else {
      assert (ks + [k])[1..] == ks[1..] + [k];
      RemoveAppend(ks[1..], k);
    }
  }

  lemma {:induction false} RemoveInsertIndex(ks: seq<string>, k: string)
    requires IsArrayIndex(k) && k !in ks
    ensures RemoveKey(InsertIndex(ks, k), k) == ks
    decreases |ks|
  {
    if |ks| == 0 || !IsArrayIndex(ks[0]) || DecimalValue(k) < DecimalValue(ks[0]) {
      assert ([k] + ks)[1..] == ks;
      RemoveAbsent(ks, k);
    } else {
      RemoveInsertIndex(ks[1..], k);
      assert ([ks[0]] + InsertIndex(ks[1..], k))[1..] == InsertIndex(ks[1..], k);
      assert ks == [ks[0]] + ks[1..];
    }
  }
}
