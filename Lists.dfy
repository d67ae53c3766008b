/** The three list operations the components are built from: `filter`,
    a `map` that rewrites only the selected entries, and flattening. */
module Lists {

  /** The entries of `s` that satisfy `keep`, in their original order. */
  function Filter<T>(s: seq<T>, keep: T -> bool): (r: seq<T>)
    ensures |r| <= |s|
    ensures forall i :: 0 <= i < |r| ==> r[i] in s && keep(r[i])
    ensures forall i :: 0 <= i < |s| && keep(s[i]) ==> s[i] in r
  {
    if s == [] then []
    else (if keep(s[0]) then [s[0]] else []) + Filter(s[1..], keep)
  }

  /** Filtering distributes over concatenation, so relative order is preserved. */
  lemma {:induction false} FilterAppend<T>(a: seq<T>, b: seq<T>, keep: T -> bool)
    ensures Filter(a + b, keep) == Filter(a, keep) + Filter(b, keep)
  {
    if a == [] {
      assert a + b == b;
    } else {
      assert (a + b)[1..] == a[1..] + b;
      FilterAppend(a[1..], b, keep);
    }
  }

  /** Filtering keeps everything exactly when every entry satisfies the predicate. */
  lemma {:induction false} FilterAll<T>(s: seq<T>, keep: T -> bool)
    ensures Filter(s, keep) == s <==> forall i :: 0 <= i < |s| ==> keep(s[i])
  {
    if s != [] {
      FilterAll(s[1..], keep);
      if !keep(s[0]) {
        assert |Filter(s, keep)| < |s|;
      }
      if Filter(s, keep) == s {
        assert keep(s[0]);
        assert Filter(s[1..], keep) == s[1..];
      }
      if forall i :: 0 <= i < |s| ==> keep(s[i]) {
        assert forall i :: 0 <= i < |s[1..]| ==> keep(s[1..][i]);
      }
    }
  }

  /** `s` with every entry that satisfies `sel` replaced by `upd` of it. */
  function UpdateWhere<T>(s: seq<T>, sel: T -> bool, upd: T -> T): (r: seq<T>)
    ensures |r| == |s|
    ensures forall i :: 0 <= i < |s| && !sel(s[i]) ==> r[i] == s[i]
    ensures forall i :: 0 <= i < |s| && sel(s[i]) ==> r[i] == upd(s[i])
  {
    if s == [] then []
    else [if sel(s[0]) then upd(s[0]) else s[0]] + UpdateWhere(s[1..], sel, upd)
  }

  /** The concatenation of a sequence of sequences. */
  function Flatten<T>(ss: seq<seq<T>>): (r: seq<T>)
  {
    if ss == [] then [] else ss[0] + Flatten(ss[1..])
  }

  /** The total length of a sequence of sequences. */
  function TotalLength<T>(ss: seq<seq<T>>): nat
  {
    if ss == [] then 0 else |ss[0]| + TotalLength(ss[1..])
  }

  lemma {:induction false} FlattenLength<T>(ss: seq<seq<T>>)
    ensures |Flatten(ss)| == TotalLength(ss)
  {
    if ss != [] {
      FlattenLength(ss[1..]);
    }
  }

  lemma {:induction false} FlattenAppend<T>(a: seq<seq<T>>, b: seq<seq<T>>)
    ensures Flatten(a + b) == Flatten(a) + Flatten(b)
  {
    if a == [] {
      assert a + b == b;
    } else {
      assert (a + b)[1..] == a[1..] + b;
      FlattenAppend(a[1..], b);
    }
  }

  /** Entry `j` of block `i` sits at the offset of the blocks before it, plus `j`. */
  lemma {:induction false} FlattenAt<T>(ss: seq<seq<T>>, i: nat, j: nat)
    requires i < |ss| && j < |ss[i]|
    ensures TotalLength(ss[..i]) + j < |Flatten(ss)|
    ensures Flatten(ss)[TotalLength(ss[..i]) + j] == ss[i][j]
  {
    FlattenLength(ss);
    assert ss == ss[..i] + ss[i..];
    FlattenAppend(ss[..i], ss[i..]);
    FlattenLength(ss[..i]);
    assert Flatten(ss[i..]) == ss[i] + Flatten(ss[i + 1..]) by {
      assert ss[i..][0] == ss[i];
      assert ss[i..][1..] == ss[i + 1..];
    }
  }

  /** Dropping the last element of a concatenation drops it from the second part. */
  lemma DropLastOfConcat<T>(a: seq<T>, b: seq<T>)
    requires |b| >= 1
    ensures (a + b)[..|a + b| - 1] == a + b[..|b| - 1]
  {
  }

  lemma LastTwoOfConcat<T>(a: seq<T>, b: seq<T>)
    requires |b| >= 2
    ensures (a + b)[|a + b| - 2] == b[|b| - 2] && (a + b)[|a + b| - 1] == b[|b| - 1]
  {
  }

  // ---------------------------------------------------------------- lists keyed by an id

  /** No two entries share a key. */
  predicate UniqueKeys<T>(s: seq<T>, key: T -> string) {
    forall i, j :: 0 <= i < j < |s| ==> key(s[i]) != key(s[j])
  }

  predicate HasKey<T>(s: seq<T>, key: T -> string, k: string) {
    exists i :: 0 <= i < |s| && key(s[i]) == k
  }

  /** `filter(x => key(x) !== k)`. */
  function RemoveKey<T>(s: seq<T>, key: T -> string, k: string): (r: seq<T>)
    ensures forall i :: 0 <= i < |r| ==> r[i] in s && key(r[i]) != k
    ensures forall i :: 0 <= i < |s| && key(s[i]) != k ==> s[i] in r
    ensures |r| <= |s|
  {
    Filter(s, (x: T) => key(x) != k)
  }

  lemma RemoveKeyCons<T>(s: seq<T>, key: T -> string, k: string)
    requires s != []
    ensures RemoveKey(s, key, k) == (if key(s[0]) != k then [s[0]] else []) + RemoveKey(s[1..], key, k)
  {
  }

  lemma UniqueKeysTail<T>(s: seq<T>, key: T -> string)
    requires s != [] && UniqueKeys(s, key)
    ensures UniqueKeys(s[1..], key)
  {
    var tail := s[1..];
    forall i, j | 0 <= i < j < |tail| ensures key(tail[i]) != key(tail[j]) {
      assert tail[i] == s[i + 1] && tail[j] == s[j + 1];
    }
  }

  lemma HasKeyCons<T>(s: seq<T>, key: T -> string, k: string)
    requires s != []
    ensures HasKey(s, key, k) <==> key(s[0]) == k || HasKey(s[1..], key, k)
  {
    var tail := s[1..];
    if HasKey(s, key, k) && key(s[0]) != k {
      var i :| 0 <= i < |s| && key(s[i]) == k;
      assert i > 0 && tail[i - 1] == s[i];
    }
    if HasKey(tail, key, k) {
      var i :| 0 <= i < |tail| && key(tail[i]) == k;
      assert s[i + 1] == tail[i];
    }
  }

  /** An entry whose key no later entry has can head a list of unique keys. */
  lemma UniqueKeysConsFresh<T>(s: seq<T>, key: T -> string, k: string)
    requires s != [] && UniqueKeys(s, key) && UniqueKeys(RemoveKey(s[1..], key, k), key)
    ensures UniqueKeys([s[0]] + RemoveKey(s[1..], key, k), key)
  {
    var tail := s[1..];
    var rest := RemoveKey(tail, key, k);
    var r := [s[0]] + rest;
    forall i, j | 0 <= i < j < |r| ensures key(r[i]) != key(r[j]) {
      if i == 0 {
        assert r[j] == rest[j - 1] && rest[j - 1] in rest;
        var m :| 0 <= m < |tail| && tail[m] == rest[j - 1];
        assert s[m + 1] == tail[m];
      } else {
        assert r[i] == rest[i - 1] && r[j] == rest[j - 1];
      }
    }
  }

  /** With unique keys, removing a key drops exactly one entry when the key is present,
      and none otherwise; the keys stay unique. */
  lemma {:induction false} RemoveUniqueKey<T>(s: seq<T>, key: T -> string, k: string)
    requires UniqueKeys(s, key)
    ensures |RemoveKey(s, key, k)| == if HasKey(s, key, k) then |s| - 1 else |s|
    ensures UniqueKeys(RemoveKey(s, key, k), key)
  {
    if s != [] {
      var tail := s[1..];
      UniqueKeysTail(s, key);
      RemoveUniqueKey(tail, key, k);
      RemoveKeyCons(s, key, k);
      HasKeyCons(s, key, k);
      if key(s[0]) == k {
        assert !HasKey(tail, key, k) by {
          forall i | 0 <= i < |tail| ensures key(tail[i]) != k {
            assert tail[i] == s[i + 1];
          }
        }
      } else {
        UniqueKeysConsFresh(s, key, k);
      }
    }
  }

  /** Appending an entry with a fresh key keeps the keys unique. */
  lemma AppendFreshKey<T>(s: seq<T>, key: T -> string, x: T)
    requires UniqueKeys(s, key) && !HasKey(s, key, key(x))
    ensures UniqueKeys(s + [x], key)
  {
    var r := s + [x];
    forall i, j | 0 <= i < j < |r| ensures key(r[i]) != key(r[j]) {
      if j == |s| {
        assert r[i] == s[i];
      } else {
        assert r[i] == s[i] && r[j] == s[j];
      }
    }
  }

  /** Rewriting entries without touching their keys keeps the keys unique. */
  lemma UpdateKeepsKeys<T>(s: seq<T>, key: T -> string, sel: T -> bool, upd: T -> T)
    requires UniqueKeys(s, key)
    requires forall x :: key(upd(x)) == key(x)
    ensures UniqueKeys(UpdateWhere(s, sel, upd), key)
  {
    var r := UpdateWhere(s, sel, upd);
    assert forall i :: 0 <= i < |s| ==> key(r[i]) == key(s[i]);
  }
}
