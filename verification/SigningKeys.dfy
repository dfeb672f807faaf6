/** The split of the signing keys into those that sign the apex key RRsets
    (KSKs) and those that sign the rest of the zone (ZSKs), and its completion
    so that every algorithm signs everything (section 2.2 of RFC 4035). */
module SigningKeys {

  /** A signing key; `id` tells keys of one algorithm apart. */
  datatype Key = Key(id: nat, algorithm: nat, sep: bool)

  ghost predicate Distinct(keys: seq<Key>) {
    forall i, j :: 0 <= i < j < |keys| ==> keys[i] != keys[j]
  }

  function Algorithms(keys: seq<Key>): set<nat> {
    if keys == [] then {} else Algorithms(keys[..|keys| - 1]) + {keys[|keys| - 1].algorithm}
  }

  function WithSep(keys: seq<Key>, sep: bool): (r: seq<Key>)
    ensures forall k :: k in r <==> k in keys && k.sep == sep
  {
    if keys == [] then []
    else
      var rest := WithSep(keys[..|keys| - 1], sep);
      var k := keys[|keys| - 1];
      if k.sep == sep then rest + [k] else rest
  }

  lemma {:induction false} WithSepDistinct(keys: seq<Key>, sep: bool)
    requires Distinct(keys)
    ensures Distinct(WithSep(keys, sep))
  {
    if keys != [] {
      var front := keys[..|keys| - 1];
      WithSepDistinct(front, sep);
      assert forall i :: 0 <= i < |front| ==> front[i] == keys[i];
    }
  }

  /** The keys stay in their order: the split of a longer list is that of the
      shorter one, and then the last key if it is of this kind. */
  lemma WithSepLast(front: seq<Key>, k: Key, sep: bool)
    ensures WithSep([], sep) == []
    ensures WithSep(front + [k], sep) == if k.sep == sep then WithSep(front, sep) + [k] else WithSep(front, sep)
  {
    assert (front + [k])[..|front + [k]| - 1] == front;
  }

  /** The first candidate of each algorithm not in `have`, in order. */
  function FirstOfMissing(candidates: seq<Key>, have: set<nat>): seq<Key> {
    if candidates == [] then []
    else
      var rest := FirstOfMissing(candidates[..|candidates| - 1], have);
      var k := candidates[|candidates| - 1];
      if k.algorithm in have + Algorithms(rest) then rest else rest + [k]
  }

  lemma {:induction false} AlgorithmOfKey(keys: seq<Key>, k: Key)
    requires k in keys
    ensures k.algorithm in Algorithms(keys)
  {
    if k != keys[|keys| - 1] {
      AlgorithmOfKey(keys[..|keys| - 1], k);
    }
  }

  lemma {:induction false} AlgorithmsConcat(a: seq<Key>, b: seq<Key>)
    ensures Algorithms(a + b) == Algorithms(a) + Algorithms(b)
  {
    if b == [] {
      assert a + b == a;
    } else {
      AlgorithmsConcat(a, b[..|b| - 1]);
      assert (a + b)[..|a + b| - 1] == a + b[..|b| - 1];
    }
  }

  /** The keys bring in exactly the missing algorithms, with one key each. */
  lemma {:induction false} FirstOfMissingIsMinimal(candidates: seq<Key>, have: set<nat>)
    ensures Algorithms(FirstOfMissing(candidates, have)) == Algorithms(candidates) - have
    ensures |FirstOfMissing(candidates, have)| == |Algorithms(candidates) - have|
  {
    if candidates != [] {
      var front, k := candidates[..|candidates| - 1], candidates[|candidates| - 1];
      var rest := FirstOfMissing(front, have);
      FirstOfMissingIsMinimal(front, have);
      assert (rest + [k])[..|rest|] == rest;
      if k.algorithm in have + Algorithms(rest) {
        assert Algorithms(candidates) - have == Algorithms(front) - have;
      } else {
        assert Algorithms(candidates) - have == (Algorithms(front) - have) + {k.algorithm};
      }
    }
  }

  /** No key is chosen twice, nor one that is not a candidate or not needed. */
  lemma {:induction false} FirstOfMissingIsFresh(candidates: seq<Key>, have: set<nat>)
    ensures forall k :: k in FirstOfMissing(candidates, have) ==> k in candidates && k.algorithm !in have
    ensures Distinct(FirstOfMissing(candidates, have))
  {
    if candidates != [] {
      var front, k := candidates[..|candidates| - 1], candidates[|candidates| - 1];
      var rest := FirstOfMissing(front, have);
      FirstOfMissingIsFresh(front, have);
      if k in rest {
        AlgorithmOfKey(rest, k);
      }
    }
  }

  /** The key chosen for an algorithm is the first one that has it. */
  lemma {:induction false} FirstOfMissingIsFirst(candidates: seq<Key>, have: set<nat>, k: Key)
    requires k in FirstOfMissing(candidates, have)
    ensures exists i :: 0 <= i < |candidates| && candidates[i] == k && k.algorithm !in Algorithms(candidates[..i])
  {
    var front, last := candidates[..|candidates| - 1], candidates[|candidates| - 1];
    if k in FirstOfMissing(front, have) {
      FirstOfMissingIsFirst(front, have, k);
      var i :| 0 <= i < |front| && front[i] == k && k.algorithm !in Algorithms(front[..i]);
      assert candidates[..i] == front[..i];
    } else {
      FirstOfMissingIsMinimal(front, have);
      assert candidates[|front|] == k;
    }
  }

  /** The loop that pushes onto `keys` one candidate per algorithm it lacks. */
  method PushMissing(keys: seq<Key>, candidates: seq<Key>) returns (r: seq<Key>)
    ensures r == keys + FirstOfMissing(candidates, Algorithms(keys))
  {
    var algorithms: set<nat> := {};
    for i := 0 to |keys|
      invariant algorithms == Algorithms(keys[..i])
    {
      assert keys[..i + 1][..i] == keys[..i];
      algorithms := algorithms + {keys[i].algorithm};
    }
    assert keys[..|keys|] == keys;
    r := keys;
    for i := 0 to |candidates|
      invariant r == keys + FirstOfMissing(candidates[..i], Algorithms(keys))
      invariant algorithms == Algorithms(keys) + Algorithms(FirstOfMissing(candidates[..i], Algorithms(keys)))
    {
      assert candidates[..i + 1][..i] == candidates[..i];
      var k := candidates[i];
      if k.algorithm !in algorithms {
        algorithms := algorithms + {k.algorithm};
        r := r + [k];
      }
    }
    assert candidates[..|candidates|] == candidates;
  }

  /** What holds of the two lists with every option: all are keys given, no
      key is used twice, and neither list is empty unless there is no key. */
  ghost predicate Usable(keys: seq<Key>, ksks: seq<Key>, zsks: seq<Key>) {
    && Distinct(ksks) && Distinct(zsks)
    && (forall k :: k in ksks || k in zsks ==> k in keys)
    && (keys != [] ==> ksks != [] && zsks != [])
  }

  /** `r` is `base` and one more key of each algorithm of `keys` that `base` lacks. */
  ghost predicate Completed(keys: seq<Key>, base: seq<Key>, r: seq<Key>) {
    base <= r && Algorithms(r) == Algorithms(keys) && |r| == |base| + |Algorithms(keys) - Algorithms(base)|
  }

  /** What the options ask for.  `all` is -A (sign the key RRsets with all
      keys) and `unique` is -U (sign with every unique algorithm). */
  ghost predicate AsAsked(keys: seq<Key>, all: bool, unique: bool, ksks: seq<Key>, zsks: seq<Key>) {
    var sep, rest := WithSep(keys, true), WithSep(keys, false);
    if sep == [] || rest == [] then
      ksks == zsks == keys
    else
      && (all ==> ksks == sep + rest)
      && (!all ==> if unique then Completed(keys, sep, ksks) else ksks == sep)
      && (if unique then Completed(keys, rest, zsks) else zsks == rest)
  }

  /** With -U everything is signed with every algorithm there is a key of. */
  lemma {:induction false} UniqueMeansEveryAlgorithm(keys: seq<Key>, all: bool, ksks: seq<Key>, zsks: seq<Key>)
    requires AsAsked(keys, all, true, ksks, zsks)
    ensures Algorithms(ksks) == Algorithms(zsks) == Algorithms(keys)
  {
    SplitAlgorithms(keys);
    AlgorithmsConcat(WithSep(keys, true), WithSep(keys, false));
  }

  /** With -A the key RRsets are signed with every key once. */
  lemma {:induction false} AllMeansEveryKey(keys: seq<Key>, unique: bool, ksks: seq<Key>, zsks: seq<Key>)
    requires AsAsked(keys, true, unique, ksks, zsks)
    ensures multiset(ksks) == multiset(keys)
  {
    SplitIsPartition(keys);
  }

  lemma {:induction false} OneKind(keys: seq<Key>, sep: bool)
    requires WithSep(keys, !sep) == []
    ensures WithSep(keys, sep) == keys
  {
    if keys != [] {
      var front, k := keys[..|keys| - 1], keys[|keys| - 1];
      assert k.sep == sep && WithSep(front, !sep) == [];
      OneKind(front, sep);
      assert keys == front + [k];
    }
  }

  lemma {:induction false} SplitIsPartition(keys: seq<Key>)
    ensures multiset(WithSep(keys, true) + WithSep(keys, false)) == multiset(keys)
  {
    if keys != [] {
      var front, k := keys[..|keys| - 1], keys[|keys| - 1];
      SplitIsPartition(front);
      MultisetSnoc(front, k);
      MultisetAdded(WithSep(front, true), WithSep(front, false), k);
      assert keys == front + [k];
    }
  }

  lemma MultisetSnoc<T>(front: seq<T>, k: T)
    ensures multiset(front + [k]) == multiset(front) + multiset{k}
  {
  }

  lemma MultisetAdded<T>(a: seq<T>, b: seq<T>, k: T)
    ensures multiset((a + [k]) + b) == multiset(a + b) + multiset{k}
    ensures multiset(a + (b + [k])) == multiset(a + b) + multiset{k}
  {
  }

  lemma {:induction false} SplitAlgorithms(keys: seq<Key>)
    ensures Algorithms(keys) == Algorithms(WithSep(keys, true)) + Algorithms(WithSep(keys, false))
  {
    if keys != [] {
      var front, k := keys[..|keys| - 1], keys[|keys| - 1];
      SplitAlgorithms(front);
      assert (WithSep(front, k.sep) + [k])[..|WithSep(front, k.sep)|] == WithSep(front, k.sep);
    }
  }

  /** The pushes onto `keys` reach every algorithm of the candidates. */
  lemma {:induction false} PushCompletes(keys: seq<Key>, candidates: seq<Key>)
    ensures var added := FirstOfMissing(candidates, Algorithms(keys));
            && Algorithms(keys + added) == Algorithms(keys) + Algorithms(candidates)
            && |added| == |Algorithms(candidates) - Algorithms(keys)|
  {
    FirstOfMissingIsMinimal(candidates, Algorithms(keys));
    AlgorithmsConcat(keys, FirstOfMissing(candidates, Algorithms(keys)));
  }

  lemma MissingOfUnion(a: set<nat>, b: set<nat>)
    ensures (a + b) - a == b - a
    ensures (a + b) - b == a - b
    ensures b - (a + b) == {}
    ensures a + b + b == a + b && b + (a + b) == a + b
  {
  }

  /** Pushing onto one half of the keys what the whole has completes it. */
  lemma {:induction false} PushFromWhole(keys: seq<Key>, base: seq<Key>, candidates: seq<Key>)
    requires Algorithms(base) + Algorithms(candidates) == Algorithms(keys)
    ensures Completed(keys, base, base + FirstOfMissing(candidates, Algorithms(base)))
  {
    PushCompletes(base, candidates);
    MissingOfUnion(Algorithms(base), Algorithms(candidates));
  }

  lemma {:induction false} ListsAreAsAsked(keys: seq<Key>, all: bool, unique: bool)
    ensures var (ksks, zsks) := Lists(WithSep(keys, true), WithSep(keys, false), all, unique);
            AsAsked(keys, all, unique, ksks, zsks)
  {
    var sep, rest := WithSep(keys, true), WithSep(keys, false);
    if sep == [] {
      OneKind(keys, false);
    } else if rest == [] {
      OneKind(keys, true);
      assert sep + rest == sep;
    } else if unique {
      SplitAlgorithms(keys);
      if all {
        AllCloses(keys, sep, rest);
      } else {
        CompletionCloses(keys, sep, rest);
      }
    }
  }

  /** One round of pushes in each direction closes both lists over the algorithms. */
  lemma {:induction false} CompletionCloses(keys: seq<Key>, sep: seq<Key>, rest: seq<Key>)
    requires Algorithms(sep) + Algorithms(rest) == Algorithms(keys)
    ensures var ksks := sep + FirstOfMissing(rest, Algorithms(sep));
            && Completed(keys, sep, ksks)
            && Completed(keys, rest, rest + FirstOfMissing(ksks, Algorithms(rest)))
  {
    var ksks := sep + FirstOfMissing(rest, Algorithms(sep));
    PushFromWhole(keys, sep, rest);
    MissingOfUnion(Algorithms(sep), Algorithms(rest));
    PushFromWhole(keys, rest, ksks);
  }

  lemma {:induction false} AllCloses(keys: seq<Key>, sep: seq<Key>, rest: seq<Key>)
    requires Algorithms(sep) + Algorithms(rest) == Algorithms(keys)
    ensures FirstOfMissing(rest, Algorithms(sep + rest)) == []
    ensures Completed(keys, rest, rest + FirstOfMissing(sep + rest, Algorithms(rest)))
  {
    AlgorithmsConcat(sep, rest);
    MissingOfUnion(Algorithms(sep), Algorithms(rest));
    PushCompletes(sep + rest, rest);
    PushFromWhole(keys, rest, sep + rest);
  }

  lemma {:induction false} AddedKeysAreNew(keys: seq<Key>, base: seq<Key>, candidates: seq<Key>)
    requires Distinct(base) && (forall k :: k in base || k in candidates ==> k in keys)
    ensures var r := base + FirstOfMissing(candidates, Algorithms(base));
            Distinct(r) && forall k :: k in r ==> k in keys
  {
    FirstOfMissingIsFresh(candidates, Algorithms(base));
    forall k | k in base ensures k.algorithm in Algorithms(base) {
      AlgorithmOfKey(base, k);
    }
  }

  lemma {:induction false} ListsAreUsable(keys: seq<Key>, all: bool, unique: bool)
    requires Distinct(keys)
    ensures var (ksks, zsks) := Lists(WithSep(keys, true), WithSep(keys, false), all, unique);
            Usable(keys, ksks, zsks)
  {
    var sep, rest := WithSep(keys, true), WithSep(keys, false);
    WithSepDistinct(keys, true);
    WithSepDistinct(keys, false);
    if sep == [] {
      OneKind(keys, false);
    } else if rest != [] && unique {
      var ksks := if all then sep + rest else sep;
      AddedKeysAreNew(keys, ksks, rest);
      AddedKeysAreNew(keys, rest, ksks + FirstOfMissing(rest, Algorithms(ksks)));
    }
  }

  /** The two lists as the options build them, from the split keys. */
  function Lists(sep: seq<Key>, rest: seq<Key>, all: bool, unique: bool): (seq<Key>, seq<Key>) {
    if sep == [] || rest == [] then (sep + rest, sep + rest)
    else
      var ksks := if all then sep + rest else sep;
      if !unique then (ksks, rest)
      else
        var ksks' := ksks + FirstOfMissing(rest, Algorithms(ksks));
        (ksks', rest + FirstOfMissing(ksks', Algorithms(rest)))
  }

  /** Split the keys by the secure entry point flag and complete both halves. */
  method SplitAndComplete(keys: seq<Key>, all: bool, unique: bool) returns (ksks: seq<Key>, zsks: seq<Key>)
    requires Distinct(keys)
    ensures (ksks, zsks) == Lists(WithSep(keys, true), WithSep(keys, false), all, unique)
    ensures Usable(keys, ksks, zsks) && AsAsked(keys, all, unique, ksks, zsks)
  {
    ListsAreUsable(keys, all, unique);
    ListsAreAsAsked(keys, all, unique);
    ksks, zsks := [], [];
    for i := 0 to |keys|
      invariant ksks == WithSep(keys[..i], true)
      invariant zsks == WithSep(keys[..i], false)
    {
      assert keys[..i + 1][..i] == keys[..i];
      if keys[i].sep {
        ksks := ksks + [keys[i]];
      } else {
        zsks := zsks + [keys[i]];
      }
    }
    assert keys[..|keys|] == keys;
    if ksks == [] {
      ksks := ksks + zsks;
      assert ksks == zsks;
    } else if zsks == [] {
      zsks := zsks + ksks;
      assert zsks == ksks == ksks + [];
    } else {
      if all {
        ksks := ksks + zsks;
      }
      if unique {
        ksks := PushMissing(ksks, zsks);
        zsks := PushMissing(zsks, ksks);
      }
    }
  }
}
