/** The order that puts hashed owner names next to the names behind them. */
module OwnerOrder {
  import opened Names
  import opened Wrappers
  import opened Nsec3Map

  datatype Ordering = Less | Equal | Greater

  /** The canonical comparison of names. */
  function Cmp(a: Name, b: Name): Ordering {
    if a == b then Equal else if NameLess(a, b) then Less else Greater
  }

  /** The comparison the owner sort uses: by unhashed name, unhashed before hashed. */
  function Compare(hashes: HashMap, a: Name, b: Name): Ordering {
    var (unhashedA, countA) := if a in hashes then (hashes[a].name, 1) else (a, 0);
    var (unhashedB, countB) := if b in hashes then (hashes[b].name, 2) else (b, 0);
    match Cmp(unhashedA, unhashedB)
    case Less => Less
    case Greater => Greater
    case Equal =>
      match countA + countB
      case 1 => Greater
      case 2 => Less
      case _ => Equal
  }

  /** Every key of the map is the hash of the name kept under it. */
  ghost predicate KeyedByHash(hashes: HashMap, hash: Hasher) {
    forall h :: h in hashes ==> hash(hashes[h].name) == Some(h)
  }

  /** The map the pass over the zone has built is one. */
  lemma BuiltMapIsKeyed(hashes: HashMap, hash: Hasher, rrsets: seq<RrsetKey>, apex: Name,
                        optOut: bool)
    requires HoldsUpTo(hashes, hash, rrsets, apex, optOut, |rrsets|)
    ensures KeyedByHash(hashes, hash)
  {
  }

  /** With the map built, a hashed owner stands directly after the owner it is
      the hash of, whenever the zone has both and the latter is no hash. */
  lemma {:induction false} BuiltMapOrders(hashes: HashMap, hash: Hasher, rrsets: seq<RrsetKey>, apex: Name,
                                          optOut: bool, owners: seq<Name>, n: Name)
    requires HoldsUpTo(hashes, hash, rrsets, apex, optOut, |rrsets|) && SortedOwners(hashes, owners)
    requires CollisionFree(hash) && Required(rrsets, apex, optOut, n) && hash(n).Some? && n !in hashes
    requires n in owners && hash(n).value in owners
    ensures exists i :: 0 <= i < |owners| - 1 && owners[i] == n && owners[i + 1] == hash(n).value
  {
    BuiltMapIsKeyed(hashes, hash, rrsets, apex, optOut);
    HeldUnderItsHash(hashes, hash, HeldBefore(rrsets, apex, optOut, |rrsets|), rrsets, n);
    HashFollowsName(hashes, hash, owners, hash(n).value);
  }

  /** `a` sorts before `b`. */
  predicate Precedes(hashes: HashMap, a: Name, b: Name) {
    Compare(hashes, a, b) == Less
  }

  function Unhashed(hashes: HashMap, a: Name): Name {
    if a in hashes then hashes[a].name else a
  }

  lemma PrecedesByKey(hashes: HashMap, a: Name, b: Name)
    ensures Precedes(hashes, a, b) <==>
              || (Unhashed(hashes, a) != Unhashed(hashes, b) && NameLess(Unhashed(hashes, a), Unhashed(hashes, b)))
              || (Unhashed(hashes, a) == Unhashed(hashes, b) && a !in hashes && b in hashes)
  {
  }

  lemma {:induction false} PrecedesTransitive(hashes: HashMap, a: Name, b: Name, c: Name)
    requires Precedes(hashes, a, b) && Precedes(hashes, b, c)
    ensures Precedes(hashes, a, c)
  {
    NameOrder();
    PrecedesByKey(hashes, a, b);
    PrecedesByKey(hashes, b, c);
    PrecedesByKey(hashes, a, c);
  }

  /** Any two names are ordered one way only, or are the same name. */
  lemma {:induction false} ComparesOnce(hashes: HashMap, hash: Hasher, a: Name, b: Name)
    requires KeyedByHash(hashes, hash)
    ensures Compare(hashes, a, b) == Equal <==> a == b
    ensures Compare(hashes, a, b) == Greater <==> Compare(hashes, b, a) == Less
  {
    NameOrder();
    if a in hashes && b in hashes && hashes[a].name == hashes[b].name {
      assert Some(a) == hash(hashes[a].name) == Some(b);
    }
  }

  /** The comparison is a strict total order on names. */
  lemma {:induction false} PrecedesIsTotalOrder(hashes: HashMap, hash: Hasher)
    requires KeyedByHash(hashes, hash)
    ensures StrictTotalOrder((a, b) => Precedes(hashes, a, b))
  {
    var less := (a, b) => Precedes(hashes, a, b);
    forall a, b ensures !less(a, a) && (a == b || less(a, b) || less(b, a)) {
      ComparesOnce(hashes, hash, a, a);
      ComparesOnce(hashes, hash, a, b);
    }
    forall a, b, c | less(a, b) && less(b, c) ensures less(a, c) {
      PrecedesTransitive(hashes, a, b, c);
    }
  }

  ghost predicate SortedOwners(hashes: HashMap, owners: seq<Name>) {
    forall i, j :: 0 <= i < j < |owners| ==> Precedes(hashes, owners[i], owners[j])
  }

  /** The outcome of an unstable, parallel sort is determined by the owners alone. */
  lemma {:induction false} SortIsUnique(hashes: HashMap, hash: Hasher, s: seq<Name>, t: seq<Name>)
    requires KeyedByHash(hashes, hash) && SortedOwners(hashes, s) && SortedOwners(hashes, t)
    requires multiset(s) == multiset(t)
    ensures s == t
  {
    if s != [] {
      assert s[0] in multiset(s) && |multiset(s)| == |multiset(t)| == |t|;
      assert s == [s[0]] + s[1..] && t == [t[0]] + t[1..];
      SortedHeads(hashes, hash, s, t);
      assert multiset(s[1..]) == multiset(s) - multiset{s[0]};
      assert multiset(t[1..]) == multiset(t) - multiset{t[0]};
      SortIsUnique(hashes, hash, s[1..], t[1..]);
    }
  }

  lemma {:induction false} SortedHeads(hashes: HashMap, hash: Hasher, s: seq<Name>, t: seq<Name>)
    requires KeyedByHash(hashes, hash) && SortedOwners(hashes, s) && SortedOwners(hashes, t)
    requires multiset(s) == multiset(t) && s != [] && t != []
    ensures s[0] == t[0]
  {
    assert s[0] in multiset(t) && t[0] in multiset(s);
    var i :| 0 <= i < |t| && t[i] == s[0];
    var j :| 0 <= j < |s| && s[j] == t[0];
    ComparesOnce(hashes, hash, s[0], t[0]);
  }

  /** After the sort a hashed owner stands directly after the owner it is the
      hash of, unless that owner is itself one of the hashes. */
  lemma {:induction false} HashFollowsName(hashes: HashMap, hash: Hasher, owners: seq<Name>, h: Name)
    requires KeyedByHash(hashes, hash) && SortedOwners(hashes, owners)
    requires h in hashes && hashes[h].name !in hashes
    requires h in owners && hashes[h].name in owners
    ensures exists i :: 0 <= i < |owners| - 1 && owners[i] == hashes[h].name && owners[i + 1] == h
  {
    var n := hashes[h].name;
    var i :| 0 <= i < |owners| && owners[i] == n;
    var j :| 0 <= j < |owners| && owners[j] == h;
    ComparesOnce(hashes, hash, n, h);
    NothingBetween(hashes, hash, h, owners[if i + 1 < |owners| then i + 1 else i]);
  }

  lemma {:induction false} NothingBetween(hashes: HashMap, hash: Hasher, h: Name, x: Name)
    requires KeyedByHash(hashes, hash) && h in hashes && hashes[h].name !in hashes
    ensures !(Precedes(hashes, hashes[h].name, x) && Precedes(hashes, x, h))
  {
    NameOrder();
    PrecedesByKey(hashes, hashes[h].name, x);
    PrecedesByKey(hashes, x, h);
  }

  /** Owners that are no hashes keep their canonical order, and a hash sorts
      among them where its name does. */
  lemma {:induction false} CanonicalUpToHashing(hashes: HashMap, a: Name, b: Name)
    requires a !in hashes
    ensures b !in hashes ==> (Precedes(hashes, a, b) <==> NameLess(a, b))
    ensures b in hashes ==> (Precedes(hashes, a, b) <==> a == hashes[b].name || NameLess(a, hashes[b].name))
  {
    NameOrder();
  }
}
