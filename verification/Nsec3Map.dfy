/** The one-pass construction of the map from NSEC3 hashes to the names
    behind them, and the set of names that map has to hold. */
module Nsec3Map {
  import opened Names
  import opened Wrappers
  import opened ZoneCuts

  /** The RRset keys of a zone of one class: owner and numeric type. */
  datatype RrsetKey = RrsetKey(owner: Name, rtype: nat)

  const NS := 2

  datatype HashInfo = HashInfo(name: Name, emptyNonTerminal: bool)

  type HashMap = map<Name, HashInfo>

  datatype BuildResult = Built(hashes: HashMap) | HashFailed

  /** Hashing a name gives the hashed owner name or an error. */
  type Hasher = Name -> Option<Name>

  /** Different names have different hashes. */
  ghost predicate CollisionFree(hash: Hasher) {
    forall m, n :: hash(m) == hash(n) && hash(m).Some? ==> m == n
  }

  ghost predicate CanonicalRrsets(rrsets: seq<RrsetKey>) {
    forall i, j :: 0 <= i < j < |rrsets| ==>
                     || NameLess(rrsets[i].owner, rrsets[j].owner)
                     || (rrsets[i].owner == rrsets[j].owner && rrsets[i].rtype < rrsets[j].rtype)
  }

  // ----- The names the map has to hold -----

  function Rows(rrsets: seq<RrsetKey>, apex: Name): seq<Row> {
    seq(|rrsets|, i requires 0 <= i < |rrsets| =>
      Row(rrsets[i].owner, rrsets[i].rtype == NS && rrsets[i].owner != apex))
  }

  ghost predicate Owns(rrsets: seq<RrsetKey>, n: Name) {
    exists i :: 0 <= i < |rrsets| && rrsets[i].owner == n
  }

  /** `n` owns an RRset and is not below a delegation point other than the apex. */
  ghost predicate VisibleOwner(rrsets: seq<RrsetKey>, apex: Name, n: Name) {
    Owns(rrsets, n) && !BelowCut(Rows(rrsets, apex), n)
  }

  /** An owner other than the apex that owns nothing but an NS RRset. */
  ghost predicate BareDelegation(rrsets: seq<RrsetKey>, apex: Name, n: Name) {
    n != apex && Owns(rrsets, n) && forall i :: 0 <= i < |rrsets| && rrsets[i].owner == n ==> rrsets[i].rtype == NS
  }

  /** Hashed because of an RRset among the first `k`. */
  ghost predicate HashedOwner(rrsets: seq<RrsetKey>, apex: Name, optOut: bool, n: Name, k: nat)
    requires k <= |rrsets|
  {
    && !BelowCut(Rows(rrsets, apex), n)
    && exists i :: && 0 <= i < k && rrsets[i].owner == n
                   && (optOut ==> n == apex || rrsets[i].rtype != NS)
  }

  /** `s` is a proper suffix of `n`, and strictly below the apex if `n` is. */
  predicate InnerSuffix(apex: Name, n: Name, s: Name) {
    s < n && !(EndsWith(apex, s) && EndsWith(n, apex))
  }

  ghost predicate Hashed(rrsets: seq<RrsetKey>, apex: Name, optOut: bool, n: Name, k: nat)
    requires k <= |rrsets|
  {
    || HashedOwner(rrsets, apex, optOut, n, k)
    || exists o :: HashedOwner(rrsets, apex, optOut, o, k) && InnerSuffix(apex, o, n)
  }

  /** The names the finished map has to hold. */
  ghost predicate Required(rrsets: seq<RrsetKey>, apex: Name, optOut: bool, n: Name) {
    Hashed(rrsets, apex, optOut, n, |rrsets|)
  }

  /** Without opt-out these are the visible owners and their inner suffixes. */
  lemma {:induction false} RequiredPlain(rrsets: seq<RrsetKey>, apex: Name, n: Name)
    ensures Required(rrsets, apex, false, n) <==>
              || VisibleOwner(rrsets, apex, n)
              || exists o :: VisibleOwner(rrsets, apex, o) && InnerSuffix(apex, o, n)
  {
    forall o ensures HashedOwner(rrsets, apex, false, o, |rrsets|) <==> VisibleOwner(rrsets, apex, o) {}
  }

  /** Whatever is above a name that is not below a delegation point is neither
      below one nor itself one. */
  lemma {:induction false} AboveVisible(rrsets: seq<RrsetKey>, apex: Name, n: Name, s: Name)
    requires s < n && !BelowCut(Rows(rrsets, apex), n)
    ensures !BelowCut(Rows(rrsets, apex), s)
    ensures s != apex && Owns(rrsets, s) ==>
              exists i :: 0 <= i < |rrsets| && rrsets[i].owner == s && rrsets[i].rtype != NS
  {
    var rows := Rows(rrsets, apex);
    forall j | 0 <= j < |rows| && EndsWith(s, rows[j].name) ensures EndsWith(n, rows[j].name) && rows[j].name != n {}
    if s != apex && Owns(rrsets, s) {
      var i :| 0 <= i < |rrsets| && rrsets[i].owner == s;
      assert rows[i].name == s;
    }
  }

  /** With opt-out an owner is left out exactly when it is a visible bare
      delegation, and such an owner does not come back as an empty
      non-terminal; every other name is still required if one of the owners
      it leads to is. */
  lemma {:induction false} OptOutDrops(rrsets: seq<RrsetKey>, apex: Name, n: Name)
    ensures Owns(rrsets, n) ==>
              (Required(rrsets, apex, true, n) <==>
               Required(rrsets, apex, false, n) && !BareDelegation(rrsets, apex, n))
    ensures !Owns(rrsets, n) ==>
              (Required(rrsets, apex, true, n) <==>
               exists o :: && VisibleOwner(rrsets, apex, o) && !BareDelegation(rrsets, apex, o)
                           && InnerSuffix(apex, o, n))
  {
    var k := |rrsets|;
    forall o
      ensures HashedOwner(rrsets, apex, true, o, k) <==>
                VisibleOwner(rrsets, apex, o) && !BareDelegation(rrsets, apex, o)
      ensures HashedOwner(rrsets, apex, false, o, k) <==> VisibleOwner(rrsets, apex, o)
    {}
    forall optOut: bool, o | HashedOwner(rrsets, apex, optOut, o, k) && InnerSuffix(apex, o, n) && Owns(rrsets, n)
      ensures HashedOwner(rrsets, apex, true, n, k)
    {
      SuffixOwnerHashed(rrsets, apex, true, o, n);
    }
  }

  /** An owner that is an inner suffix of a name not below a delegation point is itself hashed. */
  lemma {:induction false} SuffixOwnerHashed(rrsets: seq<RrsetKey>, apex: Name, optOut: bool, o: Name, s: Name)
    requires !BelowCut(Rows(rrsets, apex), o) && InnerSuffix(apex, o, s) && Owns(rrsets, s)
    ensures HashedOwner(rrsets, apex, optOut, s, |rrsets|)
  {
    AboveVisible(rrsets, apex, o, s);
  }

  // ----- The early break -----

  /** Once a suffix is held, all its inner suffixes that matter are held too. */
  lemma {:induction false} BreakLosesNothing(rrsets: seq<RrsetKey>, apex: Name, optOut: bool, o: Name, s: Name,
                                             t: Name, k: nat)
    requires k <= |rrsets|
    requires Hashed(rrsets, apex, optOut, s, k)
    requires s < o && t < s && InnerSuffix(apex, o, t)
    ensures Hashed(rrsets, apex, optOut, t, k)
  {
    if HashedOwner(rrsets, apex, optOut, s, k) {
      assert InnerSuffix(apex, s, t);
    } else {
      var p :| HashedOwner(rrsets, apex, optOut, p, k) && InnerSuffix(apex, p, s);
      if EndsWith(p, apex) {
        AncestorsComparable(apex, s, p);
      }
      assert InnerSuffix(apex, p, t);
    }
  }

  // ----- The pass -----

  /** The map holds exactly the names in `names`, each under its own hash
      and flagged exactly if it owns nothing. */
  ghost predicate Holds(m: HashMap, hash: Hasher, names: Name -> bool, rrsets: seq<RrsetKey>) {
    && (forall h :: h in m ==> hash(m[h].name) == Some(h) && names(m[h].name))
    && (forall h :: h in m ==> (m[h].emptyNonTerminal <==> !Owns(rrsets, m[h].name)))
    && (forall n :: names(n) ==> hash(n).Some? && hash(n).value in m)
  }

  lemma {:induction false} HeldUnderItsHash(m: HashMap, hash: Hasher, names: Name -> bool, rrsets: seq<RrsetKey>,
                                            n: Name)
    requires CollisionFree(hash) && Holds(m, hash, names, rrsets) && hash(n).Some?
    ensures hash(n).value in m <==> names(n)
    ensures hash(n).value in m ==> m[hash(n).value].name == n
  {
    if hash(n).value in m {
      var h := hash(n).value;
      assert hash(m[h].name) == Some(h) == hash(n);
    }
  }

  lemma HoldsInsert(m: HashMap, hash: Hasher, names: Name -> bool, names': Name -> bool,
                    rrsets: seq<RrsetKey>, n: Name, ent: bool)
    requires CollisionFree(hash) && Holds(m, hash, names, rrsets) && hash(n).Some?
    requires ent <==> !Owns(rrsets, n)
    requires forall x :: names'(x) <==> names(x) || x == n
    ensures Holds(m[hash(n).value := HashInfo(n, ent)], hash, names', rrsets)
  {
  }

  ghost function HeldBefore(rrsets: seq<RrsetKey>, apex: Name, optOut: bool, k: nat): Name -> bool
    requires k <= |rrsets|
  {
    n => Hashed(rrsets, apex, optOut, n, k)
  }

  /** Held before row `i`, or the owner there, or one of its inner suffixes of at least `len` labels. */
  ghost function HeldWithin(rrsets: seq<RrsetKey>, apex: Name, optOut: bool, i: nat, len: nat): Name -> bool
    requires i < |rrsets|
  {
    n => || Hashed(rrsets, apex, optOut, n, i)
         || n == rrsets[i].owner
         || (InnerSuffix(apex, rrsets[i].owner, n) && |n| >= len)
  }

  /** An inner suffix not yet held owns nothing: its own RRsets would have come earlier. */
  lemma {:induction false} UnheldOwnsNothing(rrsets: seq<RrsetKey>, apex: Name, optOut: bool, i: nat, s: Name)
    requires CanonicalRrsets(rrsets) && i < |rrsets|
    requires !BelowCut(Rows(rrsets, apex), rrsets[i].owner) && InnerSuffix(apex, rrsets[i].owner, s)
    requires !Hashed(rrsets, apex, optOut, s, i)
    ensures !Owns(rrsets, s)
  {
    if Owns(rrsets, s) {
      SuffixOwnerHashed(rrsets, apex, optOut, rrsets[i].owner, s);
      forall j | 0 <= j < |rrsets| && rrsets[j].owner == s ensures j < i {
        AboveIsBefore(Rows(rrsets, apex), j, i);
      }
    }
  }

  lemma CanonicalRows(rrsets: seq<RrsetKey>, apex: Name)
    requires CanonicalRrsets(rrsets)
    ensures Sorted(Rows(rrsets, apex))
  {
  }

  /** Nothing shorter than a suffix that is the apex, or that is already held, is missing. */
  lemma {:induction false} NothingShorterMissing(rrsets: seq<RrsetKey>, apex: Name, optOut: bool, i: nat, len: nat)
    requires i < |rrsets| && 0 < len <= |rrsets[i].owner|
    requires var s := rrsets[i].owner[..len - 1]; s == apex || Hashed(rrsets, apex, optOut, s, i)
    ensures forall n :: HeldWithin(rrsets, apex, optOut, i, len)(n) <==> HeldWithin(rrsets, apex, optOut, i, 0)(n)
  {
    var owner := rrsets[i].owner;
    var s := owner[..len - 1];
    forall n | InnerSuffix(apex, owner, n) && |n| < len ensures Hashed(rrsets, apex, optOut, n, i) {
      assert n == owner[..|n|] && EndsWith(s, n);
      if n != s {
        assert s != apex;
        BreakLosesNothing(rrsets, apex, optOut, owner, s, n, i);
      }
    }
  }

  /** Insert the owner of row `i` and its empty non-terminals, from the
      longest suffix down, stopping at the apex or at a suffix already held. */
  method AddOwner(m: HashMap, rrsets: seq<RrsetKey>, apex: Name, optOut: bool, hash: Hasher, i: nat)
    returns (r: BuildResult)
    requires CanonicalRrsets(rrsets) && CollisionFree(hash) && i < |rrsets|
    requires Holds(m, hash, HeldBefore(rrsets, apex, optOut, i), rrsets)
    requires !BelowCut(Rows(rrsets, apex), rrsets[i].owner)
    ensures r.Built? ==> Holds(r.hashes, hash, HeldWithin(rrsets, apex, optOut, i, 0), rrsets)
    ensures r.HashFailed? ==> exists n :: HeldWithin(rrsets, apex, optOut, i, 0)(n) && hash(n).None?
  {
    var owner := rrsets[i].owner;
    ghost var all := HeldWithin(rrsets, apex, optOut, i, 0);
    if hash(owner).None? {
      assert all(owner);
      return HashFailed;
    }
    var hashes := m[hash(owner).value := HashInfo(owner, false)];
    HoldsInsert(m, hash, HeldBefore(rrsets, apex, optOut, i), HeldWithin(rrsets, apex, optOut, i, |owner|), rrsets,
                owner, false);
    if owner == apex {
      HoldsSame(hashes, hash, HeldWithin(rrsets, apex, optOut, i, |owner|), all, rrsets);
      return Built(hashes);
    }
    var len := |owner|;
    while len > 0
      invariant 0 <= len <= |owner|
      invariant EndsWith(owner, apex) ==> |apex| < len
      invariant Holds(hashes, hash, HeldWithin(rrsets, apex, optOut, i, len), rrsets)
    {
      ghost var held := HeldWithin(rrsets, apex, optOut, i, len);
      var suffix := owner[..len - 1];
      if suffix == apex {
        NothingShorterMissing(rrsets, apex, optOut, i, len);
        HoldsSame(hashes, hash, held, all, rrsets);
        return Built(hashes);
      }
      assert InnerSuffix(apex, owner, suffix);
      if hash(suffix).None? {
        assert all(suffix);
        return HashFailed;
      }
      HeldUnderItsHash(hashes, hash, held, rrsets, suffix);
      if hash(suffix).value in hashes {
        NothingShorterMissing(rrsets, apex, optOut, i, len);
        HoldsSame(hashes, hash, held, all, rrsets);
        return Built(hashes);
      }
      UnheldOwnsNothing(rrsets, apex, optOut, i, suffix);
      HoldsInsert(hashes, hash, held, HeldWithin(rrsets, apex, optOut, i, len - 1), rrsets, suffix, true);
      hashes := hashes[hash(suffix).value := HashInfo(suffix, true)];
      len := len - 1;
    }
    r := Built(hashes);
  }

  lemma HoldsSame(m: HashMap, hash: Hasher, names: Name -> bool, names': Name -> bool,
                  rrsets: seq<RrsetKey>)
    requires Holds(m, hash, names, rrsets)
    requires forall n :: names(n) <==> names'(n)
    ensures Holds(m, hash, names', rrsets)
  {
  }

  /** Row `i` gets its owner hashed. */
  ghost predicate Adds(rrsets: seq<RrsetKey>, apex: Name, optOut: bool, i: nat)
    requires i < |rrsets|
  {
    && !BelowCut(Rows(rrsets, apex), rrsets[i].owner)
    && (optOut ==> rrsets[i].owner == apex || rrsets[i].rtype != NS)
  }

  lemma {:induction false} HashedOwnerNext(rrsets: seq<RrsetKey>, apex: Name, optOut: bool, i: nat, o: Name)
    requires i < |rrsets|
    ensures HashedOwner(rrsets, apex, optOut, o, i + 1) <==>
              HashedOwner(rrsets, apex, optOut, o, i) || (Adds(rrsets, apex, optOut, i) && o == rrsets[i].owner)
  {
    if HashedOwner(rrsets, apex, optOut, o, i) {
      var j :| 0 <= j < i && rrsets[j].owner == o && (optOut ==> o == apex || rrsets[j].rtype != NS);
    }
  }

  /** A row below a delegation point, one whose owner is hashed already and an
      NS RRset passed over by opt-out change nothing. */
  lemma {:induction false} RowSkipped(m: HashMap, rrsets: seq<RrsetKey>, apex: Name, optOut: bool, hash: Hasher, i: nat)
    requires i < |rrsets| && Holds(m, hash, HeldBefore(rrsets, apex, optOut, i), rrsets)
    requires Adds(rrsets, apex, optOut, i) ==> HashedOwner(rrsets, apex, optOut, rrsets[i].owner, i)
    ensures Holds(m, hash, HeldBefore(rrsets, apex, optOut, i + 1), rrsets)
  {
    var next := i + 1;
    forall o ensures HashedOwner(rrsets, apex, optOut, o, next) <==> HashedOwner(rrsets, apex, optOut, o, i) {
      HashedOwnerNext(rrsets, apex, optOut, i, o);
    }
    forall n ensures Hashed(rrsets, apex, optOut, n, next) <==> Hashed(rrsets, apex, optOut, n, i) {}
    HoldsSame(m, hash, HeldBefore(rrsets, apex, optOut, i), HeldBefore(rrsets, apex, optOut, next), rrsets);
  }

  lemma {:induction false} RowAdded(m: HashMap, rrsets: seq<RrsetKey>, apex: Name, optOut: bool, hash: Hasher, i: nat)
    requires i < |rrsets| && Adds(rrsets, apex, optOut, i)
    requires Holds(m, hash, HeldWithin(rrsets, apex, optOut, i, 0), rrsets)
    ensures Holds(m, hash, HeldBefore(rrsets, apex, optOut, i + 1), rrsets)
  {
    WithinIsNext(rrsets, apex, optOut, i);
    HoldsSame(m, hash, HeldWithin(rrsets, apex, optOut, i, 0), HeldBefore(rrsets, apex, optOut, i + 1), rrsets);
  }

  lemma {:induction false} WithinIsNext(rrsets: seq<RrsetKey>, apex: Name, optOut: bool, i: nat)
    requires i < |rrsets| && Adds(rrsets, apex, optOut, i)
    ensures forall n :: HeldWithin(rrsets, apex, optOut, i, 0)(n) <==> HeldBefore(rrsets, apex, optOut, i + 1)(n)
  {
    var next := i + 1;
    forall o
      ensures HashedOwner(rrsets, apex, optOut, o, next) <==>
                HashedOwner(rrsets, apex, optOut, o, i) || o == rrsets[i].owner
    {
      HashedOwnerNext(rrsets, apex, optOut, i, o);
    }
  }

  lemma {:induction false} HashedGrows(rrsets: seq<RrsetKey>, apex: Name, optOut: bool, k: nat, n: Name)
    requires k <= |rrsets| && Hashed(rrsets, apex, optOut, n, k)
    ensures Required(rrsets, apex, optOut, n)
  {
    forall o | HashedOwner(rrsets, apex, optOut, o, k) ensures HashedOwner(rrsets, apex, optOut, o, |rrsets|) {}
  }

  /** Below the remembered delegation point, or passed over by opt-out. */
  predicate PassedOver(r: RrsetKey, apex: Name, optOut: bool, delegation: Option<Name>) {
    || (delegation.Some? && EndsWith(r.owner, delegation.value) && r.owner != delegation.value)
    || (optOut && r.owner != apex && r.rtype == NS)
  }

  /** The delegation point after a row. */
  function NextDelegation(r: RrsetKey, apex: Name, delegation: Option<Name>): Option<Name> {
    if delegation.Some? && EndsWith(r.owner, delegation.value) then delegation
    else if r.rtype == NS && r.owner != apex then Some(r.owner)
    else None
  }

  ghost function DelegationAt(rrsets: seq<RrsetKey>, apex: Name, i: nat): Option<Name>
    requires i <= |rrsets|
  {
    DelegationBefore(Rows(rrsets, apex), i)
  }

  lemma {:induction false} RowDecides(rrsets: seq<RrsetKey>, apex: Name, optOut: bool, i: nat)
    requires CanonicalRrsets(rrsets) && i < |rrsets|
    ensures Adds(rrsets, apex, optOut, i) <==> !PassedOver(rrsets[i], apex, optOut, DelegationAt(rrsets, apex, i))
    ensures DelegationAt(rrsets, apex, i + 1) == NextDelegation(rrsets[i], apex, DelegationAt(rrsets, apex, i))
  {
    CanonicalRows(rrsets, apex);
    DelegationExact(Rows(rrsets, apex), i);
  }

  /** The map is what the first `k` rows require. */
  ghost predicate HoldsUpTo(m: HashMap, hash: Hasher, rrsets: seq<RrsetKey>, apex: Name, optOut: bool, k: nat)
    requires k <= |rrsets|
  {
    Holds(m, hash, HeldBefore(rrsets, apex, optOut, k), rrsets)
  }

  /** What holds before row `k`: the map, the owner hashed last if its rows may
      go on, and the delegation point. */
  ghost predicate Progress(m: HashMap, hash: Hasher, rrsets: seq<RrsetKey>, apex: Name, optOut: bool, k: nat,
                           prevName: Option<Name>, delegation: Option<Name>)
    requires k <= |rrsets|
  {
    && HoldsUpTo(m, hash, rrsets, apex, optOut, k)
    && delegation == DelegationAt(rrsets, apex, k)
    && (prevName.Some? ==> HashedOwner(rrsets, apex, optOut, prevName.value, k))
    && (prevName.Some? ==> delegation.None? || delegation == prevName)
  }

  lemma {:induction false} ProgressAtFirst(rrsets: seq<RrsetKey>, apex: Name, optOut: bool, hash: Hasher)
    ensures Progress(map[], hash, rrsets, apex, optOut, 0, None, None)
  {
    forall n ensures !Hashed(rrsets, apex, optOut, n, 0) {}
  }

  /** A row that is passed over, or one whose owner is hashed already. */
  lemma {:induction false} NothingToAdd(m: HashMap, rrsets: seq<RrsetKey>, apex: Name, optOut: bool, hash: Hasher,
                                        i: nat, prevName: Option<Name>, delegation: Option<Name>, next: Option<Name>)
    requires CanonicalRrsets(rrsets) && i < |rrsets|
    requires Progress(m, hash, rrsets, apex, optOut, i, prevName, delegation)
    requires PassedOver(rrsets[i], apex, optOut, delegation) || prevName == Some(rrsets[i].owner)
    requires var owner := rrsets[i].owner;
             || next.None?
             || (next == prevName &&
                 (next.value == owner || (delegation.Some? && EndsWith(owner, delegation.value))))
    ensures Progress(m, hash, rrsets, apex, optOut, i + 1, next, NextDelegation(rrsets[i], apex, delegation))
  {
    RowDecides(rrsets, apex, optOut, i);
    RowSkipped(m, rrsets, apex, optOut, hash, i);
    if prevName.Some? {
      HashedOwnerNext(rrsets, apex, optOut, i, prevName.value);
    }
  }

  /** Build the map from NSEC3 hashes to names in one pass over the RRsets.

      The result holds exactly the required names; it fails exactly if one
      of these cannot be hashed. */
  method Build(rrsets: seq<RrsetKey>, apex: Name, optOut: bool, hash: Hasher) returns (r: BuildResult)
    requires CanonicalRrsets(rrsets) && CollisionFree(hash)
    ensures r.Built? ==> HoldsUpTo(r.hashes, hash, rrsets, apex, optOut, |rrsets|)
    ensures r.HashFailed? ==> exists n :: Required(rrsets, apex, optOut, n) && hash(n).None?
  {
    var hashes: HashMap := map[];
    ProgressAtFirst(rrsets, apex, optOut, hash);
    var prevName: Option<Name> := None;
    var delegation: Option<Name> := None;
    for i := 0 to |rrsets|
      invariant Progress(hashes, hash, rrsets, apex, optOut, i, prevName, delegation)
    {
      ghost var last, above := prevName, delegation;
      var owner := rrsets[i].owner;
      if prevName.Some? {
        if prevName.value == owner {
          // Another RRset of the owner handled last.
          NothingToAdd(hashes, rrsets, apex, optOut, hash, i, last, above, prevName);
          if rrsets[i].rtype == NS && owner != apex {
            delegation := Some(owner);
          }
          continue;
        }
      }
      if delegation.Some? && owner != delegation.value {
        if EndsWith(owner, delegation.value) {
          // In a zone delegated from this one.
          NothingToAdd(hashes, rrsets, apex, optOut, hash, i, last, above, prevName);
          continue;
        } else {
          delegation := None;
        }
      }
      prevName := Some(owner);
      if rrsets[i].rtype == NS && owner != apex {
        delegation := Some(owner);
        if optOut {
          // The owner is hashed if it turns out to have other types.
          prevName := None;
          NothingToAdd(hashes, rrsets, apex, optOut, hash, i, last, above, prevName);
          continue;
        }
      }
      hashes, r := AddRow(hashes, rrsets, apex, optOut, hash, i, last, above);
      if r.HashFailed? {
        return;
      }
    }
    r := Built(hashes);
  }

  method AddRow(m: HashMap, rrsets: seq<RrsetKey>, apex: Name, optOut: bool, hash: Hasher, i: nat,
                ghost prevName: Option<Name>, ghost delegation: Option<Name>)
    returns (hashes: HashMap, r: BuildResult)
    requires CanonicalRrsets(rrsets) && CollisionFree(hash) && i < |rrsets|
    requires Progress(m, hash, rrsets, apex, optOut, i, prevName, delegation)
    requires !PassedOver(rrsets[i], apex, optOut, delegation)
    ensures var next := NextDelegation(rrsets[i], apex, delegation);
            r.Built? ==> Progress(hashes, hash, rrsets, apex, optOut, i + 1, Some(rrsets[i].owner), next)
    ensures r.HashFailed? ==> exists n :: Required(rrsets, apex, optOut, n) && hash(n).None?
  {
    RowDecides(rrsets, apex, optOut, i);
    HashedOwnerNext(rrsets, apex, optOut, i, rrsets[i].owner);
    hashes := m;
    r := AddOwner(m, rrsets, apex, optOut, hash, i);
    if r.Built? {
      hashes := r.hashes;
      RowAdded(hashes, rrsets, apex, optOut, hash, i);
    } else {
      WithinIsNext(rrsets, apex, optOut, i);
      ghost var n :| HeldWithin(rrsets, apex, optOut, i, 0)(n) && hash(n).None?;
      HashedGrows(rrsets, apex, optOut, i + 1, n);
    }
  }
}
