/** The scan that decides whether a transferred zone is signed by the right
    keys, and the declarative notion of authoritative data it has to match. */
module CheckRrsigs {
  import opened Names
  import opened Wrappers
  import opened ZoneCuts

  datatype Rtype = A | NS | AAAA | DS | NSEC | DNSKEY | NSEC3 | CDS | CDNSKEY | Other(code: nat)

  /** An algorithm and a key tag. */
  type Signer = (nat, nat)

  /** One entry of the owner map: a name and the types present there. */
  datatype Entry = Entry(name: Name, types: set<Rtype>)

  type SigMap = map<(Name, Rtype), set<Signer>>

  datatype Verdict = Done | WaitRecord(name: Name, rtype: Rtype) | WaitNextSerial

  /** The owner map is iterated in canonical order and has one entry a name. */
  ghost predicate Canonical(tree: seq<Entry>) {
    forall i, j :: 0 <= i < j < |tree| ==> NameLess(tree[i].name, tree[j].name)
  }

  // ----- What has to be signed -----

  /** A delegation point: the zone itself is never one. */
  predicate Cut(e: Entry, zone: Name) {
    NS in e.types && e.name != zone
  }

  function Rows(tree: seq<Entry>, zone: Name): seq<Row> {
    seq(|tree|, i requires 0 <= i < |tree| => Row(tree[i].name, Cut(tree[i], zone)))
  }

  predicate SignedAt(e: Entry, zone: Name, t: Rtype) {
    && t in e.types
    && (Cut(e, zone) ==> t == DS || t == NSEC)
    && !(t in {DNSKEY, CDS, CDNSKEY} && e.name == zone)
  }

  function SignersOf(sigs: SigMap, n: Name, t: Rtype): set<Signer> {
    if (n, t) in sigs then sigs[(n, t)] else {}
  }

  /** Data of entry `e` that has to be signed and has not the expected signers. */
  predicate Wrong(e: Entry, sigs: SigMap, zone: Name, expected: set<Signer>, t: Rtype) {
    SignedAt(e, zone, t) && SignersOf(sigs, e.name, t) != expected
  }

  ghost predicate Clean(e: Entry, sigs: SigMap, zone: Name, expected: set<Signer>) {
    forall t :: !Wrong(e, sigs, zone, expected, t)
  }

  ghost predicate CleanButNsec3(e: Entry, sigs: SigMap, zone: Name, expected: set<Signer>) {
    forall t :: Wrong(e, sigs, zone, expected, t) ==> t == NSEC3
  }

  /** Entry `i` is not below a delegation point. */
  ghost predicate Authoritative(tree: seq<Entry>, zone: Name, i: nat)
    requires i < |tree|
  {
    !BelowCut(Rows(tree, zone), tree[i].name)
  }

  /** All authoritative data in the first `n` entries has the expected signers. */
  ghost predicate AllClean(tree: seq<Entry>, sigs: SigMap, zone: Name, expected: set<Signer>, n: nat)
    requires n <= |tree|
  {
    forall i :: 0 <= i < n && Authoritative(tree, zone, i) ==> Clean(tree[i], sigs, zone, expected)
  }

  ghost predicate AllCleanButNsec3(tree: seq<Entry>, sigs: SigMap, zone: Name, expected: set<Signer>, n: nat)
    requires n <= |tree|
  {
    forall i :: 0 <= i < n && Authoritative(tree, zone, i) ==> CleanButNsec3(tree[i], sigs, zone, expected)
  }

  // ----- The scan -----

  /** The types of one entry, in an order the code does not control.  A
      mismatch at a type other than NSEC3 ends the scan at once; one at NSEC3
      is only remembered. */
  method CheckEntry(e: Entry, sigs: SigMap, zone: Name, expected: set<Signer>, delegation: Option<Name>,
                    before: Verdict)
    returns (v: Verdict)
    requires !before.WaitRecord?
    requires delegation.Some? <==> Cut(e, zone)
    ensures v.WaitRecord? ==> v.name == e.name && v.rtype != NSEC3 && Wrong(e, sigs, zone, expected, v.rtype)
    ensures !v.WaitRecord? <==> CleanButNsec3(e, sigs, zone, expected)
    ensures v.Done? <==> before.Done? && Clean(e, sigs, zone, expected)
  {
    v := before;
    var todo := e.types;
    while todo != {}
      invariant todo <= e.types
      invariant !v.WaitRecord?
      invariant v.Done? <==> before.Done? && forall t :: t in e.types - todo ==> !Wrong(e, sigs, zone, expected, t)
      invariant forall t :: t in e.types - todo && Wrong(e, sigs, zone, expected, t) ==> t == NSEC3
      decreases |todo|
    {
      var t :| t in todo;
      todo := todo - {t};
      if delegation.Some? {
        if t == NS || t == A || t == AAAA {
          continue;
        } else if t == DS || t == NSEC {
        } else {
          continue;
        }
      }
      if (t == DNSKEY || t == CDS || t == CDNSKEY) && e.name == zone {
        continue;
      }
      var found := if (e.name, t) in sigs then sigs[(e.name, t)] else {};
      if found != expected {
        assert Wrong(e, sigs, zone, expected, t);
        if t != NSEC3 {
          return WaitRecord(e.name, t);
        }
        v := WaitNextSerial;
      }
    }
  }

  /** Names differ from entry to entry, so the scan may test with `EndsWith` alone. */
  lemma {:induction false} DelegationDecides(tree: seq<Entry>, zone: Name, i: nat)
    requires Canonical(tree) && i < |tree|
    ensures var d := DelegationBefore(Rows(tree, zone), i);
            d.Some? && EndsWith(tree[i].name, d.value) <==> !Authoritative(tree, zone, i)
  {
    var rows := Rows(tree, zone);
    NameOrder();
    DelegationExact(rows, i);
    DelegationSeen(rows, i);
    assert forall j :: 0 <= j < i ==> rows[j].name == tree[j].name && tree[j].name != tree[i].name;
  }

  lemma CleanSoFar(tree: seq<Entry>, sigs: SigMap, zone: Name, expected: set<Signer>, n: nat)
    requires n < |tree|
    ensures AllClean(tree, sigs, zone, expected, n + 1) <==>
              && AllClean(tree, sigs, zone, expected, n)
              && (Authoritative(tree, zone, n) ==> Clean(tree[n], sigs, zone, expected))
    ensures AllCleanButNsec3(tree, sigs, zone, expected, n + 1) <==>
              && AllCleanButNsec3(tree, sigs, zone, expected, n)
              && (Authoritative(tree, zone, n) ==> CleanButNsec3(tree[n], sigs, zone, expected))
  {
  }

  /** Check that all authoritative records have the expected signers. */
  method Check(tree: seq<Entry>, sigs: SigMap, zone: Name, expected: set<Signer>) returns (v: Verdict)
    requires Canonical(tree)
    ensures v.Done? <==> AllClean(tree, sigs, zone, expected, |tree|)
    ensures v.WaitRecord? <==> !AllCleanButNsec3(tree, sigs, zone, expected, |tree|)
    ensures v.WaitRecord? ==>
              exists i :: && 0 <= i < |tree| && tree[i].name == v.name && v.rtype != NSEC3
                          && Authoritative(tree, zone, i) && Wrong(tree[i], sigs, zone, expected, v.rtype)
                          && AllCleanButNsec3(tree, sigs, zone, expected, i)
  {
    ghost var rows := Rows(tree, zone);
    var delegation: Option<Name> := None;
    v := Done;
    for i := 0 to |tree|
      invariant delegation == DelegationBefore(rows, i)
      invariant !v.WaitRecord?
      invariant v.Done? <==> AllClean(tree, sigs, zone, expected, i)
      invariant AllCleanButNsec3(tree, sigs, zone, expected, i)
    {
      DelegationDecides(tree, zone, i);
      CleanSoFar(tree, sigs, zone, expected, i);
      var key := tree[i].name;
      if delegation.Some? {
        if EndsWith(key, delegation.value) {
          continue;
        }
        delegation := None;
      }
      if NS in tree[i].types && key != zone {
        delegation := Some(key);
      }
      v := CheckEntry(tree[i], sigs, zone, expected, delegation, v);
      if v.WaitRecord? {
        return;
      }
    }
  }
}
