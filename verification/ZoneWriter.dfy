/** Writing the signed zone: the SOA first, each RRset with the signatures
    over it behind it if that is asked for, and no record lost. */
module ZoneWriter {
  import opened Names
  import Nsec3Map
  import OwnerOrder

  const SOA: nat := 6
  const RRSIG: nat := 46

  /** `covered` only matters for signatures. */
  datatype Rr = Rr(owner: Name, rtype: nat, covered: nat, data: nat)

  datatype Rrset = Rrset(rtype: nat, rrs: seq<Rr>)

  /** All RRsets of one owner. */
  datatype OwnerRrs = OwnerRrs(owner: Name, rrsets: seq<Rrset>)

  type Zone = seq<OwnerRrs>

  /** Records are grouped by owner, and by type within an owner. */
  ghost predicate Grouped(o: OwnerRrs) {
    GroupedByType(o.rrsets) && forall s, r :: s in o.rrsets && r in s.rrs ==> r.owner == o.owner
  }

  ghost predicate GroupedByType(rrsets: seq<Rrset>) {
    && (forall i, j :: 0 <= i < j < |rrsets| ==> rrsets[i].rtype != rrsets[j].rtype)
    && (forall s, r :: s in rrsets && r in s.rrs ==> r.rtype == s.rtype)
  }

  // ----- Flat views -----

  function RrsOf(rrsets: seq<Rrset>): seq<Rr> {
    if rrsets == [] then [] else rrsets[0].rrs + RrsOf(rrsets[1..])
  }

  function Flatten(zone: Zone): seq<Rr> {
    if zone == [] then [] else RrsOf(zone[0].rrsets) + Flatten(zone[1..])
  }

  function Filter(keep: Rr -> bool, s: seq<Rr>): seq<Rr> {
    if s == [] then []
    else if keep(s[0]) then [s[0]] + Filter(keep, s[1..])
    else Filter(keep, s[1..])
  }

  function IsSoa(): Rr -> bool {
    (r: Rr) => r.rtype == SOA
  }

  function IsNotSoa(): Rr -> bool {
    (r: Rr) => r.rtype != SOA
  }

  function Covers(t: nat): Rr -> bool {
    (r: Rr) => r.rtype == RRSIG && r.covered == t
  }

  predicate PlainType(t: nat) {
    t != SOA && t != RRSIG
  }

  // ----- What is written -----

  /** An RRset followed by the signatures of its owner that cover it. */
  function WriteRrset(o: OwnerRrs, s: Rrset): seq<Rr> {
    s.rrs + Filter(Covers(s.rtype), RrsOf(o.rrsets))
  }

  function WriteRrsets(o: OwnerRrs, rrsets: seq<Rrset>): seq<Rr> {
    if rrsets == [] then []
    else (if PlainType(rrsets[0].rtype) then WriteRrset(o, rrsets[0]) else []) + WriteRrsets(o, rrsets[1..])
  }

  function WriteOwners(owners: Zone): seq<Rr> {
    if owners == [] then [] else WriteRrsets(owners[0], owners[0].rrsets) + WriteOwners(owners[1..])
  }

  /** The first SOA record and, if signatures follow what they cover, those over it. */
  function WriteSoa(records: seq<Rr>, ordered: bool): seq<Rr> {
    var soas := Filter(IsSoa(), records);
    if soas == [] then [] else [soas[0]] + if ordered then Filter(Covers(SOA), records) else []
  }

  /** `records` is the signed zone and `owners` the same, in the order asked for. */
  function Output(records: Zone, owners: Zone, ordered: bool): seq<Rr> {
    WriteSoa(Flatten(records), ordered) + if ordered then WriteOwners(owners) else Filter(IsNotSoa(), Flatten(owners))
  }

  // ----- The loops -----

  method Collect(keep: Rr -> bool, s: seq<Rr>, before: seq<Rr>) returns (out: seq<Rr>)
    ensures out == before + Filter(keep, s)
  {
    out := before;
    for i := 0 to |s|
      invariant out + Filter(keep, s[i..]) == before + Filter(keep, s)
    {
      assert s[i..][1..] == s[i + 1..];
      if keep(s[i]) {
        assert out + ([s[i]] + Filter(keep, s[i + 1..])) == out + [s[i]] + Filter(keep, s[i + 1..]);
        out := out + [s[i]];
      }
    }
    assert out + [] == out;
  }

  /** Write one owner's RRsets, each followed by its signatures. */
  method WriteOwner(o: OwnerRrs, before: seq<Rr>) returns (out: seq<Rr>)
    ensures out == before + WriteRrsets(o, o.rrsets)
  {
    out := before;
    for i := 0 to |o.rrsets|
      invariant out + WriteRrsets(o, o.rrsets[i..]) == before + WriteRrsets(o, o.rrsets)
    {
      assert o.rrsets[i..][1..] == o.rrsets[i + 1..];
      var s := o.rrsets[i];
      ghost var start, rest := out, WriteRrsets(o, o.rrsets[i + 1..]);
      if s.rtype == SOA || s.rtype == RRSIG {
        assert out + ([] + rest) == out + rest;
        continue;
      }
      out := out + s.rrs;
      out := Collect(Covers(s.rtype), RrsOf(o.rrsets), out);
      assert out == start + WriteRrset(o, s);
      assert start + (WriteRrset(o, s) + rest) == out + rest;
    }
    assert out + [] == out;
  }

  method WriteZone(records: Zone, owners: Zone, ordered: bool) returns (out: seq<Rr>)
    ensures out == Output(records, owners, ordered)
  {
    out := [];
    var all := Flatten(records);
    var soas := Collect(IsSoa(), all, []);
    assert soas == Filter(IsSoa(), all);
    if soas != [] {
      out := [soas[0]];
      if ordered {
        out := Collect(Covers(SOA), all, out);
      }
    }
    ghost var head := out;
    assert head == WriteSoa(all, ordered);
    if ordered {
      for i := 0 to |owners|
        invariant out + WriteOwners(owners[i..]) == head + WriteOwners(owners)
      {
        assert owners[i..][1..] == owners[i + 1..];
        ghost var start, rest := out, WriteOwners(owners[i + 1..]);
        out := WriteOwner(owners[i], out);
        assert start + (WriteRrsets(owners[i], owners[i].rrsets) + rest) == out + rest;
      }
      assert out + [] == out;
    } else {
      out := Collect(IsNotSoa(), Flatten(owners), out);
    }
  }

  // ----- How often each record is written -----

  function Count(x: Rr, s: seq<Rr>): nat {
    multiset(s)[x]
  }

  lemma CountConcat(x: Rr, a: seq<Rr>, b: seq<Rr>)
    ensures Count(x, a + b) == Count(x, a) + Count(x, b)
  {
  }

  lemma {:induction false} CountFilter(keep: Rr -> bool, x: Rr, s: seq<Rr>)
    ensures Count(x, Filter(keep, s)) == if keep(x) then Count(x, s) else 0
  {
    if s != [] {
      CountFilter(keep, x, s[1..]);
      assert s == [s[0]] + s[1..];
    }
  }

  /** The owner has an RRset, other than SOA and RRSIG, that `x` covers. */
  predicate CoversOneOf(x: Rr, rrsets: seq<Rrset>) {
    exists i :: 0 <= i < |rrsets| && PlainType(rrsets[i].rtype) && rrsets[i].rtype == x.covered
  }

  /** Among the RRsets of one owner plain records are written once, and a
      signature is if it covers one of them. */
  lemma {:induction false} CountInRrsets(x: Rr, o: OwnerRrs, rrsets: seq<Rrset>)
    requires GroupedByType(rrsets)
    ensures Count(x, WriteRrsets(o, rrsets)) ==
              if PlainType(x.rtype) then Count(x, RrsOf(rrsets))
              else if x.rtype == RRSIG && CoversOneOf(x, rrsets) then Count(x, RrsOf(o.rrsets))
              else 0
  {
    if rrsets != [] {
      var s, rest := rrsets[0], rrsets[1..];
      CountInRrsets(x, o, rest);
      CoversFirstOrRest(x, rrsets);
      CountConcat(x, s.rrs, RrsOf(rest));
      assert x in s.rrs ==> s in rrsets && x.rtype == s.rtype;
      if PlainType(s.rtype) {
        CountInRrset(x, o, s);
        CountConcat(x, WriteRrset(o, s), WriteRrsets(o, rest));
      } else {
        CountConcat(x, [], WriteRrsets(o, rest));
      }
    }
  }

  lemma {:induction false} CountInRrset(x: Rr, o: OwnerRrs, s: Rrset)
    ensures Count(x, WriteRrset(o, s)) ==
              Count(x, s.rrs) + if Covers(s.rtype)(x) then Count(x, RrsOf(o.rrsets)) else 0
  {
    CountFilter(Covers(s.rtype), x, RrsOf(o.rrsets));
  }

  /** Types differ, so a signature covers the first RRset or one of the others. */
  lemma {:induction false} CoversFirstOrRest(x: Rr, rrsets: seq<Rrset>)
    requires rrsets != [] && GroupedByType(rrsets)
    ensures var first := PlainType(rrsets[0].rtype) && rrsets[0].rtype == x.covered;
            && (CoversOneOf(x, rrsets) <==> first || CoversOneOf(x, rrsets[1..]))
            && !(first && CoversOneOf(x, rrsets[1..]))
  {
    var rest := rrsets[1..];
    if CoversOneOf(x, rest) {
      var i :| 0 <= i < |rest| && PlainType(rest[i].rtype) && rest[i].rtype == x.covered;
      assert rrsets[i + 1] == rest[i];
    }
    if CoversOneOf(x, rrsets) {
      var i :| 0 <= i < |rrsets| && PlainType(rrsets[i].rtype) && rrsets[i].rtype == x.covered;
      assert i > 0 ==> rest[i - 1] == rrsets[i];
    }
  }

  /** The signature `x` covers an RRset present at its owner. */
  predicate Placed(x: Rr, zone: Zone) {
    exists i :: 0 <= i < |zone| && zone[i].owner == x.owner && CoversOneOf(x, zone[i].rrsets)
  }

  ghost predicate WellGrouped(zone: Zone) {
    && (forall o :: o in zone ==> Grouped(o))
    && (forall i, j :: 0 <= i < j < |zone| ==> zone[i].owner != zone[j].owner)
  }

  lemma {:induction false} RrsMember(x: Rr, rrsets: seq<Rrset>)
    requires x in RrsOf(rrsets)
    ensures exists s :: s in rrsets && x in s.rrs
  {
    if x !in rrsets[0].rrs {
      RrsMember(x, rrsets[1..]);
    }
  }

  lemma {:induction false} NotAtOtherOwner(x: Rr, o: OwnerRrs)
    requires Grouped(o) && x.owner != o.owner
    ensures Count(x, RrsOf(o.rrsets)) == 0
  {
    if x in RrsOf(o.rrsets) {
      RrsMember(x, o.rrsets);
    }
  }

  lemma {:induction false} CountInOwners(x: Rr, owners: Zone)
    requires WellGrouped(owners)
    ensures Count(x, WriteOwners(owners)) ==
              if PlainType(x.rtype) || (x.rtype == RRSIG && Placed(x, owners)) then Count(x, Flatten(owners)) else 0
  {
    if owners != [] {
      var o, rest := owners[0], owners[1..];
      assert owners == [o] + rest && o in owners && Grouped(o);
      CountInOwners(x, rest);
      CountInRrsets(x, o, o.rrsets);
      CountConcat(x, WriteRrsets(o, o.rrsets), WriteOwners(rest));
      CountConcat(x, RrsOf(o.rrsets), Flatten(rest));
      if x.owner != o.owner {
        NotAtOtherOwner(x, o);
      } else {
        NotFurtherOn(x, rest);
      }
    }
  }

  lemma {:induction false} NotFurtherOn(x: Rr, zone: Zone)
    requires WellGrouped(zone) && forall o :: o in zone ==> o.owner != x.owner
    ensures Count(x, Flatten(zone)) == 0 && !Placed(x, zone)
  {
    if zone != [] {
      NotFurtherOn(x, zone[1..]);
      NotAtOtherOwner(x, zone[0]);
      CountConcat(x, RrsOf(zone[0].rrsets), Flatten(zone[1..]));
    }
  }

  function Sum<T>(f: T -> nat, s: seq<T>): nat {
    if s == [] then 0 else f(s[0]) + Sum(f, s[1..])
  }

  lemma {:induction false} SumWithout<T>(f: T -> nat, s: seq<T>, i: nat)
    requires i < |s|
    ensures Sum(f, s) == f(s[i]) + Sum(f, s[..i] + s[i + 1..])
  {
    var rest := s[..i] + s[i + 1..];
    if i == 0 {
      assert rest == s[1..];
    } else {
      SumWithout(f, s[1..], i - 1);
      assert rest[1..] == s[1..][..i - 1] + s[1..][i..];
    }
  }

  lemma {:induction false} MultisetWithout<T>(s: seq<T>, i: nat)
    requires i < |s|
    ensures multiset(s[..i] + s[i + 1..]) == multiset(s) - multiset{s[i]}
  {
    assert s == s[..i] + ([s[i]] + s[i + 1..]);
  }

  lemma {:induction false} SumReordered<T>(f: T -> nat, a: seq<T>, b: seq<T>)
    requires multiset(a) == multiset(b)
    ensures Sum(f, a) == Sum(f, b)
    decreases |a|
  {
    if a == [] {
      assert |multiset(b)| == |b|;
    } else {
      assert a[0] in multiset(b);
      var i :| 0 <= i < |b| && b[i] == a[0];
      MultisetWithout(a, 0);
      MultisetWithout(b, i);
      SumReordered(f, a[..0] + a[1..], b[..i] + b[i + 1..]);
      SumWithout(f, a, 0);
      SumWithout(f, b, i);
    }
  }

  function CountAt(x: Rr): OwnerRrs -> nat {
    (o: OwnerRrs) => Count(x, RrsOf(o.rrsets))
  }

  lemma {:induction false} CountFlatten(x: Rr, zone: Zone)
    ensures Count(x, Flatten(zone)) == Sum(CountAt(x), zone)
  {
    if zone != [] {
      CountFlatten(x, zone[1..]);
      CountConcat(x, RrsOf(zone[0].rrsets), Flatten(zone[1..]));
    }
  }

  /** Reordering the owners reorders the records. */
  lemma {:induction false} SameRecords(x: Rr, a: Zone, b: Zone)
    requires multiset(a) == multiset(b)
    ensures Count(x, Flatten(a)) == Count(x, Flatten(b))
  {
    SumReordered(CountAt(x), a, b);
    CountFlatten(x, a);
    CountFlatten(x, b);
  }

  // ----- Main results -----

  /** There is at most one SOA and, if signatures follow what they cover,
      every signature covers the SOA or another RRset at its owner that is
      not itself made of signatures. */
  ghost predicate Conserving(records: Zone, ordered: bool) {
    var all := Flatten(records);
    && |Filter(IsSoa(), all)| <= 1
    && (ordered ==> forall x :: x in all && x.rtype == RRSIG ==>
                                  Placed(x, records) || (x.covered == SOA && Filter(IsSoa(), all) != []))
  }

  /** What is written is a rearrangement of the zone exactly under this condition. */
  lemma {:induction false} WritesEveryRecordOnce(records: Zone, owners: Zone, ordered: bool)
    requires WellGrouped(records) && WellGrouped(owners) && multiset(records) == multiset(owners)
    ensures multiset(Output(records, owners, ordered)) == multiset(Flatten(records)) <==> Conserving(records, ordered)
  {
    if Conserving(records, ordered) {
      ConservingKeepsAll(records, owners, ordered);
    } else {
      OtherwiseSomeIsLost(records, owners, ordered);
    }
  }

  /** Each signature covers records that its owner has, as those do that are
      made for a zone loaded without any. */
  ghost predicate SignedHere(records: Zone) {
    forall x :: x in Flatten(records) && x.rtype == RRSIG ==>
                  exists r :: r in Flatten(records) && r.owner == x.owner && r.rtype == x.covered && r.rtype != RRSIG
  }

  /** Of such a zone everything is written, in either mode, exactly if it has
      no second SOA. */
  lemma {:induction false} OneSoaDecides(records: Zone, owners: Zone, ordered: bool)
    requires WellGrouped(records) && WellGrouped(owners) && multiset(records) == multiset(owners)
    requires SignedHere(records)
    ensures multiset(Output(records, owners, ordered)) == multiset(Flatten(records)) <==>
              |Filter(IsSoa(), Flatten(records))| <= 1
  {
    WritesEveryRecordOnce(records, owners, ordered);
    var all := Flatten(records);
    forall x | x in all && x.rtype == RRSIG
      ensures Placed(x, records) || (x.covered == SOA && Filter(IsSoa(), all) != [])
    {
      var r :| r in all && r.owner == x.owner && r.rtype == x.covered && r.rtype != RRSIG;
      if r.rtype == SOA {
        CountFilter(IsSoa(), r, all);
      } else {
        CoveredAt(r, records);
        var i :| 0 <= i < |records| && records[i].owner == r.owner && CoversOneOf(x, records[i].rrsets);
      }
    }
  }

  lemma {:induction false} CoveredAt(r: Rr, records: Zone)
    requires WellGrouped(records) && r in Flatten(records) && PlainType(r.rtype)
    ensures exists i :: && 0 <= i < |records| && records[i].owner == r.owner
                        && exists j :: 0 <= j < |records[i].rrsets| && records[i].rrsets[j].rtype == r.rtype
  {
    var o := records[0];
    if r in RrsOf(o.rrsets) {
      RrsMember(r, o.rrsets);
      assert Grouped(o);
    } else {
      CoveredAt(r, records[1..]);
      var i :| && 0 <= i < |records[1..]| && records[1..][i].owner == r.owner
               && exists j :: 0 <= j < |records[1..][i].rrsets| && records[1..][i].rrsets[j].rtype == r.rtype;
      var at := i + 1;
      assert records[at] == records[1..][i];
    }
  }

  /** A zone with a second SOA at another owner than the apex loses it in either mode. */
  lemma {:induction false} TwoSoas(apex: Name, below: Name, ordered: bool)
    requires apex < below
    ensures var zone := [OwnerRrs(apex, [Rrset(SOA, [Rr(apex, SOA, 0, 1)])]),
                         OwnerRrs(below, [Rrset(SOA, [Rr(below, SOA, 0, 2)])])];
            WellGrouped(zone) && SignedHere(zone) && multiset(Output(zone, zone, ordered)) != multiset(Flatten(zone))
  {
    var a, b := Rr(apex, SOA, 0, 1), Rr(below, SOA, 0, 2);
    var zone := [OwnerRrs(apex, [Rrset(SOA, [a])]), OwnerRrs(below, [Rrset(SOA, [b])])];
    OneRecord(a);
    OneRecord(b);
    assert zone[1..] == [zone[1]] && zone[1..][1..] == [];
    assert Flatten(zone[1..]) == [b] + [] == [b];
    assert Flatten(zone) == [a] + [b];
    assert [a, b][1..] == [b] && [b][1..] == [];
    assert Filter(IsSoa(), [b]) == [b];
    assert Filter(IsSoa(), [a, b]) == [a] + [b];
    OneSoaDecides(zone, zone, ordered);
  }

  lemma {:induction false} OneRecord(r: Rr)
    ensures RrsOf([Rrset(r.rtype, [r])]) == [r]
  {
    assert [Rrset(r.rtype, [r])][1..] == [];
  }

  lemma {:induction false} ConservingKeepsAll(records: Zone, owners: Zone, ordered: bool)
    requires WellGrouped(records) && WellGrouped(owners) && multiset(records) == multiset(owners)
    requires Conserving(records, ordered)
    ensures multiset(Output(records, owners, ordered)) == multiset(Flatten(records))
  {
    var all, out := Flatten(records), Output(records, owners, ordered);
    forall x ensures multiset(out)[x] == multiset(all)[x] {
      OneSoaIsKept(x, all);
      CountInOutput(x, records, owners, ordered);
      assert Count(x, out) == Count(x, all);
    }
  }

  lemma {:induction false} OtherwiseSomeIsLost(records: Zone, owners: Zone, ordered: bool)
    requires WellGrouped(records) && WellGrouped(owners) && multiset(records) == multiset(owners)
    requires !Conserving(records, ordered)
    ensures multiset(Output(records, owners, ordered)) != multiset(Flatten(records))
  {
    var all := Flatten(records);
    var x: Rr;
    if |Filter(IsSoa(), all)| > 1 {
      x := SecondSoaIsLost(all, records, ordered);
    } else {
      x :| x in all && x.rtype == RRSIG && !(Placed(x, records) || (x.covered == SOA && Filter(IsSoa(), all) != []));
    }
    CountInOutput(x, records, owners, ordered);
    assert Count(x, Output(records, owners, ordered)) != Count(x, all);
  }

  /** `x` is written as often as the zone has it. */
  ghost predicate Kept(x: Rr, records: Zone, ordered: bool) {
    var all := Flatten(records);
    var soas := Filter(IsSoa(), all);
    if x.rtype == SOA then Count(x, all) == (if soas != [] && soas[0] == x then 1 else 0)
    else x.rtype == RRSIG && ordered ==>
           x !in all || Placed(x, records) || (x.covered == SOA && soas != [])
  }

  lemma {:induction false} CountInOutput(x: Rr, records: Zone, owners: Zone, ordered: bool)
    requires WellGrouped(records) && WellGrouped(owners) && multiset(records) == multiset(owners)
    ensures Count(x, Output(records, owners, ordered)) == Count(x, Flatten(records)) <==> Kept(x, records, ordered)
  {
    var all := Flatten(records);
    var soas := Filter(IsSoa(), all);
    SameRecords(x, records, owners);
    CountInOwners(x, owners);
    SamePlaces(x, records, owners);
    CountFilter(IsNotSoa(), x, Flatten(owners));
    CountFilter(Covers(SOA), x, all);
    CountConcat(x, WriteSoa(all, ordered),
                if ordered then WriteOwners(owners) else Filter(IsNotSoa(), Flatten(owners)));
    if soas != [] {
      CountFilter(IsSoa(), soas[0], all);
      assert soas[0] in soas;
      CountConcat(x, [soas[0]], if ordered then Filter(Covers(SOA), all) else []);
    }
  }

  lemma {:induction false} SamePlaces(x: Rr, a: Zone, b: Zone)
    requires multiset(a) == multiset(b)
    ensures Placed(x, a) <==> Placed(x, b)
  {
    assert forall o :: o in a <==> o in multiset(a);
    assert forall o :: o in b <==> o in multiset(b);
    if Placed(x, a) {
      var i :| 0 <= i < |a| && a[i].owner == x.owner && CoversOneOf(x, a[i].rrsets);
      assert a[i] in b;
    }
    if Placed(x, b) {
      var i :| 0 <= i < |b| && b[i].owner == x.owner && CoversOneOf(x, b[i].rrsets);
      assert b[i] in a;
    }
  }

  lemma {:induction false} OneSoaIsKept(x: Rr, all: seq<Rr>)
    requires |Filter(IsSoa(), all)| <= 1
    ensures var soas := Filter(IsSoa(), all);
            x.rtype == SOA ==> Count(x, all) == if soas != [] && soas[0] == x then 1 else 0
  {
    CountFilter(IsSoa(), x, all);
    var soas := Filter(IsSoa(), all);
    assert soas == [] || soas == [soas[0]];
  }

  lemma {:induction false} SecondSoaIsLost(all: seq<Rr>, records: Zone, ordered: bool) returns (x: Rr)
    requires all == Flatten(records) && |Filter(IsSoa(), all)| > 1
    ensures !Kept(x, records, ordered)
  {
    var soas := Filter(IsSoa(), all);
    x := soas[1];
    CountFilter(IsSoa(), x, all);
    assert soas == [soas[0], soas[1]] + soas[2..];
    assert x in soas;
  }

  /** The zone's SOA comes first. */
  lemma {:induction false} SoaIsFirst(records: Zone, owners: Zone, ordered: bool)
    requires exists r :: r in Flatten(records) && r.rtype == SOA
    ensures Output(records, owners, ordered) != [] && Output(records, owners, ordered)[0].rtype == SOA
  {
    var all := Flatten(records);
    var r :| r in all && r.rtype == SOA;
    CountFilter(IsSoa(), r, all);
    var first := Filter(IsSoa(), all)[0];
    CountFilter(IsSoa(), first, all);
    assert first in Filter(IsSoa(), all);
  }

  /** Each RRset is followed directly by all signatures of its owner that cover it. */
  lemma {:induction false} SignaturesFollow(records: Zone, owners: Zone, o: OwnerRrs, s: Rrset)
    requires o in owners && s in o.rrsets && PlainType(s.rtype)
    ensures exists a, b :: Output(records, owners, true) == a + (s.rrs + Filter(Covers(s.rtype), RrsOf(o.rrsets))) + b
  {
    var head := WriteSoa(Flatten(records), true);
    var a, b := InOwners(owners, o, s);
    assert Output(records, owners, true) == (head + a) + WriteRrset(o, s) + b;
  }

  lemma {:induction false} InRrsets(o: OwnerRrs, rrsets: seq<Rrset>, s: Rrset) returns (a: seq<Rr>, b: seq<Rr>)
    requires s in rrsets && PlainType(s.rtype)
    ensures WriteRrsets(o, rrsets) == a + WriteRrset(o, s) + b
  {
    if s == rrsets[0] {
      a, b := [], WriteRrsets(o, rrsets[1..]);
    } else {
      a, b := InRrsets(o, rrsets[1..], s);
      a := (if PlainType(rrsets[0].rtype) then WriteRrset(o, rrsets[0]) else []) + a;
    }
  }

  lemma {:induction false} InOwners(owners: Zone, o: OwnerRrs, s: Rrset) returns (a: seq<Rr>, b: seq<Rr>)
    requires o in owners && s in o.rrsets && PlainType(s.rtype)
    ensures WriteOwners(owners) == a + WriteRrset(o, s) + b
  {
    if o == owners[0] {
      a, b := InRrsets(o, o.rrsets, s);
      b := b + WriteOwners(owners[1..]);
    } else {
      a, b := InOwners(owners[1..], o, s);
      a := WriteRrsets(owners[0], owners[0].rrsets) + a;
    }
  }

  // ----- In which order records are written -----

  /** `at` says where each element of `t` stands in `s`: in order, exactly where `keep` holds. */
  ghost predicate PicksInOrder(keep: Rr -> bool, s: seq<Rr>, t: seq<Rr>, at: seq<nat>) {
    && |at| == |t|
    && (forall i :: 0 <= i < |at| ==> at[i] < |s| && t[i] == s[at[i]])
    && (forall i, j :: 0 <= i < j < |at| ==> at[i] < at[j])
    && (forall p :: 0 <= p < |s| ==> (p in at <==> keep(s[p])))
  }

  /** A filtered list is in the order of the list. */
  lemma {:induction false} FilterInOrder(keep: Rr -> bool, s: seq<Rr>) returns (at: seq<nat>)
    ensures PicksInOrder(keep, s, Filter(keep, s), at)
  {
    if s == [] {
      at := [];
    } else {
      var later := FilterInOrder(keep, s[1..]);
      var moved := seq(|later|, i requires 0 <= i < |later| => later[i] + 1);
      at := if keep(s[0]) then [0] + moved else moved;
      Shifted(keep, s, later, moved);
    }
  }

  lemma {:induction false} Shifted(keep: Rr -> bool, s: seq<Rr>, later: seq<nat>, moved: seq<nat>)
    requires s != [] && PicksInOrder(keep, s[1..], Filter(keep, s[1..]), later)
    requires |moved| == |later| && forall i :: 0 <= i < |later| ==> moved[i] == later[i] + 1
    ensures PicksInOrder(keep, s, Filter(keep, s), if keep(s[0]) then [0] + moved else moved)
  {
    var picked := Filter(keep, s[1..]);
    MovedPicks(keep, s, picked, later, moved);
    if keep(s[0]) {
      PutFirst(keep, s, moved, picked);
    } else {
      LeaveFirst(keep, s, moved, picked);
    }
  }

  /** The positions behind the first element. */
  ghost predicate PicksBehind(keep: Rr -> bool, s: seq<Rr>, t: seq<Rr>, at: seq<nat>) {
    && |at| == |t|
    && (forall i :: 0 <= i < |at| ==> 0 < at[i] < |s| && t[i] == s[at[i]])
    && (forall i, j :: 0 <= i < j < |at| ==> at[i] < at[j])
    && (forall p :: 0 < p < |s| ==> (p in at <==> keep(s[p])))
  }

  lemma {:induction false} MovedPicks(keep: Rr -> bool, s: seq<Rr>, picked: seq<Rr>, later: seq<nat>, moved: seq<nat>)
    requires s != [] && PicksInOrder(keep, s[1..], picked, later)
    requires |moved| == |later| && forall i :: 0 <= i < |later| ==> moved[i] == later[i] + 1
    ensures PicksBehind(keep, s, picked, moved)
  {
    forall i | 0 <= i < |moved| ensures 0 < moved[i] < |s| && picked[i] == s[moved[i]] {
      assert s[1..][later[i]] == s[moved[i]];
    }
    forall p | 0 < p < |s| ensures p in moved <==> keep(s[p]) {
      ShiftedMember(later, moved, p);
      assert s[p] == s[1..][p - 1];
    }
  }

  lemma {:induction false} LeaveFirst(keep: Rr -> bool, s: seq<Rr>, moved: seq<nat>, picked: seq<Rr>)
    requires s != [] && !keep(s[0]) && PicksBehind(keep, s, picked, moved)
    ensures PicksInOrder(keep, s, picked, moved)
  {
  }

  lemma {:induction false} ShiftedMember(later: seq<nat>, moved: seq<nat>, p: nat)
    requires p > 0 && |moved| == |later| && forall i :: 0 <= i < |later| ==> moved[i] == later[i] + 1
    ensures p in moved <==> p - 1 in later
  {
    if p - 1 in later {
      var i :| 0 <= i < |later| && later[i] == p - 1;
      assert moved[i] == p;
    }
  }

  lemma {:induction false} PutFirst(keep: Rr -> bool, s: seq<Rr>, moved: seq<nat>, picked: seq<Rr>)
    requires s != [] && keep(s[0]) && PicksBehind(keep, s, picked, moved)
    ensures PicksInOrder(keep, s, [s[0]] + picked, [0] + moved)
  {
    var at, t := [0] + moved, [s[0]] + picked;
    forall i | 0 <= i < |at| ensures at[i] < |s| && t[i] == s[at[i]] {
      assert i > 0 ==> at[i] == moved[i - 1] && t[i] == picked[i - 1];
    }
    forall i, j | 0 <= i < j < |at| ensures at[i] < at[j] {
      assert at[j] == moved[j - 1] && (i > 0 ==> at[i] == moved[i - 1]);
    }
    forall p | 0 <= p < |s| ensures p in at <==> keep(s[p]) {
      InPrepended(moved, p);
    }
  }

  lemma InPrepended(moved: seq<nat>, p: nat)
    ensures p in [0] + moved <==> p == 0 || p in moved
  {
  }

  /** The record belongs to the `k`th RRset of the `i`th owner: it is of its
      type or, where signatures follow, covers it. */
  predicate At(r: Rr, owners: Zone, ordered: bool, i: nat, k: nat) {
    && i < |owners| && k < |owners[i].rrsets|
    && r.owner == owners[i].owner
    && var t := owners[i].rrsets[k].rtype;
    (if ordered then (if r.rtype == RRSIG then r.covered == t else r.rtype == t) else r.rtype == t)
  }

  /** `a` belongs to an earlier owner than `b`, or to the same one and no later RRset. */
  ghost predicate NotAfter(a: Rr, b: Rr, owners: Zone, ordered: bool) {
    exists i: nat, k: nat, j: nat, l: nat ::
      At(a, owners, ordered, i, k) && At(b, owners, ordered, j, l) && (i < j || (i == j && k <= l))
  }

  ghost predicate InOwnerOrder(s: seq<Rr>, owners: Zone, ordered: bool) {
    forall p, q :: 0 <= p < q < |s| ==> NotAfter(s[p], s[q], owners, ordered)
  }

  ghost predicate AllPlaced(s: seq<Rr>, owners: Zone, ordered: bool) {
    forall r :: r in s ==> exists i: nat, k: nat :: At(r, owners, ordered, i, k)
  }

  /** Lists of one owner and of the later owners, put one behind the other. */
  lemma {:induction false} OwnerFirst(a: seq<Rr>, b: seq<Rr>, owners: Zone, ordered: bool)
    requires owners != []
    requires InOwnerOrder(a, [owners[0]], ordered) && AllPlaced(a, [owners[0]], ordered)
    requires InOwnerOrder(b, owners[1..], ordered) && AllPlaced(b, owners[1..], ordered)
    ensures InOwnerOrder(a + b, owners, ordered) && AllPlaced(a + b, owners, ordered)
  {
    var s := a + b;
    forall r | r in s ensures exists i: nat, k: nat :: At(r, owners, ordered, i, k) {
      if r in a {
        InFirst(r, owners, ordered);
      } else {
        InLater(r, owners, ordered);
      }
    }
    forall p, q | 0 <= p < q < |s| ensures NotAfter(s[p], s[q], owners, ordered) {
      if q < |a| {
        assert NotAfter(a[p], a[q], [owners[0]], ordered);
        var i: nat, k: nat, j: nat, l: nat :|
          && At(a[p], [owners[0]], ordered, i, k) && At(a[q], [owners[0]], ordered, j, l)
          && (i < j || (i == j && k <= l));
        assert At(s[p], owners, ordered, 0, k) && At(s[q], owners, ordered, 0, l);
      } else if p >= |a| {
        var p', q' := p - |a|, q - |a|;
        assert NotAfter(b[p'], b[q'], owners[1..], ordered);
        var i: nat, k: nat, j: nat, l: nat :|
          && At(b[p'], owners[1..], ordered, i, k) && At(b[q'], owners[1..], ordered, j, l)
          && (i < j || (i == j && k <= l));
        assert At(s[p], owners, ordered, i + 1, k) && At(s[q], owners, ordered, j + 1, l);
      } else {
        assert s[p] in a && s[q] in b;
        var i: nat, k: nat :| At(s[p], [owners[0]], ordered, i, k);
        var j: nat, l: nat :| At(s[q], owners[1..], ordered, j, l);
        assert At(s[p], owners, ordered, 0, k) && At(s[q], owners, ordered, j + 1, l);
      }
    }
  }

  lemma {:induction false} InFirst(r: Rr, owners: Zone, ordered: bool)
    requires owners != [] && exists i: nat, k: nat :: At(r, [owners[0]], ordered, i, k)
    ensures exists i: nat, k: nat :: At(r, owners, ordered, i, k)
  {
    var i: nat, k: nat :| At(r, [owners[0]], ordered, i, k);
    assert At(r, owners, ordered, 0, k);
  }

  lemma {:induction false} InLater(r: Rr, owners: Zone, ordered: bool)
    requires owners != [] && exists i: nat, k: nat :: At(r, owners[1..], ordered, i, k)
    ensures exists i: nat, k: nat :: At(r, owners, ordered, i, k)
  {
    var i: nat, k: nat :| At(r, owners[1..], ordered, i, k);
    assert At(r, owners, ordered, i + 1, k);
  }

  /** The records from the `n`th RRset of an owner on stand in the order of its RRsets. */
  ghost predicate FromRrset(s: seq<Rr>, o: OwnerRrs, n: nat, ordered: bool) {
    && InOwnerOrder(s, [o], ordered)
    && forall r :: r in s ==> exists k: nat :: n <= k && At(r, [o], ordered, 0, k)
  }

  lemma {:induction false} RrsetFirst(a: seq<Rr>, b: seq<Rr>, o: OwnerRrs, n: nat, ordered: bool)
    requires n < |o.rrsets| && (forall r :: r in a ==> At(r, [o], ordered, 0, n)) && FromRrset(b, o, n + 1, ordered)
    ensures FromRrset(a + b, o, n, ordered)
  {
    var s := a + b;
    forall r | r in s ensures exists k: nat :: n <= k && At(r, [o], ordered, 0, k) {
      if r in b {
        var k: nat :| n + 1 <= k && At(r, [o], ordered, 0, k);
      }
    }
    forall p, q | 0 <= p < q < |s| ensures NotAfter(s[p], s[q], [o], ordered) {
      if q < |a| {
        assert s[p] in a && s[q] in a;
      } else if p >= |a| {
        assert NotAfter(b[p - |a|], b[q - |a|], [o], ordered);
      } else {
        assert s[p] in a && s[q] in b;
        var l: nat :| n + 1 <= l && At(s[q], [o], ordered, 0, l);
        assert At(s[p], [o], ordered, 0, n);
      }
    }
  }

  /** One owner, where signatures follow. */
  lemma {:induction false} RrsetsInOrder(o: OwnerRrs, n: nat)
    requires Grouped(o) && n <= |o.rrsets|
    ensures FromRrset(WriteRrsets(o, o.rrsets[n..]), o, n, true)
    decreases |o.rrsets| - n
  {
    if n < |o.rrsets| {
      var s := o.rrsets[n];
      assert o.rrsets[n..][0] == s && o.rrsets[n..][1..] == o.rrsets[n + 1..];
      RrsetsInOrder(o, n + 1);
      var block := if PlainType(s.rtype) then WriteRrset(o, s) else [];
      forall r | r in block ensures At(r, [o], true, 0, n) {
        BlockMember(o, s, r);
      }
      RrsetFirst(block, WriteRrsets(o, o.rrsets[n + 1..]), o, n, true);
    }
  }

  lemma {:induction false} BlockMember(o: OwnerRrs, s: Rrset, r: Rr)
    requires Grouped(o) && s in o.rrsets && PlainType(s.rtype) && r in WriteRrset(o, s)
    ensures r.owner == o.owner && if r.rtype == RRSIG then r.covered == s.rtype else r.rtype == s.rtype
  {
    if r !in s.rrs {
      FilterMember(Covers(s.rtype), RrsOf(o.rrsets), r);
      RrsMember(r, o.rrsets);
    }
  }

  lemma {:induction false} FilterMember(keep: Rr -> bool, s: seq<Rr>, r: Rr)
    requires r in Filter(keep, s)
    ensures r in s && keep(r)
  {
    if r !in Filter(keep, s[1..]) {
      assert r == s[0];
    } else {
      FilterMember(keep, s[1..], r);
    }
  }

  /** One owner as it stands in the zone. */
  lemma {:induction false} RrsInOrder(o: OwnerRrs, n: nat)
    requires Grouped(o) && n <= |o.rrsets|
    ensures FromRrset(RrsOf(o.rrsets[n..]), o, n, false)
    decreases |o.rrsets| - n
  {
    if n < |o.rrsets| {
      assert o.rrsets[n..][0] == o.rrsets[n] && o.rrsets[n..][1..] == o.rrsets[n + 1..];
      RrsInOrder(o, n + 1);
      RrsetFirst(o.rrsets[n].rrs, RrsOf(o.rrsets[n + 1..]), o, n, false);
    }
  }

  lemma {:induction false} WholeOwner(s: seq<Rr>, o: OwnerRrs, ordered: bool)
    requires FromRrset(s, o, 0, ordered)
    ensures InOwnerOrder(s, [o], ordered) && AllPlaced(s, [o], ordered)
  {
    forall r | r in s ensures exists i: nat, k: nat :: At(r, [o], ordered, i, k) {
      var k: nat :| 0 <= k && At(r, [o], ordered, 0, k);
    }
  }

  lemma {:induction false} OwnersInOrder(owners: Zone)
    requires WellGrouped(owners)
    ensures InOwnerOrder(WriteOwners(owners), owners, true) && AllPlaced(WriteOwners(owners), owners, true)
  {
    if owners != [] {
      var o := owners[0];
      assert Grouped(o) && o.rrsets[0..] == o.rrsets;
      OwnersInOrder(owners[1..]);
      RrsetsInOrder(o, 0);
      WholeOwner(WriteRrsets(o, o.rrsets), o, true);
      OwnerFirst(WriteRrsets(o, o.rrsets), WriteOwners(owners[1..]), owners, true);
    }
  }

  /** The zone as a list is in the order of its owners and their RRsets. */
  lemma {:induction false} FlattenInOrder(owners: Zone)
    requires WellGrouped(owners)
    ensures InOwnerOrder(Flatten(owners), owners, false) && AllPlaced(Flatten(owners), owners, false)
  {
    if owners != [] {
      var o := owners[0];
      assert Grouped(o) && o.rrsets[0..] == o.rrsets;
      FlattenInOrder(owners[1..]);
      RrsInOrder(o, 0);
      WholeOwner(RrsOf(o.rrsets), o, false);
      OwnerFirst(RrsOf(o.rrsets), Flatten(owners[1..]), owners, false);
    }
  }

  /** What is written behind the SOA. */
  function Tail(records: Zone, owners: Zone, ordered: bool): seq<Rr> {
    Output(records, owners, ordered)[|WriteSoa(Flatten(records), ordered)|..]
  }

  /** Behind the SOA, records stand in the order of the owners and of the
      RRsets of each owner, in both modes; without -R they are the records of
      the zone, but for SOA records, in their order. */
  lemma {:induction false} OutputInOrder(records: Zone, owners: Zone, ordered: bool)
    requires WellGrouped(owners)
    ensures InOwnerOrder(Tail(records, owners, ordered), owners, ordered)
    ensures AllPlaced(Tail(records, owners, ordered), owners, ordered)
    ensures !ordered ==> exists at :: PicksInOrder(IsNotSoa(), Flatten(owners), Tail(records, owners, ordered), at)
  {
    if ordered {
      assert Tail(records, owners, ordered) == WriteOwners(owners);
      OwnersInOrder(owners);
    } else {
      var all := Flatten(owners);
      var tail := Filter(IsNotSoa(), all);
      assert Tail(records, owners, ordered) == tail;
      FlattenInOrder(owners);
      var at := FilterInOrder(IsNotSoa(), all);
      forall p, q | 0 <= p < q < |tail| ensures NotAfter(tail[p], tail[q], owners, false) {
        assert NotAfter(all[at[p]], all[at[q]], owners, false);
      }
      forall r | r in tail ensures exists i: nat, k: nat :: At(r, owners, false, i, k) {
        FilterMember(IsNotSoa(), all, r);
      }
    }
  }

  /** The first record is the first SOA record of the zone, and under -R all
      signatures over SOA records follow, in their order. */
  lemma {:induction false} HeadIsSoa(records: Zone, ordered: bool) returns (first: nat, at: seq<nat>)
    requires exists r :: r in Flatten(records) && r.rtype == SOA
    ensures var all, head := Flatten(records), WriteSoa(Flatten(records), ordered);
            && first < |all| && all[first].rtype == SOA && (forall p :: 0 <= p < first ==> all[p].rtype != SOA)
            && head != [] && head[0] == all[first]
            && (if ordered then PicksInOrder(Covers(SOA), all, head[1..], at) else |head| == 1)
  {
    var all := Flatten(records);
    var soas := FilterInOrder(IsSoa(), all);
    var r :| r in all && r.rtype == SOA;
    var p :| 0 <= p < |all| && all[p] == r;
    assert p in soas;
    first := soas[0];
    assert forall i :: 0 <= i < |soas| ==> first <= soas[i];
    forall q | 0 <= q < first ensures all[q].rtype != SOA {
      assert q !in soas;
    }
    at := FilterInOrder(Covers(SOA), all);
  }

  /** With owners sorted by unhashed name, the records of a hashed owner stand
      behind those of the owner it is the hash of, and nothing in between. */
  lemma {:induction false} HashedRecordsFollow(records: Zone, owners: Zone, ordered: bool, names: seq<Name>,
                                               hashes: Nsec3Map.HashMap, hash: Nsec3Map.Hasher, h: Name,
                                               p: nat, q: nat)
    requires WellGrouped(owners)
    requires |names| == |owners| && forall i :: 0 <= i < |names| ==> names[i] == owners[i].owner
    requires OwnerOrder.KeyedByHash(hashes, hash) && OwnerOrder.SortedOwners(hashes, names)
    requires h in hashes && hashes[h].name !in hashes && h in names && hashes[h].name in names
    requires p < |Tail(records, owners, ordered)| && q < |Tail(records, owners, ordered)|
    requires Tail(records, owners, ordered)[p].owner == hashes[h].name && Tail(records, owners, ordered)[q].owner == h
    ensures p < q
    ensures forall m :: p <= m <= q ==> Tail(records, owners, ordered)[m].owner in {h, hashes[h].name}
  {
    OutputInOrder(records, owners, ordered);
    OwnerOrder.HashFollowsName(hashes, hash, names, h);
    var i :| 0 <= i < |names| - 1 && names[i] == hashes[h].name && names[i + 1] == h;
    NothingInBetween(Tail(records, owners, ordered), owners, ordered, p, q, i);
  }

  /** The records of two owners one behind the other. */
  lemma {:induction false} NothingInBetween(tail: seq<Rr>, owners: Zone, ordered: bool, p: nat, q: nat, i: nat)
    requires WellGrouped(owners) && InOwnerOrder(tail, owners, ordered) && AllPlaced(tail, owners, ordered)
    requires i + 1 < |owners| && p < |tail| && q < |tail|
    requires tail[p].owner == owners[i].owner && tail[q].owner == owners[i + 1].owner
    ensures p < q
    ensures forall m :: p <= m <= q ==> tail[m].owner in {owners[i].owner, owners[i + 1].owner}
  {
    OwnersBetween(tail, owners, ordered, q, p, i + 1, i);
    assert owners[i].owner != owners[i + 1].owner;
    forall m | p < m < q ensures tail[m].owner in {owners[i].owner, owners[i + 1].owner} {
      OneBetween(tail, owners, ordered, p, m, q, i);
    }
  }

  lemma {:induction false} OneBetween(tail: seq<Rr>, owners: Zone, ordered: bool, p: nat, m: nat, q: nat, i: nat)
    requires WellGrouped(owners) && InOwnerOrder(tail, owners, ordered) && AllPlaced(tail, owners, ordered)
    requires i + 1 < |owners| && p < m < q < |tail|
    requires tail[p].owner == owners[i].owner && tail[q].owner == owners[i + 1].owner
    ensures tail[m].owner == owners[i].owner || tail[m].owner == owners[i + 1].owner
  {
    var j := OwnerAt(tail, owners, ordered, m);
    OwnersBetween(tail, owners, ordered, p, m, i, j);
    OwnersBetween(tail, owners, ordered, m, q, j, i + 1);
  }

  lemma {:induction false} OwnerAt(tail: seq<Rr>, owners: Zone, ordered: bool, m: nat) returns (j: nat)
    requires m < |tail| && AllPlaced(tail, owners, ordered)
    ensures j < |owners| && tail[m].owner == owners[j].owner
  {
    assert tail[m] in tail;
    var i: nat, k: nat :| At(tail[m], owners, ordered, i, k);
    j := i;
  }

  /** A record further on belongs to no earlier owner. */
  lemma {:induction false} OwnersBetween(tail: seq<Rr>, owners: Zone, ordered: bool, p: nat, q: nat, i: nat, j: nat)
    requires WellGrouped(owners) && InOwnerOrder(tail, owners, ordered) && p < |tail| && q < |tail|
    requires i < |owners| && tail[p].owner == owners[i].owner
    requires j < |owners| && tail[q].owner == owners[j].owner
    ensures p < q ==> i <= j
  {
    if p < q {
      assert NotAfter(tail[p], tail[q], owners, ordered);
      var i': nat, k: nat, j': nat, l: nat :|
        At(tail[p], owners, ordered, i', k) && At(tail[q], owners, ordered, j', l) && (i' < j' || (i' == j' && k <= l));
      assert i' == i && j' == j;
    }
  }
}
