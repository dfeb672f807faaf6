/** Zone digests (RFC 8976): a placeholder record goes in before the zone is
    signed and the digests come in afterwards, over records already final. */
module ZoneDigest {
  import opened Wrappers
  import opened Names
  import opened Serials

  const SIMPLE: nat := 1
  const SHA384: nat := 1
  const SHA512: nat := 2

  type Octets = seq<Octet>

  datatype RData =
    | Soa(serial: Serial, rest: nat)
    | Zonemd(zoneSerial: Serial, scheme: nat, algorithm: nat, digest: Octets)
    | Rrsig(covered: RrType, signature: nat)
    | Other(rtype: nat, content: nat)

  /** The types a signature covers. */
  datatype RrType = ZonemdType | OtherType(code: nat)

  datatype Record = Record(owner: Name, ttl: nat, data: RData)

  /** A requested pair of scheme and hash algorithm. */
  datatype Request = Request(scheme: nat, algorithm: nat)

  predicate Supported(q: Request) {
    q.scheme == SIMPLE && (q.algorithm == SHA384 || q.algorithm == SHA512)
  }

  /** `compose` is the canonical form of a record and `hash` the hash function
      of an algorithm; `before` is the order in which records are kept. */
  datatype Canon = Canon(
    compose: Record -> Octets,
    hash: (nat, Octets) -> Octets,
    before: (Record, Record) -> bool
  )

  // ----- Record lists -----

  function Filter(keep: Record -> bool, s: seq<Record>): seq<Record> {
    if s == [] then []
    else
      var front := Filter(keep, s[..|s| - 1]);
      if keep(s[|s| - 1]) then front + [s[|s| - 1]] else front
  }

  lemma {:induction false} FilterConcat(keep: Record -> bool, a: seq<Record>, b: seq<Record>)
    ensures Filter(keep, a + b) == Filter(keep, a) + Filter(keep, b)
  {
    if b == [] {
      assert a + b == a;
    } else {
      FilterConcat(keep, a, b[..|b| - 1]);
      assert (a + b)[..|a + b| - 1] == a + b[..|b| - 1];
    }
  }

  lemma {:induction false} FilterMembers(keep: Record -> bool, s: seq<Record>, r: Record)
    ensures r in Filter(keep, s) <==> r in s && keep(r)
  {
    if s != [] {
      FilterMembers(keep, s[..|s| - 1], r);
    }
  }

  /** Replacing a stretch of records by others changes a filtered list only there. */
  lemma {:induction false} FilterSplice(keep: Record -> bool, a: seq<Record>, mid: seq<Record>, b: seq<Record>)
    ensures Filter(keep, a + mid + b) == Filter(keep, a) + Filter(keep, mid) + Filter(keep, b)
  {
    FilterConcat(keep, a + mid, b);
    FilterConcat(keep, a, mid);
  }

  lemma SplitAt(s: seq<Record>, i: nat)
    requires i < |s|
    ensures s == s[..i] + [s[i]] + s[i + 1..]
  {
  }

  /** `t` is `s` with `r` put in somewhere. */
  ghost predicate Inserted(s: seq<Record>, r: Record, t: seq<Record>) {
    exists i :: 0 <= i <= |s| && t == s[..i] + [r] + s[i..]
  }

  lemma {:induction false} FilterInserted(keep: Record -> bool, s: seq<Record>, r: Record, t: seq<Record>)
    requires Inserted(s, r, t)
    ensures if keep(r) then Inserted(Filter(keep, s), r, Filter(keep, t)) else Filter(keep, t) == Filter(keep, s)
  {
    var i :| 0 <= i <= |s| && t == s[..i] + [r] + s[i..];
    var p, q := s[..i], s[i..];
    assert s == p + q;
    FilterConcat(keep, p, q);
    FilterSplice(keep, p, [r], q);
    FilterSingle(keep, r);
    if keep(r) {
      InsertedBetween(Filter(keep, p), r, Filter(keep, q));
    } else {
      NothingBetween(Filter(keep, p), Filter(keep, q));
    }
  }

  lemma {:induction false} FilterSingle(keep: Record -> bool, r: Record)
    ensures Filter(keep, [r]) == if keep(r) then [r] else []
  {
    assert [r][..0] == [];
  }

  lemma {:induction false} InsertedBetween(a: seq<Record>, r: Record, b: seq<Record>)
    ensures Inserted(a + b, r, a + [r] + b)
  {
    assert (a + b)[..|a|] == a && (a + b)[|a|..] == b;
  }

  lemma {:induction false} NothingBetween(a: seq<Record>, b: seq<Record>)
    ensures a + [] + b == a + b
  {
    assert a + [] == a;
  }

  lemma InsertedIntoEmpty(r: Record, t: seq<Record>)
    requires Inserted([], r, t)
    ensures t == [r]
  {
  }

  predicate IsApexZonemd(apex: Name, r: Record) {
    r.owner == apex && r.data.Zonemd?
  }

  predicate IsApexZonemdSignature(apex: Name, r: Record) {
    r.owner == apex && r.data.Rrsig? && r.data.covered == ZonemdType
  }

  /** The records that go into a digest (section 3.3.1.1 of RFC 8976). */
  predicate Included(apex: Name, r: Record) {
    EndsWith(r.owner, apex) && !IsApexZonemd(apex, r) && !IsApexZonemdSignature(apex, r)
  }

  // The conditions records are picked by.

  function Digested(apex: Name): Record -> bool {
    r => Included(apex, r)
  }

  function ApexDigests(apex: Name): Record -> bool {
    r => IsApexZonemd(apex, r)
  }

  function OtherThanDigests(apex: Name): Record -> bool {
    r => !IsApexZonemd(apex, r)
  }

  function ApexSoas(apex: Name): Record -> bool {
    (r: Record) => r.owner == apex && r.data.Soa?
  }

  function Compose(canon: Canon, s: seq<Record>): Octets {
    if s == [] then [] else Compose(canon, s[..|s| - 1]) + canon.compose(s[|s| - 1])
  }

  function DigestOf(canon: Canon, apex: Name, algorithm: nat, records: seq<Record>): Octets {
    canon.hash(algorithm, Compose(canon, Filter(Digested(apex), records)))
  }

  function ApexZonemds(apex: Name, records: seq<Record>): seq<Record> {
    Filter(ApexDigests(apex), records)
  }

  function Soas(apex: Name, records: seq<Record>): seq<Record> {
    Filter(ApexSoas(apex), records)
  }

  // ----- What publishing has to achieve -----

  /** A verifier recomputes the digest over the published records and compares
      the serial with that of the zone (section 4 of RFC 8976). */
  ghost predicate Verifies(canon: Canon, apex: Name, records: seq<Record>, z: Record) {
    && z.data.Zonemd? && z.data.scheme == SIMPLE
    && z.data.digest == DigestOf(canon, apex, z.data.algorithm, records)
    && (forall s :: s in Soas(apex, records) ==> s.data.Soa? && s.data.serial == z.data.zoneSerial)
  }

  function RequestsOf(zonemds: seq<Record>): multiset<Request>
    requires forall z :: z in zonemds ==> z.data.Zonemd?
  {
    if zonemds == [] then multiset{}
    else
      var z := zonemds[|zonemds| - 1];
      RequestsOf(zonemds[..|zonemds| - 1]) + multiset{Request(z.data.scheme, z.data.algorithm)}
  }

  lemma {:induction false} ApexZonemdsAreZonemds(apex: Name, records: seq<Record>)
    ensures forall z :: z in ApexZonemds(apex, records) ==> z.data.Zonemd? && z in records && z.owner == apex
  {
    forall z | z in ApexZonemds(apex, records) ensures z.data.Zonemd? && z in records && z.owner == apex {
      FilterMembers(ApexDigests(apex), records, z);
    }
  }

  /** One verifying record at the apex for each request, and no other. */
  ghost predicate Published(canon: Canon, apex: Name, requests: set<Request>, records: seq<Record>) {
    ApexZonemdsAreZonemds(apex, records);
    && RequestsOf(ApexZonemds(apex, records)) == multiset(requests)
    && forall z :: z in ApexZonemds(apex, records) ==> Verifies(canon, apex, records, z)
  }

  /** Signing adds no digest record, removes none and keeps the SOA. */
  ghost predicate SigningKeeps(sign: seq<Record> -> Option<seq<Record>>, apex: Name) {
    forall records :: sign(records).Some? ==>
                        && ApexZonemds(apex, sign(records).value) == ApexZonemds(apex, records)
                        && Soas(apex, sign(records).value) == Soas(apex, records)
  }

  /** Records are kept in order and without duplicates. */
  ghost predicate InOrder(canon: Canon, s: seq<Record>) {
    forall i, j :: 0 <= i < j < |s| ==> canon.before(s[i], s[j])
  }

  lemma {:induction false} InsertKeepsOrder(canon: Canon, s: seq<Record>, r: Record, i: nat)
    requires StrictTotalOrder(canon.before) && InOrder(canon, s) && r !in s && i <= |s|
    requires forall j :: 0 <= j < i ==> canon.before(s[j], r)
    requires i < |s| ==> !canon.before(s[i], r)
    ensures InOrder(canon, s[..i] + [r] + s[i..])
  {
    forall j | i <= j < |s| ensures canon.before(r, s[j]) {
      assert canon.before(r, s[i]);
    }
  }

  // ----- The zone -----

  class Zone {
    var records: seq<Record>

    constructor (records: seq<Record>)
      ensures this.records == records
    {
      this.records := records;
    }

    /** Insert a record at its place unless it is there already. */
    method Insert(r: Record, canon: Canon)
      modifies this
      ensures r in old(records) ==> records == old(records)
      ensures r !in old(records) ==> Inserted(old(records), r, records)
      ensures StrictTotalOrder(canon.before) && InOrder(canon, old(records)) ==> InOrder(canon, records)
    {
      if r in records {
        return;
      }
      var i := 0;
      while i < |records| && canon.before(records[i], r)
        invariant 0 <= i <= |records| && records == old(records)
        invariant forall j :: 0 <= j < i ==> canon.before(records[j], r)
      {
        i := i + 1;
      }
      if StrictTotalOrder(canon.before) && InOrder(canon, records) {
        InsertKeepsOrder(canon, records, r, i);
      }
      records := records[..i] + [r] + records[i..];
    }

    /** Remove the first apex ZONEMD record. */
    method RemoveFirstZonemd(apex: Name) returns (removed: bool)
      modifies this
      ensures removed <==> ApexZonemds(apex, old(records)) != []
      ensures !removed ==> records == old(records)
      ensures removed ==>
                exists i :: && 0 <= i < |old(records)| && IsApexZonemd(apex, old(records)[i])
                            && records == old(records)[..i] + old(records)[i + 1..]
                            && ApexZonemds(apex, old(records)[..i]) == []
    {
      ghost var keep := ApexDigests(apex);
      for i := 0 to |records|
        invariant records == old(records) && Filter(keep, records[..i]) == []
      {
        assert records[..i + 1][..i] == records[..i];
        if IsApexZonemd(apex, records[i]) {
          assert records == records[..i] + [records[i]] + records[i + 1..];
          FilterSplice(keep, records[..i], [records[i]], records[i + 1..]);
          records := records[..i] + records[i + 1..];
          return true;
        }
      }
      assert records[..|records|] == records;
      removed := false;
    }

    /** Replace all digest records at the apex by one placeholder, so that the
        type appears in the denial records. */
    method ReplaceApexZonemdWithPlaceholder(apex: Name, serial: Serial, ttl: nat, canon: Canon)
      modifies this
      ensures ApexZonemds(apex, records) == [Record(apex, ttl, Zonemd(serial, 0, 0, []))]
      ensures Filter(OtherThanDigests(apex), records) == Filter(OtherThanDigests(apex), old(records))
    {
      var placeholder := Record(apex, ttl, Zonemd(serial, 0, 0, []));
      records := Filter(OtherThanDigests(apex), records);
      FilterMembers(OtherThanDigests(apex), old(records), placeholder);
      Insert(placeholder, canon);
      PlaceholderPut(apex, old(records), placeholder, records);
    }

    /** The digest over the records at or below the apex, without the apex
        digest records and their signatures. */
    method CreateDigestSimple(apex: Name, algorithm: nat, canon: Canon) returns (digest: Option<Octets>)
      ensures digest.Some? <==> algorithm == SHA384 || algorithm == SHA512
      ensures digest.Some? ==> digest.value == DigestOf(canon, apex, algorithm, records)
    {
      if algorithm != SHA384 && algorithm != SHA512 {
        return None;
      }
      var input: Octets := [];
      for i := 0 to |records|
        invariant input == Compose(canon, Filter(Digested(apex), records[..i]))
      {
        assert records[..i + 1][..i] == records[..i];
        var r := records[i];
        ghost var front := Filter(Digested(apex), records[..i]);
        assert (front + [r])[..|front|] == front;
        if !EndsWith(r.owner, apex) {
          continue;
        }
        if r.data.Zonemd? && r.owner == apex {
          continue;
        } else if r.data.Rrsig? && r.owner == apex {
          if r.data.covered == ZonemdType {
            continue;
          }
        }
        input := input + canon.compose(r);
      }
      assert records[..|records|] == records;
      digest := Some(canon.hash(algorithm, input));
    }

    /** One digest record for each request, or nothing if one is not supported. */
    method CreateDigestRecords(apex: Name, requests: set<Request>, serial: Serial, ttl: nat, canon: Canon)
      returns (r: Option<seq<Record>>)
      ensures r.Some? <==> forall q :: q in requests ==> Supported(q)
      ensures r.Some? ==> DigestRecords(canon, apex, requests, serial, ttl, records, r.value)
    {
      var zonemds: seq<Record> := [];
      var todo := requests;
      while todo != {}
        invariant todo <= requests && forall q :: q in requests - todo ==> Supported(q)
        invariant DigestRecords(canon, apex, requests - todo, serial, ttl, records, zonemds)
        decreases |todo|
      {
        var q :| q in todo;
        if q.scheme != SIMPLE {
          return None;
        }
        var digest := CreateDigestSimple(apex, q.algorithm, canon);
        if digest.None? {
          return None;
        }
        var z := Record(apex, ttl, Zonemd(serial, q.scheme, q.algorithm, digest.value));
        AddDigestRecord(canon, apex, requests - todo, serial, ttl, records, zonemds, q);
        assert requests - (todo - {q}) == (requests - todo) + {q};
        todo := todo - {q};
        zonemds := zonemds + [z];
      }
      assert requests - {} == requests;
      r := Some(zonemds);
    }

    /** Insert the digest records into a zone that has none. */
    method InsertDigestRecords(apex: Name, zonemds: seq<Record>, canon: Canon)
      requires ApexZonemds(apex, records) == []
      requires forall z :: z in zonemds ==> IsApexZonemd(apex, z)
      requires forall i, j :: 0 <= i < j < |zonemds| ==> zonemds[i] != zonemds[j]
      modifies this
      ensures SameButDigests(apex, old(records), records)
      ensures Filter(OtherThanDigests(apex), records) == Filter(OtherThanDigests(apex), old(records))
      ensures HoldsDigests(apex, zonemds, records)
    {
      for i := 0 to |zonemds|
        invariant SameButDigests(apex, old(records), records)
        invariant Filter(OtherThanDigests(apex), records) == Filter(OtherThanDigests(apex), old(records))
        invariant HoldsDigests(apex, zonemds[..i], records)
      {
        ghost var before := records;
        FilterMembers(ApexDigests(apex), records, zonemds[i]);
        Insert(zonemds[i], canon);
        DigestPut(apex, zonemds, i, before, records);
      }
      assert zonemds[..|zonemds|] == zonemds;
    }

    /** Put the new signature over the digest records in the place of the first old one. */
    method UpdateZonemdSignature(apex: Name, signature: RData)
      requires signature.Rrsig? && signature.covered == ZonemdType
      modifies this
      ensures |records| == |old(records)|
      ensures SameButDigests(apex, old(records), records)
      ensures ApexZonemds(apex, records) == ApexZonemds(apex, old(records))
      ensures FirstResigned(apex, old(records), records, signature)
    {
      for i := 0 to |records|
        invariant records == old(records)
        invariant forall j :: 0 <= j < i ==> !IsApexZonemdSignature(apex, records[j])
      {
        var r := records[i];
        if r.owner == apex && r.data.Rrsig? && r.data.covered == ZonemdType {
          ghost var a, b := records[..i], records[i + 1..];
          var updated := r.(data := signature);
          records := records[i := updated];
          assert old(records) == a + [r] + b && records == a + [updated] + b;
          FilterReplaced(Digested(apex), a, r, updated, b);
          FilterReplaced(ApexSoas(apex), a, r, updated, b);
          FilterReplaced(ApexDigests(apex), a, r, updated, b);
          assert ResignedAt(apex, old(records), records, signature, i);
          return;
        }
      }
      assert forall r :: r in records ==> !IsApexZonemdSignature(apex, r);
    }

    /** The whole protocol: bump the serial if asked to, insert the
        placeholder, sign, remove it, compute the digests, insert them and
        renew the signature over them.

        `resign` gives the new signature if the zone is signed at all. */
    method Publish(apex: Name, requests: set<Request>, bumpTo: Option<Serial>, canon: Canon,
                   sign: seq<Record> -> Option<seq<Record>>, resign: Option<RData>)
      returns (ok: bool, ghost numbered: seq<Record>, ghost placed: seq<Record>)
      requires |Soas(apex, records)| == 1 && requests != {} && SigningKeeps(sign, apex)
      requires resign.Some? ==> resign.value.Rrsig? && resign.value.covered == ZonemdType
      modifies this
      ensures ok ==> Published(canon, apex, requests, records)
      ensures ok ==> exists s :: && Soas(apex, records) == [s] && s.data.Soa?
                                 && s.data.serial == NewSerial(Soas(apex, old(records))[0], bumpTo)
                                 && forall z :: z in ApexZonemds(apex, records) ==> z.ttl == s.ttl
      ensures ok ==> forall q :: q in requests ==> Supported(q)
      ensures SoaRenumbered(apex, old(records), numbered, NewSerial(Soas(apex, old(records))[0], bumpTo))
      ensures Filter(OtherThanDigests(apex), placed) == Filter(OtherThanDigests(apex), numbered)
      ensures exists z :: && ApexZonemds(apex, placed) == [z]
                          && z.data == Zonemd(NewSerial(Soas(apex, old(records))[0], bumpTo), 0, 0, [])
      ensures ok ==> sign(placed).Some?
      ensures ok ==>
                var signed := Filter(OtherThanDigests(apex), sign(placed).value);
                var published := Filter(OtherThanDigests(apex), records);
                if resign.None? then published == signed else FirstResigned(apex, signed, published, resign.value)
    {
      var serial, ttl := UpdateSoa(apex, bumpTo);
      ghost var soas := Soas(apex, records);
      numbered := records;
      ReplaceApexZonemdWithPlaceholder(apex, serial, ttl, canon);
      SoasSurvive(apex, numbered, records);
      placed := records;
      var signed := sign(records);
      if signed.None? {
        return false, numbered, placed;
      }
      records := signed.value;
      var removed := RemoveFirstZonemd(apex);
      PlaceholderRemoved(apex, signed.value, records);
      ghost var final := records;
      var zonemds := CreateDigestRecords(apex, requests, serial, ttl, canon);
      if zonemds.None? {
        return false, numbered, placed;
      }
      InsertDigestRecords(apex, zonemds.value, canon);
      ghost var complete := records;
      if resign.Some? {
        UpdateZonemdSignature(apex, resign.value);
        ResignedAmongOthers(apex, complete, records, resign.value);
      }
      ghost var soa := soas[0];
      assert Soas(apex, records) == [soa];
      DigestsVerify(canon, apex, requests, serial, ttl, final, zonemds.value, records, soa);
      ok := true;
    }

    /** Give the SOA record its new serial. */
    method UpdateSoa(apex: Name, bumpTo: Option<Serial>) returns (serial: Serial, ttl: nat)
      requires |Soas(apex, records)| == 1
      modifies this
      ensures exists s :: Soas(apex, records) == [s] && s.data.Soa? && s.data.serial == serial && s.ttl == ttl
      ensures serial == NewSerial(Soas(apex, old(records))[0], bumpTo)
      ensures SoaRenumbered(apex, old(records), records, serial)
    {
      var i := FindSoa(apex);
      var r := records[i];
      serial, ttl := NewSerial(r, bumpTo), r.ttl;
      SoaReplaced(apex, records, i, r.(data := r.data.(serial := serial)));
      OnlySoa(apex, records, i);
      records := records[i := r.(data := r.data.(serial := serial))];
    }

    /** Find the SOA record. */
    method FindSoa(apex: Name) returns (i: nat)
      requires Soas(apex, records) != []
      ensures i < |records| && records[i].owner == apex && records[i].data.Soa?
      ensures Soas(apex, records[..i]) == []
    {
      i := 0;
      while i < |records| && !(records[i].owner == apex && records[i].data.Soa?)
        invariant i <= |records| && Soas(apex, records[..i]) == []
      {
        assert records[..i + 1][..i] == records[..i];
        i := i + 1;
      }
      assert records[..|records|] == records;
    }
  }

  lemma {:induction false} SoaReplaced(apex: Name, s: seq<Record>, i: nat, r: Record)
    requires |Soas(apex, s)| == 1 && i < |s| && ApexSoas(apex)(s[i]) && ApexSoas(apex)(r)
    requires Soas(apex, s[..i]) == []
    ensures Soas(apex, s) == [s[i]] && Soas(apex, s[i := r]) == [r]
  {
    var a, b := s[..i], s[i + 1..];
    SplitAt(s, i);
    SplitAt(s[i := r], i);
    FilterSplice(ApexSoas(apex), a, [s[i]], b);
    FilterSplice(ApexSoas(apex), a, [r], b);
    assert Filter(ApexSoas(apex), [s[i]]) == [s[i]] && Filter(ApexSoas(apex), [r]) == [r];
  }

  lemma {:induction false} OnlySoa(apex: Name, s: seq<Record>, i: nat)
    requires |Soas(apex, s)| == 1 && i < |s| && ApexSoas(apex)(s[i])
    ensures forall j :: 0 <= j < |s| && j != i ==> !(s[j].owner == apex && s[j].data.Soa?)
  {
    var a, b := s[..i], s[i + 1..];
    SplitAt(s, i);
    FilterSplice(ApexSoas(apex), a, [s[i]], b);
    FilterSingle(ApexSoas(apex), s[i]);
    forall j | 0 <= j < |s| && j != i ensures !(s[j].owner == apex && s[j].data.Soa?) {
      FilterMembers(ApexSoas(apex), a, s[j]);
      FilterMembers(ApexSoas(apex), b, s[j]);
      assert if j < i then s[j] == a[j] else s[j] == b[j - i - 1];
    }
  }

  /** `t` is `s` with another serial in the SOA record at the apex. */
  ghost predicate SoaRenumbered(apex: Name, s: seq<Record>, t: seq<Record>, serial: Serial) {
    && |t| == |s|
    && forall i :: 0 <= i < |s| ==>
                     if s[i].owner == apex && s[i].data.Soa?
                     then t[i] == Record(apex, s[i].ttl, Soa(serial, s[i].data.rest))
                     else t[i] == s[i]
  }

  /** `t` is `s` with other data in the first signature over the digest records, if there is one. */
  ghost predicate FirstResigned(apex: Name, s: seq<Record>, t: seq<Record>, signature: RData) {
    || (t == s && forall r :: r in s ==> !IsApexZonemdSignature(apex, r))
    || exists i :: 0 <= i < |s| && ResignedAt(apex, s, t, signature, i)
  }

  ghost predicate ResignedAt(apex: Name, s: seq<Record>, t: seq<Record>, signature: RData, i: nat)
    requires i < |s|
  {
    && IsApexZonemdSignature(apex, s[i]) && t == s[i := s[i].(data := signature)]
    && forall j :: 0 <= j < i ==> !IsApexZonemdSignature(apex, s[j])
  }

  /** The same holds of the records without the digest records. */
  lemma {:induction false} ResignedAmongOthers(apex: Name, s: seq<Record>, t: seq<Record>, signature: RData)
    requires FirstResigned(apex, s, t, signature) && signature.Rrsig?
    ensures FirstResigned(apex, Filter(OtherThanDigests(apex), s), Filter(OtherThanDigests(apex), t), signature)
  {
    var keep := OtherThanDigests(apex);
    if i :| 0 <= i < |s| && ResignedAt(apex, s, t, signature, i) {
      var a, b, r := s[..i], s[i + 1..], s[i];
      SplitAt(s, i);
      SplitAt(t, i);
      assert t[..i] == a && t[i + 1..] == b;
      FilterSplice(keep, a, [r], b);
      FilterSplice(keep, a, [t[i]], b);
      FilterSingle(keep, r);
      FilterSingle(keep, t[i]);
      var front := Filter(keep, a);
      forall j | 0 <= j < |front| ensures !IsApexZonemdSignature(apex, front[j]) {
        FilterMembers(keep, a, front[j]);
      }
      ResignedMiddle(apex, front, r, Filter(keep, b), signature);
    } else {
      forall r | r in Filter(keep, s) ensures r in s {
        FilterMembers(keep, s, r);
      }
    }
  }

  lemma {:induction false} ResignedMiddle(apex: Name, a: seq<Record>, r: Record, b: seq<Record>, signature: RData)
    requires IsApexZonemdSignature(apex, r) && forall j :: 0 <= j < |a| ==> !IsApexZonemdSignature(apex, a[j])
    ensures FirstResigned(apex, a + [r] + b, a + [r.(data := signature)] + b, signature)
  {
    assert ResignedAt(apex, a + [r] + b, a + [r.(data := signature)] + b, signature, |a|);
  }

  /** The serial stays, or with -u it becomes the time if that lies ahead of it
      by less than 2^31, and one more otherwise. */
  lemma {:induction false} NewSerialMeans(soa: Record, bumpTo: Option<Serial>)
    requires soa.data.Soa?
    ensures var current: int, chosen: int := soa.data.serial, NewSerial(soa, bumpTo);
            match bumpTo
            case None => chosen == current
            case Some(now) =>
              var ahead := (now - current) % 0x1_0000_0000;
              chosen == if 0 < ahead < 0x8000_0000 then now else (current + 1) % 0x1_0000_0000
  {
  }

  /** What is hashed is the canonical forms of all records, one behind the other. */
  lemma {:induction false} ComposeConcat(canon: Canon, a: seq<Record>, b: seq<Record>)
    ensures Compose(canon, a + b) == Compose(canon, a) + Compose(canon, b)
    ensures forall r :: Compose(canon, [r]) == canon.compose(r)
  {
    forall r ensures Compose(canon, [r]) == canon.compose(r) {
      assert [r][..0] == [];
    }
    if b == [] {
      assert a + b == a;
    } else {
      ComposeConcat(canon, a, b[..|b| - 1]);
      assert (a + b)[..|a + b| - 1] == a + b[..|b| - 1];
    }
  }

  /** The serial the zone is published with. */
  function NewSerial(soa: Record, bumpTo: Option<Serial>): Serial {
    if !soa.data.Soa? then 0
    else if bumpTo.Some? then BumpedSerial(bumpTo.value, soa.data.serial)
    else soa.data.serial
  }

  /** Nothing that goes into a digest, and no SOA, differs. */
  ghost predicate SameButDigests(apex: Name, s: seq<Record>, t: seq<Record>) {
    Filter(Digested(apex), s) == Filter(Digested(apex), t) && Soas(apex, s) == Soas(apex, t)
  }

  /** The digest records at the apex are those listed, in some order. */
  ghost predicate HoldsDigests(apex: Name, zonemds: seq<Record>, records: seq<Record>)
    requires forall z :: z in zonemds ==> IsApexZonemd(apex, z)
  {
    ApexZonemdsAreZonemds(apex, records);
    && RequestsOf(ApexZonemds(apex, records)) == RequestsOf(zonemds)
    && forall z :: z in ApexZonemds(apex, records) ==> z in zonemds
  }

  lemma {:induction false} RequestsConcat(a: seq<Record>, b: seq<Record>)
    requires forall z :: z in a + b ==> z.data.Zonemd?
    ensures forall z :: z in a || z in b ==> z in a + b
    ensures RequestsOf(a + b) == RequestsOf(a) + RequestsOf(b)
  {
    if b == [] {
      assert a + b == a;
    } else {
      RequestsConcat(a, b[..|b| - 1]);
      assert (a + b)[..|a + b| - 1] == a + b[..|b| - 1];
    }
  }

  lemma {:induction false} InsertedMembers(s: seq<Record>, z: Record, t: seq<Record>)
    requires Inserted(s, z, t)
    ensures forall r :: r in t <==> r == z || r in s
  {
    var i :| 0 <= i <= |s| && t == s[..i] + [z] + s[i..];
    assert s == s[..i] + s[i..];
  }

  lemma {:induction false} InsertedRequests(s: seq<Record>, z: Record, t: seq<Record>)
    requires Inserted(s, z, t) && z.data.Zonemd? && forall r :: r in s ==> r.data.Zonemd?
    ensures forall r :: r in t <==> r == z || r in s
    ensures RequestsOf(t) == RequestsOf(s) + multiset{Request(z.data.scheme, z.data.algorithm)}
  {
    InsertedMembers(s, z, t);
    var i :| 0 <= i <= |s| && t == s[..i] + [z] + s[i..];
    var a, b := s[..i], s[i..];
    assert s == a + b;
    RequestsConcat(a, b);
    RequestsConcat(a + [z], b);
    RequestsConcat(a, [z]);
    assert RequestsOf([z]) == multiset{Request(z.data.scheme, z.data.algorithm)} by {
      assert [z][..0] == [];
    }
  }

  lemma {:induction false} FilterReplaced(keep: Record -> bool, a: seq<Record>, r: Record, r': Record, b: seq<Record>)
    requires !keep(r) && !keep(r')
    ensures Filter(keep, a + [r] + b) == Filter(keep, a + [r'] + b)
  {
    FilterSplice(keep, a, [r], b);
    FilterSplice(keep, a, [r'], b);
    assert Filter(keep, [r]) == [] == Filter(keep, [r']);
  }

  /** SOA records are among those that are no digests. */
  lemma {:induction false} SoasSurvive(apex: Name, s: seq<Record>, t: seq<Record>)
    requires Filter(OtherThanDigests(apex), s) == Filter(OtherThanDigests(apex), t)
    ensures Soas(apex, s) == Soas(apex, t)
  {
    FilterOfFilter(ApexSoas(apex), OtherThanDigests(apex), s);
    FilterOfFilter(ApexSoas(apex), OtherThanDigests(apex), t);
  }

  lemma {:induction false} FilterOfFilter(keep: Record -> bool, wider: Record -> bool, s: seq<Record>)
    requires forall r :: keep(r) ==> wider(r)
    ensures Filter(keep, Filter(wider, s)) == Filter(keep, s)
  {
    if s != [] {
      FilterOfFilter(keep, wider, s[..|s| - 1]);
      var front := Filter(wider, s[..|s| - 1]);
      assert (front + [s[|s| - 1]])[..|front|] == front;
    }
  }

  /** All digest records but the one put in are gone. */
  lemma {:induction false} PlaceholderPut(apex: Name, s: seq<Record>, z: Record, t: seq<Record>)
    requires IsApexZonemd(apex, z) && Inserted(Filter(OtherThanDigests(apex), s), z, t)
    ensures ApexZonemds(apex, t) == [z]
    ensures Filter(OtherThanDigests(apex), t) == Filter(OtherThanDigests(apex), s)
  {
    var others, digests := OtherThanDigests(apex), ApexDigests(apex);
    var stripped := Filter(others, s);
    FilterTwice(others, s);
    FilterNone(digests, stripped, others, s);
    FilterInserted(others, stripped, z, t);
    FilterInserted(digests, stripped, z, t);
    InsertedIntoEmpty(z, ApexZonemds(apex, t));
  }

  /** Another digest record has been put in. */
  lemma {:induction false} DigestPut(apex: Name, zonemds: seq<Record>, i: nat, s: seq<Record>, t: seq<Record>)
    requires i < |zonemds| && IsApexZonemd(apex, zonemds[i]) && Inserted(s, zonemds[i], t)
    requires forall z :: z in zonemds ==> IsApexZonemd(apex, z)
    requires HoldsDigests(apex, zonemds[..i], s)
    ensures SameButDigests(apex, s, t) && HoldsDigests(apex, zonemds[..i + 1], t)
    ensures Filter(OtherThanDigests(apex), t) == Filter(OtherThanDigests(apex), s)
  {
    var z := zonemds[i];
    assert zonemds[..i + 1][..i] == zonemds[..i];
    FilterInserted(Digested(apex), s, z, t);
    FilterInserted(ApexSoas(apex), s, z, t);
    FilterInserted(ApexDigests(apex), s, z, t);
    FilterInserted(OtherThanDigests(apex), s, z, t);
    ApexZonemdsAreZonemds(apex, s);
    InsertedRequests(ApexZonemds(apex, s), z, ApexZonemds(apex, t));
  }

  /** Removing the only digest record leaves none and changes nothing else. */
  lemma {:induction false} PlaceholderRemoved(apex: Name, s: seq<Record>, t: seq<Record>)
    requires |ApexZonemds(apex, s)| == 1
    requires exists i :: 0 <= i < |s| && IsApexZonemd(apex, s[i]) && t == s[..i] + s[i + 1..]
    ensures ApexZonemds(apex, t) == [] && Soas(apex, t) == Soas(apex, s)
    ensures Filter(OtherThanDigests(apex), t) == Filter(OtherThanDigests(apex), s)
  {
    var i :| 0 <= i < |s| && IsApexZonemd(apex, s[i]) && t == s[..i] + s[i + 1..];
    SplitAt(s, i);
    FilterWithout(ApexDigests(apex), s[..i], s[i], s[i + 1..]);
    FilterWithout(ApexSoas(apex), s[..i], s[i], s[i + 1..]);
    FilterWithout(OtherThanDigests(apex), s[..i], s[i], s[i + 1..]);
  }

  lemma {:induction false} FilterWithout(keep: Record -> bool, a: seq<Record>, r: Record, b: seq<Record>)
    ensures |Filter(keep, a + [r] + b)| == |Filter(keep, a + b)| + if keep(r) then 1 else 0
    ensures !keep(r) ==> Filter(keep, a + [r] + b) == Filter(keep, a + b)
  {
    FilterSplice(keep, a, [r], b);
    FilterConcat(keep, a, b);
    FilterSingle(keep, r);
    NothingBetween(Filter(keep, a), Filter(keep, b));
  }

  /** Digests computed before the digest records went in are those a verifier
      recomputes afterwards. */
  lemma {:induction false} DigestsVerify(canon: Canon, apex: Name, requests: set<Request>, serial: Serial, ttl: nat,
                                         final: seq<Record>, zonemds: seq<Record>, records: seq<Record>, soa: Record)
    requires DigestRecords(canon, apex, requests, serial, ttl, final, zonemds)
    requires forall q :: q in requests ==> Supported(q)
    requires (forall z :: z in zonemds ==> IsApexZonemd(apex, z)) && HoldsDigests(apex, zonemds, records)
    requires SameButDigests(apex, final, records)
    requires Soas(apex, records) == [soa] && soa.data.Soa? && soa.data.serial == serial
    ensures Published(canon, apex, requests, records)
  {
    forall z | z in ApexZonemds(apex, records) ensures Verifies(canon, apex, records, z) {
      assert z in zonemds;
    }
  }

  function DigestRecord(canon: Canon, apex: Name, q: Request, serial: Serial, ttl: nat, records: seq<Record>): Record {
    Record(apex, ttl, Zonemd(serial, q.scheme, q.algorithm, DigestOf(canon, apex, q.algorithm, records)))
  }

  /** `zonemds` holds one digest record over `records` for each request. */
  ghost predicate DigestRecords(canon: Canon, apex: Name, requests: set<Request>, serial: Serial, ttl: nat,
                                records: seq<Record>, zonemds: seq<Record>)
  {
    && (forall z :: z in zonemds ==>
                      z.data.Zonemd? && Request(z.data.scheme, z.data.algorithm) in requests
                      && z == DigestRecord(canon, apex, Request(z.data.scheme, z.data.algorithm), serial, ttl, records))
    && RequestsOf(zonemds) == multiset(requests)
    && (forall i, j :: 0 <= i < j < |zonemds| ==> zonemds[i] != zonemds[j])
  }

  lemma {:induction false} AddDigestRecord(canon: Canon, apex: Name, requests: set<Request>, serial: Serial, ttl: nat,
                                           records: seq<Record>, zonemds: seq<Record>, q: Request)
    requires DigestRecords(canon, apex, requests, serial, ttl, records, zonemds) && q !in requests
    ensures DigestRecords(canon, apex, requests + {q}, serial, ttl, records,
                          zonemds + [DigestRecord(canon, apex, q, serial, ttl, records)])
  {
    var z := DigestRecord(canon, apex, q, serial, ttl, records);
    assert (zonemds + [z])[..|zonemds|] == zonemds;
    assert multiset(requests + {q}) == multiset(requests) + multiset{q};
  }

  lemma {:induction false} FilterTwice(keep: Record -> bool, s: seq<Record>)
    ensures Filter(keep, Filter(keep, s)) == Filter(keep, s)
  {
    if s != [] {
      FilterTwice(keep, s[..|s| - 1]);
      var front := Filter(keep, s[..|s| - 1]);
      assert (front + [s[|s| - 1]])[..|front|] == front;
    }
  }

  lemma {:induction false} FilterNone(drop: Record -> bool, s: seq<Record>, keep: Record -> bool, t: seq<Record>)
    requires s == Filter(keep, t) && forall r :: keep(r) ==> !drop(r)
    ensures Filter(drop, s) == []
  {
    if Filter(drop, s) != [] {
      var r := Filter(drop, s)[0];
      FilterMembers(drop, s, r);
      FilterMembers(keep, t, r);
    }
  }
}
