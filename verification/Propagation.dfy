/** The checks that ask every name server whether it has the new records. */
module Propagation {
  import opened Wrappers
  import opened Names
  import opened KeySets
  import opened Records

  const DEFAULT_WAIT: Time := 600 * SECOND

  /** The outcome of a DNSKEY or DS check. */
  datatype Slot = Report(ttl: nat) | Wait(until: Time)

  predicate Relevant(zone: Name, r: Rr) {
    r.owner == zone && (r.data.DnskeyData? || (r.data.RrsigData? && r.data.covered == DNSKEY_TYPE))
  }

  function RelevantData(zone: Name, records: seq<Rr>): seq<RData> {
    if records == [] then []
    else
      var rest := RelevantData(zone, records[..|records| - 1]);
      var r := records[|records| - 1];
      if Relevant(zone, r) then rest + [r.data] else rest
  }

  function RelevantTtls(zone: Name, records: seq<Rr>): seq<nat> {
    if records == [] then []
    else
      var rest := RelevantTtls(zone, records[..|records| - 1]);
      var r := records[|records| - 1];
      if Relevant(zone, r) then rest + [r.ttl] else rest
  }

  /** `m` is the largest of `s`, or zero if there is none. */
  ghost predicate IsMax(m: nat, s: seq<nat>) {
    && (forall t :: t in s ==> t <= m)
    && (m == 0 || m in s)
  }

  /** The relevant records are those of the target, each exactly once. */
  ghost predicate OneToOne(zone: Name, records: seq<Rr>, target: set<RData>) {
    multiset(RelevantData(zone, records)) == multiset(target)
  }

  lemma {:induction false} RelevantPrefix(zone: Name, records: seq<Rr>, i: nat)
    requires i <= |records|
    ensures multiset(RelevantData(zone, records[..i])) <= multiset(RelevantData(zone, records))
  {
    if i < |records| {
      RelevantPrefix(zone, records[..|records| - 1], i);
      assert records[..|records| - 1][..i] == records[..i];
    } else {
      assert records[..i] == records;
    }
  }

  /** Whether the server at one address has the right DNSKEY RRset and
      signatures.  The target maps each record still to be found to its TTL. */
  method CheckDnskeyForAddress(zone: Name, records: seq<Rr>, target: map<RData, nat>, now: Time) returns (s: Slot)
    ensures s.Report? <==> OneToOne(zone, records, target.Keys)
    ensures s.Report? ==> IsMax(s.ttl, RelevantTtls(zone, records))
    ensures s.Wait? ==>
              || (exists r :: r in records && Relevant(zone, r) && s == Wait(now + r.ttl * SECOND))
              || (exists d :: d in target && s == Wait(now + target[d] * SECOND))
  {
    var remaining := target;
    var maxTtl: nat := 0;
    ghost var found: seq<RData>, ttls: seq<nat> := [], [];
    for i := 0 to |records|
      invariant forall d :: d in remaining ==> d in target && remaining[d] == target[d]
      invariant found == RelevantData(zone, records[..i]) && ttls == RelevantTtls(zone, records[..i])
      invariant multiset(found) + multiset(remaining.Keys) == multiset(target.Keys)
      invariant IsMax(maxTtl, ttls)
    {
      var r := records[i];
      assert records[..i + 1][..i] == records[..i];
      if r.owner != zone || !(r.data.DnskeyData? || (r.data.RrsigData? && r.data.covered == 48)) {
        continue;
      }
      maxTtl := if r.ttl > maxTtl then r.ttl else maxTtl;
      if r.data !in remaining {
        NoOneToOne(zone, records, i, remaining.Keys, target.Keys);
        return Wait(now + r.ttl * SECOND);
      }
      FoundRecord(found, remaining.Keys, target.Keys, r.data);
      remaining := remaining - {r.data};
      found, ttls := found + [r.data], ttls + [r.ttl];
    }
    assert records[..|records|] == records;
    if remaining.Keys != {} {
      var d :| d in remaining.Keys;
      assert multiset(remaining.Keys)[d] == 1;
      return Wait(now + remaining[d] * SECOND);
    }
    s := Report(maxTtl);
  }

  /** A relevant record that is not, or no longer, to be found rules out a match. */
  lemma {:induction false} NoOneToOne(zone: Name, records: seq<Rr>, i: nat, remaining: set<RData>, target: set<RData>)
    requires i < |records| && Relevant(zone, records[i]) && records[i].data !in remaining
    requires multiset(RelevantData(zone, records[..i])) + multiset(remaining) == multiset(target)
    ensures !OneToOne(zone, records, target)
  {
    RelevantPrefix(zone, records, i + 1);
    assert records[..i + 1][..i] == records[..i];
    ExtraRecord(RelevantData(zone, records[..i]), remaining, target, records[i].data);
  }

  lemma FoundRecord(found: seq<RData>, remaining: set<RData>, target: set<RData>, d: RData)
    requires multiset(found) + multiset(remaining) == multiset(target) && d in remaining
    ensures multiset(found + [d]) + multiset(remaining - {d}) == multiset(target)
  {
    assert multiset(remaining - {d}) == multiset(remaining) - multiset{d};
  }

  lemma {:induction false} ExtraRecord(found: seq<RData>, remaining: set<RData>, target: set<RData>, d: RData)
    requires multiset(found) + multiset(remaining) == multiset(target) && d !in remaining
    ensures !(multiset(found + [d]) <= multiset(target))
  {
    assert multiset(found + [d])[d] == multiset(found)[d] + 1;
    assert multiset(found)[d] == multiset(target)[d];
  }

  // ----- DS -----

  /** A digest fits at most one key. */
  ghost predicate DigestsDiffer(digest: Digest) {
    forall a, b, t :: digest.of(a, t) == digest.of(b, t) ==> a == b
  }

  predicate Fits(ds: DsRr, k: PublicKey, digest: Digest) {
    ds.digestType in digest.types && ds.algorithm == k.algorithm && ds.digest == digest.of(k, ds.digestType)
  }

  function AtZone(zone: Name, records: seq<DsRr>): seq<DsRr> {
    if records == [] then []
    else
      var rest := AtZone(zone, records[..|records| - 1]);
      var r := records[|records| - 1];
      if r.owner == zone then rest + [r] else rest
  }

  function TtlsOf(records: seq<DsRr>): seq<nat> {
    seq(|records|, i requires 0 <= i < |records| => records[i].ttl)
  }

  /** `keys` lists, record by record, the target keys the DS records belong to. */
  ghost predicate Assigns(records: seq<DsRr>, keys: seq<PublicKey>, digest: Digest) {
    |keys| == |records| && forall i :: 0 <= i < |records| ==> Fits(records[i], keys[i], digest)
  }

  /** Every DS record belongs to a target key and every target key has exactly one DS record. */
  ghost predicate DsOneToOne(records: seq<DsRr>, target: set<PublicKey>, digest: Digest) {
    exists keys :: Assigns(records, keys, digest) && multiset(keys) == multiset(target)
  }

  lemma {:induction false} AtZonePrefix(zone: Name, records: seq<DsRr>, i: nat)
    requires i <= |records|
    ensures AtZone(zone, records[..i]) <= AtZone(zone, records)
  {
    if i < |records| {
      AtZonePrefix(zone, records[..|records| - 1], i);
      assert records[..|records| - 1][..i] == records[..i];
    } else {
      assert records[..i] == records;
    }
  }

  /** Where no key is left for a record, the keys that longer lists belong to
      are too many. */
  lemma {:induction false} ExtraKey(records: seq<DsRr>, keys: seq<PublicKey>, remaining: set<PublicKey>,
                                    target: set<PublicKey>, digest: Digest, all: seq<PublicKey>)
    requires DigestsDiffer(digest) && |keys| < |records| && Assigns(records[..|keys|], keys, digest)
    requires multiset(keys) + multiset(remaining) == multiset(target)
    requires forall k :: k in remaining ==> !Fits(records[|keys|], k, digest)
    requires Assigns(records, all, digest)
    ensures !(multiset(all) <= multiset(target))
  {
    var n := |keys|;
    forall i | 0 <= i < n ensures all[i] == keys[i] {
      assert Fits(records[..n][i], keys[i], digest) && Fits(records[i], all[i], digest);
    }
    assert all == keys + [all[n]] + all[n + 1..];
    assert Fits(records[n], all[n], digest);
    assert multiset(all) == multiset(keys) + multiset{all[n]} + multiset(all[n + 1..]);
    assert all[n] !in remaining;
    assert multiset(target)[all[n]] == multiset(keys)[all[n]] < multiset(all)[all[n]];
  }

  /** A record for which no key is left rules out any assignment. */
  lemma {:induction false} NoAssignment(records: seq<DsRr>, keys: seq<PublicKey>, remaining: set<PublicKey>,
                                        target: set<PublicKey>, digest: Digest)
    requires DigestsDiffer(digest) && |keys| < |records| && Assigns(records[..|keys|], keys, digest)
    requires multiset(keys) + multiset(remaining) == multiset(target)
    requires forall k :: k in remaining ==> !Fits(records[|keys|], k, digest)
    ensures !DsOneToOne(records, target, digest)
  {
    forall all | Assigns(records, all, digest) ensures multiset(all) != multiset(target) {
      ExtraKey(records, keys, remaining, target, digest, all);
    }
  }

  /** The records belong to different target keys. */
  ghost predicate Assignable(records: seq<DsRr>, target: set<PublicKey>, digest: Digest) {
    exists keys :: Assigns(records, keys, digest) && multiset(keys) <= multiset(target)
  }

  /** A record of an unknown digest type stands behind records that belong to
      some of the target keys but not to all: the digest asked for then fails,
      which the check does not expect. */
  ghost predicate DsCrash(records: seq<DsRr>, target: set<PublicKey>, digest: Digest) {
    exists i :: 0 <= i < |records| && CrashAt(records, i, target, digest)
  }

  ghost predicate CrashAt(records: seq<DsRr>, i: nat, target: set<PublicKey>, digest: Digest)
    requires i < |records|
  {
    records[i].digestType !in digest.types && i < |target| && Assignable(records[..i], target, digest)
  }

  /** One DS record of an unknown type, seen first, is enough. */
  lemma {:induction false} UnknownDigestCrashes(records: seq<DsRr>, target: set<PublicKey>, digest: Digest)
    requires records != [] && records[0].digestType !in digest.types && target != {}
    ensures DsCrash(records, target, digest)
  {
    assert Assigns(records[..0], [], digest);
    assert CrashAt(records, 0, target, digest);
  }

  /** The scan crashes where it stands or not at all. */
  lemma {:induction false} CrashOnlyHere(records: seq<DsRr>, keys: seq<PublicKey>, remaining: set<PublicKey>,
                                         target: set<PublicKey>, digest: Digest, i: nat)
    requires DigestsDiffer(digest) && |keys| < |records| && Assigns(records[..|keys|], keys, digest)
    requires multiset(keys) + multiset(remaining) == multiset(target)
    requires forall k :: k in remaining ==> !Fits(records[|keys|], k, digest)
    requires i < |records|
    ensures CrashAt(records, i, target, digest) ==> i == |keys| && remaining != {}
  {
    var n := |keys|;
    assert |multiset(target)| == n + |remaining|;
    if i < n {
      assert Fits(records[..n][i], keys[i], digest);
    } else if i > n {
      assert records[..i][..n] == records[..n];
      forall all | Assigns(records[..i], all, digest) ensures !(multiset(all) <= multiset(target)) {
        ExtraKey(records[..i], keys, remaining, target, digest, all);
      }
    }
  }

  /** A record of a known type, or one for which all keys are taken, fits no
      key that is left: no match, and no crash either. */
  lemma {:induction false} NoKeyLeft(records: seq<DsRr>, keys: seq<PublicKey>, remaining: set<PublicKey>,
                                     target: set<PublicKey>, digest: Digest)
    requires DigestsDiffer(digest) && |keys| < |records| && Assigns(records[..|keys|], keys, digest)
    requires multiset(keys) + multiset(remaining) == multiset(target)
    requires forall k :: k in remaining ==> !Fits(records[|keys|], k, digest)
    requires remaining == {} || records[|keys|].digestType in digest.types
    ensures !DsOneToOne(records, target, digest) && !DsCrash(records, target, digest)
  {
    NoAssignment(records, keys, remaining, target, digest);
    forall j | 0 <= j < |records| ensures !CrashAt(records, j, target, digest) {
      CrashOnlyHere(records, keys, remaining, target, digest, j);
    }
  }

  /** Whether the parent server at one address has the right DS RRset; without
      an outcome the check has panicked. */
  method CheckDsForAddress(zone: Name, records: seq<DsRr>, target: map<PublicKey, nat>, digest: Digest, now: Time)
    returns (s: Option<Slot>)
    requires DigestsDiffer(digest)
    ensures s.None? <==> DsCrash(AtZone(zone, records), target.Keys, digest)
    ensures s.Some? && s.value.Report? <==> DsOneToOne(AtZone(zone, records), target.Keys, digest)
    ensures s.Some? && s.value.Report? ==> IsMax(s.value.ttl, TtlsOf(AtZone(zone, records)))
    ensures s.Some? && s.value.Wait? ==>
              || (exists r :: r in records && r.owner == zone && s.value == Wait(now + r.ttl * SECOND))
              || (exists k :: k in target && s.value == Wait(now + target[k] * SECOND))
  {
    ghost var at := AtZone(zone, records);
    var remaining := target;
    var maxTtl: nat := 0;
    ghost var keys: seq<PublicKey> := [];
    for i := 0 to |records|
      invariant remaining.Keys <= target.Keys && forall k :: k in remaining ==> remaining[k] == target[k]
      invariant Assigns(AtZone(zone, records[..i]), keys, digest)
      invariant multiset(keys) + multiset(remaining.Keys) == multiset(target.Keys)
      invariant IsMax(maxTtl, TtlsOf(AtZone(zone, records[..i])))
    {
      var r := records[i];
      assert records[..i + 1][..i] == records[..i];
      if r.owner != zone {
        continue;
      }
      AtZonePrefix(zone, records, i + 1);
      MaxNext(maxTtl, AtZone(zone, records[..i]), r);
      maxTtl := if r.ttl > maxTtl then r.ttl else maxTtl;
      assert at[..|keys|] == AtZone(zone, records[..i]) && at[|keys|] == r;
      if remaining.Keys != {} && r.digestType !in digest.types {
        CrashHere(at, keys, remaining.Keys, target.Keys, digest);
        return None;
      }
      if k :| k in remaining && r.algorithm == k.algorithm && r.digest == digest.of(k, r.digestType) {
        keys := keys + [k];
        remaining := remaining - {k};
      } else {
        NoKeyLeft(at, keys, remaining.Keys, target.Keys, digest);
        return Some(Wait(now + r.ttl * SECOND));
      }
    }
    assert records[..|records|] == records;
    AllFitNoCrash(at, keys, target.Keys, digest);
    if remaining.Keys != {} {
      var k :| k in remaining.Keys;
      TooFewRecords(at, keys, remaining.Keys, target.Keys, digest, k);
      return Some(Wait(now + remaining[k] * SECOND));
    }
    s := Some(Report(maxTtl));
  }

  lemma {:induction false} CrashHere(records: seq<DsRr>, keys: seq<PublicKey>, remaining: set<PublicKey>,
                                     target: set<PublicKey>, digest: Digest)
    requires |keys| < |records| && Assigns(records[..|keys|], keys, digest)
    requires multiset(keys) + multiset(remaining) == multiset(target)
    requires remaining != {} && records[|keys|].digestType !in digest.types
    ensures DsCrash(records, target, digest) && !DsOneToOne(records, target, digest)
  {
    assert |multiset(target)| == |keys| + |remaining|;
    assert CrashAt(records, |keys|, target, digest);
    forall all | |all| == |records| ensures !Assigns(records, all, digest) {
      assert !Fits(records[|keys|], all[|keys|], digest);
    }
  }

  lemma {:induction false} AllFitNoCrash(records: seq<DsRr>, keys: seq<PublicKey>, target: set<PublicKey>,
                                         digest: Digest)
    requires Assigns(records, keys, digest)
    ensures !DsCrash(records, target, digest)
  {
    forall i | 0 <= i < |records| ensures !CrashAt(records, i, target, digest) {
      assert Fits(records[i], keys[i], digest);
    }
  }

  lemma {:induction false} MaxNext(m: nat, records: seq<DsRr>, r: DsRr)
    requires IsMax(m, TtlsOf(records))
    ensures IsMax(if r.ttl > m then r.ttl else m, TtlsOf(records + [r]))
  {
    assert TtlsOf(records + [r]) == TtlsOf(records) + [r.ttl];
  }

  lemma {:induction false} TooFewRecords(records: seq<DsRr>, keys: seq<PublicKey>, remaining: set<PublicKey>,
                                         target: set<PublicKey>, digest: Digest, k: PublicKey)
    requires Assigns(records, keys, digest) && k in remaining
    requires multiset(keys) + multiset(remaining) == multiset(target)
    ensures !DsOneToOne(records, target, digest)
  {
    assert |multiset(target)| == |keys| + |remaining|;
    forall all | Assigns(records, all, digest) ensures multiset(all) != multiset(target) {
      assert |multiset(all)| == |records|;
    }
  }

  /** Records that belong to keys match a target exactly if it has these keys
      and no key has two records. */
  lemma {:induction false} MatchMeansOneRecordPerKey(records: seq<DsRr>, keys: seq<PublicKey>, target: set<PublicKey>,
                                                     digest: Digest)
    requires DigestsDiffer(digest) && Assigns(records, keys, digest)
    ensures DsOneToOne(records, target, digest) <==>
              && (forall k :: k in keys <==> k in target)
              && (forall i, j :: 0 <= i < j < |keys| ==> keys[i] != keys[j])
  {
    forall all | Assigns(records, all, digest) ensures all == keys {
      forall i | 0 <= i < |keys| ensures all[i] == keys[i] {
        assert Fits(records[i], keys[i], digest) && Fits(records[i], all[i], digest);
      }
    }
    assert DsOneToOne(records, target, digest) <==> multiset(keys) == multiset(target);
    SameAsSet(keys, target);
  }

  lemma {:induction false} SameAsSet<T>(s: seq<T>, target: set<T>)
    ensures multiset(s) == multiset(target) <==>
              && (forall x :: x in s <==> x in target)
              && (forall i, j :: 0 <= i < j < |s| ==> s[i] != s[j])
  {
    if multiset(s) == multiset(target) {
      forall x ensures x in s <==> x in target {
        assert x in s <==> x in multiset(s);
      }
      forall i, j | 0 <= i < j < |s| ensures s[i] != s[j] {
        TwiceInMultiset(s, i, j);
      }
    }
    if (forall x :: x in s <==> x in target) && (forall i, j :: 0 <= i < j < |s| ==> s[i] != s[j]) {
      forall x ensures multiset(s)[x] == multiset(target)[x] {
        OnceInMultiset(s, x);
      }
    }
  }

  lemma {:induction false} TwiceInMultiset<T>(s: seq<T>, i: nat, j: nat)
    requires i < j < |s|
    ensures s[i] == s[j] ==> multiset(s)[s[i]] >= 2
  {
    assert s == s[..j] + s[j..];
    assert s[i] in s[..j] && s[j] in s[j..];
  }

  lemma {:induction false} OnceInMultiset<T>(s: seq<T>, x: T)
    requires forall i, j :: 0 <= i < j < |s| ==> s[i] != s[j]
    ensures multiset(s)[x] == if x in s then 1 else 0
  {
    if s != [] {
      OnceInMultiset(s[1..], x);
      assert s == [s[0]] + s[1..];
    }
  }

  /** Two DS records for the same key, such as with two digest types, keep the
      check waiting although both are correct, whatever else is there. */
  lemma {:induction false} TwoDigestsNeverMatch(records: seq<DsRr>, i: nat, j: nat, k: PublicKey,
                                                target: set<PublicKey>, digest: Digest)
    requires DigestsDiffer(digest) && i < j < |records|
    requires Fits(records[i], k, digest) && Fits(records[j], k, digest)
    ensures !DsOneToOne(records, target, digest)
  {
    forall all | Assigns(records, all, digest) ensures multiset(all) != multiset(target) {
      assert Fits(records[i], all[i], digest) && Fits(records[j], all[j], digest);
      SameAsSet(all, target);
    }
  }

  // ----- All servers -----

  function SeenTtls(zone: Name, answers: seq<Answer<Rr>>): seq<nat> {
    if answers == [] then []
    else
      var rest := SeenTtls(zone, answers[..|answers| - 1]);
      var a := answers[|answers| - 1];
      if a.Answered? then rest + RelevantTtls(zone, a.records) else rest
  }

  /** The server has answered, and with exactly the target. */
  ghost predicate Matches(zone: Name, a: Answer<Rr>, target: set<RData>) {
    a.Answered? && OneToOne(zone, a.records, target)
  }

  ghost predicate AllServersMatch(zone: Name, answers: seq<Answer<Rr>>, target: set<RData>) {
    forall i :: 0 <= i < |answers| ==> Matches(zone, answers[i], target)
  }

  /** A reason to wait that one server gives: it could not be asked, or the
      TTL of a record it has or lacks has to pass. */
  ghost predicate WaitsFor(zone: Name, a: Answer<Rr>, target: map<RData, nat>, now: Time, s: Slot) {
    if a.Failed? then s == Wait(now + DEFAULT_WAIT)
    else
      || (exists r :: r in a.records && Relevant(zone, r) && s == Wait(now + r.ttl * SECOND))
      || (exists d :: d in target && s == Wait(now + target[d] * SECOND))
  }

  /** What the check of a DNSKEY RRset at all servers makes of their answers. */
  ghost predicate DnskeyChecked(zone: Name, answers: Answers<Rr>, target: map<RData, nat>, now: Time, s: Slot) {
    && (s.Report? <==> answers.Some? && AllServersMatch(zone, answers.value, target.Keys))
    && (s.Report? ==> answers.value != [] && IsMax(s.ttl, SeenTtls(zone, answers.value)))
    && (s.Wait? ==>
          if answers.None? then s == Wait(now + DEFAULT_WAIT)
          else exists i :: && 0 <= i < |answers.value| && !Matches(zone, answers.value[i], target.Keys)
                           && AllServersMatch(zone, answers.value[..i], target.Keys)
                           && WaitsFor(zone, answers.value[i], target, now, s))
  }

  lemma {:induction false} NextServer(zone: Name, answers: seq<Answer<Rr>>, i: nat, target: set<RData>, maxTtl: nat,
                                      ttl: nat)
    requires i < |answers| && AllServersMatch(zone, answers[..i], target) && Matches(zone, answers[i], target)
    requires IsMax(maxTtl, SeenTtls(zone, answers[..i])) && IsMax(ttl, RelevantTtls(zone, answers[i].records))
    ensures AllServersMatch(zone, answers[..i + 1], target)
    ensures IsMax(if ttl > maxTtl then ttl else maxTtl, SeenTtls(zone, answers[..i + 1]))
  {
    assert answers[..i + 1][..i] == answers[..i];
  }

  /** Whether a new DNSKEY RRset has reached every name server. */
  method ReportDnskeyPropagated(zone: Name, addresses: Answers<Rr>, target: map<RData, nat>, now: Time)
    returns (s: Slot)
    requires addresses.Some? ==> addresses.value != []
    ensures DnskeyChecked(zone, addresses, target, now, s)
  {
    if addresses.None? {
      return Wait(now + DEFAULT_WAIT);
    }
    var answers := addresses.value;
    var maxTtl: nat := 0;
    for i := 0 to |answers|
      invariant AllServersMatch(zone, answers[..i], target.Keys)
      invariant IsMax(maxTtl, SeenTtls(zone, answers[..i]))
    {
      if answers[i].Failed? {
        assert !Matches(zone, answers[i], target.Keys);
        return Wait(now + DEFAULT_WAIT);
      }
      var r := CheckDnskeyForAddress(zone, answers[i].records, target, now);
      if r.Wait? {
        assert !Matches(zone, answers[i], target.Keys);
        assert WaitsFor(zone, answers[i], target, now, r);
        return r;
      }
      NextServer(zone, answers, i, target.Keys, maxTtl, r.ttl);
      maxTtl := if r.ttl > maxTtl then r.ttl else maxTtl;
    }
    assert answers[..|answers|] == answers;
    s := Report(maxTtl);
  }

  /** A reported TTL is no less than that of any relevant record of any
      server, and each server had the target. */
  ghost predicate DnskeyServed(zone: Name, answers: Answers<Rr>, target: set<RData>, ttl: nat) {
    && answers.Some? && answers.value != []
    && forall i :: 0 <= i < |answers.value| ==>
                     && Matches(zone, answers.value[i], target)
                     && forall r :: r in answers.value[i].records && Relevant(zone, r) ==> r.ttl <= ttl
  }

  lemma {:induction false} ReportMeansDnskeyServed(zone: Name, answers: Answers<Rr>, target: map<RData, nat>, now: Time,
                                                   s: Slot)
    requires DnskeyChecked(zone, answers, target, now, s) && s.Report?
    ensures DnskeyServed(zone, answers, target.Keys, s.ttl)
  {
    forall i, r | && 0 <= i < |answers.value| && answers.value[i].Answered?
                  && r in answers.value[i].records && Relevant(zone, r)
      ensures r.ttl <= s.ttl
    {
      TtlIsSeen(zone, answers.value, i, r);
    }
  }

  lemma {:induction false} TtlIsSeen(zone: Name, answers: seq<Answer<Rr>>, i: nat, r: Rr)
    requires i < |answers| && answers[i].Answered? && r in answers[i].records && Relevant(zone, r)
    ensures r.ttl in SeenTtls(zone, answers)
  {
    var n := |answers| - 1;
    if i < n {
      TtlIsSeen(zone, answers[..n], i, r);
    } else {
      TtlIsRelevant(zone, answers[n].records, r);
    }
  }

  lemma {:induction false} TtlIsRelevant(zone: Name, records: seq<Rr>, r: Rr)
    requires r in records && Relevant(zone, r)
    ensures r.ttl in RelevantTtls(zone, records)
  {
    var n := |records| - 1;
    if records[n] != r {
      assert records == records[..n] + [records[n]];
      TtlIsRelevant(zone, records[..n], r);
    }
  }

  // ----- All servers of the parent zone -----

  function SeenDsTtls(zone: Name, answers: seq<Answer<DsRr>>): seq<nat> {
    if answers == [] then []
    else
      var rest := SeenDsTtls(zone, answers[..|answers| - 1]);
      var a := answers[|answers| - 1];
      if a.Answered? then rest + TtlsOf(AtZone(zone, a.records)) else rest
  }

  ghost predicate DsMatches(zone: Name, a: Answer<DsRr>, target: set<PublicKey>, digest: Digest) {
    a.Answered? && DsOneToOne(AtZone(zone, a.records), target, digest)
  }

  ghost predicate AllParentsMatch(zone: Name, answers: seq<Answer<DsRr>>, target: set<PublicKey>, digest: Digest) {
    forall i :: 0 <= i < |answers| ==> DsMatches(zone, answers[i], target, digest)
  }

  ghost predicate DsWaitsFor(zone: Name, a: Answer<DsRr>, target: map<PublicKey, nat>, now: Time, s: Slot) {
    if a.Failed? then s == Wait(now + DEFAULT_WAIT)
    else
      || (exists r :: r in a.records && r.owner == zone && s == Wait(now + r.ttl * SECOND))
      || (exists k :: k in target && s == Wait(now + target[k] * SECOND))
  }

  ghost predicate DsCrashes(zone: Name, a: Answer<DsRr>, target: set<PublicKey>, digest: Digest) {
    a.Answered? && DsCrash(AtZone(zone, a.records), target, digest)
  }

  /** What the check of a DS RRset at all parent servers makes of their
      answers: no outcome if the check of any of them has panicked. */
  ghost predicate DsChecked(zone: Name, answers: Answers<DsRr>, target: map<PublicKey, nat>, digest: Digest, now: Time,
                            s: Option<Slot>)
  {
    && (s.None? <==> answers.Some? && exists i :: 0 <= i < |answers.value| &&
                                                  DsCrashes(zone, answers.value[i], target.Keys, digest))
    && (s.Some? ==> DsOutcome(zone, answers, target, digest, now, s.value))
  }

  ghost predicate DsOutcome(zone: Name, answers: Answers<DsRr>, target: map<PublicKey, nat>, digest: Digest, now: Time,
                            s: Slot)
  {
    && (s.Report? <==> answers.Some? && AllParentsMatch(zone, answers.value, target.Keys, digest))
    && (s.Report? ==> answers.value != [] && IsMax(s.ttl, SeenDsTtls(zone, answers.value)))
    && (s.Wait? ==>
          if answers.None? then s == Wait(now + DEFAULT_WAIT)
          else exists i :: && 0 <= i < |answers.value| && !DsMatches(zone, answers.value[i], target.Keys, digest)
                           && AllParentsMatch(zone, answers.value[..i], target.Keys, digest)
                           && DsWaitsFor(zone, answers.value[i], target, now, s))
  }

  /** The outcome for one parent server. */
  ghost predicate ParentChecked(zone: Name, a: Answer<DsRr>, target: map<PublicKey, nat>, digest: Digest, now: Time,
                                s: Slot)
  {
    && (s.Report? <==> DsMatches(zone, a, target.Keys, digest))
    && (s.Report? ==> IsMax(s.ttl, TtlsOf(AtZone(zone, a.records))))
    && (s.Wait? ==> DsWaitsFor(zone, a, target, now, s))
  }

  lemma {:induction false} NextParent(zone: Name, answers: seq<Answer<DsRr>>, i: nat, target: set<PublicKey>,
                                      digest: Digest, maxTtl: nat, ttl: nat)
    requires i < |answers| && AllParentsMatch(zone, answers[..i], target, digest)
    requires DsMatches(zone, answers[i], target, digest)
    requires IsMax(maxTtl, SeenDsTtls(zone, answers[..i])) && IsMax(ttl, TtlsOf(AtZone(zone, answers[i].records)))
    ensures AllParentsMatch(zone, answers[..i + 1], target, digest)
    ensures IsMax(if ttl > maxTtl then ttl else maxTtl, SeenDsTtls(zone, answers[..i + 1]))
  {
    assert answers[..i + 1][..i] == answers[..i];
  }

  /** Ask every parent server. */
  method CheckDsAtAll(zone: Name, answers: seq<Answer<DsRr>>, target: map<PublicKey, nat>, digest: Digest, now: Time)
    returns (res: Option<seq<Slot>>)
    requires DigestsDiffer(digest)
    ensures res.None? <==> exists i :: 0 <= i < |answers| && DsCrashes(zone, answers[i], target.Keys, digest)
    ensures res.Some? ==> |res.value| == |answers|
    ensures res.Some? ==>
              forall i :: 0 <= i < |answers| ==> ParentChecked(zone, answers[i], target, digest, now, res.value[i])
  {
    var results: seq<Slot> := [];
    for i := 0 to |answers|
      invariant |results| == i
      invariant forall j :: 0 <= j < i ==> !DsCrashes(zone, answers[j], target.Keys, digest)
      invariant forall j :: 0 <= j < i ==> ParentChecked(zone, answers[j], target, digest, now, results[j])
    {
      if answers[i].Failed? {
        results := results + [Wait(now + DEFAULT_WAIT)];
        continue;
      }
      var s := CheckDsForAddress(zone, answers[i].records, target, digest, now);
      if s.None? {
        assert DsCrashes(zone, answers[i], target.Keys, digest);
        return None;
      }
      results := results + [s.value];
    }
    res := Some(results);
  }

  /** Whether every server of the parent zone has the new DS RRset; failing to
      find or ask a server counts as waiting the default time. */
  method ReportDsPropagated(zone: Name, addresses: Answers<DsRr>, target: map<PublicKey, nat>, digest: Digest,
                            now: Time)
    returns (s: Option<Slot>)
    requires DigestsDiffer(digest)
    requires addresses.Some? ==> addresses.value != []
    ensures DsChecked(zone, addresses, target, digest, now, s)
  {
    if addresses.None? {
      return Some(Wait(now + DEFAULT_WAIT));
    }
    var answers := addresses.value;
    var res := CheckDsAtAll(zone, answers, target, digest, now);
    if res.None? {
      return None;
    }
    var maxTtl: nat := 0;
    for i := 0 to |answers|
      invariant AllParentsMatch(zone, answers[..i], target.Keys, digest)
      invariant IsMax(maxTtl, SeenDsTtls(zone, answers[..i]))
    {
      var r := res.value[i];
      assert ParentChecked(zone, answers[i], target, digest, now, r);
      if r.Wait? {
        assert !DsMatches(zone, answers[i], target.Keys, digest);
        return Some(r);
      }
      NextParent(zone, answers, i, target.Keys, digest, maxTtl, r.ttl);
      maxTtl := if r.ttl > maxTtl then r.ttl else maxTtl;
    }
    assert answers[..|answers|] == answers;
    s := Some(Report(maxTtl));
  }

  ghost predicate DsServed(zone: Name, answers: Answers<DsRr>, target: set<PublicKey>, digest: Digest, ttl: nat) {
    && answers.Some? && answers.value != []
    && forall i :: 0 <= i < |answers.value| ==>
                     && DsMatches(zone, answers.value[i], target, digest)
                     && forall r :: r in answers.value[i].records && r.owner == zone ==> r.ttl <= ttl
  }

  lemma {:induction false} ReportMeansDsServed(zone: Name, answers: Answers<DsRr>, target: map<PublicKey, nat>,
                                               digest: Digest, now: Time, s: Slot)
    requires DsOutcome(zone, answers, target, digest, now, s) && s.Report?
    ensures DsServed(zone, answers, target.Keys, digest, s.ttl)
  {
    forall i, r | && 0 <= i < |answers.value| && answers.value[i].Answered?
                  && r in answers.value[i].records && r.owner == zone
      ensures r.ttl <= s.ttl
    {
      DsTtlIsSeen(zone, answers.value, i, r);
    }
  }

  lemma {:induction false} DsTtlIsSeen(zone: Name, answers: seq<Answer<DsRr>>, i: nat, r: DsRr)
    requires i < |answers| && answers[i].Answered? && r in answers[i].records && r.owner == zone
    ensures r.ttl in SeenDsTtls(zone, answers)
  {
    var n := |answers| - 1;
    if i < n {
      DsTtlIsSeen(zone, answers[..n], i, r);
    } else {
      AtZoneMember(zone, answers[n].records, r);
      var at := AtZone(zone, answers[n].records);
      var j :| 0 <= j < |at| && at[j] == r;
      assert TtlsOf(at)[j] == r.ttl;
    }
  }

  lemma {:induction false} AtZoneMember(zone: Name, records: seq<DsRr>, r: DsRr)
    requires r in records && r.owner == zone
    ensures r in AtZone(zone, records)
  {
    var n := |records| - 1;
    if records[n] != r {
      assert records == records[..n] + [records[n]];
      AtZoneMember(zone, records[..n], r);
    }
  }

  // ----- What is asked for -----

  /** The DNSKEY RRset that is kept, with its signatures: the first TTL of equal records counts. */
  function DnskeyTarget(rrset: Rrset): map<RData, nat> {
    if rrset == [] then map[]
    else
      var rest := DnskeyTarget(rrset[..|rrset| - 1]);
      var r := rrset[|rrset| - 1];
      if r.data in rest then rest else rest[r.data := r.ttl]
  }

  /** The keys of the CDNSKEY records that are kept. */
  function DsTarget(rrset: Rrset): map<PublicKey, nat> {
    if rrset == [] then map[]
    else
      var rest := DsTarget(rrset[..|rrset| - 1]);
      var r := rrset[|rrset| - 1];
      if !r.data.CdnskeyData? || r.data.key in rest then rest else rest[r.data.key := r.ttl]
  }

  /** The target has the data of the kept records and nothing else. */
  lemma {:induction false} DnskeyTargetMembers(rrset: Rrset)
    ensures forall d :: d in DnskeyTarget(rrset) <==> exists r :: r in rrset && r.data == d
  {
    if rrset != [] {
      var n := |rrset| - 1;
      DnskeyTargetMembers(rrset[..n]);
      assert rrset == rrset[..n] + [rrset[n]];
    }
  }

  /** A record that is missing is waited for as long as the first of the kept
      records with its data says. */
  lemma {:induction false} DnskeyTargetTtls(rrset: Rrset, d: RData)
    requires d in DnskeyTarget(rrset)
    ensures exists i :: && 0 <= i < |rrset| && rrset[i].data == d && rrset[i].ttl == DnskeyTarget(rrset)[d]
                        && forall j :: 0 <= j < i ==> rrset[j].data != d
  {
    var n := |rrset| - 1;
    var front := rrset[..n];
    if d in DnskeyTarget(front) {
      DnskeyTargetTtls(front, d);
    } else {
      DnskeyTargetMembers(front);
      assert forall j :: 0 <= j < n ==> front[j] in front && front[j] == rrset[j];
      assert rrset[n].data == d;
    }
  }

  lemma {:induction false} DsTargetTtls(rrset: Rrset, k: PublicKey)
    requires k in DsTarget(rrset)
    ensures exists i :: && 0 <= i < |rrset| && rrset[i].data == CdnskeyData(k) && rrset[i].ttl == DsTarget(rrset)[k]
                        && forall j :: 0 <= j < i ==> rrset[j].data != CdnskeyData(k)
  {
    var n := |rrset| - 1;
    var front := rrset[..n];
    if k in DsTarget(front) {
      DsTargetTtls(front, k);
    } else {
      DsTargetMembers(front);
      assert forall j :: 0 <= j < n ==> front[j] in front && front[j] == rrset[j];
      assert rrset[n].data == CdnskeyData(k);
    }
  }

  lemma {:induction false} DsTargetMembers(rrset: Rrset)
    ensures forall k :: k in DsTarget(rrset) <==> exists r :: r in rrset && r.data == CdnskeyData(k)
  {
    if rrset != [] {
      var n := |rrset| - 1;
      DsTargetMembers(rrset[..n]);
      assert rrset == rrset[..n] + [rrset[n]];
    }
  }
}
