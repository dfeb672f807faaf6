/** Waiting for changes to reach all name servers: the report slots of a roll
    and the three functions that read and fill them. */
module ReportSlots {
  import opened Wrappers
  import opened Records
  import opened KeySets
  import opened Propagation

  /** A slot for an RRSIG check; the last three remember what to look at first. */
  datatype RrsigSlot =
    | RrsigReport(ttl: nat)
    | RrsigWait(until: Time)
    | WaitSoa(until: Time, serial: nat, retry: nat, reportTtl: nat)
    | WaitRecord(until: Time, owner: nat, rtype: nat, retry: nat)
    | WaitNextSerial(until: Time, serial: nat, retry: nat)

  datatype ReportState = ReportState(dnskey: Option<Slot>, ds: Option<Slot>, rrsig: Option<RrsigSlot>)

  const EMPTY := ReportState(None, None, None)

  /** What the network would answer to the checks of one pass, with what a
      DNSKEY or DS check makes of the answers. */
  datatype Probes = Probes(
    dnskey: Slot,
    dnskeyAnswers: Answers<Rr>,
    ds: Option<Slot>,
    dsAnswers: Answers<DsRr>,
    zone: ZoneCheck,
    soaReached: bool,
    recordSigned: bool,
    serialMoved: bool
  )

  /** What checking the whole zone finds: an error, all signatures and the SOA
      at all servers, all signatures but not the SOA everywhere, a wrong
      signature, or wrong signatures of NSEC3 records only. */
  datatype ZoneCheck =
    | ZoneFails
    | ZoneAllDone(ttl: nat)
    | ZoneLacksSoa(serial: nat, retry: nat, reportTtl: nat)
    | ZoneLacksRecord(owner: nat, rtype: nat, retry: nat)
    | ZoneLacksNsec3(serial: nat, retry: nat)

  /** What the RRSIG check makes of it.  If the SOA was missing somewhere it is
      looked for at once again.  That nothing is missing at the first look is
      not expected: then there is no outcome, the check panics. */
  function RrsigOutcome(z: ZoneCheck, soaReached: bool, now: Time): Option<RrsigSlot> {
    match z
    case ZoneFails => Some(RrsigWait(now + DEFAULT_WAIT))
    case ZoneAllDone(_) => None
    case ZoneLacksSoa(serial, retry, reportTtl) =>
      Some(if soaReached then RrsigReport(reportTtl) else WaitSoa(now + retry * SECOND, serial, retry, reportTtl))
    case ZoneLacksRecord(owner, rtype, retry) => Some(WaitRecord(now + retry * SECOND, owner, rtype, retry))
    case ZoneLacksNsec3(serial, retry) => Some(WaitNextSerial(now + retry * SECOND, serial, retry))
  }

  datatype Kind = Dnskey | Ds | Rrsig

  /** The answers a check has seen, where they are modelled. */
  datatype Said = DnskeySaid(dnskeys: Answers<Rr>) | DsSaid(ds: Answers<DsRr>) | RrsigSaid

  /** A check that was made, what it left in its slot and the answers it got. */
  datatype Probe = Probe(kind: Kind, found: RrsigSlot, said: Said)

  /** The kept RRsets that servers are compared with. */
  datatype Asked = Asked(dnskeys: Rrset, cds: Rrset)

  /** The checks make of the answers what they should. */
  ghost predicate ProbesChecked(lib: Library, asked: Asked, now: Time, p: Probes) {
    && DnskeyChecked(lib.zone, p.dnskeyAnswers, DnskeyTarget(asked.dnskeys), now, p.dnskey)
    && DsChecked(lib.zone, p.dsAnswers, DsTarget(asked.cds), lib.digest, now, p.ds)
  }

  /** A DNSKEY or DS check that reports has found every server to have what is
      kept, and reports no less than the TTL of any record there. */
  ghost predicate ProbeServed(lib: Library, asked: Asked, p: Probe) {
    p.found.RrsigReport? ==>
      match p.kind
      case Dnskey =>
        p.said.DnskeySaid? && DnskeyServed(lib.zone, p.said.dnskeys, DnskeyTarget(asked.dnskeys).Keys, p.found.ttl)
      case Ds => p.said.DsSaid? && DsServed(lib.zone, p.said.ds, DsTarget(asked.cds).Keys, lib.digest, p.found.ttl)
      case Rrsig => true
  }

  ghost predicate AllServed(lib: Library, asked: Asked, probes: seq<Probe>) {
    forall p :: p in probes ==> ProbeServed(lib, asked, p)
  }

  /** Make both checks. */
  method Ask(lib: Library, asked: Asked, now: Time, dnskeyAnswers: Answers<Rr>, dsAnswers: Answers<DsRr>,
             zone: ZoneCheck, soaReached: bool, recordSigned: bool, serialMoved: bool)
    returns (p: Probes)
    requires DigestsDiffer(lib.digest)
    requires (dnskeyAnswers.Some? ==> dnskeyAnswers.value != []) && (dsAnswers.Some? ==> dsAnswers.value != [])
    ensures ProbesChecked(lib, asked, now, p)
    ensures p.dnskeyAnswers == dnskeyAnswers && p.dsAnswers == dsAnswers
  {
    var dnskey := Propagation.ReportDnskeyPropagated(lib.zone, dnskeyAnswers, DnskeyTarget(asked.dnskeys), now);
    var ds := Propagation.ReportDsPropagated(lib.zone, dsAnswers, DsTarget(asked.cds), lib.digest, now);
    p := Probes(dnskey, dnskeyAnswers, ds, dsAnswers, zone, soaReached, recordSigned, serialMoved);
  }

  /** The slot an action looks at. */
  function KindOf(a: Action): Kind
    requires !IsUpdate(a)
  {
    match a
    case ReportDnskeyPropagated | WaitDnskeyPropagated => Dnskey
    case ReportDsPropagated | WaitDsPropagated => Ds
    case ReportRrsigPropagated | WaitRrsigPropagated => Rrsig
  }

  /** All slots in the form of the RRSIG slot. */
  function AsRrsig(s: Slot): RrsigSlot {
    match s
    case Report(ttl) => RrsigReport(ttl)
    case Wait(until) => RrsigWait(until)
  }

  function Lookup(slots: ReportState, k: Kind): Option<RrsigSlot> {
    match k
    case Dnskey => if slots.dnskey.Some? then Some(AsRrsig(slots.dnskey.value)) else None
    case Ds => if slots.ds.Some? then Some(AsRrsig(slots.ds.value)) else None
    case Rrsig => slots.rrsig
  }

  // ----- One action -----

  /** The outcome for one action: the next action's turn, stop and wait, or a
      check that panics. */
  datatype Step = Next(slots: ReportState, ttl: nat, probes: seq<Probe>)
                | Stop(slots: ReportState, until: Time, probes: seq<Probe>)
                | Crash(slots: ReportState, probes: seq<Probe>)

  function Settle(slots: ReportState, k: Kind, found: RrsigSlot, said: Said): Step {
    if found.RrsigReport? then Next(slots, found.ttl, [Probe(k, found, said)])
    else Stop(slots, found.until, [Probe(k, found, said)])
  }

  /** A DNSKEY or DS slot is checked again once its waiting time has come. */
  function SimpleStep(slots: ReportState, k: Kind, now: Time, p: Probes): Step
    requires !k.Rrsig?
  {
    var slot := if k.Dnskey? then slots.dnskey else slots.ds;
    if slot.Some? && slot.value.Report? then Next(slots, slot.value.ttl, [])
    else if slot.Some? && slot.value.until > now then Stop(slots, slot.value.until, [])
    else if k.Dnskey? then Settle(slots.(dnskey := Some(p.dnskey)), k, AsRrsig(p.dnskey), DnskeySaid(p.dnskeyAnswers))
    else if p.ds.None? then Crash(slots, [])
    else Settle(slots.(ds := p.ds), k, AsRrsig(p.ds.value), DsSaid(p.dsAnswers))
  }

  /** An RRSIG slot may first need a smaller check.  If that fails the waiting
      time returned is counted from now; which waiting time is stored differs
      from case to case, and between a report and a plain wait. */
  function RrsigStep(slots: ReportState, reporting: bool, now: Time, p: Probes): Step {
    match slots.rrsig
    case Some(RrsigReport(ttl)) => Next(slots, ttl, [])
    case Some(RrsigWait(until)) =>
      if until > now then Stop(slots, until, []) else CheckZone(slots, now, p)
    case Some(WaitSoa(until, serial, retry, reportTtl)) =>
      if until > now then Stop(slots, until, [])
      else if p.soaReached then
        var found := RrsigReport(reportTtl);
        Next(slots.(rrsig := Some(found)), reportTtl, [Probe(Rrsig, found, RrsigSaid)])
      else
        var again := now + retry * SECOND;
        var found := WaitSoa(if reporting then again else until, serial, retry, reportTtl);
        Stop(slots.(rrsig := Some(found)), again, [Probe(Rrsig, found, RrsigSaid)])
    case Some(WaitRecord(until, owner, rtype, retry)) =>
      if until > now then Stop(slots, until, [])
      else if p.recordSigned then CheckZone(slots, now, p)
      else
        var again := now + retry * SECOND;
        var found := WaitRecord(again, owner, rtype, retry);
        Stop(slots.(rrsig := Some(found)), again, [Probe(Rrsig, found, RrsigSaid)])
    case Some(WaitNextSerial(until, serial, retry)) =>
      if until > now then Stop(slots, until, [])
      else if p.serialMoved then CheckZone(slots, now, p)
      else
        var found := WaitNextSerial(until, serial, retry);
        Stop(slots.(rrsig := Some(found)), now + retry * SECOND, [Probe(Rrsig, found, RrsigSaid)])
    case None => CheckZone(slots, now, p)
  }

  function CheckZone(slots: ReportState, now: Time, p: Probes): Step {
    match RrsigOutcome(p.zone, p.soaReached, now)
    case None => Crash(slots, [])
    case Some(found) => Settle(slots.(rrsig := Some(found)), Rrsig, found, RrsigSaid)
  }

  function ActionStep(a: Action, slots: ReportState, now: Time, p: Probes): Step {
    if IsUpdate(a) then Next(slots, 0, [])
    else
      match KindOf(a)
      case Rrsig => RrsigStep(slots, IsReport(a), now, p)
      case k => SimpleStep(slots, k, now, p)
  }

  // ----- All actions of a roll -----

  /** Take the actions in order until one has to wait. */
  function RunActions(actions: seq<Action>, slots: ReportState, now: Time, p: Probes): Step {
    if actions == [] then Next(slots, 0, [])
    else
      match ActionStep(actions[0], slots, now, p)
      case Stop(slots', until, probes) => Stop(slots', until, probes)
      case Crash(slots', probes) => Crash(slots', probes)
      case Next(slots', ttl, probes) =>
        After(ttl, probes, RunActions(actions[1..], slots', now, p))
  }

  function Max(a: nat, b: nat): nat {
    if a > b then a else b
  }

  /** An outcome, with what earlier actions reported and probed put before it. */
  function After(ttl: nat, probes: seq<Probe>, s: Step): Step {
    match s
    case Stop(slots, until, more) => Stop(slots, until, probes + more)
    case Crash(slots, more) => Crash(slots, probes + more)
    case Next(slots, ttl', more) => Next(slots, Max(ttl, ttl'), probes + more)
  }

  datatype Verdict = Ready | NotBefore(until: Time)

  /** Whether all actions are done or, if not, until when to wait: the same
      question asked without the network. */
  function CheckActions(actions: seq<Action>, slots: ReportState, now: Time): Verdict {
    if actions == [] then Ready
    else if IsUpdate(actions[0]) then CheckActions(actions[1..], slots, now)
    else
      match Lookup(slots, KindOf(actions[0]))
      case None => NotBefore(now)
      case Some(found) =>
        if found.RrsigReport? then CheckActions(actions[1..], slots, now) else NotBefore(found.until)
  }

  // ----- The loops -----

  lemma {:induction false} AfterTwice(t1: nat, p1: seq<Probe>, t2: nat, p2: seq<Probe>, s: Step)
    ensures After(t1, p1, After(t2, p2, s)) == After(Max(t1, t2), p1 + p2, s)
  {
    assert p1 + (p2 + s.probes) == p1 + p2 + s.probes;
  }

  /** Handle the report actions of a propagation state; without a result a
      check has panicked. */
  method AutoReportActions(actions: seq<Action>, before: ReportState, now: Time, p: Probes)
    returns (slots: ReportState, result: Option<Slot>, probes: seq<Probe>)
    requires actions != [] && forall a :: a in actions ==> IsUpdate(a) || IsReport(a)
    ensures RunActions(actions, before, now, p) ==
              match result
              case None => Crash(slots, probes)
              case Some(Report(ttl)) => Next(slots, ttl, probes)
              case Some(Wait(until)) => Stop(slots, until, probes)
  {
    var maxTtl := 0;
    slots, probes := before, [];
    for i := 0 to |actions|
      invariant RunActions(actions, before, now, p) == After(maxTtl, probes, RunActions(actions[i..], slots, now, p))
    {
      assert actions[i..][0] == actions[i] && actions[i..][1..] == actions[i + 1..];
      var step := ActionStep(actions[i], slots, now, p);
      slots := step.slots;
      match step {
        case Crash(_, made) =>
          probes := probes + made;
          return slots, None, probes;
        case Stop(_, until, made) =>
          probes := probes + made;
          return slots, Some(Wait(until)), probes;
        case Next(_, ttl, made) =>
          AfterTwice(maxTtl, probes, ttl, made, RunActions(actions[i + 1..], slots, now, p));
          maxTtl := Max(maxTtl, ttl);
          probes := probes + made;
      }
    }
    result := Some(Report(maxTtl));
  }

  /** Handle the wait actions of a roll that is done; there is no TTL to report. */
  method AutoWaitActions(actions: seq<Action>, before: ReportState, now: Time, p: Probes)
    returns (slots: ReportState, result: Option<Verdict>, probes: seq<Probe>)
    requires forall a :: a in actions ==> IsUpdate(a) || IsWait(a)
    ensures var run := RunActions(actions, before, now, p);
            && slots == run.slots && probes == run.probes
            && match result
               case None => run.Crash?
               case Some(Ready) => run.Next?
               case Some(NotBefore(until)) => run.Stop? && run.until == until
  {
    slots, probes := before, [];
    ghost var maxTtl := 0;
    for i := 0 to |actions|
      invariant RunActions(actions, before, now, p) == After(maxTtl, probes, RunActions(actions[i..], slots, now, p))
    {
      assert actions[i..][0] == actions[i] && actions[i..][1..] == actions[i + 1..];
      var step := ActionStep(actions[i], slots, now, p);
      slots := step.slots;
      if !step.Next? {
        probes := probes + step.probes;
        return slots, if step.Stop? then Some(NotBefore(step.until)) else None, probes;
      }
      AfterTwice(maxTtl, probes, step.ttl, step.probes, RunActions(actions[i + 1..], slots, now, p));
      maxTtl := Max(maxTtl, step.ttl);
      probes := probes + step.probes;
    }
    result := Some(Ready);
  }

  /** Check whether automatic actions are done. */
  method CheckAutoActions(actions: seq<Action>, slots: ReportState, now: Time) returns (v: Verdict)
    ensures v == CheckActions(actions, slots, now)
  {
    for i := 0 to |actions|
      invariant CheckActions(actions, slots, now) == CheckActions(actions[i..], slots, now)
    {
      assert actions[i..][1..] == actions[i + 1..];
      if IsUpdate(actions[i]) {
        continue;
      }
      match Lookup(slots, KindOf(actions[i])) {
        case None => return NotBefore(now);
        case Some(found) =>
          if !found.RrsigReport? {
            return NotBefore(found.until);
          }
      }
    }
    v := Ready;
  }

  // ----- What they agree on -----

  /** All slots the actions look at hold a report. */
  predicate AllReported(actions: seq<Action>, slots: ReportState) {
    forall a :: a in actions && !IsUpdate(a) ==>
                  Lookup(slots, KindOf(a)).Some? && Lookup(slots, KindOf(a)).value.RrsigReport?
  }

  /** The largest TTL among these slots. */
  function MaxTtl(actions: seq<Action>, slots: ReportState): nat
    requires AllReported(actions, slots)
  {
    if actions == [] then 0
    else if IsUpdate(actions[0]) then MaxTtl(actions[1..], slots)
    else Max(Lookup(slots, KindOf(actions[0])).value.ttl, MaxTtl(actions[1..], slots))
  }

  lemma {:induction false} ReadyMeansReported(actions: seq<Action>, slots: ReportState, now: Time)
    ensures CheckActions(actions, slots, now).Ready? <==> AllReported(actions, slots)
  {
    if actions != [] {
      ReadyMeansReported(actions[1..], slots, now);
      assert forall a :: a in actions <==> a == actions[0] || a in actions[1..];
    }
  }

  /** A check has been made, or has panicked. */
  predicate Checked(s: Step) {
    s.Crash? || s.probes != []
  }

  lemma StepByLookup(a: Action, slots: ReportState, now: Time, p: Probes)
    requires !IsUpdate(a)
    ensures var step := ActionStep(a, slots, now, p);
            match Lookup(slots, KindOf(a))
            case None => Checked(step)
            case Some(found) =>
              if found.RrsigReport? then step == Next(slots, found.ttl, [])
              else if now < found.until then step == Stop(slots, found.until, [])
              else Checked(step)
  {
  }

  /** The check made earlier predicts what a run at a later time does: with
      all actions done it reports, before the predicted time it waits until
      exactly that time and changes nothing, from that time on it makes a check. */
  lemma {:induction false} CheckPredictsRun(actions: seq<Action>, slots: ReportState, earlier: Time, now: Time,
                                            p: Probes)
    requires earlier <= now
    ensures var run := RunActions(actions, slots, now, p);
            match CheckActions(actions, slots, earlier)
            case Ready => AllReported(actions, slots) && run == Next(slots, MaxTtl(actions, slots), [])
            case NotBefore(until) => if now < until then run == Stop(slots, until, []) else Checked(run)
  {
    ReadyMeansReported(actions, slots, earlier);
    if actions != [] {
      ReadyMeansReported(actions[1..], slots, earlier);
      if IsUpdate(actions[0]) {
        CheckPredictsRun(actions[1..], slots, earlier, now, p);
      } else {
        StepByLookup(actions[0], slots, now, p);
        var found := Lookup(slots, KindOf(actions[0]));
        if found.Some? && found.value.RrsigReport? {
          CheckPredictsRun(actions[1..], slots, earlier, now, p);
        }
      }
    }
  }

  /** A slot with a report is never probed again and keeps its report. */
  lemma {:induction false} ReportsAreSticky(actions: seq<Action>, slots: ReportState, now: Time, p: Probes, k: Kind)
    requires Lookup(slots, k).Some? && Lookup(slots, k).value.RrsigReport?
    ensures var run := RunActions(actions, slots, now, p);
            && Lookup(run.slots, k) == Lookup(slots, k)
            && forall i :: 0 <= i < |run.probes| ==> run.probes[i].kind != k
  {
    if actions != [] {
      var step := ActionStep(actions[0], slots, now, p);
      StepSticks(actions[0], slots, now, p, k);
      if step.Next? {
        ReportsAreSticky(actions[1..], step.slots, now, p, k);
      }
    }
  }

  lemma StepSticks(a: Action, slots: ReportState, now: Time, p: Probes, k: Kind)
    requires Lookup(slots, k).Some? && Lookup(slots, k).value.RrsigReport?
    ensures var step := ActionStep(a, slots, now, p);
            && Lookup(step.slots, k) == Lookup(slots, k)
            && forall i :: 0 <= i < |step.probes| ==> step.probes[i].kind != k
  {
  }

  lemma StepReports(a: Action, slots: ReportState, now: Time, p: Probes)
    requires ActionStep(a, slots, now, p).Next?
    ensures var step := ActionStep(a, slots, now, p);
            if IsUpdate(a) then step.ttl == 0
            else Lookup(step.slots, KindOf(a)) == Some(RrsigReport(step.ttl))
  {
  }

  /** A run that ends with a TTL leaves a report in every slot it had to look
      at, and the TTL is the largest of them. */
  lemma {:induction false} RunReportsMaximum(actions: seq<Action>, slots: ReportState, now: Time, p: Probes)
    requires RunActions(actions, slots, now, p).Next?
    ensures var run := RunActions(actions, slots, now, p);
            AllReported(actions, run.slots) && run.ttl == MaxTtl(actions, run.slots)
  {
    if actions != [] {
      var step := ActionStep(actions[0], slots, now, p);
      var rest := RunActions(actions[1..], step.slots, now, p);
      StepReports(actions[0], slots, now, p);
      RunReportsMaximum(actions[1..], step.slots, now, p);
      if !IsUpdate(actions[0]) {
        ReportsAreSticky(actions[1..], step.slots, now, p, KindOf(actions[0]));
        assert Lookup(rest.slots, KindOf(actions[0])) == Some(RrsigReport(step.ttl));
      }
      forall a | a in actions && !IsUpdate(a)
        ensures Lookup(rest.slots, KindOf(a)).Some? && Lookup(rest.slots, KindOf(a)).value.RrsigReport?
      {
        assert a == actions[0] || a in actions[1..];
      }
    }
  }

  lemma {:induction false} MaxTtlIsMaximum(actions: seq<Action>, slots: ReportState)
    requires AllReported(actions, slots)
    ensures forall a :: a in actions && !IsUpdate(a) ==>
                          Lookup(slots, KindOf(a)).value.ttl <= MaxTtl(actions, slots)
    ensures MaxTtl(actions, slots) == 0 ||
            exists a :: a in actions && !IsUpdate(a) && Lookup(slots, KindOf(a)).value.ttl == MaxTtl(actions, slots)
  {
    if actions != [] {
      MaxTtlIsMaximum(actions[1..], slots);
      assert forall a :: a in actions <==> a == actions[0] || a in actions[1..];
    }
  }

  /** What a slot holds after a run was there before or was found by a probe of the run. */
  lemma {:induction false} SlotsComeFromProbes(actions: seq<Action>, slots: ReportState, now: Time, p: Probes, k: Kind)
    ensures var run := RunActions(actions, slots, now, p);
            Lookup(run.slots, k) == Lookup(slots, k) ||
            exists i :: && 0 <= i < |run.probes| && run.probes[i].kind == k
                        && Lookup(run.slots, k) == Some(run.probes[i].found)
  {
    if actions != [] {
      var step := ActionStep(actions[0], slots, now, p);
      StepSlots(actions[0], slots, now, p, k);
      if step.Next? {
        SlotsComeFromProbes(actions[1..], step.slots, now, p, k);
        var run, rest := RunActions(actions, slots, now, p), RunActions(actions[1..], step.slots, now, p);
        forall i | 0 <= i < |rest.probes| ensures run.probes[|step.probes| + i] == rest.probes[i] {}
        if step.probes != [] {
          assert run.probes[0] == step.probes[0];
        }
      }
    }
  }

  lemma StepSlots(a: Action, slots: ReportState, now: Time, p: Probes, k: Kind)
    ensures var step := ActionStep(a, slots, now, p);
            Lookup(step.slots, k) == Lookup(slots, k) ||
            (step.probes != [] && step.probes[0].kind == k && Lookup(step.slots, k) == Some(step.probes[0].found))
  {
  }

  /** No check of a run reports without every server having what is kept. */
  lemma {:induction false} ProbesAreSafe(actions: seq<Action>, slots: ReportState, now: Time, p: Probes, lib: Library,
                                         asked: Asked)
    requires ProbesChecked(lib, asked, now, p)
    ensures AllServed(lib, asked, RunActions(actions, slots, now, p).probes)
  {
    ChecksServe(lib, asked, now, p);
    RunIsSafe(actions, slots, now, p, lib, asked);
  }

  function DnskeyProbe(p: Probes): Probe {
    Probe(Dnskey, AsRrsig(p.dnskey), DnskeySaid(p.dnskeyAnswers))
  }

  function DsProbe(p: Probes): Probe
    requires p.ds.Some?
  {
    Probe(Ds, AsRrsig(p.ds.value), DsSaid(p.dsAnswers))
  }

  lemma {:induction false} ChecksServe(lib: Library, asked: Asked, now: Time, p: Probes)
    requires ProbesChecked(lib, asked, now, p)
    ensures ProbeServed(lib, asked, DnskeyProbe(p))
    ensures p.ds.Some? ==> ProbeServed(lib, asked, DsProbe(p))
  {
    if p.dnskey.Report? {
      ReportMeansDnskeyServed(lib.zone, p.dnskeyAnswers, DnskeyTarget(asked.dnskeys), now, p.dnskey);
    }
    if p.ds.Some? && p.ds.value.Report? {
      ReportMeansDsServed(lib.zone, p.dsAnswers, DsTarget(asked.cds), lib.digest, now, p.ds.value);
    }
  }

  lemma {:induction false} RunIsSafe(actions: seq<Action>, slots: ReportState, now: Time, p: Probes, lib: Library,
                                     asked: Asked)
    requires ProbeServed(lib, asked, DnskeyProbe(p)) && (p.ds.Some? ==> ProbeServed(lib, asked, DsProbe(p)))
    ensures AllServed(lib, asked, RunActions(actions, slots, now, p).probes)
  {
    if actions != [] {
      var step := ActionStep(actions[0], slots, now, p);
      StepProbes(actions[0], slots, now, p);
      assert AllServed(lib, asked, step.probes);
      if step.Next? {
        RunIsSafe(actions[1..], step.slots, now, p, lib, asked);
        var rest := RunActions(actions[1..], step.slots, now, p);
        assert RunActions(actions, slots, now, p).probes == step.probes + rest.probes;
      }
    }
  }

  /** The check an action makes, if any. */
  lemma StepProbes(a: Action, slots: ReportState, now: Time, p: Probes)
    ensures var probes := ActionStep(a, slots, now, p).probes;
            || probes == []
            || probes == [DnskeyProbe(p)]
            || (p.ds.Some? && probes == [DsProbe(p)])
            || (|probes| == 1 && probes[0].kind == Rrsig)
  {
  }

  // ----- Checks that panic -----

  /** The RRSIG slot asks for a check of the whole zone. */
  predicate ZoneDue(slots: ReportState, now: Time, p: Probes) {
    match slots.rrsig
    case None => true
    case Some(RrsigWait(until)) => until <= now
    case Some(WaitRecord(until, _, _, _)) => until <= now && p.recordSigned
    case Some(WaitNextSerial(until, _, _)) => until <= now && p.serialMoved
    case _ => false
  }

  predicate DsDue(slots: ReportState, now: Time) {
    slots.ds.None? || (slots.ds.value.Wait? && slots.ds.value.until <= now)
  }

  /** A check that is due has no outcome: a DS record of an unknown type, or a
      zone of which nothing is missing. */
  predicate Crashes(a: Action, slots: ReportState, now: Time, p: Probes) {
    && !IsUpdate(a)
    && match KindOf(a)
       case Dnskey => false
       case Ds => DsDue(slots, now) && p.ds.None?
       case Rrsig => ZoneDue(slots, now, p) && p.zone.ZoneAllDone?
  }

  lemma StepCrashes(a: Action, slots: ReportState, now: Time, p: Probes)
    ensures ActionStep(a, slots, now, p).Crash? <==> Crashes(a, slots, now, p)
  {
  }

  /** The first action that, with the slots as they are before the pass, does
      not let the next one have its turn, panics. */
  predicate PassCrashes(actions: seq<Action>, slots: ReportState, now: Time, p: Probes) {
    exists i :: 0 <= i < |actions| && CrashesFirst(actions, slots, now, p, i)
  }

  predicate CrashesFirst(actions: seq<Action>, slots: ReportState, now: Time, p: Probes, i: nat)
    requires i < |actions|
  {
    && Crashes(actions[i], slots, now, p)
    && forall j :: 0 <= j < i ==> ActionStep(actions[j], slots, now, p).Next?
  }

  /** Whether a pass panics can be told from the slots before it. */
  lemma {:induction false} PassCrashesExactly(actions: seq<Action>, slots: ReportState, now: Time, p: Probes)
    ensures RunActions(actions, slots, now, p).Crash? <==> PassCrashes(actions, slots, now, p)
  {
    if actions != [] {
      var step := ActionStep(actions[0], slots, now, p);
      var rest := actions[1..];
      StepCrashes(actions[0], slots, now, p);
      if step.Next? {
        PassCrashesExactly(rest, step.slots, now, p);
        forall a ensures SameOutcome(a, slots, step.slots, now, p) {
          PassedBefore(actions[0], a, slots, now, p);
        }
        CrashesLater(actions, slots, step.slots, now, p);
      } else {
        FirstOneDecides(actions, slots, now, p);
      }
    }
  }

  predicate SameOutcome(a: Action, slots: ReportState, slots': ReportState, now: Time, p: Probes) {
    && (Crashes(a, slots, now, p) <==> Crashes(a, slots', now, p))
    && (ActionStep(a, slots, now, p).Next? <==> ActionStep(a, slots', now, p).Next?)
  }

  /** An action that has passed changes what another one does in no respect. */
  lemma {:induction false} PassedBefore(first: Action, a: Action, slots: ReportState, now: Time, p: Probes)
    requires ActionStep(first, slots, now, p).Next?
    ensures SameOutcome(a, slots, ActionStep(first, slots, now, p).slots, now, p)
  {
    var after := ActionStep(first, slots, now, p).slots;
    OtherSlotsStay(first, slots, now, p);
    if !IsUpdate(a) {
      if !IsUpdate(first) && KindOf(first) == KindOf(a) {
        StepReports(first, slots, now, p);
        ReportPasses(a, after, now, p);
        SameKindPasses(first, a, slots, now, p);
      } else {
        OneSlotMatters(a, slots, after, now, p);
      }
    }
  }

  lemma OtherSlotsStay(a: Action, slots: ReportState, now: Time, p: Probes)
    ensures var after := ActionStep(a, slots, now, p).slots;
            forall k :: IsUpdate(a) || KindOf(a) != k ==> Lookup(after, k) == Lookup(slots, k)
  {
  }

  lemma ReportPasses(a: Action, slots: ReportState, now: Time, p: Probes)
    requires !IsUpdate(a) && Lookup(slots, KindOf(a)).Some? && Lookup(slots, KindOf(a)).value.RrsigReport?
    ensures ActionStep(a, slots, now, p).Next? && !Crashes(a, slots, now, p)
  {
  }

  lemma SameKindPasses(first: Action, a: Action, slots: ReportState, now: Time, p: Probes)
    requires !IsUpdate(first) && !IsUpdate(a) && KindOf(first) == KindOf(a) && ActionStep(first, slots, now, p).Next?
    ensures ActionStep(a, slots, now, p).Next? && !Crashes(a, slots, now, p)
  {
  }

  lemma OneSlotMatters(a: Action, slots: ReportState, slots': ReportState, now: Time, p: Probes)
    requires !IsUpdate(a) && Lookup(slots, KindOf(a)) == Lookup(slots', KindOf(a))
    ensures SameOutcome(a, slots, slots', now, p)
  {
  }

  lemma {:induction false} CrashesLater(actions: seq<Action>, slots: ReportState, slots': ReportState, now: Time,
                                        p: Probes)
    requires actions != [] && ActionStep(actions[0], slots, now, p).Next?
    requires forall a :: SameOutcome(a, slots, slots', now, p)
    ensures PassCrashes(actions, slots, now, p) <==> PassCrashes(actions[1..], slots', now, p)
  {
    var rest := actions[1..];
    StepCrashes(actions[0], slots, now, p);
    forall i | 0 <= i < |rest|
      ensures CrashesFirst(rest, slots', now, p, i) <==> CrashesFirst(actions, slots, now, p, i + 1)
    {
      assert SameOutcome(rest[i], slots, slots', now, p);
      forall j | 0 <= j < i ensures SameOutcome(rest[j], slots, slots', now, p) {}
      if CrashesFirst(rest, slots', now, p, i) {
        forall j | 0 <= j < i + 1 ensures ActionStep(actions[j], slots, now, p).Next? {
          assert j > 0 ==> actions[j] == rest[j - 1];
        }
      }
      if CrashesFirst(actions, slots, now, p, i + 1) {
        forall j | 0 <= j < i ensures ActionStep(rest[j], slots', now, p).Next? {
          assert rest[j] == actions[j + 1];
        }
      }
    }
    if PassCrashes(actions, slots, now, p) {
      var i :| 0 <= i < |actions| && CrashesFirst(actions, slots, now, p, i);
      assert CrashesFirst(rest, slots', now, p, i - 1);
    }
    if PassCrashes(rest, slots', now, p) {
      var i :| 0 <= i < |rest| && CrashesFirst(rest, slots', now, p, i);
      var next := i + 1;
      assert CrashesFirst(actions, slots, now, p, next);
    }
  }

  lemma {:induction false} FirstOneDecides(actions: seq<Action>, slots: ReportState, now: Time, p: Probes)
    requires actions != [] && !ActionStep(actions[0], slots, now, p).Next?
    ensures PassCrashes(actions, slots, now, p) <==> Crashes(actions[0], slots, now, p)
  {
    if Crashes(actions[0], slots, now, p) {
      assert CrashesFirst(actions, slots, now, p, 0);
    }
  }

  /** So an RRSIG slot gets a report only by way of a look for the SOA that has
      failed, in the same check or in an earlier one. */
  lemma ReportAfterMissingSoa(a: Action, slots: ReportState, now: Time, p: Probes)
    requires !IsUpdate(a) && KindOf(a).Rrsig?
    requires !(slots.rrsig.Some? && slots.rrsig.value.RrsigReport?)
    ensures var step := ActionStep(a, slots, now, p);
            step.Next? <==>
              && p.soaReached
              && ((slots.rrsig.Some? && slots.rrsig.value.WaitSoa? && slots.rrsig.value.until <= now) ||
                  (ZoneDue(slots, now, p) && p.zone.ZoneLacksSoa?))
  {
  }

  // ----- What a check passes on -----

  /** The answers say that the check of kind `k` reports with this TTL: the
      outcome of the DNSKEY or DS check, or, for signatures, the TTL kept with
      the missing SOA or found with it just now. */
  predicate Given(k: Kind, slots: ReportState, now: Time, p: Probes, ttl: nat) {
    match k
    case Dnskey => p.dnskey == Report(ttl)
    case Ds => p.ds == Some(Report(ttl))
    case Rrsig =>
      p.soaReached &&
      match slots.rrsig
      case Some(WaitSoa(_, _, _, reportTtl)) => ttl == reportTtl
      case _ => p.zone.ZoneLacksSoa? && ttl == p.zone.reportTtl
  }

  lemma StepGives(a: Action, slots: ReportState, now: Time, p: Probes, k: Kind, ttl: nat)
    requires var step := ActionStep(a, slots, now, p);
             Lookup(step.slots, k) != Lookup(slots, k) && Lookup(step.slots, k) == Some(RrsigReport(ttl))
    ensures !IsUpdate(a) && KindOf(a) == k && Given(k, slots, now, p, ttl)
    ensures ActionStep(a, slots, now, p).Next? && ActionStep(a, slots, now, p).ttl == ttl
  {
  }

  /** A report that a pass puts into a slot carries the TTL it was given, and
      the pass returns no less. */
  lemma {:induction false} ReportsPassOn(actions: seq<Action>, slots: ReportState, now: Time, p: Probes, k: Kind,
                                         ttl: nat)
    requires var run := RunActions(actions, slots, now, p);
             Lookup(run.slots, k) != Lookup(slots, k) && Lookup(run.slots, k) == Some(RrsigReport(ttl))
    ensures Given(k, slots, now, p, ttl)
    ensures var run := RunActions(actions, slots, now, p);
            run.Next? ==> ttl <= run.ttl
  {
    var step := ActionStep(actions[0], slots, now, p);
    if Lookup(step.slots, k) == Lookup(slots, k) {
      ReportsPassOn(actions[1..], step.slots, now, p, k, ttl);
    } else if step.Next? {
      StepReports(actions[0], slots, now, p);
      OtherSlotsStay(actions[0], slots, now, p);
      var found := Lookup(step.slots, k).value;
      ReportsAreSticky(actions[1..], step.slots, now, p, k);
      StepGives(actions[0], slots, now, p, k, ttl);
    } else {
      StepGives(actions[0], slots, now, p, k, ttl);
    }
  }

  /** A failed RRSIG check asks for as many seconds from now as its record or
      SOA says, or for ten minutes, and remembers what it was waiting for. */
  lemma FailedCheckAsksAgain(a: Action, slots: ReportState, now: Time, p: Probes)
    requires !IsUpdate(a) && KindOf(a).Rrsig?
    requires ActionStep(a, slots, now, p).Stop? && ActionStep(a, slots, now, p).probes != []
    ensures var step := ActionStep(a, slots, now, p);
            && step.slots.rrsig.Some?
            && match (slots.rrsig, step.slots.rrsig.value)
               case (Some(WaitSoa(_, serial, retry, ttl)), after) =>
                 && !p.soaReached && step.until == now + retry * SECOND
                 && after.WaitSoa? && (after.serial, after.retry, after.reportTtl) == (serial, retry, ttl)
               case (slot, WaitSoa(until, serial, retry, ttl)) =>
                 && step.until == until == now + retry * SECOND
                 && !p.soaReached && p.zone == ZoneLacksSoa(serial, retry, ttl)
               case (slot, WaitRecord(until, owner, rtype, retry)) =>
                 && step.until == until == now + retry * SECOND
                 && (p.zone == ZoneLacksRecord(owner, rtype, retry) ||
                     (slot.Some? && !p.recordSigned && slot.value.WaitRecord?
                      && (slot.value.owner, slot.value.rtype, slot.value.retry) == (owner, rtype, retry)))
               case (slot, WaitNextSerial(_, serial, retry)) =>
                 && step.until == now + retry * SECOND
                 && (p.zone == ZoneLacksNsec3(serial, retry) ||
                     (slot.Some? && !p.serialMoved && slot.value.WaitNextSerial?
                      && (slot.value.serial, slot.value.retry) == (serial, retry)))
               case (slot, RrsigWait(until)) => step.until == until == now + 600 * SECOND && p.zone.ZoneFails?
               case _ => false
  {
  }

  /** A failed DNSKEY or DS check asks for what the check said. */
  lemma FailedSimpleCheck(a: Action, slots: ReportState, now: Time, p: Probes)
    requires !IsUpdate(a) && !KindOf(a).Rrsig?
    requires ActionStep(a, slots, now, p).Stop? && ActionStep(a, slots, now, p).probes != []
    ensures var step := ActionStep(a, slots, now, p);
            if KindOf(a).Dnskey? then p.dnskey == Wait(step.until) && step.slots == slots.(dnskey := Some(p.dnskey))
            else p.ds == Some(Wait(step.until)) && step.slots == slots.(ds := p.ds)
  {
  }

  predicate StopsFirst(actions: seq<Action>, slots: ReportState, now: Time, p: Probes, i: nat, until: Time)
    requires i < |actions|
  {
    && ActionStep(actions[i], slots, now, p).Stop? && ActionStep(actions[i], slots, now, p).until == until
    && forall j :: 0 <= j < i ==> ActionStep(actions[j], slots, now, p).Next?
  }

  /** A pass that waits asks for what its first action that does not pass asks
      for, with the slots as they are before the pass. */
  lemma {:induction false} PassWaitsFor(actions: seq<Action>, slots: ReportState, now: Time, p: Probes) returns (i: nat)
    requires RunActions(actions, slots, now, p).Stop?
    ensures i < |actions| && StopsFirst(actions, slots, now, p, i, RunActions(actions, slots, now, p).until)
  {
    var step := ActionStep(actions[0], slots, now, p);
    if step.Stop? {
      i := 0;
    } else {
      var later := PassWaitsFor(actions[1..], step.slots, now, p);
      i := later + 1;
      forall j | 0 <= j < i ensures ActionStep(actions[j], slots, now, p).Next? {
        if j > 0 {
          assert actions[1..][j - 1] == actions[j];
          PassedBefore(actions[0], actions[j], slots, now, p);
        }
      }
      PassedBefore(actions[0], actions[i], slots, now, p);
      WaitsAlike(actions[0], actions[i], slots, now, p);
    }
  }

  lemma {:induction false} WaitsAlike(first: Action, a: Action, slots: ReportState, now: Time, p: Probes)
    requires ActionStep(first, slots, now, p).Next?
    requires ActionStep(a, ActionStep(first, slots, now, p).slots, now, p).Stop?
    ensures ActionStep(a, slots, now, p).Stop?
    ensures ActionStep(a, slots, now, p).until == ActionStep(a, ActionStep(first, slots, now, p).slots, now, p).until
  {
    var after := ActionStep(first, slots, now, p).slots;
    OtherSlotsStay(first, slots, now, p);
    if !IsUpdate(first) && KindOf(first) == KindOf(a) {
      StepReports(first, slots, now, p);
      ReportPasses(a, after, now, p);
    } else {
      SameSlotWaits(a, slots, after, now, p);
    }
  }

  lemma SameSlotWaits(a: Action, slots: ReportState, slots': ReportState, now: Time, p: Probes)
    requires !IsUpdate(a) && Lookup(slots, KindOf(a)) == Lookup(slots', KindOf(a))
    requires ActionStep(a, slots', now, p).Stop?
    ensures ActionStep(a, slots, now, p).Stop?
    ensures ActionStep(a, slots, now, p).until == ActionStep(a, slots', now, p).until
  {
  }

  // ----- Waiting again after a failed check -----

  /** The failed checks that put the old waiting time back, earlier than the new one. */
  predicate KeepsOldTime(a: Action, slots: ReportState, now: Time, p: Probes) {
    && !IsUpdate(a) && KindOf(a).Rrsig? && slots.rrsig.Some?
    && match slots.rrsig.value
       case WaitSoa(until, _, retry, _) => until <= now && !p.soaReached && IsWait(a) && until < now + retry * SECOND
       case WaitNextSerial(until, _, retry) => until <= now && !p.serialMoved && until < now + retry * SECOND
       case _ => false
  }

  /** Some action reached by the run keeps the old time. */
  predicate StaleWait(actions: seq<Action>, slots: ReportState, now: Time, p: Probes) {
    if actions == [] then false
    else
      var step := ActionStep(actions[0], slots, now, p);
      if step.Stop? then KeepsOldTime(actions[0], slots, now, p) else StaleWait(actions[1..], step.slots, now, p)
  }

  /** A run that has to wait leaves a state whose check asks for the same
      time, unless a failed SOA or serial check has kept an old time; then
      the check asks for a time that has already come. */
  lemma {:induction false} WaitIsRemembered(actions: seq<Action>, slots: ReportState, now: Time, p: Probes)
    requires RunActions(actions, slots, now, p).Stop?
    ensures var run := RunActions(actions, slots, now, p);
            var check := CheckActions(actions, run.slots, now);
            && check.NotBefore?
            && (check.until == run.until <==> !StaleWait(actions, slots, now, p))
            && (StaleWait(actions, slots, now, p) ==> check.until <= now)
  {
    var step := ActionStep(actions[0], slots, now, p);
    if step.Next? {
      WaitIsRemembered(actions[1..], step.slots, now, p);
      if !IsUpdate(actions[0]) {
        StepReports(actions[0], slots, now, p);
        ReportsAreSticky(actions[1..], step.slots, now, p, KindOf(actions[0]));
      }
    } else {
      WaitIsStored(actions[0], slots, now, p);
    }
  }

  lemma WaitIsStored(a: Action, slots: ReportState, now: Time, p: Probes)
    requires ActionStep(a, slots, now, p).Stop?
    ensures var step := ActionStep(a, slots, now, p);
            && !IsUpdate(a)
            && var found := Lookup(step.slots, KindOf(a));
            && found.Some? && !found.value.RrsigReport?
            && (found.value.until == step.until <==> !KeepsOldTime(a, slots, now, p))
            && (KeepsOldTime(a, slots, now, p) ==> found.value.until <= now)
  {
  }

  /** The exception is real: after this failed serial check the stored time is
      in the past although the run asked to wait for five more minutes. */
  lemma {:induction false} StaleWaitHappens()
    ensures var p := Probes(Wait(0), None, None, None, ZoneFails, false, false, false);
            var slots := ReportState(None, None, Some(WaitNextSerial(100 * SECOND, 7, 300)));
            var run := RunActions([ReportRrsigPropagated], slots, 200 * SECOND, p);
            run.Stop? && run.until == 500 * SECOND &&
            CheckActions([ReportRrsigPropagated], run.slots, 200 * SECOND) == NotBefore(100 * SECOND)
  {
    var p := Probes(Wait(0), None, None, None, ZoneFails, false, false, false);
    var slots := ReportState(None, None, Some(WaitNextSerial(100 * SECOND, 7, 300)));
    assert ActionStep(ReportRrsigPropagated, slots, 200 * SECOND, p).until == 200 * SECOND + 300 * SECOND;
    assert CheckActions([ReportRrsigPropagated], slots, 200 * SECOND) == NotBefore(100 * SECOND);
  }
}
