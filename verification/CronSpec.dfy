/** What one run of the cron subcommand does, step by step, as functions. */
module CronSpec {
  import opened Wrappers
  import opened Records
  import opened KeySets
  import opened ReportSlots

  // ----- Configuration and persistent state -----

  datatype AutoConfig = AutoConfig(start: bool, report: bool, expire: bool, done: bool)

  datatype Config = Config(
    useCsk: bool,
    algorithm: nat,
    kskDoubleDs: bool,
    zskDoubleSignature: bool,
    kskValidity: Option<Time>,
    zskValidity: Option<Time>,
    cskValidity: Option<Time>,
    autoKsk: AutoConfig,
    autoZsk: AutoConfig,
    autoCsk: AutoConfig,
    autoAlgorithm: AutoConfig,
    dnskeyRemain: Time,
    cdsRemain: Time,
    autoremove: bool,
    autoremoveDelay: Time
  )

  datatype RollStateReports = RollStateReports(propagation1: ReportState, propagation2: ReportState, done: ReportState)

  const NO_REPORTS := RollStateReports(EMPTY, EMPTY, EMPTY)

  datatype State = State(
    keyset: KeySet,
    dnskeyRrset: Rrset,
    cdsRrset: Rrset,
    dsRrset: Rrset,
    internal: map<RollType, RollStateReports>,
    cronNext: Option<Time>
  )

  datatype StartKind = StartKsk | StartZsk | StartCsk | StartAlgorithm

  /** Everything outside this program that one run meets: key generation,
      signing, the network and the removal of key files.  A `None` or `false`
      is an error of that operation.  `clock` is the time the library notes
      down when it changes keys. */
  datatype World = World(
    signDnskeys: Keys -> Option<Rrset>,
    makeCds: Keys -> Option<Rrset>,
    makeDs: Keys -> Option<Rrset>,
    newKeys: (Keys, StartKind) -> Option<(Keys, set<PubRef>)>,
    clock: Time,
    probes: (RollType, State) -> Probes,
    removable: PubRef -> bool
  )

  ghost predicate WorldOk(w: World) {
    forall keys, kind :: StaleWithdrawn(keys) && w.newKeys(keys, kind).Some? ==>
                           StaleWithdrawn(w.newKeys(keys, kind).value.0)
  }

  /** The report map has an entry for exactly the rolls in progress. */
  ghost predicate Valid(st: State) {
    st.internal.Keys == st.keyset.rolls.Keys && StaleWithdrawn(st.keyset.keys)
  }

  // ----- Runs -----

  /** A step that was tried. */
  datatype Event =
    | Renew(rrset: string)
    | Start(roll: RollType)
    | Check(roll: RollType, during: RollState, probe: Probe, asked: Asked)
    | Crashed(roll: RollType, during: RollState)
    | Complete(roll: RollType, from: RollState, ttl: nat)
    | Expire(roll: RollType)
    | Finish(roll: RollType)
    | Remove(refs: set<PubRef>)

  datatype Status = Running | Error | Panic

  /** How far a run has got: its state, the steps tried so far, and whether it goes on. */
  datatype Run = Run(state: State, log: seq<Event>, status: Status)

  function Fail(run: Run): Run {
    run.(status := Error)
  }

  // ----- Signatures -----

  /** Some signature ends before the required remaining time is over. */
  predicate SigRenew(rrset: Rrset, remain: Time, now: Time) {
    exists i :: 0 <= i < |rrset| && rrset[i].data.RrsigData? && Secs(now) + Secs(remain) > rrset[i].data.expiration
  }

  function RenewDnskey(cfg: Config, w: World, now: Time, run: Run): Run {
    if !run.status.Running? || !SigRenew(run.state.dnskeyRrset, cfg.dnskeyRemain, now) then run
    else UpdateDnskey(w, run.(log := run.log + [Renew("DNSKEY")]))
  }

  function RenewCds(cfg: Config, w: World, now: Time, run: Run): Run {
    if !run.status.Running? || !SigRenew(run.state.cdsRrset, cfg.cdsRemain, now) then run
    else CreateCds(w, run.(log := run.log + [Renew("CDS")]))
  }

  // ----- RRsets -----

  function UpdateDnskey(w: World, run: Run): Run {
    match w.signDnskeys(run.state.keyset.keys)
    case None => Fail(run)
    case Some(rrset) => run.(state := run.state.(dnskeyRrset := rrset))
  }

  function CreateCds(w: World, run: Run): Run {
    match w.makeCds(run.state.keyset.keys)
    case None => Fail(run)
    case Some(rrset) => run.(state := run.state.(cdsRrset := rrset))
  }

  function UpdateDs(w: World, run: Run): Run {
    match w.makeDs(run.state.keyset.keys)
    case None => Fail(run)
    case Some(rrset) => run.(state := run.state.(dsRrset := rrset))
  }

  function HandleAction(a: Action, w: World, run: Run): Run {
    match a
    case UpdateDnskeyRrset => UpdateDnskey(w, run)
    case CreateCdsRrset => CreateCds(w, run)
    case RemoveCdsRrset => run.(state := run.state.(cdsRrset := []))
    case UpdateDsRrset => UpdateDs(w, run)
    case _ => run
  }

  function HandleActions(actions: seq<Action>, w: World, run: Run): Run {
    if actions == [] || !run.status.Running? then run
    else HandleActions(actions[1..], w, HandleAction(actions[0], w, run))
  }

  // ----- Starting rolls -----

  datatype KeyKind = AnyKsk | AnyZsk | AnyCsk

  predicate OfKind(k: Key, kind: KeyKind) {
    match kind
    case AnyKsk => k.keytype.Ksk?
    case AnyZsk => k.keytype.Zsk?
    case AnyCsk => k.keytype.Csk?
  }

  function RollOf(kind: StartKind, cfg: Config): RollType {
    match kind
    case StartKsk => if cfg.kskDoubleDs then KskDoubleDsRoll else KskRoll
    case StartZsk => if cfg.zskDoubleSignature then ZskDoubleSignatureRoll else ZskRoll
    case StartCsk => CskRoll
    case StartAlgorithm => AlgorithmRoll
  }

  /** A KSK or ZSK roll is refused for a zone that has or wants a CSK. */
  predicate WrongRoll(kind: StartKind, cfg: Config, keys: Keys) {
    && (kind.StartKsk? || kind.StartZsk?)
    && (cfg.useCsk || exists p :: p in keys && keys[p].keytype.Csk? && !Stale(keys[p]))
  }

  /** The keys a roll replaces. */
  function Retired(kind: StartKind, keys: Keys): set<PubRef> {
    set p | p in keys && !Stale(keys[p]) &&
            match kind
            case StartKsk => keys[p].keytype.Ksk?
            case StartZsk => keys[p].keytype.Zsk?
            case _ => !keys[p].keytype.Include?
  }

  function StartKey(kind: StartKind, cfg: Config, lib: Library, w: World, before: Run): Run {
    var r := RollOf(kind, cfg);
    var run := before.(log := before.log + [Start(r)]);
    var ks := run.state.keyset;
    if ks.keys == map[] then run.(status := Panic)
    else if WrongRoll(kind, cfg, ks.keys) || w.newKeys(ks.keys, kind).None? then Fail(run)
    else
      var (keys, added) := w.newKeys(ks.keys, kind).value;
      match StartRoll(lib, KeySet(keys, ks.rolls), r, Retired(kind, ks.keys), added, w.clock)
      case None => Fail(run)
      case Some(ks') =>
        var next := HandleActions(lib.actions(r, Propagation1), w, run.(state := run.state.(keyset := ks')));
        if !next.status.Running? then next
        else next.(state := next.state.(internal := next.state.internal[r := NO_REPORTS]))
  }

  /** The times at which keys of a kind reach the end of their validity. */
  function Expiries(keys: Keys, kind: KeyKind, validity: Time): set<Time> {
    set p | p in keys && OfKind(keys[p], kind) && !Stale(keys[p]) && keys[p].published.Some? ::
      keys[p].published.value + validity
  }

  predicate Conflict(ks: KeySet, conflicts: set<RollType>) {
    ks.rolls.Keys * conflicts != {}
  }

  /** The rules for one kind of key: its validity, whether rolls start by
      themselves, the rolls that stand in the way and the roll to start. */
  datatype StartRule = StartRule(
    validity: Option<Time>,
    auto: bool,
    conflicts: set<RollType>,
    kind: KeyKind,
    starts: StartKind
  )

  predicate StartDue(rule: StartRule, ks: KeySet, now: Time) {
    && rule.validity.Some? && rule.auto && !Conflict(ks, rule.conflicts)
    && var next := SetMin(Expiries(ks.keys, rule.kind, rule.validity.value));
       next.Some? && next.value < now
  }

  function AutoStart(rule: StartRule, cfg: Config, lib: Library, w: World, now: Time, run: Run): Run {
    if run.status.Running? && StartDue(rule, run.state.keyset, now)
    then StartKey(rule.starts, cfg, lib, w, run)
    else run
  }

  const ALL_ROLLS: set<RollType> :=
    {KskRoll, KskDoubleDsRoll, ZskRoll, ZskDoubleSignatureRoll, CskRoll, AlgorithmRoll}

  /** The algorithm for new keys is not the algorithm of all active keys. */
  predicate AlgorithmRollNeeded(cfg: Config, keys: Keys) {
    (set p | p in keys && !keys[p].keytype.Include? && !Stale(keys[p]) :: keys[p].algorithm) != {cfg.algorithm}
  }

  /** The three start rules, in the order in which they are tried. */
  function StartRules(cfg: Config, keys: Keys): seq<StartRule> {
    var need := AlgorithmRollNeeded(cfg, keys);
    var auto := if need then cfg.autoAlgorithm.start else cfg.autoCsk.start;
    var starts := if need then StartAlgorithm else StartCsk;
    (if cfg.useCsk || need then
       [StartRule(cfg.kskValidity, auto, ALL_ROLLS, AnyKsk, starts),
        StartRule(cfg.zskValidity, auto, ALL_ROLLS, AnyZsk, starts)]
     else
       [StartRule(cfg.kskValidity, cfg.autoKsk.start, ALL_ROLLS - {ZskRoll, ZskDoubleSignatureRoll}, AnyKsk, StartKsk),
        StartRule(cfg.zskValidity, cfg.autoZsk.start, ALL_ROLLS - {KskRoll, KskDoubleDsRoll}, AnyZsk, StartZsk)])
    + [StartRule(cfg.cskValidity, auto, ALL_ROLLS, AnyCsk, starts)]
  }

  function AutoStarts(rules: seq<StartRule>, cfg: Config, lib: Library, w: World, now: Time, run: Run): Run {
    if rules == [] then run
    else AutoStarts(rules[1..], cfg, lib, w, now, AutoStart(rules[0], cfg, lib, w, now, run))
  }

  // ----- Moving rolls on -----

  function SlotsOf(reports: RollStateReports, during: RollState): ReportState {
    match during
    case Propagation1 => reports.propagation1
    case Propagation2 => reports.propagation2
    case _ => reports.done
  }

  function WithSlots(reports: RollStateReports, during: RollState, slots: ReportState): RollStateReports {
    match during
    case Propagation1 => reports.(propagation1 := slots)
    case Propagation2 => reports.(propagation2 := slots)
    case _ => reports.(done := slots)
  }

  /** The RRsets that checks compare servers with. */
  function AskedOf(st: State): Asked {
    Asked(st.dnskeyRrset, st.cdsRrset)
  }

  function Checks(r: RollType, during: RollState, probes: seq<Probe>, asked: Asked): (log: seq<Event>)
    ensures |log| == |probes|
    ensures forall i :: 0 <= i < |log| ==> log[i] == Check(r, during, probes[i], asked)
  {
    seq(|probes|, i requires 0 <= i < |probes| => Check(r, during, probes[i], asked))
  }

  /** Put back the slots a pass over the actions of roll `r` has left. */
  function Probed(r: RollType, during: RollState, slots: ReportState, probes: seq<Probe>, run: Run): Run
    requires r in run.state.internal
  {
    var reports := WithSlots(run.state.internal[r], during, slots);
    run.(state := run.state.(internal := run.state.internal[r := reports]),
         log := run.log + Checks(r, during, probes, AskedOf(run.state)))
  }

  predicate Propagating(ks: KeySet, r: RollType) {
    r in ks.rolls && (ks.rolls[r].Propagation1? || ks.rolls[r].Propagation2?)
  }

  predicate ReportActionsOnly(actions: seq<Action>) {
    actions != [] && forall a :: a in actions ==> IsUpdate(a) || IsReport(a)
  }

  predicate WaitActionsOnly(actions: seq<Action>) {
    forall a :: a in actions ==> IsUpdate(a) || IsWait(a)
  }

  /** A check has panicked. */
  function PanicAt(r: RollType, during: RollState, run: Run): Run {
    run.(log := run.log + [Crashed(r, during)], status := Panic)
  }

  /** The report step of one roll. */
  function ReportStep(r: RollType, lib: Library, w: World, now: Time, run: Run): Run {
    if !run.status.Running? || r !in run.state.keyset.rolls then run
    else if r !in run.state.internal then run.(status := Panic)
    else if !Propagating(run.state.keyset, r) then run
    else
      var during := run.state.keyset.rolls[r];
      var actions := lib.actions(r, during);
      if !ReportActionsOnly(actions) then run.(status := Panic)
      else
        var res := RunActions(actions, SlotsOf(run.state.internal[r], during), now, w.probes(r, run.state));
        var next := Probed(r, during, res.slots, res.probes, run);
        if res.Crash? then PanicAt(r, during, next)
        else if res.Stop? then next
        else CompletePropagation(r, res.ttl, lib, w, next.(log := next.log + [Complete(r, during, res.ttl)]))
  }

  function CompletePropagation(r: RollType, ttl: nat, lib: Library, w: World, run: Run): Run {
    match PropagationComplete(lib, run.state.keyset, r, ttl, w.clock)
    case None => Fail(run)
    case Some(ks) => EnterState(r, ks, lib, w, run)
  }

  /** Handle the actions of the state a roll has moved to. */
  function EnterState(r: RollType, ks: KeySet, lib: Library, w: World, run: Run): Run
    requires r in ks.rolls
  {
    HandleActions(lib.actions(r, ks.rolls[r]), w, run.(state := run.state.(keyset := ks)))
  }

  /** The cache expire step of one roll. */
  function ExpireStep(r: RollType, lib: Library, w: World, now: Time, run: Run): Run {
    if !run.status.Running? || !Expiring(run.state.keyset, r) then run
    else
      match CacheExpired(lib, run.state.keyset, r, now)
      case TooEarly(_) => run
      case Refused => Fail(run.(log := run.log + [Expire(r)]))
      case Expired(ks) => EnterState(r, ks, lib, w, run.(log := run.log + [Expire(r)]))
  }

  predicate Expiring(ks: KeySet, r: RollType) {
    r in ks.rolls && (ks.rolls[r].CacheExpire1? || ks.rolls[r].CacheExpire2?)
  }

  /** The last step of one roll. */
  function DoneStep(r: RollType, lib: Library, w: World, now: Time, run: Run): Run {
    if !run.status.Running? || !(r in run.state.keyset.rolls && run.state.keyset.rolls[r].Done?) then run
    else
      var actions := lib.actions(r, Done);
      if r !in run.state.internal || !WaitActionsOnly(actions) then run.(status := Panic)
      else
        var res := RunActions(actions, run.state.internal[r].done, now, w.probes(r, run.state));
        var next := Probed(r, Done, res.slots, res.probes, run);
        if res.Crash? then PanicAt(r, Done, next)
        else if res.Stop? then next
        else DoDone(r, lib, w, next.(log := next.log + [Finish(r)]))
  }

  function DoDone(r: RollType, lib: Library, w: World, run: Run): Run {
    match RollDone(lib, run.state.keyset, r, w.clock)
    case None => Fail(run)
    case Some(ks) =>
      run.(state := run.state.(keyset := ks, cdsRrset := [], internal := run.state.internal - {r}))
  }

  datatype Stage = Reporting | CacheExpiring | Finishing

  function StageStep(stage: Stage, r: RollType, lib: Library, w: World, now: Time, run: Run): Run {
    match stage
    case Reporting => ReportStep(r, lib, w, now, run)
    case CacheExpiring => ExpireStep(r, lib, w, now, run)
    case Finishing => DoneStep(r, lib, w, now, run)
  }

  function StageSteps(stage: Stage, rolls: seq<RollType>, lib: Library, w: World, now: Time, run: Run): Run {
    if rolls == [] then run
    else StageSteps(stage, rolls[1..], lib, w, now, StageStep(stage, rolls[0], lib, w, now, run))
  }

  function AutoReportExpireDone(auto: AutoConfig, rolls: seq<RollType>, lib: Library, w: World, now: Time,
                                run: Run): Run {
    var run1 := if auto.report then StageSteps(Reporting, rolls, lib, w, now, run) else run;
    var run2 := if auto.expire then StageSteps(CacheExpiring, rolls, lib, w, now, run1) else run1;
    if auto.done then StageSteps(Finishing, rolls, lib, w, now, run2) else run2
  }

  const KSK_ROLLS: seq<RollType> := [KskRoll, KskDoubleDsRoll]
  const ZSK_ROLLS: seq<RollType> := [ZskRoll, ZskDoubleSignatureRoll]
  const CSK_ROLLS: seq<RollType> := [CskRoll]
  const ALGORITHM_ROLLS: seq<RollType> := [AlgorithmRoll]

  function AutoRolls(cfg: Config, lib: Library, w: World, now: Time, run: Run): Run {
    var run1 := AutoReportExpireDone(cfg.autoKsk, KSK_ROLLS, lib, w, now, run);
    var run2 := AutoReportExpireDone(cfg.autoZsk, ZSK_ROLLS, lib, w, now, run1);
    var run3 := AutoReportExpireDone(cfg.autoCsk, CSK_ROLLS, lib, w, now, run2);
    AutoReportExpireDone(cfg.autoAlgorithm, ALGORITHM_ROLLS, lib, w, now, run3)
  }

  // ----- Removing keys -----

  function RemovableAt(cfg: Config, keys: Keys, now: Time): set<PubRef> {
    set p | && p in keys && Stale(keys[p]) && keys[p].withdrawn.Some?
            && keys[p].withdrawn.value + cfg.autoremoveDelay <= now
  }

  predicate AllWithdrawn(keys: Keys) {
    forall p :: p in keys && Stale(keys[p]) ==> keys[p].withdrawn.Some?
  }

  function AutoRemove(cfg: Config, w: World, now: Time, run: Run): Run {
    var keys := run.state.keyset.keys;
    if !run.status.Running? || !cfg.autoremove then run
    else if !AllWithdrawn(keys) then run.(status := Panic)
    else
      var refs := RemovableAt(cfg, keys, now);
      if refs == {} then run
      else
        var next := run.(log := run.log + [Remove(refs)]);
        if exists p :: p in refs && !w.removable(p) then Fail(next)
        else next.(state := next.state.(keyset := KeySet(keys - refs, run.state.keyset.rolls)))
  }

  // ----- The whole run -----

  function Cron(cfg: Config, lib: Library, w: World, now: Time, st: State): Run {
    var run1 := RenewCds(cfg, w, now, RenewDnskey(cfg, w, now, Run(st, [], Running)));
    var run2 := AutoStarts(StartRules(cfg, run1.state.keyset.keys), cfg, lib, w, now, run1);
    AutoRemove(cfg, w, now, AutoRolls(cfg, lib, w, now, run2))
  }
}
