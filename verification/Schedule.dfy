/** When the cron subcommand is next needed, and what that time is worth.

    The schedule is computed by functions that repeat the guards of the cron
    run.  `IdleBefore` and `BusyAfter` say that the two agree.
  */
module Schedule {
  import opened Wrappers
  import opened Records
  import Names
  import opened KeySets
  import opened ReportSlots
  import opened CronSpec
  import opened CronKeeps

  // ----- The schedule -----

  const WRAP: nat := 0x1_0000_0000

  /** The moment within 2^31 seconds of `now` (in seconds) that a 32-bit
      signature time stands for. */
  function SystemSecs(expiration: nat, now: nat): int {
    var ahead := (expiration - now) % WRAP;
    if ahead < WRAP / 2 then now + ahead else now + ahead - WRAP
  }

  /** When the first signature has to be renewed; before the epoch counts as the epoch. */
  function RenewalTimes(rrset: Rrset, remain: Time, now: Time): set<Time> {
    set i | 0 <= i < |rrset| && rrset[i].data.RrsigData? ::
      RenewalTime(SystemSecs(rrset[i].data.expiration, Secs(now)), remain)
  }

  function RenewalTime(expires: int, remain: Time): Time {
    if expires * SECOND < remain then 0 else expires * SECOND - remain
  }

  function StartTimes(rule: StartRule, ks: KeySet): set<Time> {
    if rule.validity.Some? && rule.auto && !Conflict(ks, rule.conflicts)
    then Expiries(ks.keys, rule.kind, rule.validity.value)
    else {}
  }

  function AllStartTimes(rules: seq<StartRule>, ks: KeySet): set<Time> {
    if rules == [] then {} else StartTimes(rules[0], ks) + AllStartTimes(rules[1..], ks)
  }

  function VerdictTime(v: Verdict, now: Time): Time {
    match v
    case Ready => now
    case NotBefore(until) => until
  }

  /** The time for one stage of one roll, and the key set the next roll of the
      list is judged by: the cache expire stage works on a copy on which it
      carries out the step.  `Err` is a refusal by the library, or the
      panic over a missing entry (`OnlyRefusalsFail` rules that out). */
  function StageTime(stage: Stage, r: RollType, lib: Library, internal: map<RollType, RollStateReports>, ks: KeySet,
                     now: Time): Result<(set<Time>, KeySet)>
  {
    match stage
    case Reporting =>
      if r !in ks.rolls then Ok(({}, ks))
      else if r !in internal then Err
      else if !Propagating(ks, r) then Ok(({}, ks))
      else
        var v := CheckActions(lib.actions(r, ks.rolls[r]), SlotsOf(internal[r], ks.rolls[r]), now);
        Ok(({VerdictTime(v, now)}, ks))
    case CacheExpiring =>
      if !Expiring(ks, r) then Ok(({}, ks))
      else
        (match CacheExpired(lib, ks, r, now)
         case TooEarly(remain) => Ok(({now + remain}, ks))
         case Refused => Err
         case Expired(ks') => Ok(({now}, ks')))
    case Finishing =>
      if !(r in ks.rolls && ks.rolls[r].Done?) then Ok(({}, ks))
      else if r !in internal then Err
      else
        var v := CheckActions(lib.actions(r, Done), internal[r].done, now);
        Ok(({VerdictTime(v, now)}, ks))
  }

  function StageTimes(stage: Stage, rolls: seq<RollType>, lib: Library, internal: map<RollType, RollStateReports>,
                      ks: KeySet, now: Time): Result<set<Time>>
  {
    if rolls == [] then Ok({})
    else
      match StageTime(stage, rolls[0], lib, internal, ks, now)
      case Err => Err
      case Ok((times, ks')) =>
        match StageTimes(stage, rolls[1..], lib, internal, ks', now)
        case Err => Err
        case Ok(more) => Ok(times + more)
  }

  function Join(a: Result<set<Time>>, b: Result<set<Time>>): Result<set<Time>> {
    if a.Ok? && b.Ok? then Ok(a.value + b.value) else Err
  }

  function RollTimes(auto: AutoConfig, rolls: seq<RollType>, lib: Library, st: State, now: Time): Result<set<Time>> {
    Join(if auto.report then StageTimes(Reporting, rolls, lib, st.internal, st.keyset, now) else Ok({}),
         Join(if auto.expire then StageTimes(CacheExpiring, rolls, lib, st.internal, st.keyset, now) else Ok({}),
              if auto.done then StageTimes(Finishing, rolls, lib, st.internal, st.keyset, now) else Ok({})))
  }

  function AllRollTimes(cfg: Config, lib: Library, st: State, now: Time): Result<set<Time>> {
    Join(Join(RollTimes(cfg.autoKsk, KSK_ROLLS, lib, st, now), RollTimes(cfg.autoZsk, ZSK_ROLLS, lib, st, now)),
         Join(RollTimes(cfg.autoCsk, CSK_ROLLS, lib, st, now),
              RollTimes(cfg.autoAlgorithm, ALGORITHM_ROLLS, lib, st, now)))
  }

  function RemovalTimes(cfg: Config, keys: Keys): set<Time> {
    if !cfg.autoremove then {}
    else set p | p in keys && Stale(keys[p]) && keys[p].withdrawn.Some? :: keys[p].withdrawn.value + cfg.autoremoveDelay
  }

  /** Every time at which some guard of the cron run may start to hold. */
  function CronTimes(cfg: Config, lib: Library, st: State, now: Time): Result<set<Time>> {
    var fixed :=
      RenewalTimes(st.dnskeyRrset, cfg.dnskeyRemain, now) + RenewalTimes(st.cdsRrset, cfg.cdsRemain, now)
      + AllStartTimes(StartRules(cfg, st.keyset.keys), st.keyset)
      + RemovalTimes(cfg, st.keyset.keys);
    if cfg.autoremove && !AllWithdrawn(st.keyset.keys) then Err
    else Join(Ok(fixed), AllRollTimes(cfg, lib, st, now))
  }

  /** The stored time is the schedule of the stored state, computed at `asOf`. */
  ghost predicate Scheduled(cfg: Config, lib: Library, st: State, asOf: Time) {
    CronTimes(cfg, lib, st, asOf).Ok? && st.cronNext == SetMin(CronTimes(cfg, lib, st, asOf).value)
  }

  // ----- Steps that act, and steps that do nothing -----

  /** `after` comes from `before` by a step that was due, or by one that was not. */
  ghost predicate Acts(before: Run, after: Run, due: bool) {
    before.log <= after.log && if due then |before.log| < |after.log| else after == before
  }

  lemma RenewActs(cfg: Config, w: World, now: Time, run: Run)
    ensures Acts(run, RenewDnskey(cfg, w, now, run),
                 run.status.Running? && SigRenew(run.state.dnskeyRrset, cfg.dnskeyRemain, now))
    ensures Acts(run, RenewCds(cfg, w, now, run),
                 run.status.Running? && SigRenew(run.state.cdsRrset, cfg.cdsRemain, now))
  {
  }

  lemma {:induction false} AutoStartActs(rule: StartRule, cfg: Config, lib: Library, w: World, now: Time, run: Run)
    ensures Acts(run, AutoStart(rule, cfg, lib, w, now, run),
                 run.status.Running? && StartDue(rule, run.state.keyset, now))
  {
    var ks := run.state.keyset;
    if run.status.Running? && StartDue(rule, ks, now) {
      var r := RollOf(rule.starts, cfg);
      var begun := run.(log := run.log + [Start(r)]);
      if !(ks.keys == map[] || WrongRoll(rule.starts, cfg, ks.keys) || w.newKeys(ks.keys, rule.starts).None?) {
        var (keys, added) := w.newKeys(ks.keys, rule.starts).value;
        var started := StartRoll(lib, KeySet(keys, ks.rolls), r, Retired(rule.starts, ks.keys), added, w.clock);
        if started.Some? {
          HandleActionsFrame(lib.actions(r, Propagation1), w, begun.(state := begun.state.(keyset := started.value)));
        }
      }
    }
  }

  predicate AnyStartDue(rules: seq<StartRule>, ks: KeySet, now: Time) {
    exists i :: 0 <= i < |rules| && StartDue(rules[i], ks, now)
  }

  lemma {:induction false} AutoStartsAct(rules: seq<StartRule>, cfg: Config, lib: Library, w: World, now: Time,
                                         run: Run)
    ensures Acts(run, AutoStarts(rules, cfg, lib, w, now, run),
                 run.status.Running? && AnyStartDue(rules, run.state.keyset, now))
  {
    if rules != [] {
      var next := AutoStart(rules[0], cfg, lib, w, now, run);
      AutoStartActs(rules[0], cfg, lib, w, now, run);
      AutoStartsAct(rules[1..], cfg, lib, w, now, next);
      assert rules == [rules[0]] + rules[1..];
    }
  }

  /** The guard of one stage of one roll. */
  predicate StageDue(stage: Stage, r: RollType, lib: Library, st: State, now: Time) {
    match stage
    case Reporting =>
      && Propagating(st.keyset, r) && r in st.internal
      && var during := st.keyset.rolls[r];
         VerdictTime(CheckActions(lib.actions(r, during), SlotsOf(st.internal[r], during), now), now) <= now
    case CacheExpiring => Expiring(st.keyset, r) && lib.expiry(st.keyset, r) <= now
    case Finishing =>
      && r in st.keyset.rolls && st.keyset.rolls[r].Done? && r in st.internal
      && VerdictTime(CheckActions(lib.actions(r, Done), st.internal[r].done, now), now) <= now
  }

  lemma {:induction false} EnterStateKeepsLog(r: RollType, ks: KeySet, lib: Library, w: World, run: Run)
    requires r in ks.rolls
    ensures EnterState(r, ks, lib, w, run).log == run.log
  {
    HandleActionsFrame(lib.actions(r, ks.rolls[r]), w, run.(state := run.state.(keyset := ks)));
  }

  lemma {:induction false} ReportStepActs(r: RollType, lib: Library, w: World, now: Time, run: Run)
    requires LibraryOk(lib) && Sound(run)
    ensures Acts(run, ReportStep(r, lib, w, now, run),
                 run.status.Running? && StageDue(Reporting, r, lib, run.state, now))
  {
    if run.status.Running? && Propagating(run.state.keyset, r) {
      var during := run.state.keyset.rolls[r];
      var actions := lib.actions(r, during);
      var slots := SlotsOf(run.state.internal[r], during);
      CheckPredictsRun(actions, slots, now, now, w.probes(r, run.state));
      var res := RunActions(actions, slots, now, w.probes(r, run.state));
      var next := Probed(r, during, res.slots, res.probes, run);
      if res.Next? {
        var done := next.(log := next.log + [Complete(r, during, res.ttl)]);
        var moved := PropagationComplete(lib, done.state.keyset, r, res.ttl, w.clock);
        if moved.Some? {
          EnterStateKeepsLog(r, moved.value, lib, w, done);
        }
      } else if res.probes == [] {
        NothingProbed(r, during, run);
      }
    }
  }

  /** A pass that probes nothing leaves the run as it is. */
  lemma {:induction false} NothingProbed(r: RollType, during: RollState, run: Run)
    requires r in run.state.internal
    ensures Probed(r, during, SlotsOf(run.state.internal[r], during), [], run) == run
  {
    var reports := run.state.internal[r];
    assert WithSlots(reports, during, SlotsOf(reports, during)) == reports;
    assert run.state.internal[r := reports] == run.state.internal;
    assert Checks(r, during, [], AskedOf(run.state)) == [];
  }

  lemma {:induction false} ExpireStepActs(r: RollType, lib: Library, w: World, now: Time, run: Run)
    ensures Acts(run, ExpireStep(r, lib, w, now, run),
                 run.status.Running? && StageDue(CacheExpiring, r, lib, run.state, now))
  {
    var res := CacheExpired(lib, run.state.keyset, r, now);
    if res.Expired? {
      EnterStateKeepsLog(r, res.keyset, lib, w, run.(log := run.log + [Expire(r)]));
    }
  }

  lemma {:induction false} DoneStepActs(r: RollType, lib: Library, w: World, now: Time, run: Run)
    requires LibraryOk(lib) && Sound(run)
    ensures Acts(run, DoneStep(r, lib, w, now, run), run.status.Running? && StageDue(Finishing, r, lib, run.state, now))
  {
    if run.status.Running? && r in run.state.keyset.rolls && run.state.keyset.rolls[r].Done? {
      var actions, slots := lib.actions(r, Done), run.state.internal[r].done;
      CheckPredictsRun(actions, slots, now, now, w.probes(r, run.state));
      NothingProbed(r, Done, run);
    }
  }

  predicate AnyStageDue(stage: Stage, rolls: seq<RollType>, lib: Library, st: State, now: Time) {
    exists i :: 0 <= i < |rolls| && StageDue(stage, rolls[i], lib, st, now)
  }

  lemma {:induction false} StageStepsAct(stage: Stage, rolls: seq<RollType>, lib: Library, w: World, now: Time,
                                         run: Run)
    requires LibraryOk(lib) && Sound(run)
    ensures Acts(run, StageSteps(stage, rolls, lib, w, now, run),
                 run.status.Running? && AnyStageDue(stage, rolls, lib, run.state, now))
  {
    if rolls != [] {
      var next := StageStep(stage, rolls[0], lib, w, now, run);
      match stage {
        case Reporting => ReportStepActs(rolls[0], lib, w, now, run);
        case CacheExpiring => ExpireStepActs(rolls[0], lib, w, now, run);
        case Finishing => DoneStepActs(rolls[0], lib, w, now, run);
      }
      StageStepKeeps(stage, rolls[0], lib, w, now, run);
      StageStepsAct(stage, rolls[1..], lib, w, now, next);
      assert rolls == [rolls[0]] + rolls[1..];
    }
  }

  /** Some stage of some roll in the list is due. */
  predicate RollsDue(auto: AutoConfig, rolls: seq<RollType>, lib: Library, st: State, now: Time) {
    || (auto.report && AnyStageDue(Reporting, rolls, lib, st, now))
    || (auto.expire && AnyStageDue(CacheExpiring, rolls, lib, st, now))
    || (auto.done && AnyStageDue(Finishing, rolls, lib, st, now))
  }

  lemma {:induction false} AutoReportExpireDoneActs(auto: AutoConfig, rolls: seq<RollType>, cfg: Config, lib: Library,
                                                    w: World, now: Time, run: Run)
    requires LibraryOk(lib) && WorldOk(w) && Sound(run)
    ensures Acts(run, AutoReportExpireDone(auto, rolls, lib, w, now, run),
                 run.status.Running? && RollsDue(auto, rolls, lib, run.state, now))
  {
    var run1 := if auto.report then StageSteps(Reporting, rolls, lib, w, now, run) else run;
    var run2 := if auto.expire then StageSteps(CacheExpiring, rolls, lib, w, now, run1) else run1;
    StepsKeepSound(cfg, lib, w, now);
    StageStepsAct(Reporting, rolls, lib, w, now, run);
    StageStepsKeep(Sound, Reporting, rolls, cfg, lib, w, now, run);
    StageStepsAct(CacheExpiring, rolls, lib, w, now, run1);
    StageStepsKeep(Sound, CacheExpiring, rolls, cfg, lib, w, now, run1);
    StageStepsAct(Finishing, rolls, lib, w, now, run2);
  }

  predicate AllRollsDue(cfg: Config, lib: Library, st: State, now: Time) {
    || RollsDue(cfg.autoKsk, KSK_ROLLS, lib, st, now)
    || RollsDue(cfg.autoZsk, ZSK_ROLLS, lib, st, now)
    || RollsDue(cfg.autoCsk, CSK_ROLLS, lib, st, now)
    || RollsDue(cfg.autoAlgorithm, ALGORITHM_ROLLS, lib, st, now)
  }

  lemma {:induction false} AutoRollsAct(cfg: Config, lib: Library, w: World, now: Time, run: Run)
    requires LibraryOk(lib) && WorldOk(w) && Sound(run)
    ensures Acts(run, AutoRolls(cfg, lib, w, now, run), run.status.Running? && AllRollsDue(cfg, lib, run.state, now))
  {
    var run1 := AutoReportExpireDone(cfg.autoKsk, KSK_ROLLS, lib, w, now, run);
    var run2 := AutoReportExpireDone(cfg.autoZsk, ZSK_ROLLS, lib, w, now, run1);
    var run3 := AutoReportExpireDone(cfg.autoCsk, CSK_ROLLS, lib, w, now, run2);
    StepsKeepSound(cfg, lib, w, now);
    AutoReportExpireDoneActs(cfg.autoKsk, KSK_ROLLS, cfg, lib, w, now, run);
    AutoReportExpireDoneKeeps(Sound, cfg.autoKsk, KSK_ROLLS, cfg, lib, w, now, run);
    AutoReportExpireDoneActs(cfg.autoZsk, ZSK_ROLLS, cfg, lib, w, now, run1);
    AutoReportExpireDoneKeeps(Sound, cfg.autoZsk, ZSK_ROLLS, cfg, lib, w, now, run1);
    AutoReportExpireDoneActs(cfg.autoCsk, CSK_ROLLS, cfg, lib, w, now, run2);
    AutoReportExpireDoneKeeps(Sound, cfg.autoCsk, CSK_ROLLS, cfg, lib, w, now, run2);
    AutoReportExpireDoneActs(cfg.autoAlgorithm, ALGORITHM_ROLLS, cfg, lib, w, now, run3);
  }

  predicate RemovalDue(cfg: Config, keys: Keys, now: Time) {
    cfg.autoremove && RemovableAt(cfg, keys, now) != {}
  }

  /** Some guard of the cron run holds. */
  predicate CronDue(cfg: Config, lib: Library, st: State, now: Time) {
    || SigRenew(st.dnskeyRrset, cfg.dnskeyRemain, now)
    || SigRenew(st.cdsRrset, cfg.cdsRemain, now)
    || AnyStartDue(StartRules(cfg, st.keyset.keys), st.keyset, now)
    || AllRollsDue(cfg, lib, st, now)
    || RemovalDue(cfg, st.keyset.keys, now)
  }

  lemma {:induction false} CronActs(cfg: Config, lib: Library, w: World, now: Time, st: State)
    requires LibraryOk(lib) && WorldOk(w) && Valid(st)
    ensures Acts(Run(st, [], Running), Cron(cfg, lib, w, now, st), CronDue(cfg, lib, st, now))
  {
    var run0 := Run(st, [], Running);
    var renewed := RenewDnskey(cfg, w, now, run0);
    var run1 := RenewCds(cfg, w, now, renewed);
    var rules := StartRules(cfg, run1.state.keyset.keys);
    var run2 := AutoStarts(rules, cfg, lib, w, now, run1);
    var run3 := AutoRolls(cfg, lib, w, now, run2);
    StepsKeepSound(cfg, lib, w, now);
    RenewActs(cfg, w, now, run0);
    RenewActs(cfg, w, now, renewed);
    AutoStartsAct(rules, cfg, lib, w, now, run1);
    AutoStartsKeep(Sound, rules, cfg, lib, w, now, run1);
    AutoRollsAct(cfg, lib, w, now, run2);
  }

  // ----- The schedule against the guards -----

  predicate Reached(times: set<Time>, now: Time) {
    exists x :: x in times && x <= now
  }

  predicate Passed(times: set<Time>, now: Time) {
    exists x :: x in times && x < now
  }

  lemma {:induction false} ReachedUnion(a: set<Time>, b: set<Time>, now: Time)
    ensures Reached(a + b, now) <==> Reached(a, now) || Reached(b, now)
    ensures Passed(a + b, now) <==> Passed(a, now) || Passed(b, now)
  {
    if Reached(a, now) {
      var x :| x in a && x <= now;
      assert x in a + b;
    }
    if Reached(b, now) {
      var x :| x in b && x <= now;
      assert x in a + b;
    }
    if Passed(a, now) {
      var x :| x in a && x < now;
      assert x in a + b;
    }
    if Passed(b, now) {
      var x :| x in b && x < now;
      assert x in a + b;
    }
  }

  // Key rolls start strictly after the scheduled time.

  lemma {:induction false} StartTimesExact(rules: seq<StartRule>, ks: KeySet, now: Time)
    ensures AnyStartDue(rules, ks, now) <==> Passed(AllStartTimes(rules, ks), now)
  {
    if rules != [] {
      StartTimesExact(rules[1..], ks, now);
      ReachedUnion(StartTimes(rules[0], ks), AllStartTimes(rules[1..], ks), now);
      StartTimeExact(rules[0], ks, now);
      assert rules == [rules[0]] + rules[1..];
    }
  }

  lemma {:induction false} StartTimeExact(rule: StartRule, ks: KeySet, now: Time)
    ensures StartDue(rule, ks, now) <==> Passed(StartTimes(rule, ks), now)
  {
    if Passed(StartTimes(rule, ks), now) {
      var x :| x in StartTimes(rule, ks) && x < now;
      assert SetMin(Expiries(ks.keys, rule.kind, rule.validity.value)).value <= x;
    }
  }

  // The stages of a roll are due from the scheduled time on.

  lemma {:induction false} CheckLater(actions: seq<Action>, slots: ReportState, asOf: Time, now: Time)
    requires asOf <= now
    ensures VerdictTime(CheckActions(actions, slots, asOf), asOf) <= now <==>
            VerdictTime(CheckActions(actions, slots, now), now) <= now
  {
    if actions != [] {
      CheckLater(actions[1..], slots, asOf, now);
    }
  }

  lemma {:induction false} StageTimeExact(stage: Stage, r: RollType, lib: Library, st: State, asOf: Time, now: Time)
    requires asOf <= now && StageTime(stage, r, lib, st.internal, st.keyset, asOf).Ok?
    ensures var (times, ks) := StageTime(stage, r, lib, st.internal, st.keyset, asOf).value;
            && (StageDue(stage, r, lib, st, now) <==> Reached(times, now))
            && (ks == st.keyset || StageDue(stage, r, lib, st, now))
  {
    var (times, ks) := StageTime(stage, r, lib, st.internal, st.keyset, asOf).value;
    match stage {
      case Reporting =>
        if Propagating(st.keyset, r) {
          var during := st.keyset.rolls[r];
          var actions, slots := lib.actions(r, during), SlotsOf(st.internal[r], during);
          CheckLater(actions, slots, asOf, now);
          assert VerdictTime(CheckActions(actions, slots, asOf), asOf) in times;
        }
      case CacheExpiring =>
        if Expiring(st.keyset, r) {
          assert (if asOf < lib.expiry(st.keyset, r) then lib.expiry(st.keyset, r) else asOf) in times;
        }
      case Finishing =>
        if r in st.keyset.rolls && st.keyset.rolls[r].Done? {
          var actions, slots := lib.actions(r, Done), st.internal[r].done;
          CheckLater(actions, slots, asOf, now);
          assert VerdictTime(CheckActions(actions, slots, asOf), asOf) in times;
        }
    }
  }

  lemma {:induction false} StageTimesExact(stage: Stage, rolls: seq<RollType>, lib: Library, st: State, asOf: Time,
                                           now: Time)
    requires asOf <= now && StageTimes(stage, rolls, lib, st.internal, st.keyset, asOf).Ok?
    ensures AnyStageDue(stage, rolls, lib, st, now) <==>
              Reached(StageTimes(stage, rolls, lib, st.internal, st.keyset, asOf).value, now)
  {
    if rolls != [] {
      var (times, ks) := StageTime(stage, rolls[0], lib, st.internal, st.keyset, asOf).value;
      StageTimeExact(stage, rolls[0], lib, st, asOf, now);
      assert rolls == [rolls[0]] + rolls[1..];
      if ks == st.keyset {
        StageTimesExact(stage, rolls[1..], lib, st, asOf, now);
      }
      ReachedUnion(times, StageTimes(stage, rolls[1..], lib, st.internal, ks, asOf).value, now);
    }
  }

  lemma {:induction false} RollTimesExact(auto: AutoConfig, rolls: seq<RollType>, lib: Library, st: State, asOf: Time,
                                          now: Time)
    requires asOf <= now && RollTimes(auto, rolls, lib, st, asOf).Ok?
    ensures RollsDue(auto, rolls, lib, st, now) <==> Reached(RollTimes(auto, rolls, lib, st, asOf).value, now)
  {
    var none: Result<set<Time>> := Ok({});
    var a := if auto.report then StageTimes(Reporting, rolls, lib, st.internal, st.keyset, asOf) else none;
    var b := if auto.expire then StageTimes(CacheExpiring, rolls, lib, st.internal, st.keyset, asOf) else none;
    var c := if auto.done then StageTimes(Finishing, rolls, lib, st.internal, st.keyset, asOf) else none;
    if auto.report { StageTimesExact(Reporting, rolls, lib, st, asOf, now); }
    if auto.expire { StageTimesExact(CacheExpiring, rolls, lib, st, asOf, now); }
    if auto.done { StageTimesExact(Finishing, rolls, lib, st, asOf, now); }
    ReachedUnion(b.value, c.value, now);
    ReachedUnion(a.value, b.value + c.value, now);
  }

  lemma {:induction false} AllRollTimesExact(cfg: Config, lib: Library, st: State, asOf: Time, now: Time)
    requires asOf <= now && AllRollTimes(cfg, lib, st, asOf).Ok?
    ensures AllRollsDue(cfg, lib, st, now) <==> Reached(AllRollTimes(cfg, lib, st, asOf).value, now)
  {
    var a := RollTimes(cfg.autoKsk, KSK_ROLLS, lib, st, asOf);
    var b := RollTimes(cfg.autoZsk, ZSK_ROLLS, lib, st, asOf);
    var c := RollTimes(cfg.autoCsk, CSK_ROLLS, lib, st, asOf);
    var d := RollTimes(cfg.autoAlgorithm, ALGORITHM_ROLLS, lib, st, asOf);
    RollTimesExact(cfg.autoKsk, KSK_ROLLS, lib, st, asOf, now);
    RollTimesExact(cfg.autoZsk, ZSK_ROLLS, lib, st, asOf, now);
    RollTimesExact(cfg.autoCsk, CSK_ROLLS, lib, st, asOf, now);
    RollTimesExact(cfg.autoAlgorithm, ALGORITHM_ROLLS, lib, st, asOf, now);
    ReachedUnion(a.value, b.value, now);
    ReachedUnion(c.value, d.value, now);
    ReachedUnion(a.value + b.value, c.value + d.value, now);
  }

  lemma {:induction false} RemovalTimesExact(cfg: Config, keys: Keys, now: Time)
    ensures RemovalDue(cfg, keys, now) <==> Reached(RemovalTimes(cfg, keys), now)
  {
    if RemovalDue(cfg, keys, now) {
      var p :| p in RemovableAt(cfg, keys, now);
      assert keys[p].withdrawn.value + cfg.autoremoveDelay in RemovalTimes(cfg, keys);
    }
    if Reached(RemovalTimes(cfg, keys), now) {
      var x :| x in RemovalTimes(cfg, keys) && x <= now;
      var p :| && p in keys && Stale(keys[p]) && keys[p].withdrawn.Some?
               && x == keys[p].withdrawn.value + cfg.autoremoveDelay;
      assert p in RemovableAt(cfg, keys, now);
    }
  }

  // Signatures are renewed a little later than scheduled: both times are
  // cut to whole seconds before they are compared.

  /** The schedule reads a signature time as the nearest such moment, the run
      reads it as a plain number; here these agree. */
  predicate Near(rrset: Rrset, asOf: Time) {
    forall i :: 0 <= i < |rrset| && rrset[i].data.RrsigData? ==>
                  SystemSecs(rrset[i].data.expiration, Secs(asOf)) == rrset[i].data.expiration
  }

  /** They agree exactly for times less than 2^31 seconds away. */
  lemma {:induction false} NearMeansClose(expiration: nat, now: nat)
    ensures SystemSecs(expiration, now) == expiration <==> -0x8000_0000 <= expiration - now < 0x8000_0000
  {
    var d := expiration - now;
    if 0 <= d < WRAP {
      assert d % WRAP == d;
    } else if 0 < -d <= WRAP {
      assert (d + WRAP) % WRAP == d % WRAP;
    }
  }

  /** How long after its scheduled time the renewal of a signature is due. */
  function Lag(remain: Time): Time {
    SECOND + remain % SECOND
  }

  lemma {:induction false} RenewDueExact(expiration: nat, remain: Time, now: Time)
    ensures Secs(now) + Secs(remain) > expiration <==> expiration * SECOND + Lag(remain) <= now + remain
  {
    var a, b := Secs(now), Secs(remain);
    assert now == a * SECOND + now % SECOND && remain == b * SECOND + remain % SECOND;
    assert now + remain - Lag(remain) == (a + b - 1) * SECOND + now % SECOND;
  }

  /** Some signature is past its scheduled renewal by the lag. */
  predicate RenewReached(rrset: Rrset, remain: Time, now: Time) {
    exists i :: && 0 <= i < |rrset| && rrset[i].data.RrsigData?
                && rrset[i].data.expiration * SECOND + Lag(remain) <= now + remain
  }

  lemma {:induction false} RenewReachedExact(rrset: Rrset, remain: Time, now: Time)
    ensures SigRenew(rrset, remain, now) <==> RenewReached(rrset, remain, now)
  {
    forall i | 0 <= i < |rrset| && rrset[i].data.RrsigData?
      ensures Secs(now) + Secs(remain) > rrset[i].data.expiration <==>
                rrset[i].data.expiration * SECOND + Lag(remain) <= now + remain
    {
      RenewDueExact(rrset[i].data.expiration, remain, now);
    }
  }

  /** No signature is renewed before its scheduled time, and each is once the lag is over. */
  lemma {:induction false} RenewalTimesBound(rrset: Rrset, remain: Time, asOf: Time, now: Time)
    requires Near(rrset, asOf)
    ensures RenewReached(rrset, remain, now) ==> Reached(RenewalTimes(rrset, remain, asOf), now)
    ensures forall x :: x in RenewalTimes(rrset, remain, asOf) && x + Lag(remain) <= now ==>
                          RenewReached(rrset, remain, now)
  {
    if RenewReached(rrset, remain, now) {
      var i :| && 0 <= i < |rrset| && rrset[i].data.RrsigData?
               && rrset[i].data.expiration * SECOND + Lag(remain) <= now + remain;
      assert RenewalTime(SystemSecs(rrset[i].data.expiration, Secs(asOf)), remain) in RenewalTimes(rrset, remain, asOf);
    }
  }

  // ----- Main results -----

  function RollTimesOf(cfg: Config, lib: Library, st: State, asOf: Time): set<Time>
    requires CronTimes(cfg, lib, st, asOf).Ok?
  {
    RemovalTimes(cfg, st.keyset.keys) + AllRollTimes(cfg, lib, st, asOf).value
  }

  function RenewalTimesOf(cfg: Config, st: State, asOf: Time): set<Time> {
    RenewalTimes(st.dnskeyRrset, cfg.dnskeyRemain, asOf) + RenewalTimes(st.cdsRrset, cfg.cdsRemain, asOf)
  }

  /** The guards of a run at any later time, in terms of the scheduled times:
      starts are due strictly after their time, stages and removals from
      their time on, renewals once the lag is over. */
  lemma {:induction false} CronDueExact(cfg: Config, lib: Library, st: State, asOf: Time, now: Time)
    requires asOf <= now && CronTimes(cfg, lib, st, asOf).Ok?
    ensures CronDue(cfg, lib, st, now) <==>
              || Passed(AllStartTimes(StartRules(cfg, st.keyset.keys), st.keyset), now)
              || Reached(RollTimesOf(cfg, lib, st, asOf), now)
              || RenewReached(st.dnskeyRrset, cfg.dnskeyRemain, now)
              || RenewReached(st.cdsRrset, cfg.cdsRemain, now)
  {
    var keys := st.keyset.keys;
    RenewReachedExact(st.dnskeyRrset, cfg.dnskeyRemain, now);
    RenewReachedExact(st.cdsRrset, cfg.cdsRemain, now);
    StartTimesExact(StartRules(cfg, keys), st.keyset, now);
    AllRollTimesExact(cfg, lib, st, asOf, now);
    RemovalTimesExact(cfg, keys, now);
    ReachedUnion(RemovalTimes(cfg, keys), AllRollTimes(cfg, lib, st, asOf).value, now);
  }

  lemma CronTimesSplit(cfg: Config, lib: Library, st: State, asOf: Time)
    requires CronTimes(cfg, lib, st, asOf).Ok?
    ensures CronTimes(cfg, lib, st, asOf).value ==
              RenewalTimesOf(cfg, st, asOf) + AllStartTimes(StartRules(cfg, st.keyset.keys), st.keyset)
              + RollTimesOf(cfg, lib, st, asOf)
  {
  }

  /** Scheduler soundness.  A run before the stored time, or with none
      stored, tries nothing, changes nothing and succeeds. */
  lemma {:induction false} IdleBefore(cfg: Config, lib: Library, w: World, st: State, asOf: Time, now: Time)
    requires LibraryOk(lib) && WorldOk(w) && Valid(st)
    requires Scheduled(cfg, lib, st, asOf) && asOf <= now
    requires Near(st.dnskeyRrset, asOf) && Near(st.cdsRrset, asOf)
    requires st.cronNext.None? || now < st.cronNext.value
    ensures Cron(cfg, lib, w, now, st) == Run(st, [], Running)
  {
    var times := CronTimes(cfg, lib, st, asOf).value;
    assert !Reached(times, now) && !Passed(times, now);
    CronTimesSplit(cfg, lib, st, asOf);
    var starts := AllStartTimes(StartRules(cfg, st.keyset.keys), st.keyset);
    var renewals := RenewalTimesOf(cfg, st, asOf);
    ReachedUnion(renewals + starts, RollTimesOf(cfg, lib, st, asOf), now);
    ReachedUnion(renewals, starts, now);
    ReachedUnion(RenewalTimes(st.dnskeyRrset, cfg.dnskeyRemain, asOf),
                 RenewalTimes(st.cdsRrset, cfg.cdsRemain, asOf), now);
    RenewalTimesBound(st.dnskeyRrset, cfg.dnskeyRemain, asOf, now);
    RenewalTimesBound(st.cdsRrset, cfg.cdsRemain, asOf, now);
    CronDueExact(cfg, lib, st, asOf, now);
    CronActs(cfg, lib, w, now, st);
  }

  /** Scheduler tightness.  A run after the stored time tries at least one
      step: strictly after it if it is not a renewal time, and two seconds
      after it in any case. */
  lemma {:induction false} BusyAfter(cfg: Config, lib: Library, w: World, st: State, asOf: Time, now: Time)
    requires LibraryOk(lib) && WorldOk(w) && Valid(st)
    requires Scheduled(cfg, lib, st, asOf) && asOf <= now
    requires Near(st.dnskeyRrset, asOf) && Near(st.cdsRrset, asOf)
    requires st.cronNext.Some?
    requires if st.cronNext.value in RenewalTimesOf(cfg, st, asOf)
             then st.cronNext.value + 2 * SECOND <= now
             else st.cronNext.value < now
    ensures Cron(cfg, lib, w, now, st).log != []
  {
    var next := st.cronNext.value;
    CronTimesSplit(cfg, lib, st, asOf);
    RenewalTimesBound(st.dnskeyRrset, cfg.dnskeyRemain, asOf, now);
    RenewalTimesBound(st.cdsRrset, cfg.cdsRemain, asOf, now);
    CronDueExact(cfg, lib, st, asOf, now);
    CronActs(cfg, lib, w, now, st);
  }

  /** Tightness, exactly: what decides whether a run tries anything. */
  lemma {:induction false} BusyExactly(cfg: Config, lib: Library, w: World, st: State, asOf: Time, now: Time)
    requires LibraryOk(lib) && WorldOk(w) && Valid(st)
    requires CronTimes(cfg, lib, st, asOf).Ok? && asOf <= now
    ensures Cron(cfg, lib, w, now, st).log != [] <==>
              || Passed(AllStartTimes(StartRules(cfg, st.keyset.keys), st.keyset), now)
              || Reached(RollTimesOf(cfg, lib, st, asOf), now)
              || RenewReached(st.dnskeyRrset, cfg.dnskeyRemain, now)
              || RenewReached(st.cdsRrset, cfg.cdsRemain, now)
    ensures Cron(cfg, lib, w, now, st).log == [] ==> Cron(cfg, lib, w, now, st) == Run(st, [], Running)
  {
    CronDueExact(cfg, lib, st, asOf, now);
    CronActs(cfg, lib, w, now, st);
  }

  /** Before the stored time only a renewal can be due, and that decides. */
  lemma {:induction false} IdleExactly(cfg: Config, lib: Library, w: World, st: State, asOf: Time, now: Time)
    requires LibraryOk(lib) && WorldOk(w) && Valid(st)
    requires Scheduled(cfg, lib, st, asOf) && asOf <= now
    requires st.cronNext.None? || now < st.cronNext.value
    ensures Cron(cfg, lib, w, now, st) == Run(st, [], Running) <==>
              !RenewReached(st.dnskeyRrset, cfg.dnskeyRemain, now) && !RenewReached(st.cdsRrset, cfg.cdsRemain, now)
  {
    var times := CronTimes(cfg, lib, st, asOf).value;
    assert !Reached(times, now) && !Passed(times, now);
    CronTimesSplit(cfg, lib, st, asOf);
    BusyExactly(cfg, lib, w, st, asOf, now);
  }

  // ----- When there is no schedule -----

  /** Carrying out the cache expire steps of a list on a copy meets a refusal. */
  predicate ExpiryRefused(rolls: seq<RollType>, lib: Library, ks: KeySet, now: Time) {
    rolls != [] &&
    if !Expiring(ks, rolls[0]) then ExpiryRefused(rolls[1..], lib, ks, now)
    else
      match CacheExpired(lib, ks, rolls[0], now)
      case Refused => true
      case TooEarly(_) => ExpiryRefused(rolls[1..], lib, ks, now)
      case Expired(ks') => ExpiryRefused(rolls[1..], lib, ks', now)
  }

  lemma {:induction false} StageTimesFail(stage: Stage, rolls: seq<RollType>, lib: Library,
                                          internal: map<RollType, RollStateReports>, ks: KeySet, now: Time)
    requires ks.rolls.Keys == internal.Keys
    ensures StageTimes(stage, rolls, lib, internal, ks, now).Err? <==>
              stage.CacheExpiring? && ExpiryRefused(rolls, lib, ks, now)
  {
    if rolls != [] {
      var one := StageTime(stage, rolls[0], lib, internal, ks, now);
      if one.Ok? {
        StageTimesFail(stage, rolls[1..], lib, internal, one.value.1, now);
      }
    }
  }

  lemma {:induction false} RollTimesFail(auto: AutoConfig, rolls: seq<RollType>, lib: Library, st: State, now: Time)
    requires Valid(st)
    ensures RollTimes(auto, rolls, lib, st, now).Err? <==> auto.expire && ExpiryRefused(rolls, lib, st.keyset, now)
  {
    forall stage ensures StageTimes(stage, rolls, lib, st.internal, st.keyset, now).Err? <==>
                           stage.CacheExpiring? && ExpiryRefused(rolls, lib, st.keyset, now)
    {
      StageTimesFail(stage, rolls, lib, st.internal, st.keyset, now);
    }
  }

  /** Of a valid state the schedule can be computed unless a cache expire step
      is refused: no entry that is looked up is missing. */
  lemma {:induction false} OnlyRefusalsFail(cfg: Config, lib: Library, st: State, now: Time)
    requires Valid(st)
    ensures CronTimes(cfg, lib, st, now).Err? <==>
              || (cfg.autoKsk.expire && ExpiryRefused(KSK_ROLLS, lib, st.keyset, now))
              || (cfg.autoZsk.expire && ExpiryRefused(ZSK_ROLLS, lib, st.keyset, now))
              || (cfg.autoCsk.expire && ExpiryRefused(CSK_ROLLS, lib, st.keyset, now))
              || (cfg.autoAlgorithm.expire && ExpiryRefused(ALGORITHM_ROLLS, lib, st.keyset, now))
  {
    RollTimesFail(cfg.autoKsk, KSK_ROLLS, lib, st, now);
    RollTimesFail(cfg.autoZsk, ZSK_ROLLS, lib, st, now);
    RollTimesFail(cfg.autoCsk, CSK_ROLLS, lib, st, now);
    RollTimesFail(cfg.autoAlgorithm, ALGORITHM_ROLLS, lib, st, now);
  }

  // ----- The conditions are needed -----

  const PLAIN_CONFIG := Config(false, 13, false, false, None, None, None,
                               AutoConfig(false, false, false, false), AutoConfig(false, false, false, false),
                               AutoConfig(false, false, false, false), AutoConfig(false, false, false, false),
                               0, 0, false, 0)

  /** A zone with a KSK and a ZSK in use. */
  const TWO_KEYS: Keys := map["ksk" := Key(Ksk(KeyState(false, true)), 13, 1, Some(0), None),
                              "zsk" := Key(Zsk(KeyState(false, true)), 13, 2, Some(0), None)]

  /** Its DNSKEY RRset has one signature. */
  function OneSignature(zone: Names.Name, expiration: nat, cronNext: Time): State {
    State(KeySet(TWO_KEYS, map[]),
          [Rr(zone, RrsigData(DNSKEY_TYPE, expiration, 0), 3600),
           Rr(zone, DnskeyData(PublicKey(13, 1)), 3600), Rr(zone, DnskeyData(PublicKey(13, 2)), 3600)],
          [], [], map[], Some(cronNext))
  }

  lemma {:induction false} OneSignatureScheduled(lib: Library, expiration: nat, asOf: Time)
    requires SystemSecs(expiration, Secs(asOf)) >= 0
    ensures var next := SystemSecs(expiration, Secs(asOf)) * SECOND;
            Scheduled(PLAIN_CONFIG, lib, OneSignature(lib.zone, expiration, next), asOf)
  {
    var next := SystemSecs(expiration, Secs(asOf)) * SECOND;
    var st := OneSignature(lib.zone, expiration, next);
    OneRenewalTime(st.dnskeyRrset, asOf);
    NoRulesNoStarts(StartRules(PLAIN_CONFIG, TWO_KEYS), st.keyset);
    assert AllRollTimes(PLAIN_CONFIG, lib, st, asOf) == Ok({});
    assert CronTimes(PLAIN_CONFIG, lib, st, asOf).value == {next};
  }

  lemma {:induction false} OneRenewalTime(rrset: Rrset, asOf: Time)
    requires rrset != [] && rrset[0].data.RrsigData? && SystemSecs(rrset[0].data.expiration, Secs(asOf)) >= 0
    requires forall i :: 0 < i < |rrset| ==> !rrset[i].data.RrsigData?
    ensures RenewalTimes(rrset, 0, asOf) == {SystemSecs(rrset[0].data.expiration, Secs(asOf)) * SECOND}
  {
    assert RenewalTime(SystemSecs(rrset[0].data.expiration, Secs(asOf)), 0) in RenewalTimes(rrset, 0, asOf);
  }

  lemma {:induction false} NoRulesNoStarts(rules: seq<StartRule>, ks: KeySet)
    requires forall i :: 0 <= i < |rules| ==> rules[i].validity.None?
    ensures AllStartTimes(rules, ks) == {}
  {
    if rules != [] {
      NoRulesNoStarts(rules[1..], ks);
    }
  }

  /** Half a second after the time stored for a renewal nothing is due yet. */
  lemma {:induction false} RenewalWakesEarly(lib: Library, w: World)
    requires LibraryOk(lib) && WorldOk(w)
    ensures var st := OneSignature(lib.zone, 1000, 1000 * SECOND);
            && Scheduled(PLAIN_CONFIG, lib, st, 0) && Near(st.dnskeyRrset, 0)
            && Cron(PLAIN_CONFIG, lib, w, 1000 * SECOND + SECOND / 2, st) == Run(st, [], Running)
  {
    var st := OneSignature(lib.zone, 1000, 1000 * SECOND);
    OneSignatureScheduled(lib, 1000, 0);
    assert !RenewReached(st.dnskeyRrset, 0, 1000 * SECOND + SECOND / 2);
    CronTimesSplit(PLAIN_CONFIG, lib, st, 0);
    NoRulesNoStarts(StartRules(PLAIN_CONFIG, TWO_KEYS), st.keyset);
    BusyExactly(PLAIN_CONFIG, lib, w, st, 0, 1000 * SECOND + SECOND / 2);
  }

  /** A signature that ends after the 32-bit numbers have wrapped is renewed
      by every run from then on, however far off the stored time is. */
  lemma {:induction false} FarSignatureIsNeverIdle(lib: Library, w: World, now: Time)
    requires LibraryOk(lib) && WorldOk(w) && (WRAP - 100) * SECOND <= now
    ensures var asOf := (WRAP - 100) * SECOND;
            var st := OneSignature(lib.zone, 100, (WRAP + 100) * SECOND);
            && Scheduled(PLAIN_CONFIG, lib, st, asOf) && asOf < st.cronNext.value
            && Cron(PLAIN_CONFIG, lib, w, now, st).log != []
  {
    var asOf := (WRAP - 100) * SECOND;
    var st := OneSignature(lib.zone, 100, (WRAP + 100) * SECOND);
    assert Secs(asOf) == WRAP - 100 <= Secs(now);
    assert (100 - (WRAP - 100)) % WRAP == 200;
    OneSignatureScheduled(lib, 100, asOf);
    assert SigRenew(st.dnskeyRrset, 0, now) by {
      assert st.dnskeyRrset[0].data.RrsigData?;
    }
    CronActs(PLAIN_CONFIG, lib, w, now, st);
  }
}
