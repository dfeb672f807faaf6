/** What every step of a cron run keeps: the report map has an entry for
    exactly the rolls in progress, so no step ever misses one. */
module CronKeeps {
  import opened Wrappers
  import opened KeySets
  import opened ReportSlots
  import opened CronSpec

  /** A run that has not failed is in a valid state, and one that has panicked
      has done so in a check. */
  ghost predicate Sound(run: Run) {
    && (run.status.Running? ==> Valid(run.state))
    && (run.status.Panic? ==> run.log != [] && run.log[|run.log| - 1].Crashed?)
  }

  /** Handling actions changes RRsets only, and adds no step. */
  lemma {:induction false} HandleActionsFrame(actions: seq<Action>, w: World, run: Run)
    ensures var after := HandleActions(actions, w, run);
            && after.log == run.log
            && after.state.keyset == run.state.keyset
            && after.state.internal == run.state.internal
            && after.state.cronNext == run.state.cronNext
            && (after.status.Panic? ==> run.status.Panic?)
  {
    if actions != [] && run.status.Running? {
      HandleActionsFrame(actions[1..], w, HandleAction(actions[0], w, run));
    }
  }

  lemma {:induction false} EnterStateKeeps(r: RollType, ks: KeySet, lib: Library, w: World, run: Run)
    requires r in ks.rolls && ks.rolls.Keys == run.state.internal.Keys && StaleWithdrawn(ks.keys) && run.status.Running?
    ensures Sound(EnterState(r, ks, lib, w, run))
    ensures EnterState(r, ks, lib, w, run).log == run.log
  {
    HandleActionsFrame(lib.actions(r, ks.rolls[r]), w, run.(state := run.state.(keyset := ks)));
  }

  lemma {:induction false} StartKeyKeeps(kind: StartKind, cfg: Config, lib: Library, w: World, run: Run)
    requires LibraryOk(lib) && WorldOk(w) && run.status.Running? && Valid(run.state)
    requires run.state.keyset.keys != map[]
    ensures Sound(StartKey(kind, cfg, lib, w, run))
    ensures run.log <= StartKey(kind, cfg, lib, w, run).log
    ensures !StartKey(kind, cfg, lib, w, run).status.Panic?
  {
    var ks := run.state.keyset;
    var r := RollOf(kind, cfg);
    var begun := run.(log := run.log + [Start(r)]);
    if !(WrongRoll(kind, cfg, ks.keys) || w.newKeys(ks.keys, kind).None?) {
      var (keys, added) := w.newKeys(ks.keys, kind).value;
      var started := StartRoll(lib, KeySet(keys, ks.rolls), r, Retired(kind, ks.keys), added, w.clock);
      if started.Some? {
        HandleActionsFrame(lib.actions(r, Propagation1), w, begun.(state := begun.state.(keyset := started.value)));
      }
    }
  }

  lemma {:induction false} AutoStartKeeps(rule: StartRule, cfg: Config, lib: Library, w: World, now: Time, run: Run)
    requires LibraryOk(lib) && WorldOk(w) && Sound(run)
    ensures Sound(AutoStart(rule, cfg, lib, w, now, run))
  {
    if run.status.Running? && StartDue(rule, run.state.keyset, now) {
      StartKeyKeeps(rule.starts, cfg, lib, w, run);
    }
  }

  lemma {:induction false} StageStepKeeps(stage: Stage, r: RollType, lib: Library, w: World, now: Time, run: Run)
    requires LibraryOk(lib) && Sound(run)
    ensures Sound(StageStep(stage, r, lib, w, now, run))
  {
    if run.status.Running? {
      match stage {
        case Reporting => ReportStepKeeps(r, lib, w, now, run);
        case CacheExpiring => ExpireStepKeeps(r, lib, w, now, run);
        case Finishing => DoneStepKeeps(r, lib, w, now, run);
      }
    }
  }

  lemma {:induction false} ExpireStepKeeps(r: RollType, lib: Library, w: World, now: Time, run: Run)
    requires LibraryOk(lib) && run.status.Running? && Valid(run.state)
    ensures Sound(ExpireStep(r, lib, w, now, run))
  {
    var res := CacheExpired(lib, run.state.keyset, r, now);
    if res.Expired? {
      EnterStateKeeps(r, res.keyset, lib, w, run.(log := run.log + [Expire(r)]));
    }
  }

  lemma DoneStepKeeps(r: RollType, lib: Library, w: World, now: Time, run: Run)
    requires LibraryOk(lib) && run.status.Running? && Valid(run.state)
    ensures Sound(DoneStep(r, lib, w, now, run))
  {
  }

  lemma {:induction false} ReportStepKeeps(r: RollType, lib: Library, w: World, now: Time, run: Run)
    requires LibraryOk(lib) && run.status.Running? && Valid(run.state)
    ensures Sound(ReportStep(r, lib, w, now, run))
  {
    if Propagating(run.state.keyset, r) {
      var during := run.state.keyset.rolls[r];
      var slots := SlotsOf(run.state.internal[r], during);
      var res := RunActions(lib.actions(r, during), slots, now, w.probes(r, run.state));
      var next := Probed(r, during, res.slots, res.probes, run);
      if res.Next? {
        var moved := PropagationComplete(lib, next.state.keyset, r, res.ttl, w.clock);
        if moved.Some? {
          EnterStateKeeps(r, moved.value, lib, w, next.(log := next.log + [Complete(r, during, res.ttl)]));
        }
      }
    }
  }

  // ----- From steps to runs -----

  /** Every single step of a cron run keeps `P`. */
  ghost predicate StepsKeep(P: Run -> bool, cfg: Config, lib: Library, w: World, now: Time) {
    && (forall run :: P(run) ==> P(RenewDnskey(cfg, w, now, run)))
    && (forall run :: P(run) ==> P(RenewCds(cfg, w, now, run)))
    && (forall rule, run :: P(run) ==> P(AutoStart(rule, cfg, lib, w, now, run)))
    && (forall stage, r, run :: P(run) ==> P(StageStep(stage, r, lib, w, now, run)))
    && (forall run :: P(run) ==> P(AutoRemove(cfg, w, now, run)))
  }

  lemma {:induction false} AutoStartsKeep(P: Run -> bool, rules: seq<StartRule>, cfg: Config, lib: Library, w: World,
                                          now: Time, run: Run)
    requires StepsKeep(P, cfg, lib, w, now) && P(run)
    ensures P(AutoStarts(rules, cfg, lib, w, now, run))
    decreases |rules|
  {
    if rules != [] {
      AutoStartsKeep(P, rules[1..], cfg, lib, w, now, AutoStart(rules[0], cfg, lib, w, now, run));
    }
  }

  lemma {:induction false} StageStepsKeep(P: Run -> bool, stage: Stage, rolls: seq<RollType>, cfg: Config,
                                          lib: Library, w: World, now: Time, run: Run)
    requires StepsKeep(P, cfg, lib, w, now) && P(run)
    ensures P(StageSteps(stage, rolls, lib, w, now, run))
    decreases |rolls|
  {
    if rolls != [] {
      StageStepsKeep(P, stage, rolls[1..], cfg, lib, w, now, StageStep(stage, rolls[0], lib, w, now, run));
    }
  }

  lemma {:induction false} AutoReportExpireDoneKeeps(P: Run -> bool, auto: AutoConfig, rolls: seq<RollType>,
                                                     cfg: Config, lib: Library, w: World, now: Time, run: Run)
    requires StepsKeep(P, cfg, lib, w, now) && P(run)
    ensures P(AutoReportExpireDone(auto, rolls, lib, w, now, run))
  {
    var run1 := if auto.report then StageSteps(Reporting, rolls, lib, w, now, run) else run;
    var run2 := if auto.expire then StageSteps(CacheExpiring, rolls, lib, w, now, run1) else run1;
    StageStepsKeep(P, Reporting, rolls, cfg, lib, w, now, run);
    StageStepsKeep(P, CacheExpiring, rolls, cfg, lib, w, now, run1);
    StageStepsKeep(P, Finishing, rolls, cfg, lib, w, now, run2);
  }

  lemma {:induction false} AutoRollsKeep(P: Run -> bool, cfg: Config, lib: Library, w: World, now: Time, run: Run)
    requires StepsKeep(P, cfg, lib, w, now) && P(run)
    ensures P(AutoRolls(cfg, lib, w, now, run))
  {
    var run1 := AutoReportExpireDone(cfg.autoKsk, KSK_ROLLS, lib, w, now, run);
    var run2 := AutoReportExpireDone(cfg.autoZsk, ZSK_ROLLS, lib, w, now, run1);
    var run3 := AutoReportExpireDone(cfg.autoCsk, CSK_ROLLS, lib, w, now, run2);
    AutoReportExpireDoneKeeps(P, cfg.autoKsk, KSK_ROLLS, cfg, lib, w, now, run);
    AutoReportExpireDoneKeeps(P, cfg.autoZsk, ZSK_ROLLS, cfg, lib, w, now, run1);
    AutoReportExpireDoneKeeps(P, cfg.autoCsk, CSK_ROLLS, cfg, lib, w, now, run2);
    AutoReportExpireDoneKeeps(P, cfg.autoAlgorithm, ALGORITHM_ROLLS, cfg, lib, w, now, run3);
  }

  /** What every step keeps, a whole cron run keeps. */
  lemma {:induction false} CronKeepsStepwise(P: Run -> bool, cfg: Config, lib: Library, w: World, now: Time, st: State)
    requires StepsKeep(P, cfg, lib, w, now) && P(Run(st, [], Running))
    ensures P(Cron(cfg, lib, w, now, st))
  {
    var renewed := RenewDnskey(cfg, w, now, Run(st, [], Running));
    var run1 := RenewCds(cfg, w, now, renewed);
    assert P(renewed) && P(run1);
    var rules := StartRules(cfg, run1.state.keyset.keys);
    AutoStartsKeep(P, rules, cfg, lib, w, now, run1);
    AutoRollsKeep(P, cfg, lib, w, now, AutoStarts(rules, cfg, lib, w, now, run1));
  }

  lemma {:induction false} StepsKeepSound(cfg: Config, lib: Library, w: World, now: Time)
    requires LibraryOk(lib) && WorldOk(w)
    ensures StepsKeep(Sound, cfg, lib, w, now)
  {
    forall run | Sound(run) ensures Sound(RenewDnskey(cfg, w, now, run)) && Sound(RenewCds(cfg, w, now, run)) {}
    forall rule, run | Sound(run) ensures Sound(AutoStart(rule, cfg, lib, w, now, run)) {
      AutoStartKeeps(rule, cfg, lib, w, now, run);
    }
    forall stage, r, run | Sound(run) ensures Sound(StageStep(stage, r, lib, w, now, run)) {
      StageStepKeeps(stage, r, lib, w, now, run);
    }
  }

  /** A cron run on a valid state misses no entry it looks up, and unless it
      fails it ends in a valid state. */
  lemma {:induction false} CronKeepsValid(cfg: Config, lib: Library, w: World, now: Time, st: State)
    requires LibraryOk(lib) && WorldOk(w) && Valid(st)
    ensures Sound(Cron(cfg, lib, w, now, st))
  {
    StepsKeepSound(cfg, lib, w, now);
    CronKeepsStepwise(Sound, cfg, lib, w, now, st);
  }
}
