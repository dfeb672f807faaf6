/** When a cron run panics: exactly when it comes to a check that does. */
module CronPanics {
  import opened Wrappers
  import opened Records
  import opened KeySets
  import opened ReportSlots
  import opened CronSpec
  import opened CronKeeps

  // ----- The steps of the rolls, one after the other -----

  /** One stage of one roll. */
  datatype RollStep = RollStep(stage: Stage, roll: RollType)

  function StagePlan(on: bool, stage: Stage, rolls: seq<RollType>): seq<RollStep> {
    if !on || rolls == [] then [] else [RollStep(stage, rolls[0])] + StagePlan(on, stage, rolls[1..])
  }

  function AutoPlan(auto: AutoConfig, rolls: seq<RollType>): seq<RollStep> {
    StagePlan(auto.report, Reporting, rolls)
    + (StagePlan(auto.expire, CacheExpiring, rolls) + StagePlan(auto.done, Finishing, rolls))
  }

  /** All steps that the configuration enables. */
  function Plan(cfg: Config): seq<RollStep> {
    AutoPlan(cfg.autoKsk, KSK_ROLLS)
    + (AutoPlan(cfg.autoZsk, ZSK_ROLLS)
       + (AutoPlan(cfg.autoCsk, CSK_ROLLS) + AutoPlan(cfg.autoAlgorithm, ALGORITHM_ROLLS)))
  }

  /** Which of the four settings a roll is subject to, in the order of the run. */
  function Group(r: RollType): nat {
    match r
    case KskRoll => 0
    case KskDoubleDsRoll => 0
    case ZskRoll => 1
    case ZskDoubleSignatureRoll => 1
    case CskRoll => 2
    case AlgorithmRoll => 3
  }

  predicate On(auto: AutoConfig, stage: Stage) {
    match stage
    case Reporting => auto.report
    case CacheExpiring => auto.expire
    case Finishing => auto.done
  }

  predicate Enabled(s: RollStep, cfg: Config) {
    match Group(s.roll)
    case 0 => On(cfg.autoKsk, s.stage)
    case 1 => On(cfg.autoZsk, s.stage)
    case 2 => On(cfg.autoCsk, s.stage)
    case _ => On(cfg.autoAlgorithm, s.stage)
  }

  /** `a` comes before `b`: in an earlier group, at an earlier stage of the same
      one, or at the same stage for the first of two rolls. */
  predicate Before(a: RollStep, b: RollStep) {
    || Group(a.roll) < Group(b.roll)
    || (Group(a.roll) == Group(b.roll) &&
        (if a.stage == b.stage then (a.roll.KskRoll? || a.roll.ZskRoll?) && a.roll != b.roll
         else a.stage.Reporting? || b.stage.Finishing?))
  }

  /** The plan has exactly the enabled steps, in this order. */
  lemma {:induction false} PlanIsComplete(cfg: Config)
    ensures forall s :: s in Plan(cfg) <==> Enabled(s, cfg)
    ensures Ordered(Plan(cfg))
  {
    var a, b := AutoPlan(cfg.autoKsk, KSK_ROLLS), AutoPlan(cfg.autoZsk, ZSK_ROLLS);
    var c, d := AutoPlan(cfg.autoCsk, CSK_ROLLS), AutoPlan(cfg.autoAlgorithm, ALGORITHM_ROLLS);
    GroupPlan(cfg.autoKsk, KSK_ROLLS, 0);
    GroupPlan(cfg.autoZsk, ZSK_ROLLS, 1);
    GroupPlan(cfg.autoCsk, CSK_ROLLS, 2);
    GroupPlan(cfg.autoAlgorithm, ALGORITHM_ROLLS, 3);
    InTurn(c, d);
    InTurn(b, c + d);
    InTurn(a, b + (c + d));
    forall s ensures s in Plan(cfg) <==> s in a || s in b || s in c || s in d {
      InEither(s, c, d);
      InEither(s, b, c + d);
      InEither(s, a, b + (c + d));
    }
  }

  lemma InEither(s: RollStep, a: seq<RollStep>, b: seq<RollStep>)
    ensures s in a + b <==> s in a || s in b
  {
  }

  ghost predicate Ordered(plan: seq<RollStep>) {
    forall i, j :: 0 <= i < j < |plan| ==> Before(plan[i], plan[j])
  }

  lemma InTurn(a: seq<RollStep>, b: seq<RollStep>)
    requires Ordered(a) && Ordered(b) && forall s, t :: s in a && t in b ==> Before(s, t)
    ensures Ordered(a + b)
  {
  }

  /** The rolls are those of one group. */
  predicate IsGroup(rolls: seq<RollType>, g: nat) {
    match g
    case 0 => rolls == [KskRoll, KskDoubleDsRoll]
    case 1 => rolls == [ZskRoll, ZskDoubleSignatureRoll]
    case 2 => rolls == [CskRoll]
    case 3 => rolls == [AlgorithmRoll]
    case _ => false
  }

  lemma {:induction false} GroupPlan(auto: AutoConfig, rolls: seq<RollType>, g: nat)
    requires IsGroup(rolls, g)
    ensures Ordered(AutoPlan(auto, rolls))
    ensures forall s :: s in AutoPlan(auto, rolls) <==> Group(s.roll) == g && On(auto, s.stage)
  {
    var a := StagePlan(auto.report, Reporting, rolls);
    var b := StagePlan(auto.expire, CacheExpiring, rolls);
    var c := StagePlan(auto.done, Finishing, rolls);
    OneStage(auto.report, Reporting, rolls, g);
    OneStage(auto.expire, CacheExpiring, rolls, g);
    OneStage(auto.done, Finishing, rolls, g);
    InTurn(b, c);
    InTurn(a, b + c);
    forall s ensures s in AutoPlan(auto, rolls) <==> s in a || s in b || s in c {
      InEither(s, b, c);
      InEither(s, a, b + c);
    }
  }

  lemma {:induction false} OneStage(on: bool, stage: Stage, rolls: seq<RollType>, g: nat)
    requires IsGroup(rolls, g)
    ensures Ordered(StagePlan(on, stage, rolls))
    ensures forall s :: s in StagePlan(on, stage, rolls) <==> on && s.stage == stage && Group(s.roll) == g
  {
    assert rolls == [rolls[0]] + rolls[1..];
    if on {
      if |rolls| == 1 {
        assert StagePlan(on, stage, rolls) == [RollStep(stage, rolls[0])];
      } else {
        assert rolls[1..] == [rolls[1]] && rolls[1..][1..] == [];
        assert StagePlan(on, stage, rolls[1..]) == [RollStep(stage, rolls[1])];
        assert StagePlan(on, stage, rolls) == [RollStep(stage, rolls[0]), RollStep(stage, rolls[1])];
      }
    }
  }

  function Follow(plan: seq<RollStep>, lib: Library, w: World, now: Time, run: Run): Run {
    if plan == [] then run
    else Follow(plan[1..], lib, w, now, StageStep(plan[0].stage, plan[0].roll, lib, w, now, run))
  }

  lemma {:induction false} FollowConcat(a: seq<RollStep>, b: seq<RollStep>, lib: Library, w: World, now: Time, run: Run)
    ensures Follow(a + b, lib, w, now, run) == Follow(b, lib, w, now, Follow(a, lib, w, now, run))
    decreases |a|
  {
    if a == [] {
      assert a + b == b;
    } else {
      assert (a + b)[1..] == a[1..] + b;
      FollowConcat(a[1..], b, lib, w, now, StageStep(a[0].stage, a[0].roll, lib, w, now, run));
    }
  }

  lemma {:induction false} FollowStage(on: bool, stage: Stage, rolls: seq<RollType>, lib: Library, w: World, now: Time,
                                       run: Run)
    ensures Follow(StagePlan(on, stage, rolls), lib, w, now, run) ==
              if on then StageSteps(stage, rolls, lib, w, now, run) else run
    decreases |rolls|
  {
    if on && rolls != [] {
      var plan := StagePlan(on, stage, rolls);
      assert plan[1..] == StagePlan(on, stage, rolls[1..]);
      FollowStage(on, stage, rolls[1..], lib, w, now, StageStep(stage, rolls[0], lib, w, now, run));
    }
  }

  lemma {:induction false} FollowAuto(auto: AutoConfig, rolls: seq<RollType>, lib: Library, w: World, now: Time,
                                      run: Run)
    ensures Follow(AutoPlan(auto, rolls), lib, w, now, run) == AutoReportExpireDone(auto, rolls, lib, w, now, run)
  {
    var a := StagePlan(auto.report, Reporting, rolls);
    var b := StagePlan(auto.expire, CacheExpiring, rolls);
    var c := StagePlan(auto.done, Finishing, rolls);
    FollowConcat(a, b + c, lib, w, now, run);
    var run1 := Follow(a, lib, w, now, run);
    FollowConcat(b, c, lib, w, now, run1);
    FollowStage(auto.report, Reporting, rolls, lib, w, now, run);
    FollowStage(auto.expire, CacheExpiring, rolls, lib, w, now, run1);
    FollowStage(auto.done, Finishing, rolls, lib, w, now, Follow(b, lib, w, now, run1));
  }

  /** The run follows the plan. */
  lemma {:induction false} RollsFollowPlan(cfg: Config, lib: Library, w: World, now: Time, run: Run)
    ensures Follow(Plan(cfg), lib, w, now, run) == AutoRolls(cfg, lib, w, now, run)
  {
    var a, b := AutoPlan(cfg.autoKsk, KSK_ROLLS), AutoPlan(cfg.autoZsk, ZSK_ROLLS);
    var c, d := AutoPlan(cfg.autoCsk, CSK_ROLLS), AutoPlan(cfg.autoAlgorithm, ALGORITHM_ROLLS);
    FollowConcat(a, b + (c + d), lib, w, now, run);
    var run1 := Follow(a, lib, w, now, run);
    FollowConcat(b, c + d, lib, w, now, run1);
    var run2 := Follow(b, lib, w, now, run1);
    FollowConcat(c, d, lib, w, now, run2);
    FollowAuto(cfg.autoKsk, KSK_ROLLS, lib, w, now, run);
    FollowAuto(cfg.autoZsk, ZSK_ROLLS, lib, w, now, run1);
    FollowAuto(cfg.autoCsk, CSK_ROLLS, lib, w, now, run2);
    FollowAuto(cfg.autoAlgorithm, ALGORITHM_ROLLS, lib, w, now, Follow(c, lib, w, now, run2));
  }

  // ----- Panics -----

  /** The step looks at slots from which it comes to a check that panics. */
  predicate StepPanics(s: RollStep, lib: Library, w: World, now: Time, st: State) {
    && s.roll in st.keyset.rolls && s.roll in st.internal
    && var during := st.keyset.rolls[s.roll];
    && (match s.stage
        case Reporting => during.Propagation1? || during.Propagation2?
        case CacheExpiring => false
        case Finishing => during.Done?)
    && PassCrashes(lib.actions(s.roll, during), SlotsOf(st.internal[s.roll], during), now, w.probes(s.roll, st))
  }

  lemma {:induction false} StepPanicsExactly(s: RollStep, lib: Library, w: World, now: Time, run: Run)
    requires LibraryOk(lib) && run.status.Running? && Valid(run.state)
    ensures StageStep(s.stage, s.roll, lib, w, now, run).status.Panic? <==> StepPanics(s, lib, w, now, run.state)
  {
    var r, st := s.roll, run.state;
    if r in st.keyset.rolls {
      var during := st.keyset.rolls[r];
      var actions, slots, p := lib.actions(r, during), SlotsOf(st.internal[r], during), w.probes(r, st);
      PassCrashesExactly(actions, slots, now, p);
      match s.stage {
        case Reporting => ReportPanics(r, lib, w, now, run);
        case CacheExpiring =>
          var res := CacheExpired(lib, st.keyset, r, now);
          if res.Expired? {
            EnterStateCalm(r, res.keyset, lib, w, run.(log := run.log + [Expire(r)]));
          }
        case Finishing =>
      }
    }
  }

  lemma {:induction false} ReportPanics(r: RollType, lib: Library, w: World, now: Time, run: Run)
    requires LibraryOk(lib) && run.status.Running? && Valid(run.state) && r in run.state.keyset.rolls
    ensures ReportStep(r, lib, w, now, run).status.Panic? <==>
              && Propagating(run.state.keyset, r)
              && var during := run.state.keyset.rolls[r];
                 var slots := SlotsOf(run.state.internal[r], during);
                 RunActions(lib.actions(r, during), slots, now, w.probes(r, run.state)).Crash?
  {
    if Propagating(run.state.keyset, r) {
      var during := run.state.keyset.rolls[r];
      var slots := SlotsOf(run.state.internal[r], during);
      var res := RunActions(lib.actions(r, during), slots, now, w.probes(r, run.state));
      if res.Next? {
        var next := Probed(r, during, res.slots, res.probes, run);
        var done := next.(log := next.log + [Complete(r, during, res.ttl)]);
        var moved := PropagationComplete(lib, done.state.keyset, r, res.ttl, w.clock);
        if moved.Some? {
          EnterStateCalm(r, moved.value, lib, w, done);
        }
      }
    }
  }

  lemma {:induction false} EnterStateCalm(r: RollType, ks: KeySet, lib: Library, w: World, run: Run)
    requires r in ks.rolls && run.status.Running?
    ensures !EnterState(r, ks, lib, w, run).status.Panic?
  {
    HandleActionsFrame(lib.actions(r, ks.rolls[r]), w, run.(state := run.state.(keyset := ks)));
  }

  /** After `n` steps the run goes on and comes to a step that panics. */
  ghost predicate PanicsAt(plan: seq<RollStep>, n: nat, lib: Library, w: World, now: Time, run: Run)
    requires n < |plan|
  {
    var before := Follow(plan[..n], lib, w, now, run);
    before.status.Running? && StepPanics(plan[n], lib, w, now, before.state)
  }

  /** A panic at the first step or, if the run then goes on, at a later one. */
  lemma {:induction false} PlanPanicsExactly(plan: seq<RollStep>, lib: Library, w: World, now: Time, run: Run)
    requires LibraryOk(lib) && run.status.Running? && Valid(run.state)
    ensures Follow(plan, lib, w, now, run).status.Panic? <==>
              exists n :: 0 <= n < |plan| && PanicsAt(plan, n, lib, w, now, run)
    decreases |plan|
  {
    if plan != [] {
      var next := StageStep(plan[0].stage, plan[0].roll, lib, w, now, run);
      StepPanicsExactly(plan[0], lib, w, now, run);
      StageStepKeeps(plan[0].stage, plan[0].roll, lib, w, now, run);
      assert PanicsAt(plan, 0, lib, w, now, run) <==> next.status.Panic?;
      forall n | 1 <= n < |plan|
        ensures PanicsAt(plan, n, lib, w, now, run) <==>
                  next.status.Running? && PanicsAt(plan[1..], n - 1, lib, w, now, next)
      {
        PanicsLater(plan, n, lib, w, now, run);
      }
      if next.status.Running? {
        PlanPanicsExactly(plan[1..], lib, w, now, next);
        if n :| 0 <= n < |plan[1..]| && PanicsAt(plan[1..], n, lib, w, now, next) {
          var later := n + 1;
          assert PanicsAt(plan, later, lib, w, now, run);
        }
      } else {
        StoppedForGood(plan[1..], lib, w, now, next);
      }
    }
  }

  lemma {:induction false} PanicsLater(plan: seq<RollStep>, n: nat, lib: Library, w: World, now: Time, run: Run)
    requires 1 <= n < |plan|
    ensures var next := StageStep(plan[0].stage, plan[0].roll, lib, w, now, run);
            PanicsAt(plan, n, lib, w, now, run) <==>
              next.status.Running? && PanicsAt(plan[1..], n - 1, lib, w, now, next)
  {
    var next := StageStep(plan[0].stage, plan[0].roll, lib, w, now, run);
    assert plan[..n][1..] == plan[1..][..n - 1];
    if !next.status.Running? {
      StoppedForGood(plan[..n][1..], lib, w, now, next);
    }
  }

  lemma {:induction false} StoppedForGood(plan: seq<RollStep>, lib: Library, w: World, now: Time, run: Run)
    requires !run.status.Running?
    ensures Follow(plan, lib, w, now, run) == run
    decreases |plan|
  {
    if plan != [] {
      StoppedForGood(plan[1..], lib, w, now, run);
    }
  }

  // ----- The whole run -----

  /** The run up to the steps of the rolls. */
  function BeforeRolls(cfg: Config, lib: Library, w: World, now: Time, st: State): Run {
    var run1 := RenewCds(cfg, w, now, RenewDnskey(cfg, w, now, Run(st, [], Running)));
    AutoStarts(StartRules(cfg, run1.state.keyset.keys), cfg, lib, w, now, run1)
  }

  /** The run gets through its renewals and starts and then comes to a step
      that panics. */
  ghost predicate CronCrashes(cfg: Config, lib: Library, w: World, now: Time, st: State) {
    var run := BeforeRolls(cfg, lib, w, now, st);
    run.status.Running? && exists n :: 0 <= n < |Plan(cfg)| && PanicsAt(Plan(cfg), n, lib, w, now, run)
  }

  ghost predicate Calm(run: Run) {
    Sound(run) && !run.status.Panic?
  }

  lemma {:induction false} StartsStayCalm(rules: seq<StartRule>, cfg: Config, lib: Library, w: World, now: Time,
                                          run: Run)
    requires LibraryOk(lib) && WorldOk(w) && Calm(run)
    ensures Calm(AutoStarts(rules, cfg, lib, w, now, run))
    decreases |rules|
  {
    if rules != [] {
      if run.status.Running? && StartDue(rules[0], run.state.keyset, now) {
        StartKeyKeeps(rules[0].starts, cfg, lib, w, run);
      }
      StartsStayCalm(rules[1..], cfg, lib, w, now, AutoStart(rules[0], cfg, lib, w, now, run));
    }
  }

  /** A cron run on a valid state panics exactly then. */
  lemma {:induction false} CronPanicsExactly(cfg: Config, lib: Library, w: World, now: Time, st: State)
    requires LibraryOk(lib) && WorldOk(w) && Valid(st)
    ensures Cron(cfg, lib, w, now, st).status.Panic? <==> CronCrashes(cfg, lib, w, now, st)
  {
    var run1 := RenewCds(cfg, w, now, RenewDnskey(cfg, w, now, Run(st, [], Running)));
    var rules := StartRules(cfg, run1.state.keyset.keys);
    StartsStayCalm(rules, cfg, lib, w, now, run1);
    var run := BeforeRolls(cfg, lib, w, now, st);
    RollsFollowPlan(cfg, lib, w, now, run);
    if run.status.Running? {
      PlanPanicsExactly(Plan(cfg), lib, w, now, run);
      FollowKeeps(Plan(cfg), lib, w, now, run);
    } else {
      StoppedForGood(Plan(cfg), lib, w, now, run);
    }
  }

  lemma {:induction false} FollowKeeps(plan: seq<RollStep>, lib: Library, w: World, now: Time, run: Run)
    requires LibraryOk(lib) && Sound(run)
    ensures Sound(Follow(plan, lib, w, now, run))
    decreases |plan|
  {
    if plan != [] {
      StageStepKeeps(plan[0].stage, plan[0].roll, lib, w, now, run);
      FollowKeeps(plan[1..], lib, w, now, StageStep(plan[0].stage, plan[0].roll, lib, w, now, run));
    }
  }

  /** No check ever panics. */
  ghost predicate ChecksGoWell(w: World) {
    forall r, st :: w.probes(r, st).ds.Some? && !w.probes(r, st).zone.ZoneAllDone?
  }

  lemma {:induction false} NoCrashNoPanic(cfg: Config, lib: Library, w: World, now: Time, st: State)
    requires ChecksGoWell(w)
    ensures !CronCrashes(cfg, lib, w, now, st)
  {
    forall s: RollStep, st' ensures !StepPanics(s, lib, w, now, st') {
      assert w.probes(s.roll, st').ds.Some?;
    }
  }

  /** The ordinary end of a ZSK roll panics: all signatures are there, the SOA
      has reached all servers, and cron looks for the first time. */
  lemma {:induction false} FinishedZonePanics(cfg: Config, lib: Library, w: World, now: Time, keys: Keys)
    requires LibraryOk(lib) && WorldOk(w) && StaleWithdrawn(keys)
    requires cfg.kskValidity.None? && cfg.zskValidity.None? && cfg.cskValidity.None?
    requires !cfg.autoKsk.report && !cfg.autoKsk.expire && !cfg.autoKsk.done && cfg.autoZsk.report
    requires lib.actions(ZskRoll, Propagation2) == [ReportRrsigPropagated]
    requires var st := State(KeySet(keys, map[ZskRoll := Propagation2]), [], [], [], map[ZskRoll := NO_REPORTS], None);
             w.probes(ZskRoll, st).zone.ZoneAllDone?
    ensures var st := State(KeySet(keys, map[ZskRoll := Propagation2]), [], [], [], map[ZskRoll := NO_REPORTS], None);
            Valid(st) && Cron(cfg, lib, w, now, st).status.Panic?
  {
    var st := State(KeySet(keys, map[ZskRoll := Propagation2]), [], [], [], map[ZskRoll := NO_REPORTS], None);
    var plan, run := Plan(cfg), Run(st, [], Running);
    assert AutoPlan(cfg.autoKsk, KSK_ROLLS) == [];
    assert plan[0] == RollStep(Reporting, ZskRoll);
    assert plan[..0] == [];
    NoStartsDue(StartRules(cfg, keys), cfg, lib, w, now, run);
    assert CrashesFirst([ReportRrsigPropagated], EMPTY, now, w.probes(ZskRoll, st), 0);
    assert PanicsAt(plan, 0, lib, w, now, run);
    CronPanicsExactly(cfg, lib, w, now, st);
  }

  lemma {:induction false} NoStartsDue(rules: seq<StartRule>, cfg: Config, lib: Library, w: World, now: Time, run: Run)
    requires forall i :: 0 <= i < |rules| ==> rules[i].validity.None?
    ensures AutoStarts(rules, cfg, lib, w, now, run) == run
    decreases |rules|
  {
    if rules != [] {
      NoStartsDue(rules[1..], cfg, lib, w, now, run);
    }
  }
}
