/** All commands that change the stored state, over any sequence of them. */
module KeysetRuns {
  import opened Wrappers
  import opened KeySets
  import opened ReportSlots
  import opened CronSpec
  import opened CronKeeps
  import opened CronPanics
  import opened Schedule

  /** Which key roll a roll command is for. */
  type Variant = StartKind

  datatype Command =
    | Init
    | Set(cfg: Config)
    | StartRollOf(variant: Variant)
    | Propagated(variant: Variant, second: bool, ttl: nat)
    | CachesExpired(variant: Variant, second: bool)
    | DoneWith(variant: Variant)
    | EditKeys(edit: Keys -> Option<Keys>)
    | CronRun
    | ReadOnly

  /** What is stored, with the time its schedule was computed at, the time of
      the last command and the steps taken so far. */
  datatype System = System(cfg: Config, state: State, asOf: Time, clock: Time, history: seq<Event>)

  // ----- The commands -----

  predicate HasKey(keys: Keys, kind: KeyKind) {
    exists p :: p in keys && OfKind(keys[p], kind)
  }

  function InitRun(lib: Library, w: World, run: Run): Run {
    var keys := run.state.keyset.keys;
    if run.state.dnskeyRrset != [] then Fail(run)
    else if (HasKey(keys, AnyKsk) && HasKey(keys, AnyZsk)) || HasKey(keys, AnyCsk) then
      var next := UpdateDnskey(w, run);
      if next.status.Running? then UpdateDs(w, next) else next
    else if HasKey(keys, AnyKsk) || HasKey(keys, AnyZsk) || w.newKeys(keys, StartAlgorithm).None? then Fail(run)
    else
      var (keys', added) := w.newKeys(keys, StartAlgorithm).value;
      match StartRoll(lib, KeySet(keys', run.state.keyset.rolls), AlgorithmRoll, {}, added, w.clock)
      case None => run.(status := Panic)
      case Some(ks) =>
        var begun := Run(run.state.(keyset := ks), run.log + [Start(AlgorithmRoll)], Running);
        var next := HandleActions(lib.actions(AlgorithmRoll, Propagation1), w, begun);
        if !next.status.Running? then next
        else next.(state := next.state.(internal := next.state.internal[AlgorithmRoll := NO_REPORTS]))
  }

  /** The RRsets are only brought up to date where there are any. */
  function Refresh(w: World, run: Run): Run {
    var run1 := if run.state.dnskeyRrset != [] then UpdateDnskey(w, run) else run;
    var run2 := if run1.status.Running? && run1.state.dsRrset != [] then UpdateDs(w, run1) else run1;
    if run2.status.Running? && run2.state.cdsRrset != [] then CreateCds(w, run2) else run2
  }

  function Perform(cfg: Config, lib: Library, w: World, now: Time, st: State, cmd: Command): Run {
    var run := Run(st, [], Running);
    match cmd
    case Init => InitRun(lib, w, run)
    case StartRollOf(variant) => StartKey(variant, cfg, lib, w, run)
    case Propagated(variant, second, ttl) =>
      var r := RollOf(variant, cfg);
      if r in st.keyset.rolls && st.keyset.rolls[r] == (if second then Propagation2 else Propagation1)
      then CompletePropagation(r, ttl, lib, w, run)
      else Fail(run)
    case CachesExpired(variant, second) =>
      var r := RollOf(variant, cfg);
      if r in st.keyset.rolls &&
         (if second then st.keyset.rolls[r].CacheExpire2? else st.keyset.rolls[r].CacheExpire1?) then
        (match CacheExpired(lib, st.keyset, r, now)
         case Expired(ks) => EnterState(r, ks, lib, w, run)
         case _ => Fail(run))
      else Fail(run)
    case DoneWith(variant) =>
      var r := RollOf(variant, cfg);
      DoDone(r, lib, w, run.(log := [Finish(r)]))
    case EditKeys(edit) =>
      (match edit(st.keyset.keys)
       case None => Fail(run)
       case Some(keys) => Refresh(w, run.(state := st.(keyset := KeySet(keys, st.keyset.rolls)))))
    case CronRun => Cron(cfg, lib, w, now, st)
    case Set(_) => run
    case ReadOnly => run
  }

  /** Whether a command that succeeded has anything to store. */
  predicate Changed(cmd: Command, run: Run) {
    match cmd
    case CronRun => run.log != []
    case ReadOnly => false
    case _ => true
  }

  /** Run a command and store its outcome; a command that fails, also while
      the new schedule is computed, stores nothing. */
  function Execute(lib: Library, w: World, now: Time, sys: System, cmd: Command): System {
    var run := Perform(sys.cfg, lib, w, now, sys.state, cmd);
    var cfg := if cmd.Set? then cmd.cfg else sys.cfg;
    if !run.status.Running? || !Changed(cmd, run) then sys.(clock := now)
    else
      match CronTimes(cfg, lib, run.state, now)
      case Err => sys.(clock := now)
      case Ok(times) => System(cfg, run.state.(cronNext := SetMin(times)), now, now, sys.history + run.log)
  }

  // ----- What every command keeps -----

  /** Commands that edit keys give every stale key a withdrawal time. */
  ghost predicate CommandOk(cmd: Command) {
    cmd.EditKeys? ==>
      forall keys :: StaleWithdrawn(keys) && cmd.edit(keys).Some? ==> StaleWithdrawn(cmd.edit(keys).value)
  }

  ghost predicate Invariant(lib: Library, sys: System) {
    && Valid(sys.state)
    && Scheduled(sys.cfg, lib, sys.state, sys.asOf)
    && sys.asOf <= sys.clock
  }

  lemma {:induction false} InitKeeps(lib: Library, w: World, run: Run)
    requires LibraryOk(lib) && WorldOk(w) && run.status.Running? && Valid(run.state)
    ensures InitRun(lib, w, run).status.Running? ==> Valid(InitRun(lib, w, run).state)
    ensures InitRun(lib, w, run).status.Panic? <==> FirstRollRefused(lib, w, run.state)
  {
    var st := run.state;
    var made := w.newKeys(st.keyset.keys, StartAlgorithm);
    if made.Some? {
      var started := StartRoll(lib, KeySet(made.value.0, st.keyset.rolls), AlgorithmRoll, {}, made.value.1, w.clock);
      if started.Some? {
        HandleActionsFrame(lib.actions(AlgorithmRoll, Propagation1), w,
                           Run(st.(keyset := started.value), run.log + [Start(AlgorithmRoll)], Running));
      }
    }
  }

  /** Init without keys starts an algorithm roll, and this one is refused. */
  predicate FirstRollRefused(lib: Library, w: World, st: State) {
    var keys := st.keyset.keys;
    && st.dnskeyRrset == []
    && !HasKey(keys, AnyKsk) && !HasKey(keys, AnyZsk) && !HasKey(keys, AnyCsk)
    && var made := w.newKeys(keys, StartAlgorithm);
    && made.Some?
    && StartRoll(lib, KeySet(made.value.0, st.keyset.rolls), AlgorithmRoll, {}, made.value.1, w.clock).None?
  }

  /** A command leaves a valid state unless it fails.  It panics exactly if a
      roll is started without any key, if init has its first roll refused, or
      if a cron run comes to a check that panics. */
  lemma {:induction false} PerformKeeps(cfg: Config, lib: Library, w: World, now: Time, st: State, cmd: Command)
    requires LibraryOk(lib) && WorldOk(w) && CommandOk(cmd) && Valid(st)
    ensures var run := Perform(cfg, lib, w, now, st, cmd);
            && (run.status.Running? ==> Valid(run.state))
            && (run.status.Panic? <==>
                  || (cmd.StartRollOf? && st.keyset.keys == map[])
                  || (cmd.Init? && FirstRollRefused(lib, w, st))
                  || (cmd.CronRun? && CronCrashes(cfg, lib, w, now, st)))
  {
    var run := Run(st, [], Running);
    match cmd {
      case Init => InitKeeps(lib, w, run);
      case StartRollOf(variant) =>
        if st.keyset.keys != map[] {
          StartKeyKeeps(variant, cfg, lib, w, run);
        }
      case Propagated(variant, _, ttl) =>
        var moved := PropagationComplete(lib, st.keyset, RollOf(variant, cfg), ttl, w.clock);
        if moved.Some? {
          EnterStateKeeps(RollOf(variant, cfg), moved.value, lib, w, run);
        }
      case CachesExpired(variant, _) =>
        var moved := CacheExpired(lib, st.keyset, RollOf(variant, cfg), now);
        if moved.Expired? {
          EnterStateKeeps(RollOf(variant, cfg), moved.keyset, lib, w, run);
        }
      case CronRun =>
        CronKeepsValid(cfg, lib, w, now, st);
        CronPanicsExactly(cfg, lib, w, now, st);
      case _ =>
    }
  }

  /** Right after the create command there is no key, and any start panics. */
  lemma StartAfterCreatePanics(cfg: Config, lib: Library, w: World, now: Time, variant: Variant)
    ensures Perform(cfg, lib, w, now, Created(cfg, now).state, StartRollOf(variant)).status.Panic?
  {
  }

  /** The stored state is valid and its schedule is its own, after every command. */
  lemma {:induction false} ExecuteKeepsInvariant(lib: Library, w: World, now: Time, sys: System, cmd: Command)
    requires LibraryOk(lib) && WorldOk(w) && CommandOk(cmd)
    requires Invariant(lib, sys) && sys.clock <= now
    ensures Invariant(lib, Execute(lib, w, now, sys, cmd))
  {
    if !cmd.StartRollOf? || sys.state.keyset.keys != map[] {
      PerformKeeps(sys.cfg, lib, w, now, sys.state, cmd);
    }
    var run := Perform(sys.cfg, lib, w, now, sys.state, cmd);
    var cfg := if cmd.Set? then cmd.cfg else sys.cfg;
    if run.status.Running? && Changed(cmd, run) && CronTimes(cfg, lib, run.state, now).Ok? {
      ScheduleIgnoresItself(cfg, lib, run.state, now, SetMin(CronTimes(cfg, lib, run.state, now).value));
    }
  }

  lemma ScheduleIgnoresItself(cfg: Config, lib: Library, st: State, now: Time, next: Option<Time>)
    ensures CronTimes(cfg, lib, st.(cronNext := next), now) == CronTimes(cfg, lib, st, now)
  {
  }

  /** One command at a time, each in its own world. */
  datatype Turn = Turn(now: Time, world: World, cmd: Command)

  ghost predicate InOrder(clock: Time, turns: seq<Turn>)
    decreases |turns|
  {
    turns == [] ||
    (clock <= turns[0].now && WorldOk(turns[0].world) && CommandOk(turns[0].cmd) && InOrder(turns[0].now, turns[1..]))
  }

  function ExecuteAll(lib: Library, sys: System, turns: seq<Turn>): System
    decreases |turns|
  {
    if turns == [] then sys
    else ExecuteAll(lib, Execute(lib, turns[0].world, turns[0].now, sys, turns[0].cmd), turns[1..])
  }

  /** What the create command stores. */
  function Created(cfg: Config, now: Time): System {
    System(cfg, State(KeySet(map[], map[]), [], [], [], map[], None), now, now, [])
  }

  lemma {:induction false} CreatedIsScheduled(cfg: Config, lib: Library, now: Time)
    ensures Invariant(lib, Created(cfg, now))
  {
    var st := Created(cfg, now).state;
    assert RenewalTimes([], cfg.dnskeyRemain, now) == {} == RenewalTimes([], cfg.cdsRemain, now);
    NoKeysNoStarts(StartRules(cfg, map[]), st.keyset);
    forall stage, rolls ensures StageTimes(stage, rolls, lib, st.internal, st.keyset, now) == Ok({}) {
      NoRollsNoTimes(stage, rolls, lib, st.keyset, now);
    }
    assert AllRollTimes(cfg, lib, st, now) == Ok({});
    assert RemovalTimes(cfg, map[]) == {};
  }

  lemma {:induction false} NoKeysNoStarts(rules: seq<StartRule>, ks: KeySet)
    requires ks.keys == map[]
    ensures AllStartTimes(rules, ks) == {}
  {
    if rules != [] {
      NoKeysNoStarts(rules[1..], ks);
    }
  }

  lemma {:induction false} NoRollsNoTimes(stage: Stage, rolls: seq<RollType>, lib: Library, ks: KeySet, now: Time)
    requires ks.rolls == map[]
    ensures StageTimes(stage, rolls, lib, map[], ks, now) == Ok({})
  {
    if rolls != [] {
      NoRollsNoTimes(stage, rolls[1..], lib, ks, now);
      var none: set<Time> := {};
      assert StageTime(stage, rolls[0], lib, map[], ks, now) == Ok((none, ks)) && none + none == none;
    }
  }

  lemma {:induction false} ExecuteAllKeepsInvariant(lib: Library, sys: System, turns: seq<Turn>)
    requires LibraryOk(lib) && Invariant(lib, sys) && InOrder(sys.clock, turns)
    ensures Invariant(lib, ExecuteAll(lib, sys, turns))
    decreases |turns|
  {
    if turns != [] {
      var next := Execute(lib, turns[0].world, turns[0].now, sys, turns[0].cmd);
      ExecuteKeepsInvariant(lib, turns[0].world, turns[0].now, sys, turns[0].cmd);
      ExecuteAllKeepsInvariant(lib, next, turns[1..]);
    }
  }

  /** In every state that any commands can lead to, the report map has an
      entry for exactly the rolls in progress, and a cron run panics exactly if
      it comes to a check that does. */
  lemma {:induction false} EveryReachableState(lib: Library, cfg: Config, created: Time, turns: seq<Turn>)
    requires LibraryOk(lib) && InOrder(created, turns)
    ensures var sys := ExecuteAll(lib, Created(cfg, created), turns);
            && sys.state.internal.Keys == sys.state.keyset.rolls.Keys
            && Invariant(lib, sys)
            && forall w, now :: WorldOk(w) ==>
                                  (Cron(sys.cfg, lib, w, now, sys.state).status.Panic? <==>
                                   CronCrashes(sys.cfg, lib, w, now, sys.state))
  {
    CreatedIsScheduled(cfg, lib, created);
    ExecuteAllKeepsInvariant(lib, Created(cfg, created), turns);
    var sys := ExecuteAll(lib, Created(cfg, created), turns);
    forall w, now | WorldOk(w)
      ensures Cron(sys.cfg, lib, w, now, sys.state).status.Panic? <==> CronCrashes(sys.cfg, lib, w, now, sys.state)
    {
      CronPanicsExactly(sys.cfg, lib, w, now, sys.state);
    }
  }

  /** In every such state the stored time tells when cron is needed: until
      then a cron run stores nothing, and from two seconds after it a cron
      run tries at least one step. */
  lemma {:induction false} StoredTimeIsRight(lib: Library, cfg: Config, created: Time, turns: seq<Turn>, w: World,
                                             now: Time)
    requires LibraryOk(lib) && InOrder(created, turns) && WorldOk(w)
    requires var sys := ExecuteAll(lib, Created(cfg, created), turns);
             sys.clock <= now && Near(sys.state.dnskeyRrset, sys.asOf) && Near(sys.state.cdsRrset, sys.asOf)
    ensures var sys := ExecuteAll(lib, Created(cfg, created), turns);
            && (sys.state.cronNext.None? || now < sys.state.cronNext.value ==>
                  Execute(lib, w, now, sys, CronRun) == sys.(clock := now))
            && (sys.state.cronNext.Some? && sys.state.cronNext.value + 2 * SECOND <= now ==>
                  Cron(sys.cfg, lib, w, now, sys.state).log != [])
  {
    EveryReachableState(lib, cfg, created, turns);
    var sys := ExecuteAll(lib, Created(cfg, created), turns);
    if sys.state.cronNext.None? || now < sys.state.cronNext.value {
      IdleBefore(sys.cfg, lib, w, sys.state, sys.asOf, now);
    } else if sys.state.cronNext.value + 2 * SECOND <= now {
      BusyAfter(sys.cfg, lib, w, sys.state, sys.asOf, now);
    }
  }
}
