/** A report, once found, is kept and not looked for again. */
module StickySlots {
  import opened Wrappers
  import opened KeySets
  import opened ReportSlots
  import opened CronSpec
  import opened CronKeeps
  import opened Schedule
  import opened KeysetRuns
  import opened RollHistory

  /** One report slot: a roll, the state it belongs to and the kind of check. */
  datatype Place = Place(roll: RollType, during: RollState, kind: Kind)

  /** The slot at `p` holds a report with this TTL. */
  ghost predicate Holds(internal: map<RollType, RollStateReports>, p: Place, ttl: nat) {
    p.roll in internal && Lookup(SlotsOf(internal[p.roll], p.during), p.kind) == Some(RrsigReport(ttl))
  }

  ghost predicate Unchecked(log: seq<Event>, p: Place) {
    forall e :: e in log ==> !(e.Check? && e.roll == p.roll && e.during == p.during && e.probe.kind == p.kind)
  }

  /** As long as the roll is not finished, the report stays and is not checked again. */
  ghost predicate Sticks(p: Place, ttl: nat, run: Run) {
    && Sound(run)
    && (run.status.Running? && Finish(p.roll) !in run.log ==>
          Holds(run.state.internal, p, ttl) && Unchecked(run.log, p))
  }

  lemma {:induction false} StartKeySticks(p: Place, ttl: nat, kind: StartKind, cfg: Config, lib: Library, w: World,
                                          run: Run)
    requires LibraryOk(lib) && WorldOk(w) && run.status.Running? && Sticks(p, ttl, run)
    requires run.state.keyset.keys != map[]
    ensures Sticks(p, ttl, StartKey(kind, cfg, lib, w, run))
  {
    StartKeyKeeps(kind, cfg, lib, w, run);
    var ks, r := run.state.keyset, RollOf(kind, cfg);
    if !WrongRoll(kind, cfg, ks.keys) && w.newKeys(ks.keys, kind).Some? {
      var (keys, added) := w.newKeys(ks.keys, kind).value;
      var started := StartRoll(lib, KeySet(keys, ks.rolls), r, Retired(kind, ks.keys), added, w.clock);
      if started.Some? {
        var begun := run.(log := run.log + [Start(r)], state := run.state.(keyset := started.value));
        HandleActionsFrame(lib.actions(r, Propagation1), w, begun);
      }
    }
  }

  /** The checks of a pass leave a report alone, in this slot and in any other. */
  lemma {:induction false} PassSticks(p: Place, ttl: nat, r: RollType, during: RollState, actions: seq<Action>,
                                      now: Time, probes: Probes, run: Run)
    requires HasSlots(during) && HasSlots(p.during) && r in run.state.internal
    requires Holds(run.state.internal, p, ttl) && Unchecked(run.log, p)
    ensures var res := RunActions(actions, SlotsOf(run.state.internal[r], during), now, probes);
            var next := Probed(r, during, res.slots, res.probes, run);
            Holds(next.state.internal, p, ttl) && Unchecked(next.log, p)
  {
    var slots := SlotsOf(run.state.internal[r], during);
    if p.roll == r && p.during == during {
      ReportsAreSticky(actions, slots, now, probes, p.kind);
    }
  }

  lemma {:induction false} ReportStepSticks(p: Place, ttl: nat, r: RollType, lib: Library, w: World, now: Time,
                                            run: Run)
    requires LibraryOk(lib) && HasSlots(p.during) && Sticks(p, ttl, run)
    ensures Sticks(p, ttl, ReportStep(r, lib, w, now, run))
  {
    StageStepKeeps(Reporting, r, lib, w, now, run);
    if run.status.Running? && Propagating(run.state.keyset, r) {
      var during := run.state.keyset.rolls[r];
      var actions := lib.actions(r, during);
      var res := RunActions(actions, SlotsOf(run.state.internal[r], during), now, w.probes(r, run.state));
      var next := Probed(r, during, res.slots, res.probes, run);
      if Finish(p.roll) !in run.log {
        PassSticks(p, ttl, r, during, actions, now, w.probes(r, run.state), run);
      }
      if res.Next? {
        var done := next.(log := next.log + [Complete(r, during, res.ttl)]);
        var moved := PropagationComplete(lib, done.state.keyset, r, res.ttl, w.clock);
        if moved.Some? {
          EnterStateFrame(r, moved.value, lib, w, done);
        }
      }
    }
  }

  lemma {:induction false} ExpireStepSticks(p: Place, ttl: nat, r: RollType, lib: Library, w: World, now: Time,
                                            run: Run)
    requires LibraryOk(lib) && Sticks(p, ttl, run)
    ensures Sticks(p, ttl, ExpireStep(r, lib, w, now, run))
  {
    StageStepKeeps(CacheExpiring, r, lib, w, now, run);
    var moved := CacheExpired(lib, run.state.keyset, r, now);
    if moved.Expired? {
      EnterStateFrame(r, moved.keyset, lib, w, run.(log := run.log + [Expire(r)]));
    }
  }

  lemma {:induction false} DoneStepSticks(p: Place, ttl: nat, r: RollType, lib: Library, w: World, now: Time, run: Run)
    requires LibraryOk(lib) && HasSlots(p.during) && Sticks(p, ttl, run)
    ensures Sticks(p, ttl, DoneStep(r, lib, w, now, run))
  {
    StageStepKeeps(Finishing, r, lib, w, now, run);
    if run.status.Running? && r in run.state.keyset.rolls && run.state.keyset.rolls[r].Done? {
      if Finish(p.roll) !in run.log {
        PassSticks(p, ttl, r, Done, lib.actions(r, Done), now, w.probes(r, run.state), run);
      }
      var res := RunActions(lib.actions(r, Done), run.state.internal[r].done, now, w.probes(r, run.state));
      var next := Probed(r, Done, res.slots, res.probes, run);
      assert Finish(r) in next.log + [Finish(r)];
    }
  }

  /** One cron run. */
  lemma {:induction false} CronSticks(p: Place, ttl: nat, cfg: Config, lib: Library, w: World, now: Time, st: State)
    requires LibraryOk(lib) && WorldOk(w) && HasSlots(p.during) && Valid(st) && Holds(st.internal, p, ttl)
    ensures Sticks(p, ttl, Cron(cfg, lib, w, now, st))
  {
    var P := run => Sticks(p, ttl, run);
    forall run | P(run) ensures P(RenewDnskey(cfg, w, now, run)) && P(RenewCds(cfg, w, now, run)) {}
    forall rule: StartRule, run | P(run) ensures P(AutoStart(rule, cfg, lib, w, now, run)) {
      if run.status.Running? && StartDue(rule, run.state.keyset, now) {
        StartKeySticks(p, ttl, rule.starts, cfg, lib, w, run);
      }
    }
    forall stage: Stage, r, run | P(run) ensures P(StageStep(stage, r, lib, w, now, run)) {
      match stage {
        case Reporting => ReportStepSticks(p, ttl, r, lib, w, now, run);
        case CacheExpiring => ExpireStepSticks(p, ttl, r, lib, w, now, run);
        case Finishing => DoneStepSticks(p, ttl, r, lib, w, now, run);
      }
    }
    CronKeepsStepwise(P, cfg, lib, w, now, st);
  }

  /** `log` is what the history has gained, and the report survived it. */
  ghost predicate Survives(p: Place, ttl: nat, before: System, log: seq<Event>, after: System) {
    && after.history == before.history + log
    && (Finish(p.roll) !in log ==> Holds(after.state.internal, p, ttl) && Unchecked(log, p))
  }

  /** What sticks after a command that has not failed. */
  ghost predicate StaysAfter(p: Place, ttl: nat, run: Run) {
    run.status.Running? && Finish(p.roll) !in run.log ==> Holds(run.state.internal, p, ttl) && Unchecked(run.log, p)
  }

  lemma {:induction false} InitSticks(p: Place, ttl: nat, lib: Library, w: World, run: Run)
    requires run.status.Running? && run.log == [] && Valid(run.state) && Holds(run.state.internal, p, ttl)
    ensures StaysAfter(p, ttl, InitRun(lib, w, run))
  {
    var st := run.state;
    var made := w.newKeys(st.keyset.keys, StartAlgorithm);
    if made.Some? {
      var started := StartRoll(lib, KeySet(made.value.0, st.keyset.rolls), AlgorithmRoll, {}, made.value.1, w.clock);
      if started.Some? {
        HandleActionsFrame(lib.actions(AlgorithmRoll, Propagation1), w,
                           Run(st.(keyset := started.value), run.log + [Start(AlgorithmRoll)], Running));
      }
    }
  }

  lemma {:induction false} MoveByHandSticks(p: Place, ttl: nat, cfg: Config, lib: Library, w: World, now: Time,
                                            st: State, cmd: Command)
    requires (cmd.Propagated? || cmd.CachesExpired?) && Holds(st.internal, p, ttl)
    ensures StaysAfter(p, ttl, Perform(cfg, lib, w, now, st, cmd))
  {
    var r := RollOf(cmd.variant, cfg);
    if cmd.Propagated? {
      var moved := PropagationComplete(lib, st.keyset, r, cmd.ttl, w.clock);
      if moved.Some? {
        EnterStateFrame(r, moved.value, lib, w, Run(st, [], Running));
      }
    } else {
      var moved := CacheExpired(lib, st.keyset, r, now);
      if moved.Expired? {
        EnterStateFrame(r, moved.keyset, lib, w, Run(st, [], Running));
      }
    }
  }

  lemma {:induction false} PerformSticks(p: Place, ttl: nat, cfg: Config, lib: Library, w: World, now: Time, st: State,
                                         cmd: Command)
    requires LibraryOk(lib) && WorldOk(w) && HasSlots(p.during) && Valid(st) && Holds(st.internal, p, ttl)
    ensures StaysAfter(p, ttl, Perform(cfg, lib, w, now, st, cmd))
  {
    match cmd {
      case Init => InitSticks(p, ttl, lib, w, Run(st, [], Running));
      case StartRollOf(variant) =>
        if st.keyset.keys != map[] {
          StartKeySticks(p, ttl, variant, cfg, lib, w, Run(st, [], Running));
        }
      case Propagated(_, _, _) => MoveByHandSticks(p, ttl, cfg, lib, w, now, st, cmd);
      case CachesExpired(_, _) => MoveByHandSticks(p, ttl, cfg, lib, w, now, st, cmd);
      case DoneWith(variant) => assert [Finish(RollOf(variant, cfg))][0] in [Finish(RollOf(variant, cfg))];
      case CronRun => CronSticks(p, ttl, cfg, lib, w, now, st);
      case _ =>
    }
  }

  lemma {:induction false} OneTurnSticks(p: Place, ttl: nat, lib: Library, w: World, now: Time, sys: System,
                                         cmd: Command)
    returns (log: seq<Event>)
    requires LibraryOk(lib) && WorldOk(w) && HasSlots(p.during) && Valid(sys.state) && Holds(sys.state.internal, p, ttl)
    ensures Survives(p, ttl, sys, log, Execute(lib, w, now, sys, cmd))
  {
    var run := Perform(sys.cfg, lib, w, now, sys.state, cmd);
    PerformSticks(p, ttl, sys.cfg, lib, w, now, sys.state, cmd);
    var cfg := if cmd.Set? then cmd.cfg else sys.cfg;
    var stores := run.status.Running? && Changed(cmd, run) && CronTimes(cfg, lib, run.state, now).Ok?;
    log := if stores then run.log else [];
    assert sys.history + [] == sys.history;
  }

  lemma {:induction false} SurvivesTwice(p: Place, ttl: nat, a: System, log1: seq<Event>, b: System, log2: seq<Event>,
                                         c: System)
    requires Survives(p, ttl, a, log1, b) && c.history == b.history + log2
    requires Finish(p.roll) !in log1 ==> Survives(p, ttl, b, log2, c)
    ensures Survives(p, ttl, a, log1 + log2, c)
  {
    assert a.history + (log1 + log2) == a.history + log1 + log2;
  }

  /** Over any sequence of commands a report stays, and its slot is not
      checked again, unless the roll it belongs to is finished. */
  lemma {:induction false} ReportsStayOverRuns(p: Place, ttl: nat, lib: Library, sys: System, turns: seq<Turn>)
    returns (log: seq<Event>)
    requires LibraryOk(lib) && HasSlots(p.during) && Invariant(lib, sys) && InOrder(sys.clock, turns)
    requires Holds(sys.state.internal, p, ttl)
    ensures Survives(p, ttl, sys, log, ExecuteAll(lib, sys, turns))
    decreases |turns|
  {
    if turns == [] {
      log := [];
      assert sys.history + [] == sys.history;
    } else {
      var next := Execute(lib, turns[0].world, turns[0].now, sys, turns[0].cmd);
      var first := OneTurnSticks(p, ttl, lib, turns[0].world, turns[0].now, sys, turns[0].cmd);
      ExecuteKeepsInvariant(lib, turns[0].world, turns[0].now, sys, turns[0].cmd);
      var rest: seq<Event>;
      if Finish(p.roll) in first {
        rest := HistoryGrows(lib, next, turns[1..]);
      } else {
        rest := ReportsStayOverRuns(p, ttl, lib, next, turns[1..]);
      }
      log := first + rest;
      SurvivesTwice(p, ttl, sys, first, next, rest, ExecuteAll(lib, next, turns[1..]));
    }
  }

  lemma {:induction false} HistoryGrows(lib: Library, sys: System, turns: seq<Turn>) returns (log: seq<Event>)
    ensures ExecuteAll(lib, sys, turns).history == sys.history + log
    decreases |turns|
  {
    if turns == [] {
      log := [];
      assert sys.history + [] == sys.history;
    } else {
      var next := Execute(lib, turns[0].world, turns[0].now, sys, turns[0].cmd);
      var first := TurnGrows(lib, turns[0].world, turns[0].now, sys, turns[0].cmd);
      var rest := HistoryGrows(lib, next, turns[1..]);
      log := first + rest;
      Associates(sys.history, first, rest);
    }
  }

  lemma {:induction false} TurnGrows(lib: Library, w: World, now: Time, sys: System, cmd: Command)
    returns (log: seq<Event>)
    ensures Execute(lib, w, now, sys, cmd).history == sys.history + log
  {
    var next := Execute(lib, w, now, sys, cmd);
    if next.history == sys.history {
      log := [];
      assert sys.history + [] == sys.history;
    } else {
      log := Perform(sys.cfg, lib, w, now, sys.state, cmd).log;
    }
  }
}
