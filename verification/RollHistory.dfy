/** Where a reported TTL comes from: what the history of steps says about the
    report slots and about the TTL a propagation step was completed with. */
module RollHistory {
  import opened Wrappers
  import opened KeySets
  import opened ReportSlots
  import opened CronSpec
  import opened CronKeeps
  import opened Schedule
  import opened KeysetRuns

  /** Nothing after step `i` has started or finished roll `r`. */
  ghost predicate SameRoll(h: seq<Event>, i: nat, r: RollType) {
    forall j :: i < j < |h| ==> h[j] != Start(r) && h[j] != Finish(r)
  }

  /** Step `i` is the check that found `found`, during the roll now in
      progress.  If that is a report on DNSKEY or DS records, every server had
      exactly what was kept at that step, and none a record of a larger TTL. */
  ghost predicate IsEvidence(lib: Library, h: seq<Event>, i: nat, r: RollType, during: RollState, k: Kind,
                             found: RrsigSlot)
    requires i < |h|
  {
    && h[i].Check? && h[i].roll == r && h[i].during == during
    && h[i].probe.kind == k && h[i].probe.found == found
    && ProbeServed(lib, h[i].asked, h[i].probe)
    && SameRoll(h, i, r)
  }

  ghost predicate Evidence(lib: Library, h: seq<Event>, r: RollType, during: RollState, k: Kind, found: RrsigSlot) {
    exists i :: 0 <= i < |h| && IsEvidence(lib, h, i, r, during, k, found)
  }

  predicate HasSlots(during: RollState) {
    during.Propagation1? || during.Propagation2? || during.Done?
  }

  /** Whatever a slot of a roll in progress holds was found by a check of that roll. */
  ghost predicate Traced(lib: Library, h: seq<Event>, internal: map<RollType, RollStateReports>) {
    forall r, during, k :: r in internal && HasSlots(during) && Lookup(SlotsOf(internal[r], during), k).Some? ==>
                             Evidence(lib, h, r, during, k, Lookup(SlotsOf(internal[r], during), k).value)
  }

  /** Action `a` of a step completed with `ttl` was found done by a check that
      reported at most that TTL. */
  ghost predicate Justified(lib: Library, h: seq<Event>, r: RollType, during: RollState, a: Action, ttl: nat)
    requires !IsUpdate(a)
  {
    exists t: nat :: t <= ttl && Evidence(lib, h, r, during, KindOf(a), RrsigReport(t))
  }

  /** Step `j`, if it completes a propagation step, uses the largest TTL of
      the checks of that step's report actions. */
  ghost predicate SafeAt(lib: Library, h: seq<Event>, j: nat)
    requires j < |h|
  {
    h[j].Complete? ==>
      var actions := lib.actions(h[j].roll, h[j].from);
      && (forall a :: a in actions && !IsUpdate(a) ==> Justified(lib, h[..j], h[j].roll, h[j].from, a, h[j].ttl))
      && (h[j].ttl == 0 ||
          exists a :: && a in actions && !IsUpdate(a)
                      && Evidence(lib, h[..j], h[j].roll, h[j].from, KindOf(a), RrsigReport(h[j].ttl)))
  }

  ghost predicate AllSafe(lib: Library, h: seq<Event>) {
    forall j :: 0 <= j < |h| ==> SafeAt(lib, h, j)
  }

  ghost predicate Good(lib: Library, h: seq<Event>, internal: map<RollType, RollStateReports>) {
    Traced(lib, h, internal) && AllSafe(lib, h)
  }

  // ----- Adding steps -----

  lemma {:induction false} EvidenceStays(lib: Library, h: seq<Event>, e: Event, r: RollType, during: RollState,
                                         k: Kind, found: RrsigSlot)
    requires Evidence(lib, h, r, during, k, found) && e != Start(r) && e != Finish(r)
    ensures Evidence(lib, h + [e], r, during, k, found)
  {
    var i :| 0 <= i < |h| && IsEvidence(lib, h, i, r, during, k, found);
    assert IsEvidence(lib, h + [e], i, r, during, k, found);
  }

  lemma {:induction false} SafeStays(lib: Library, h: seq<Event>, e: Event)
    requires AllSafe(lib, h) && SafeAt(lib, h + [e], |h|)
    ensures AllSafe(lib, h + [e])
  {
    forall j | 0 <= j < |h| ensures SafeAt(lib, h + [e], j) {
      assert SafeAt(lib, h, j) && (h + [e])[..j] == h[..j];
    }
  }

  /** A step that is neither a start, a finish nor a completion keeps everything. */
  lemma {:induction false} PlainStep(lib: Library, h: seq<Event>, e: Event, internal: map<RollType, RollStateReports>)
    requires Good(lib, h, internal) && !e.Start? && !e.Finish? && !e.Complete?
    ensures Good(lib, h + [e], internal)
  {
    SafeStays(lib, h, e);
    forall r, during, k | r in internal && HasSlots(during) && Lookup(SlotsOf(internal[r], during), k).Some?
      ensures Evidence(lib, h + [e], r, during, k, Lookup(SlotsOf(internal[r], during), k).value)
    {
      EvidenceStays(lib, h, e, r, during, k, Lookup(SlotsOf(internal[r], during), k).value);
    }
  }

  /** A roll that starts has empty slots. */
  lemma {:induction false} StartStep(lib: Library, h: seq<Event>, r: RollType,
                                     internal: map<RollType, RollStateReports>)
    requires Good(lib, h, internal) && r !in internal
    ensures Good(lib, h + [Start(r)], internal[r := NO_REPORTS])
  {
    SafeStays(lib, h, Start(r));
    forall q, during, k | q in internal && HasSlots(during) && Lookup(SlotsOf(internal[q], during), k).Some?
      ensures Evidence(lib, h + [Start(r)], q, during, k, Lookup(SlotsOf(internal[q], during), k).value)
    {
      EvidenceStays(lib, h, Start(r), q, during, k, Lookup(SlotsOf(internal[q], during), k).value);
    }
  }

  lemma {:induction false} FinishStep(lib: Library, h: seq<Event>, r: RollType,
                                      internal: map<RollType, RollStateReports>)
    requires Good(lib, h, internal)
    ensures Good(lib, h + [Finish(r)], internal - {r})
  {
    SafeStays(lib, h, Finish(r));
    forall q, during, k | q in internal - {r} && HasSlots(during) && Lookup(SlotsOf(internal[q], during), k).Some?
      ensures Evidence(lib, h + [Finish(r)], q, during, k, Lookup(SlotsOf(internal[q], during), k).value)
    {
      EvidenceStays(lib, h, Finish(r), q, during, k, Lookup(SlotsOf(internal[q], during), k).value);
    }
  }

  lemma {:induction false} PlainSteps(lib: Library, h: seq<Event>, more: seq<Event>,
                                      internal: map<RollType, RollStateReports>)
    requires Good(lib, h, internal)
    requires forall i :: 0 <= i < |more| ==> !more[i].Start? && !more[i].Finish? && !more[i].Complete?
    ensures Good(lib, h + more, internal)
    decreases |more|
  {
    if more == [] {
      assert h + more == h;
    } else {
      PlainStep(lib, h, more[0], internal);
      PlainSteps(lib, h + [more[0]], more[1..], internal);
      assert h + more == h + [more[0]] + more[1..];
    }
  }

  /** A pass over the actions of a roll leaves slots that its own checks account for. */
  lemma {:induction false} ProbedStep(lib: Library, h: seq<Event>, r: RollType, during: RollState,
                                      actions: seq<Action>, now: Time, p: Probes, asked: Asked,
                                      internal: map<RollType, RollStateReports>)
    requires Good(lib, h, internal) && r in internal && HasSlots(during) && ProbesChecked(lib, asked, now, p)
    ensures var res := RunActions(actions, SlotsOf(internal[r], during), now, p);
            var after := internal[r := WithSlots(internal[r], during, res.slots)];
            Good(lib, h + Checks(r, during, res.probes, asked), after)
  {
    var slots := SlotsOf(internal[r], during);
    var res := RunActions(actions, slots, now, p);
    var checks := Checks(r, during, res.probes, asked);
    var after := internal[r := WithSlots(internal[r], during, res.slots)];
    PlainSteps(lib, h, checks, internal);
    ProbesAreSafe(actions, slots, now, p, lib, asked);
    forall q, d, k | q in after && HasSlots(d) && Lookup(SlotsOf(after[q], d), k).Some?
      ensures Evidence(lib, h + checks, q, d, k, Lookup(SlotsOf(after[q], d), k).value)
    {
      if q != r || d != during {
        assert SlotsOf(after[q], d) == SlotsOf(internal[q], d);
      } else {
        SlotsComeFromProbes(actions, slots, now, p, k);
        if Lookup(res.slots, k) != Lookup(slots, k) {
          var i :| && 0 <= i < |res.probes| && res.probes[i].kind == k
                   && Lookup(res.slots, k) == Some(res.probes[i].found);
          assert (h + checks)[|h| + i] == Check(r, during, res.probes[i], asked);
          assert IsEvidence(lib, h + checks, |h| + i, r, during, k, res.probes[i].found);
        }
      }
    }
  }

  /** Completing a propagation step after such a pass is safe. */
  lemma {:induction false} CompleteStep(lib: Library, h: seq<Event>, r: RollType, during: RollState,
                                        slots: ReportState, internal: map<RollType, RollStateReports>)
    requires Good(lib, h, internal) && r in internal && HasSlots(during) && SlotsOf(internal[r], during) == slots
    requires AllReported(lib.actions(r, during), slots)
    ensures Good(lib, h + [Complete(r, during, MaxTtl(lib.actions(r, during), slots))], internal)
  {
    var actions := lib.actions(r, during);
    var e := Complete(r, during, MaxTtl(actions, slots));
    MaxTtlIsMaximum(actions, slots);
    assert (h + [e])[..|h|] == h;
    forall a | a in actions && !IsUpdate(a) ensures Justified(lib, h, r, during, a, e.ttl) {
      var found := Lookup(slots, KindOf(a)).value;
      assert found == RrsigReport(found.ttl);
      assert Evidence(lib, h, r, during, KindOf(a), RrsigReport(found.ttl));
    }
    SafeStays(lib, h, e);
    forall q, d, k | q in internal && HasSlots(d) && Lookup(SlotsOf(internal[q], d), k).Some?
      ensures Evidence(lib, h + [e], q, d, k, Lookup(SlotsOf(internal[q], d), k).value)
    {
      EvidenceStays(lib, h, e, q, d, k, Lookup(SlotsOf(internal[q], d), k).value);
    }
  }

  // ----- The steps of a run -----

  /** The outcomes of the DNSKEY and DS checks are what these checks make of
      the answers of the servers, whatever these are. */
  ghost predicate WorldSees(lib: Library, w: World, now: Time) {
    WorldOk(w) && forall r, st :: ProbesChecked(lib, AskedOf(st), now, w.probes(r, st))
  }

  /** A run that has not failed keeps the history good. */
  ghost predicate GoodRun(lib: Library, h: seq<Event>, run: Run) {
    Sound(run) && (run.status.Running? ==> Good(lib, h + run.log, run.state.internal))
  }

  lemma {:induction false} PlainRunStep(lib: Library, h: seq<Event>, run: Run, e: Event)
    requires Good(lib, h + run.log, run.state.internal) && !e.Start? && !e.Finish? && !e.Complete?
    ensures Good(lib, h + (run.log + [e]), run.state.internal)
  {
    PlainStep(lib, h + run.log, e, run.state.internal);
    assert h + (run.log + [e]) == h + run.log + [e];
  }

  lemma {:induction false} RenewIsGood(lib: Library, h: seq<Event>, cfg: Config, w: World, now: Time, run: Run)
    requires GoodRun(lib, h, run)
    ensures GoodRun(lib, h, RenewDnskey(cfg, w, now, run))
    ensures GoodRun(lib, h, RenewCds(cfg, w, now, run))
  {
    if run.status.Running? {
      PlainRunStep(lib, h, run, Renew("DNSKEY"));
      PlainRunStep(lib, h, run, Renew("CDS"));
    }
  }

  lemma {:induction false} StartKeyIsGood(lib: Library, h: seq<Event>, kind: StartKind, cfg: Config, w: World, run: Run)
    requires LibraryOk(lib) && WorldOk(w) && run.status.Running? && GoodRun(lib, h, run)
    requires run.state.keyset.keys != map[]
    ensures GoodRun(lib, h, StartKey(kind, cfg, lib, w, run))
  {
    StartKeyKeeps(kind, cfg, lib, w, run);
    var ks, r := run.state.keyset, RollOf(kind, cfg);
    var begun := run.(log := run.log + [Start(r)]);
    if !WrongRoll(kind, cfg, ks.keys) && w.newKeys(ks.keys, kind).Some? {
      var (keys, added) := w.newKeys(ks.keys, kind).value;
      var started := StartRoll(lib, KeySet(keys, ks.rolls), r, Retired(kind, ks.keys), added, w.clock);
      if started.Some? {
        HandleActionsFrame(lib.actions(r, Propagation1), w, begun.(state := begun.state.(keyset := started.value)));
        StartStep(lib, h + run.log, r, run.state.internal);
        assert h + (run.log + [Start(r)]) == h + run.log + [Start(r)];
      }
    }
  }

  /** The checks of one roll in a run. */
  lemma {:induction false} PassIsGood(lib: Library, h: seq<Event>, r: RollType, during: RollState, w: World,
                                      now: Time, run: Run)
    requires WorldSees(lib, w, now) && r in run.state.internal && HasSlots(during)
    requires Good(lib, h + run.log, run.state.internal)
    ensures var slots := SlotsOf(run.state.internal[r], during);
            var res := RunActions(lib.actions(r, during), slots, now, w.probes(r, run.state));
            var next := Probed(r, during, res.slots, res.probes, run);
            Good(lib, h + next.log, next.state.internal)
  {
    var actions, p, asked := lib.actions(r, during), w.probes(r, run.state), AskedOf(run.state);
    var res := RunActions(actions, SlotsOf(run.state.internal[r], during), now, p);
    ProbedStep(lib, h + run.log, r, during, actions, now, p, asked, run.state.internal);
    Associates(h, run.log, Checks(r, during, res.probes, asked));
  }

  lemma {:induction false} CompletionIsGood(lib: Library, h: seq<Event>, r: RollType, during: RollState,
                                            slots: ReportState, w: World, run: Run)
    requires r in run.state.internal && HasSlots(during) && SlotsOf(run.state.internal[r], during) == slots
    requires Good(lib, h + run.log, run.state.internal) && AllReported(lib.actions(r, during), slots)
    ensures var ttl := MaxTtl(lib.actions(r, during), slots);
            var after := CompletePropagation(r, ttl, lib, w, run.(log := run.log + [Complete(r, during, ttl)]));
            Good(lib, h + after.log, after.state.internal)
  {
    var ttl := MaxTtl(lib.actions(r, during), slots);
    var done := run.(log := run.log + [Complete(r, during, ttl)]);
    CompleteStep(lib, h + run.log, r, during, slots, run.state.internal);
    assert h + done.log == h + run.log + [Complete(r, during, ttl)];
    var moved := PropagationComplete(lib, done.state.keyset, r, ttl, w.clock);
    if moved.Some? {
      EnterStateFrame(r, moved.value, lib, w, done);
    }
  }

  lemma {:induction false} ReportStepIsGood(lib: Library, h: seq<Event>, r: RollType, w: World, now: Time, run: Run)
    requires LibraryOk(lib) && WorldSees(lib, w, now) && GoodRun(lib, h, run)
    ensures GoodRun(lib, h, ReportStep(r, lib, w, now, run))
  {
    StageStepKeeps(Reporting, r, lib, w, now, run);
    if run.status.Running? && Propagating(run.state.keyset, r) {
      var during := run.state.keyset.rolls[r];
      var actions, slots := lib.actions(r, during), SlotsOf(run.state.internal[r], during);
      var res := RunActions(actions, slots, now, w.probes(r, run.state));
      PassIsGood(lib, h, r, during, w, now, run);
      if res.Next? {
        RunReportsMaximum(actions, slots, now, w.probes(r, run.state));
        CompletionIsGood(lib, h, r, during, res.slots, w, Probed(r, during, res.slots, res.probes, run));
      }
    }
  }

  lemma {:induction false} EnterStateFrame(r: RollType, ks: KeySet, lib: Library, w: World, run: Run)
    requires r in ks.rolls
    ensures EnterState(r, ks, lib, w, run).log == run.log
    ensures EnterState(r, ks, lib, w, run).state.internal == run.state.internal
  {
    HandleActionsFrame(lib.actions(r, ks.rolls[r]), w, run.(state := run.state.(keyset := ks)));
  }

  lemma {:induction false} ExpireStepIsGood(lib: Library, h: seq<Event>, r: RollType, w: World, now: Time, run: Run)
    requires LibraryOk(lib) && GoodRun(lib, h, run)
    ensures GoodRun(lib, h, ExpireStep(r, lib, w, now, run))
  {
    StageStepKeeps(CacheExpiring, r, lib, w, now, run);
    if run.status.Running? {
      PlainRunStep(lib, h, run, Expire(r));
      var moved := CacheExpired(lib, run.state.keyset, r, now);
      if moved.Expired? {
        EnterStateFrame(r, moved.keyset, lib, w, run.(log := run.log + [Expire(r)]));
      }
    }
  }

  lemma {:induction false} DoneStepIsGood(lib: Library, h: seq<Event>, r: RollType, w: World, now: Time, run: Run)
    requires LibraryOk(lib) && WorldSees(lib, w, now) && GoodRun(lib, h, run)
    ensures GoodRun(lib, h, DoneStep(r, lib, w, now, run))
  {
    StageStepKeeps(Finishing, r, lib, w, now, run);
    if run.status.Running? && r in run.state.keyset.rolls && run.state.keyset.rolls[r].Done? {
      var res := RunActions(lib.actions(r, Done), run.state.internal[r].done, now, w.probes(r, run.state));
      var next := Probed(r, Done, res.slots, res.probes, run);
      PassIsGood(lib, h, r, Done, w, now, run);
      if res.Next? {
        FinishStep(lib, h + next.log, r, next.state.internal);
        assert h + (next.log + [Finish(r)]) == h + next.log + [Finish(r)];
      }
    }
  }

  lemma {:induction false} AutoRemoveIsGood(lib: Library, h: seq<Event>, cfg: Config, w: World, now: Time, run: Run)
    requires GoodRun(lib, h, run)
    ensures GoodRun(lib, h, AutoRemove(cfg, w, now, run))
  {
    if run.status.Running? {
      PlainRunStep(lib, h, run, Remove(RemovableAt(cfg, run.state.keyset.keys, now)));
    }
  }

  lemma {:induction false} CronIsGood(lib: Library, h: seq<Event>, cfg: Config, w: World, now: Time, st: State)
    requires LibraryOk(lib) && WorldSees(lib, w, now) && Valid(st) && Good(lib, h, st.internal)
    ensures GoodRun(lib, h, Cron(cfg, lib, w, now, st))
  {
    var P := run => GoodRun(lib, h, run);
    forall run | P(run) ensures P(RenewDnskey(cfg, w, now, run)) && P(RenewCds(cfg, w, now, run)) {
      RenewIsGood(lib, h, cfg, w, now, run);
    }
    forall rule: StartRule, run | P(run) ensures P(AutoStart(rule, cfg, lib, w, now, run)) {
      if run.status.Running? && StartDue(rule, run.state.keyset, now) {
        StartKeyIsGood(lib, h, rule.starts, cfg, w, run);
      }
    }
    forall stage: Stage, r, run | P(run) ensures P(StageStep(stage, r, lib, w, now, run)) {
      match stage {
        case Reporting => ReportStepIsGood(lib, h, r, w, now, run);
        case CacheExpiring => ExpireStepIsGood(lib, h, r, w, now, run);
        case Finishing => DoneStepIsGood(lib, h, r, w, now, run);
      }
    }
    forall run | P(run) ensures P(AutoRemove(cfg, w, now, run)) {
      AutoRemoveIsGood(lib, h, cfg, w, now, run);
    }
    assert h + [] == h;
    CronKeepsStepwise(P, cfg, lib, w, now, st);
  }

  // ----- Over any sequence of commands -----

  lemma {:induction false} InitIsGood(lib: Library, h: seq<Event>, w: World, run: Run)
    requires LibraryOk(lib) && WorldOk(w) && run.status.Running? && run.log == [] && Valid(run.state)
    requires Good(lib, h, run.state.internal)
    ensures InitRun(lib, w, run).status.Running? ==>
              Good(lib, h + InitRun(lib, w, run).log, InitRun(lib, w, run).state.internal)
  {
    var st := run.state;
    assert h + [] == h;
    var made := w.newKeys(st.keyset.keys, StartAlgorithm);
    if made.Some? {
      var started := StartRoll(lib, KeySet(made.value.0, st.keyset.rolls), AlgorithmRoll, {}, made.value.1, w.clock);
      if started.Some? {
        assert run.log + [Start(AlgorithmRoll)] == [Start(AlgorithmRoll)];
        HandleActionsFrame(lib.actions(AlgorithmRoll, Propagation1), w,
                           Run(st.(keyset := started.value), [Start(AlgorithmRoll)], Running));
        StartStep(lib, h, AlgorithmRoll, st.internal);
      }
    }
  }

  lemma {:induction false} StartRollIsGood(lib: Library, h: seq<Event>, variant: Variant, cfg: Config, w: World,
                                           now: Time, st: State)
    requires LibraryOk(lib) && WorldOk(w) && Valid(st) && Good(lib, h, st.internal)
    ensures var run := Perform(cfg, lib, w, now, st, StartRollOf(variant));
            run.status.Running? ==> Good(lib, h + run.log, run.state.internal)
  {
    assert h + [] == h;
    if st.keyset.keys != map[] {
      StartKeyIsGood(lib, h, variant, cfg, w, Run(st, [], Running));
    }
  }

  /** Reported by hand, a step is not logged and changes no slot. */
  lemma {:induction false} MoveByHandIsGood(lib: Library, h: seq<Event>, cfg: Config, w: World, now: Time, st: State,
                                            cmd: Command)
    requires (cmd.Propagated? || cmd.CachesExpired?) && Good(lib, h, st.internal)
    ensures var run := Perform(cfg, lib, w, now, st, cmd);
            run.status.Running? ==> Good(lib, h + run.log, run.state.internal)
  {
    assert h + [] == h;
    var r := RollOf(cmd.variant, cfg);
    if cmd.Propagated? {
      var moved := PropagationComplete(lib, st.keyset, r, cmd.ttl, w.clock);
      if moved.Some? {
        EnterStateFrame(r, moved.value, lib, w, Run(st, [], Running));
      }
    } else {
      var moved := CacheExpired(lib, st.keyset, r, now);
      if moved.Expired? {
        EnterStateFrame(r, moved.keyset, lib, w, Run(st, [], Running));
      }
    }
  }

  lemma {:induction false} PerformIsGood(lib: Library, h: seq<Event>, cfg: Config, w: World, now: Time, st: State,
                                         cmd: Command)
    requires LibraryOk(lib) && WorldSees(lib, w, now) && CommandOk(cmd) && Valid(st) && Good(lib, h, st.internal)
    ensures var run := Perform(cfg, lib, w, now, st, cmd);
            run.status.Running? ==> Good(lib, h + run.log, run.state.internal)
  {
    assert h + [] == h;
    match cmd {
      case Init => InitIsGood(lib, h, w, Run(st, [], Running));
      case StartRollOf(variant) => StartRollIsGood(lib, h, variant, cfg, w, now, st);
      case Propagated(_, _, _) => MoveByHandIsGood(lib, h, cfg, w, now, st, cmd);
      case CachesExpired(_, _) => MoveByHandIsGood(lib, h, cfg, w, now, st, cmd);
      case DoneWith(variant) => FinishStep(lib, h, RollOf(variant, cfg), st.internal);
      case CronRun => CronIsGood(lib, h, cfg, w, now, st);
      case _ =>
    }
  }

  lemma {:induction false} ExecuteAllIsGood(lib: Library, sys: System, turns: seq<Turn>)
    requires LibraryOk(lib) && Invariant(lib, sys) && InOrder(sys.clock, turns)
    requires forall i :: 0 <= i < |turns| ==> WorldSees(lib, turns[i].world, turns[i].now)
    requires Good(lib, sys.history, sys.state.internal)
    ensures Good(lib, ExecuteAll(lib, sys, turns).history, ExecuteAll(lib, sys, turns).state.internal)
    decreases |turns|
  {
    if turns != [] {
      PerformIsGood(lib, sys.history, sys.cfg, turns[0].world, turns[0].now, sys.state, turns[0].cmd);
      ExecuteKeepsInvariant(lib, turns[0].world, turns[0].now, sys, turns[0].cmd);
      ExecuteAllIsGood(lib, Execute(lib, turns[0].world, turns[0].now, sys, turns[0].cmd), turns[1..]);
    }
  }

  /** TTL safety over any sequence of commands.  Whenever cron has completed a
      propagation step, each report action of that step was found done by a
      check made since that roll began, perhaps by an earlier cron run; for
      DNSKEY and DS records that check found every server to have exactly the
      records kept at the time of the check.  The TTL of the completed step is
      the largest those checks reported, and so no less than that of any such
      record at any server. */
  lemma {:induction false} ReportedTtlsAreSafe(lib: Library, cfg: Config, created: Time, turns: seq<Turn>)
    requires LibraryOk(lib) && InOrder(created, turns)
    requires forall i :: 0 <= i < |turns| ==> WorldSees(lib, turns[i].world, turns[i].now)
    ensures AllSafe(lib, ExecuteAll(lib, Created(cfg, created), turns).history)
  {
    CreatedIsScheduled(cfg, lib, created);
    ExecuteAllIsGood(lib, Created(cfg, created), turns);
  }
}
