/** The work space of the keyset command: the cron run and the computation of
    its next time, carried out on mutable state. */
module WorkSpace {
  import opened Wrappers
  import opened Records
  import opened KeySets
  import opened ReportSlots
  import opened CronSpec
  import opened Schedule
  import opened KeysetRuns
  import CronKeeps
  import CronEffects

  lemma {:induction false} StartLogs(kind: StartKind, cfg: Config, lib: Library, w: World, run: Run)
    requires run.status.Running?
    ensures StartKey(kind, cfg, lib, w, run).log == run.log + [Start(RollOf(kind, cfg))]
  {
    var ks, r := run.state.keyset, RollOf(kind, cfg);
    var begun := run.(log := run.log + [Start(r)]);
    if ks.keys != map[] && !WrongRoll(kind, cfg, ks.keys) && w.newKeys(ks.keys, kind).Some? {
      var (keys, added) := w.newKeys(ks.keys, kind).value;
      var started := StartRoll(lib, KeySet(keys, ks.rolls), r, Retired(kind, ks.keys), added, w.clock);
      if started.Some? {
        var moved := begun.(state := begun.state.(keyset := started.value));
        CronKeeps.HandleActionsFrame(lib.actions(r, Propagation1), w, moved);
      }
    }
  }

  lemma {:induction false} StageStepsStop(stage: Stage, rolls: seq<RollType>, lib: Library, w: World, now: Time,
                                          run: Run)
    requires !run.status.Running?
    ensures StageSteps(stage, rolls, lib, w, now, run) == run
  {
    if rolls != [] {
      StageStepsStop(stage, rolls[1..], lib, w, now, run);
    }
  }

  lemma {:induction false} AutoStartsStop(rules: seq<StartRule>, cfg: Config, lib: Library, w: World, now: Time,
                                          run: Run)
    requires !run.status.Running?
    ensures AutoStarts(rules, cfg, lib, w, now, run) == run
  {
    if rules != [] {
      AutoStartsStop(rules[1..], cfg, lib, w, now, run);
    }
  }

  lemma {:induction false} RollsStop(auto: AutoConfig, rolls: seq<RollType>, lib: Library, w: World, now: Time,
                                     run: Run)
    requires !run.status.Running?
    ensures AutoReportExpireDone(auto, rolls, lib, w, now, run) == run
  {
    StageStepsStop(Reporting, rolls, lib, w, now, run);
    StageStepsStop(CacheExpiring, rolls, lib, w, now, run);
    StageStepsStop(Finishing, rolls, lib, w, now, run);
  }

  lemma {:induction false} JoinUnion(a: set<Time>, b: set<Time>, c: Result<set<Time>>)
    ensures Join(Ok(a), Join(Ok(b), c)) == Join(Ok(a + b), c)
  {
    if c.Ok? {
      assert a + (b + c.value) == a + b + c.value;
    }
  }

  lemma {:induction false} JoinNone(c: Result<set<Time>>)
    ensures Join(Ok({}), c) == c
  {
    if c.Ok? {
      assert {} + c.value == c.value;
    }
  }

  class WorkSpace {
    var config: Config
    var state: State
    var configChanged: bool
    var stateChanged: bool
    /** The steps tried so far. */
    ghost var log: seq<Event>

    constructor (config: Config, state: State)
      ensures this.config == config && this.state == state && log == []
      ensures !configChanged && !stateChanged
    {
      this.config, this.state := config, state;
      configChanged, stateChanged := false, false;
      log := [];
    }

    ghost function Now(status: Status): Run
      reads this
    {
      Run(state, log, status)
    }

    // ----- RRsets -----

    method UpdateDnskeyRrset(w: World) returns (status: Status)
      modifies this`state
      ensures Now(status) == UpdateDnskey(w, old(Now(Running)))
    {
      match w.signDnskeys(state.keyset.keys) {
        case None => status := Error;
        case Some(rrset) =>
          state := state.(dnskeyRrset := rrset);
          status := Running;
      }
    }

    method CreateCdsRrset(w: World) returns (status: Status)
      modifies this`state
      ensures Now(status) == CreateCds(w, old(Now(Running)))
    {
      match w.makeCds(state.keyset.keys) {
        case None => status := Error;
        case Some(rrset) =>
          state := state.(cdsRrset := rrset);
          status := Running;
      }
    }

    method UpdateDsRrset(w: World) returns (status: Status)
      modifies this`state
      ensures Now(status) == UpdateDs(w, old(Now(Running)))
    {
      match w.makeDs(state.keyset.keys) {
        case None => status := Error;
        case Some(rrset) =>
          state := state.(dsRrset := rrset);
          status := Running;
      }
    }

    /** Carry out the actions that never wait for automation. */
    method HandleAll(actions: seq<Action>, w: World) returns (status: Status)
      modifies this`state
      ensures Now(status) == HandleActions(actions, w, old(Now(Running)))
    {
      status := Running;
      for i := 0 to |actions|
        invariant status.Running?
        invariant HandleActions(actions, w, old(Now(Running))) == HandleActions(actions[i..], w, Now(status))
      {
        assert actions[i..][0] == actions[i] && actions[i..][1..] == actions[i + 1..];
        match actions[i] {
          case UpdateDnskeyRrset => status := UpdateDnskeyRrset(w);
          case CreateCdsRrset => status := CreateCdsRrset(w);
          case RemoveCdsRrset => state := state.(cdsRrset := []);
          case UpdateDsRrset => status := UpdateDsRrset(w);
          case _ =>
        }
        if !status.Running? {
          return;
        }
      }
    }

    // ----- Starting rolls -----

    /** Start a roll: make the new keys, enter them, start the roll, handle its
        first actions and give it empty report slots. */
    method StartRollOf(kind: StartKind, lib: Library, w: World) returns (status: Status)
      modifies this`state, this`log
      ensures Now(status) == StartKey(kind, config, lib, w, old(Now(Running)))
    {
      var r := RollOf(kind, config);
      log := log + [Start(r)];
      var ks := state.keyset;
      if ks.keys == map[] {
        return Panic;
      }
      if WrongRoll(kind, config, ks.keys) {
        return Error;
      }
      var made := w.newKeys(ks.keys, kind);
      if made.None? {
        return Error;
      }
      var (keys, added) := made.value;
      var started := StartRoll(lib, KeySet(keys, ks.rolls), r, Retired(kind, ks.keys), added, w.clock);
      if started.None? {
        return Error;
      }
      state := state.(keyset := started.value);
      status := HandleAll(lib.actions(r, Propagation1), w);
      if status.Running? {
        state := state.(internal := state.internal[r := NO_REPORTS]);
      }
    }

    /** Start a roll by itself when a key has reached the end of its validity. */
    method AutoStartRule(rule: StartRule, lib: Library, w: World, now: Time) returns (status: Status)
      modifies this`state, this`log, this`stateChanged
      ensures Now(status) == AutoStart(rule, config, lib, w, now, old(Now(Running)))
      ensures status.Running? ==> old(log) <= log && stateChanged == (old(stateChanged) || log != old(log))
    {
      status := Running;
      if rule.validity.Some? && rule.auto && !Conflict(state.keyset, rule.conflicts) {
        var next := SetMin(Expiries(state.keyset.keys, rule.kind, rule.validity.value));
        if next.Some? && next.value < now {
          status := StartRollOf(rule.starts, lib, w);
          if status.Running? {
            StartLogs(rule.starts, config, lib, w, old(Now(Running)));
            stateChanged := true;
          }
        }
      }
    }

    // ----- Moving rolls on -----

    /** Report the TTL of each roll whose propagation has been checked. */
    method ReportRolls(rolls: seq<RollType>, lib: Library, w: World, now: Time) returns (status: Status)
      modifies this`state, this`log, this`stateChanged
      ensures Now(status) == StageSteps(Reporting, rolls, lib, w, now, old(Now(Running)))
      ensures status.Running? ==> old(log) <= log && stateChanged == (old(stateChanged) || log != old(log))
    {
      status := Running;
      for i := 0 to |rolls|
        invariant status.Running? && old(log) <= log
        invariant StageSteps(Reporting, rolls, lib, w, now, old(Now(Running))) ==
                    StageSteps(Reporting, rolls[i..], lib, w, now, Now(status))
        invariant stateChanged == (old(stateChanged) || log != old(log))
      {
        assert rolls[i..][0] == rolls[i] && rolls[i..][1..] == rolls[i + 1..];
        status := ReportRoll(rolls[i], lib, w, now);
        if !status.Running? {
          StageStepsStop(Reporting, rolls[i + 1..], lib, w, now, Now(status));
          return;
        }
      }
    }

    method ReportRoll(r: RollType, lib: Library, w: World, now: Time) returns (status: Status)
      modifies this`state, this`log, this`stateChanged
      ensures Now(status) == ReportStep(r, lib, w, now, old(Now(Running)))
      ensures status.Running? ==> old(log) <= log && stateChanged == (old(stateChanged) || log != old(log))
    {
      status := Running;
      if r !in state.keyset.rolls {
        return;
      }
      if r !in state.internal {
        return Panic;
      }
      if !Propagating(state.keyset, r) {
        return;
      }
      var during := state.keyset.rolls[r];
      var actions := lib.actions(r, during);
      if !ReportActionsOnly(actions) {
        return Panic;
      }
      var before := SlotsOf(state.internal[r], during);
      var slots, result, probes := AutoReportActions(actions, before, now, w.probes(r, state));
      log := log + Checks(r, during, probes, AskedOf(state));
      state := state.(internal := state.internal[r := WithSlots(state.internal[r], during, slots)]);
      stateChanged := stateChanged || probes != [];
      if result.None? {
        log := log + [Crashed(r, during)];
        return Panic;
      }
      if result.value.Report? {
        log := log + [Complete(r, during, result.value.ttl)];
        var moved := PropagationComplete(lib, state.keyset, r, result.value.ttl, w.clock);
        if moved.None? {
          return Error;
        }
        CronKeeps.HandleActionsFrame(lib.actions(r, moved.value.rolls[r]), w,
                                     Run(state.(keyset := moved.value), log, Running));
        state := state.(keyset := moved.value);
        status := HandleAll(lib.actions(r, state.keyset.rolls[r]), w);
        stateChanged := true;
      }
    }

    /** Move on each roll whose caches have expired. */
    method ExpireRolls(rolls: seq<RollType>, lib: Library, w: World, now: Time) returns (status: Status)
      modifies this`state, this`log, this`stateChanged
      ensures Now(status) == StageSteps(CacheExpiring, rolls, lib, w, now, old(Now(Running)))
      ensures status.Running? ==> old(log) <= log && stateChanged == (old(stateChanged) || log != old(log))
    {
      status := Running;
      for i := 0 to |rolls|
        invariant status.Running? && old(log) <= log
        invariant StageSteps(CacheExpiring, rolls, lib, w, now, old(Now(Running))) ==
                    StageSteps(CacheExpiring, rolls[i..], lib, w, now, Now(status))
        invariant stateChanged == (old(stateChanged) || log != old(log))
      {
        assert rolls[i..][0] == rolls[i] && rolls[i..][1..] == rolls[i + 1..];
        var r := rolls[i];
        if !Expiring(state.keyset, r) {
          continue;
        }
        var moved := CacheExpired(lib, state.keyset, r, now);
        if moved.TooEarly? {
          continue;
        }
        log := log + [Expire(r)];
        if moved.Refused? {
          StageStepsStop(CacheExpiring, rolls[i + 1..], lib, w, now, Now(Error));
          return Error;
        }
        CronKeeps.HandleActionsFrame(lib.actions(r, moved.keyset.rolls[r]), w,
                                     Run(state.(keyset := moved.keyset), log, Running));
        state := state.(keyset := moved.keyset);
        status := HandleAll(lib.actions(r, state.keyset.rolls[r]), w);
        if !status.Running? {
          StageStepsStop(CacheExpiring, rolls[i + 1..], lib, w, now, Now(status));
          return;
        }
        stateChanged := true;
      }
    }

    /** Finish each roll that is done and has nothing left to wait for. */
    method FinishRolls(rolls: seq<RollType>, lib: Library, w: World, now: Time) returns (status: Status)
      modifies this`state, this`log, this`stateChanged
      ensures Now(status) == StageSteps(Finishing, rolls, lib, w, now, old(Now(Running)))
      ensures status.Running? ==> old(log) <= log && stateChanged == (old(stateChanged) || log != old(log))
    {
      status := Running;
      for i := 0 to |rolls|
        invariant status.Running? && old(log) <= log
        invariant StageSteps(Finishing, rolls, lib, w, now, old(Now(Running))) ==
                    StageSteps(Finishing, rolls[i..], lib, w, now, Now(status))
        invariant stateChanged == (old(stateChanged) || log != old(log))
      {
        assert rolls[i..][0] == rolls[i] && rolls[i..][1..] == rolls[i + 1..];
        status := FinishRoll(rolls[i], lib, w, now);
        if !status.Running? {
          StageStepsStop(Finishing, rolls[i + 1..], lib, w, now, Now(status));
          return;
        }
      }
    }

    method FinishRoll(r: RollType, lib: Library, w: World, now: Time) returns (status: Status)
      modifies this`state, this`log, this`stateChanged
      ensures Now(status) == DoneStep(r, lib, w, now, old(Now(Running)))
      ensures status.Running? ==> old(log) <= log && stateChanged == (old(stateChanged) || log != old(log))
    {
      status := Running;
      if !(r in state.keyset.rolls && state.keyset.rolls[r].Done?) {
        return;
      }
      var actions := lib.actions(r, Done);
      if r !in state.internal || !WaitActionsOnly(actions) {
        return Panic;
      }
      var slots, result, probes := AutoWaitActions(actions, state.internal[r].done, now, w.probes(r, state));
      log := log + Checks(r, Done, probes, AskedOf(state));
      state := state.(internal := state.internal[r := WithSlots(state.internal[r], Done, slots)]);
      stateChanged := stateChanged || probes != [];
      if result.None? {
        log := log + [Crashed(r, Done)];
        return Panic;
      }
      if result.value.Ready? {
        log := log + [Finish(r)];
        var finished := RollDone(lib, state.keyset, r, w.clock);
        if finished.None? {
          return Error;
        }
        state := state.(keyset := finished.value, cdsRrset := [], internal := state.internal - {r});
        stateChanged := true;
      }
    }

    /** The automatic steps of the rolls in a list. */
    method AutoReportExpireDoneOf(auto: AutoConfig, rolls: seq<RollType>, lib: Library, w: World, now: Time)
      returns (status: Status)
      modifies this`state, this`log, this`stateChanged
      ensures Now(status) == AutoReportExpireDone(auto, rolls, lib, w, now, old(Now(Running)))
      ensures status.Running? ==> old(log) <= log && stateChanged == (old(stateChanged) || log != old(log))
    {
      status := Running;
      if auto.report {
        status := ReportRolls(rolls, lib, w, now);
        if !status.Running? {
          StageStepsStop(CacheExpiring, rolls, lib, w, now, Now(status));
          StageStepsStop(Finishing, rolls, lib, w, now, Now(status));
          return;
        }
      }
      if auto.expire {
        status := ExpireRolls(rolls, lib, w, now);
        if !status.Running? {
          StageStepsStop(Finishing, rolls, lib, w, now, Now(status));
          return;
        }
      }
      if auto.done {
        status := FinishRolls(rolls, lib, w, now);
      }
    }

    // ----- The cron run -----

    /** Whether some signature of an RRset has to be renewed. */
    static method NeedsRenewal(rrset: Rrset, remain: Time, now: Time) returns (b: bool)
      ensures b == SigRenew(rrset, remain, now)
    {
      for i := 0 to |rrset|
        invariant !SigRenew(rrset[..i], remain, now)
      {
        if rrset[i].data.RrsigData? && Secs(now) + Secs(remain) > rrset[i].data.expiration {
          return true;
        }
      }
      b := false;
    }

    /** Remove the files of keys, one after the other. */
    static method RemoveFiles(refs: set<PubRef>, w: World) returns (ok: bool)
      ensures ok <==> forall p :: p in refs ==> w.removable(p)
    {
      var todo := refs;
      while todo != {}
        invariant todo <= refs
        invariant forall p :: p in refs ==> p in todo || w.removable(p)
        decreases |todo|
      {
        var p :| p in todo;
        if !w.removable(p) {
          return false;
        }
        todo := todo - {p};
      }
      ok := true;
    }

    /** Remove the keys that have been stale for long enough. */
    method AutoRemoveKeys(w: World, now: Time) returns (status: Status)
      modifies this`state, this`log, this`stateChanged
      ensures Now(status) == AutoRemove(config, w, now, old(Now(Running)))
      ensures status.Running? && config.autoremove && Valid(old(state)) ==>
                && CronEffects.KeysRemoved(config, now, old(state).keyset.keys, state.keyset.keys)
                && state.keyset.rolls == old(state).keyset.rolls
      ensures status.Running? ==> old(log) <= log && stateChanged == (old(stateChanged) || log != old(log))
    {
      status := Running;
      if config.autoremove {
        if Valid(state) {
          CronEffects.RemovalEffects(config, w, now, Now(Running));
        }
        if !AllWithdrawn(state.keyset.keys) {
          return Panic;
        }
        var refs := RemovableAt(config, state.keyset.keys, now);
        if refs != {} {
          log := log + [Remove(refs)];
          var gone := RemoveFiles(refs, w);
          if !gone {
            return Error;
          }
          state := state.(keyset := KeySet(state.keyset.keys - refs, state.keyset.rolls));
          stateChanged := true;
        }
      }
    }

    method RenewSignatures(w: World, now: Time) returns (status: Status)
      modifies this`state, this`log, this`stateChanged
      ensures Now(status) == RenewCds(config, w, now, RenewDnskey(config, w, now, old(Now(Running))))
      ensures status.Running? ==> old(log) <= log && stateChanged == (old(stateChanged) || log != old(log))
    {
      status := Running;
      var renew := NeedsRenewal(state.dnskeyRrset, config.dnskeyRemain, now);
      if renew {
        log := log + [Renew("DNSKEY")];
        status := UpdateDnskeyRrset(w);
        if !status.Running? {
          return;
        }
        stateChanged := true;
      }
      renew := NeedsRenewal(state.cdsRrset, config.cdsRemain, now);
      if renew {
        log := log + [Renew("CDS")];
        status := CreateCdsRrset(w);
        stateChanged := true;
      }
    }

    method AutoStartByRules(rules: seq<StartRule>, lib: Library, w: World, now: Time) returns (status: Status)
      modifies this`state, this`log, this`stateChanged
      ensures Now(status) == AutoStarts(rules, config, lib, w, now, old(Now(Running)))
      ensures status.Running? ==> old(log) <= log && stateChanged == (old(stateChanged) || log != old(log))
    {
      status := Running;
      for i := 0 to |rules|
        invariant status.Running? && old(log) <= log
        invariant AutoStarts(rules, config, lib, w, now, old(Now(Running))) ==
                    AutoStarts(rules[i..], config, lib, w, now, Now(status))
        invariant stateChanged == (old(stateChanged) || log != old(log))
      {
        assert rules[i..][0] == rules[i] && rules[i..][1..] == rules[i + 1..];
        status := AutoStartRule(rules[i], lib, w, now);
        if !status.Running? {
          AutoStartsStop(rules[i + 1..], config, lib, w, now, Now(status));
          return;
        }
      }
    }

    /** The automatic steps of all rolls. */
    method AutoRollSteps(lib: Library, w: World, now: Time) returns (status: Status)
      modifies this`state, this`log, this`stateChanged
      ensures Now(status) == AutoRolls(config, lib, w, now, old(Now(Running)))
      ensures status.Running? ==> old(log) <= log && stateChanged == (old(stateChanged) || log != old(log))
    {
      status := AutoReportExpireDoneOf(config.autoKsk, KSK_ROLLS, lib, w, now);
      if status.Running? {
        status := AutoReportExpireDoneOf(config.autoZsk, ZSK_ROLLS, lib, w, now);
      } else {
        RollsStop(config.autoZsk, ZSK_ROLLS, lib, w, now, Now(status));
      }
      if status.Running? {
        status := AutoReportExpireDoneOf(config.autoCsk, CSK_ROLLS, lib, w, now);
      } else {
        RollsStop(config.autoCsk, CSK_ROLLS, lib, w, now, Now(status));
      }
      if status.Running? {
        status := AutoReportExpireDoneOf(config.autoAlgorithm, ALGORITHM_ROLLS, lib, w, now);
      } else {
        RollsStop(config.autoAlgorithm, ALGORITHM_ROLLS, lib, w, now, Now(status));
      }
    }

    /** All steps of the cron subcommand. */
    method RunCron(lib: Library, w: World, now: Time) returns (status: Status)
      requires log == []
      modifies this`state, this`log, this`stateChanged
      ensures Now(status) == Cron(config, lib, w, now, old(state))
      ensures status.Running? ==> stateChanged == (old(stateChanged) || log != [])
    {
      status := RenewSignatures(w, now);
      var rules := StartRules(config, state.keyset.keys);
      if status.Running? {
        status := AutoStartByRules(rules, lib, w, now);
      } else {
        AutoStartsStop(rules, config, lib, w, now, Now(status));
      }
      if status.Running? {
        status := AutoRollSteps(lib, w, now);
      } else {
        RollsStop(config.autoKsk, KSK_ROLLS, lib, w, now, Now(status));
        RollsStop(config.autoZsk, ZSK_ROLLS, lib, w, now, Now(status));
        RollsStop(config.autoCsk, CSK_ROLLS, lib, w, now, Now(status));
        RollsStop(config.autoAlgorithm, ALGORITHM_ROLLS, lib, w, now, Now(status));
      }
      if status.Running? {
        status := AutoRemoveKeys(w, now);
      }
    }

    // ----- The next time -----

    /** The time at which a roll has to be looked at again in one stage. */
    method StageTimesOf(stage: Stage, rolls: seq<RollType>, lib: Library, now: Time) returns (r: Result<set<Time>>)
      ensures r == StageTimes(stage, rolls, lib, state.internal, state.keyset, now)
    {
      var times: set<Time> := {};
      var keyset := state.keyset;
      JoinNone(StageTimes(stage, rolls, lib, state.internal, state.keyset, now));
      for i := 0 to |rolls|
        invariant StageTimes(stage, rolls, lib, state.internal, state.keyset, now) ==
                    Join(Ok(times), StageTimes(stage, rolls[i..], lib, state.internal, keyset, now))
      {
        assert rolls[i..][0] == rolls[i] && rolls[i..][1..] == rolls[i + 1..];
        ghost var rest := StageTimes(stage, rolls[i..], lib, state.internal, keyset, now);
        var one := StageTimeOf(stage, rolls[i], lib, keyset, now);
        if one.Err? {
          return Err;
        }
        JoinUnion(times, one.value.0, StageTimes(stage, rolls[i + 1..], lib, state.internal, one.value.1, now));
        times, keyset := times + one.value.0, one.value.1;
      }
      assert times + {} == times;
      r := Ok(times);
    }

    method StageTimeOf(stage: Stage, r: RollType, lib: Library, keyset: KeySet, now: Time)
      returns (res: Result<(set<Time>, KeySet)>)
      ensures res == StageTime(stage, r, lib, state.internal, keyset, now)
    {
      match stage {
        case Reporting =>
          if r !in keyset.rolls {
            return Ok(({}, keyset));
          }
          if r !in state.internal {
            return Err;
          }
          if !Propagating(keyset, r) {
            return Ok(({}, keyset));
          }
          var v := CheckAutoActions(lib.actions(r, keyset.rolls[r]), SlotsOf(state.internal[r], keyset.rolls[r]), now);
          return Ok(({if v.Ready? then now else v.until}, keyset));
        case CacheExpiring =>
          if !Expiring(keyset, r) {
            return Ok(({}, keyset));
          }
          match CacheExpired(lib, keyset, r, now) {
            case TooEarly(remain) => return Ok(({now + remain}, keyset));
            case Refused => return Err;
            case Expired(moved) => return Ok(({now}, moved));
          }
        case Finishing =>
          if !(r in keyset.rolls && keyset.rolls[r].Done?) {
            return Ok(({}, keyset));
          }
          if r !in state.internal {
            return Err;
          }
          var v := CheckAutoActions(lib.actions(r, Done), state.internal[r].done, now);
          return Ok(({if v.Ready? then now else v.until}, keyset));
      }
    }

    method RollTimesFor(auto: AutoConfig, rolls: seq<RollType>, lib: Library, now: Time) returns (r: Result<set<Time>>)
      ensures r == RollTimes(auto, rolls, lib, state, now)
    {
      var report, expire, done: Result<set<Time>> := Ok({}), Ok({}), Ok({});
      if auto.report {
        report := StageTimesOf(Reporting, rolls, lib, now);
      }
      if auto.expire {
        expire := StageTimesOf(CacheExpiring, rolls, lib, now);
      }
      if auto.done {
        done := StageTimesOf(Finishing, rolls, lib, now);
      }
      r := Join(report, Join(expire, done));
    }

    /** Every time at which cron may have something to do. */
    method ComputeCronTimes(lib: Library, now: Time) returns (r: Result<set<Time>>)
      ensures r == CronTimes(config, lib, state, now)
    {
      if config.autoremove && !AllWithdrawn(state.keyset.keys) {
        return Err;
      }
      var times := RenewalTimes(state.dnskeyRrset, config.dnskeyRemain, now)
                   + RenewalTimes(state.cdsRrset, config.cdsRemain, now)
                   + AllStartTimes(StartRules(config, state.keyset.keys), state.keyset)
                   + RemovalTimes(config, state.keyset.keys);
      var ksk := RollTimesFor(config.autoKsk, KSK_ROLLS, lib, now);
      var zsk := RollTimesFor(config.autoZsk, ZSK_ROLLS, lib, now);
      var csk := RollTimesFor(config.autoCsk, CSK_ROLLS, lib, now);
      var algorithm := RollTimesFor(config.autoAlgorithm, ALGORITHM_ROLLS, lib, now);
      r := Join(Ok(times), Join(Join(ksk, zsk), Join(csk, algorithm)));
    }

    /** The cron command from reading the stored state to writing it back:
        what is written, if anything, is what the specification stores. */
    method CronCommand(lib: Library, w: World, now: Time, ghost sys: System) returns (written: Option<State>)
      requires log == [] && !stateChanged && !configChanged
      requires sys.cfg == config && sys.state == state
      modifies this`state, this`log, this`stateChanged
      ensures (if written.Some? then written.value else sys.state) == Execute(lib, w, now, sys, CronRun).state
    {
      var status := RunCron(lib, w, now);
      if !status.Running? {
        return None;
      }
      if !configChanged && !stateChanged {
        // The stored schedule still holds.
        return None;
      }
      var times := ComputeCronTimes(lib, now);
      if times.Err? {
        return None;
      }
      var cronNext := SetMin(times.value);
      if cronNext != state.cronNext {
        state := state.(cronNext := cronNext);
        stateChanged := true;
      }
      written := Some(state);
    }
  }
}
