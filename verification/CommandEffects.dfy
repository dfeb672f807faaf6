/** What the commands given by hand do to the stored state. */
module CommandEffects {
  import opened Wrappers
  import opened Records
  import opened KeySets
  import opened ReportSlots
  import opened CronSpec
  import opened CronKeeps
  import opened CronEffects
  import opened Schedule
  import opened KeysetRuns

  /** A roll is moved on by hand only from the phase named, with the TTL given. */
  lemma {:induction false} PropagatedEffects(variant: Variant, second: bool, ttl: nat, cfg: Config, lib: Library,
                                             w: World, now: Time, st: State)
    ensures var run := Perform(cfg, lib, w, now, st, Propagated(variant, second, ttl));
            var r := RollOf(variant, cfg);
            var to := if second then CacheExpire2(ttl) else CacheExpire1(ttl);
            && Begins(variant, cfg, r) && run.log == []
            && (run.status.Running? <==>
                  && r in st.keyset.rolls
                  && (if second then st.keyset.rolls[r].Propagation2? else st.keyset.rolls[r].Propagation1?)
                  && CanMove(r, to, lib, w, w.clock, st.keyset))
            && (run.status.Running? ==> RollMoved(r, to, lib, w, w.clock, st, run.state))
  {
    var r := RollOf(variant, cfg);
    if r in st.keyset.rolls && st.keyset.rolls[r] == (if second then Propagation2 else Propagation1) {
      CompletionEffects(r, ttl, if second then CacheExpire2(ttl) else CacheExpire1(ttl), lib, w, Run(st, [], Running));
    }
  }

  lemma {:induction false} CachesExpiredEffects(variant: Variant, second: bool, cfg: Config, lib: Library, w: World,
                                                now: Time, st: State)
    ensures var run := Perform(cfg, lib, w, now, st, CachesExpired(variant, second));
            var r := RollOf(variant, cfg);
            var to := if second then Done else Propagation2;
            && run.log == []
            && (run.status.Running? <==>
                  && r in st.keyset.rolls
                  && (if second then st.keyset.rolls[r].CacheExpire2? else st.keyset.rolls[r].CacheExpire1?)
                  && lib.expiry(st.keyset, r) <= now
                  && CanMove(r, to, lib, w, now, st.keyset))
            && (run.status.Running? ==> RollMoved(r, to, lib, w, now, st, run.state))
  {
    var r := RollOf(variant, cfg);
    var res := CacheExpired(lib, st.keyset, r, now);
    if res.Expired? {
      EnteringEffects(r, res.keyset, lib, w, Run(st, [], Running));
    }
  }

  lemma {:induction false} DoneWithEffects(variant: Variant, cfg: Config, lib: Library, w: World, now: Time, st: State)
    ensures var run := Perform(cfg, lib, w, now, st, DoneWith(variant));
            var r := RollOf(variant, cfg);
            && run.log == [Finish(r)]
            && (run.status.Running? <==>
                  r in st.keyset.rolls && st.keyset.rolls[r].Done? && lib.finish(st.keyset, r, w.clock).Some?)
            && (run.status.Running? ==> RollGone(r, lib, w, st, run.state))
  {
    FinishingEffects(RollOf(variant, cfg), lib, w, Run(st, [Finish(RollOf(variant, cfg))], Running));
  }

  /** An RRset there was is made again, one there was not is not. */
  predicate Remade(before: Rrset, made: Option<Rrset>, after: Rrset) {
    if before == [] then after == [] else made == Some(after)
  }

  /** After a command on keys the RRsets there are fit the keys. */
  lemma {:induction false} EditEffects(edit: Keys -> Option<Keys>, cfg: Config, lib: Library, w: World, now: Time,
                                       st: State)
    ensures var run := Perform(cfg, lib, w, now, st, EditKeys(edit));
            var keys := edit(st.keyset.keys);
            && run.log == []
            && (run.status.Running? <==>
                  && keys.Some?
                  && (st.dnskeyRrset != [] ==> w.signDnskeys(keys.value).Some?)
                  && (st.dsRrset != [] ==> w.makeDs(keys.value).Some?)
                  && (st.cdsRrset != [] ==> w.makeCds(keys.value).Some?))
            && (run.status.Running? ==>
                  && run.state.keyset == KeySet(keys.value, st.keyset.rolls)
                  && Remade(st.dnskeyRrset, w.signDnskeys(keys.value), run.state.dnskeyRrset)
                  && Remade(st.dsRrset, w.makeDs(keys.value), run.state.dsRrset)
                  && Remade(st.cdsRrset, w.makeCds(keys.value), run.state.cdsRrset)
                  && run.state.internal == st.internal && run.state.cronNext == st.cronNext)
  {
  }

  /** Keys imported before: a CSK, or a KSK and a ZSK. */
  predicate Complete(keys: Keys) {
    || (exists p :: p in keys && keys[p].keytype.Csk?)
    || ((exists p :: p in keys && keys[p].keytype.Ksk?) && (exists p :: p in keys && keys[p].keytype.Zsk?))
  }

  /** No key but those of others. */
  predicate NoneOwn(keys: Keys) {
    forall p :: p in keys ==> keys[p].keytype.Include?
  }

  /** Init starts with the keys there are, or with a first algorithm roll that
      replaces none; a KSK or ZSK alone is refused, and so is a second init. */
  lemma {:induction false} InitEffects(cfg: Config, lib: Library, w: World, now: Time, st: State)
    ensures var run := Perform(cfg, lib, w, now, st, Init);
            var keys := st.keyset.keys;
            && (Complete(keys) ==>
                  && (run.status.Running? <==>
                        st.dnskeyRrset == [] && w.signDnskeys(keys).Some? && w.makeDs(keys).Some?)
                  && (run.status.Running? ==>
                        && Some(run.state.dnskeyRrset) == w.signDnskeys(keys)
                        && Some(run.state.dsRrset) == w.makeDs(keys)
                        && run.state == st.(dnskeyRrset := run.state.dnskeyRrset, dsRrset := run.state.dsRrset)))
            && (!Complete(keys) && !NoneOwn(keys) ==> !run.status.Running?)
            && (NoneOwn(keys) && run.status.Running? ==>
                  && st.dnskeyRrset == [] && AlgorithmRoll !in st.keyset.rolls
                  && run.state.keyset.rolls == st.keyset.rolls[AlgorithmRoll := Propagation1]
                  && KeysBegun(lib, w, st.keyset, run.state.keyset.keys)
                  && RrsetsHandled(lib.actions(AlgorithmRoll, Propagation1), w, st, run.state)
                  && run.state.internal == st.internal[AlgorithmRoll := RollStateReports(EMPTY, EMPTY, EMPTY)]
                  && run.log == [Start(AlgorithmRoll)])
  {
    var keys := st.keyset.keys;
    InitKinds(keys);
    var made := w.newKeys(keys, StartAlgorithm);
    if NoneOwn(keys) && made.Some? {
      var started := StartRoll(lib, KeySet(made.value.0, st.keyset.rolls), AlgorithmRoll, {}, made.value.1, w.clock);
      if started.Some? {
        var begun := Run(st.(keyset := started.value), [] + [Start(AlgorithmRoll)], Running);
        var actions := lib.actions(AlgorithmRoll, Propagation1);
        HandleActionsFrame(actions, w, begun);
        if HandleActions(actions, w, begun).status.Running? {
          HandlingMakes(actions, w, begun);
        }
      }
    }
  }

  ghost predicate KeysBegun(lib: Library, w: World, before: KeySet, keys: Keys) {
    var made := w.newKeys(before.keys, StartAlgorithm);
    && made.Some?
    && lib.start(KeySet(made.value.0, before.rolls), AlgorithmRoll, {}, made.value.1, w.clock) == Some(keys)
  }

  lemma {:induction false} InitKinds(keys: Keys)
    ensures Complete(keys) <==> (HasKey(keys, AnyKsk) && HasKey(keys, AnyZsk)) || HasKey(keys, AnyCsk)
    ensures NoneOwn(keys) <==> !HasKey(keys, AnyKsk) && !HasKey(keys, AnyZsk) && !HasKey(keys, AnyCsk)
  {
    assert HasKey(keys, AnyKsk) <==> exists p :: p in keys && keys[p].keytype.Ksk?;
    assert HasKey(keys, AnyZsk) <==> exists p :: p in keys && keys[p].keytype.Zsk?;
    assert HasKey(keys, AnyCsk) <==> exists p :: p in keys && keys[p].keytype.Csk?;
  }

  /** Setting and showing things changes neither keys nor rolls nor RRsets. */
  lemma OthersChangeNothing(cfg: Config, to: Config, lib: Library, w: World, now: Time, st: State)
    ensures Perform(cfg, lib, w, now, st, Set(to)) == Run(st, [], Running)
    ensures Perform(cfg, lib, w, now, st, ReadOnly) == Run(st, [], Running)
  {
  }

  /** What is stored after a command: its outcome with the least of the times
      computed for it, under the configuration it leaves, or what was stored
      before if it failed, changed nothing or its times cannot be computed. */
  lemma {:induction false} StoredAfter(lib: Library, w: World, now: Time, sys: System, cmd: Command)
    ensures var run, after := Perform(sys.cfg, lib, w, now, sys.state, cmd), Execute(lib, w, now, sys, cmd);
            var cfg := if cmd.Set? then cmd.cfg else sys.cfg;
            var times := CronTimes(cfg, lib, run.state, now);
            && after.clock == now
            && if run.status.Running? && times.Ok? && !cmd.ReadOnly? && (cmd.CronRun? ==> run.log != []) then
                 && after.cfg == cfg && after.asOf == now && after.history == sys.history + run.log
                 && after.state == run.state.(cronNext := after.state.cronNext)
                 && (after.state.cronNext.None? <==> times.value == {})
                 && (times.value != {} ==> IsLeast(after.state.cronNext.value, times.value))
               else after == sys.(clock := now)
  {
  }
}
