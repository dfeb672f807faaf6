/** What the steps of a cron run do to the state, in terms of the keys, rolls
    and RRsets before and after, and when they succeed. */
module CronEffects {
  import opened Wrappers
  import opened Records
  import opened KeySets
  import opened ReportSlots
  import opened CronSpec
  import opened CronKeeps

  // ----- RRsets -----

  predicate IsCds(a: Action) {
    a.CreateCdsRrset? || a.RemoveCdsRrset?
  }

  /** Everything the actions ask for can be made for these keys. */
  predicate CanHandle(actions: seq<Action>, w: World, keys: Keys) {
    && (UpdateDnskeyRrset in actions ==> w.signDnskeys(keys).Some?)
    && (CreateCdsRrset in actions ==> w.makeCds(keys).Some?)
    && (UpdateDsRrset in actions ==> w.makeDs(keys).Some?)
  }

  /** The RRsets asked for are those made for the current keys, the others are
      as before.  For the CDS RRset the last action that concerns it counts. */
  ghost predicate RrsetsHandled(actions: seq<Action>, w: World, before: State, after: State) {
    var keys := after.keyset.keys;
    && (if UpdateDnskeyRrset in actions then w.signDnskeys(keys) == Some(after.dnskeyRrset)
        else after.dnskeyRrset == before.dnskeyRrset)
    && (if UpdateDsRrset in actions then w.makeDs(keys) == Some(after.dsRrset)
        else after.dsRrset == before.dsRrset)
    && ((forall a :: a in actions ==> !IsCds(a)) ==> after.cdsRrset == before.cdsRrset)
    && (forall i :: 0 <= i < |actions| && LastCds(actions, i) ==>
                      if actions[i].CreateCdsRrset? then w.makeCds(keys) == Some(after.cdsRrset)
                      else after.cdsRrset == [])
  }

  ghost predicate LastCds(actions: seq<Action>, i: nat)
    requires i < |actions|
  {
    IsCds(actions[i]) && forall j :: i < j < |actions| ==> !IsCds(actions[j])
  }

  /** Handling actions succeeds exactly if everything can be made. */
  lemma {:induction false} HandlingSucceeds(actions: seq<Action>, w: World, run: Run)
    requires run.status.Running?
    ensures var after := HandleActions(actions, w, run);
            && (after.status.Running? <==> CanHandle(actions, w, run.state.keyset.keys))
            && (!after.status.Running? ==> after.status.Error?)
  {
    if actions != [] {
      var next := HandleAction(actions[0], w, run);
      assert actions == [actions[0]] + actions[1..];
      if next.status.Running? {
        HandlingSucceeds(actions[1..], w, next);
      }
    }
  }

  lemma {:induction false} HandlingMakes(actions: seq<Action>, w: World, run: Run)
    requires run.status.Running? && HandleActions(actions, w, run).status.Running?
    ensures RrsetsHandled(actions, w, run.state, HandleActions(actions, w, run).state)
    ensures HandleActions(actions, w, run).state.keyset == run.state.keyset
  {
    HandleActionsFrame(actions, w, run);
    if actions != [] {
      var next := HandleAction(actions[0], w, run);
      HandlingMakes(actions[1..], w, next);
      FirstHandled(actions, w, run.state, next.state, HandleActions(actions, w, run).state);
    }
  }

  /** One action, and then the others. */
  lemma {:induction false} FirstHandled(actions: seq<Action>, w: World, before: State, next: State, after: State)
    requires actions != [] && RrsetsHandled(actions[1..], w, next, after)
    requires before.keyset == next.keyset == after.keyset
    requires HandleAction(actions[0], w, Run(before, [], Running)) == Run(next, [], Running)
    ensures RrsetsHandled(actions, w, before, after)
  {
    var rest, keys := actions[1..], after.keyset.keys;
    assert actions == [actions[0]] + rest;
    if forall a :: a in actions ==> !IsCds(a) {
      assert actions[0] in actions;
      assert forall a :: a in rest ==> a in actions;
    }
    forall i | 0 <= i < |actions| && LastCds(actions, i)
      ensures if actions[i].CreateCdsRrset? then w.makeCds(keys) == Some(after.cdsRrset) else after.cdsRrset == []
    {
      if i > 0 {
        assert LastCds(rest, i - 1);
      } else {
        NoneLater(actions);
      }
    }
  }

  lemma {:induction false} NoneLater(actions: seq<Action>)
    requires actions != [] && LastCds(actions, 0)
    ensures forall a :: a in actions[1..] ==> !IsCds(a)
  {
    forall j | 0 <= j < |actions[1..]| ensures !IsCds(actions[1..][j]) {
      assert actions[j + 1] == actions[1..][j];
    }
  }

  /** A renewal replaces the RRset by one made for the current keys, and nothing else. */
  lemma RenewalEffects(cfg: Config, w: World, now: Time, run: Run)
    requires run.status.Running?
    ensures var after := RenewDnskey(cfg, w, now, run);
            if after.log == run.log then after == run
            else
              var made := w.signDnskeys(run.state.keyset.keys);
              && after.log == run.log + [Renew("DNSKEY")]
              && (after.status.Running? <==> made.Some?)
              && (made.Some? ==> after.state == run.state.(dnskeyRrset := made.value))
    ensures var after := RenewCds(cfg, w, now, run);
            if after.log == run.log then after == run
            else
              var made := w.makeCds(run.state.keyset.keys);
              && after.log == run.log + [Renew("CDS")]
              && (after.status.Running? <==> made.Some?)
              && (made.Some? ==> after.state == run.state.(cdsRrset := made.value))
  {
  }

  // ----- Starts -----

  /** The key is in use in a role that a roll of this kind replaces. */
  predicate Replaced(kind: StartKind, k: Key) {
    match k.keytype
    case Ksk(s) => !s.stale && !kind.StartZsk?
    case Zsk(s) => !s.stale && !kind.StartKsk?
    case Csk(s, _) => !s.stale && (kind.StartCsk? || kind.StartAlgorithm?)
    case Include(_) => false
  }

  ghost predicate ExactlyReplaced(kind: StartKind, keys: Keys, retired: set<PubRef>) {
    forall p :: p in retired <==> p in keys && Replaced(kind, keys[p])
  }

  /** The roll that each kind of start begins. */
  predicate Begins(kind: StartKind, cfg: Config, r: RollType) {
    match r
    case KskRoll => kind.StartKsk? && !cfg.kskDoubleDs
    case KskDoubleDsRoll => kind.StartKsk? && cfg.kskDoubleDs
    case ZskRoll => kind.StartZsk? && !cfg.zskDoubleSignature
    case ZskDoubleSignatureRoll => kind.StartZsk? && cfg.zskDoubleSignature
    case CskRoll => kind.StartCsk?
    case AlgorithmRoll => kind.StartAlgorithm?
  }

  /** The keys after the start: new ones are made, and the library starts the
      roll from exactly the keys it replaces to the new ones. */
  ghost predicate KeysStarted(kind: StartKind, r: RollType, lib: Library, w: World, before: KeySet, keys: Keys) {
    exists made: Keys, added, retired: set<PubRef> ::
      && w.newKeys(before.keys, kind) == Some((made, added))
      && ExactlyReplaced(kind, before.keys, retired)
      && lib.start(KeySet(made, before.rolls), r, retired, added, w.clock) == Some(keys)
  }

  lemma RetiredAreReplaced(kind: StartKind, keys: Keys)
    ensures ExactlyReplaced(kind, keys, Retired(kind, keys))
  {
  }

  lemma {:induction false} StartedOnce(kind: StartKind, r: RollType, lib: Library, w: World, ks: KeySet, keys: Keys)
    requires KeysStarted(kind, r, lib, w, ks, keys)
    ensures w.newKeys(ks.keys, kind).Some?
    ensures var (made, added) := w.newKeys(ks.keys, kind).value;
            lib.start(KeySet(made, ks.rolls), r, Retired(kind, ks.keys), added, w.clock) == Some(keys)
  {
    RetiredAreReplaced(kind, ks.keys);
    var made: Keys, added, retired: set<PubRef> :|
      && w.newKeys(ks.keys, kind) == Some((made, added))
      && ExactlyReplaced(kind, ks.keys, retired)
      && lib.start(KeySet(made, ks.rolls), r, retired, added, w.clock) == Some(keys);
    assert retired == Retired(kind, ks.keys);
  }

  /** A start that has succeeded. */
  lemma {:induction false} StartEffects(kind: StartKind, cfg: Config, lib: Library, w: World, run: Run)
    requires run.status.Running? && StartKey(kind, cfg, lib, w, run).status.Running?
    ensures var before, after := run.state, StartKey(kind, cfg, lib, w, run).state;
            var r := RollOf(kind, cfg);
            && Begins(kind, cfg, r) && r !in before.keyset.rolls
            && after.keyset.rolls == before.keyset.rolls[r := Propagation1]
            && KeysStarted(kind, r, lib, w, before.keyset, after.keyset.keys)
            && RrsetsHandled(lib.actions(r, Propagation1), w, before, after)
            && after.internal == before.internal[r := RollStateReports(EMPTY, EMPTY, EMPTY)]
            && after.cronNext == before.cronNext
            && StartKey(kind, cfg, lib, w, run).log == run.log + [Start(r)]
  {
    var ks, r := run.state.keyset, RollOf(kind, cfg);
    var (keys, added) := w.newKeys(ks.keys, kind).value;
    var retired := Retired(kind, ks.keys);
    var begun := run.(log := run.log + [Start(r)]);
    var started := StartRoll(lib, KeySet(keys, ks.rolls), r, retired, added, w.clock).value;
    RetiredAreReplaced(kind, ks.keys);
    HandlingMakes(lib.actions(r, Propagation1), w, begun.(state := begun.state.(keyset := started)));
    HandleActionsFrame(lib.actions(r, Propagation1), w, begun.(state := begun.state.(keyset := started)));
  }

  /** A start succeeds exactly if there are keys, a KSK or ZSK roll is not for
      a zone with or for a CSK, new keys can be made, no such roll is in
      progress, the library accepts it and the actions can be handled. */
  lemma {:induction false} StartSucceeds(kind: StartKind, cfg: Config, lib: Library, w: World, run: Run)
    requires run.status.Running?
    ensures var ks, r := run.state.keyset, RollOf(kind, cfg);
            StartKey(kind, cfg, lib, w, run).status.Running? <==>
              && ks.keys != map[]
              && (kind.StartKsk? || kind.StartZsk? ==>
                    && !cfg.useCsk
                    && forall p :: p in ks.keys && ks.keys[p].keytype.Csk? ==> ks.keys[p].keytype.state.stale)
              && r !in ks.rolls
              && exists keys: Keys ::
                   KeysStarted(kind, r, lib, w, ks, keys) && CanHandle(lib.actions(r, Propagation1), w, keys)
  {
    var ks, r := run.state.keyset, RollOf(kind, cfg);
    RetiredAreReplaced(kind, ks.keys);
    if ks.keys != map[] && !WrongRoll(kind, cfg, ks.keys) && w.newKeys(ks.keys, kind).Some? {
      var (keys, added) := w.newKeys(ks.keys, kind).value;
      var begun := run.(log := run.log + [Start(r)]);
      var started := StartRoll(lib, KeySet(keys, ks.rolls), r, Retired(kind, ks.keys), added, w.clock);
      if started.Some? {
        HandlingSucceeds(lib.actions(r, Propagation1), w, begun.(state := begun.state.(keyset := started.value)));
        assert ExactlyReplaced(kind, ks.keys, Retired(kind, ks.keys));
        assert KeysStarted(kind, r, lib, w, ks, started.value.keys);
      }
    }
    forall other: Keys | KeysStarted(kind, r, lib, w, ks, other)
      ensures w.newKeys(ks.keys, kind).Some?
      ensures var (made, added) := w.newKeys(ks.keys, kind).value;
              lib.start(KeySet(made, ks.rolls), r, Retired(kind, ks.keys), added, w.clock) == Some(other)
    {
      StartedOnce(kind, r, lib, w, ks, other);
    }
  }

  // ----- When starts are due -----

  predicate InUseAs(kind: KeyKind, k: Key) {
    match k.keytype
    case Ksk(s) => kind.AnyKsk? && !s.stale
    case Zsk(s) => kind.AnyZsk? && !s.stale
    case Csk(s, _) => kind.AnyCsk? && !s.stale
    case Include(_) => false
  }

  /** A rule is due exactly if a key of its kind in use was published longer
      ago than its validity and no roll that stands in the way is in progress. */
  lemma {:induction false} RuleDue(rule: StartRule, ks: KeySet, now: Time)
    ensures StartDue(rule, ks, now) <==>
              && rule.validity.Some? && rule.auto
              && (forall r :: r in ks.rolls ==> r !in rule.conflicts)
              && exists p :: && p in ks.keys && InUseAs(rule.kind, ks.keys[p]) && ks.keys[p].published.Some?
                             && ks.keys[p].published.value + rule.validity.value < now
  {
    assert Conflict(ks, rule.conflicts) <==> exists r :: r in ks.rolls && r in rule.conflicts by {
      if r :| r in ks.rolls && r in rule.conflicts {
        assert r in ks.rolls.Keys * rule.conflicts;
      }
    }
    if rule.validity.Some? {
      var times := Expiries(ks.keys, rule.kind, rule.validity.value);
      if p :| && p in ks.keys && InUseAs(rule.kind, ks.keys[p]) && ks.keys[p].published.Some?
              && ks.keys[p].published.value + rule.validity.value < now {
        assert ks.keys[p].published.value + rule.validity.value in times;
      }
    }
  }

  /** The rules, by the kind of key whose validity runs out: that kind rolls,
      unless the zone wants a CSK or keys have the wrong algorithm. */
  lemma {:induction false} RulesTable(cfg: Config, keys: Keys)
    ensures var rules := StartRules(cfg, keys);
            var need := AlgorithmRollNeeded(cfg, keys);
            && |rules| == 3
            && rules[0].kind.AnyKsk? && rules[0].validity == cfg.kskValidity
            && rules[1].kind.AnyZsk? && rules[1].validity == cfg.zskValidity
            && rules[2].kind.AnyCsk? && rules[2].validity == cfg.cskValidity
            && (forall i :: 0 <= i < 3 && (cfg.useCsk || need || i == 2) ==>
                              && rules[i].starts == (if need then StartAlgorithm else StartCsk)
                              && rules[i].auto == (if need then cfg.autoAlgorithm.start else cfg.autoCsk.start)
                              && forall r: RollType :: r in rules[i].conflicts)
            && (!cfg.useCsk && !need ==>
                  && rules[0].starts.StartKsk? && rules[0].auto == cfg.autoKsk.start
                  && rules[1].starts.StartZsk? && rules[1].auto == cfg.autoZsk.start
                  && (forall r: RollType :: r in rules[0].conflicts <==> !r.ZskRoll? && !r.ZskDoubleSignatureRoll?)
                  && (forall r: RollType :: r in rules[1].conflicts <==> !r.KskRoll? && !r.KskDoubleDsRoll?))
  {
    forall r: RollType ensures r in ALL_ROLLS {
      match r
      case KskRoll => case KskDoubleDsRoll => case ZskRoll =>
      case ZskDoubleSignatureRoll => case CskRoll => case AlgorithmRoll =>
    }
  }

  predicate InUse(k: Key) {
    match k.keytype
    case Ksk(s) => !s.stale
    case Zsk(s) => !s.stale
    case Csk(s, _) => !s.stale
    case Include(_) => false
  }

  lemma {:induction false} AlgorithmRollDue(cfg: Config, keys: Keys)
    ensures AlgorithmRollNeeded(cfg, keys) <==>
              || (forall p :: p in keys ==> !InUse(keys[p]))
              || (exists p :: p in keys && InUse(keys[p]) && keys[p].algorithm != cfg.algorithm)
  {
    var used := set p | p in keys && !keys[p].keytype.Include? && !Stale(keys[p]) :: keys[p].algorithm;
    forall p | p in keys && InUse(keys[p]) ensures keys[p].algorithm in used {
    }
    if used == {cfg.algorithm} {
      assert cfg.algorithm in used;
    }
  }

  /** The rules are tried one after the other. */
  lemma {:induction false} RulesInTurn(a: seq<StartRule>, b: seq<StartRule>, cfg: Config, lib: Library, w: World,
                                       now: Time, run: Run)
    ensures AutoStarts(a + b, cfg, lib, w, now, run) ==
              AutoStarts(b, cfg, lib, w, now, AutoStarts(a, cfg, lib, w, now, run))
    ensures forall rule: StartRule :: AutoStarts([rule], cfg, lib, w, now, run) ==
                             if run.status.Running? && StartDue(rule, run.state.keyset, now)
                             then StartKey(rule.starts, cfg, lib, w, run) else run
    decreases |a|
  {
    if a == [] {
      assert a + b == b;
    } else {
      assert (a + b)[1..] == a[1..] + b;
      RulesInTurn(a[1..], b, cfg, lib, w, now, AutoStart(a[0], cfg, lib, w, now, run));
    }
    forall rule: StartRule ensures [rule][1..] == [] {
    }
  }

  // ----- The stages of a roll -----

  /** The state a roll comes to when a propagation step has been completed. */
  predicate CompletedTo(from: RollState, ttl: nat, to: RollState) {
    (from.Propagation1? && to == CacheExpire1(ttl)) || (from.Propagation2? && to == CacheExpire2(ttl))
  }

  predicate ExpiredTo(from: RollState, to: RollState) {
    (from.CacheExpire1? && to.Propagation2?) || (from.CacheExpire2? && to.Done?)
  }

  /** Roll `r` has moved to state `to`, and all that goes with it has been done. */
  ghost predicate RollMoved(r: RollType, to: RollState, lib: Library, w: World, clock: Time, before: State,
                            after: State)
  {
    && after.keyset.rolls == before.keyset.rolls[r := to]
    && lib.advance(before.keyset, r, clock) == Some(after.keyset.keys)
    && RrsetsHandled(lib.actions(r, to), w, before, after)
    && after.internal == before.internal && after.cronNext == before.cronNext
  }

  predicate CanMove(r: RollType, to: RollState, lib: Library, w: World, clock: Time, ks: KeySet) {
    var keys := lib.advance(ks, r, clock);
    keys.Some? && CanHandle(lib.actions(r, to), w, keys.value)
  }

  lemma {:induction false} CompletionEffects(r: RollType, ttl: nat, to: RollState, lib: Library, w: World, run: Run)
    requires run.status.Running? && r in run.state.keyset.rolls && CompletedTo(run.state.keyset.rolls[r], ttl, to)
    ensures var after := CompletePropagation(r, ttl, lib, w, run);
            && (after.status.Running? <==> CanMove(r, to, lib, w, w.clock, run.state.keyset))
            && (after.status.Running? ==> RollMoved(r, to, lib, w, w.clock, run.state, after.state))
            && after.log == run.log
  {
    var moved := PropagationComplete(lib, run.state.keyset, r, ttl, w.clock);
    if moved.Some? {
      EnteringEffects(r, moved.value, lib, w, run);
    }
  }

  lemma {:induction false} EnteringEffects(r: RollType, ks: KeySet, lib: Library, w: World, run: Run)
    requires run.status.Running? && r in ks.rolls
    ensures var after := EnterState(r, ks, lib, w, run);
            && (after.status.Running? <==> CanHandle(lib.actions(r, ks.rolls[r]), w, ks.keys))
            && (after.status.Running? ==>
                  && RrsetsHandled(lib.actions(r, ks.rolls[r]), w, run.state, after.state)
                  && after.state.keyset == ks && after.state.internal == run.state.internal
                  && after.state.cronNext == run.state.cronNext)
            && after.log == run.log
  {
    var begun := run.(state := run.state.(keyset := ks));
    var actions := lib.actions(r, ks.rolls[r]);
    HandlingSucceeds(actions, w, begun);
    HandleActionsFrame(actions, w, begun);
    if HandleActions(actions, w, begun).status.Running? {
      HandlingMakes(actions, w, begun);
    }
  }

  /** Only the slots of roll `r` in phase `during` may differ. */
  ghost predicate OnlySlots(r: RollType, during: RollState, before: State, after: State) {
    && r in before.internal && r in after.internal
    && after == before.(internal := before.internal[r := after.internal[r]])
    && var a, b := before.internal[r], after.internal[r];
    && (!during.Propagation1? ==> a.propagation1 == b.propagation1)
    && (!during.Propagation2? ==> a.propagation2 == b.propagation2)
    && (during.Propagation1? || during.Propagation2? ==> a.done == b.done)
  }

  /** Each check is noted down with the RRsets kept at that moment. */
  lemma {:induction false} ChecksNoteKept(r: RollType, during: RollState, slots: ReportState, probes: seq<Probe>,
                                          run: Run)
    requires r in run.state.internal
    ensures var noted := Probed(r, during, slots, probes, run).log[|run.log|..];
            && Probed(r, during, slots, probes, run).log == run.log + noted && |noted| == |probes|
            && forall i :: 0 <= i < |probes| ==>
                             noted[i] == Check(r, during, probes[i], Asked(run.state.dnskeyRrset, run.state.cdsRrset))
  {
    var checks := Checks(r, during, probes, AskedOf(run.state));
    assert (run.log + checks)[|run.log|..] == checks;
  }

  /** The report stage of one roll: no step of propagation is completed without
      its checks, and completing it moves that roll alone. */
  lemma {:induction false} ReportEffects(r: RollType, lib: Library, w: World, now: Time, run: Run)
    requires LibraryOk(lib) && run.status.Running? && Valid(run.state) && Propagating(run.state.keyset, r)
    ensures var during := run.state.keyset.rolls[r];
            var slots := SlotsOf(run.state.internal[r], during);
            var pass := RunActions(lib.actions(r, during), slots, now, w.probes(r, run.state));
            var after := ReportStep(r, lib, w, now, run);
            && (pass.Stop? ==> after.status.Running? && OnlySlots(r, during, run.state, after.state))
            && (pass.Next? ==>
                  exists mid: State, to ::
                    && OnlySlots(r, during, run.state, mid) && CompletedTo(during, pass.ttl, to)
                    && after.log != [] && after.log[|after.log| - 1] == Complete(r, during, pass.ttl)
                    && (after.status.Running? <==> CanMove(r, to, lib, w, w.clock, mid.keyset))
                    && (after.status.Running? ==> RollMoved(r, to, lib, w, w.clock, mid, after.state)))
  {
    var during := run.state.keyset.rolls[r];
    var pass := RunActions(lib.actions(r, during), SlotsOf(run.state.internal[r], during), now, w.probes(r, run.state));
    var next := Probed(r, during, pass.slots, pass.probes, run);
    if pass.Next? {
      var to := if during.Propagation1? then CacheExpire1(pass.ttl) else CacheExpire2(pass.ttl);
      var done := next.(log := next.log + [Complete(r, during, pass.ttl)]);
      CompletionEffects(r, pass.ttl, to, lib, w, done);
      assert OnlySlots(r, during, run.state, next.state) && CompletedTo(during, pass.ttl, to);
      assert done.log[|done.log| - 1] == Complete(r, during, pass.ttl);
    }
  }

  /** The cache stage of one roll: it moves exactly when its caches have expired. */
  lemma {:induction false} ExpireEffects(r: RollType, lib: Library, w: World, now: Time, run: Run)
    requires run.status.Running?
    ensures var ks := run.state.keyset;
            var after := ExpireStep(r, lib, w, now, run);
            if r in ks.rolls && (ks.rolls[r].CacheExpire1? || ks.rolls[r].CacheExpire2?) && lib.expiry(ks, r) <= now
            then
              exists to ::
                && ExpiredTo(ks.rolls[r], to)
                && (after.status.Running? <==> CanMove(r, to, lib, w, now, ks))
                && (after.status.Running? ==> RollMoved(r, to, lib, w, now, run.state, after.state))
            else after == run
  {
    var ks := run.state.keyset;
    if r in ks.rolls && (ks.rolls[r].CacheExpire1? || ks.rolls[r].CacheExpire2?) && lib.expiry(ks, r) <= now {
      var to := if ks.rolls[r].CacheExpire1? then Propagation2 else Done;
      var res := CacheExpired(lib, ks, r, now);
      if res.Expired? {
        EnteringEffects(r, res.keyset, lib, w, run.(log := run.log + [Expire(r)]));
      }
      assert ExpiredTo(ks.rolls[r], to);
    }
  }

  /** A finished roll is gone with its reports, and leaves no CDS RRset. */
  ghost predicate RollGone(r: RollType, lib: Library, w: World, before: State, after: State) {
    && r in before.keyset.rolls && before.keyset.rolls[r].Done?
    && lib.finish(before.keyset, r, w.clock) == Some(after.keyset.keys)
    && (forall q :: q in after.keyset.rolls <==> q in before.keyset.rolls && q != r)
    && (forall q :: q in after.keyset.rolls ==> after.keyset.rolls[q] == before.keyset.rolls[q])
    && (forall q :: q in after.internal <==> q in before.internal && q != r)
    && (forall q :: q in after.internal ==> after.internal[q] == before.internal[q])
    && after.cdsRrset == []
    && after.dnskeyRrset == before.dnskeyRrset && after.dsRrset == before.dsRrset && after.cronNext == before.cronNext
  }

  lemma {:induction false} FinishingEffects(r: RollType, lib: Library, w: World, run: Run)
    requires run.status.Running?
    ensures var ks := run.state.keyset;
            var after := DoDone(r, lib, w, run);
            && (after.status.Running? <==> r in ks.rolls && ks.rolls[r].Done? && lib.finish(ks, r, w.clock).Some?)
            && (after.status.Running? ==> RollGone(r, lib, w, run.state, after.state))
            && (!after.status.Running? ==> after.status.Error?)
            && after.log == run.log
  {
  }

  lemma {:induction false} DoneEffects(r: RollType, lib: Library, w: World, now: Time, run: Run)
    requires LibraryOk(lib) && run.status.Running? && Valid(run.state)
    requires r in run.state.keyset.rolls && run.state.keyset.rolls[r].Done?
    ensures var pass := RunActions(lib.actions(r, Done), run.state.internal[r].done, now, w.probes(r, run.state));
            var after := DoneStep(r, lib, w, now, run);
            && (pass.Stop? ==> after.status.Running? && OnlySlots(r, Done, run.state, after.state))
            && (pass.Next? ==>
                  exists mid: State ::
                    && OnlySlots(r, Done, run.state, mid)
                    && (after.status.Running? <==> lib.finish(mid.keyset, r, w.clock).Some?)
                    && (after.status.Running? ==> RollGone(r, lib, w, mid, after.state)))
  {
    var pass := RunActions(lib.actions(r, Done), run.state.internal[r].done, now, w.probes(r, run.state));
    var next := Probed(r, Done, pass.slots, pass.probes, run);
    if pass.Next? {
      FinishingEffects(r, lib, w, next.(log := next.log + [Finish(r)]));
      assert OnlySlots(r, Done, run.state, next.state);
    }
  }

  // ----- Removing keys -----

  /** The key was withdrawn at least the configured delay ago and is stale. */
  predicate LongStale(cfg: Config, k: Key, now: Time) {
    && (match k.keytype
        case Ksk(s) => s.stale
        case Zsk(s) => s.stale
        case Csk(s, _) => s.stale
        case Include(s) => s.stale)
    && k.withdrawn.Some? && k.withdrawn.value + cfg.autoremoveDelay <= now
  }

  /** Exactly the long stale keys go, and nothing else changes. */
  lemma {:induction false} RemovalEffects(cfg: Config, w: World, now: Time, run: Run)
    requires run.status.Running? && Valid(run.state) && cfg.autoremove
    ensures var before, after := run.state, AutoRemove(cfg, w, now, run);
            var keys := before.keyset.keys;
            && (after.status.Running? <==> forall p :: p in keys && LongStale(cfg, keys[p], now) ==> w.removable(p))
            && (after.status.Running? ==>
                  && KeysRemoved(cfg, now, keys, after.state.keyset.keys)
                  && after.state == before.(keyset := KeySet(after.state.keyset.keys, before.keyset.rolls)))
  {
    var keys, refs := run.state.keyset.keys, RemovableAt(cfg, run.state.keyset.keys, now);
    forall p ensures p in refs <==> p in keys && LongStale(cfg, keys[p], now) {
    }
    if refs == {} {
      assert forall p :: p in keys ==> p !in refs;
    }
  }

  ghost predicate KeysRemoved(cfg: Config, now: Time, before: Keys, after: Keys) {
    && (forall p :: p in after <==> p in before && !LongStale(cfg, before[p], now))
    && (forall p :: p in after ==> after[p] == before[p])
  }

  /** The same configuration without the removal of keys. */
  function Keeping(cfg: Config): Config {
    cfg.(autoremove := false)
  }

  lemma {:induction false} StartsWithoutRemoval(rules: seq<StartRule>, cfg: Config, lib: Library, w: World, now: Time,
                                                run: Run)
    ensures AutoStarts(rules, cfg, lib, w, now, run) == AutoStarts(rules, Keeping(cfg), lib, w, now, run)
    decreases |rules|
  {
    if rules != [] {
      var kind := rules[0].starts;
      assert RollOf(kind, cfg) == RollOf(kind, Keeping(cfg));
      assert StartKey(kind, cfg, lib, w, run) == StartKey(kind, Keeping(cfg), lib, w, run);
      StartsWithoutRemoval(rules[1..], cfg, lib, w, now, AutoStart(rules[0], cfg, lib, w, now, run));
    }
  }

  /** A whole cron run that removes keys ends like one that does not, except
      that exactly the keys long stale by then are gone. */
  lemma {:induction false} CronRemovesExactly(cfg: Config, lib: Library, w: World, now: Time, st: State)
    requires LibraryOk(lib) && WorldOk(w) && Valid(st) && cfg.autoremove
    ensures var keeps, removes := Cron(Keeping(cfg), lib, w, now, st), Cron(cfg, lib, w, now, st);
            var keys := keeps.state.keyset.keys;
            && (removes.status.Running? <==>
                  && keeps.status.Running?
                  && forall p :: p in keys && LongStale(cfg, keys[p], now) ==> w.removable(p))
            && (removes.status.Running? ==>
                  && KeysRemoved(cfg, now, keys, removes.state.keyset.keys)
                  && removes.state ==
                       keeps.state.(keyset := KeySet(removes.state.keyset.keys, keeps.state.keyset.rolls)))
  {
    var run1 := RenewCds(cfg, w, now, RenewDnskey(cfg, w, now, Run(st, [], Running)));
    assert run1 == RenewCds(Keeping(cfg), w, now, RenewDnskey(Keeping(cfg), w, now, Run(st, [], Running)));
    var rules := StartRules(cfg, run1.state.keyset.keys);
    var keys := run1.state.keyset.keys;
    assert AlgorithmRollNeeded(cfg, keys) == AlgorithmRollNeeded(Keeping(cfg), keys);
    assert rules == StartRules(Keeping(cfg), run1.state.keyset.keys);
    StartsWithoutRemoval(rules, cfg, lib, w, now, run1);
    var run2 := AutoStarts(rules, cfg, lib, w, now, run1);
    var run3 := AutoRolls(cfg, lib, w, now, run2);
    assert run3 == AutoRolls(Keeping(cfg), lib, w, now, run2) == Cron(Keeping(cfg), lib, w, now, st);
    CronKeepsValid(Keeping(cfg), lib, w, now, st);
    if run3.status.Running? {
      RemovalEffects(cfg, w, now, run3);
    }
  }
}
