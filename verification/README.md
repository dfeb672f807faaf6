# dnst: a verified model of its state machines and zone transformations

`dnst` is a DNSSEC toolset. This project models its hardest parts in Dafny and
proves what they promise.

**Key-roll automation.** The `keyset` command keeps a persistent state: keys,
key rolls in progress, report slots, signed RRsets and the time `cron` is next
needed. `Records` and `KeySets` have the data; `CronSpec` says what one cron run does, step by
step, as a function that also logs every step it tries; `WorkSpace` is the
mutable work space whose methods do the same with loops and are proved to
compute that function. `Schedule` holds the second set of functions, those that
compute the next time, and proves that the two sets agree: nothing happens
before the stored time and something happens after it. `ReportSlots` is the
report and wait passes over the slots, `Propagation` the checks of DNSKEY and
DS records at every server that fill them. `KeysetRuns` runs all commands in any order;
`CronEffects` and `CommandEffects` say what each step and each command does to
keys, rolls, RRsets and reports, and when it succeeds. `CronKeeps`,
`CronPanics`, `RollHistory` and `StickySlots` prove what holds over whole runs. `CheckRrsigs` is the scan that decides whether a zone is signed as
expected.

**Zone signing.** `Nsec3Map` builds the map from NSEC3 hashes to names in one
pass with early exits; `OwnerOrder` is the comparison that reorders owners by
unhashed name; `SigningKeys` splits the keys and completes both halves by
algorithm; `ZoneDigest` is the ZONEMD protocol from placeholder to the renewed
signature; `ZoneWriter` is the writer that puts signatures behind what they cover.
`Names` has canonical name order (section 6.1 of RFC 4034) and `ZoneCuts` the
delegation tracking that both `CheckRrsigs` and `Nsec3Map` rely on.

**KMIP servers and key labels.** `KmipServers` is the table of servers with its
credential files; `KeyLabel` shortens the zone name in a key label.

**Serials.** `Serials` has serial comparison and the spelling of numbers with letters.

## How the model is set up

* The rules of a key roll belong to the `domain` crate, which is not part of
  this repository. They are a parameter, `KeySets.Library`: which actions a
  step asks for, when caches have expired, what an operation does to the keys.
  Only the order of the phases is fixed. What the commands assume of it is
  `KeySets.LibraryOk`.
* Everything the network, a signer, a random generator or an HSM answers is a
  value of `CronSpec.World`, arbitrary for each run (`WorldOk`: making keys
  leaves no key stale without a withdrawal time; `RollHistory.WorldSees`: the
  outcome of a DNSKEY or DS check is one that the methods of `Propagation` can
  make of the servers' answers, which are arbitrary, and of the RRsets kept;
  `ReportSlots.Ask` makes such outcomes).
* A command stores its final state or nothing. A command that fails stores nothing, so no
  state in the middle of a run is ever loaded again. Commands that touch keys without a roll, and
  `kmip` commands as far as the schedule is concerned, are `EditKeys`.
* Time is in nanoseconds with one clock; the times the library notes down in keys
  are arbitrary (`World.clock`). Signature times are 32-bit seconds.
* Zone names are label sequences from the root down, so that an ancestor is a prefix.

## What was found

* *The ordinary end of a signature roll-over panics.* When cron checks the
  whole zone and nothing is missing, neither a signature nor the SOA at any
  server, the zone check reports, which its caller holds to be impossible
  (src/commands/keyset/cmd.rs:5423-5425 and 5611;
  `CronPanics.FinishedZonePanics`). A report is only ever reached by way of a
  look for the SOA that has failed (`ReportSlots.ReportAfterMissingSoa`).
* *A DS record of an unknown digest type panics.* One such record at one server
  of the parent, seen first, is enough (`Propagation.UnknownDigestCrashes`); exactly which DS RRsets do it is
  in the contract of `Propagation.CheckDsForAddress`.
* *Starting a roll right after create panics.* A start asserts that there are
  keys, and there are none before `init` or an import
  (`KeysetRuns.StartAfterCreatePanics`).
* These are, with an `init` whose first roll is refused, all panics of the
  model: a missing report entry, a missing withdrawal time and an unexpected
  action never occur, the last by what is assumed of the library. `KeysetRuns.PerformKeeps` says exactly when a command
  panics, `CronPanics.CronPanicsExactly` when a cron run does.
* *Renewal wakes early.* The stored time for a renewal is the last whole second
  at which the signature is still good enough; the renewal test drops fractions
  of a second and wants strictly less time left. A run up to one second after
  the stored time can therefore find nothing to do (`Schedule.RenewalWakesEarly`);
  from two seconds on it never does (`Schedule.BusyAfter`), and exactly when it does
  is `Schedule.BusyExactly`.
* *Signatures that end after the year 2106.* The renewal test compares plain
  32-bit numbers, the schedule compares them modulo 2^32. A signature that
  ends beyond the wrap-around is due for renewal at every run
  (`Schedule.FarSignatureIsNeverIdle`; `Schedule.IdleExactly` says when a run
  before the stored time is idle); without the wrap-around,
  being within 2^31 seconds is exactly what makes both agree
  (`Schedule.NearMeansClose`).
* *A failed SOA or serial check keeps an old time.* The wait pass, and for
  serials also the report pass, writes the old waiting time back, so the
  schedule then asks for a time that has come already.
  `ReportSlots.WaitIsRemembered` says exactly when, `ReportSlots.StaleWaitHappens`
  gives a state.
* *Two DS digests per key.* A parent that publishes a second correct DS record for a key,
  with another digest type, is never found to have propagated, whatever other
  records and keys there are (`Propagation.TwoDigestsNeverMatch`);
  `Propagation.MatchMeansOneRecordPerKey` is the exact condition.
* *A refused modification can lose credentials.* `kmip modify-server` writes the
  credential files before it looks at the client certificate options. When it
  then refuses these, the server stays configured with a file that no longer
  has its credentials. `KmipServers.StrandingOptions` says for which options,
  `KmipServers.StrandedRun` shows a run.
* *A key label may have gaps.* A comment says labels are added as long
  as they fit; the loop goes on after one that does not (`KeyLabel.GapsHappen`).
  `KeyLabel.GapsExactly` says for which names, in terms of the lengths of their labels.
* *A second SOA record is not written.* Loading keeps every SOA record, the
  writer prints the first one only, in either mode (`ZoneWriter.TwoSoas`). That
  is the one thing lost from a zone that was loaded and signed, because loading
  drops all signatures (src/commands/signzone.rs:1483-1488) and new ones are made for what is there
  (`ZoneWriter.OneSoaDecides`).

## Model

| member | source | states |
|---|---|---|
| Schedule.IdleBefore | src/commands/keyset/cmd.rs:1393-1582 | a cron run before the stored time, or with none stored, tries no step, changes nothing and succeeds, for every state, configuration, library and set of answers whose signatures end within 2^31 s of the time of scheduling |
| Schedule.BusyAfter | src/commands/keyset/cmd.rs:1590-1761 | a cron run after the stored time tries at least one step (two seconds after it if it is the time of a renewal) |
| Schedule.BusyExactly | src/commands/keyset/cmd.rs:1393-1582 | a run tries something if and only if a start time has passed, a roll or removal time has come or a renewal is due to the second; if not, it changes nothing |
| Schedule.IdleExactly | src/commands/keyset/cmd.rs:1393-1582 | before the stored time a run is idle if and only if no renewal is due, wherever signature times lie |
| Schedule.OnlyRefusalsFail | src/commands/keyset/cmd.rs:4273-4351 | of a valid state the times can be computed if and only if no cache expire step of an enabled list is refused; no entry looked up is missing |
| Schedule.CronActs | src/commands/keyset/cmd.rs:1393-1582 | the guards of all steps together decide whether a run logs anything, and if none holds it changes nothing |
| Schedule.CronDueExact | src/commands/keyset/cmd.rs:4273-4351 | each guard of cron holds exactly when the time computed for it, as of any earlier moment, has come |
| Schedule.StartTimesExact | src/commands/keyset/cmd.rs:5986-6028 | an automatic start is due exactly when one of the start times computed has passed |
| Schedule.StageTimeExact | src/commands/keyset/cmd.rs:4285-4348 | a report, cache or done step is due exactly when the time computed for it has come |
| Schedule.RemovalTimesExact | src/commands/keyset/cmd.rs:1723-1748 | some key can be removed exactly when one of the removal times has come |
| Schedule.RenewDueExact | src/commands/keyset/cmd.rs:4562-4585 | a renewal is due from one second after the computed time on, counted in whole seconds and corrected for the fraction of the remain time |
| Schedule.NearMeansClose | src/commands/keyset/cmd.rs:4618-4648 | the wrapped and the plain reading of an expiration agree if and only if it lies within 2^31 s of now |
| Schedule.RenewalWakesEarly | src/commands/keyset/cmd.rs:4562-4585 | a scheduled state in which a run half a second after the stored time does nothing |
| Schedule.FarSignatureIsNeverIdle | src/commands/keyset/cmd.rs:4618-4648 | a scheduled state with a signature past the wrap-around that is renewed at any time from then on, although the stored time lies ahead |
| KeysetRuns.EveryReachableState | src/commands/keyset/cmd.rs:907-922 | over any sequence of commands the report map has an entry for exactly the rolls in progress, the state is valid and scheduled, and a cron run panics if and only if it comes to a check that does |
| KeysetRuns.StoredTimeIsRight | src/commands/keyset/cmd.rs:1750-1761 | soundness and tightness of the stored time in every reachable state, whatever commands led there |
| KeysetRuns.PerformKeeps | src/commands/keyset/cmd.rs:868-1582 | every command leaves a valid state unless it fails; it panics if and only if it starts a roll without any key, is an init whose first algorithm roll is refused, or is a cron run that comes to a check that panics |
| KeysetRuns.StartAfterCreatePanics | src/commands/keyset/cmd.rs:3718 | a start of any kind right after create panics |
| KeysetRuns.ExecuteKeepsInvariant | src/commands/keyset/cmd.rs:1590-1761 | the stored state is valid and its stored time is the one computed for it, after every command |
| CronKeeps.CronKeepsStepwise | src/commands/keyset/cmd.rs:1393-1582 | whatever each single step of cron keeps is kept by a whole run |
| CronKeeps.CronKeepsValid | src/commands/keyset/cmd.rs:4058-4065 | a cron run on a valid state never meets a roll without its reports, nor a stale key without its withdrawal time, panics only in a check, and leaves a valid state unless it fails |
| CronPanics.CronPanicsExactly | src/commands/keyset/cmd.rs:4046-4158 | a cron run panics if and only if it gets through its renewals and starts and, following the enabled stages of the rolls, arrives at slots and answers from which a check panics |
| CronPanics.RollsFollowPlan | src/commands/keyset/cmd.rs:1515-1534 | the stages of all rolls are one fixed list of steps, in the order of the source |
| CronPanics.NoCrashNoPanic | src/commands/keyset/cmd.rs:4046-4158 | a run in which no check panics does not |
| CronPanics.FinishedZonePanics | src/commands/keyset/cmd.rs:5422-5425 | with any keys, a ZSK roll whose signatures and SOA are everywhere makes cron panic at its first look |
| CronKeeps.StartKeyKeeps | src/commands/keyset/cmd.rs:3784-3786 | starting a roll makes its entry in the report map |
| CronEffects.CronRemovesExactly | src/commands/keyset/cmd.rs:1536-1581 | a cron run that removes keys ends like one that does not, except that exactly the keys by then stale and withdrawn for the configured delay are gone; it succeeds if and only if that one does and their files can be removed |
| CronEffects.RemovalEffects | src/commands/keyset/cmd.rs:1540-1567 | a key is there afterwards if and only if it was before and is not long stale, with the same value; rolls, reports and RRsets are untouched |
| CronEffects.StartEffects | src/commands/keyset/cmd.rs:3711-3983 | a start begins the roll that the kind and the configuration name, hands the library exactly the keys in use of the kind that rolls, gives the roll an empty report and makes the RRsets asked for, for the keys after it |
| CronEffects.StartSucceeds | src/commands/keyset/cmd.rs:3711-3983 | exactly when a start succeeds |
| CronEffects.RuleDue | src/commands/keyset/cmd.rs:3986-4035 | a rule is due if and only if a key of its kind in use was published longer ago than its validity and no roll in its way is in progress |
| CronEffects.RulesTable | src/commands/keyset/cmd.rs:1406-1513 | for each kind of key: whose validity counts, which switch, which rolls stand in the way, and that this kind is the one that rolls unless a CSK is wanted or an algorithm is wrong |
| CronEffects.AlgorithmRollDue | src/commands/keyset/cmd.rs:4164-4191 | an algorithm roll is needed if and only if no key is in use or one in use has another algorithm |
| CronEffects.RulesInTurn | src/commands/keyset/cmd.rs:1406-1513 | the rules are tried one after the other, each start before the next rule is looked at |
| CronEffects.HandlingMakes | src/commands/keyset/cmd.rs:3659-3684 | after handled actions the DNSKEY, CDS and DS RRsets asked for are those made for the current keys, the others are as before; the last CDS action counts |
| CronEffects.HandlingSucceeds | src/commands/keyset/cmd.rs:3659-3684 | handling succeeds if and only if everything asked for can be made |
| CronEffects.RenewalEffects | src/commands/keyset/cmd.rs:1393-1406 | a renewal replaces the RRset by one made for the current keys and nothing else |
| CronEffects.ReportEffects | src/commands/keyset/cmd.rs:4057-4105 | the report stage changes only the slots of the phase the roll is in, or also moves this one roll to the next cache phase with the TTL of its checks |
| CronEffects.ExpireEffects | src/commands/keyset/cmd.rs:4111-4128 | a roll leaves a cache phase if and only if its caches have expired, for the phase that follows |
| CronEffects.DoneEffects | src/commands/keyset/cmd.rs:4132-4158 | a finished roll is gone with its reports and leaves no CDS RRset; everything else stays |
| CronEffects.ChecksNoteKept | src/commands/keyset/cmd.rs:4976-5253 | each check is noted down with the RRsets kept at that moment |
| CronPanics.PlanIsComplete | src/commands/keyset/cmd.rs:1515-1534 | a stage of a roll is carried out if and only if its setting enables it, in the order of the source |
| CommandEffects.PropagatedEffects | src/commands/keyset/cmd.rs:2447-2477 | a roll is moved on by hand only from the phase named, to the cache phase with the TTL given, and exactly when |
| CommandEffects.CachesExpiredEffects | src/commands/keyset/cmd.rs:2454-2473 | the same for expired caches |
| CommandEffects.DoneWithEffects | src/commands/keyset/cmd.rs:2474-2479 | the same for a roll that is done |
| CommandEffects.EditEffects | src/commands/keyset/cmd.rs:2761-2842 | after a command on keys the RRsets there were are made again for the new keys |
| CommandEffects.InitEffects | src/commands/keyset/cmd.rs:873-922 | init starts with the keys there are or with a first algorithm roll that replaces none, and refuses a KSK or ZSK alone and a second init |
| CommandEffects.StoredAfter | src/commands/keyset/cmd.rs:1589-1761 | what is stored after a command, with the least of the times computed under the configuration it leaves |
| RollHistory.ReportedTtlsAreSafe | src/commands/keyset/cmd.rs:4053-4105 | over any sequence of commands, a propagation step completed by cron uses the largest TTL among the checks that found its report actions done, each made during that roll and phase, perhaps in an earlier run; such a check of DNSKEY or DS records found every server to have exactly what was kept then, and none a record of a larger TTL |
| RollHistory.CronIsGood | src/commands/keyset/cmd.rs:4046-4158 | a cron run keeps every slot traceable to such a check of the roll in progress |
| StickySlots.ReportsStayOverRuns | src/commands/keyset/cmd.rs:4734-5253 | over any sequence of commands, by hand or by cron, a slot that holds a report keeps it and is not checked again, until its roll is finished |
| StickySlots.CronSticks | src/commands/keyset/cmd.rs:4046-4158 | the same for one run |
| ReportSlots.AutoReportActions | src/commands/keyset/cmd.rs:4976-5253 | the report pass: the slots it leaves, the checks it made and the TTL or waiting time it returns are those of the action-by-action run, and its TTL the maximum over the actions |
| ReportSlots.AutoWaitActions | src/commands/keyset/cmd.rs:4734-4971 | the same for the wait pass |
| ReportSlots.CheckAutoActions | src/commands/keyset/cmd.rs:4201-4265 | the check that changes nothing computes the verdict of the specification |
| ReportSlots.ReadyMeansReported | src/commands/keyset/cmd.rs:4201-4265 | the check says Ok if and only if every slot asked for holds a report |
| ReportSlots.CheckPredictsRun | src/commands/keyset/cmd.rs:4734-5253 | as long as the time the check gives has not come, a run makes no check, changes no slot and returns that very time; if the check says Ok the run succeeds without a check; otherwise it makes one, or panics making it |
| ReportSlots.ReportsAreSticky | src/commands/keyset/cmd.rs:4976-5253 | a run neither overwrites a report nor checks for it again |
| ReportSlots.RunReportsMaximum | src/commands/keyset/cmd.rs:4976-5253 | a run that succeeds has a report in every slot asked for and returns the maximum of their TTLs |
| ReportSlots.MaxTtlIsMaximum | src/commands/keyset/cmd.rs:4976-5253 | that maximum bounds every slot's TTL and is one of them |
| ReportSlots.SlotsComeFromProbes | src/commands/keyset/cmd.rs:4976-5253 | what a slot holds after a run it held before or was found by a check of the run |
| ReportSlots.ProbesAreSafe | src/commands/keyset/cmd.rs:4976-5253 | no DNSKEY or DS check of a run reports unless every server has exactly what is kept, and none reports less than the TTL of a record there |
| ReportSlots.Ask | src/commands/keyset/cmd.rs:5009-5043 | both checks, made with what is kept, give outcomes of the kind that the whole-run results assume |
| ReportSlots.WaitIsRemembered | src/commands/keyset/cmd.rs:4840-4960 | after a run that waits, the check asks for the same time if and only if no failed SOA or serial check put an earlier time back; otherwise for one that has come |
| ReportSlots.PassCrashesExactly | src/commands/keyset/cmd.rs:4976-5253 | whether a pass panics can be told from the slots before it and the answers: the first action that does not let the next one have its turn is a due check without an outcome |
| ReportSlots.ReportsPassOn | src/commands/keyset/cmd.rs:4976-5253 | a report that a pass puts into a slot carries the TTL of the check: that of the DNSKEY or DS check, or the one kept with the missing SOA or found with it; and the pass returns no less |
| ReportSlots.FailedCheckAsksAgain | src/commands/keyset/cmd.rs:5085-5245 | a failed SOA, record, serial or zone check asks for exactly its number of seconds from now, or ten minutes, and remembers what it waits for |
| ReportSlots.FailedSimpleCheck | src/commands/keyset/cmd.rs:5005-5060 | a failed DNSKEY or DS check asks for what the check said |
| ReportSlots.PassWaitsFor | src/commands/keyset/cmd.rs:4976-5253 | a pass that waits asks for what its first action that does not pass asks for |
| ReportSlots.ReportAfterMissingSoa | src/commands/keyset/cmd.rs:5420-5450 | an RRSIG slot gets a report if and only if the SOA is found after a look for it that failed, in the same check or an earlier one |
| ReportSlots.StaleWaitHappens | src/commands/keyset/cmd.rs:5189-5190 | a state where it does |
| Propagation.CheckDnskeyForAddress | src/commands/keyset/cmd.rs:5733-5811 | reports if and only if the apex DNSKEY and RRSIG(DNSKEY) records are those of the target, each once, and then the largest of their TTLs; otherwise waits for the TTL of a record seen or missing |
| Propagation.CheckDsForAddress | src/commands/keyset/cmd.rs:5814-5867 | reports if and only if DS records and keys match one to one, whichever key is tried first, with the same TTLs; panics if and only if a record of an unknown digest type stands behind records that belong to different keys of the target, but not to all of them |
| Propagation.UnknownDigestCrashes | src/commands/keyset/cmd.rs:5829-5833 | such a record seen first is enough |
| Propagation.ReportDnskeyPropagated | src/commands/keyset/cmd.rs:5260-5328 | reports if and only if every server answered with exactly the target, with the largest TTL seen at any server; otherwise waits for what the first server asks for that did not |
| Propagation.ReportDsPropagated | src/commands/keyset/cmd.rs:5335-5395 | the same for the servers of the parent zone; panics if and only if the check of one of them does |
| Propagation.ReportMeansDnskeyServed | src/commands/keyset/cmd.rs:5302-5328 | a report means that no server has a relevant record with a larger TTL |
| Propagation.ReportMeansDsServed | src/commands/keyset/cmd.rs:5376-5395 | the same for DS records |
| Propagation.DnskeyTargetMembers | src/commands/keyset/cmd.rs:5266-5274 | the target has the data of exactly the kept records |
| Propagation.DsTargetMembers | src/commands/keyset/cmd.rs:5347-5366 | the target has exactly the keys of the kept CDNSKEY records |
| Propagation.DnskeyTargetTtls | src/commands/keyset/cmd.rs:5266-5274 | a missing record is waited for as long as the first kept record with its data says |
| Propagation.DsTargetTtls | src/commands/keyset/cmd.rs:5347-5366 | the same for the keys of the CDNSKEY records |
| Propagation.NoOneToOne | src/commands/keyset/cmd.rs:5756-5791 | a record that is not, or no longer, in the target rules out a match whatever follows |
| Propagation.NoAssignment | src/commands/keyset/cmd.rs:5824-5857 | a DS record that fits no remaining key rules out every assignment, not only the one tried |
| Propagation.MatchMeansOneRecordPerKey | src/commands/keyset/cmd.rs:5824-5857 | records that belong to keys match a target if and only if the target has these keys and no key has two records |
| Propagation.TwoDigestsNeverMatch | src/commands/keyset/cmd.rs:5829-5857 | any list with two DS records of one key matches no target at all |
| CheckRrsigs.Check | src/commands/keyset/cmd.rs:6060-6179 | Done if and only if all authoritative types have exactly the expected signers, WaitRecord if and only if one other than NSEC3 has not, and then for the first such name |
| CheckRrsigs.CheckEntry | src/commands/keyset/cmd.rs:6079-6173 | the verdict on one name, in any order of its types, at and away from a delegation point |
| CheckRrsigs.DelegationDecides | src/commands/keyset/cmd.rs:6066-6078 | the scan skips a name if and only if a strict ancestor in the tree other than the zone has NS records |
| ZoneCuts.DelegationExact | src/commands/keyset/cmd.rs:6066-6078 | remembering one delegation point in a scan in canonical order finds exactly the names below any |
| ZoneCuts.TopmostCut | src/commands/keyset/cmd.rs:6066-6078 | a name below delegation points is below one that is itself below none |
| Names.SubtreeContiguous | src/commands/keyset/cmd.rs:6066-6078 | in canonical order nothing lies between two names of a subtree but names of that subtree |
| Names.NameOrder | src/commands/signzone.rs:1174-1199 | canonical order is a strict total order |
| WorkSpace.WorkSpace.RunCron | src/commands/keyset/cmd.rs:1393-1582 | the loops over rules, rolls and keys on mutable state end in exactly the state, log and status of the specified run |
| WorkSpace.WorkSpace.CronCommand | src/commands/keyset/cmd.rs:1393-1761 | what the cron command writes is what the specified command stores, and it writes nothing when it fails or nothing changed |
| WorkSpace.WorkSpace.ComputeCronTimes | src/commands/keyset/cmd.rs:1590-1761 | the collected times are those of the specification, an error included |
| WorkSpace.WorkSpace.AutoStartRule | src/commands/keyset/cmd.rs:3986-4035 | one automatic start: conflicts, validity and the keys looked at |
| WorkSpace.WorkSpace.AutoStartByRules | src/commands/keyset/cmd.rs:1406-1513 | the starts in the order of the source, stopped by the first failure |
| WorkSpace.WorkSpace.StartRollOf | src/commands/keyset/cmd.rs:3711-3983 | a started roll: new keys, retired keys, actions and an empty report entry, or the error |
| WorkSpace.WorkSpace.ReportRoll | src/commands/keyset/cmd.rs:4057-4105 | the report stage of one roll, with the slots written back even when it waits |
| WorkSpace.WorkSpace.ExpireRolls | src/commands/keyset/cmd.rs:4111-4128 | the cache stage of each roll |
| WorkSpace.WorkSpace.FinishRoll | src/commands/keyset/cmd.rs:3687-3708 | the done stage of one roll, which removes its reports |
| WorkSpace.WorkSpace.AutoReportExpireDoneOf | src/commands/keyset/cmd.rs:4046-4158 | the three stages one after the other, each only if enabled |
| WorkSpace.WorkSpace.HandleAll | src/commands/keyset/cmd.rs:3659-3684 | the actions of a step in order, stopped by the first failure |
| WorkSpace.WorkSpace.RenewSignatures | src/commands/keyset/cmd.rs:1393-1406 | both renewals, each only if needed |
| WorkSpace.WorkSpace.AutoRemoveKeys | src/commands/keyset/cmd.rs:1536-1581 | exactly the long stale keys go, or the run fails |
| WorkSpace.WorkSpace.StageTimeOf | src/commands/keyset/cmd.rs:4285-4348 | the time of one stage of one roll |
| Nsec3Map.Build | src/commands/signzone.rs:986-1078 | the map built in one pass holds exactly the required names, each under its own hash and flagged as empty non-terminal exactly if it owns nothing; it fails only if a required name cannot be hashed |
| Nsec3Map.AddOwner | src/commands/signzone.rs:1024-1077 | the climb from an owner with its early break adds exactly that owner and its missing inner suffixes |
| Nsec3Map.RequiredPlain | src/commands/signzone.rs:986-1078 | without opt-out these names are the owners not below a delegation point and their suffixes below the apex |
| Nsec3Map.OptOutDrops | src/commands/signzone.rs:989-1077 | with opt-out exactly the bare delegations go, and none comes back as an empty non-terminal; a name that owns nothing stays if and only if a remaining owner needs it |
| Nsec3Map.BreakLosesNothing | src/commands/signzone.rs:1043-1076 | once a suffix is in the map, so are all shorter ones |
| Nsec3Map.UnheldOwnsNothing | src/commands/signzone.rs:1063-1075 | a suffix not yet in the map owns no RRset at all, so that its flag is right |
| OwnerOrder.PrecedesIsTotalOrder | src/commands/signzone.rs:1174-1199 | the comparison is a strict total order on owners |
| OwnerOrder.ComparesOnce | src/commands/signzone.rs:1174-1199 | it says equal only of the same owner and is antisymmetric |
| OwnerOrder.SortIsUnique | src/commands/signzone.rs:1174-1199 | the owners alone determine the outcome of the unstable parallel sort |
| OwnerOrder.HashFollowsName | src/commands/signzone.rs:1174-1199 | after the sort the owner H(n) stands directly after n, if both occur and n is not itself a hash |
| OwnerOrder.CanonicalUpToHashing | src/commands/signzone.rs:1174-1199 | other owners keep canonical order |
| OwnerOrder.BuiltMapOrders | src/commands/signzone.rs:986-1199 | with the map the pass has built, every name it has to hold is followed by its hash, if the zone has both and the name is no hash itself |
| SigningKeys.SplitAndComplete | src/commands/signzone.rs:789-841 | both lists are duplicate-free, hold only given keys, are non-empty if there is a key, and are what -A and -U ask for, in all combinations |
| SigningKeys.UniqueMeansEveryAlgorithm | src/commands/signzone.rs:789-841 | with -U both lists have every algorithm there is a key of |
| SigningKeys.AllMeansEveryKey | src/commands/signzone.rs:805-809 | with -A the first list is a permutation of all keys |
| SigningKeys.CompletionCloses | src/commands/signzone.rs:810-840 | one round in each direction is enough, with one key per missing algorithm |
| SigningKeys.FirstOfMissingIsMinimal | src/commands/signzone.rs:813-824 | the keys added bring in exactly the missing algorithms, one key each |
| SigningKeys.FirstOfMissingIsFirst | src/commands/signzone.rs:813-824 | and each is the first key of its algorithm |
| SigningKeys.PushMissing | src/commands/signzone.rs:813-824 | the loop that pushes them |
| SigningKeys.WithSepLast | src/commands/signzone.rs:789-796 | the split keeps the keys in their order |
| ZoneDigest.Zone.Publish | src/commands/signzone.rs:940-952 | after placeholder, signing, removal, digesting, insertion and re-signing the apex has one ZONEMD for each requested pair and no other, every one verifies over the final records and has the TTL of the SOA; all other records are, in their order, those signed from the old zone with its new serial and the placeholder, except for the first signature over the ZONEMD records, which is the new one |
| ZoneDigest.DigestsVerify | src/commands/signzone.rs:1131-1160 | digests computed before the digest records went in are those recomputed afterwards |
| ZoneDigest.PlaceholderRemoved | src/commands/signzone.rs:1132-1133 | removing the first digest record leaves none and keeps the SOA |
| ZoneDigest.Zone.ReplaceApexZonemdWithPlaceholder | src/commands/signzone.rs:1772-1800 | exactly one digest record at the apex, all other records as before |
| ZoneDigest.Zone.CreateDigestSimple | src/commands/signzone.rs:1712-1770 | the digest over the records a verifier includes (section 3.3.1.1 of RFC 8976), in order, for the supported algorithms only |
| ZoneDigest.Zone.CreateDigestRecords | src/commands/signzone.rs:1802-1830 | one record per request, or an error if one is not supported |
| ZoneDigest.Zone.InsertDigestRecords | src/commands/signzone.rs:1144-1147 | the apex gets exactly these records, whatever else is digested stays |
| ZoneDigest.Zone.UpdateZonemdSignature | src/commands/signzone.rs:1832-1850 | the first signature over the ZONEMD records gets the new data, nothing else changes, and so no digest does |
| ZoneDigest.ResignedAmongOthers | src/commands/signzone.rs:1832-1850 | the same of the records without the digest records |
| ZoneDigest.Zone.RemoveFirstZonemd | src/commands/signzone.rs:1132-1133 | the record removed is the first one, all others stay in place |
| ZoneDigest.Zone.UpdateSoa | src/commands/signzone.rs:643-660 | there is still one SOA, with the chosen serial, and no other record has changed |
| ZoneDigest.NewSerialMeans | src/commands/signzone.rs:1527-1560 | the serial stays or, with -u, becomes the time if that lies ahead by less than 2^31 and one more otherwise |
| ZoneDigest.ComposeConcat | src/commands/signzone.rs:1740-1767 | what is hashed is the canonical forms of all records picked, one behind the other |
| ZoneDigest.Zone.Insert | src/commands/signzone.rs:1144-1147 | insertion keeps the records ordered and without duplicates |
| ZoneWriter.WriteZone | src/commands/signzone.rs:1220-1364 | the loops write the specified output |
| ZoneWriter.WritesEveryRecordOnce | src/commands/signzone.rs:1220-1364 | the output is a permutation of the zone if and only if there is at most one SOA and, under -R, every signature covers the SOA or an RRset of its owner that is not itself made of signatures |
| ZoneWriter.OneSoaDecides | src/commands/signzone.rs:1220-1364 | if each signature covers records its owner has, the output is a permutation in either mode if and only if there is no second SOA |
| ZoneWriter.TwoSoas | src/commands/signzone.rs:1346-1349 | a zone with a second SOA below the apex loses it in either mode |
| ZoneWriter.SoaIsFirst | src/commands/signzone.rs:1220-1221 | the first record written is the SOA |
| ZoneWriter.SignaturesFollow | src/commands/signzone.rs:1257-1313 | under -R each RRset is followed directly by all signatures of its owner that cover it |
| ZoneWriter.OutputInOrder | src/commands/signzone.rs:1243-1364 | behind the SOA, records stand in the order of the owners and of the RRsets of each owner, in both modes; without -R they are the records of the zone in their order |
| ZoneWriter.HeadIsSoa | src/commands/signzone.rs:1220-1231 | the first record is the first SOA record, and under -R all signatures over SOA records follow in their order |
| ZoneWriter.FilterInOrder | src/commands/signzone.rs:1293-1312 | signatures picked for an RRset are all that cover it, in their order |
| ZoneWriter.HashedRecordsFollow | src/commands/signzone.rs:1174-1364 | with owners sorted by unhashed name, the records of a hashed owner stand behind those of the owner it is the hash of, and no others in between |
| ZoneWriter.CountInOutput | src/commands/signzone.rs:1220-1364 | for each single record, when it is written as often as the zone has it |
| KmipServers.Kmip.Run | src/commands/keyset/kmip.rs:352-562 | what is stored after a command is exactly the specified table if it is accepted, else the table before; the default server and the server of every key stay configured; the credentials of all configured servers stay in their files, except exactly when a modification strands them |
| KmipServers.StepKeepsConsistency | src/commands/keyset/kmip.rs:576-607 | no accepted command leaves a default server or a key whose server is not configured |
| KmipServers.Kmip.RunAll | src/commands/keyset/kmip.rs:352-562 | referential integrity over any sequence of commands; what is stored before and after each; and all credentials in their files unless one of the commands strands them |
| KmipServers.Kmip.ModifyServer | src/commands/keyset/kmip.rs:753-985 | the whole new entry, the default, whose credentials move where, when it is refused, and that other servers' credentials stay |
| KmipServers.Kmip.ChangeCredentials | src/commands/keyset/kmip.rs:781-899 | exactly which credential changes are accepted, that a refusal writes nothing, where the entry is afterwards, and its username and password: those given, the old ones where they are left, none where the password is removed |
| KmipServers.ModifiedFields | src/commands/keyset/kmip.rs:777-977 | each setting is the given one, gone or the old one |
| KmipServers.ClientAuthDecided | src/commands/keyset/kmip.rs:902-945 | which changes of client certificate and key are accepted, and what they become |
| KmipServers.RequestedFields | src/commands/keyset/kmip.rs:464-515 | what each option of the command line asks for |
| KmipServers.StepEffects | src/commands/keyset/kmip.rs:352-562 | what each accepted command leaves, entry by entry, and that other servers and keys stay |
| KmipServers.Kmip.AddServer | src/commands/keyset/kmip.rs:663-733 | refused exactly for a known id, or for credentials that are there already or not there; the first server becomes the default unless pending |
| KmipServers.Kmip.RemoveServer | src/commands/keyset/kmip.rs:576-607 | refused exactly for the default server, a server some key uses or one whose credentials are missing; its credentials go with it |
| KmipServers.Kmip.RemoveCredentials | src/commands/keyset/kmip.rs:610-640 | only this entry goes, and a file left empty with it |
| KmipServers.StrandingOptions | src/commands/keyset/kmip.rs:443-525 | the command-line options that strand credentials: exactly a moved or removed file together with one of certificate and key alone, for a server with neither |
| KmipServers.StrandedRun | src/commands/keyset/kmip.rs:781-940 | a run from an empty table that ends with a server whose credentials are not in its file |
| KeyLabel.FormatKeyLabel | src/commands/keyset/kmip.rs:1683-1706 | no label is longer than allowed; an error exactly if the label is too long and fewer than eight bytes are left for the zone; only the zone name is shortened |
| KeyLabel.TruncateZoneName | src/commands/keyset/kmip.rs:1712-1767 | never longer than asked for; the abbreviation by labels whenever there is one that fits, otherwise the first bytes |
| KeyLabel.AssembledParts | src/commands/keyset/kmip.rs:1691 | the parts of a label and their order |
| KeyLabel.ShownConcat | src/commands/keyset/kmip.rs:1752-1755 | shown labels are in order with dots between them |
| KeyLabel.FinalCheckIsImplied | src/commands/keyset/kmip.rs:1750-1760 | without escapes the last length check never fails |
| KeyLabel.FinalCheckCanFail | src/commands/keyset/kmip.rs:1750-1760 | with escapes it can, for a name given the smallest room there is, eight bytes |
| KeyLabel.KeptInOrder | src/commands/keyset/kmip.rs:1740-1750 | the labels kept are labels of the name in their order |
| KeyLabel.KeptWhenItFits | src/commands/keyset/kmip.rs:1740-1750 | a label is kept if and only if it fits after those kept before it |
| KeyLabel.KeptNothing | src/commands/keyset/kmip.rs:1740-1750 | none is kept if and only if none fits by itself |
| KeyLabel.DotsMeanDropped | src/commands/keyset/kmip.rs:1740-1757 | the two dots stand for at least one dropped label |
| KeyLabel.GapsExactly | src/commands/keyset/kmip.rs:1740-1750 | the labels kept are the leftmost ones if and only if, behind those that fit one after the other, no label fits |
| KeyLabel.LeadingFits | src/commands/keyset/kmip.rs:1740-1750 | how many these are |
| KeyLabel.GapsHappen | src/commands/keyset/kmip.rs:1740-1750 | a name of which a later label is kept after one was dropped |
| Serials.CompareByDistance | src/commands/update.rs:717-727 | the comparison by distance as in section 3.2 of RFC 1982, and Greater both ways at distance 2^31 |
| Serials.CompareIsTranslationInvariant | src/commands/update.rs:717-727 | adding the same offset modulo 2^32 changes no comparison |
| Serials.AcceptedIncrements | src/commands/update.rs:728-733 | an increment is accepted if and only if it lies in 1 to 2^31 |
| Serials.BumpGoesForward | src/commands/signzone.rs:1545-1550 | the serial chosen by -u lies ahead of the old one and is accepted |
| Serials.NumberToLabel | src/commands/nsec3hash.rs:212-223 | decoding the letters gives the number back; 1 to 14 letters |
| Serials.DecodeIsInjective | src/commands/nsec3hash.rs:212-223 | different numbers have different labels and a label of this form is the only one of its number |

## Left out

- The rules of key rolls in the `domain` crate (which actions, which keys, which conflicts): a parameter, see above.
- The zone, record and SOA checks behind `report_rrsig_propagated` (src/commands/keyset/cmd.rs:5464-5656, 5871-5908, 6182-6300): any result. What the TTL of an RRSIG report bounds is therefore not claimed. Its comment says that the zone check never reports; the code is followed.
- Panics over data the commands have written themselves (key URLs and their schemes, stored records, settings), over poisoned locks and over times out of range.
- Name lookup, zone transfer, notify and update transport: any answer.
- Cryptography, key generation and the HSM: signatures and digests are functions, with distinct digests for distinct keys where DS records are matched.
- NSEC3 hash collisions and the error they cause; hashing may fail but not collide.
- Locking, JSON, the replacing of the state file and the DS update command.
- The texts kept with waiting times.
- A fake time mixed with the real one.
- The order of steps within one type of roll when several are configured for the same list: as in the source.
- ldns output mode with its reprinting of apex NSEC records, comments and formatting.
- Several signatures over the ZONEMD RRset: only one of them is renewed; `ZoneDigest.Zone.Publish` claims the digests, not those signatures.
- Zones of several classes.
- Record equality in a sorted zone ignores the TTL; here records are the same if all of them is.
- `KmipServers.Kmip.ChangeCredentials`: disk errors on credential files and files that are no JSON.
- Showing and listing KMIP servers, and whether a server can be reached; a key that cannot be made is a failed command.
- `KeyLabel.FormatKeyLabel`: characters of more than one byte, for which cutting a name in the middle of a character panics.
- The search for a hash prefix in `find_prefix`, which tries labels until one fits.
- Command-line parsing, `key2ds`, `keygen` and the other commands that wrap one library call.
