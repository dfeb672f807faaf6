/** The keys of a zone and the key rolls in progress.

    The rules of a key roll live in a library this repository calls but does
    not contain, so they are a parameter here: a `Library` says which actions
    a step asks for, when caches have expired and what an accepted operation
    does to the keys.  Only the order of the steps is fixed.
  */
module KeySets {
  import opened Wrappers
  import opened Records
  import Names

  /** Nanoseconds since the Unix epoch, and lengths of time. */
  type Time = nat

  const SECOND: nat := 1_000_000_000

  /** Whole seconds, rounded down. */
  function Secs(t: Time): nat {
    t / SECOND
  }

  datatype RollType =
    | KskRoll | KskDoubleDsRoll
    | ZskRoll | ZskDoubleSignatureRoll
    | CskRoll | AlgorithmRoll

  datatype RollState =
    | Propagation1 | CacheExpire1(ttl: nat)
    | Propagation2 | CacheExpire2(ttl: nat)
    | Done

  datatype Action =
    | UpdateDnskeyRrset | CreateCdsRrset | RemoveCdsRrset | UpdateDsRrset | UpdateRrsig
    | ReportDnskeyPropagated | ReportDsPropagated | ReportRrsigPropagated
    | WaitDnskeyPropagated | WaitDsPropagated | WaitRrsigPropagated

  predicate IsUpdate(a: Action) {
    a.UpdateDnskeyRrset? || a.CreateCdsRrset? || a.RemoveCdsRrset? || a.UpdateDsRrset? || a.UpdateRrsig?
  }

  predicate IsReport(a: Action) {
    a.ReportDnskeyPropagated? || a.ReportDsPropagated? || a.ReportRrsigPropagated?
  }

  predicate IsWait(a: Action) {
    a.WaitDnskeyPropagated? || a.WaitDsPropagated? || a.WaitRrsigPropagated?
  }

  /** The state of a key in one of its roles. */
  datatype KeyState = KeyState(stale: bool, signer: bool)

  datatype KeyType =
    | Ksk(state: KeyState)
    | Zsk(state: KeyState)
    | Csk(state: KeyState, zskState: KeyState)
    | Include(state: KeyState)

  datatype Key = Key(keytype: KeyType, algorithm: nat, tag: nat, published: Option<Time>, withdrawn: Option<Time>)

  /** A key is known by the URL of its public key. */
  type PubRef = string

  type Keys = map<PubRef, Key>

  datatype KeySet = KeySet(keys: Keys, rolls: map<RollType, RollState>)

  predicate Stale(k: Key) {
    k.keytype.state.stale
  }

  /** Every stale key has the time at which it was withdrawn. */
  ghost predicate StaleWithdrawn(keys: Keys) {
    forall p :: p in keys && Stale(keys[p]) ==> keys[p].withdrawn.Some?
  }

  // ----- The key roll library -----

  /** `zone` and `digest`: the zone the keys are for, and the digests of keys.
      `actions`: what a roll in a given state asks for.
      `expiry`: when the caches a roll waits for have expired.
      `start`, `advance`, `finish`: the keys after the operation, unless it is refused. */
  datatype Library = Library(
    zone: Names.Name,
    digest: Digest,
    actions: (RollType, RollState) -> seq<Action>,
    expiry: (KeySet, RollType) -> Time,
    start: (KeySet, RollType, set<PubRef>, set<PubRef>, Time) -> Option<Keys>,
    advance: (KeySet, RollType, Time) -> Option<Keys>,
    finish: (KeySet, RollType, Time) -> Option<Keys>
  )

  /** What the commands rely on: report actions are only asked for in the
      propagation states and wait actions only when a roll is done, something
      is asked for in each propagation state, and a key that becomes stale
      gets a withdrawal time. */
  ghost predicate LibraryOk(lib: Library) {
    && (forall r, s: RollState :: s.Propagation1? || s.Propagation2? ==>
                         && lib.actions(r, s) != []
                         && forall a :: a in lib.actions(r, s) ==> IsUpdate(a) || IsReport(a))
    && (forall r, a :: a in lib.actions(r, Done) ==> IsUpdate(a) || IsWait(a))
    && (forall ks: KeySet, r, before, after, clock ::
          StaleWithdrawn(ks.keys) && lib.start(ks, r, before, after, clock).Some? ==>
            StaleWithdrawn(lib.start(ks, r, before, after, clock).value))
    && (forall ks: KeySet, r, clock :: StaleWithdrawn(ks.keys) && lib.advance(ks, r, clock).Some? ==>
                                         StaleWithdrawn(lib.advance(ks, r, clock).value))
    && (forall ks: KeySet, r, clock :: StaleWithdrawn(ks.keys) && lib.finish(ks, r, clock).Some? ==>
                                         StaleWithdrawn(lib.finish(ks, r, clock).value))
  }

  /** A roll starts unless one of its type is in progress or the library refuses. */
  function StartRoll(lib: Library, ks: KeySet, r: RollType, retired: set<PubRef>, added: set<PubRef>,
                     clock: Time): Option<KeySet> {
    if r in ks.rolls then None
    else
      match lib.start(ks, r, retired, added, clock)
      case None => None
      case Some(keys) => Some(KeySet(keys, ks.rolls[r := Propagation1]))
  }

  function MoveRoll(lib: Library, ks: KeySet, r: RollType, to: RollState, clock: Time): (res: Option<KeySet>)
    ensures res.Some? ==> res.value.rolls == ks.rolls[r := to]
  {
    match lib.advance(ks, r, clock)
    case None => None
    case Some(keys) => Some(KeySet(keys, ks.rolls[r := to]))
  }

  /** `propagation1_complete` and `propagation2_complete`. */
  function PropagationComplete(lib: Library, ks: KeySet, r: RollType, ttl: nat, clock: Time): (res: Option<KeySet>)
    ensures res.Some? ==> r in ks.rolls && res.value.rolls.Keys == ks.rolls.Keys
  {
    if r !in ks.rolls then None
    else
      match ks.rolls[r]
      case Propagation1 => MoveRoll(lib, ks, r, CacheExpire1(ttl), clock)
      case Propagation2 => MoveRoll(lib, ks, r, CacheExpire2(ttl), clock)
      case _ => None
  }

  datatype CacheResult = TooEarly(remain: Time) | Expired(keyset: KeySet) | Refused

  /** `cache_expired1` and `cache_expired2`. */
  function CacheExpired(lib: Library, ks: KeySet, r: RollType, now: Time): (res: CacheResult)
    ensures res.Expired? ==> r in ks.rolls && res.keyset.rolls.Keys == ks.rolls.Keys
  {
    if r !in ks.rolls || !(ks.rolls[r].CacheExpire1? || ks.rolls[r].CacheExpire2?) then Refused
    else if now < lib.expiry(ks, r) then TooEarly(lib.expiry(ks, r) - now)
    else
      match MoveRoll(lib, ks, r, if ks.rolls[r].CacheExpire1? then Propagation2 else Done, now)
      case None => Refused
      case Some(ks') => Expired(ks')
  }

  function RollDone(lib: Library, ks: KeySet, r: RollType, clock: Time): Option<KeySet> {
    if r !in ks.rolls || !ks.rolls[r].Done? then None
    else
      match lib.finish(ks, r, clock)
      case None => None
      case Some(keys) => Some(KeySet(keys, ks.rolls - {r}))
  }
}
