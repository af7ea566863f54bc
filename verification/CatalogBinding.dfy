/** The catalog cache against the store it avoids opening. The disk is a history: what the store
    file, its fingerprint and the committed lock are at every instant. A bind reads it at four
    instants, so writers race every step. */
module CatalogBinding {
  import opened Prelude

  type Catalog = string
  type Lock = string

  datatype Failure = BadConfig | StoreRead | CatalogRefused | CorruptLock

  /** The store's own commit fact. */
  datatype Identity = Identity(uid: Option<nat>, commit: Option<nat>, epoch: Option<nat>)

  datatype Content = Content(identity: Identity, catalog: Option<Catalog>)

  datatype Fingerprint = Fingerprint(modified: nat, length: nat)

  /** The disk at one instant; `store` is `None` while the store file does not exist. */
  datatype Disk = Disk(store: Option<Content>, stat: Option<Fingerprint>, lock: Result<Option<Lock>, Failure>)

  type History = nat -> Disk

  /** One bind's luck: when it looks for the file, fingerprints it, opens it and reads the lock,
      whether the open succeeds, and which reads fail. `onDisk` unless the store is in memory. */
  datatype Attempt = Attempt(
    looked: nat, fingerprinted: nat, openedAt: nat, lockRead: nat, onDisk: Result<bool, Failure>,
    openable: bool, pinFailure: Option<Failure>, catalogFailure: Option<Failure>)
  {
    predicate InOrder() { looked <= fingerprinted <= openedAt <= lockRead }
  }

  datatype Probe =
    | Absent
    | Unavailable
    | Unchanged
    | Cached(stat: Option<Fingerprint>)
    | Fresh(identity: Identity, accepted: Option<Catalog>, stat: Option<Fingerprint>)

  datatype Binding = Binding(accepted: Option<Catalog>, lock: Option<Lock>)

  /** The value of the cache's fields. */
  datatype Cache = Cache(key: Option<Identity>, accepted: Option<Catalog>, stat: Option<Fingerprint>, bound: bool)

  const EMPTY := Cache(None, None, None, false)

  // ----- One bind

  function LockForAdoption(accepted: Option<Catalog>, lock: Result<Option<Lock>, Failure>): Result<Option<Lock>, Failure> {
    if accepted.Some? then Ok(None) else lock
  }

  function ProbeStore(disk: History, a: Attempt, key: Option<Identity>, stat: Option<Fingerprint>): Result<Probe, Failure> {
    if a.onDisk.Err? then Err(a.onDisk.error)
    else if !a.onDisk.value || disk(a.looked).store.None? then Ok(Absent)
    else
      var seen := disk(a.fingerprinted).stat;
      if key.Some? && seen.Some? && seen == stat then Ok(Unchanged)
      else if !a.openable || disk(a.openedAt).store.None? then Ok(Unavailable)
      else if a.pinFailure.Some? then Err(a.pinFailure.value)
      else
        var pinned := disk(a.openedAt).store.value;
        if key == Some(pinned.identity) then Ok(Cached(seen))
        else if a.catalogFailure.Some? then Err(a.catalogFailure.value)
        else Ok(Fresh(pinned.identity, pinned.catalog, seen))
  }

  function ProbeOf(disk: History, a: Attempt, cache: Cache): Result<Probe, Failure> {
    ProbeStore(disk, a, cache.key, cache.stat)
  }

  /** What a successful probe leaves in the cache. */
  function Settled(cache: Cache, probe: Probe): Cache {
    match probe
    case Unchanged => cache
    case Unavailable => cache
    case Cached(stat) => cache.(stat := stat)
    case Fresh(identity, accepted, stat) => Cache(Some(identity), accepted, stat, true)
    case Absent => if cache.bound && cache.key.None? then cache else Cache(None, None, None, true)
  }

  function Bound(disk: History, a: Attempt, cache: Cache): (Cache, Result<Binding, Failure>) {
    var probe := ProbeOf(disk, a, cache);
    if probe.Err? then (cache, Err(probe.error))
    else
      var next := Settled(cache, probe.value);
      var accepted := if probe.value.Unavailable? && !cache.bound then None else next.accepted;
      var lock := LockForAdoption(accepted, disk(a.lockRead).lock);
      (next, if lock.Err? then Err(lock.error) else Ok(Binding(accepted, lock.value)))
  }

  class CatalogBindingCache {
    var key: Option<Identity>
    var accepted: Option<Catalog>
    var stat: Option<Fingerprint>
    var bound: bool

    ghost function View(): Cache
      reads this
    {
      Cache(key, accepted, stat, bound)
    }

    constructor ()
      ensures View() == EMPTY
    {
      key, accepted, stat, bound := None, None, None, false;
    }

    method Bind(disk: History, a: Attempt) returns (binding: Result<Binding, Failure>)
      modifies this
      ensures (View(), binding) == Bound(disk, a, old(View()))
    {
      var probe := ProbeStore(disk, a, key, stat);
      if probe.Err? {
        return Err(probe.error);
      }
      match probe.value {
        case Unchanged =>
        case Cached(seen) => stat := seen;
        case Fresh(identity, catalog, seen) => Adopt(Some(identity), catalog, seen);
        case Absent =>
          if !(bound && key.None?) {
            Adopt(None, None, None);
          }
        case Unavailable =>
          if !bound {
            binding := BindUncached(disk, a);
            return;
          }
      }
      binding := CurrentBinding(disk, a);
    }

    method Adopt(newKey: Option<Identity>, catalog: Option<Catalog>, seen: Option<Fingerprint>)
      modifies this
      ensures View() == Cache(newKey, catalog, seen, true)
    {
      key, accepted, stat, bound := newKey, catalog, seen, true;
    }

    method CurrentBinding(disk: History, a: Attempt) returns (binding: Result<Binding, Failure>)
      ensures var lock := LockForAdoption(accepted, disk(a.lockRead).lock);
        binding == if lock.Ok? then Ok(Binding(accepted, lock.value)) else Err(lock.error)
    {
      var lock := LockForAdoption(accepted, disk(a.lockRead).lock);
      binding := if lock.Err? then Err(lock.error) else Ok(Binding(accepted, lock.value));
    }

    method BindUncached(disk: History, a: Attempt) returns (binding: Result<Binding, Failure>)
      ensures var lock := disk(a.lockRead).lock;
        binding == if lock.Ok? then Ok(Binding(None, lock.value)) else Err(lock.error)
    {
      var lock := LockForAdoption(None, disk(a.lockRead).lock);
      binding := if lock.Err? then Err(lock.error) else Ok(Binding(None, lock.value));
    }
  }

  // ----- Exactly what one bind gives

  /** There is no store: it is in memory, or its file is not there. */
  predicate StoreAbsent(disk: History, a: Attempt) {
    a.onDisk.Ok? && (!a.onDisk.value || disk(a.looked).store.None?)
  }

  predicate StorePresent(disk: History, a: Attempt) {
    a.onDisk == Ok(true) && disk(a.looked).store.Some?
  }

  /** The store's fingerprint is the one recorded for a confirmed identity. */
  predicate Recognised(disk: History, a: Attempt, cache: Cache) {
    cache.key.Some? && disk(a.fingerprinted).stat.Some? && disk(a.fingerprinted).stat == cache.stat
  }

  /** It has to be opened, and can be. */
  predicate StoreOpened(disk: History, a: Attempt, cache: Cache) {
    StorePresent(disk, a) && !Recognised(disk, a, cache) && a.openable && disk(a.openedAt).store.Some?
  }

  predicate StorePinned(disk: History, a: Attempt, cache: Cache) {
    StoreOpened(disk, a, cache) && a.pinFailure.None?
  }

  /** The store holds what the cache was last bound to. */
  predicate SameIdentity(disk: History, a: Attempt, cache: Cache) {
    disk(a.openedAt).store.Some? && cache.key == Some(disk(a.openedAt).store.value.identity)
  }

  /** The catalog a bind serves that gets to serve one. */
  function Served(disk: History, a: Attempt, cache: Cache): Option<Catalog> {
    if StoreAbsent(disk, a) then None
    else if StorePinned(disk, a, cache) && !SameIdentity(disk, a, cache) then disk(a.openedAt).store.value.catalog
    else if cache.bound then cache.accepted
    else None
  }

  /** A read fails: whether there is a store cannot be told, it cannot be pinned, or its new catalog
      cannot be read. */
  predicate ReadFails(disk: History, a: Attempt, cache: Cache) {
    || a.onDisk.Err?
    || (StoreOpened(disk, a, cache) && a.pinFailure.Some?)
    || (StorePinned(disk, a, cache) && !SameIdentity(disk, a, cache) && a.catalogFailure.Some?)
  }

  // ----- The two promises of the store the cache rests on

  /** Equal fingerprints at two instants mean nothing was committed between them. */
  ghost predicate FingerprintsSeeCommits(disk: History) {
    forall i: nat, j: nat, k: nat | i <= k <= j && disk(i).stat.Some? && disk(i).stat == disk(j).stat ::
      disk(k).store == disk(i).store
  }

  /** A commit fact names one catalog. */
  ghost predicate IdentityNamesCatalog(disk: History) {
    forall i: nat, j: nat | disk(i).store.Some? && disk(j).store.Some? &&
                            disk(i).store.value.identity == disk(j).store.value.identity ::
      disk(i).store.value.catalog == disk(j).store.value.catalog
  }

  ghost predicate StorePromises(disk: History) {
    FingerprintsSeeCommits(disk) && IdentityNamesCatalog(disk)
  }

  // ----- Runs of binds on one cache

  /** Binds follow one another in time. */
  ghost predicate Ordered(run: seq<Attempt>) {
    && (forall i :: 0 <= i < |run| ==> run[i].InOrder())
    && (forall i, j :: 0 <= i < j < |run| ==> run[i].lockRead <= run[j].looked)
  }

  function CacheAfter(disk: History, run: seq<Attempt>): Cache {
    if run == [] then EMPTY
    else Bound(disk, run[|run| - 1], CacheAfter(disk, run[..|run| - 1])).0
  }

  /** Without an identity there is nothing beside it; without a bind there is no identity. */
  predicate WellFormed(cache: Cache) {
    (cache.key.None? ==> cache.accepted.None? && cache.stat.None?) && (!cache.bound ==> cache.key.None?)
  }

  lemma {:induction false} CacheIsWellFormed(disk: History, run: seq<Attempt>)
    ensures WellFormed(CacheAfter(disk, run))
    decreases |run|
  {
    if run != [] {
      CacheIsWellFormed(disk, run[..|run| - 1]);
    }
  }

  /** After any binds, the next fails exactly if one of its reads does, or the committed lock cannot be
      read and there is no catalog to serve without it. Otherwise it serves the store's catalog if that
      had to be read, the cached one if that is still good or nothing better can be had, and none without
      a store. */
  lemma BindFailsIff(disk: History, run: seq<Attempt>, a: Attempt)
    ensures var cache := CacheAfter(disk, run);
      var binding := Bound(disk, a, cache).1;
      && (binding.Err? <==>
            ReadFails(disk, a, cache) || (Served(disk, a, cache).None? && disk(a.lockRead).lock.Err?))
      && (binding.Err? ==>
            binding.error == (if a.onDisk.Err? then a.onDisk.error
                              else if StoreOpened(disk, a, cache) && a.pinFailure.Some? then a.pinFailure.value
                              else if ReadFails(disk, a, cache) then a.catalogFailure.value
                              else disk(a.lockRead).lock.error))
      && (binding.Ok? ==> binding.value.accepted == Served(disk, a, cache)
                          && (binding.value.accepted.None? ==> disk(a.lockRead).lock == Ok(binding.value.lock)))
  {
    CacheIsWellFormed(disk, run);
  }

  /** What reading the store directly at an instant gives: first-run `None` where there is none. */
  function DirectRead(disk: History, onDisk: bool, at: nat): Option<Catalog> {
    if !onDisk || disk(at).store.None? then None else disk(at).store.value.catalog
  }

  /** The instant a probe speaks for; a failed probe and an unreadable store speak for none. */
  function ConfirmedAt(disk: History, a: Attempt, cache: Cache): (at: Option<nat>)
    ensures at.Some? && a.InOrder() ==> a.looked <= at.value <= a.openedAt
  {
    match ProbeOf(disk, a, cache)
    case Err(_) => None
    case Ok(Unavailable) => None
    case Ok(Absent) => Some(a.looked)
    case Ok(Unchanged) => Some(a.fingerprinted)
    case Ok(_) => Some(a.openedAt)
  }

  /** The direct read at the last confirmed instant of a run. */
  function LastConfirmed(disk: History, run: seq<Attempt>): Option<Option<Catalog>> {
    if run == [] then None
    else
      var a, before := run[|run| - 1], run[..|run| - 1];
      var at := ConfirmedAt(disk, a, CacheAfter(disk, before));
      if at.Some? then Some(DirectRead(disk, a.onDisk.Ok? && a.onDisk.value, at.value)) else LastConfirmed(disk, before)
  }

  /** What a check is given when nothing was ever confirmed: the first run. */
  function OrFirstRun(confirmed: Option<Option<Catalog>>): Option<Catalog> {
    if confirmed.Some? then confirmed.value else None
  }

  /** The key and catalog were pinned together at `pinned`, no earlier than the fingerprint was
      seen, both by time `now`. */
  ghost predicate PinnedAfterSeen(disk: History, cache: Cache, now: nat, seen: nat, pinned: nat)
    requires cache.key.Some?
  {
    && seen <= pinned <= now
    && disk(pinned).store == Some(Content(cache.key.value, cache.accepted))
    && (cache.stat.Some? ==> disk(seen).stat == cache.stat)
  }

  ghost predicate Coherent(disk: History, cache: Cache, now: nat) {
    && WellFormed(cache)
    && (cache.key.Some? ==> exists seen, pinned :: PinnedAfterSeen(disk, cache, now, seen, pinned))
  }

  /** A bind keeps the cache coherent, and what it then holds is the direct read at the instant its
      probe confirmed, whatever was committed between the fingerprint and the open. */
  lemma BindKeepsCoherence(disk: History, cache: Cache, now: nat, a: Attempt)
    requires StorePromises(disk) && Coherent(disk, cache, now) && a.InOrder() && now <= a.looked
    ensures var (next, _) := Bound(disk, a, cache); Coherent(disk, next, a.lockRead)
    ensures var (next, _) := Bound(disk, a, cache);
      var at := ConfirmedAt(disk, a, cache);
      if at.Some? then next.bound && next.accepted == DirectRead(disk, a.onDisk.Ok? && a.onDisk.value, at.value)
      else next == cache
  {
    BindStaysCoherent(disk, cache, now, a);
    var probe := ProbeOf(disk, a, cache);
    if probe == Ok(Unchanged) {
      UnchangedIsCurrent(disk, cache, now, a);
    } else if probe.Ok? && probe.value.Cached? {
      CachedIsCurrent(disk, cache, now, a);
    }
  }

  /** An identity seen again still names the catalog pinned with it. */
  lemma CachedIsCurrent(disk: History, cache: Cache, now: nat, a: Attempt)
    requires StorePromises(disk) && Coherent(disk, cache, now) && a.InOrder() && now <= a.looked
    requires ProbeOf(disk, a, cache).Ok? && ProbeOf(disk, a, cache).value.Cached?
    ensures disk(a.openedAt).store == Some(Content(cache.key.value, cache.accepted))
  {
  }

  lemma BindStaysCoherent(disk: History, cache: Cache, now: nat, a: Attempt)
    requires StorePromises(disk) && Coherent(disk, cache, now) && a.InOrder() && now <= a.looked
    ensures var (next, _) := Bound(disk, a, cache); Coherent(disk, next, a.lockRead)
  {
    var next := Bound(disk, a, cache).0;
    if next == cache && cache.key.Some? {
      var seen, pinned :| PinnedAfterSeen(disk, cache, now, seen, pinned);
      assert PinnedAfterSeen(disk, next, a.lockRead, seen, pinned);
    } else if next.key.Some? {
      var seen, pinned :| cache.key.Some? ==> PinnedAfterSeen(disk, cache, now, seen, pinned);
      assert PinnedAfterSeen(disk, next, a.lockRead, a.fingerprinted, a.openedAt);
    }
  }

  /** A fingerprint seen again means the store still is what was pinned in between. */
  lemma UnchangedIsCurrent(disk: History, cache: Cache, now: nat, a: Attempt)
    requires StorePromises(disk) && Coherent(disk, cache, now) && a.InOrder() && now <= a.looked
    requires ProbeOf(disk, a, cache) == Ok(Unchanged)
    ensures disk(a.fingerprinted).store == Some(Content(cache.key.value, cache.accepted))
  {
  }

  function EndOf(run: seq<Attempt>): nat {
    if run == [] then 0 else run[|run| - 1].lockRead
  }

  /** The cache always holds what a direct read gave at the last confirmed instant. */
  lemma {:induction false} CacheHoldsTheLastConfirmed(disk: History, run: seq<Attempt>)
    requires StorePromises(disk) && Ordered(run)
    ensures Coherent(disk, CacheAfter(disk, run), EndOf(run))
    ensures CacheAfter(disk, run).bound <==> LastConfirmed(disk, run).Some?
    ensures LastConfirmed(disk, run).Some? ==> CacheAfter(disk, run).accepted == LastConfirmed(disk, run).value
    decreases |run|
  {
    if run != [] {
      var before := run[..|run| - 1];
      CacheHoldsTheLastConfirmed(disk, before);
      BindKeepsCoherence(disk, CacheAfter(disk, before), EndOf(before), run[|run| - 1]);
    }
  }

  /** The cache refines an uncached read. Every bind that answers serves the direct read at the
      last confirmed instant: one inside the call whenever the store is readable, however writers
      race it; the last one before while the store is locked; first-run `None` before any. */
  lemma BindRefinesADirectRead(disk: History, run: seq<Attempt>, a: Attempt)
    requires StorePromises(disk) && Ordered(run + [a])
    ensures var cache := CacheAfter(disk, run);
      var binding := Bound(disk, a, cache).1;
      binding.Ok? ==>
        var onDisk := a.onDisk.Ok? && a.onDisk.value;
        var at := ConfirmedAt(disk, a, cache);
        && (at.Some? ==> a.looked <= at.value <= a.openedAt && binding.value.accepted == DirectRead(disk, onDisk, at.value))
        && (at.None? ==> binding.value.accepted == OrFirstRun(LastConfirmed(disk, run)))
  {
    var both := run + [a];
    assert Ordered(run) && a.InOrder() && EndOf(run) <= a.looked by {
      assert both[|run|] == a;
      assert forall i :: 0 <= i < |run| ==> both[i] == run[i];
    }
    CacheHoldsTheLastConfirmed(disk, run);
    BindKeepsCoherence(disk, CacheAfter(disk, run), EndOf(run), a);
  }

  /** With no writer during the call, a bind that can read the store, and the lock where it holds no
      catalog, succeeds and serves exactly what the store holds: a superseded catalog is never shown. */
  lemma QuietBindServesTheCurrentCatalog(disk: History, run: seq<Attempt>, a: Attempt)
    requires StorePromises(disk) && Ordered(run + [a])
    requires forall t: nat | a.looked <= t <= a.openedAt :: disk(t).store == disk(a.looked).store
    requires a.onDisk == Ok(true) && a.openable && a.pinFailure.None? && a.catalogFailure.None?
    requires DirectRead(disk, true, a.looked).None? ==> disk(a.lockRead).lock.Ok?
    ensures var binding := Bound(disk, a, CacheAfter(disk, run)).1;
      binding.Ok? && binding.value.accepted == DirectRead(disk, true, a.looked)
  {
    var cache := CacheAfter(disk, run);
    assert (run + [a])[|run|] == a;
    BindRefinesADirectRead(disk, run, a);
    CacheHoldsTheLastConfirmed(disk, run) by {
      assert forall i :: 0 <= i < |run| ==> (run + [a])[i] == run[i];
    }
    BindFailsIff(disk, run, a);
    ConfirmedIff(disk, cache, a);
    SettledServes(disk, run, a);
  }

  /** What is served is the direct read at the confirmed instant. */
  lemma SettledServes(disk: History, run: seq<Attempt>, a: Attempt)
    requires StorePromises(disk) && Ordered(run + [a])
    ensures var cache := CacheAfter(disk, run);
      var at := ConfirmedAt(disk, a, cache);
      at.Some? ==> Served(disk, a, cache) == DirectRead(disk, a.onDisk.Ok? && a.onDisk.value, at.value)
  {
    var both := run + [a];
    assert Ordered(run) && a.InOrder() && EndOf(run) <= a.looked by {
      assert both[|run|] == a;
      assert forall i :: 0 <= i < |run| ==> both[i] == run[i];
    }
    CacheHoldsTheLastConfirmed(disk, run);
    BindKeepsCoherence(disk, CacheAfter(disk, run), EndOf(run), a);
  }

  /** A bind confirms an instant exactly if there is no store, its fingerprint is recognised, or it can
      be opened and read. */
  lemma ConfirmedIff(disk: History, cache: Cache, a: Attempt)
    ensures ConfirmedAt(disk, a, cache).Some? <==>
      || StoreAbsent(disk, a)
      || (StorePresent(disk, a) && Recognised(disk, a, cache))
      || (StorePinned(disk, a, cache) && (SameIdentity(disk, a, cache) || a.catalogFailure.None?))
  {
  }

  /** The committed lock seeds a check exactly when no catalog was accepted, and is then the one on
      disk at the moment it is read. */
  lemma LockOnlyWithoutACatalog(disk: History, cache: Cache, a: Attempt)
    ensures var binding := Bound(disk, a, cache).1;
      binding.Ok? ==>
        && (binding.value.accepted.None? || binding.value.lock.None?)
        && (binding.value.accepted.None? ==> disk(a.lockRead).lock == Ok(binding.value.lock))
  {
  }

  // ----- Errors

  /** As long as the committed lock can be read, a failing bind leaves the cache as it was. */
  lemma ReadableLockMakesFailureHarmless(disk: History, cache: Cache, a: Attempt)
    requires disk(a.lockRead).lock.Ok?
    ensures Bound(disk, a, cache).1.Err? ==> Bound(disk, a, cache).0 == cache
  {
  }

  /** What there is to write when no catalog is accepted: that there is no store, the new fingerprint
      of the identity already known, or a new identity without a catalog. */
  predicate WritesWithoutACatalog(disk: History, a: Attempt, cache: Cache) {
    || (StoreAbsent(disk, a) && (cache.key.Some? || !cache.bound))
    || (StorePinned(disk, a, cache)
        && var pinned := disk(a.openedAt).store.value;
           if cache.key == Some(pinned.identity)
           then cache.accepted.None? && disk(a.fingerprinted).stat != cache.stat
           else a.catalogFailure.None? && pinned.catalog.None?)
  }

  /** A bind fails and yet changes the cache exactly when the committed lock cannot be read and there
      was something to write without an accepted catalog: the lock is read only then, and only after
      the cache was updated. */
  lemma FailsAndChangesTheCacheIff(disk: History, cache: Cache, a: Attempt)
    ensures var (next, binding) := Bound(disk, a, cache);
      binding.Err? && next != cache <==> disk(a.lockRead).lock.Err? && WritesWithoutACatalog(disk, a, cache)
  {
  }

  /** A failing bind that did touch the cache: the first bind of a storeless checkout whose
      committed lock is corrupt. */
  lemma CorruptLockFailsAfterAdoption()
    ensures exists disk: History, a: Attempt ::
      StorePromises(disk) && a.InOrder() && Bound(disk, a, EMPTY) == (Cache(None, None, None, true), Err(CorruptLock))
  {
    var disk: History := _ => Disk(None, None, Err(CorruptLock));
    var a := Attempt(0, 0, 0, 0, Ok(true), true, None, None);
    assert StorePromises(disk) && a.InOrder() && Bound(disk, a, EMPTY) == (Cache(None, None, None, true), Err(CorruptLock));
  }
}
