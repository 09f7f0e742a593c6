/**
 The MCP connection reconciler of `connector.rs`: one session thread brings the live
 set in line with configuration while any number of worker threads open connections.

 Every lock acquisition that another thread can fall between is a step of its own.
 `retire` holds the lock on `started` over its whole loop and is one step. A worker's
 `is_current` and its insert are two acquisitions in the code and two steps here
 (`Check`, `Publish`); `Timely` says of a publish that no retire fell between them.
 */
module Connector {
  import opened Wrappers

  type Name = string
  type Digest = string
  type Tools = seq<string>

  const CACHE_TTL_MS: nat := 2_592_000_000

  /** A live connection. `digest`, the definition it was opened under, is read by no step. */
  datatype Connection = Connection(digest: Digest, tools: Tools)

  datatype CacheEntry = CacheEntry(fingerprint: Digest, savedMs: nat, tools: Tools)

  /** How far a worker thread is. */
  datatype Stage =
    | Opening
    | Opened(tools: Tools)
    | Broken
    | Approved(tools: Tools)  // opened, and current when it looked
    | Blamed                  // failed, and current when it looked
    | Over
    | Finished

  datatype Attempt = Attempt(name: Name, digest: Digest, stage: Stage)

  /** Where the session thread is inside `ensure` or `tools_for` of one server. */
  datatype Look =
    | Between
    | SawLive(name: Name, live: bool)
    | SawNotFailed(name: Name, live: bool)
    | Starting(name: Name)
    | SawDown(name: Name)

  /** What the threads share, each map behind its own lock. */
  datatype Shared = Shared(
    connections: map<Name, Connection>,
    pending: map<Name, nat>,
    started: map<Name, Digest>,
    failed: map<Name, Digest>,
    failures: seq<Name>,
    cache: Option<map<Name, CacheEntry>>,
    attempts: seq<Attempt>,
    // Every tool list a connection published under a definition; read by no step.
    published: set<(Name, Digest, Tools)>)

  /** The session thread: the enabled servers of its last sync, and its progress in it. */
  datatype Session = Session(
    resting: bool,
    enabled: map<Name, Digest>,
    ensured: set<Name>,
    offered: map<Name, Tools>,
    look: Look)

  datatype State = State(m: Shared, t: Session)

  datatype Work =
    | OpenOk(w: nat, tools: Tools)
    | OpenErr(w: nat)
    | Check(w: nat)
    | Save(w: nat, now: nat)
    | Publish(w: nat)
    | Finish(w: nat)

  datatype Event =
    | Sync(enabled: map<Name, Digest>)
    | LookLive(name: Name)
    | LookFailed
    | LookPending
    | Start
    | OfferLive(name: Name)
    | OfferCached(now: nat)
    | EndSync
    | Worker(work: Work)
    | Break(name: Name)       // a call found the connection broken and dropped it
    | TakeFailures

  predicate Has<V(==)>(m: map<Name, V>, n: Name, v: V) {
    n in m && m[n] == v
  }

  /** Servers last started under a definition that is no longer the enabled one. */
  function Stale(started: map<Name, Digest>, enabled: map<Name, Digest>): set<Name> {
    set n | n in started && !Has(enabled, n, started[n])
  }

  function Count(pending: map<Name, nat>, n: Name): nat {
    if n in pending then pending[n] else 0
  }

  function PendingStart(pending: map<Name, nat>, n: Name): map<Name, nat> {
    pending[n := Count(pending, n) + 1]
  }

  function PendingFinish(pending: map<Name, nat>, n: Name): map<Name, nat> {
    if Count(pending, n) == 0 then pending
    else if pending[n] == 1 then pending - {n}
    else pending[n := pending[n] - 1]
  }

  function Cached(cache: Option<map<Name, CacheEntry>>, n: Name, digest: Digest, now: nat): Tools {
    if cache.None? || n !in cache.value then []
    else
      var entry := cache.value[n];
      if entry.fingerprint == digest && (if now < entry.savedMs then 0 else now - entry.savedMs) < CACHE_TTL_MS
      then entry.tools else []
  }

  predicate Current(m: Shared, a: Attempt) {
    Has(m.started, a.name, a.digest)
  }

  predicate CanWork(m: Shared, k: Work) {
    k.w < |m.attempts| &&
    var stage := m.attempts[k.w].stage;
    match k
    case OpenOk(_, _) => stage.Opening?
    case OpenErr(_) => stage.Opening?
    case Check(_) => stage.Opened? || stage.Broken?
    case Save(_, _) => stage.Approved? && m.cache.Some?
    case Publish(_) => stage.Approved? || stage.Blamed?
    case Finish(_) => stage.Over?
  }

  function At(m: Shared, w: nat, stage: Stage): seq<Attempt>
    requires w < |m.attempts|
  {
    m.attempts[w := m.attempts[w].(stage := stage)]
  }

  function Worked(m: Shared, k: Work): Shared
    requires CanWork(m, k)
  {
    var a := m.attempts[k.w];
    match k
    case OpenOk(w, tools) =>
      m.(attempts := At(m, w, Opened(tools)), published := m.published + {(a.name, a.digest, tools)})
    case OpenErr(w) => m.(attempts := At(m, w, Broken))
    case Check(w) =>
      m.(attempts := At(m, w, if !Current(m, a) then Over else if a.stage.Opened? then Approved(a.stage.tools) else Blamed))
    case Save(w, now) =>
      m.(cache := Some(m.cache.value[a.name := CacheEntry(a.digest, now, a.stage.tools)]))
    case Publish(w) =>
      if a.stage.Approved? then
        m.(attempts := At(m, w, Over), connections := m.connections[a.name := Connection(a.digest, a.stage.tools)])
      else
        m.(attempts := At(m, w, Over), failed := m.failed[a.name := a.digest], failures := m.failures + [a.name])
    case Finish(w) => m.(attempts := At(m, w, Finished), pending := PendingFinish(m.pending, a.name))
  }

  /** What `retire` leaves: everything filed under a stale server is dropped. */
  function Retired(m: Shared, enabled: map<Name, Digest>): Shared {
    var stale := Stale(m.started, enabled);
    m.(started := m.started - stale, failed := m.failed - stale, connections := m.connections - stale)
  }

  /** What starting a server does: it is filed as started and pending, and a worker is spawned. */
  function Spawned(m: Shared, n: Name, digest: Digest): Shared {
    m.(started := m.started[n := digest], pending := PendingStart(m.pending, n),
       attempts := m.attempts + [Attempt(n, digest, Opening)])
  }

  predicate Enabled(s: State, e: Event) {
    var t := s.t;
    match e
    case Sync(_) => t.resting
    case LookLive(n) => !t.resting && t.look == Between && n in t.enabled && n !in t.ensured
    case LookFailed => t.look.SawLive? && t.look.name in t.enabled
    case LookPending => t.look.SawNotFailed? && t.look.name in t.enabled
    case Start => t.look.Starting? && t.look.name in t.enabled
    case OfferLive(n) =>
      !t.resting && t.look == Between && t.enabled.Keys <= t.ensured && n in t.enabled && n !in t.offered
    case OfferCached(_) => t.look.SawDown? && t.look.name in t.enabled
    case EndSync => !t.resting && t.look == Between && t.enabled.Keys <= t.ensured * t.offered.Keys
    case Worker(k) => CanWork(s.m, k)
    case Break(_) => true
    case TakeFailures => true
  }

  function Apply(s: State, e: Event): State
    requires Enabled(s, e)
  {
    var m, t := s.m, s.t;
    match e
    case Sync(enabled) => State(Retired(m, enabled), Session(false, enabled, {}, map[], Between))
    case LookLive(n) => s.(t := t.(look := SawLive(n, n in m.connections)))
    case LookFailed =>
      s.(t := if Has(m.failed, t.look.name, t.enabled[t.look.name])
              then t.(look := Between, ensured := t.ensured + {t.look.name})
              else t.(look := SawNotFailed(t.look.name, t.look.live)))
    case LookPending =>
      s.(t := if Has(m.started, t.look.name, t.enabled[t.look.name]) && (t.look.live || t.look.name in m.pending)
              then t.(look := Between, ensured := t.ensured + {t.look.name})
              else t.(look := Starting(t.look.name)))
    case Start =>
      State(Spawned(m, t.look.name, t.enabled[t.look.name]),
            t.(look := Between, ensured := t.ensured + {t.look.name}))
    case OfferLive(n) =>
      s.(t := if n in m.connections then t.(offered := t.offered[n := m.connections[n].tools])
              else t.(look := SawDown(n)))
    case OfferCached(now) =>
      var n := t.look.name;
      var tools := if n in m.pending then Cached(m.cache, n, t.enabled[n], now) else [];
      s.(t := t.(offered := t.offered[n := tools], look := Between))
    case EndSync => s.(t := t.(resting := true))
    case Worker(k) => s.(m := Worked(m, k))
    case Break(n) => s.(m := m.(connections := m.connections - {n}))
    case TakeFailures => s.(m := m.(failures := []))
  }

  /** A publish finds its definition still current: check and publish were as good as one step. */
  predicate Timely(s: State, e: Event) {
    e.Worker? && e.work.Publish? && e.work.w < |s.m.attempts| ==> Current(s.m, s.m.attempts[e.work.w])
  }

  predicate IsRun(s: State, es: seq<Event>)
    decreases |es|
  {
    es == [] || (Enabled(s, es[0]) && IsRun(Apply(s, es[0]), es[1..]))
  }

  predicate IsTimelyRun(s: State, es: seq<Event>)
    decreases |es|
  {
    es == [] || (Enabled(s, es[0]) && Timely(s, es[0]) && IsTimelyRun(Apply(s, es[0]), es[1..]))
  }

  function After(s: State, es: seq<Event>): State
    requires IsRun(s, es) || IsTimelyRun(s, es)
    decreases |es|
  {
    if es == [] then s else After(Apply(s, es[0]), es[1..])
  }

  /** A session that has not synced; its cache may hold what earlier sessions saved. */
  predicate Init(s: State) {
    && s.m.connections == map[] && s.m.pending == map[] && s.m.started == map[] && s.m.failed == map[]
    && s.m.failures == [] && s.m.attempts == []
    && s.t == Session(true, map[], {}, map[], Between)
    && CacheTruthful(s.m)
  }

  lemma {:induction false} RunSnoc(s: State, es: seq<Event>, e: Event)
    requires IsRun(s, es) && Enabled(After(s, es), e)
    ensures IsRun(s, es + [e]) && After(s, es + [e]) == Apply(After(s, es), e)
    decreases |es|
  {
    if es == [] {
      assert [e][1..] == [];
    } else {
      RunSnoc(Apply(s, es[0]), es[1..], e);
      assert (es + [e])[1..] == es[1..] + [e];
    }
  }

  /** Some run made one step longer. */
  lemma Then(s0: State, es: seq<Event>, s: State, e: Event) returns (longer: seq<Event>)
    requires IsRun(s0, es) && After(s0, es) == s && Enabled(s, e)
    ensures IsRun(s0, longer) && After(s0, longer) == Apply(s, e)
  {
    RunSnoc(s0, es, e);
    longer := es + [e];
  }

  lemma {:induction false} RunsJoin(s: State, es: seq<Event>, fs: seq<Event>)
    requires IsRun(s, es) && IsRun(After(s, es), fs)
    ensures IsRun(s, es + fs) && After(s, es + fs) == After(After(s, es), fs)
    decreases |fs|
  {
    if fs == [] {
      assert es + fs == es;
    } else {
      RunSnoc(s, es, fs[0]);
      RunsJoin(s, es + [fs[0]], fs[1..]);
      assert es + [fs[0]] + fs[1..] == es + fs;
    }
  }

  // -- The invariant ---------------------------------------------------------

  /** The live set and the failures agree with what was started. */
  predicate SharedAgrees(m: Shared) {
    && (forall n :: n in m.connections ==> Has(m.started, n, m.connections[n].digest))
    && (forall n :: n in m.failed ==> Has(m.started, n, m.failed[n]))
  }

  /** What was started agrees with configuration. */
  predicate Agrees(s: State) {
    && SharedAgrees(s.m)
    && (forall n :: n in s.m.started ==> Has(s.t.enabled, n, s.m.started[n]))
    && (forall n :: n in s.t.ensured ==> n in s.m.started)
  }

  predicate CacheTruthful(m: Shared) {
    m.cache.Some? ==>
      forall n :: n in m.cache.value ==> (n, m.cache.value[n].fingerprint, m.cache.value[n].tools) in m.published
  }

  predicate AttemptTruthful(m: Shared, a: Attempt) {
    a.stage.Opened? || a.stage.Approved? ==> (a.name, a.digest, a.stage.tools) in m.published
  }

  /** Every tool list the session can reach was published under the definition it is filed under. */
  predicate SharedTruthful(m: Shared) {
    && (forall n :: n in m.connections ==> (n, m.connections[n].digest, m.connections[n].tools) in m.published)
    && CacheTruthful(m)
    && (forall w :: 0 <= w < |m.attempts| ==> AttemptTruthful(m, m.attempts[w]))
  }

  predicate Truthful(s: State) {
    && SharedTruthful(s.m)
    && (forall n :: n in s.t.offered ==>
          n in s.t.enabled && (s.t.offered[n] == [] || (n, s.t.enabled[n], s.t.offered[n]) in s.m.published))
  }

  /** How many attempts at `n` have not finished. */
  function InFlight(attempts: seq<Attempt>, n: Name): nat {
    if attempts == [] then 0
    else (if attempts[0].name == n && !attempts[0].stage.Finished? then 1 else 0) + InFlight(attempts[1..], n)
  }

  ghost predicate Counted(m: Shared) {
    forall n :: CountedAt(m, n)
  }

  ghost predicate CountedAt(m: Shared, n: Name) {
    Count(m.pending, n) == InFlight(m.attempts, n) && (n in m.pending ==> m.pending[n] > 0)
  }

  ghost predicate Inv(s: State) {
    Agrees(s) && Truthful(s) && Counted(s.m)
  }

  lemma WorkKeepsShared(m: Shared, k: Work)
    requires SharedAgrees(m) && SharedTruthful(m) && CanWork(m, k)
    requires k.Publish? ==> Current(m, m.attempts[k.w])
    ensures SharedAgrees(Worked(m, k)) && SharedTruthful(Worked(m, k))
    ensures Worked(m, k).started == m.started && m.published <= Worked(m, k).published
  {
    var m' := Worked(m, k);
    assert AttemptTruthful(m, m.attempts[k.w]);
    forall w | 0 <= w < |m'.attempts|
      ensures AttemptTruthful(m', m'.attempts[w])
    {
      assert AttemptTruthful(m, m.attempts[w]);
    }
  }

  lemma StepKeepsAgrees(s: State, e: Event)
    requires Agrees(s) && Truthful(s) && Enabled(s, e) && Timely(s, e)
    ensures Agrees(Apply(s, e))
  {
    if e.Worker? {
      WorkKeepsShared(s.m, e.work);
    }
  }

  lemma StepKeepsTruthful(s: State, e: Event)
    requires Agrees(s) && Truthful(s) && Enabled(s, e) && Timely(s, e)
    ensures Truthful(Apply(s, e))
  {
    if e.Worker? {
      WorkKeepsShared(s.m, e.work);
    } else {
      var m' := Apply(s, e).m;
      forall w | 0 <= w < |m'.attempts|
        ensures AttemptTruthful(m', m'.attempts[w])
      {
        if w < |s.m.attempts| {
          assert AttemptTruthful(s.m, s.m.attempts[w]);
        }
      }
    }
  }

  lemma {:induction false} InFlightUpdate(attempts: seq<Attempt>, w: nat, a: Attempt, n: Name)
    requires w < |attempts| && a.name == attempts[w].name
    ensures InFlight(attempts[w := a], n) ==
            InFlight(attempts, n)
            + (if a.name == n && !a.stage.Finished? then 1 else 0)
            - (if a.name == n && !attempts[w].stage.Finished? then 1 else 0)
  {
    if w > 0 {
      assert attempts[w := a][1..] == attempts[1..][w - 1 := a];
      InFlightUpdate(attempts[1..], w - 1, a, n);
    }
  }

  lemma {:induction false} InFlightSnoc(attempts: seq<Attempt>, a: Attempt, n: Name)
    ensures InFlight(attempts + [a], n) ==
            InFlight(attempts, n) + (if a.name == n && !a.stage.Finished? then 1 else 0)
  {
    if attempts == [] {
    } else {
      assert (attempts + [a])[1..] == attempts[1..] + [a];
      InFlightSnoc(attempts[1..], a, n);
    }
  }

  lemma StepKeepsCounted(s: State, e: Event)
    requires Counted(s.m) && Enabled(s, e)
    ensures Counted(Apply(s, e).m)
  {
    var m' := Apply(s, e).m;
    forall n
      ensures CountedAt(m', n)
    {
      assert CountedAt(s.m, n);
      if e.Start? {
        InFlightSnoc(s.m.attempts, Attempt(s.t.look.name, s.t.enabled[s.t.look.name], Opening), n);
      } else if e.Worker? {
        InFlightUpdate(s.m.attempts, e.work.w, m'.attempts[e.work.w], n);
      }
    }
  }

  lemma StepKeepsInv(s: State, e: Event)
    requires Inv(s) && Enabled(s, e) && Timely(s, e)
    ensures Inv(Apply(s, e))
  {
    StepKeepsAgrees(s, e);
    StepKeepsTruthful(s, e);
    StepKeepsCounted(s, e);
  }

  lemma {:induction false} RunKeepsInv(s: State, es: seq<Event>)
    requires Inv(s) && IsTimelyRun(s, es)
    ensures Inv(After(s, es))
    decreases |es|
  {
    if es == [] {
    } else {
      StepKeepsInv(s, es[0]);
      RunKeepsInv(Apply(s, es[0]), es[1..]);
    }
  }

  // -- The live set agrees with configuration --------------------------------

  /**
   In every run whose publishes are timely: a live connection belongs to an enabled server
   and was opened under its current definition, and so does a remembered failure; what is
   offered was published under exactly that definition; `pending` names exactly the
   servers with an attempt in flight.
   */
  lemma LiveSetAgrees(s0: State, es: seq<Event>)
    requires Init(s0) && IsTimelyRun(s0, es)
    ensures var s := After(s0, es);
            && (forall n :: n in s.m.connections ==> Has(s.t.enabled, n, s.m.connections[n].digest))
            && (forall n :: n in s.m.failed ==> Has(s.t.enabled, n, s.m.failed[n]))
            && (forall n :: n in s.t.offered && s.t.offered[n] != [] ==>
                  n in s.t.enabled && (n, s.t.enabled[n], s.t.offered[n]) in s.m.published)
            && (forall n :: n in s.m.pending <==> InFlight(s.m.attempts, n) > 0)
  {
    RunKeepsInv(s0, es);
    var s := After(s0, es);
    forall n
      ensures n in s.m.pending <==> InFlight(s.m.attempts, n) > 0
    {
      assert CountedAt(s.m, n);
    }
  }

  /**
   Timeliness is exactly what is needed: a publish keeps the agreement if and only if the
   definition is still current when the insert happens.
   */
  lemma PublishAgreesIffTimely(m: Shared, w: nat)
    requires SharedAgrees(m) && CanWork(m, Publish(w))
    ensures SharedAgrees(Worked(m, Publish(w))) <==> Current(m, m.attempts[w])
  {
    var m' := Worked(m, Publish(w));
    var a := m.attempts[w];
    if a.stage.Approved? {
      assert a.name in m'.connections;
    } else {
      assert a.name in m'.failed;
    }
  }

  predicate AgreesThroughout(s: State, es: seq<Event>)
    requires IsRun(s, es)
    decreases |es|
  {
    Agrees(s) && (es == [] || AgreesThroughout(Apply(s, es[0]), es[1..]))
  }

  /** So a run keeps the agreement at every point if and only if each of its publishes is timely. */
  lemma {:induction false} AgreesIffTimely(s: State, es: seq<Event>)
    requires Inv(s) && IsRun(s, es)
    ensures AgreesThroughout(s, es) <==> IsTimelyRun(s, es)
    decreases |es|
  {
    if es == [] {
    } else if Timely(s, es[0]) {
      StepKeepsInv(s, es[0]);
      AgreesIffTimely(Apply(s, es[0]), es[1..]);
    } else {
      PublishAgreesIffTimely(s.m, es[0].work.w);
      assert !SharedAgrees(Apply(s, es[0]).m);
      assert !Agrees(Apply(s, es[0]));
    }
  }

  // -- Every started server is accounted for -----------------------------------

  predicate UnderWay(m: Shared, w: nat, n: Name)
    requires w < |m.attempts|
  {
    var a := m.attempts[w];
    a.name == n && Current(m, a) && !a.stage.Over? && !a.stage.Finished?
  }

  /** Up, failed, or with an attempt under its current definition that has still to say which. */
  predicate AccountedFor(m: Shared, n: Name) {
    n in m.connections || n in m.failed || exists w :: 0 <= w < |m.attempts| && UnderWay(m, w, n)
  }

  predicate AllAccountedFor(m: Shared) {
    forall n :: n in m.started ==> AccountedFor(m, n)
  }

  lemma WorkAccounts(m: Shared, k: Work, n: Name)
    requires CanWork(m, k) && AccountedFor(m, n)
    ensures AccountedFor(Worked(m, k), n)
  {
    if w :| 0 <= w < |m.attempts| && UnderWay(m, w, n) {
      assert (k.Publish? && k.w == w) || UnderWay(Worked(m, k), w, n);
    }
  }

  lemma RetireAccounts(m: Shared, enabled: map<Name, Digest>, n: Name)
    requires AccountedFor(m, n) && n in Retired(m, enabled).started
    ensures AccountedFor(Retired(m, enabled), n)
  {
    if w :| 0 <= w < |m.attempts| && UnderWay(m, w, n) {
      assert UnderWay(Retired(m, enabled), w, n);
    }
  }

  lemma StartAccounts(m: Shared, started: Name, digest: Digest, n: Name)
    requires n != started ==> AccountedFor(m, n)
    ensures AccountedFor(Spawned(m, started, digest), n)
  {
    var m' := Spawned(m, started, digest);
    if n == started {
      assert UnderWay(m', |m.attempts|, n);
    } else if w :| 0 <= w < |m.attempts| && UnderWay(m, w, n) {
      assert UnderWay(m', w, n);
    }
  }

  lemma SameAccounts(m: Shared, m': Shared, n: Name)
    requires AccountedFor(m, n) && m'.started == m.started && m'.attempts == m.attempts
    requires m'.connections == m.connections && m'.failed == m.failed
    ensures AccountedFor(m', n)
  {
    if w :| 0 <= w < |m.attempts| && UnderWay(m, w, n) {
      assert UnderWay(m', w, n);
    }
  }

  lemma StepAccounts(s: State, e: Event, n: Name)
    requires Enabled(s, e) && !e.Break? && n in Apply(s, e).m.started
    requires n in s.m.started ==> AccountedFor(s.m, n)
    ensures AccountedFor(Apply(s, e).m, n)
  {
    if e.Sync? {
      RetireAccounts(s.m, e.enabled, n);
    } else if e.Start? {
      StartAccounts(s.m, s.t.look.name, s.t.enabled[s.t.look.name], n);
    } else if e.Worker? {
      WorkAccounts(s.m, e.work, n);
    } else {
      SameAccounts(s.m, Apply(s, e).m, n);
    }
  }

  lemma {:induction false} RunAccounts(s: State, es: seq<Event>)
    requires AllAccountedFor(s.m) && IsTimelyRun(s, es) && forall e :: e in es ==> !e.Break?
    ensures AllAccountedFor(After(s, es).m)
    decreases |es|
  {
    if es == [] {
    } else {
      var s' := Apply(s, es[0]);
      assert es[0] in es;
      forall n | n in s'.m.started
        ensures AccountedFor(s'.m, n)
      {
        StepAccounts(s, es[0], n);
      }
      RunAccounts(s', es[1..]);
    }
  }

  /**
   The other half of the agreement: in every timely run in which no connection breaks, each
   started server is connected under its current definition, or failed under it, or has an
   attempt under it that will yet publish one or the other. None is forgotten.
   */
  lemma StartedServersAccountedFor(s0: State, es: seq<Event>, n: Name)
    requires Init(s0) && IsTimelyRun(s0, es) && forall e :: e in es ==> !e.Break?
    requires n in After(s0, es).m.started
    ensures var m := After(s0, es).m;
            || (n in m.connections && m.connections[n].digest == m.started[n])
            || Has(m.failed, n, m.started[n])
            || exists w :: 0 <= w < |m.attempts| && UnderWay(m, w, n)
  {
    RunKeepsInv(s0, es);
    RunAccounts(s0, es);
    assert AccountedFor(After(s0, es).m, n);
  }

  // -- Nobody waits for another -------------------------------------------------

  /** What the session is at is a server of its last sync. */
  predicate LooksAtEnabled(t: Session) {
    t.look.Between? || (!t.resting && t.look.name in t.enabled)
  }

  /** A session begins so, whatever earlier ones left in its cache, and stays so. */
  lemma SessionBegins(cache: Option<map<Name, CacheEntry>>, published: set<(Name, Digest, Tools)>)
    requires cache.Some? ==>
               forall n :: n in cache.value ==> (n, cache.value[n].fingerprint, cache.value[n].tools) in published
    ensures var s := State(Shared(map[], map[], map[], map[], [], cache, [], published),
                           Session(true, map[], {}, map[], Between));
            Init(s) && LooksAtEnabled(s.t)
  {
  }

  lemma StepLooksAtEnabled(s: State, e: Event)
    requires LooksAtEnabled(s.t) && Enabled(s, e)
    ensures LooksAtEnabled(Apply(s, e).t)
  {
  }

  /**
   No thread waits for another: whatever the others are at, the session has a step, each
   attempt that has not finished has one, a connection may break and failures be collected.
   */
  lemma NobodyWaits(s: State)
    requires LooksAtEnabled(s.t)
    ensures exists e: Event :: !e.Worker? && !e.Break? && !e.TakeFailures? && Enabled(s, e)
    ensures forall w :: 0 <= w < |s.m.attempts| && !s.m.attempts[w].stage.Finished? ==>
              exists k: Work :: k.w == w && !k.Save? && Enabled(s, Worker(k))
    ensures forall n :: Enabled(s, Break(n))
    ensures Enabled(s, TakeFailures)
  {
    var e := NextOfSession(s);
    forall w | 0 <= w < |s.m.attempts| && !s.m.attempts[w].stage.Finished?
      ensures exists k: Work :: k.w == w && !k.Save? && Enabled(s, Worker(k))
    {
      var k := NextOfAttempt(s.m, w);
      assert Enabled(s, Worker(k));
    }
  }

  lemma NextOfSession(s: State) returns (e: Event)
    requires LooksAtEnabled(s.t)
    ensures !e.Worker? && !e.Break? && !e.TakeFailures? && Enabled(s, e)
  {
    var t := s.t;
    if t.resting {
      e := Sync(map[]);
    } else if t.look.Between? {
      if n :| n in t.enabled && n !in t.ensured {
        e := LookLive(n);
      } else if n :| n in t.enabled && n !in t.offered {
        e := OfferLive(n);
      } else {
        e := EndSync;
      }
    } else if t.look.SawLive? {
      e := LookFailed;
    } else if t.look.SawNotFailed? {
      e := LookPending;
    } else if t.look.Starting? {
      e := Start;
    } else {
      e := OfferCached(0);
    }
  }

  lemma NextOfAttempt(m: Shared, w: nat) returns (k: Work)
    requires w < |m.attempts| && !m.attempts[w].stage.Finished?
    ensures k.w == w && !k.Save? && CanWork(m, k)
  {
    var stage := m.attempts[w].stage;
    k := if stage.Opening? then OpenErr(w)
         else if stage.Opened? || stage.Broken? then Check(w)
         else if stage.Over? then Finish(w)
         else Publish(w);
  }

  // -- What two acquisitions allow ----------------------------------------------

  /**
   The code's two acquisitions allow the other case: a worker finds its definition
   current, a sync switches the server off, and the worker's insert leaves a live
   connection to a disabled server. No later `retire` that does not start the server
   again finds it, since `retire` goes by `started`.
   */
  lemma DisabledServerLeftConnected(s: State, w: nat, off: map<Name, Digest>) returns (es: seq<Event>)
    requires s.t.resting
    requires w < |s.m.attempts| && s.m.attempts[w].stage.Opened? && Current(s.m, s.m.attempts[w])
    requires s.m.attempts[w].name !in off
    ensures IsRun(s, es)
    ensures var m := After(s, es).m;
            var n := s.m.attempts[w].name;
            && After(s, es).t.enabled == off
            && n in m.connections
            && forall enabled :: n in Retired(m, enabled).connections
  {
    var s1 := Apply(s, Worker(Check(w)));
    var s2 := Apply(s1, Sync(off));
    es := Then(s, [], s, Worker(Check(w)));
    es := Then(s, es, s1, Sync(off));
    es := Then(s, es, s2, Worker(Publish(w)));
  }

  /** A first sync that starts a server, up to its offer. */
  lemma StartsServer(s0: State, n: Name, d: Digest) returns (es: seq<Event>, s: State)
    requires Init(s0)
    ensures IsRun(s0, es) && After(s0, es) == s
    ensures s.t == Session(false, map[n := d], {n}, map[], Between)
    ensures s.m == Spawned(s0.m, n, d)
  {
    var s1 := Apply(s0, Sync(map[n := d]));
    var s2 := Apply(s1, LookLive(n));
    var s3 := Apply(s2, LookFailed);
    var s4 := Apply(s3, LookPending);
    assert s1.m == s0.m;
    es := Then(s0, [], s0, Sync(map[n := d]));
    es := Then(s0, es, s1, LookLive(n));
    es := Then(s0, es, s2, LookFailed);
    es := Then(s0, es, s3, LookPending);
    es := Then(s0, es, s4, Start);
    s := Apply(s4, Start);
  }

  /** The same sync, finished. */
  lemma FirstSync(s0: State, n: Name, d: Digest, now: nat) returns (es: seq<Event>, s: State)
    requires Init(s0)
    ensures IsRun(s0, es) && After(s0, es) == s && s.t.resting && s.t.enabled == map[n := d] && s.t.look == Between
    ensures s.m == Spawned(s0.m, n, d) && s.m.attempts == [Attempt(n, d, Opening)]
  {
    var t: State;
    es, t := StartsServer(s0, n, d);
    var t1 := Apply(t, OfferLive(n));
    var t2 := Apply(t1, OfferCached(now));
    es := Then(s0, es, t, OfferLive(n));
    es := Then(s0, es, t1, OfferCached(now));
    es := Then(s0, es, t2, EndSync);
    s := Apply(t2, EndSync);
  }

  /** From the start of a session: the server of its first sync, switched off, stays connected. */
  lemma DisabledServerReached(s0: State, n: Name, d: Digest, tools: Tools, now: nat) returns (es: seq<Event>)
    requires Init(s0)
    ensures IsRun(s0, es)
    ensures var s := After(s0, es);
            && s.t.enabled == map[] && n in s.m.connections
            && forall enabled :: n in Retired(s.m, enabled).connections
  {
    var s: State;
    es, s := FirstSync(s0, n, d, now);
    es := Then(s0, es, s, Worker(OpenOk(0, tools)));
    var reached := Apply(s, Worker(OpenOk(0, tools)));
    var rest := DisabledServerLeftConnected(reached, 0, map[]);
    RunsJoin(s0, es, rest);
    es := es + rest;
  }

  // -- Failures --------------------------------------------------------------

  /** An attempt at `n` that passed its check under a definition no longer current: it cannot publish in time. */
  predicate StuckAt(m: Shared, w: nat, n: Name)
    requires w < |m.attempts|
  {
    var a := m.attempts[w];
    a.name == n && (a.stage.Approved? || a.stage.Blamed?) && !Current(m, a)
  }

  predicate Stuck(m: Shared, n: Name) {
    exists w :: 0 <= w < |m.attempts| && StuckAt(m, w, n)
  }

  /**
   The session is past the point where it would notice that `n` failed: it is about to
   start it, or it saw it down and not failed, and nothing holds it pending for good.
   */
  predicate PastNoticing(s: State, n: Name) {
    s.t.look == Starting(n) || (s.t.look == SawNotFailed(n, false) && !Stuck(s.m, n))
  }

  predicate SettledOn(s: State, n: Name, d: Digest) {
    Has(s.m.failed, n, d) && !PastNoticing(s, n)
  }

  predicate StaysDefined(es: seq<Event>, n: Name, d: Digest) {
    forall e :: e in es && e.Sync? ==> Has(e.enabled, n, d)
  }

  lemma {:induction false} InFlightCounts(attempts: seq<Attempt>, w: nat)
    requires w < |attempts| && !attempts[w].stage.Finished?
    ensures InFlight(attempts, attempts[w].name) > 0
  {
    if w > 0 {
      InFlightCounts(attempts[1..], w - 1);
    }
  }

  lemma StuckIsPending(m: Shared, n: Name)
    requires Counted(m) && Stuck(m, n)
    ensures n in m.pending
  {
    var w :| 0 <= w < |m.attempts| && StuckAt(m, w, n);
    InFlightCounts(m.attempts, w);
    assert CountedAt(m, n);
  }

  lemma StepStaysStuck(s: State, e: Event, n: Name)
    requires Enabled(s, e) && Timely(s, e) && Stuck(s.m, n) && Apply(s, e).m.started == s.m.started
    ensures Stuck(Apply(s, e).m, n)
  {
    var w :| 0 <= w < |s.m.attempts| && StuckAt(s.m, w, n);
    assert StuckAt(Apply(s, e).m, w, n);
  }

  lemma StepStaysSettled(s: State, e: Event, n: Name, d: Digest)
    requires Inv(s) && Enabled(s, e) && Timely(s, e) && SettledOn(s, n, d)
    requires e.Sync? ==> Has(e.enabled, n, d)
    ensures SettledOn(Apply(s, e), n, d)
    ensures |s.m.attempts| <= |Apply(s, e).m.attempts|
    ensures forall w :: |s.m.attempts| <= w < |Apply(s, e).m.attempts| ==> Apply(s, e).m.attempts[w].name != n
  {
    assert Has(s.m.started, n, d) && Has(s.t.enabled, n, d);
    if s.t.look == SawNotFailed(n, false) && !e.Sync? {
      StuckIsPending(s.m, n);
      if !e.LookPending? {
        StepStaysStuck(s, e, n);
      }
    }
  }

  lemma {:induction false} NamesStay(s: State, es: seq<Event>)
    requires IsTimelyRun(s, es)
    ensures |s.m.attempts| <= |After(s, es).m.attempts|
    ensures forall w :: 0 <= w < |s.m.attempts| ==>
              && After(s, es).m.attempts[w].name == s.m.attempts[w].name
              && After(s, es).m.attempts[w].digest == s.m.attempts[w].digest
    decreases |es|
  {
    if es == [] {
    } else {
      NamesStay(Apply(s, es[0]), es[1..]);
    }
  }

  /**
   A server that failed under a definition is not started again, however many syncs and
   other events follow, while each sync keeps that definition enabled.
   */
  lemma {:induction false} FailedNotRestarted(s: State, es: seq<Event>, n: Name, d: Digest)
    requires Inv(s) && IsTimelyRun(s, es) && SettledOn(s, n, d) && StaysDefined(es, n, d)
    ensures var m := After(s, es).m;
            && Has(m.failed, n, d)
            && |s.m.attempts| <= |m.attempts|
            && forall w :: |s.m.attempts| <= w < |m.attempts| ==> m.attempts[w].name != n
    decreases |es|
  {
    if es == [] {
    } else {
      var s1 := Apply(s, es[0]);
      assert es[0] in es;
      StepStaysSettled(s, es[0], n, d);
      StepKeepsInv(s, es[0]);
      FailedNotRestarted(s1, es[1..], n, d);
      NamesStay(s1, es[1..]);
    }
  }

  /** What an attempt has still to go through. */
  function Rank(stage: Stage): nat {
    match stage
    case Opening => 4
    case Opened(_) => 3
    case Broken => 3
    case Approved(_) => 2
    case Blamed => 2
    case Over => 1
    case Finished => 0
  }

  function Left(attempts: seq<Attempt>, n: Name): nat {
    if attempts == [] then 0
    else (if attempts[0].name == n then Rank(attempts[0].stage) else 0) + Left(attempts[1..], n)
  }

  lemma {:induction false} LeftUpdate(attempts: seq<Attempt>, w: nat, a: Attempt)
    requires w < |attempts| && a.name == attempts[w].name
    ensures Left(attempts[w := a], a.name) == Left(attempts, a.name) + Rank(a.stage) - Rank(attempts[w].stage)
  {
    if w > 0 {
      assert attempts[w := a][1..] == attempts[1..][w - 1 := a];
      LeftUpdate(attempts[1..], w - 1, a);
    }
  }

  lemma {:induction false} SomeUnfinished(attempts: seq<Attempt>, n: Name) returns (w: nat)
    requires InFlight(attempts, n) > 0
    ensures w < |attempts| && attempts[w].name == n && !attempts[w].stage.Finished?
  {
    if attempts[0].name == n && !attempts[0].stage.Finished? {
      w := 0;
    } else {
      var v := SomeUnfinished(attempts[1..], n);
      w := v + 1;
    }
  }

  /** A worker's next step, in time, when it is not stuck. */
  lemma NextWork(m: Shared, w: nat, n: Name) returns (k: Work)
    requires w < |m.attempts| && m.attempts[w].name == n && !m.attempts[w].stage.Finished? && !StuckAt(m, w, n)
    ensures k.w == w && CanWork(m, k) && (k.Publish? ==> Current(m, m.attempts[w]))
    ensures var m' := Worked(m, k);
            && m'.started == m.started && |m'.attempts| == |m.attempts| && !StuckAt(m', w, n)
            && m'.attempts == m.attempts[w := m'.attempts[w]] && m'.attempts[w].name == n
            && Rank(m'.attempts[w].stage) < Rank(m.attempts[w].stage)
            && (m'.failed == m.failed || (Current(m, m.attempts[w]) && m'.failed == m.failed[n := m.attempts[w].digest]))
  {
    match m.attempts[w].stage
    case Opening => k := OpenErr(w);
    case Opened(_) => k := Check(w);
    case Broken => k := Check(w);
    case Approved(_) => k := Publish(w);
    case Blamed => k := Publish(w);
    case Over => k := Finish(w);
  }

  function ToStart(s: State, n: Name): nat {
    if s.t.look == Starting(n) then 0 else 1 + Left(s.m.attempts, n)
  }

  predicate NoSync(es: seq<Event>) {
    forall e :: e in es ==> !e.Sync?
  }

  /** `n` was started once more since there were `count` attempts. */
  predicate StartedAgain(m: Shared, count: nat, n: Name, d: Digest) {
    exists w :: count <= w < |m.attempts| && m.attempts[w].name == n && m.attempts[w].digest == d
  }

  lemma Unstuck(m: Shared, m': Shared, w: nat, n: Name)
    requires !Stuck(m, n) && w < |m.attempts| == |m'.attempts| && m'.started == m.started
    requires m'.attempts == m.attempts[w := m'.attempts[w]] && !StuckAt(m', w, n)
    ensures !Stuck(m', n)
  {
    forall v | 0 <= v < |m'.attempts|
      ensures !StuckAt(m', v, n)
    {
      assert !StuckAt(m, v, n);
    }
  }

  /** Past noticing, the session starts the failed server as soon as no worker holds it pending. */
  lemma NextToStart(s: State, n: Name, d: Digest) returns (e: Event)
    requires Inv(s) && Has(s.m.failed, n, d) && s.t.look == SawNotFailed(n, false) && !Stuck(s.m, n)
    ensures Enabled(s, e) && Timely(s, e) && !e.Sync?
    ensures var s' := Apply(s, e);
            && Has(s'.m.failed, n, d) && PastNoticing(s', n) && |s'.m.attempts| == |s.m.attempts|
            && ToStart(s', n) < ToStart(s, n)
  {
    assert CountedAt(s.m, n);
    assert Has(s.m.started, n, d) && Has(s.t.enabled, n, d);
    if n !in s.m.pending {
      e := LookPending;
    } else {
      var w := SomeUnfinished(s.m.attempts, n);
      assert !StuckAt(s.m, w, n);
      var k := NextWork(s.m, w, n);
      var m' := Worked(s.m, k);
      Unstuck(s.m, m', w, n);
      LeftUpdate(s.m.attempts, w, m'.attempts[w]);
      e := Worker(k);
    }
  }

  lemma {:induction false} RestartRun(s: State, n: Name, d: Digest) returns (es: seq<Event>)
    requires Inv(s) && Has(s.m.failed, n, d) && PastNoticing(s, n)
    ensures IsTimelyRun(s, es) && NoSync(es) && StartedAgain(After(s, es).m, |s.m.attempts|, n, d)
    decreases ToStart(s, n)
  {
    assert Has(s.m.started, n, d) && Has(s.t.enabled, n, d);
    if s.t.look == Starting(n) {
      es := [Start];
      assert es[1..] == [];
      assert After(s, es).m.attempts[|s.m.attempts|] == Attempt(n, d, Opening);
    } else {
      var e := NextToStart(s, n, d);
      StepKeepsInv(s, e);
      var rest := RestartRun(Apply(s, e), n, d);
      es := [e] + rest;
      assert es[1..] == rest;
    }
  }

  /**
   Exactly when a server that failed may be started once more under the same definition:
   when the session is past noticing the failure. Otherwise no timely run starts it before
   the next sync, nor, by `FailedNotRestarted`, after any number of syncs that keep it.
   */
  lemma FailedRestartedIff(s: State, n: Name, d: Digest)
    requires Inv(s) && Has(s.m.failed, n, d)
    ensures (exists es :: IsTimelyRun(s, es) && NoSync(es) && StartedAgain(After(s, es).m, |s.m.attempts|, n, d)) <==>
            PastNoticing(s, n)
  {
    if PastNoticing(s, n) {
      var es := RestartRun(s, n, d);
    } else {
      forall es | IsTimelyRun(s, es) && NoSync(es)
        ensures !StartedAgain(After(s, es).m, |s.m.attempts|, n, d)
      {
        FailedNotRestarted(s, es, n, d);
      }
    }
  }

  /**
   How the exception comes about: a session has already read `failed` when the server's
   failure lands, and starts it once more.
   */
  lemma FailureMissedOnce(s: State, w: nat, n: Name) returns (es: seq<Event>)
    requires Counted(s.m) && InFlight(s.m.attempts, n) == 1
    requires w < |s.m.attempts| && s.m.attempts[w].stage.Blamed? && s.m.attempts[w].name == n
    requires Current(s.m, s.m.attempts[w])
    requires s.t.look == SawNotFailed(n, false) && n in s.t.enabled
    ensures IsRun(s, es)
    ensures var m := After(s, es).m;
            && Has(m.failed, n, s.m.attempts[w].digest)
            && StartedAgain(m, |s.m.attempts|, n, s.t.enabled[n])
  {
    assert CountedAt(s.m, n);
    var s1 := Apply(s, Worker(Publish(w)));
    var s2 := Apply(s1, Worker(Finish(w)));
    assert n !in s2.m.pending;
    var s3 := Apply(s2, LookPending);
    es := Then(s, [], s, Worker(Publish(w)));
    es := Then(s, es, s1, Worker(Finish(w)));
    es := Then(s, es, s2, LookPending);
    es := Then(s, es, s3, Start);
    assert After(s, es).m.attempts[|s.m.attempts|] == Attempt(n, s.t.enabled[n], Opening);
  }

  /** From the start of a session: a second sync that misses the failure of the first one's attempt. */
  lemma MissedFailureReached(s0: State, n: Name, d: Digest, now: nat) returns (es: seq<Event>)
    requires Init(s0)
    ensures IsRun(s0, es)
    ensures var m := After(s0, es).m; Has(m.failed, n, d) && StartedAgain(m, 1, n, d)
  {
    var s: State;
    es, s := FirstSync(s0, n, d, now);
    var s1 := Apply(s, Worker(OpenErr(0)));
    var s2 := Apply(s1, Worker(Check(0)));
    var s3 := Apply(s2, Sync(map[n := d]));
    var s4 := Apply(s3, LookLive(n));
    var s5 := Apply(s4, LookFailed);
    assert s3.m == s2.m;
    es := Then(s0, es, s, Worker(OpenErr(0)));
    es := Then(s0, es, s1, Worker(Check(0)));
    es := Then(s0, es, s2, Sync(map[n := d]));
    es := Then(s0, es, s3, LookLive(n));
    es := Then(s0, es, s4, LookFailed);
    OneInFlight(s5.m, n, d);
    var rest := FailureMissedOnce(s5, 0, n);
    RunsJoin(s0, es, rest);
    es := es + rest;
  }

  lemma OneInFlight(m: Shared, n: Name, d: Digest)
    requires m.attempts == [Attempt(n, d, Blamed)] && m.pending == map[n := 1]
    ensures Counted(m) && InFlight(m.attempts, n) == 1
  {
    assert m.attempts[1..] == [];
    forall k
      ensures CountedAt(m, k)
    {
    }
  }

  /** Nothing is filed under `n`, and this sync has not come to it. */
  predicate Untried(s: State, n: Name) {
    n !in s.m.started && n !in s.m.failed && n !in s.m.connections && n !in s.t.ensured
  }

  ghost predicate Tried(s: State, n: Name, from: nat) {
    exists w :: from <= w < |s.m.attempts| && s.m.attempts[w].name == n && Has(s.t.enabled, n, s.m.attempts[w].digest)
  }

  lemma UntriedStep(s: State, e: Event, n: Name)
    requires Agrees(s) && Enabled(s, e) && Timely(s, e) && !e.Sync? && n in s.t.enabled && Untried(s, n)
    ensures Untried(Apply(s, e), n) || Tried(Apply(s, e), n, |s.m.attempts|)
  {
    if e.Start? && s.t.look.name == n {
      var m' := Apply(s, e).m;
      assert m'.attempts[|s.m.attempts|] == Attempt(n, s.t.enabled[n], Opening);
    }
  }

  lemma TriedStep(s: State, e: Event, n: Name, from: nat)
    requires Enabled(s, e) && !e.Sync? && Tried(s, n, from)
    ensures Tried(Apply(s, e), n, from)
  {
    var w :| from <= w < |s.m.attempts| && s.m.attempts[w].name == n && Has(s.t.enabled, n, s.m.attempts[w].digest);
    var s' := Apply(s, e);
    assert s'.m.attempts[w].name == n && Has(s'.t.enabled, n, s'.m.attempts[w].digest);
  }

  lemma {:induction false} UntriedUntilTried(s: State, es: seq<Event>, n: Name, from: nat)
    requires Agrees(s) && Truthful(s) && IsTimelyRun(s, es) && n in s.t.enabled
    requires forall e :: e in es ==> !e.Sync?
    requires from <= |s.m.attempts| && (Untried(s, n) || Tried(s, n, from))
    ensures var s' := After(s, es);
            s'.t.enabled == s.t.enabled && Agrees(s') && (Untried(s', n) || Tried(s', n, from))
    decreases |es|
  {
    if es == [] {
    } else {
      var e := es[0];
      assert e in es;
      StepKeepsAgrees(s, e);
      StepKeepsTruthful(s, e);
      if Tried(s, n, from) {
        TriedStep(s, e, n, from);
      } else {
        UntriedStep(s, e, n);
      }
      UntriedUntilTried(Apply(s, e), es[1..], n, from);
    }
  }

  /**
   A definition other than the one last started under is tried: by the time the sync that
   enables it is past the server, an attempt under it has been started and is filed as
   such, whether the server had failed, was up, or is new. So a definition that failed is
   tried again once another one, or none, was enabled in between.
   */
  lemma ChangedDefinitionIsTried(s: State, enabled: map<Name, Digest>, es: seq<Event>, n: Name)
    requires Inv(s) && Enabled(s, Sync(enabled)) && n in enabled && !Has(s.m.started, n, enabled[n])
    requires IsTimelyRun(Apply(s, Sync(enabled)), es) && forall e :: e in es ==> !e.Sync?
    requires n in After(Apply(s, Sync(enabled)), es).t.ensured
    ensures var s' := After(Apply(s, Sync(enabled)), es);
            && Has(s'.m.started, n, enabled[n])
            && exists w :: |s.m.attempts| <= w < |s'.m.attempts| &&
                 s'.m.attempts[w].name == n && s'.m.attempts[w].digest == enabled[n]
  {
    var s1 := Apply(s, Sync(enabled));
    StepKeepsInv(s, Sync(enabled));
    assert Untried(s1, n);
    UntriedUntilTried(s1, es, n, |s.m.attempts|);
  }

  // -- The functions as written ----------------------------------------------

  /** Whether `ensure` starts a server, on what it reads when nothing else runs. */
  predicate MustStart(m: Shared, n: Name, digest: Digest) {
    && !Has(m.failed, n, digest)
    && !(Has(m.started, n, digest) && (n in m.connections || n in m.pending))
  }

  /** What `tools_for` answers for one server. */
  function ToolsOf(m: Shared, n: Name, digest: Digest, now: nat): Tools {
    if n in m.connections then m.connections[n].tools
    else if n in m.pending then Cached(m.cache, n, digest, now) else []
  }

  /** What ensuring one server makes of what the threads share. */
  function Ensured(m: Shared, n: Name, digest: Digest): Shared {
    if MustStart(m, n, digest) then Spawned(m, n, digest) else m
  }

  function AllEnsured(m: Shared, servers: seq<Name>, enabled: map<Name, Digest>): Shared
    requires forall n :: n in servers ==> n in enabled
  {
    if servers == [] then m
    else
      var n := servers[|servers| - 1];
      Ensured(AllEnsured(m, servers[..|servers| - 1], enabled), n, enabled[n])
  }

  /** The servers a sync starts: neither failed as defined, nor started as defined and up or connecting. */
  function Due(m: Shared, servers: seq<Name>, enabled: map<Name, Digest>): seq<Name>
    requires forall n :: n in servers ==> n in enabled
  {
    if servers == [] then []
    else
      var n := servers[|servers| - 1];
      Due(m, servers[..|servers| - 1], enabled) +
      if Has(m.failed, n, enabled[n]) || (Has(m.started, n, enabled[n]) && (n in m.connections || n in m.pending))
      then [] else [n]
  }

  function Openings(due: seq<Name>, enabled: map<Name, Digest>): seq<Attempt>
    requires forall n :: n in due ==> n in enabled
  {
    if due == [] then []
    else
      var n := due[|due| - 1];
      Openings(due[..|due| - 1], enabled) + [Attempt(n, enabled[n], Opening)]
  }

  predicate Distinct(servers: seq<Name>) {
    forall i, j :: 0 <= i < j < |servers| ==> servers[i] != servers[j]
  }

  lemma {:induction false} DueAmong(m: Shared, servers: seq<Name>, enabled: map<Name, Digest>)
    requires forall n :: n in servers ==> n in enabled
    ensures forall n :: n in Due(m, servers, enabled) <==>
              n in servers && !Has(m.failed, n, enabled[n])
              && !(Has(m.started, n, enabled[n]) && (n in m.connections || n in m.pending))
  {
    if servers == [] {
    } else {
      var n := servers[|servers| - 1];
      DueAmong(m, servers[..|servers| - 1], enabled);
      assert servers == servers[..|servers| - 1] + [n];
    }
  }

  ghost predicate PendingAfter(before: map<Name, nat>, after: map<Name, nat>, due: seq<Name>) {
    && (forall n :: Count(after, n) == Count(before, n) + if n in due then 1 else 0)
    && (forall n :: n in after <==> n in before || n in due)
  }

  ghost predicate StartedAfter(before: map<Name, Digest>, after: map<Name, Digest>, due: seq<Name>,
                               enabled: map<Name, Digest>)
    requires forall n :: n in due ==> n in enabled
  {
    && (forall n :: n in after <==> n in before || n in due)
    && (forall n :: n in after ==> after[n] == if n in due then enabled[n] else before[n])
  }

  /** What starting the servers in `due` comes to, and nothing beside. */
  ghost predicate StartedAll(m: Shared, m': Shared, due: seq<Name>, enabled: map<Name, Digest>) {
    && (forall n :: n in due ==> n in enabled)
    && m'.attempts == m.attempts + Openings(due, enabled)
    && PendingAfter(m.pending, m'.pending, due)
    && StartedAfter(m.started, m'.started, due, enabled)
    && m'.connections == m.connections && m'.failed == m.failed && m'.failures == m.failures
    && m'.cache == m.cache && m'.published == m.published
  }

  lemma InMore(due: seq<Name>, n: Name)
    ensures forall k :: k in due + [n] <==> k in due || k == n
  {
  }

  lemma PendingOneMore(before: map<Name, nat>, after: map<Name, nat>, due: seq<Name>, n: Name)
    requires PendingAfter(before, after, due) && n !in due
    ensures PendingAfter(before, PendingStart(after, n), due + [n])
  {
    InMore(due, n);
  }

  lemma StartsOneMore(before: map<Name, Digest>, after: map<Name, Digest>, due: seq<Name>,
                      enabled: map<Name, Digest>, n: Name)
    requires n in enabled && (forall k :: k in due ==> k in enabled) && n !in due
    requires StartedAfter(before, after, due, enabled)
    ensures (forall k :: k in due + [n] ==> k in enabled)
    ensures StartedAfter(before, after[n := enabled[n]], due + [n], enabled)
  {
    InMore(due, n);
  }

  lemma StartedOneMore(m: Shared, m': Shared, due: seq<Name>, enabled: map<Name, Digest>, n: Name)
    requires StartedAll(m, m', due, enabled) && n in enabled && n !in due
    ensures StartedAll(m, Spawned(m', n, enabled[n]), due + [n], enabled)
  {
    OpeningsGrow(due, enabled, n);
    PendingOneMore(m.pending, m'.pending, due, n);
    StartsOneMore(m.started, m'.started, due, enabled, n);
    var opening := [Attempt(n, enabled[n], Opening)];
    assert m.attempts + (Openings(due, enabled) + opening) == m.attempts + Openings(due, enabled) + opening;
  }

  lemma OpeningsGrow(due: seq<Name>, enabled: map<Name, Digest>, n: Name)
    requires n in enabled && forall k :: k in due ==> k in enabled
    ensures Openings(due + [n], enabled) == Openings(due, enabled) + [Attempt(n, enabled[n], Opening)]
  {
    var more := due + [n];
    assert more[..|due|] == due;
  }

  /** Ensuring in turn starts exactly the servers due at the outset, once each and in order. */
  lemma {:induction false} EnsuringStartsDue(m: Shared, servers: seq<Name>, enabled: map<Name, Digest>)
    requires Distinct(servers) && forall n :: n in servers ==> n in enabled
    ensures StartedAll(m, AllEnsured(m, servers, enabled), Due(m, servers, enabled), enabled)
  {
    if servers == [] {
      assert m.attempts + [] == m.attempts;
    } else {
      var rest, n := servers[..|servers| - 1], servers[|servers| - 1];
      var m', due := AllEnsured(m, rest, enabled), Due(m, rest, enabled);
      EnsuringStartsDue(m, rest, enabled);
      DueAmong(m, rest, enabled);
      assert n !in rest && n !in due;
      EnsuredWhenDue(m, m', due, enabled, n);
    }
  }

  lemma EnsuredWhenDue(m: Shared, m': Shared, due: seq<Name>, enabled: map<Name, Digest>, n: Name)
    requires StartedAll(m, m', due, enabled) && n in enabled && n !in due
    ensures var d := enabled[n];
            var left := Has(m.failed, n, d) || (Has(m.started, n, d) && (n in m.connections || n in m.pending));
            StartedAll(m, Ensured(m', n, d), due + (if left then [] else [n]), enabled)
  {
    StartedOneMore(m, m', due, enabled, n);
    assert due + [] == due;
  }

  /** Retiring leaves a server due that was, and none else, as it goes by the same definitions. */
  lemma {:induction false} RetireKeepsDue(m: Shared, servers: seq<Name>, enabled: map<Name, Digest>)
    requires SharedAgrees(m) && forall n :: n in servers ==> n in enabled
    ensures Due(Retired(m, enabled), servers, enabled) == Due(m, servers, enabled)
  {
    if servers == [] {
    } else {
      RetireKeepsDue(m, servers[..|servers| - 1], enabled);
    }
  }

  function ToolsOfAll(m: Shared, servers: seq<Name>, enabled: map<Name, Digest>, now: nat): Tools
    requires forall n :: n in servers ==> n in enabled
  {
    if servers == [] then []
    else
      var n := servers[|servers| - 1];
      ToolsOfAll(m, servers[..|servers| - 1], enabled, now) + ToolsOf(m, n, enabled[n], now)
  }

  /** The tools of several servers are those of each, in the order of the servers. */
  lemma ToolsOfOneMore(m: Shared, servers: seq<Name>, n: Name, enabled: map<Name, Digest>, now: nat)
    requires n in enabled && forall k :: k in servers ==> k in enabled
    ensures ToolsOfAll(m, [], enabled, now) == []
    ensures ToolsOfAll(m, servers + [n], enabled, now) ==
            ToolsOfAll(m, servers, enabled, now) + ToolsOf(m, n, enabled[n], now)
  {
    assert (servers + [n])[..|servers|] == servers;
  }

  lemma RemoveOneMore<V>(m: map<Name, V>, stale: set<Name>, todo: set<Name>, n: Name)
    requires n in todo && todo <= stale
    ensures m - (stale - todo) - {n} == m - (stale - (todo - {n}))
  {
  }

  lemma StartedIsEnabled(m: Shared, servers: seq<Name>, enabled: map<Name, Digest>)
    requires Distinct(servers) && forall n :: n in servers <==> n in enabled
    requires SharedAgrees(m) && forall n :: n in m.started ==> Has(enabled, n, m.started[n])
    ensures var m' := AllEnsured(m, servers, enabled); m'.started == enabled && SharedAgrees(m')
  {
    EnsuringStartsDue(m, servers, enabled);
    DueAmong(m, servers, enabled);
    AllStarted(m, AllEnsured(m, servers, enabled), Due(m, servers, enabled), enabled);
  }

  lemma AllStarted(m: Shared, m': Shared, due: seq<Name>, enabled: map<Name, Digest>)
    requires SharedAgrees(m) && forall n :: n in m.started ==> Has(enabled, n, m.started[n])
    requires StartedAll(m, m', due, enabled)
    requires forall n :: n in enabled && n !in due ==> n in m.started || Has(m.failed, n, enabled[n])
    ensures m'.started == enabled && SharedAgrees(m')
  {
    forall n | n in enabled
      ensures Has(m'.started, n, enabled[n])
    {
      assert Has(m.failed, n, enabled[n]) ==> n in m.started;
    }
  }

  /** What a sync leaves of what the threads share, when it starts the servers in `due`. */
  ghost predicate SyncedTo(m: Shared, m': Shared, due: seq<Name>, enabled: map<Name, Digest>) {
    && SharedAgrees(m') && m'.started == enabled
    && m'.connections == Retired(m, enabled).connections && m'.failed == Retired(m, enabled).failed
    && (forall n :: n in due ==> n in enabled)
    && m'.attempts == m.attempts + Openings(due, enabled)
    && forall n :: Count(m'.pending, n) == Count(m.pending, n) + if n in due then 1 else 0
  }

  lemma StartedIsSynced(m: Shared, m': Shared, due: seq<Name>, enabled: map<Name, Digest>)
    requires StartedAll(Retired(m, enabled), m', due, enabled) && SharedAgrees(m') && m'.started == enabled
    ensures SyncedTo(m, m', due, enabled)
  {
  }

  lemma SyncComesTo(m: Shared, servers: seq<Name>, enabled: map<Name, Digest>)
    requires Distinct(servers) && forall n :: n in servers <==> n in enabled
    requires SharedAgrees(m)
    ensures SyncedTo(m, AllEnsured(Retired(m, enabled), servers, enabled), Due(m, servers, enabled), enabled)
  {
    RetireKeepsDue(m, servers, enabled);
    EnsuringStartsDue(Retired(m, enabled), servers, enabled);
    StartedIsEnabled(Retired(m, enabled), servers, enabled);
    StartedIsSynced(m, AllEnsured(Retired(m, enabled), servers, enabled), Due(m, servers, enabled), enabled);
  }

  /** The session's side of the connector; workers are the machine's. */
  class McpConnector {
    var connections: map<Name, Connection>
    var pending: map<Name, nat>
    var started: map<Name, Digest>
    var failed: map<Name, Digest>
    var attempts: seq<Attempt>
    var cache: Option<map<Name, CacheEntry>>

    ghost function M(): Shared
      reads this
    {
      Shared(connections, pending, started, failed, [], cache, attempts, {})
    }

    constructor (cache: Option<map<Name, CacheEntry>>)
      ensures M() == Shared(map[], map[], map[], map[], [], cache, [], {})
    {
      connections, pending, started, failed, attempts := map[], map[], map[], map[], [];
      this.cache := cache;
    }

    method Retire(enabled: map<Name, Digest>)
      modifies this`started, this`failed, this`connections
      ensures M() == Retired(old(M()), enabled)
    {
      var stale := Stale(started, enabled);
      var todo := stale;
      while todo != {}
        invariant todo <= stale
        invariant started == old(started) - (stale - todo)
        invariant failed == old(failed) - (stale - todo)
        invariant connections == old(connections) - (stale - todo)
        decreases todo
      {
        var name :| name in todo;
        RemoveOneMore(old(started), stale, todo, name);
        RemoveOneMore(old(failed), stale, todo, name);
        RemoveOneMore(old(connections), stale, todo, name);
        started := started - {name};
        failed := failed - {name};
        connections := connections - {name};
        todo := todo - {name};
      }
    }

    method Ensure(name: Name, digest: Digest)
      modifies this`started, this`pending, this`attempts
      ensures M() == Ensured(old(M()), name, digest)
    {
      var live := name in connections;
      if Has(failed, name, digest) || (Has(started, name, digest) && (live || name in pending)) {
        return;
      }
      started := started[name := digest];
      pending := PendingStart(pending, name);
      attempts := attempts + [Attempt(name, digest, Opening)];
    }

    method ToolsFor(name: Name, digest: Digest, now: nat) returns (tools: Tools)
      ensures tools == ToolsOf(M(), name, digest, now)
    {
      if name in connections {
        return connections[name].tools;
      }
      if name in pending {
        return Cached(cache, name, digest, now);
      }
      return [];
    }

    method ToolsForAll(servers: seq<Name>, enabled: map<Name, Digest>, now: nat) returns (tools: Tools)
      requires forall n :: n in servers ==> n in enabled
      ensures tools == ToolsOfAll(M(), servers, enabled, now)
    {
      tools := [];
      for i := 0 to |servers|
        invariant tools == ToolsOfAll(M(), servers[..i], enabled, now)
      {
        assert servers[..i + 1][..i] == servers[..i];
        var more := ToolsFor(servers[i], enabled[servers[i]], now);
        tools := tools + more;
      }
      assert servers[..|servers|] == servers;
    }

    method EnsureAll(servers: seq<Name>, enabled: map<Name, Digest>)
      requires forall n :: n in servers ==> n in enabled
      modifies this`started, this`pending, this`attempts
      ensures M() == AllEnsured(old(M()), servers, enabled)
    {
      for i := 0 to |servers|
        invariant M() == AllEnsured(old(M()), servers[..i], enabled)
      {
        assert servers[..i + 1][..i] == servers[..i];
        Ensure(servers[i], enabled[servers[i]]);
      }
      assert servers[..|servers|] == servers;
    }

    /**
     A whole sync. Afterwards exactly the enabled servers are filed as started, each under
     its current definition, and the live connections and the failures kept are the
     earlier ones that still agree with it. A worker is started, and one more attempt is
     pending, for exactly the servers that had not failed as defined and were not started
     as defined and up or connecting, in their order.
     */
    method Sync(servers: seq<Name>, enabled: map<Name, Digest>, now: nat) returns (tools: Tools)
      requires Distinct(servers) && forall n :: n in servers <==> n in enabled
      requires SharedAgrees(M())
      modifies this
      ensures M() == AllEnsured(Retired(old(M()), enabled), servers, enabled)
      ensures SharedAgrees(M()) && started == enabled
      ensures forall n :: n in connections <==> n in old(connections) && Has(enabled, n, old(connections)[n].digest)
      ensures forall n :: n in connections ==> connections[n] == old(connections)[n]
      ensures forall n, d :: Has(failed, n, d) <==> Has(old(failed), n, d) && Has(enabled, n, d)
      ensures var due := Due(old(M()), servers, enabled);
              && (forall n :: n in due ==> n in servers)
              && attempts == old(attempts) + Openings(due, enabled)
              && forall n :: Count(pending, n) == Count(old(pending), n) + if n in due then 1 else 0
      ensures tools == ToolsOfAll(M(), servers, enabled, now)
    {
      SyncComesTo(M(), servers, enabled);
      Retire(enabled);
      EnsureAll(servers, enabled);
      tools := ToolsForAll(servers, enabled, now);
    }
  }

  /**
   `ensure` as written is the session's own steps, uninterrupted: three looks at most, and
   a start exactly when it is due.
   */
  lemma EnsureIsARun(s: State, n: Name) returns (es: seq<Event>)
    requires !s.t.resting && s.t.look == Between && n in s.t.enabled && n !in s.t.ensured
    ensures IsRun(s, es)
    ensures var d := s.t.enabled[n];
            && After(s, es).m == (if MustStart(s.m, n, d) then Spawned(s.m, n, d) else s.m)
            && After(s, es).t == s.t.(ensured := s.t.ensured + {n})
  {
    var s1 := Apply(s, LookLive(n));
    es := Then(s, [], s, LookLive(n));
    var s2 := Apply(s1, LookFailed);
    es := Then(s, es, s1, LookFailed);
    if s2.t.look != Between {
      var s3 := Apply(s2, LookPending);
      es := Then(s, es, s2, LookPending);
      if s3.t.look != Between {
        es := Then(s, es, s3, Start);
      }
    }
  }

  /**
   `tools_for` as written is the session's own steps, uninterrupted, and what it offers was
   published under the server's current definition.
   */
  lemma OfferIsARun(s: State, n: Name, now: nat) returns (es: seq<Event>)
    requires Inv(s) && !s.t.resting && s.t.look == Between && s.t.enabled.Keys <= s.t.ensured
    requires n in s.t.enabled && n !in s.t.offered
    ensures IsRun(s, es)
    ensures var tools := ToolsOf(s.m, n, s.t.enabled[n], now);
            && After(s, es) == s.(t := s.t.(offered := s.t.offered[n := tools]))
            && (tools == [] || (n, s.t.enabled[n], tools) in s.m.published)
  {
    var s1 := Apply(s, OfferLive(n));
    es := Then(s, [], s, OfferLive(n));
    if n in s.m.connections {
      assert Has(s.m.started, n, s.m.connections[n].digest);
    } else {
      es := Then(s, es, s1, OfferCached(now));
    }
  }

  /**
   What a server that is not up is offered: while an attempt is pending, what is filed under
   its current definition and is less than thirty days old, and otherwise nothing. One that
   is up offers its own tools.
   */
  lemma OfferedWhen(m: Shared, n: Name, digest: Digest, now: nat)
    ensures n in m.connections ==> ToolsOf(m, n, digest, now) == m.connections[n].tools
    ensures n !in m.connections ==>
              ToolsOf(m, n, digest, now) ==
              if n in m.pending && m.cache.Some? && n in m.cache.value
                 && m.cache.value[n].fingerprint == digest
                 && now < m.cache.value[n].savedMs + 30 * 24 * 60 * 60 * 1000
              then m.cache.value[n].tools else []
  {
  }

  /** What a worker saves is what the session offers while the server connects again. */
  lemma SavedIsOffered(m: Shared, w: nat, at: nat, now: nat)
    requires CanWork(m, Save(w, at)) && now < at + 30 * 24 * 60 * 60 * 1000
    ensures var a, m' := m.attempts[w], Worked(m, Save(w, at));
            a.name in m.pending && a.name !in m.connections ==> ToolsOf(m', a.name, a.digest, now) == a.stage.tools
  {
  }
}
