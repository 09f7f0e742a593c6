/**
 The stored-login protocol of `provider.rs`.

 Any number of processes share one credential file. Renewals, fresh sign-ins and
 project writes each hold one file lock over their read and their write; the lock
 and every read, exchange and write are separate steps here, so that all
 interleavings are runs. `auth set` and `auth remove` do not take the lock: they are
 the step `Clobber`.
 */
module Renewal {
  import opened Wrappers

  type Token = nat
  type Pid = nat

  const U64_MAX: nat := 0xFFFF_FFFF_FFFF_FFFF
  const EXPIRY_MARGIN: nat := 300

  datatype TokenSet = TokenSet(
    access: Token,
    refresh: Option<Token>,
    expiresAt: Option<nat>,
    idToken: Option<nat>,
    project: Option<string>)

  function SaturatingAdd(a: nat, b: nat): nat {
    if a + b > U64_MAX then U64_MAX else a + b
  }

  /** Whether the login is to be renewed before it is used. */
  predicate IsExpired(t: TokenSet, now: nat) {
    t.expiresAt.Some? && SaturatingAdd(now, EXPIRY_MARGIN) >= t.expiresAt.value
  }

  /** What the issuer answers to a granted exchange; fields it may leave out are options. */
  datatype Grant = Grant(access: Token, refresh: Option<Token>, expiresAt: Option<nat>, idToken: Option<nat>)

  /** The renewed login: what the answer left out is carried forward from `base`. */
  function Renewed(base: TokenSet, g: Grant): TokenSet {
    TokenSet(
      g.access,
      if g.refresh.Some? then g.refresh else base.refresh,
      g.expiresAt,
      if g.idToken.Some? then g.idToken else base.idToken,
      base.project)
  }

  /**
   The issuer: the refresh tokens it has issued, and those spent by an exchange. `family`
   records under which sign-in (named by its first access token) each access token was
   granted; `grants` lists the granted exchanges in order. No client reads either.
   */
  datatype Issuer = Issuer(issued: set<Token>, spent: set<Token>, family: map<Token, Token>, grants: seq<TokenSet>)

  /** A grant the issuer may make: for an unspent token, with a new access token; a rotated one is new. */
  predicate MayGrant(i: Issuer, base: TokenSet, g: Grant) {
    && base.refresh.Some?
    && base.refresh.value !in i.spent
    && g.access !in i.family
    && (g.refresh.Some? && g.refresh != base.refresh ==> g.refresh.value !in i.issued)
  }

  function Family(i: Issuer, t: TokenSet): Option<Token> {
    if t.access in i.family then Some(i.family[t.access]) else None
  }

  function Granted(i: Issuer, base: TokenSet, g: Grant): Issuer
    requires MayGrant(i, base, g)
  {
    var r := Renewed(base, g);
    Issuer(
      i.issued + Secrets(g.refresh),
      if r.refresh == base.refresh then i.spent else i.spent + {base.refresh.value},
      if base.access in i.family then i.family[g.access := i.family[base.access]] else i.family,
      i.grants + [r])
  }

  function Secrets(t: Option<Token>): set<Token> {
    if t.Some? then {t.value} else {}
  }

  datatype Job = Renew(stale: TokenSet) | SignIn(login: TokenSet) | Project(id: string)

  datatype Outcome = Usable(login: TokenSet) | Stored | Failed

  /** Where one process is. Every phase from `Holding` on, save `Done`, holds the lock. */
  datatype Phase =
    | Idle
    | Waiting(job: Job)
    | Holding(job: Job)
    | Chosen(tokens: TokenSet, found: bool)
    | Exchanged(base: TokenSet, renewed: TokenSet)
    | Projecting(tokens: TokenSet)
    | Returning(outcome: Outcome)
    | Done(outcome: Outcome)
  {
    predicate Locked() { Holding? || Chosen? || Exchanged? || Projecting? || Returning? }
  }

  datatype State = State(file: Option<TokenSet>, lock: Option<Pid>, procs: seq<Phase>, issuer: Issuer)

  /** What the renewal does once it has read the file under the lock. */
  function Decide(current: Option<TokenSet>, stale: TokenSet, now: nat): Phase {
    if current.Some? && current.value.access != stale.access && !IsExpired(current.value, now) then
      Returning(Usable(current.value))
    else if current.Some? then Chosen(current.value, true)
    else Chosen(stale, false)
  }

  datatype Event =
    | BeginRenew(p: Pid)                    // read the file, found it unusable
    | BeginSignIn(p: Pid, login: TokenSet)  // the issuer granted a fresh sign-in
    | BeginProject(p: Pid, id: string)
    | Lock(p: Pid)
    | Look(p: Pid, now: nat)                // re-read under the lock; a sign-in writes here
    | Exchange(p: Pid, reply: Option<Grant>) // None: refused, or no refresh token to present
    | Write(p: Pid)
    | Release(p: Pid)
    | Fail(p: Pid)                          // an error or a crash; the lock is released
    | Clobber                               // an unlocked `auth remove` or `auth set`

  predicate FreshSignIn(i: Issuer, t: TokenSet) {
    && t.access !in i.family
    && (t.refresh.Some? ==> t.refresh.value !in i.issued)
  }

  predicate Enabled(s: State, e: Event)
  {
    if e.Clobber? then true
    else if e.p >= |s.procs| then false
    else
      var ph := s.procs[e.p];
      match e
      case BeginRenew(_) => (ph.Idle? || ph.Done?) && s.file.Some?
      case BeginSignIn(_, t) => (ph.Idle? || ph.Done?) && FreshSignIn(s.issuer, t)
      case BeginProject(_, _) => ph.Idle? || ph.Done?
      case Lock(_) => ph.Waiting? && s.lock.None?
      case Look(_, _) => ph.Holding?
      case Exchange(_, reply) => ph.Chosen? && (reply.Some? ==> MayGrant(s.issuer, ph.tokens, reply.value))
      case Write(_) => ph.Exchanged? || ph.Projecting?
      case Release(_) => ph.Returning?
      case Fail(_) => !ph.Exchanged?
  }

  function SignedIn(i: Issuer, t: TokenSet): Issuer {
    i.(issued := i.issued + Secrets(t.refresh), family := i.family[t.access := t.access])
  }

  function Apply(s: State, e: Event): State
    requires Enabled(s, e)
  {
    match e
    case Clobber => s.(file := None)
    case BeginRenew(p) => s.(procs := s.procs[p := Waiting(Renew(s.file.value))])
    case BeginSignIn(p, t) => s.(procs := s.procs[p := Waiting(SignIn(t))], issuer := SignedIn(s.issuer, t))
    case BeginProject(p, id) => s.(procs := s.procs[p := Waiting(Project(id))])
    case Lock(p) => s.(procs := s.procs[p := Holding(s.procs[p].job)], lock := Some(p))
    case Look(p, now) =>
      (match s.procs[p].job
       case Renew(stale) => s.(procs := s.procs[p := Decide(s.file, stale, now)])
       case SignIn(t) => s.(file := Some(t), procs := s.procs[p := Returning(Stored)])
       case Project(id) =>
         s.(procs := s.procs[p := if s.file.None? then Returning(Failed)
                                  else Projecting(s.file.value.(project := Some(id)))]))
    case Exchange(p, reply) =>
      if reply.None? then s.(procs := s.procs[p := Returning(Failed)])
      else
        var base := s.procs[p].tokens;
        s.(procs := s.procs[p := Exchanged(base, Renewed(base, reply.value))],
           issuer := Granted(s.issuer, base, reply.value))
    case Write(p) =>
      if s.procs[p].Exchanged? then
        s.(file := Some(s.procs[p].renewed), procs := s.procs[p := Returning(Usable(s.procs[p].renewed))])
      else s.(file := Some(s.procs[p].tokens), procs := s.procs[p := Returning(Stored)])
    case Release(p) => s.(procs := s.procs[p := Done(s.procs[p].outcome)], lock := None)
    case Fail(p) =>
      s.(procs := s.procs[p := Done(Failed)], lock := if s.procs[p].Locked() then None else s.lock)
  }

  predicate IsRun(s: State, es: seq<Event>)
    decreases |es|
  {
    es == [] || (Enabled(s, es[0]) && IsRun(Apply(s, es[0]), es[1..]))
  }

  function After(s: State, es: seq<Event>): State
    requires IsRun(s, es)
    decreases |es|
  {
    if es == [] then s else After(Apply(s, es[0]), es[1..])
  }

  predicate Init(s: State) {
    && s.lock.None?
    && (forall p :: 0 <= p < |s.procs| ==> s.procs[p].Idle?)
    && s.issuer.spent <= s.issuer.issued
    && (s.file.Some? ==> Secrets(s.file.value.refresh) <= s.issuer.issued - s.issuer.spent)
    && (s.file.Some? ==> s.file.value.access in s.issuer.family)
  }

  // -- Runs -------------------------------------------------------------------

  lemma {:induction false} RunSnoc(s: State, es: seq<Event>, e: Event)
    requires IsRun(s, es) && Enabled(After(s, es), e)
    ensures IsRun(s, es + [e]) && After(s, es + [e]) == Apply(After(s, es), e)
    decreases |es|
  {
    if es == [] {
      assert [e][1..] == [];
    } else {
      RunSnoc(Apply(s, es[0]), es[1..], e);
      assert (es + [e])[1..] == es[1..] + [e];
    }
  }

  lemma {:induction false} RunsJoin(s: State, es: seq<Event>, fs: seq<Event>)
    requires IsRun(s, es) && IsRun(After(s, es), fs)
    ensures IsRun(s, es + fs) && After(s, es + fs) == After(After(s, es), fs)
    decreases |fs|
  {
    if fs == [] {
      assert es + fs == es;
    } else {
      RunSnoc(s, es, fs[0]);
      RunsJoin(s, es + [fs[0]], fs[1..]);
      assert es + [fs[0]] + fs[1..] == es + fs;
    }
  }

  /** Some run made one step longer. */
  lemma Then(s0: State, es: seq<Event>, s: State, e: Event, s': State) returns (longer: seq<Event>)
    requires IsRun(s0, es) && After(s0, es) == s && Enabled(s, e) && Apply(s, e) == s'
    ensures IsRun(s0, longer) && After(s0, longer) == s'
  {
    RunSnoc(s0, es, e);
    longer := es + [e];
  }

  // -- A call uninterrupted -----------------------------------------------------

  /** What the issuer does with an offered grant: it makes it, or refuses and changes nothing. */
  function Answer(i: Issuer, base: TokenSet, offered: Grant): Option<Grant> {
    if MayGrant(i, base, offered) then Some(offered) else None
  }

  /** The steps an uninterrupted renewal takes. */
  function RenewalSteps(file: Option<TokenSet>, i: Issuer, p: Pid, stale: TokenSet, now: nat, offered: Grant): seq<Event>
  {
    [Lock(p), Look(p, now)] +
    match Decide(file, stale, now)
    case Chosen(t, _) =>
      if Answer(i, t, offered).None? then [Exchange(p, None), Release(p)]
      else [Exchange(p, Some(offered)), Write(p), Release(p)]
    case _ => [Release(p)]
  }

  /** What an uninterrupted renewal leaves in the file, does to the issuer and returns. */
  function RenewalEffect(file: Option<TokenSet>, i: Issuer, stale: TokenSet, now: nat, offered: Grant)
    : (Option<TokenSet>, Issuer, Outcome)
  {
    match Decide(file, stale, now)
    case Chosen(t, _) =>
      if Answer(i, t, offered).None? then (file, i, Failed)
      else (Some(Renewed(t, offered)), Granted(i, t, offered), Usable(Renewed(t, offered)))
    case Returning(outcome) => (file, i, outcome)
    case _ => (file, i, Failed)
  }

  predicate SameOthers(s: State, t: State, p: Pid) {
    |t.procs| == |s.procs| && forall q :: 0 <= q < |s.procs| && q != p ==> t.procs[q] == s.procs[q]
  }

  /** The first two steps of a renewal end at what it decided. */
  lemma LocksAndLooks(s: State, p: Pid, stale: TokenSet, now: nat) returns (t: State)
    requires p < |s.procs| && s.lock.None? && s.procs[p] == Waiting(Renew(stale))
    ensures IsRun(s, [Lock(p), Look(p, now)]) && After(s, [Lock(p), Look(p, now)]) == t
    ensures SameOthers(s, t, p) && t.lock == Some(p) && t.file == s.file && t.issuer == s.issuer
    ensures t.procs[p] == Decide(s.file, stale, now)
  {
    RunSnoc(s, [], Lock(p));
    RunSnoc(s, [Lock(p)], Look(p, now));
    t := Apply(Apply(s, Lock(p)), Look(p, now));
  }

  /** What is left once the login to exchange is chosen. */
  lemma ExchangesAndWrites(s: State, p: Pid, offered: Grant) returns (es: seq<Event>, t: State)
    requires p < |s.procs| && s.lock == Some(p) && s.procs[p].Chosen?
    ensures es == (if Answer(s.issuer, s.procs[p].tokens, offered).None? then [Exchange(p, None), Release(p)]
                   else [Exchange(p, Some(offered)), Write(p), Release(p)])
    ensures IsRun(s, es) && After(s, es) == t && SameOthers(s, t, p) && t.lock.None?
    ensures var tokens := s.procs[p].tokens;
            if Answer(s.issuer, tokens, offered).None?
            then t.file == s.file && t.issuer == s.issuer && t.procs[p] == Done(Failed)
            else
              && t.file == Some(Renewed(tokens, offered)) && t.issuer == Granted(s.issuer, tokens, offered)
              && t.procs[p] == Done(Usable(Renewed(tokens, offered)))
  {
    var answer := Answer(s.issuer, s.procs[p].tokens, offered);
    var s1 := Apply(s, Exchange(p, answer));
    RunSnoc(s, [], Exchange(p, answer));
    if answer.None? {
      RunSnoc(s, [Exchange(p, answer)], Release(p));
      es, t := [Exchange(p, answer), Release(p)], Apply(s1, Release(p));
    } else {
      var s2 := Apply(s1, Write(p));
      RunSnoc(s, [Exchange(p, answer)], Write(p));
      RunSnoc(s, [Exchange(p, answer), Write(p)], Release(p));
      es, t := [Exchange(p, answer), Write(p), Release(p)], Apply(s2, Release(p));
    }
  }

  /** The renewal as written is one of the machine's runs: its own steps, uninterrupted. */
  lemma RenewalIsARun(s: State, p: Pid, stale: TokenSet, now: nat, offered: Grant)
    requires p < |s.procs| && s.lock.None? && s.procs[p] == Waiting(Renew(stale))
    ensures var es := RenewalSteps(s.file, s.issuer, p, stale, now, offered);
            && IsRun(s, es)
            && SameOthers(s, After(s, es), p) && After(s, es).lock.None?
            && (After(s, es).file, After(s, es).issuer, After(s, es).procs[p]) ==
               var (f, i, r) := RenewalEffect(s.file, s.issuer, stale, now, offered); (f, i, Done(r))
  {
    var looked := [Lock(p), Look(p, now)];
    var t := LocksAndLooks(s, p, stale, now);
    if t.procs[p].Chosen? {
      var rest, u := ExchangesAndWrites(t, p, offered);
      RunsJoin(s, looked, rest);
      assert RenewalSteps(s.file, s.issuer, p, stale, now, offered) == looked + rest;
    } else {
      RunSnoc(s, looked, Release(p));
    }
  }

  /** A sign-in as written: the file holds it afterwards, whatever it held. */
  lemma StoringIsARun(s: State, p: Pid, login: TokenSet, now: nat)
    requires p < |s.procs| && s.lock.None? && s.procs[p] == Waiting(SignIn(login))
    ensures var es := [Lock(p), Look(p, now), Release(p)];
            && IsRun(s, es)
            && var t := After(s, es);
               && SameOthers(s, t, p) && t.lock.None? && t.issuer == s.issuer
               && t.file == Some(login) && t.procs[p] == Done(Stored)
  {
    RunSnoc(s, [], Lock(p));
    RunSnoc(s, [Lock(p)], Look(p, now));
    RunSnoc(s, [Lock(p), Look(p, now)], Release(p));
  }

  /** What noting a project makes of the file. */
  function Noted(file: Option<TokenSet>, project: string): Option<TokenSet> {
    if file.Some? then Some(file.value.(project := Some(project))) else None
  }

  function NotingSteps(file: Option<TokenSet>, p: Pid, now: nat): seq<Event> {
    [Lock(p), Look(p, now)] + if file.Some? then [Write(p), Release(p)] else [Release(p)]
  }

  /** A project noted as written: only the project of a stored login changes. */
  lemma NotingIsARun(s: State, p: Pid, project: string, now: nat)
    requires p < |s.procs| && s.lock.None? && s.procs[p] == Waiting(Project(project))
    ensures var es := NotingSteps(s.file, p, now);
            && IsRun(s, es)
            && var t := After(s, es);
               && SameOthers(s, t, p) && t.lock.None? && t.issuer == s.issuer
               && t.file == Noted(s.file, project)
               && t.procs[p] == Done(if s.file.Some? then Stored else Failed)
  {
    var looked := [Lock(p), Look(p, now)];
    RunSnoc(s, [], Lock(p));
    RunSnoc(s, [Lock(p)], Look(p, now));
    if s.file.Some? {
      RunSnoc(s, looked, Write(p));
      RunSnoc(s, looked + [Write(p)], Release(p));
      assert looked + [Write(p)] + [Release(p)] == NotingSteps(s.file, p, now);
    } else {
      RunSnoc(s, looked, Release(p));
    }
  }

  // -- The invariant ---------------------------------------------------------

  /** The logins a phase may still act on. */
  function Mentions(ph: Phase): set<TokenSet> {
    match ph
    case Waiting(Renew(t)) => {t}
    case Waiting(SignIn(t)) => {t}
    case Holding(Renew(t)) => {t}
    case Holding(SignIn(t)) => {t}
    case Chosen(t, _) => {t}
    case Exchanged(b, t) => {b, t}
    case Projecting(t) => {t}
    case _ => {}
  }

  /** The refresh token of a sign-in that has not reached the file yet. */
  function Unwritten(ph: Phase): set<Token> {
    match ph
    case Waiting(SignIn(t)) => Secrets(t.refresh)
    case Holding(SignIn(t)) => Secrets(t.refresh)
    case _ => {}
  }

  predicate Exclusive(s: State) {
    && (s.lock.Some? ==> s.lock.value < |s.procs|)
    && (forall p :: 0 <= p < |s.procs| ==> (s.procs[p].Locked() <==> s.lock == Some(p)))
  }

  predicate Known(s: State, t: TokenSet) {
    Secrets(t.refresh) <= s.issuer.issued && t.access in s.issuer.family
  }

  /** Everyone's logins came from the issuer. */
  predicate AllKnown(s: State) {
    && s.issuer.spent <= s.issuer.issued
    && (s.file.Some? ==> Known(s, s.file.value))
    && (forall p, t :: 0 <= p < |s.procs| && t in Mentions(s.procs[p]) ==> Known(s, t))
  }

  /** A sign-in on its way to the file shares its refresh token with nobody, and has not spent it. */
  predicate SignInsPrivate(s: State) {
    forall p, r :: 0 <= p < |s.procs| && r in Unwritten(s.procs[p]) ==> Private(s, p, r)
  }

  predicate Private(s: State, p: Pid, r: Token) {
    && r in s.issuer.issued - s.issuer.spent
    && (s.file.Some? ==> s.file.value.refresh != Some(r))
    && (forall q, t :: 0 <= q < |s.procs| && q != p && t in Mentions(s.procs[q]) ==> t.refresh != Some(r))
  }

  /** What the process holding the lock knows about the file. */
  predicate HolderAgrees(s: State, ph: Phase) {
    match ph
    case Chosen(t, found) =>
      if found then (s.file.Some? ==> s.file.value == t) && Unspent(s, t) else s.file.None?
    case Exchanged(b, t) =>
      && (s.file.Some? ==> s.file.value == b)
      && Unspent(s, t)
      && Family(s.issuer, t) == Family(s.issuer, b)
    case Projecting(t) => (s.file.Some? ==> s.file.value.(project := t.project) == t) && Unspent(s, t)
    case _ => true
  }

  predicate Unspent(s: State, t: TokenSet) {
    Secrets(t.refresh) !! s.issuer.spent
  }

  /**
   The stored refresh token is unspent except while the lock holder sits between its
   exchange and its write-back.
   */
  predicate FileUnspent(s: State) {
    && (s.file.Some? && !Unspent(s, s.file.value) ==>
          s.lock.Some? && s.lock.value < |s.procs| && s.procs[s.lock.value].Exchanged?)
    && (forall p :: 0 <= p < |s.procs| ==> HolderAgrees(s, s.procs[p]))
  }

  /** A sign-in on its way to the file starts a family of its own. */
  predicate SignInsRooted(s: State) {
    forall p :: 0 <= p < |s.procs| ==> Rooted(s.issuer, s.procs[p])
  }

  predicate Rooted(i: Issuer, ph: Phase) {
    match ph
    case Waiting(SignIn(t)) => Family(i, t) == Some(t.access)
    case Holding(SignIn(t)) => Family(i, t) == Some(t.access)
    case _ => true
  }

  predicate Inv(s: State) {
    Exclusive(s) && AllKnown(s) && SignInsPrivate(s) && SignInsRooted(s) && FileUnspent(s)
  }

  /** How it begins: any number of processes at rest, and a stored login, if any, that is unspent. */
  lemma BeginsSo(file: Option<TokenSet>, n: nat, i: Issuer)
    requires i.spent <= i.issued
    requires file.Some? ==> file.value.access in i.family
    requires file.Some? && file.value.refresh.Some? ==> file.value.refresh.value in i.issued - i.spent
    ensures Init(State(file, None, seq(n, _ => Idle), i))
  {
  }

  lemma InitKeepsInv(s: State)
    requires Init(s)
    ensures Inv(s)
  {
  }

  lemma StepKeepsExclusive(s: State, e: Event)
    requires Inv(s) && Enabled(s, e)
    ensures Exclusive(Apply(s, e))
  {
  }

  /** The logins an acting process may use are known, its own among them. */
  lemma OwnMentionsKnown(s: State, p: Pid)
    requires AllKnown(s) && p < |s.procs|
    ensures match s.procs[p]
            case Waiting(SignIn(t)) => Known(s, t)
            case Holding(Renew(t)) => Known(s, t)
            case Holding(SignIn(t)) => Known(s, t)
            case Chosen(t, _) => Known(s, t)
            case Exchanged(b, t) => Known(s, b) && Known(s, t)
            case Projecting(t) => Known(s, t)
            case _ => true
  {
    assert forall t :: t in Mentions(s.procs[p]) ==> Known(s, t);
  }

  lemma StepKeepsKnown(s: State, e: Event)
    requires Inv(s) && Enabled(s, e)
    ensures AllKnown(Apply(s, e))
  {
    var s' := Apply(s, e);
    if !e.Clobber? {
      OwnMentionsKnown(s, e.p);
    }
    forall p, t | 0 <= p < |s'.procs| && t in Mentions(s'.procs[p])
      ensures Known(s', t)
    {
      if t in Mentions(s.procs[p]) {
        assert Known(s, t);
      }
    }
  }

  lemma StepKeepsSignInsPrivate(s: State, e: Event)
    requires Inv(s) && Enabled(s, e)
    ensures SignInsPrivate(Apply(s, e))
  {
    var s' := Apply(s, e);
    if !e.Clobber? {
      OwnMentionsKnown(s, e.p);
    }
    forall p, r | 0 <= p < |s'.procs| && r in Unwritten(s'.procs[p])
      ensures Private(s', p, r)
    {
      if r in Unwritten(s.procs[p]) {
        assert Private(s, p, r);
        if e.Exchange? && e.reply.Some? {
          assert s.procs[e.p].tokens in Mentions(s.procs[e.p]);
        }
      } else {
        assert e.BeginSignIn? && p == e.p;
      }
      forall q, t | 0 <= q < |s'.procs| && q != p && t in Mentions(s'.procs[q])
        ensures t.refresh != Some(r)
      {
        if t in Mentions(s.procs[q]) {
          assert Known(s, t);
        }
      }
    }
  }

  lemma StepKeepsFileUnspent(s: State, e: Event)
    requires Inv(s) && Enabled(s, e)
    ensures FileUnspent(Apply(s, e))
  {
    var s' := Apply(s, e);
    if !e.Clobber? {
      OwnMentionsKnown(s, e.p);
      if e.Look? && s.procs[e.p].job.SignIn? && s.procs[e.p].job.login.refresh.Some? {
        assert s.procs[e.p].job.login.refresh.value in Unwritten(s.procs[e.p]);
      }
      assert HolderAgrees(s, s.procs[e.p]);
    }
    forall p | 0 <= p < |s'.procs|
      ensures HolderAgrees(s', s'.procs[p])
    {
      assert HolderAgrees(s, s.procs[p]);
      OwnMentionsKnown(s, p);
    }
  }

  lemma StepKeepsSignInsRooted(s: State, e: Event)
    requires Inv(s) && Enabled(s, e)
    ensures SignInsRooted(Apply(s, e))
  {
    var s' := Apply(s, e);
    forall p | 0 <= p < |s'.procs|
      ensures Rooted(s'.issuer, s'.procs[p])
    {
      assert Rooted(s.issuer, s.procs[p]);
      OwnMentionsKnown(s, p);
    }
  }

  lemma StepKeepsInv(s: State, e: Event)
    requires Inv(s) && Enabled(s, e)
    ensures Inv(Apply(s, e))
  {
    StepKeepsExclusive(s, e);
    StepKeepsKnown(s, e);
    StepKeepsSignInsPrivate(s, e);
    StepKeepsSignInsRooted(s, e);
    StepKeepsFileUnspent(s, e);
  }

  lemma {:induction false} RunKeepsInv(s: State, es: seq<Event>)
    requires Inv(s) && IsRun(s, es)
    ensures Inv(After(s, es))
    decreases |es|
  {
    if es == [] {
    } else {
      StepKeepsInv(s, es[0]);
      RunKeepsInv(Apply(s, es[0]), es[1..]);
    }
  }

  // -- Nobody is stuck ----------------------------------------------------------

  /**
   While any call is under way, some process has a step of its own that is no failure: the
   one that holds the lock, or one that may take it. A process at rest may begin, one may
   die anywhere but between its exchange and its write, and the file may be emptied.
   */
  lemma NobodyIsStuck(s: State)
    requires Inv(s)
    ensures (exists p :: 0 <= p < |s.procs| && !s.procs[p].Idle? && !s.procs[p].Done?) ==>
              exists e: Event :: (e.Lock? || e.Look? || e.Exchange? || e.Write? || e.Release?) && Enabled(s, e)
    ensures Enabled(s, Clobber)
    ensures forall p :: 0 <= p < |s.procs| && !s.procs[p].Exchanged? ==> Enabled(s, Fail(p))
    ensures forall p :: 0 <= p < |s.procs| && (s.procs[p].Idle? || s.procs[p].Done?) ==>
              && (s.file.Some? ==> Enabled(s, BeginRenew(p)))
              && (forall id :: Enabled(s, BeginProject(p, id)))
              && (forall t: TokenSet ::
                    t.access !in s.issuer.family && (t.refresh.Some? ==> t.refresh.value !in s.issuer.issued) ==>
                      Enabled(s, BeginSignIn(p, t)))
  {
    if p :| 0 <= p < |s.procs| && !s.procs[p].Idle? && !s.procs[p].Done? {
      if s.lock.Some? {
        HolderGoesOn(s, s.lock.value);
      } else {
        assert Enabled(s, Lock(p));
      }
    }
  }

  lemma HolderGoesOn(s: State, p: Pid)
    requires p < |s.procs| && s.procs[p].Locked()
    ensures exists e: Event :: (e.Lock? || e.Look? || e.Exchange? || e.Write? || e.Release?) && Enabled(s, e)
  {
    var phase := s.procs[p];
    var e := if phase.Holding? then Look(p, 0)
             else if phase.Chosen? then Exchange(p, None)
             else if phase.Returning? then Release(p)
             else Write(p);
    assert Enabled(s, e);
  }

  // -- No spent refresh token is presented -----------------------------------

  /** In a run without unlocked writers, a file that holds a login keeps one, and no renewal starts from nothing. */
  predicate Backed(s: State) {
    forall p :: 0 <= p < |s.procs| ==> BackedAt(s.file, s.procs[p])
  }

  predicate BackedAt(file: Option<TokenSet>, ph: Phase) {
    match ph
    case Waiting(Renew(_)) => file.Some?
    case Holding(Renew(_)) => file.Some?
    case Chosen(_, found) => found
    case _ => true
  }

  predicate AllLocked(es: seq<Event>) {
    forall e :: e in es ==> !e.Clobber?
  }

  lemma {:induction false} LockedRunsStayBacked(s: State, es: seq<Event>)
    requires Backed(s) && IsRun(s, es) && AllLocked(es)
    ensures Backed(After(s, es))
    decreases |es|
  {
    if es == [] {
    } else {
      var s' := Apply(s, es[0]);
      assert es[0] in es && AllLocked(es[1..]);
      forall p | 0 <= p < |s'.procs|
        ensures BackedAt(s'.file, s'.procs[p])
      {
        assert BackedAt(s.file, s.procs[p]);
        assert BackedAt(s.file, s.procs[es[0].p]);
      }
      LockedRunsStayBacked(s', es[1..]);
    }
  }

  /**
   Single use. However many processes interleave, a process about to exchange holds a
   refresh token the issuer has not exchanged yet, as long as it found a login under
   the lock. When no writer skips the lock, every process finds one.
   */
  lemma NoSpentTokenPresented(s0: State, es: seq<Event>, p: Pid)
    requires Init(s0) && IsRun(s0, es)
    requires p < |After(s0, es).procs| && After(s0, es).procs[p].Chosen?
    ensures var s := After(s0, es);
            var refresh := s.procs[p].tokens.refresh;
            && (s.procs[p].found ==> refresh.None? || refresh.value !in s.issuer.spent)
            && ((forall e :: e in es ==> !e.Clobber?) ==>
                  s.procs[p].found && (refresh.None? || refresh.value !in s.issuer.spent))
  {
    InitKeepsInv(s0);
    RunKeepsInv(s0, es);
    assert HolderAgrees(After(s0, es), After(s0, es).procs[p]);
    if forall e :: e in es ==> !e.Clobber? {
      assert AllLocked(es);
      LockedRunsStayBacked(s0, es);
    }
  }

  /** Some process is about to present a refresh token the issuer has exchanged. */
  predicate PresentsSpent(s: State) {
    exists p :: 0 <= p < |s.procs| && s.procs[p].Chosen? && !Unspent(s, s.procs[p].tokens)
  }

  /** A renewal that reads no login under the lock, while the one it set out with is spent. */
  predicate FallsBackSpent(s: State, e: Event)
    requires Enabled(s, e)
  {
    e.Look? && s.procs[e.p].job.Renew? && s.file.None? && !Unspent(s, s.procs[e.p].job.stale)
  }

  predicate NeverPresents(s: State, es: seq<Event>)
    requires IsRun(s, es)
    decreases |es|
  {
    !PresentsSpent(s) && (es == [] || NeverPresents(Apply(s, es[0]), es[1..]))
  }

  predicate NeverFallsBackSpent(s: State, es: seq<Event>)
    requires IsRun(s, es)
    decreases |es|
  {
    es == [] || (!FallsBackSpent(s, es[0]) && NeverFallsBackSpent(Apply(s, es[0]), es[1..]))
  }

  /** One step has a process come to a spent token exactly when it is such a fallback. */
  lemma StepPresentsIff(s: State, e: Event)
    requires Inv(s) && Enabled(s, e) && !PresentsSpent(s)
    ensures PresentsSpent(Apply(s, e)) <==> FallsBackSpent(s, e)
  {
    var s' := Apply(s, e);
    if FallsBackSpent(s, e) {
      assert s'.procs[e.p].Chosen?;
    }
    forall p | 0 <= p < |s'.procs| && s'.procs[p].Chosen? && !FallsBackSpent(s, e)
      ensures Unspent(s', s'.procs[p].tokens)
    {
      assert s.procs[p].Chosen? ==> Unspent(s, s.procs[p].tokens);
      assert e.Clobber? || p == e.p || s.procs[p] == s'.procs[p];
    }
  }

  /**
   Exactly when a spent refresh token is presented: a run of any processes, with unlocked
   writers or without, comes to one if and only if some renewal in it reads no login under
   the lock while the one it set out with is spent.
   */
  lemma {:induction false} NeverPresentsIff(s: State, es: seq<Event>)
    requires Inv(s) && IsRun(s, es) && !PresentsSpent(s)
    ensures NeverPresents(s, es) <==> NeverFallsBackSpent(s, es)
    decreases |es|
  {
    if es == [] {
    } else {
      StepPresentsIff(s, es[0]);
      StepKeepsInv(s, es[0]);
      if !FallsBackSpent(s, es[0]) {
        NeverPresentsIff(Apply(s, es[0]), es[1..]);
      }
    }
  }

  /** Two processes set out with the same login, and the first renews it. */
  lemma OneRenews(s0: State, login: TokenSet, g: Grant, now: nat) returns (es: seq<Event>, s: State)
    requires s0.lock.None? && s0.procs == [Idle, Idle] && s0.file == Some(login)
    requires MayGrant(s0.issuer, login, g) && g.refresh.Some? && g.refresh != login.refresh
    ensures IsRun(s0, es) && After(s0, es) == s
    ensures s.lock.None? && |s.procs| == 2 && s.procs[1] == Waiting(Renew(login)) && login.refresh.value in s.issuer.spent
  {
    var s1 := Apply(s0, BeginRenew(0));
    var s2 := Apply(s1, BeginRenew(1));
    es := Then(s0, [], s0, BeginRenew(0), s1);
    es := Then(s0, es, s1, BeginRenew(1), s2);
    var steps := RenewalSteps(s2.file, s2.issuer, 0, login, now, g);
    RenewalIsARun(s2, 0, login, now, g);
    RunsJoin(s0, es, steps);
    es, s := es + steps, After(s2, steps);
  }

  /**
   The fallback to the caller's own login, taken when the file holds none, is the one
   way past it: two processes hold the same login, one renews it, `auth remove` deletes
   the file without the lock, and the other goes on to present the token already spent.
   */
  lemma FallbackPresentsSpentToken(s0: State, login: TokenSet, g: Grant, now: nat) returns (es: seq<Event>)
    requires s0.lock.None? && s0.procs == [Idle, Idle] && s0.file == Some(login)
    requires MayGrant(s0.issuer, login, g) && g.refresh.Some? && g.refresh != login.refresh
    ensures IsRun(s0, es)
    ensures var s := After(s0, es);
            |s.procs| == 2 && s.procs[1] == Chosen(login, false) && login.refresh.value in s.issuer.spent
  {
    var s: State;
    es, s := OneRenews(s0, login, g, now);
    var t := Apply(s, Clobber);
    var u := Apply(t, Lock(1));
    es := Then(s0, es, s, Clobber, t);
    es := Then(s0, es, t, Lock(1), u);
    es := Then(s0, es, u, Look(1, now), Apply(u, Look(1, now)));
  }

  // -- Lineage ---------------------------------------------------------------

  /** The step at which a fresh sign-in reaches the file. */
  predicate WritesSignIn(s: State, e: Event)
    requires Enabled(s, e)
  {
    e.Look? && s.procs[e.p].job.SignIn?
  }

  /** Nothing but renewals and project writes changes the file. */
  predicate NoSignInWritten(s: State, es: seq<Event>)
    requires IsRun(s, es)
    decreases |es|
  {
    es == [] || (!WritesSignIn(s, es[0]) && NoSignInWritten(Apply(s, es[0]), es[1..]))
  }

  /**
   What one step can make of a stored login: nothing, its project alone, or the renewal
   of exactly that login, granted by the issuer.
   */
  lemma StepKeepsLineage(s: State, e: Event)
    requires Inv(s) && Enabled(s, e) && s.file.Some? && !e.Clobber? && !WritesSignIn(s, e)
    ensures var s' := Apply(s, e);
            && s'.file.Some?
            && Family(s'.issuer, s'.file.value) == Family(s.issuer, s.file.value)
            && (|| s'.file == s.file
                || (e.Write? && s.procs[e.p].Projecting?
                    && s'.file.value == s.file.value.(project := s.procs[e.p].tokens.project))
                || (e.Write? && s.procs[e.p] == Exchanged(s.file.value, s'.file.value)))
  {
    assert HolderAgrees(s, s.procs[e.p]);
    OwnMentionsKnown(s, e.p);
  }

  /** Whatever else runs, a stored login stays in the family of the sign-in it came from. */
  lemma {:induction false} RunKeepsLineage(s: State, es: seq<Event>)
    requires Inv(s) && s.file.Some? && IsRun(s, es) && AllLocked(es) && NoSignInWritten(s, es)
    ensures var s' := After(s, es);
            s'.file.Some? && Family(s'.issuer, s'.file.value) == Family(s.issuer, s.file.value)
    decreases |es|
  {
    if es == [] {
    } else {
      assert es[0] in es;
      StepKeepsLineage(s, es[0]);
      StepKeepsInv(s, es[0]);
      RunKeepsLineage(Apply(s, es[0]), es[1..]);
    }
  }

  /**
   After a sign-in is stored, every later stored login descends from it until the next
   sign-in: a renewal or a project write begun on the old account, at whatever point it
   was, never puts that account back.
   */
  lemma SignInSupersedes(s0: State, before: seq<Event>, e: Event, after: seq<Event>)
    requires Init(s0) && IsRun(s0, before)
    requires Enabled(After(s0, before), e) && WritesSignIn(After(s0, before), e)
    requires IsRun(Apply(After(s0, before), e), after) && AllLocked(after)
    requires NoSignInWritten(Apply(After(s0, before), e), after)
    ensures var s := After(s0, before);
            var s' := After(Apply(s, e), after);
            s'.file.Some? && Family(s'.issuer, s'.file.value) == Some(s.procs[e.p].job.login.access)
  {
    InitKeepsInv(s0);
    RunKeepsInv(s0, before);
    var s := After(s0, before);
    assert Rooted(s.issuer, s.procs[e.p]);
    StepKeepsInv(s, e);
    RunKeepsLineage(Apply(s, e), after);
  }

  // -- Removal -----------------------------------------------------------------

  /** The login a process may still put into the file. */
  function LoginOf(ph: Phase): Option<TokenSet> {
    match ph
    case Waiting(Renew(t)) => Some(t)
    case Holding(Renew(t)) => Some(t)
    case Chosen(t, _) => Some(t)
    case Exchanged(base, _) => Some(base)
    case Projecting(t) => Some(t)
    case _ => None
  }

  /**
   A process that may bring a login back into an empty file: one about to write, or a
   renewal under way whose own login still has a refresh token to present.
   */
  predicate MayReturn(i: Issuer, ph: Phase) {
    && LoginOf(ph).Some?
    && (ph.Exchanged? || ph.Projecting? ||
        (LoginOf(ph).value.refresh.Some? && LoginOf(ph).value.refresh.value !in i.spent))
  }

  predicate Quiet(s: State) {
    s.file.None? && forall p :: 0 <= p < |s.procs| ==> !MayReturn(s.issuer, s.procs[p])
  }

  /** Once nobody may bring a login back, only a fresh sign-in fills the file. */
  lemma {:induction false} RunStaysQuiet(s: State, es: seq<Event>)
    requires Quiet(s) && IsRun(s, es) && NoSignInWritten(s, es)
    ensures Quiet(After(s, es))
    decreases |es|
  {
    if es == [] {
    } else {
      var s' := Apply(s, es[0]);
      forall p | 0 <= p < |s'.procs|
        ensures !MayReturn(s'.issuer, s'.procs[p])
      {
        assert !MayReturn(s.issuer, s.procs[p]);
        assert es[0].Clobber? || !MayReturn(s.issuer, s.procs[es[0].p]);
      }
      RunStaysQuiet(s', es[1..]);
    }
  }

  lemma {:induction false} Bound(ts: set<Token>) returns (b: Token)
    ensures forall t :: t in ts ==> t < b
    decreases |ts|
  {
    if ts == {} {
      b := 0;
    } else {
      var t :| t in ts;
      var c := Bound(ts - {t});
      b := if t < c then c else t + 1;
      assert forall u :: u in ts ==> u == t || u in ts - {t};
    }
  }

  /** The issuer has always a token left to grant. */
  lemma FreshGrant(i: Issuer, t: TokenSet) returns (g: Grant)
    requires t.refresh.Some? && t.refresh.value !in i.spent
    ensures MayGrant(i, t, g)
  {
    var b := Bound(i.family.Keys);
    g := Grant(b, None, None, None);
  }

  /** Which of its steps takes a process nearer to the file; another's failure may free the lock first. */
  lemma NextStep(s: State, p: Pid) returns (e: Event)
    requires Inv(s) && s.file.None? && p < |s.procs| && MayReturn(s.issuer, s.procs[p])
    requires !s.procs[p].Exchanged? && !s.procs[p].Projecting?
    requires s.procs[p].Waiting? && s.lock.Some? ==> !s.procs[s.lock.value].Exchanged?
    ensures Enabled(s, e) && !WritesSignIn(s, e)
    ensures var s' := Apply(s, e);
            && s'.file.None? && p < |s'.procs| && MayReturn(s'.issuer, s'.procs[p])
            && LoginOf(s'.procs[p]) == LoginOf(s.procs[p]) && Steps(s', p) < Steps(s, p)
            && (s'.procs[p].Waiting? ==> s'.lock.None?)
            && (LoginOf(s.procs[p]).value.access in s.issuer.family ==>
                  Family(s'.issuer, LoginOf(s.procs[p]).value) == Family(s.issuer, LoginOf(s.procs[p]).value))
  {
    match s.procs[p]
    case Waiting(_) =>
      e := if s.lock.Some? then Fail(s.lock.value) else Lock(p);
    case Holding(_) =>
      e := Look(p, 0);
    case Chosen(t, _) =>
      var g := FreshGrant(s.issuer, t);
      e := Exchange(p, Some(g));
  }

  function Steps(s: State, p: Pid): nat
    requires p < |s.procs|
  {
    match s.procs[p]
    case Waiting(_) => if s.lock.Some? then 4 else 3
    case Holding(_) => 2
    case Chosen(_, _) => 1
    case _ => 0
  }

  /** The process's own steps, on an empty file, put the account of its login back. */
  lemma {:induction false} LoginReturns(s: State, p: Pid) returns (es: seq<Event>)
    requires Inv(s) && s.file.None? && p < |s.procs| && MayReturn(s.issuer, s.procs[p])
    requires s.procs[p].Waiting? && s.lock.Some? ==> !s.procs[s.lock.value].Exchanged?
    ensures IsRun(s, es) && NoSignInWritten(s, es)
    ensures var s' := After(s, es);
            s'.file.Some? && Family(s'.issuer, s'.file.value) == Family(s.issuer, LoginOf(s.procs[p]).value)
    decreases Steps(s, p)
  {
    OwnMentionsKnown(s, p);
    if s.procs[p].Exchanged? || s.procs[p].Projecting? {
      assert HolderAgrees(s, s.procs[p]);
      es := [Write(p)];
      assert es[1..] == [];
    } else {
      assert LoginOf(s.procs[p]).value in Mentions(s.procs[p]);
      var e := NextStep(s, p);
      StepKeepsInv(s, e);
      var rest := LoginReturns(Apply(s, e), p);
      es := [e] + rest;
      assert es[1..] == rest;
    }
  }

  /**
   A login removed without the lock comes back by itself, with no sign-in, exactly when
   some process may bring it back: one past its exchange or about to note a project, or a
   renewal under way, however early, that still has an unspent refresh token of its own.
   */
  lemma RemovalIsFinalIff(s: State)
    requires Inv(s)
    ensures var removed := Apply(s, Clobber);
            (exists es :: IsRun(removed, es) && NoSignInWritten(removed, es) && After(removed, es).file.Some?) <==>
            (exists p :: 0 <= p < |s.procs| && MayReturn(s.issuer, s.procs[p]))
  {
    var removed := Apply(s, Clobber);
    StepKeepsInv(s, Clobber);
    if p :| 0 <= p < |s.procs| && MayReturn(s.issuer, s.procs[p]) {
      var q := if s.procs[p].Waiting? && s.lock.Some? && s.procs[s.lock.value].Exchanged? then s.lock.value else p;
      var es := LoginReturns(removed, q);
    } else {
      forall es | IsRun(removed, es) && NoSignInWritten(removed, es)
        ensures After(removed, es).file.None?
      {
        RunStaysQuiet(removed, es);
      }
    }
  }

  /**
   So a removed account returns: process `p` puts it back, unless the lock is held past an
   exchange, when it is that holder's login that comes back.
   */
  lemma RemovedLoginReturns(s: State, p: Pid) returns (es: seq<Event>)
    requires Inv(s) && p < |s.procs| && MayReturn(s.issuer, s.procs[p])
    requires s.procs[p].Waiting? && s.lock.Some? ==> !s.procs[s.lock.value].Exchanged?
    ensures IsRun(Apply(s, Clobber), es) && NoSignInWritten(Apply(s, Clobber), es)
    ensures var s' := After(Apply(s, Clobber), es);
            s'.file.Some? && Family(s'.issuer, s'.file.value) == Family(s.issuer, LoginOf(s.procs[p]).value)
  {
    StepKeepsInv(s, Clobber);
    es := LoginReturns(Apply(s, Clobber), p);
  }

  /**
   A process that may present a spent token to the issuer while the file is empty: a renewal
   whose own login is spent, unless it waits for a holder past its exchange, whose login it
   will find.
   */
  predicate MayPresentSpent(s: State, p: Pid)
    requires p < |s.procs|
  {
    var ph := s.procs[p];
    && ((ph.Waiting? && ph.job.Renew?) || (ph.Holding? && ph.job.Renew?) || ph.Chosen?)
    && !Unspent(s, LoginOf(ph).value)
    && !(ph.Waiting? && HeldPastExchange(s))
  }

  predicate HeldPastExchange(s: State) {
    s.lock.Some? && s.lock.value < |s.procs| && s.procs[s.lock.value].Exchanged?
  }

  predicate StaysEmpty(s: State, es: seq<Event>)
    requires IsRun(s, es)
    decreases |es|
  {
    s.file.None? && (es == [] || StaysEmpty(Apply(s, es[0]), es[1..]))
  }

  /** A run that comes to a spent token before anything fills the file. */
  predicate PresentsSpentUnfilled(s: State, es: seq<Event>) {
    IsRun(s, es) && StaysEmpty(s, es) && PresentsSpent(After(s, es))
  }

  predicate Harmless(s: State) {
    forall p :: 0 <= p < |s.procs| ==> !MayPresentSpent(s, p)
  }

  lemma StepStaysHarmless(s: State, e: Event)
    requires Inv(s) && s.file.None? && Harmless(s) && Enabled(s, e) && Apply(s, e).file.None?
    ensures Harmless(Apply(s, e))
  {
    var s' := Apply(s, e);
    forall p | 0 <= p < |s'.procs|
      ensures !MayPresentSpent(s', p)
    {
      assert !MayPresentSpent(s, p);
      assert e.Clobber? || !MayPresentSpent(s, e.p);
    }
  }

  lemma {:induction false} RunStaysHarmless(s: State, es: seq<Event>)
    requires Inv(s) && Harmless(s) && IsRun(s, es) && StaysEmpty(s, es)
    ensures Harmless(After(s, es))
    decreases |es|
  {
    if es == [] {
    } else {
      StepStaysHarmless(s, es[0]);
      StepKeepsInv(s, es[0]);
      RunStaysHarmless(Apply(s, es[0]), es[1..]);
    }
  }

  lemma HarmlessPresentsNothing(s: State)
    requires Harmless(s)
    ensures !PresentsSpent(s)
  {
    if p :| 0 <= p < |s.procs| && s.procs[p].Chosen? && !Unspent(s, s.procs[p].tokens) {
      assert MayPresentSpent(s, p);
    }
  }

  /** The next step of such a process on an empty file; another's failure may free the lock first. */
  function TowardsFallback(s: State, p: Pid): Event
    requires p < |s.procs|
  {
    if s.procs[p].Waiting? then (if s.lock.Some? then Fail(s.lock.value) else Lock(p)) else Look(p, 0)
  }

  lemma StepTowardsFallback(s: State, p: Pid)
    requires Inv(s) && s.file.None? && p < |s.procs| && MayPresentSpent(s, p) && !s.procs[p].Chosen?
    ensures var e := TowardsFallback(s, p);
            && Enabled(s, e)
            && var s' := Apply(s, e);
               s'.file.None? && p < |s'.procs| && MayPresentSpent(s', p) && Steps(s', p) < Steps(s, p)
  {
  }

  lemma {:induction false} FallbackRun(s: State, p: Pid) returns (es: seq<Event>)
    requires Inv(s) && s.file.None? && p < |s.procs| && MayPresentSpent(s, p)
    ensures IsRun(s, es) && StaysEmpty(s, es) && PresentsSpent(After(s, es))
    decreases Steps(s, p)
  {
    if s.procs[p].Chosen? {
      es := [];
    } else {
      var e := TowardsFallback(s, p);
      StepTowardsFallback(s, p);
      StepKeepsInv(s, e);
      var rest := FallbackRun(Apply(s, e), p);
      es := [e] + rest;
      assert es[1..] == rest;
    }
  }

  /**
   A login removed without the lock makes a process present a spent token, before anything
   fills the file again, exactly when some process may do so: `MayPresentSpent` at the
   removal, as a caller of the removal could look it up.
   */
  lemma RemovalPresentsSpentIff(s: State)
    requires Inv(s)
    ensures var removed := Apply(s, Clobber);
            (exists es :: PresentsSpentUnfilled(removed, es)) <==>
            (exists p :: 0 <= p < |s.procs| && MayPresentSpent(s, p))
  {
    var removed := Apply(s, Clobber);
    StepKeepsInv(s, Clobber);
    assert forall p :: 0 <= p < |s.procs| ==> (MayPresentSpent(removed, p) <==> MayPresentSpent(s, p));
    if Harmless(removed) {
      forall es | IsRun(removed, es) && StaysEmpty(removed, es)
        ensures !PresentsSpentUnfilled(removed, es)
      {
        RunStaysHarmless(removed, es);
        HarmlessPresentsNothing(After(removed, es));
      }
    } else {
      var p :| 0 <= p < |removed.procs| && MayPresentSpent(removed, p);
      var es := FallbackRun(removed, p);
      assert PresentsSpentUnfilled(removed, es) && MayPresentSpent(s, p);
    }
  }

  // -- Convergence -----------------------------------------------------------

  /** The login is in date, by the five minutes' margin, whenever it is read in the run. */
  predicate InDate(t: TokenSet, es: seq<Event>) {
    forall e :: e in es && e.Look? && t.expiresAt.Some? ==>
      (if e.now + 300 < 0x1_0000_0000_0000_0000 then e.now + 300 else 0xFFFF_FFFF_FFFF_FFFF) < t.expiresAt.value
  }

  /** Only processes already under way act: no sign-in, no new caller, no unlocked writer. */
  predicate Underway(es: seq<Event>) {
    forall e :: e in es ==> e.Lock? || e.Look? || e.Exchange? || e.Write? || e.Release? || e.Fail?
  }

  /** N processes hold the same login, each about to renew it or to note a project on it. */
  predicate AllHold(s: State, lapsed: TokenSet) {
    && s.file == Some(lapsed)
    && s.lock.None?
    && (forall p :: 0 <= p < |s.procs| ==>
          s.procs[p] == Waiting(Renew(lapsed)) || (s.procs[p].Waiting? && s.procs[p].job.Project?))
    && lapsed.access in s.issuer.family
  }

  /** Before the first grant (`won` is none) and after it, when `won` is the renewed login. */
  predicate Converging(s: State, lapsed: TokenSet, won: Option<TokenSet>) {
    && Exclusive(s)
    && s.file.Some?
    && lapsed.access in s.issuer.family
    && (won.Some? ==> won.value.access != lapsed.access)
    && (if won.None? then s.file.value.access == lapsed.access
        else
          || (s.file.value.access == won.value.access && s.file.value.expiresAt == won.value.expiresAt)
          || (s.lock.Some? && s.lock.value < |s.procs| && s.procs[s.lock.value].Exchanged?))
    && (forall p :: 0 <= p < |s.procs| ==> ConvergingAt(s.file.value, s.procs[p], lapsed, won))
  }

  predicate ConvergingAt(file: TokenSet, ph: Phase, lapsed: TokenSet, won: Option<TokenSet>) {
    match ph
    case Waiting(j) => j == Renew(lapsed) || j.Project?
    case Holding(j) => j == Renew(lapsed) || j.Project?
    case Chosen(t, _) => won.None?
    case Exchanged(_, t) => Some(t) == won
    case Projecting(t) => file.(project := t.project) == t
    case Returning(Usable(t)) => won.Some? && t.access == won.value.access
    case Done(Usable(t)) => won.Some? && t.access == won.value.access
    case _ => true
  }

  function Winner(i: Issuer, n: nat): Option<TokenSet> {
    if |i.grants| <= n then None else Some(i.grants[n])
  }

  lemma StepKeepsConverging(s: State, e: Event, lapsed: TokenSet, n: nat)
    requires Enabled(s, e) && Underway([e])
    requires n <= |s.issuer.grants| <= n + 1 && Converging(s, lapsed, Winner(s.issuer, n))
    requires |s.issuer.grants| > n ==> InDate(s.issuer.grants[n], [e])
    ensures var s' := Apply(s, e);
            |s.issuer.grants| <= |s'.issuer.grants| <= n + 1 && Converging(s', lapsed, Winner(s'.issuer, n))
    ensures s.issuer.grants <= Apply(s, e).issuer.grants
  {
    var s' := Apply(s, e);
    assert e in [e];
    assert ConvergingAt(s.file.value, s.procs[e.p], lapsed, Winner(s.issuer, n));
    forall p | 0 <= p < |s'.procs|
      ensures ConvergingAt(s'.file.value, s'.procs[p], lapsed, Winner(s'.issuer, n))
    {
      assert ConvergingAt(s.file.value, s.procs[p], lapsed, Winner(s.issuer, n));
    }
  }

  lemma {:induction false} RunConverges(s: State, es: seq<Event>, lapsed: TokenSet, n: nat)
    requires IsRun(s, es) && Underway(es)
    requires n <= |s.issuer.grants| <= n + 1 && Converging(s, lapsed, Winner(s.issuer, n))
    requires |After(s, es).issuer.grants| > n ==> InDate(After(s, es).issuer.grants[n], es)
    ensures var s' := After(s, es);
            n <= |s'.issuer.grants| <= n + 1 && Converging(s', lapsed, Winner(s'.issuer, n))
    ensures s.issuer.grants <= After(s, es).issuer.grants
    decreases |es|
  {
    if es == [] {
    } else {
      GrantsGrow(s, es);
      assert es[0] in es;
      StepKeepsConverging(s, es[0], lapsed, n);
      RunConverges(Apply(s, es[0]), es[1..], lapsed, n);
    }
  }

  lemma {:induction false} GrantsGrow(s: State, es: seq<Event>)
    requires IsRun(s, es)
    ensures s.issuer.grants <= After(s, es).issuer.grants
    decreases |es|
  {
    if es == [] {
    } else {
      GrantsGrow(Apply(s, es[0]), es[1..]);
    }
  }

  /**
   Convergence. For every number of processes holding the same login and every schedule,
   if the first renewal stays in date for whoever reads it, the issuer grants at most one
   exchange, and every process that comes away with a usable login comes away with that
   one's access token; so as soon as one has, exactly one exchange was granted.
   */
  lemma ProcessesConverge(s: State, es: seq<Event>, lapsed: TokenSet)
    requires AllHold(s, lapsed) && IsRun(s, es) && Underway(es)
    requires var grants := After(s, es).issuer.grants;
             |grants| > |s.issuer.grants| ==> InDate(grants[|s.issuer.grants|], es)
    ensures var n := |s.issuer.grants|;
            var s' := After(s, es);
            && n <= |s'.issuer.grants| <= n + 1
            && (forall p, t :: 0 <= p < |s'.procs| && s'.procs[p] == Done(Usable(t)) ==>
                  |s'.issuer.grants| == n + 1 && t.access == s'.issuer.grants[n].access)
  {
    var n := |s.issuer.grants|;
    RunConverges(s, es, lapsed, n);
    var s' := After(s, es);
    forall p, t | 0 <= p < |s'.procs| && s'.procs[p] == Done(Usable(t))
      ensures |s'.issuer.grants| == n + 1 && t.access == s'.issuer.grants[n].access
    {
      assert ConvergingAt(s'.file.value, s'.procs[p], lapsed, Winner(s'.issuer, n));
    }
  }

  /** Nothing fails: no error, no crash, and the issuer refuses nobody. */
  predicate Smooth(es: seq<Event>) {
    forall e :: e in es ==> !e.Fail? && (e.Exchange? ==> e.reply.Some?)
  }

  /** Where a renewal that has not failed can be. */
  predicate OnItsWay(ph: Phase) {
    match ph
    case Waiting(Renew(_)) => true
    case Holding(Renew(_)) => true
    case Chosen(_, _) => true
    case Exchanged(_, _) => true
    case Returning(Usable(_)) => true
    case Done(Usable(_)) => true
    case _ => false
  }

  lemma {:induction false} RenewalsGoOn(s: State, es: seq<Event>, p: Pid)
    requires IsRun(s, es) && Underway(es) && Smooth(es)
    requires p < |s.procs| && OnItsWay(s.procs[p])
    ensures p < |After(s, es).procs| && OnItsWay(After(s, es).procs[p])
    decreases |es|
  {
    if es == [] {
    } else {
      assert es[0] in es;
      RenewalsGoOn(Apply(s, es[0]), es[1..], p);
    }
  }

  /**
   And when nothing fails and every process has finished, at least one of them a renewal,
   exactly one exchange was granted and every renewal returned its access token.
   */
  lemma SmoothRunsConverge(s: State, es: seq<Event>, lapsed: TokenSet, renewer: Pid)
    requires AllHold(s, lapsed) && IsRun(s, es) && Underway(es) && Smooth(es)
    requires var grants := After(s, es).issuer.grants;
             |grants| > |s.issuer.grants| ==> InDate(grants[|s.issuer.grants|], es)
    requires renewer < |s.procs| && s.procs[renewer] == Waiting(Renew(lapsed))
    requires forall p :: 0 <= p < |After(s, es).procs| ==> After(s, es).procs[p].Done?
    ensures var n := |s.issuer.grants|;
            var s' := After(s, es);
            && |s'.issuer.grants| == n + 1 && |s'.procs| == |s.procs|
            && (forall p :: 0 <= p < |s.procs| && s.procs[p] == Waiting(Renew(lapsed)) ==>
                  s'.procs[p].outcome.Usable? && s'.procs[p].outcome.login.access == s'.issuer.grants[n].access)
  {
    ProcessesConverge(s, es, lapsed);
    ProcsStay(s, es);
    var s' := After(s, es);
    forall p | 0 <= p < |s.procs|
      ensures s.procs[p] == Waiting(Renew(lapsed)) ==> s'.procs[p].outcome.Usable?
    {
      if s.procs[p] == Waiting(Renew(lapsed)) {
        RenewalsGoOn(s, es, p);
      }
    }
  }

  lemma {:induction false} ProcsStay(s: State, es: seq<Event>)
    requires IsRun(s, es)
    ensures |After(s, es).procs| == |s.procs|
    decreases |es|
  {
    if es == [] {
    } else {
      ProcsStay(Apply(s, es[0]), es[1..]);
    }
  }

  /** Once a renewal that never lapses is stored, the others find it, one after another. */
  lemma {:induction false} OthersFindIt(s: State, lapsed: TokenSet, k: nat) returns (es: seq<Event>)
    requires s.file.Some? && s.file.value.access != lapsed.access && s.file.value.expiresAt.None? && s.lock.None?
    requires k <= |s.procs| && forall p :: 0 <= p < k ==> s.procs[p].Done?
    requires forall p :: k <= p < |s.procs| ==> s.procs[p] == Waiting(Renew(lapsed))
    ensures IsRun(s, es) && (forall e :: e in es ==> e.Lock? || e.Look? || e.Release?)
    ensures After(s, es).issuer == s.issuer && |After(s, es).procs| == |s.procs|
    ensures forall p :: 0 <= p < |s.procs| ==> After(s, es).procs[p].Done?
    decreases |s.procs| - k
  {
    if k == |s.procs| {
      es := [];
    } else {
      var g := Grant(0, None, None, None);
      RenewalIsARun(s, k, lapsed, 0, g);
      var first := RenewalSteps(s.file, s.issuer, k, lapsed, 0, g);
      var t := After(s, first);
      var rest := OthersFindIt(t, lapsed, k + 1);
      RunsJoin(s, first, rest);
      es := first + rest;
    }
  }

  /**
   Such runs there are: any number of processes that hold one lapsed login, with a token the
   issuer still takes, can all finish without a failure while the renewal stays in date.
   */
  lemma SmoothRunExists(s: State, lapsed: TokenSet, g: Grant) returns (es: seq<Event>)
    requires s.file == Some(lapsed) && s.lock.None? && lapsed.access in s.issuer.family
    requires s.procs != [] && forall p :: 0 <= p < |s.procs| ==> s.procs[p] == Waiting(Renew(lapsed))
    requires MayGrant(s.issuer, lapsed, g) && g.expiresAt.None?
    ensures AllHold(s, lapsed) && IsRun(s, es) && Underway(es) && Smooth(es)
    ensures forall p :: 0 <= p < |After(s, es).procs| ==> After(s, es).procs[p].Done?
    ensures var grants := After(s, es).issuer.grants;
            |grants| > |s.issuer.grants| && InDate(grants[|s.issuer.grants|], es)
  {
    RenewalIsARun(s, 0, lapsed, 0, g);
    var first := RenewalSteps(s.file, s.issuer, 0, lapsed, 0, g);
    assert first == [Lock(0), Look(0, 0)] + [Exchange(0, Some(g)), Write(0), Release(0)];
    var t := After(s, first);
    var rest := OthersFindIt(t, lapsed, 1);
    RunsJoin(s, first, rest);
    es := first + rest;
  }

  // -- The functions as written ----------------------------------------------

  /**
   What an uninterrupted renewal comes to. A stored login other than the one it set out
   with is handed back, and nothing else happens, exactly when it states no expiry or is
   more than five minutes from it, on a clock that saturates at 64 bits. Otherwise the
   stored login is exchanged, or the caller's own when none is stored; what the answer
   leaves out is kept, the project always.
   */
  lemma RenewalDecides(file: Option<TokenSet>, i: Issuer, stale: TokenSet, now: nat, offered: Grant)
    ensures var soon := if now + 300 < 0x1_0000_0000_0000_0000 then now + 300 else 0xFFFF_FFFF_FFFF_FFFF;
            file.Some? && RenewalEffect(file, i, stale, now, offered) == (file, i, Usable(file.value)) <==>
            file.Some? && file.value.access != stale.access
            && (file.value.expiresAt.None? || soon < file.value.expiresAt.value)
    ensures var (after, issuer, r) := RenewalEffect(file, i, stale, now, offered);
            var base := if file.Some? then file.value else stale;
            var soon := if now + 300 < 0x1_0000_0000_0000_0000 then now + 300 else 0xFFFF_FFFF_FFFF_FFFF;
            file.None? || file.value.access == stale.access
            || (file.value.expiresAt.Some? && file.value.expiresAt.value <= soon) ==>
              if MayGrant(i, base, offered) then
                && r.Usable? && after == Some(r.login) && issuer.grants == i.grants + [r.login]
                && r.login.access == offered.access && r.login.expiresAt == offered.expiresAt
                && r.login.refresh == (if offered.refresh.None? then base.refresh else offered.refresh)
                && r.login.idToken == (if offered.idToken.None? then base.idToken else offered.idToken)
                && r.login.project == base.project
                && (r.login.refresh != base.refresh ==> base.refresh.value in issuer.spent)
              else after == file && issuer == i && r == Failed
  {
    var (after, issuer, r) := RenewalEffect(file, i, stale, now, offered);
    if issuer != i {
      assert |issuer.grants| == |i.grants| + 1;
    }
  }

  /** One login's credential file, with the lock taken for the whole of each call. */
  class CredentialFile {
    var content: Option<TokenSet>
    var issuer: Issuer

    constructor (content: Option<TokenSet>, issuer: Issuer)
      ensures this.content == content && this.issuer == issuer
    {
      this.content, this.issuer := content, issuer;
    }

    method RefreshStoredLogin(stale: TokenSet, now: nat, offered: Grant) returns (r: Outcome)
      modifies this
      ensures (content, issuer, r) == RenewalEffect(old(content), old(issuer), stale, now, offered)
      ensures r.Usable? ==> content == Some(r.login)
      // Handed back unrenewed exactly when it is not the caller's and is in date.
      ensures var soon := if now + 300 < 0x1_0000_0000_0000_0000 then now + 300 else 0xFFFF_FFFF_FFFF_FFFF;
              r.Usable? && content == old(content) && issuer == old(issuer) <==>
              old(content).Some? && old(content).value.access != stale.access
              && (old(content).value.expiresAt.None? || soon < old(content).value.expiresAt.value)
    {
      RenewalDecides(content, issuer, stale, now, offered);
      var tokens := stale;
      if content.Some? {
        if content.value.access != stale.access && !IsExpired(content.value, now) {
          return Usable(content.value);
        }
        tokens := content.value;
      }
      var answer := Answer(issuer, tokens, offered);
      if answer.None? {
        return Failed;
      }
      issuer := Granted(issuer, tokens, answer.value);
      var refreshed := Renewed(tokens, answer.value);
      content := Some(refreshed);
      return Usable(refreshed);
    }

    method RenewRejected(now: nat, offered: Grant) returns (r: Outcome)
      modifies this
      ensures old(content).None? ==> r == Failed && content == old(content) && issuer == old(issuer)
      // Whatever its expiry says, the login read is not taken as renewed already.
      ensures old(content).Some? ==> (r.Usable? <==> MayGrant(old(issuer), old(content).value, offered))
      ensures r.Usable? ==>
        && r.login == Renewed(old(content).value, offered)
        && content == Some(r.login)
        && issuer == Granted(old(issuer), old(content).value, offered)
      ensures !r.Usable? ==> content == old(content) && issuer == old(issuer)
    {
      if content.None? {
        return Failed;
      }
      r := RefreshStoredLogin(content.value, now, offered);
    }

    method StoreLogin(login: TokenSet)
      modifies this`content
      ensures content == Some(login)
    {
      content := Some(login);
    }

    method RememberProject(project: string)
      modifies this`content
      ensures content == Noted(old(content), project)
    {
      if content.Some? {
        content := Some(content.value.(project := Some(project)));
      }
    }
  }
}
