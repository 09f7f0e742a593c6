/**
 The settings file of `config_load.rs`: any number of processes create it on a first run
 (`bootstrap_user_config`) and rewrite it (`replace_file`). Both stage a file beside it;
 the first links the staged file into place, the second renames it. A file is an inode
 and its names, since a link leaves one inode with two. Each process runs one call at a
 time; its system calls are separate steps.
 */
module SettingsFile {
  import opened Wrappers

  type Body = string
  type Inode = nat
  type Pid = nat

  /** A staged file's name: the two functions count separately but share the format. */
  datatype Name = Name(pid: Pid, seqNo: nat)

  datatype Fs = Fs(dest: Option<Inode>, staged: map<Name, Inode>, data: map<Inode, Body>, next: Inode)

  datatype Kind = Bootstrap | Replace

  datatype Phase =
    | Idle
    | Probing(body: Body)                              // bootstrap, before `path.exists()`
    | Creating(kind: Kind, body: Body)
    | Writing(kind: Kind, name: Name, body: Body)
    | Ready(kind: Kind, name: Name, body: Body)        // written and synced
    | Cleaning(name: Name)                             // the staged name is to be removed

  datatype Proc = Proc(phase: Phase, linked: nat, renamed: nat)

  datatype State = State(fs: Fs, procs: seq<Proc>, bodies: set<Body>)

  datatype Event =
    | StartBootstrap(p: Pid, body: Body)
    | StartReplace(p: Pid, body: Body)
    | Probe(p: Pid)
    | Create(p: Pid)
    | CreateFails(p: Pid)
    | Append(p: Pid, upTo: nat)
    | Synced(p: Pid)
    | WriteFails(p: Pid)
    | Publish(p: Pid)
    | PublishFails(p: Pid)
    | Remove(p: Pid)
    | RemoveFails(p: Pid)
    | Crash(p: Pid)          // and a later process takes the same id
    | Delete                 // someone deletes the settings file

  /** What someone reading the settings file sees. */
  function Seen(fs: Fs): Option<Body> {
    if fs.dest.Some? && fs.dest.value in fs.data then Some(fs.data[fs.dest.value]) else None
  }

  function NextName(p: Pid, proc: Proc, kind: Kind): Name {
    Name(p, if kind == Bootstrap then proc.linked else proc.renamed)
  }

  function Counted(proc: Proc, kind: Kind): Proc {
    if kind == Bootstrap then proc.(linked := proc.linked + 1) else proc.(renamed := proc.renamed + 1)
  }

  /** `File::create`: a new file, or an existing one emptied. */
  function Created(fs: Fs, name: Name): Fs {
    if name in fs.staged then fs.(data := fs.data[fs.staged[name] := []])
    else fs.(staged := fs.staged[name := fs.next], data := fs.data[fs.next := []], next := fs.next + 1)
  }

  function Removed(fs: Fs, name: Name): Fs {
    fs.(staged := fs.staged - {name})
  }

  /** A hard link fails when the file exists; a rename replaces it, but leaves two names of one file alone. */
  function Published(fs: Fs, kind: Kind, name: Name): Fs
    requires name in fs.staged
  {
    if kind == Replace then
      if fs.dest == Some(fs.staged[name]) then fs else Removed(fs, name).(dest := Some(fs.staged[name]))
    else if fs.dest.None? then fs.(dest := Some(fs.staged[name]))
    else fs
  }

  predicate Enabled(s: State, e: Event) {
    if e.Delete? then true
    else if e.p >= |s.procs| then false
    else
      var phase := s.procs[e.p].phase;
      match e
      case StartBootstrap(_, _) => phase.Idle?
      case StartReplace(_, _) => phase.Idle?
      case Probe(_) => phase.Probing?
      case Create(_) => phase.Creating?
      case CreateFails(_) => phase.Creating?
      case Append(_, upTo) => phase.Writing? && phase.name in s.fs.staged && upTo <= |phase.body|
      case Synced(_) =>
        phase.Writing? && phase.name in s.fs.staged && s.fs.staged[phase.name] in s.fs.data
        && s.fs.data[s.fs.staged[phase.name]] == phase.body
      case WriteFails(_) => phase.Writing?
      case Publish(_) => phase.Ready? && phase.name in s.fs.staged
      case PublishFails(_) => phase.Ready?
      case Remove(_) => phase.Cleaning?
      case RemoveFails(_) => phase.Cleaning?
      case Crash(_) => true
  }

  function In(s: State, p: Pid, phase: Phase): State
    requires p < |s.procs|
  {
    s.(procs := s.procs[p := s.procs[p].(phase := phase)])
  }

  function Apply(s: State, e: Event): State
    requires Enabled(s, e)
  {
    match e
    case Delete => s.(fs := s.fs.(dest := None))
    case StartBootstrap(p, body) => In(s, p, Probing(body)).(bodies := s.bodies + {body})
    case StartReplace(p, body) => In(s, p, Creating(Replace, body)).(bodies := s.bodies + {body})
    case Probe(p) => In(s, p, if s.fs.dest.Some? then Idle else Creating(Bootstrap, s.procs[p].phase.body))
    case Create(p) =>
      var proc := s.procs[p];
      var kind, body := proc.phase.kind, proc.phase.body;
      var name := NextName(p, proc, kind);
      s.(fs := Created(s.fs, name), procs := s.procs[p := Counted(proc, kind).(phase := Writing(kind, name, body))])
    case CreateFails(p) =>
      // The bootstrap gives up; the rewrite still tries to remove the name.
      var proc := s.procs[p];
      var kind := proc.phase.kind;
      var phase := if kind == Bootstrap then Idle else Cleaning(NextName(p, proc, kind));
      s.(procs := s.procs[p := Counted(proc, kind).(phase := phase)])
    case Append(p, upTo) =>
      var phase := s.procs[p].phase;
      s.(fs := s.fs.(data := s.fs.data[s.fs.staged[phase.name] := phase.body[..upTo]]))
    case Synced(p) =>
      var phase := s.procs[p].phase;
      In(s, p, Ready(phase.kind, phase.name, phase.body))
    case WriteFails(p) => In(s, p, Cleaning(s.procs[p].phase.name))
    case Publish(p) =>
      var phase := s.procs[p].phase;
      In(s, p, if phase.kind == Replace then Idle else Cleaning(phase.name))
      .(fs := Published(s.fs, phase.kind, phase.name))
    case PublishFails(p) => In(s, p, Cleaning(s.procs[p].phase.name))
    case Remove(p) => In(s, p, Idle).(fs := Removed(s.fs, s.procs[p].phase.name))
    case RemoveFails(p) => In(s, p, Idle)
    case Crash(p) => s.(procs := s.procs[p := Proc(Idle, 0, 0)])
  }

  predicate IsRun(s: State, es: seq<Event>)
    decreases |es|
  {
    es == [] || (Enabled(s, es[0]) && IsRun(Apply(s, es[0]), es[1..]))
  }

  function After(s: State, es: seq<Event>): State
    requires IsRun(s, es)
    decreases |es|
  {
    if es == [] then s else After(Apply(s, es[0]), es[1..])
  }

  lemma {:induction false} RunSnoc(s: State, es: seq<Event>, e: Event)
    requires IsRun(s, es) && Enabled(After(s, es), e)
    ensures IsRun(s, es + [e]) && After(s, es + [e]) == Apply(After(s, es), e)
    decreases |es|
  {
    if es == [] {
      assert [e][1..] == [];
    } else {
      RunSnoc(Apply(s, es[0]), es[1..], e);
      assert (es + [e])[1..] == es[1..] + [e];
    }
  }

  /** Some run made one step longer. */
  lemma Then(s0: State, es: seq<Event>, s: State, e: Event) returns (longer: seq<Event>)
    requires IsRun(s0, es) && After(s0, es) == s && Enabled(s, e)
    ensures IsRun(s0, longer) && After(s0, longer) == Apply(s, e)
  {
    RunSnoc(s0, es, e);
    longer := es + [e];
  }

  // -- The invariant ------------------------------------------------------------

  /** A second name of the settings file, as a link leaves one until the staged name is removed. */
  predicate IsLink(fs: Fs, name: Name) {
    name in fs.staged && fs.dest == Some(fs.staged[name])
  }

  /** The name a process about to stage a file comes to is a link to the settings file. */
  predicate Hits(s: State, e: Event)
    requires Enabled(s, e)
  {
    e.Create? && IsLink(s.fs, NextName(e.p, s.procs[e.p], s.procs[e.p].phase.kind))
  }

  /** No file is staged under a link to the settings file. */
  predicate Spares(s: State, es: seq<Event>)
    requires IsRun(s, es)
    decreases |es|
  {
    es == [] || (!Hits(s, es[0]) && Spares(Apply(s, es[0]), es[1..]))
  }

  /** Every file in use exists, and no two names, the settings file's aside, share one. */
  predicate Sound(fs: Fs) {
    && (fs.dest.Some? ==> fs.dest.value in fs.data)
    && (forall n :: n in fs.staged ==> fs.staged[n] in fs.data)
    && (forall i :: i in fs.data ==> i < fs.next)
    && (forall n, m :: n in fs.staged && m in fs.staged && fs.staged[n] == fs.staged[m] ==> n == m)
  }

  /** Nobody is writing, or about to publish, under a link to the settings file. */
  predicate Apart(s: State) {
    forall p :: 0 <= p < |s.procs| && (s.procs[p].phase.Writing? || s.procs[p].phase.Ready?) ==>
      !IsLink(s.fs, s.procs[p].phase.name)
  }

  predicate PhaseSound(s: State, p: Pid)
    requires p < |s.procs|
  {
    match s.procs[p].phase
    case Probing(body) => body in s.bodies
    case Creating(_, body) => body in s.bodies
    case Writing(_, name, body) => name.pid == p && name in s.fs.staged && body in s.bodies
    case Ready(_, name, body) =>
      && name.pid == p && name in s.fs.staged && body in s.bodies
      && s.fs.staged[name] in s.fs.data && s.fs.data[s.fs.staged[name]] == body
    case Cleaning(name) => name.pid == p
    case Idle => true
  }

  /** The settings file is absent or holds one call's whole body. */
  predicate Whole(s: State) {
    && (s.fs.dest.Some? ==> Seen(s.fs).Some?)
    && (Seen(s.fs).Some? ==> Seen(s.fs).value in s.bodies)
  }

  predicate Inv(s: State) {
    && Sound(s.fs) && Apart(s) && Whole(s)
    && (forall p :: 0 <= p < |s.procs| ==> PhaseSound(s, p))
  }

  /** A directory where nothing is staged and no call has begun; what is there counts as whole. */
  predicate Init(s: State) {
    && s.fs.staged == map[] && Sound(s.fs)
    && (Seen(s.fs).Some? ==> Seen(s.fs).value in s.bodies)
    && (forall p :: 0 <= p < |s.procs| ==> s.procs[p].phase.Idle?)
  }

  /** How it begins: any number of idle processes and at most the settings file, with what it holds. */
  lemma BeginsSo(n: nat, body: Option<Body>)
    ensures var fs := if body.None? then Fs(None, map[], map[], 0) else Fs(Some(0), map[], map[0 := body.value], 1);
            var bodies := if body.None? then {} else {body.value};
            Init(State(fs, seq(n, _ => Proc(Idle, 0, 0)), bodies))
  {
  }

  lemma StepKeepsPhases(s: State, e: Event)
    requires Inv(s) && Enabled(s, e)
    ensures forall p :: 0 <= p < |Apply(s, e).procs| ==> PhaseSound(Apply(s, e), p)
  {
    var s' := Apply(s, e);
    if !e.Delete? {
      assert PhaseSound(s, e.p);
    }
    forall p | 0 <= p < |s'.procs|
      ensures PhaseSound(s', p)
    {
      assert PhaseSound(s, p);
    }
  }

  lemma StepKeepsSound(s: State, e: Event)
    requires Inv(s) && Enabled(s, e)
    ensures Sound(Apply(s, e).fs)
  {
  }

  lemma StepKeepsApart(s: State, e: Event)
    requires Inv(s) && Enabled(s, e) && !Hits(s, e)
    ensures Apart(Apply(s, e))
  {
    var s' := Apply(s, e);
    if !e.Delete? {
      assert PhaseSound(s, e.p);
    }
    forall p | 0 <= p < |s'.procs| && (s'.procs[p].phase.Writing? || s'.procs[p].phase.Ready?)
      ensures !IsLink(s'.fs, s'.procs[p].phase.name)
    {
      assert PhaseSound(s, p);
    }
  }

  /**
   What a reader sees changes at four points only: a rename puts the whole new body there,
   a link puts a whole body where nothing was, a deletion takes it away, and a file staged
   under a link to it empties it. No other step of any call touches it, so bootstrapping
   never changes a file that exists but in that last way.
   */
  lemma SeenChanges(s: State, e: Event)
    requires Inv(s) && Enabled(s, e)
    ensures Seen(Apply(s, e).fs) ==
            match e
            case Delete => None
            case Publish(p) =>
              if s.procs[p].phase.kind == Replace || Seen(s.fs).None? then Some(s.procs[p].phase.body) else Seen(s.fs)
            case Create(_) => if Hits(s, e) then Some([]) else Seen(s.fs)
            case _ => Seen(s.fs)
  {
    if !e.Delete? {
      assert PhaseSound(s, e.p);
    }
  }

  lemma StepKeepsInv(s: State, e: Event)
    requires Inv(s) && Enabled(s, e) && !Hits(s, e)
    ensures Inv(Apply(s, e))
  {
    StepKeepsPhases(s, e);
    StepKeepsSound(s, e);
    StepKeepsApart(s, e);
    SeenChanges(s, e);
    if !e.Delete? {
      assert PhaseSound(s, e.p);
    }
  }

  // -- The main results -----------------------------------------------------------

  /** The file is absent or whole at every point of the run. */
  predicate WholeThroughout(s: State, es: seq<Event>)
    requires IsRun(s, es)
    decreases |es|
  {
    Whole(s) && (es == [] || WholeThroughout(Apply(s, es[0]), es[1..]))
  }

  lemma {:induction false} BodiesGrow(s: State, es: seq<Event>)
    requires IsRun(s, es)
    ensures s.bodies <= After(s, es).bodies
    decreases |es|
  {
    if es == [] {
    } else {
      BodiesGrow(Apply(s, es[0]), es[1..]);
    }
  }

  /**
   With any number of processes bootstrapping and rewriting, writes and removals failing
   and processes dying at any point: as long as no file is staged under a link to the
   settings file, a reader finds it absent or holding one call's whole body, throughout.
   When no call writes an empty body, that is exactly when a reader does.
   */
  lemma {:induction false} ReaderSeesWholeBody(s: State, es: seq<Event>)
    requires Inv(s) && IsRun(s, es)
    ensures Spares(s, es) ==> WholeThroughout(s, es) && Inv(After(s, es))
    ensures [] !in After(s, es).bodies ==> (WholeThroughout(s, es) <==> Spares(s, es))
    decreases |es|
  {
    if es == [] {
    } else {
      var s1 := Apply(s, es[0]);
      BodiesGrow(s1, es[1..]);
      if Hits(s, es[0]) {
        SeenChanges(s, es[0]);
      } else {
        StepKeepsInv(s, es[0]);
        ReaderSeesWholeBody(s1, es[1..]);
      }
    }
  }

  lemma InitKeepsInv(s: State)
    requires Init(s)
    ensures Inv(s)
  {
  }

  /** Neither a cleanup that failed nor a process that died. */
  predicate Clean(es: seq<Event>) {
    forall e :: e in es ==> !e.RemoveFails? && !e.Crash?
  }

  /** Every staged name belongs to the call under way in its process. */
  predicate Owned(s: State) {
    forall n :: n in s.fs.staged ==>
      && n.pid < |s.procs|
      && var phase := s.procs[n.pid].phase;
         (phase.Writing? || phase.Ready? || phase.Cleaning?) && phase.name == n
  }

  lemma StepStaysOwned(s: State, e: Event)
    requires Inv(s) && Owned(s) && Enabled(s, e) && !e.RemoveFails? && !e.Crash?
    ensures !Hits(s, e) && Owned(Apply(s, e))
  {
    if e != Delete {
      assert PhaseSound(s, e.p);
    }
  }

  lemma {:induction false} RunStaysOwned(s: State, es: seq<Event>)
    requires Inv(s) && Owned(s) && IsRun(s, es) && Clean(es)
    ensures Owned(After(s, es)) && Spares(s, es)
    decreases |es|
  {
    if es == [] {
    } else {
      assert es[0] in es;
      StepStaysOwned(s, es[0]);
      StepKeepsInv(s, es[0]);
      RunStaysOwned(Apply(s, es[0]), es[1..]);
    }
  }

  /**
   When no removal fails and no process dies, no file is ever staged under a link, and once
   every call has finished nothing staged is left, however the calls went.
   */
  lemma NothingStagedLeft(s0: State, es: seq<Event>)
    requires Init(s0) && IsRun(s0, es) && forall e :: e in es ==> !e.RemoveFails? && !e.Crash?
    requires forall p :: 0 <= p < |After(s0, es).procs| ==> After(s0, es).procs[p].phase.Idle?
    ensures After(s0, es).fs.staged == map[] && WholeThroughout(s0, es)
  {
    assert Clean(es);
    RunStaysOwned(s0, es);
    ReaderSeesWholeBody(s0, es);
  }

  /** Creating a staged file leaves the settings file alone exactly when its name is not a second one of it. */
  lemma CreateKeepsSeenIff(fs: Fs, name: Name)
    requires Sound(fs)
    ensures Seen(Created(fs, name)) == Seen(fs) <==>
            !IsLink(fs, name) || Seen(fs) == Some([])
  {
  }

  /** A bootstrap in a new directory, up to the file it is to write. */
  lemma BootstrapStages(s0: State, p: Pid, body: Body) returns (es: seq<Event>, s: State)
    requires Init(s0) && s0.fs.dest.None? && p < |s0.procs|
    ensures IsRun(s0, es) && After(s0, es) == s
    ensures var name := Name(p, s0.procs[p].linked);
            && |s.procs| == |s0.procs| && s.bodies == s0.bodies + {body}
            && s.procs[p] == Proc(Writing(Bootstrap, name, body), s0.procs[p].linked + 1, s0.procs[p].renamed)
            && s.fs.dest.None? && name in s.fs.staged
  {
    var s1 := Apply(s0, StartBootstrap(p, body));
    var s2 := Apply(s1, Probe(p));
    es := Then(s0, [], s0, StartBootstrap(p, body));
    es := Then(s0, es, s1, Probe(p));
    es := Then(s0, es, s2, Create(p));
    s := Apply(s2, Create(p));
  }

  /** A bootstrap that links its file and cannot remove the staged name. */
  lemma LinkLeftBehind(s0: State, p: Pid, body: Body) returns (es: seq<Event>, s: State)
    requires Init(s0) && s0.fs.dest.None? && p < |s0.procs|
    ensures IsRun(s0, es) && After(s0, es) == s
    ensures |s.procs| == |s0.procs| && s.procs[p] == Proc(Idle, s0.procs[p].linked + 1, s0.procs[p].renamed)
    ensures IsLink(s.fs, Name(p, s0.procs[p].linked)) && s.bodies == s0.bodies + {body}
  {
    var s3: State;
    es, s3 := BootstrapStages(s0, p, body);
    var s4 := Apply(s3, Append(p, |body|));
    var s5 := Apply(s4, Synced(p));
    var s6 := Apply(s5, Publish(p));
    es := Then(s0, es, s3, Append(p, |body|));
    es := Then(s0, es, s4, Synced(p));
    es := Then(s0, es, s5, Publish(p));
    es := Then(s0, es, s6, RemoveFails(p));
    s := Apply(s6, RemoveFails(p));
  }

  /**
   It does happen, because the two functions count their staged names apart but share the
   format: in a new directory a process bootstraps the file and cannot remove the staged
   name, and its first rewrite, which comes to the same number, empties the settings file
   before it has written anything. What a reader then sees is no call's body.
   */
  lemma LeftoverLinkEmptiesFile(s0: State, p: Pid, body: Body, another: Body) returns (es: seq<Event>)
    requires Init(s0) && s0.fs.dest.None? && p < |s0.procs| && s0.procs[p].linked == s0.procs[p].renamed
    requires [] !in s0.bodies + {body, another}
    ensures IsRun(s0, es) && !Spares(s0, es)
    ensures var s := After(s0, es); Seen(s.fs).Some? && Seen(s.fs).value !in s.bodies
  {
    var s: State;
    es, s := LinkLeftBehind(s0, p, body);
    var t := Apply(s, StartReplace(p, another));
    es := Then(s0, es, s, StartReplace(p, another));
    es := Then(s0, es, t, Create(p));
    InitKeepsInv(s0);
    ReaderSeesWholeBody(s0, es);
  }

  /**
   Nothing from outside is left out of the runs: a deletion or a crash may come at any
   point, and whatever a call is at may fail. What a failure leaves to do is to remove the
   staged name, except that a bootstrap which could not create its file is over.
   */
  lemma AnythingMayFail(s: State, p: Pid)
    requires p < |s.procs|
    ensures Enabled(s, Delete) && Enabled(s, Crash(p))
    ensures s.procs[p].phase.Creating? ==>
              && Enabled(s, CreateFails(p)) && Apply(s, CreateFails(p)).fs == s.fs
              && Apply(s, CreateFails(p)).procs[p] ==
                 var (phase, linked, renamed) := (s.procs[p].phase, s.procs[p].linked, s.procs[p].renamed);
                 if phase.kind == Bootstrap then Proc(Idle, linked + 1, renamed)
                 else Proc(Cleaning(Name(p, renamed)), linked, renamed + 1)
    ensures var phase := s.procs[p].phase;
            && (phase.Writing? ==>
                  Enabled(s, WriteFails(p)) && Apply(s, WriteFails(p)) == In(s, p, Cleaning(phase.name)))
            && (phase.Ready? ==>
                  Enabled(s, PublishFails(p)) && Apply(s, PublishFails(p)) == In(s, p, Cleaning(phase.name)))
            && (phase.Cleaning? ==>
                  Enabled(s, RemoveFails(p)) && Apply(s, RemoveFails(p)) == In(s, p, Idle))
  {
  }
}
