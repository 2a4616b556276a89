/** Pushing a configuration to its VPS (backend/internal/scripts/heartbeat.go,
    heartbeat_hermes.go and backend/internal/api/sync.go).  The database row has a version
    that grows with every update; the VPS has a version file.  A heartbeat pass learns the
    version from the reply, fetches the configuration in a second request, rewrites the env
    file, recreates the container, sets the model, and records the replied version last.
    The script pushed over SSH does the same and records the version it fetched.  Updates
    may land between any two of these steps, and a pass may die before any of them. */
module ConfigSync {
  import opened Options

  /** The parts of a configuration that reach the VPS: what goes into the env file, and
      the model. */
  datatype Config = Config(keys: nat, model: Option<nat>)

  /** What a VPS holds: the keys in its env file, the keys its container was started with,
      its model, and the version file. */
  datatype Vps = Vps(envKeys: nat, runningKeys: nat, model: Option<nat>, localVersion: nat)

  datatype Framework = OpenClaw | Hermes

  const HERMES_DEFAULT_MODEL: nat := 0

  /** The model a pass sets.  Hermes falls back on a default; OpenClaw leaves the model
      alone when the configuration names none. */
  function Wanted(f: Framework, cfg: Config): Option<nat> {
    if f == Hermes && cfg.model.None? then Some(HERMES_DEFAULT_MODEL) else cfg.model
  }

  // ---------------------------------------------------------------------------
  // The program of one pass

  datatype Point = Fetch | Rewrite | Recreate | Await | SetModel | Record | Gone

  datatype Event =
    | Fetched(ok: bool)
    | EnvRewritten(changed: bool)   // `changed`: the file differs from its copy
    | Recreated(ok: bool)
    | Waited(healthy: bool)         // up to 24 polls
    | ModelWritten(ok: bool) | NoModel
    | Recorded
    | Died

  /** OpenClaw recreates the container only when the env file changed, and waits for it
      only then; Hermes writes its model file first and recreates every time.  The heartbeat
      scripts go on after a failed recreate, the SSH scripts stop.  A failed model command
      is ignored by both. */
  function Advance(f: Framework, ssh: bool, at: Point, e: Event): Option<Point> {
    match (at, e)
    case (Gone, _) => None
    case (_, Died) => Some(Gone)
    case (Fetch, Fetched(ok)) => Some(if ok then Rewrite else Gone)
    case (Rewrite, EnvRewritten(changed)) => Some(if f == OpenClaw && changed then Recreate else SetModel)
    case (Recreate, Recreated(ok)) => Some(if ssh && !ok then Gone else Await)
    case (Await, Waited(healthy)) => Some(if !healthy then Gone else if f == OpenClaw then SetModel else Record)
    case (SetModel, ModelWritten(ok)) =>
      if f == OpenClaw then Some(Record) else if ok then Some(Recreate) else None
    case (SetModel, NoModel) => Some(Record)
    case (Record, Recorded) => Some(Gone)
    case _ => None
  }

  /** A file whose keys change differs; a model is set exactly when there is one to set. */
  predicate Truthful(f: Framework, v: Vps, cfg: Config, e: Event) {
    && (e.EnvRewritten? && v.envKeys != cfg.keys ==> e.changed)
    && (e.ModelWritten? ==> Wanted(f, cfg).Some?)
    && (e.NoModel? ==> Wanted(f, cfg).None?)
  }

  function Effect(f: Framework, v: Vps, cfg: Config, record: nat, e: Event): Vps {
    match e
    case EnvRewritten(_) => v.(envKeys := cfg.keys)
    case Recreated(true) => v.(runningKeys := v.envKeys)
    case ModelWritten(true) => v.(model := Wanted(f, cfg))
    case Recorded => v.(localVersion := record)
    case _ => v
  }

  // ---------------------------------------------------------------------------
  // The scripts

  /** A pass and its VPS. */
  datatype Exec = Exec(at: Point, vps: Vps)

  function Step(f: Framework, ssh: bool, cfg: Config, record: nat, x: Exec, e: Event): Option<Exec> {
    if Advance(f, ssh, x.at, e).None? || !Truthful(f, x.vps, cfg, e) then None
    else Some(Exec(Advance(f, ssh, x.at, e).value, Effect(f, x.vps, cfg, record, e)))
  }

  /** Where a pass is after a sequence of events. */
  function Walk(f: Framework, ssh: bool, cfg: Config, record: nat, x: Exec, trace: seq<Event>): Option<Exec> {
    if trace == [] then Some(x)
    else
      var last := |trace| - 1;
      var before := Walk(f, ssh, cfg, record, x, trace[..last]);
      if before.None? then None else Step(f, ssh, cfg, record, before.value, trace[last])
  }

  lemma Emit(f: Framework, ssh: bool, cfg: Config, record: nat, x: Exec, trace: seq<Event>, e: Event)
    returns (longer: seq<Event>)
    requires var now := Walk(f, ssh, cfg, record, x, trace);
      now.Some? && Step(f, ssh, cfg, record, now.value, e).Some?
    ensures longer == trace + [e]
    ensures Walk(f, ssh, cfg, record, x, longer)
            == Step(f, ssh, cfg, record, Walk(f, ssh, cfg, record, x, trace).value, e)
  {
    longer := trace + [e];
    assert longer[..|trace|] == trace;
  }

  lemma NoEventsYet(f: Framework, ssh: bool, cfg: Config, record: nat, x: Exec)
    ensures Walk(f, ssh, cfg, record, x, []) == Some(x)
  {
  }

  /** What can come right after what.  Nothing is written before the configuration is there,
      the container is recreated after an env file that changed (OpenClaw) or after the model
      file (Hermes), a recreated container must be healthy before anything follows, and the
      version comes last. */
  predicate MayFollow(f: Framework, ssh: bool, last: Option<Event>, e: Event) {
    match e
    case Died => true
    case Fetched(_) => last.None?
    case EnvRewritten(_) => last == Some(Fetched(true))
    case ModelWritten(_) => BeforeModel(f, last) && (f == Hermes ==> e.ok)
    case NoModel => BeforeModel(f, last)
    case Recreated(_) => last == Some(if f == OpenClaw then EnvRewritten(true) else ModelWritten(true))
    case Waited(_) => last == Some(Recreated(true)) || (!ssh && last == Some(Recreated(false)))
    case Recorded =>
      || last == Some(NoModel)
      || if f == OpenClaw then last in {Some(ModelWritten(true)), Some(ModelWritten(false))}
         else last == Some(Waited(true))
  }

  predicate BeforeModel(f: Framework, last: Option<Event>) {
    if f == OpenClaw then last in {Some(EnvRewritten(false)), Some(Waited(true))}
    else last in {Some(EnvRewritten(false)), Some(EnvRewritten(true))}
  }

  /** The event before, in a pass that has fetched its configuration. */
  function Before(trace: seq<Event>, k: nat): Option<Event>
    requires k <= |trace|
  {
    Some(if k == 0 then Fetched(true) else trace[k - 1])
  }

  predicate Ordered(f: Framework, ssh: bool, trace: seq<Event>) {
    forall k :: 0 <= k < |trace| ==> MayFollow(f, ssh, Before(trace, k), trace[k])
  }

  /** The point that an event can have led to. */
  predicate Fits(f: Framework, ssh: bool, at: Point, last: Option<Event>) {
    match at
    case Fetch => last.None?
    case Rewrite => last == Some(Fetched(true))
    case Recreate => last == Some(if f == OpenClaw then EnvRewritten(true) else ModelWritten(true))
    case Await => last == Some(Recreated(true)) || (!ssh && last == Some(Recreated(false)))
    case SetModel => BeforeModel(f, last)
    case Record =>
      || last == Some(NoModel)
      || if f == OpenClaw then last in {Some(ModelWritten(true)), Some(ModelWritten(false))}
         else last == Some(Waited(true))
    case Gone => true
  }

  lemma AdvanceFits(f: Framework, ssh: bool, at: Point, last: Option<Event>, e: Event)
    requires Fits(f, ssh, at, last) && Advance(f, ssh, at, e).Some?
    ensures MayFollow(f, ssh, last, e) && Fits(f, ssh, Advance(f, ssh, at, e).value, Some(e))
  {
  }

  /** Every pass makes its calls in this order, from its fetch on. */
  lemma {:induction false} PassesAreOrdered(f: Framework, ssh: bool, cfg: Config, record: nat, v: Vps,
                                            trace: seq<Event>)
    requires Walk(f, ssh, cfg, record, Exec(Rewrite, v), trace).Some?
    ensures Ordered(f, ssh, trace)
    ensures Fits(f, ssh, Walk(f, ssh, cfg, record, Exec(Rewrite, v), trace).value.at, Before(trace, |trace|))
  {
    hide MayFollow, Truthful, Effect;
    if trace != [] {
      var last := |trace| - 1;
      var init := trace[..last];
      PassesAreOrdered(f, ssh, cfg, record, v, init);
      hide Fits, Advance;
      AdvanceFits(f, ssh, Walk(f, ssh, cfg, record, Exec(Rewrite, v), init).value.at, Before(init, last), trace[last]);
      OrderedMore(f, ssh, trace);
    }
  }

  lemma OrderedMore(f: Framework, ssh: bool, trace: seq<Event>)
    requires trace != [] && Ordered(f, ssh, trace[..|trace| - 1])
    requires MayFollow(f, ssh, Before(trace[..|trace| - 1], |trace| - 1), trace[|trace| - 1])
    ensures Ordered(f, ssh, trace)
  {
    hide MayFollow;
    var last := |trace| - 1;
    forall k | 0 <= k < |trace| ensures MayFollow(f, ssh, Before(trace, k), trace[k]) {
      BeforeInPart(trace, last, k);
      hide Before;
      assert k < last ==> trace[k] == trace[..last][k];
    }
  }

  lemma BeforeInPart(trace: seq<Event>, n: nat, k: nat)
    requires k <= n <= |trace|
    ensures Before(trace[..n], k) == Before(trace, k)
  {
  }

  /** One VPS, as the scripts update it. */
  class Host {
    var envKeys: nat
    var runningKeys: nat
    var model: Option<nat>
    var localVersion: nat
    ghost var trouble: nat      // what has gone wrong so far

    function View(): Vps
      reads this
    {
      Vps(envKeys, runningKeys, model, localVersion)
    }

    /** Polls of the health endpoint, until one is answered or 24 were not. */
    method AwaitHealth() returns (healthy: bool, ghost answers: seq<bool>)
      modifies this`trouble
      ensures healthy <==> true in answers
      ensures |answers| <= 24 && (!healthy ==> |answers| == 24)
      ensures trouble == if healthy then old(trouble) else old(trouble) + 1
    {
      healthy, answers := false, [];
      var polls := 0;
      while polls < 24 && !healthy
        invariant polls == |answers| <= 24 && (healthy <==> true in answers)
      {
        healthy := *;
        answers := answers + [healthy];
        polls := polls + 1;
      }
      trouble := if healthy then trouble else trouble + 1;
    }

    /** Whether the script dies here, or a command fails. */
    method Chance() returns (bad: bool)
      modifies this`trouble
      ensures trouble == if bad then old(trouble) + 1 else old(trouble)
    {
      bad := *;
      trouble := if bad then trouble + 1 else trouble;
    }

    /** The OpenClaw script once the configuration is fetched.  It runs its program to the
        end, and if nothing goes wrong the end is the record. */
    method PassOpenClaw(cfg: Config, record: nat, ssh: bool) returns (ghost trace: seq<Event>)
      modifies this
      ensures Walk(OpenClaw, ssh, cfg, record, Exec(Rewrite, old(View())), trace) == Some(Exec(Gone, View()))
      ensures Ordered(OpenClaw, ssh, trace)
      ensures trouble == old(trouble) ==>
                && trace != [] && trace[|trace| - 1] == Recorded && localVersion == record
                && envKeys == cfg.keys && model == (if cfg.model.Some? then cfg.model else old(model))
                && runningKeys in {cfg.keys, old(runningKeys)}
                && (old(envKeys) != cfg.keys ==> runningKeys == cfg.keys)
    {
      ghost var x := Exec(Rewrite, View());
      NoEventsYet(OpenClaw, ssh, cfg, record, x);
      hide Walk, Ordered, MayFollow, Fits;
      var dies := Chance();
      if dies {
        trace := Emit(OpenClaw, ssh, cfg, record, x, [], Died);
        PassesAreOrdered(OpenClaw, ssh, cfg, record, x.vps, trace);
        return;
      }
      var reordered: bool := *;
      var changed := envKeys != cfg.keys || reordered;
      envKeys := cfg.keys;
      trace := Emit(OpenClaw, ssh, cfg, record, x, [], EnvRewritten(changed));
      var up := true;
      if changed {
        up, trace := RecreateContainer(OpenClaw, cfg, record, ssh, x, trace);
      }
      if up {
        trace := FinishOpenClaw(cfg, record, ssh, x, trace);
      }
      hide View, Ordered;
      PassesAreOrdered(OpenClaw, ssh, cfg, record, x.vps, trace);
    }

    /** Recreate the container and wait for it. */
    method RecreateContainer(f: Framework, cfg: Config, ghost record: nat, ssh: bool, ghost x: Exec,
                             ghost before: seq<Event>)
      returns (up: bool, ghost trace: seq<Event>)
      requires Walk(f, ssh, cfg, record, x, before) == Some(Exec(Recreate, View()))
      modifies this`runningKeys, this`trouble
      ensures Walk(f, ssh, cfg, record, x, trace)
              == Some(Exec(if !up then Gone else if f == OpenClaw then SetModel else Record, View()))
      ensures trouble >= old(trouble) && (trouble == old(trouble) ==> up && runningKeys == envKeys)
      ensures runningKeys in {old(runningKeys), envKeys}
    {
      hide Walk;
      var dies := Chance();
      if dies {
        trace := Emit(f, ssh, cfg, record, x, before, Died);
        return false, trace;
      }
      var failed := Chance();
      if !failed {
        runningKeys := envKeys;
      }
      trace := Emit(f, ssh, cfg, record, x, before, Recreated(!failed));
      if failed && ssh {
        return false, trace;
      }
      ghost var answers;
      up, answers := AwaitHealth();
      trace := Emit(f, ssh, cfg, record, x, trace, Waited(up));
    }

    /** The model command and the record. */
    method FinishOpenClaw(cfg: Config, record: nat, ghost ssh: bool, ghost x: Exec, ghost before: seq<Event>)
      returns (ghost trace: seq<Event>)
      requires Walk(OpenClaw, ssh, cfg, record, x, before) == Some(Exec(SetModel, View()))
      modifies this`model, this`localVersion, this`trouble
      ensures Walk(OpenClaw, ssh, cfg, record, x, trace) == Some(Exec(Gone, View()))
      ensures trouble >= old(trouble)
      ensures trouble == old(trouble) ==>
                && trace != [] && trace[|trace| - 1] == Recorded && localVersion == record
                && model == if cfg.model.Some? then cfg.model else old(model)
    {
      hide Walk;
      var dies := Chance();
      if dies {
        trace := Emit(OpenClaw, ssh, cfg, record, x, before, Died);
        return;
      }
      if cfg.model.Some? {
        var failed := Chance();
        if !failed {
          model := cfg.model;
        }
        trace := Emit(OpenClaw, ssh, cfg, record, x, before, ModelWritten(!failed));
      } else {
        trace := Emit(OpenClaw, ssh, cfg, record, x, before, NoModel);
      }
      trace := WriteVersion(OpenClaw, cfg, record, ssh, x, trace);
    }

    /** The last line of every script. */
    method WriteVersion(ghost f: Framework, ghost cfg: Config, record: nat, ghost ssh: bool, ghost x: Exec,
                        ghost before: seq<Event>)
      returns (ghost trace: seq<Event>)
      requires Walk(f, ssh, cfg, record, x, before) == Some(Exec(Record, View()))
      modifies this`localVersion, this`trouble
      ensures Walk(f, ssh, cfg, record, x, trace) == Some(Exec(Gone, View()))
      ensures trouble >= old(trouble)
      ensures trouble == old(trouble) ==>
                trace != [] && trace[|trace| - 1] == Recorded && localVersion == record
    {
      hide Walk;
      var dies := Chance();
      if dies {
        trace := Emit(f, ssh, cfg, record, x, before, Died);
        return;
      }
      localVersion := record;
      trace := Emit(f, ssh, cfg, record, x, before, Recorded);
    }

    /** The Hermes script, likewise. */
    method PassHermes(cfg: Config, record: nat, ssh: bool) returns (ghost trace: seq<Event>)
      modifies this
      ensures Walk(Hermes, ssh, cfg, record, Exec(Rewrite, old(View())), trace) == Some(Exec(Gone, View()))
      ensures Ordered(Hermes, ssh, trace)
      ensures trouble == old(trouble) ==>
                && trace != [] && trace[|trace| - 1] == Recorded && localVersion == record
                && envKeys == runningKeys == cfg.keys
                && model == Some(if cfg.model.Some? then cfg.model.value else HERMES_DEFAULT_MODEL)
    {
      ghost var x := Exec(Rewrite, View());
      NoEventsYet(Hermes, ssh, cfg, record, x);
      hide Walk, Ordered, MayFollow, Fits;
      var dies := Chance();
      if dies {
        trace := Emit(Hermes, ssh, cfg, record, x, [], Died);
        PassesAreOrdered(Hermes, ssh, cfg, record, x.vps, trace);
        return;
      }
      envKeys := cfg.keys;
      trace := Emit(Hermes, ssh, cfg, record, x, [], EnvRewritten(true));
      dies := Chance();
      if dies {
        trace := Emit(Hermes, ssh, cfg, record, x, trace, Died);
        PassesAreOrdered(Hermes, ssh, cfg, record, x.vps, trace);
        return;
      }
      model := Wanted(Hermes, cfg);
      trace := Emit(Hermes, ssh, cfg, record, x, trace, ModelWritten(true));
      var up;
      up, trace := RecreateContainer(Hermes, cfg, record, ssh, x, trace);
      if up {
        trace := WriteVersion(Hermes, cfg, record, ssh, x, trace);
      }
      hide View;
      PassesAreOrdered(Hermes, ssh, cfg, record, x.vps, trace);
    }
  }

  // ---------------------------------------------------------------------------
  // The database and one VPS

  /** The pass under way: whether it came over SSH, the version it will record, the version
      it fetched, and where it is. */
  datatype Pass = Pass(ssh: bool, record: nat, fetched: nat, at: Point)

  /** Which version each part was last written from: the env file, the container's keys, the
      model; and the version whose model step last ended without a failed command. */
  datatype Origin = Origin(env: nat, running: nat, model: nat, settled: nat)

  /** `contents[k]` is the configuration at version k; version 0 stands for no row. */
  datatype State = State(contents: seq<Config>, vps: Vps, pass: Option<Pass>, from: Origin)

  datatype Action =
    | Update(cfg: Config)     // a user update, or any other writer of the row
    | Heartbeat(known: bool)  // a heartbeat is answered, and a pass is due
    | Sync                    // the script is pushed over SSH
    | Recycle                 // something else recreates the container
    | Do(e: Event)            // the pass under way takes its next step, or dies

  function Version(s: State): nat
    requires s.contents != []
  {
    |s.contents| - 1
  }

  function Current(s: State): Config
    requires s.contents != []
  {
    s.contents[|s.contents| - 1]
  }

  /** What a heartbeat is answered: the version, or 0 when it cannot be looked up. */
  function Reply(s: State, known: bool): nat
    requires s.contents != []
  {
    if known then Version(s) else 0
  }

  /** The guards of the two heartbeat scripts.  Hermes takes 0 for a version like any other,
      so a reply of 0 starts a pass that records 0. */
  predicate PassDue(f: Framework, reply: nat, localVersion: nat) {
    reply != localVersion && (f == OpenClaw ==> reply != 0)
  }

  /** A container that ran on the env file still does when the file has not changed. */
  function NewOrigin(from: Origin, fetched: nat, e: Event): Origin {
    match e
    case EnvRewritten(changed) =>
      from.(env := fetched, running := if !changed && from.running == from.env then fetched else from.running)
    case Recreated(true) => from.(running := from.env)
    case ModelWritten(true) => from.(model := fetched, settled := fetched)
    case NoModel => from.(settled := fetched)
    case _ => from
  }

  function DoNext(f: Framework, s: State, pass: Pass, e: Event): Option<State>
    requires s.contents != []
  {
    if pass.at == Fetch then
      if Advance(f, pass.ssh, pass.at, e).None? then None
      else
        var record := if pass.ssh then Version(s) else pass.record;
        var at := Advance(f, pass.ssh, pass.at, e).value;
        Some(s.(pass := if at == Gone then None else Some(Pass(pass.ssh, record, Version(s), at))))
    else if pass.fetched >= |s.contents| then None
    else
      var after := Step(f, pass.ssh, s.contents[pass.fetched], pass.record, Exec(pass.at, s.vps), e);
      if after.None? then None
      else Some(State(s.contents, after.value.vps,
                      if after.value.at == Gone then None else Some(pass.(at := after.value.at)),
                      NewOrigin(s.from, pass.fetched, e)))
  }

  /** An action, or None where it cannot happen.  Passes run one at a time. */
  function Next(f: Framework, s: State, a: Action): Option<State>
    requires s.contents != []
  {
    match a
    case Update(cfg) => Some(s.(contents := s.contents + [cfg]))
    case Heartbeat(known) =>
      if s.pass.Some? || !PassDue(f, Reply(s, known), s.vps.localVersion) then None
      else Some(s.(pass := Some(Pass(false, Reply(s, known), 0, Fetch))))
    case Sync => if s.pass.Some? then None else Some(s.(pass := Some(Pass(true, 0, 0, Fetch))))
    case Recycle => Some(s.(vps := s.vps.(runningKeys := s.vps.envKeys), from := s.from.(running := s.from.env)))
    case Do(e) => if s.pass.None? then None else DoNext(f, s, s.pass.value, e)
  }

  /** The version file is never ahead of the env file, each part holds what its version
      says, and the version a pass will record is not ahead of what it fetched. */
  predicate Inv(f: Framework, s: State) {
    && s.vps.localVersion <= s.from.env < |s.contents|
    && s.from.running < |s.contents| && s.from.model < |s.contents| && s.from.settled < |s.contents|
    && s.vps.envKeys == s.contents[s.from.env].keys
    && s.vps.runningKeys == s.contents[s.from.running].keys
    && s.vps.model == Wanted(f, s.contents[s.from.model])
    && (s.pass.Some? ==> PassInv(s.pass.value, s))
  }

  predicate PassInv(pass: Pass, s: State) {
    && pass.at != Gone
    && (!pass.ssh || pass.at != Fetch ==> pass.record < |s.contents|)
    && (pass.at != Fetch ==> pass.record <= pass.fetched < |s.contents|)
    && (pass.at == Rewrite ==> s.from.env <= pass.fetched)
    && (pass.at !in {Fetch, Rewrite} ==> s.from.env == pass.fetched)
  }

  function Run(f: Framework, s: State, actions: seq<Action>): Option<State>
    requires s.contents != []
    ensures Run(f, s, actions).Some? ==> Run(f, s, actions).value.contents != []
    decreases |actions|
  {
    if actions == [] then Some(s)
    else
      var last := |actions| - 1;
      var before := Run(f, s, actions[..last]);
      if before.None? then None else Next(f, before.value, actions[last])
  }

  /** Where an event leads. */
  lemma PointMoves(f: Framework, ssh: bool, at: Point, e: Event)
    requires Advance(f, ssh, at, e).Some?
    ensures var next := Advance(f, ssh, at, e).value;
      && at != Gone && next != Fetch
      && (next == Rewrite <==> at == Fetch && e == Fetched(true))
      && (e.EnvRewritten? ==> at == Rewrite)
      && (e in {Died, Recorded} ==> next == Gone) && (e == Recorded ==> at == Record)
      && (at in {Fetch, Rewrite} ==> e in {Died, Fetched(true), Fetched(false)} || e.EnvRewritten?)
      && (e.Fetched? ==> at == Fetch) && (at == Fetch && e != Fetched(true) ==> next == Gone)
  {
  }

  lemma FetchKeepsInv(f: Framework, s: State, e: Event)
    requires Inv(f, s) && s.pass.Some? && s.pass.value.at == Fetch && Next(f, s, Do(e)).Some?
    ensures Inv(f, Next(f, s, Do(e)).value)
  {
    hide Advance, Step;
    PointMoves(f, s.pass.value.ssh, Fetch, e);
  }

  lemma DoKeepsInv(f: Framework, s: State, e: Event)
    requires Inv(f, s) && s.pass.Some? && s.pass.value.at != Fetch && Next(f, s, Do(e)).Some?
    ensures Inv(f, Next(f, s, Do(e)).value)
  {
    hide Advance;
    PointMoves(f, s.pass.value.ssh, s.pass.value.at, e);
  }

  lemma StepKeepsInv(f: Framework, s: State, a: Action)
    requires Inv(f, s) && Next(f, s, a).Some?
    ensures Inv(f, Next(f, s, a).value)
  {
    hide DoNext;
    if a.Do? && s.pass.value.at == Fetch {
      FetchKeepsInv(f, s, a.e);
    } else if a.Do? {
      DoKeepsInv(f, s, a.e);
    }
  }

  lemma {:induction false} RunKeepsInv(f: Framework, s: State, actions: seq<Action>)
    requires Inv(f, s) && Run(f, s, actions).Some?
    ensures Inv(f, Run(f, s, actions).value)
    decreases |actions|
  {
    hide Inv, Next;
    if actions != [] {
      var last := |actions| - 1;
      InvHasContents(f, s);
      RunKeepsInv(f, s, actions[..last]);
      StepKeepsInv(f, Run(f, s, actions[..last]).value, actions[last]);
    }
  }

  lemma InvHasContents(f: Framework, s: State)
    requires Inv(f, s)
    ensures s.contents != [] && s.vps.localVersion < |s.contents|
  {
  }

  // ---------------------------------------------------------------------------
  // What equal versions mean

  /** In every run, with updates landing between any two steps, passes dying before any, and
      heartbeats answered without the version:
      local version <= version in the env file <= version in the database, so when the
      outer two agree the env file holds exactly the current keys. */
  lemma VersionsNeverLie(f: Framework, s: State, actions: seq<Action>)
    requires Inv(f, s) && Run(f, s, actions).Some?
    ensures var t := Run(f, s, actions).value;
      && t.vps.localVersion <= t.from.env <= Version(t)
      && (t.vps.localVersion == Version(t) ==> t.vps.envKeys == Current(t).keys)
  {
    RunKeepsInv(f, s, actions);
    hide Run, PassInv, Wanted;
  }

  /** The model is the configured one; with none configured, Hermes has its default. */
  predicate ModelCurrent(f: Framework, s: State)
    requires s.contents != []
  {
    && (Current(s).model.Some? ==> s.vps.model == Current(s).model)
    && (Current(s).model.None? && f == Hermes ==> s.vps.model == Some(HERMES_DEFAULT_MODEL))
  }

  predicate ContentCurrent(f: Framework, s: State)
    requires s.contents != []
  {
    s.vps.envKeys == s.vps.runningKeys == Current(s).keys && ModelCurrent(f, s)
  }

  /** A property of every action of a run, in the state it is taken from. */
  datatype Care = CommandsWork | RecreatesWork | NothingLost

  /** CommandsWork: no model command fails.  RecreatesWork: no heartbeat pass goes on after a
      failed recreate.  NothingLost: no pass dies, or fails, between the env rewrite and the
      end of the recreate that it calls for. */
  predicate Careful(care: Care, s: State, a: Action) {
    match care
    case CommandsWork => a != Do(ModelWritten(false))
    case RecreatesWork => s.pass.Some? && !s.pass.value.ssh ==> a != Do(Recreated(false))
    case NothingLost => s.pass.Some? && s.pass.value.at == Recreate && a.Do? ==> a.e == Recreated(true)
  }

  predicate CarefulRun(care: Care, f: Framework, s: State, actions: seq<Action>)
    requires s.contents != []
    decreases |actions|
  {
    actions != [] ==>
      var last := |actions| - 1;
      && CarefulRun(care, f, s, actions[..last])
      && (Run(f, s, actions[..last]).Some? ==> Careful(care, Run(f, s, actions[..last]).value, actions[last]))
  }

  /** The model step of the last recorded pass, or a later one, went well. */
  predicate ModelInv(f: Framework, s: State)
    requires Inv(f, s)
  {
    && s.vps.localVersion <= s.from.settled
    && (Wanted(f, s.contents[s.from.settled]).Some? ==> s.vps.model == Wanted(f, s.contents[s.from.settled]))
    && (s.pass.Some? && s.pass.value.at != Fetch ==> s.from.settled <= s.pass.value.fetched)
    && (s.pass.Some? && (s.pass.value.at == Record || (f == Hermes && s.pass.value.at in {Recreate, Await})) ==>
          s.from.settled == s.pass.value.fetched)
  }

  /** The container has kept up: with the env file, except while it is being recreated
      (OpenClaw), or with the version file, at least (Hermes). */
  predicate ContainerInv(f: Framework, s: State)
    requires Inv(f, s)
  {
    && s.vps.localVersion <= s.from.running
    && (f == OpenClaw && !(s.pass.Some? && s.pass.value.at == Recreate) ==> s.from.running == s.from.env)
    && (f == Hermes && s.pass.Some? && s.pass.value.at in {Await, Record} ==>
          s.from.running == s.pass.value.fetched)
  }

  /** Where the later events of a pass happen. */
  lemma LaterMoves(f: Framework, ssh: bool, at: Point, e: Event)
    requires Advance(f, ssh, at, e).Some? && at != Fetch
    ensures var next := Advance(f, ssh, at, e).value;
      && (e.ModelWritten? || e.NoModel? ==> at == SetModel && next in {Record, Recreate})
      && (next == Record ==> if f == OpenClaw then e.ModelWritten? || e.NoModel?
                             else at == Await || e.NoModel?)
      && (f == Hermes && next == Recreate ==> e == ModelWritten(true))
      && (next == Await ==> at == Recreate && e.Recreated? && (ssh ==> e == Recreated(true)))
      && (e.Recreated? ==> at == Recreate) && (f == OpenClaw && next == Recreate ==> e == EnvRewritten(true))
      && (f == OpenClaw && e == EnvRewritten(true) ==> next == Recreate)
      && (e.EnvRewritten? ==> at == Rewrite && next in {SetModel, Recreate})
      && (next == SetModel ==> e.EnvRewritten? || (f == OpenClaw && at == Await && e == Waited(true)))
  {
  }

  lemma DoKeepsModel(f: Framework, s: State, e: Event)
    requires Inv(f, s) && ModelInv(f, s) && e != ModelWritten(false) && Next(f, s, Do(e)).Some?
    requires s.pass.Some? && s.pass.value.at != Fetch && Inv(f, Next(f, s, Do(e)).value)
    ensures ModelInv(f, Next(f, s, Do(e)).value)
  {
    hide Advance, Wanted, PassInv;
    PointMoves(f, s.pass.value.ssh, s.pass.value.at, e);
    LaterMoves(f, s.pass.value.ssh, s.pass.value.at, e);
    PassBounds(f, s);
  }

  lemma PassBounds(f: Framework, s: State)
    requires Inv(f, s) && s.pass.Some? && s.pass.value.at != Fetch
    ensures var pass := s.pass.value;
      && s.vps.localVersion <= s.from.env && pass.record <= pass.fetched < |s.contents|
      && s.from.env <= pass.fetched && (pass.at != Rewrite ==> s.from.env == pass.fetched)
  {
  }

  lemma StepKeepsModel(f: Framework, s: State, a: Action)
    requires Inv(f, s) && ModelInv(f, s) && Careful(CommandsWork, s, a) && Next(f, s, a).Some?
    ensures Inv(f, Next(f, s, a).value) && ModelInv(f, Next(f, s, a).value)
  {
    StepKeepsInv(f, s, a);
    hide Wanted, Step, Advance;
    if a.Do? && s.pass.value.at != Fetch {
      hide Inv;
      DoKeepsModel(f, s, a.e);
    } else if a.Do? {
      PointMoves(f, s.pass.value.ssh, Fetch, a.e);
    }
  }

  lemma DoKeepsContainer(f: Framework, s: State, e: Event)
    requires Inv(f, s) && ContainerInv(f, s) && Next(f, s, Do(e)).Some?
    requires Careful(if f == OpenClaw then NothingLost else RecreatesWork, s, Do(e))
    requires s.pass.Some? && s.pass.value.at != Fetch && Inv(f, Next(f, s, Do(e)).value)
    ensures ContainerInv(f, Next(f, s, Do(e)).value)
  {
    hide Advance, PassInv, Wanted;
    PointMoves(f, s.pass.value.ssh, s.pass.value.at, e);
    LaterMoves(f, s.pass.value.ssh, s.pass.value.at, e);
    PassBounds(f, s);
    HermesWants(s.contents[s.pass.value.fetched]);
  }

  lemma HermesWants(cfg: Config)
    ensures Wanted(Hermes, cfg).Some?
  {
  }

  lemma StepKeepsContainer(f: Framework, s: State, a: Action)
    requires Inv(f, s) && ContainerInv(f, s) && Next(f, s, a).Some?
    requires Careful(if f == OpenClaw then NothingLost else RecreatesWork, s, a)
    ensures Inv(f, Next(f, s, a).value) && ContainerInv(f, Next(f, s, a).value)
  {
    StepKeepsInv(f, s, a);
    hide Wanted, Step, Advance;
    if a.Do? && s.pass.value.at != Fetch {
      hide Inv;
      DoKeepsContainer(f, s, a.e);
    } else if a.Do? {
      PointMoves(f, s.pass.value.ssh, Fetch, a.e);
    } else if a.Recycle? && s.pass.Some? && s.pass.value.at != Fetch {
      PassBounds(f, s);
    }
  }

  /** If no model command fails, equal versions mean that the model is current. */
  lemma {:induction false} ModelFollowsTheVersion(f: Framework, s: State, actions: seq<Action>)
    requires Inv(f, s) && ModelInv(f, s) && Run(f, s, actions).Some?
    requires CarefulRun(CommandsWork, f, s, actions)
    ensures var t := Run(f, s, actions).value;
      && Inv(f, t) && ModelInv(f, t)
      && (t.vps.localVersion == Version(t) ==> ModelCurrent(f, t))
    decreases |actions|
  {
    hide Next, Careful;
    RunKeepsInv(f, s, actions);
    if actions != [] {
      var last := |actions| - 1;
      ModelFollowsTheVersion(f, s, actions[..last]);
      StepKeepsModel(f, Run(f, s, actions[..last]).value, actions[last]);
    }
  }

  /** If no pass is lost between the env rewrite and the end of the recreate (OpenClaw), or
      none goes on after a failed recreate (Hermes, where passes may die anywhere), equal
      versions mean that the container runs on the current keys. */
  lemma {:induction false} ContainerFollowsTheVersion(f: Framework, s: State, actions: seq<Action>)
    requires Inv(f, s) && ContainerInv(f, s) && Run(f, s, actions).Some?
    requires CarefulRun(if f == OpenClaw then NothingLost else RecreatesWork, f, s, actions)
    ensures var t := Run(f, s, actions).value;
      && Inv(f, t) && ContainerInv(f, t)
      && (t.vps.localVersion == Version(t) ==> t.vps.runningKeys == Current(t).keys)
    decreases |actions|
  {
    hide Next, Careful;
    RunKeepsInv(f, s, actions);
    if actions != [] {
      var last := |actions| - 1;
      ContainerFollowsTheVersion(f, s, actions[..last]);
      StepKeepsContainer(f, Run(f, s, actions[..last]).value, actions[last]);
    }
  }

  /** So on a careful run equal versions mean equal content. */
  lemma EqualVersionsMeanEqualContent(f: Framework, s: State, actions: seq<Action>)
    requires Inv(f, s) && ModelInv(f, s) && ContainerInv(f, s) && Run(f, s, actions).Some?
    requires CarefulRun(CommandsWork, f, s, actions)
    requires CarefulRun(if f == OpenClaw then NothingLost else RecreatesWork, f, s, actions)
    requires var t := Run(f, s, actions).value; t.vps.localVersion == Version(t)
    ensures ContentCurrent(f, Run(f, s, actions).value)
  {
    ModelFollowsTheVersion(f, s, actions);
    ContainerFollowsTheVersion(f, s, actions);
  }

  // ---------------------------------------------------------------------------
  // Which cares are needed

  predicate AllCareful(cares: set<Care>, f: Framework, s: State, actions: seq<Action>)
    requires s.contents != []
  {
    forall care :: care in cares ==> CarefulRun(care, f, s, actions)
  }

  predicate EqualVersions(s: State)
    requires s.contents != []
  {
    s.vps.localVersion == Version(s)
  }

  /** Between two passes, with model and container no older than the version file. */
  predicate Settled(f: Framework, s: State) {
    Inv(f, s) && ModelInv(f, s) && ContainerInv(f, s) && s.pass.None?
  }

  datatype Part = Model | Container | All

  predicate PartCurrent(part: Part, f: Framework, s: State)
    requires s.contents != []
  {
    match part
    case Model => ModelCurrent(f, s)
    case Container => s.vps.runningKeys == Current(s).keys
    case All => ContentCurrent(f, s)
  }

  /** On every run that takes these cares, equal versions mean that the part is current. */
  ghost predicate Suffices(cares: set<Care>, part: Part, f: Framework, s: State)
    requires s.contents != []
  {
    forall actions :: Run(f, s, actions).Some? && AllCareful(cares, f, s, actions) ==>
      (EqualVersions(Run(f, s, actions).value) ==> PartCurrent(part, f, Run(f, s, actions).value))
  }

  /** For the model, OpenClaw's commands must work.  For the container, OpenClaw must lose no
      recreate, and Hermes must not go on after a failed one in a heartbeat, or lose none. */
  predicate Enough(cares: set<Care>, part: Part, f: Framework)
    decreases part == All
  {
    match part
    case Model => f == Hermes || CommandsWork in cares
    case Container => NothingLost in cares || (f == Hermes && RecreatesWork in cares)
    case All => Enough(cares, Model, f) && Enough(cares, Container, f)
  }

  /** Hermes has no model command that could fail: it writes a file. */
  lemma {:induction false} HermesCommandsWork(s: State, actions: seq<Action>)
    requires s.contents != [] && Run(Hermes, s, actions).Some?
    ensures CarefulRun(CommandsWork, Hermes, s, actions)
    decreases |actions|
  {
    if actions != [] {
      HermesCommandsWork(s, actions[..|actions| - 1]);
    }
  }

  lemma RecreatesWhereCalledFor(f: Framework, s: State, a: Action)
    requires s.contents != [] && Next(f, s, a).Some? && Careful(NothingLost, s, a)
    ensures Careful(RecreatesWork, s, a)
  {
  }

  /** A pass that loses nothing does not go on after a failed recreate either. */
  lemma {:induction false} NothingLostMeansRecreated(f: Framework, s: State, actions: seq<Action>)
    requires s.contents != [] && Run(f, s, actions).Some? && CarefulRun(NothingLost, f, s, actions)
    ensures CarefulRun(RecreatesWork, f, s, actions)
    decreases |actions|
  {
    if actions != [] {
      var last := |actions| - 1;
      hide Next;
      NothingLostMeansRecreated(f, s, actions[..last]);
      RecreatesWhereCalledFor(f, Run(f, s, actions[..last]).value, actions[last]);
    }
  }

  /** From every settled state, on the runs that take the given cares, equal versions mean
      equal content, part by part and altogether, if and only if the cares are those. */
  lemma CaresAreExact(cares: set<Care>, f: Framework, s: State)
    requires Settled(f, s)
    ensures forall part :: Suffices(cares, part, f, s) <==> Enough(cares, part, f)
  {
    forall part ensures Suffices(cares, part, f, s) <==> Enough(cares, part, f) {
      InvHasContents(f, s);
      if Enough(cares, part, f) {
        forall actions | Run(f, s, actions).Some? && AllCareful(cares, f, s, actions)
                         && EqualVersions(Run(f, s, actions).value)
          ensures PartCurrent(part, f, Run(f, s, actions).value)
        {
          CareIsEnough(cares, part, f, s, actions);
        }
      } else {
        var actions := Careless(cares, part, f, s);
        assert AllCareful(cares, f, s, actions);
      }
    }
  }

  lemma CareIsEnough(cares: set<Care>, part: Part, f: Framework, s: State, actions: seq<Action>)
    requires Settled(f, s) && Run(f, s, actions).Some? && AllCareful(cares, f, s, actions)
    requires Enough(cares, part, f) && EqualVersions(Run(f, s, actions).value)
    ensures PartCurrent(part, f, Run(f, s, actions).value)
  {
    InvHasContents(f, s);
    hide Inv, ModelInv, ContainerInv, CarefulRun, ModelCurrent;
    if part != Container {
      if f == Hermes {
        HermesCommandsWork(s, actions);
      }
      ModelFollowsTheVersion(f, s, actions);
    }
    if part != Model {
      if f == Hermes && RecreatesWork !in cares {
        NothingLostMeansRecreated(f, s, actions);
      }
      ContainerFollowsTheVersion(f, s, actions);
      VersionsNeverLie(f, s, actions);
    }
  }

  lemma ThreeCares(cares: set<Care>)
    ensures cares <= {CommandsWork, RecreatesWork, NothingLost}
  {
    forall care | care in cares ensures care in {CommandsWork, RecreatesWork, NothingLost} {
      assert care.CommandsWork? || care.RecreatesWork? || care.NothingLost?;
    }
  }

  lemma Careless(cares: set<Care>, part: Part, f: Framework, s: State) returns (actions: seq<Action>)
    requires Settled(f, s) && !Enough(cares, part, f)
    ensures s.contents != [] && Run(f, s, actions).Some? && AllCareful(cares, f, s, actions)
    ensures EqualVersions(Run(f, s, actions).value) && !PartCurrent(part, f, Run(f, s, actions).value)
  {
    InvHasContents(f, s);
    ThreeCares(cares);
    hide Run, CarefulRun, Inv, ModelInv, ContainerInv;
    if f == Hermes {
      actions := GoesOnAfterAFailedRecreate(s);
    } else if CommandsWork !in cares && part != Container {
      actions := RecordedWithTheOldModel(s);
    } else {
      actions := RecordedButNotRunning(s);
    }
  }

  // ---------------------------------------------------------------------------
  // Runs that show why they are

  /** One more action, with care. */
  lemma Extend(cares: set<Care>, f: Framework, s: State, actions: seq<Action>, a: Action)
    returns (longer: seq<Action>)
    requires s.contents != [] && Run(f, s, actions).Some? && Next(f, Run(f, s, actions).value, a).Some?
    requires AllCareful(cares, f, s, actions)
    requires forall care :: care in cares ==> Careful(care, Run(f, s, actions).value, a)
    ensures longer == actions + [a] && Run(f, s, longer) == Next(f, Run(f, s, actions).value, a)
    ensures AllCareful(cares, f, s, longer)
  {
    longer := actions + [a];
    assert longer[..|actions|] == actions;
  }

  lemma NothingDone(cares: set<Care>, f: Framework, s: State)
    requires s.contents != []
    ensures Run(f, s, []) == Some(s) && AllCareful(cares, f, s, [])
  {
  }

  /** A heartbeat pass that has fetched the last version. */
  function AfterFetch(s: State): State
    requires s.contents != []
  {
    s.(pass := Some(Pass(false, Version(s), Version(s), Rewrite)))
  }

  /** One update, and the heartbeat pass that has fetched it. */
  lemma UpdateAndFetch(cares: set<Care>, f: Framework, s: State, cfg: Config) returns (actions: seq<Action>)
    requires s.contents != [] && s.pass.None? && s.vps.localVersion < |s.contents|
    ensures Run(f, s, actions) == Some(AfterFetch(s.(contents := s.contents + [cfg])))
    ensures AllCareful(cares, f, s, actions)
  {
    NothingDone(cares, f, s);
    hide Run, AllCareful;
    actions := Extend(cares, f, s, [], Update(cfg));
    actions := FetchLast(cares, f, s, actions);
  }

  lemma FetchLast(cares: set<Care>, f: Framework, s: State, actions: seq<Action>) returns (longer: seq<Action>)
    requires s.contents != [] && Run(f, s, actions).Some? && AllCareful(cares, f, s, actions)
    requires var t := Run(f, s, actions).value;
      t.pass.None? && t.vps.localVersion < Version(t)
    ensures Run(f, s, longer) == Some(AfterFetch(Run(f, s, actions).value))
    ensures AllCareful(cares, f, s, longer)
  {
    hide Run, AllCareful;
    longer := Extend(cares, f, s, actions, Heartbeat(true));
    longer := Extend(cares, f, s, longer, Do(Fetched(true)));
  }

  /** Keys that neither the env file nor the container has. */
  function NewKeys(s: State): nat { s.vps.envKeys + s.vps.runningKeys + 1 }

  /** OpenClaw: a pass that dies right after the env rewrite, and a flawless pass.  The
      versions agree and the container still runs on the old keys. */
  lemma RecordedButNotRunning(s: State) returns (actions: seq<Action>)
    requires Inv(OpenClaw, s) && s.pass.None?
    ensures Run(OpenClaw, s, actions).Some? && AllCareful({CommandsWork, RecreatesWork}, OpenClaw, s, actions)
    ensures var t := Run(OpenClaw, s, actions).value;
      && t.pass.None? && EqualVersions(t) && t.vps.envKeys == Current(t).keys
      && t.vps.runningKeys == s.vps.runningKeys != Current(t).keys
  {
    var cares := {CommandsWork, RecreatesWork};
    InvHasContents(OpenClaw, s);
    hide Run, AllCareful, Next, Inv;
    actions := LoseTheRecreate(cares, s, Config(NewKeys(s), Some(0)));
    actions := FetchLast(cares, OpenClaw, s, actions);
    actions := FinishQuickly(cares, s, actions, true);
  }

  lemma LoseTheRecreate(cares: set<Care>, s: State, cfg: Config) returns (actions: seq<Action>)
    requires s.contents != [] && s.pass.None? && s.vps.localVersion < |s.contents| && NothingLost !in cares
    ensures Run(OpenClaw, s, actions).Some? && AllCareful(cares, OpenClaw, s, actions)
    ensures var t := Run(OpenClaw, s, actions).value;
      && t.contents == s.contents + [cfg] && t.pass.None? && t.vps == s.vps.(envKeys := cfg.keys)
  {
    hide Run, AllCareful, Next;
    actions := UpdateAndFetch(cares, OpenClaw, s, cfg);
    actions := DieAfterTheRewrite(cares, s, actions);
  }

  lemma DieAfterTheRewrite(cares: set<Care>, s: State, actions: seq<Action>) returns (longer: seq<Action>)
    requires s.contents != [] && Run(OpenClaw, s, actions).Some? && AllCareful(cares, OpenClaw, s, actions)
    requires Run(OpenClaw, s, actions).value == AfterFetch(Run(OpenClaw, s, actions).value)
    requires NothingLost !in cares
    ensures Run(OpenClaw, s, longer).Some? && AllCareful(cares, OpenClaw, s, longer)
    ensures var t, u := Run(OpenClaw, s, actions).value, Run(OpenClaw, s, longer).value;
      && u.contents == t.contents && u.pass.None? && u.vps == t.vps.(envKeys := Current(t).keys)
  {
    hide Run, AllCareful;
    longer := Extend(cares, OpenClaw, s, actions, Do(EnvRewritten(true)));
    longer := Extend(cares, OpenClaw, s, longer, Do(Died));
  }

  /** The rest of an OpenClaw pass whose env file has not changed. */
  lemma FinishQuickly(cares: set<Care>, s: State, actions: seq<Action>, modelOk: bool)
    returns (longer: seq<Action>)
    requires s.contents != [] && Run(OpenClaw, s, actions).Some? && AllCareful(cares, OpenClaw, s, actions)
    requires var t := Run(OpenClaw, s, actions).value;
      && t == AfterFetch(t) && t.vps.envKeys == Current(t).keys && Current(t).model.Some?
    requires CommandsWork in cares ==> modelOk
    ensures Run(OpenClaw, s, longer).Some? && AllCareful(cares, OpenClaw, s, longer)
    ensures var t, u := Run(OpenClaw, s, actions).value, Run(OpenClaw, s, longer).value;
      && u.pass.None? && u.contents == t.contents
      && u.vps == t.vps.(model := if modelOk then Current(t).model else t.vps.model, localVersion := Version(t))
  {
    hide Run, AllCareful;
    longer := Extend(cares, OpenClaw, s, actions, Do(EnvRewritten(false)));
    longer := Extend(cares, OpenClaw, s, longer, Do(ModelWritten(modelOk)));
    longer := Extend(cares, OpenClaw, s, longer, Do(Recorded));
  }

  /** OpenClaw: a pass whose model command fails.  The versions agree and the model is the
      old one. */
  lemma RecordedWithTheOldModel(s: State) returns (actions: seq<Action>)
    requires Inv(OpenClaw, s) && s.pass.None?
    ensures Run(OpenClaw, s, actions).Some? && AllCareful({RecreatesWork, NothingLost}, OpenClaw, s, actions)
    ensures var t := Run(OpenClaw, s, actions).value;
      && t.pass.None? && EqualVersions(t) && Current(t).model.Some?
      && t.vps.model == s.vps.model != Current(t).model
  {
    var model := if s.vps.model.Some? then s.vps.model.value + 1 else 0;
    var cares, cfg := {RecreatesWork, NothingLost}, Config(s.vps.envKeys, Some(model));
    hide Run, AllCareful, Next;
    InvHasContents(OpenClaw, s);
    hide Inv;
    actions := UpdateAndFetch(cares, OpenClaw, s, cfg);
    actions := FinishQuickly(cares, s, actions, false);
  }

  /** Hermes: a heartbeat pass whose recreate fails while the old container stays healthy.
      The versions agree and the container still runs on the old keys. */
  lemma GoesOnAfterAFailedRecreate(s: State) returns (actions: seq<Action>)
    requires Inv(Hermes, s) && s.pass.None?
    ensures Run(Hermes, s, actions).Some? && AllCareful({CommandsWork}, Hermes, s, actions)
    ensures var t := Run(Hermes, s, actions).value;
      && t.pass.None? && EqualVersions(t) && t.vps.envKeys == Current(t).keys
      && t.vps.runningKeys == s.vps.runningKeys != Current(t).keys
  {
    var cares := {CommandsWork};
    hide Run, AllCareful, Next;
    InvHasContents(Hermes, s);
    hide Inv;
    actions := UpdateAndFetch(cares, Hermes, s, Config(NewKeys(s), Some(0)));
    actions := WriteFiles(cares, s, actions);
    actions := RecordWithoutRecreate(cares, s, actions);
  }

  lemma WriteFiles(cares: set<Care>, s: State, actions: seq<Action>) returns (longer: seq<Action>)
    requires s.contents != [] && Run(Hermes, s, actions).Some? && AllCareful(cares, Hermes, s, actions)
    requires Run(Hermes, s, actions).value == AfterFetch(Run(Hermes, s, actions).value)
    ensures Run(Hermes, s, longer).Some? && AllCareful(cares, Hermes, s, longer)
    ensures var t, u := Run(Hermes, s, actions).value, Run(Hermes, s, longer).value;
      && u.contents == t.contents && u.pass == Some(t.pass.value.(at := Recreate))
      && u.vps == t.vps.(envKeys := Current(t).keys, model := Wanted(Hermes, Current(t)))
  {
    hide Run, AllCareful;
    longer := Extend(cares, Hermes, s, actions, Do(EnvRewritten(true)));
    longer := Extend(cares, Hermes, s, longer, Do(ModelWritten(true)));
  }

  lemma RecordWithoutRecreate(cares: set<Care>, s: State, actions: seq<Action>) returns (longer: seq<Action>)
    requires s.contents != [] && Run(Hermes, s, actions).Some? && AllCareful(cares, Hermes, s, actions)
    requires var t := Run(Hermes, s, actions).value;
      t.pass == Some(Pass(false, Version(t), Version(t), Recreate))
    requires RecreatesWork !in cares && NothingLost !in cares
    ensures Run(Hermes, s, longer).Some? && AllCareful(cares, Hermes, s, longer)
    ensures var t, u := Run(Hermes, s, actions).value, Run(Hermes, s, longer).value;
      && u.contents == t.contents && u.pass.None? && u.vps == t.vps.(localVersion := Version(t))
  {
    hide Run, AllCareful;
    longer := Extend(cares, Hermes, s, actions, Do(Recreated(false)));
    longer := Extend(cares, Hermes, s, longer, Do(Waited(true)));
    longer := Extend(cares, Hermes, s, longer, Do(Recorded));
  }

  /** Hermes: a heartbeat answered without the version starts a pass in which everything goes
      well and which records version 0; so the next answered heartbeat starts another. */
  lemma RecordsVersionZero(s: State) returns (actions: seq<Action>)
    requires Inv(Hermes, s) && s.pass.None? && s.vps.localVersion > 0
    ensures Run(Hermes, s, actions).Some?
    ensures AllCareful({CommandsWork, RecreatesWork, NothingLost}, Hermes, s, actions)
    ensures var t := Run(Hermes, s, actions).value;
      t.pass.None? && t.contents == s.contents && t.vps.localVersion == 0 && Next(Hermes, t, Heartbeat(true)).Some?
  {
    var cares := {CommandsWork, RecreatesWork, NothingLost};
    InvHasContents(Hermes, s);
    NothingDone(cares, Hermes, s);
    hide Run, AllCareful, Inv;
    actions := Extend(cares, Hermes, s, [], Heartbeat(false));
    actions := Extend(cares, Hermes, s, actions, Do(Fetched(true)));
    hide Next;
    actions := GoodHermesPass(cares, s, actions);
    ZeroIsDue(Run(Hermes, s, actions).value);
  }

  lemma ZeroIsDue(s: State)
    requires |s.contents| > 1 && s.pass.None? && s.vps.localVersion == 0
    ensures Next(Hermes, s, Heartbeat(true)).Some?
  {
  }

  lemma GoodHermesPass(cares: set<Care>, s: State, actions: seq<Action>) returns (longer: seq<Action>)
    requires s.contents != [] && Run(Hermes, s, actions).Some? && AllCareful(cares, Hermes, s, actions)
    requires var t := Run(Hermes, s, actions).value;
      t.pass.Some? && t.pass.value == Pass(false, t.pass.value.record, Version(t), Rewrite)
    ensures Run(Hermes, s, longer).Some? && AllCareful(cares, Hermes, s, longer)
    ensures var t, u := Run(Hermes, s, actions).value, Run(Hermes, s, longer).value;
      u.pass.None? && u.contents == t.contents && u.vps.localVersion == t.pass.value.record
  {
    hide Run, AllCareful;
    longer := Extend(cares, Hermes, s, actions, Do(EnvRewritten(true)));
    longer := Extend(cares, Hermes, s, longer, Do(ModelWritten(true)));
    hide Next;
    longer := GoodRecreate(cares, s, longer);
  }

  lemma GoodRecreate(cares: set<Care>, s: State, actions: seq<Action>) returns (longer: seq<Action>)
    requires s.contents != [] && Run(Hermes, s, actions).Some? && AllCareful(cares, Hermes, s, actions)
    requires var t := Run(Hermes, s, actions).value;
      t.pass.Some? && t.pass.value == Pass(false, t.pass.value.record, Version(t), Recreate)
    ensures Run(Hermes, s, longer).Some? && AllCareful(cares, Hermes, s, longer)
    ensures var t, u := Run(Hermes, s, actions).value, Run(Hermes, s, longer).value;
      u.pass.None? && u.contents == t.contents && u.vps.localVersion == t.pass.value.record
  {
    hide Run, AllCareful;
    longer := Extend(cares, Hermes, s, actions, Do(Recreated(true)));
    longer := Extend(cares, Hermes, s, longer, Do(Waited(true)));
    longer := Extend(cares, Hermes, s, longer, Do(Recorded));
  }

  // ---------------------------------------------------------------------------
  // Convergence

  /** The steps a pass has left, at most. */
  function StepsLeft(f: Framework, at: Point): nat {
    match at
    case Fetch => 6
    case Rewrite => 5
    case Recreate => if f == OpenClaw then 4 else 3
    case Await => if f == OpenClaw then 3 else 2
    case SetModel => if f == OpenClaw then 2 else 4
    case Record => 1
    case Gone => 0
  }

  /** What happens next when all goes well. */
  function GoodEvent(f: Framework, at: Point, v: Vps, cfg: Config): Event {
    match at
    case Fetch => Fetched(true)
    case Rewrite => EnvRewritten(v.envKeys != cfg.keys)
    case Recreate => Recreated(true)
    case Await => Waited(true)
    case SetModel => if Wanted(f, cfg).Some? then ModelWritten(true) else NoModel
    case Record => Recorded
    case Gone => Died
  }

  function Fetching(s: State, pass: Pass): Config
    requires s.contents != [] && (pass.at != Fetch ==> pass.fetched < |s.contents|)
  {
    if pass.at == Fetch then Current(s) else s.contents[pass.fetched]
  }

  function GoodStep(f: Framework, s: State): State
    requires Inv(f, s) && s.pass.Some?
  {
    var pass := s.pass.value;
    var next := Next(f, s, Do(GoodEvent(f, pass.at, s.vps, Fetching(s, pass))));
    if next.Some? then next.value else s
  }

  /** Before its model step, a pass that goes well still sets the model. */
  predicate ModelAhead(f: Framework, at: Point) {
    at in {Fetch, Rewrite, SetModel} || (f == OpenClaw && at in {Recreate, Await})
  }

  /** The container runs on the env file, or is about to. */
  predicate InStep(f: Framework, s: State) {
    || s.vps.runningKeys == s.vps.envKeys
    || (s.pass.Some? && (s.pass.value.at == Recreate || (f == Hermes && StepsLeft(f, s.pass.value.at) > 2)))
  }

  /** What the pass under way will record. */
  function Target(s: State): nat
    requires s.contents != [] && s.pass.Some?
  {
    if s.pass.value.at == Fetch && s.pass.value.ssh then Version(s) else s.pass.value.record
  }

  function Source(s: State): nat
    requires s.contents != [] && s.pass.Some?
  {
    if s.pass.value.at == Fetch then Version(s) else s.pass.value.fetched
  }

  lemma GoodEventIsPossible(f: Framework, ssh: bool, at: Point, v: Vps, cfg: Config)
    requires at != Gone
    ensures var e := GoodEvent(f, at, v, cfg);
      && Advance(f, ssh, at, e).Some? && Truthful(f, v, cfg, e)
      && var next := Advance(f, ssh, at, e).value;
         && (next == Gone <==> at == Record) && StepsLeft(f, next) < StepsLeft(f, at)
         && (next == Rewrite <==> at == Fetch) && (e == Recorded <==> at == Record) && next != Fetch
  {
  }

  /** A step that goes well is possible, and brings the pass nearer to its end. */
  lemma GoodStepMoves(f: Framework, s: State)
    requires Inv(f, s) && s.pass.Some?
    ensures var t, at := GoodStep(f, s), s.pass.value.at;
      && Inv(f, t) && t.contents == s.contents && (t.pass.Some? <==> at != Record)
      && (t.pass.Some? ==> && StepsLeft(f, t.pass.value.at) < StepsLeft(f, at)
                           && Target(t) == Target(s) && Source(t) == Source(s))
      && (at == Record ==> t.vps.localVersion == Target(s) && t.from.env == Source(s))
  {
    var pass := s.pass.value;
    var e := GoodEvent(f, pass.at, s.vps, Fetching(s, pass));
    GoodEventIsPossible(f, pass.ssh, pass.at, s.vps, Fetching(s, pass));
    hide Wanted, Advance, Truthful, GoodEvent, StepsLeft;
    assert Next(f, s, Do(e)).Some?;
    StepKeepsInv(f, s, Do(e));
    if pass.at != Fetch {
      PassBounds(f, s);
    }
  }

  /** What it does to the container and the model. */
  lemma GoodStepWrites(f: Framework, s: State)
    requires Inv(f, s) && s.pass.Some?
    ensures var t, at := GoodStep(f, s), s.pass.value.at;
      && (InStep(f, s) ==> InStep(f, t))
      && (ModelAhead(f, at) && !(t.pass.Some? && ModelAhead(f, t.pass.value.at)) ==>
            Wanted(f, s.contents[Source(s)]).Some? ==> t.vps.model == Wanted(f, s.contents[Source(s)]))
      && (!ModelAhead(f, at) ==>
            t.vps.model == s.vps.model && !(t.pass.Some? && ModelAhead(f, t.pass.value.at)))
  {
    hide Wanted, NewOrigin;
    HermesWants(s.contents[Source(s)]);
  }

  /** The pass under way, run to its end with nothing going wrong. */
  function Finish(f: Framework, s: State): (t: State)
    requires Inv(f, s)
    ensures Inv(f, t) && t.pass.None? && t.contents == s.contents
    decreases if s.pass.Some? then StepsLeft(f, s.pass.value.at) else 0
  {
    if s.pass.None? then s
    else
      GoodStepMoves(f, s);
      Finish(f, GoodStep(f, s))
  }

  lemma {:induction false} FinishLands(f: Framework, s: State)
    requires Inv(f, s) && s.pass.Some?
    ensures var t := Finish(f, s);
      && t.vps.localVersion == Target(s) && t.from.env == Source(s)
      && (InStep(f, s) ==> t.vps.runningKeys == t.vps.envKeys)
      && (ModelAhead(f, s.pass.value.at) && Wanted(f, s.contents[Source(s)]).Some? ==>
            t.vps.model == Wanted(f, s.contents[Source(s)]))
      && (!ModelAhead(f, s.pass.value.at) ==> t.vps.model == s.vps.model)
    decreases StepsLeft(f, s.pass.value.at)
  {
    GoodStepMoves(f, s);
    GoodStepWrites(f, s);
    hide GoodStep, ModelAhead, StepsLeft, Inv;
    if GoodStep(f, s).pass.Some? {
      FinishLands(f, GoodStep(f, s));
    }
  }

  /** A heartbeat and its pass, with nothing going wrong; or nothing, if no pass is due. */
  function HealthyPass(f: Framework, s: State): (t: State)
    requires Inv(f, s) && s.pass.None?
    ensures Inv(f, t) && t.pass.None? && t.contents == s.contents
  {
    if PassDue(f, Version(s), s.vps.localVersion) then Finish(f, Next(f, s, Heartbeat(true)).value) else s
  }

  /** The last update has landed, wherever the pass under way is.  That pass and one more
      bring the VPS up to date: version, env file, model, and the container unless it was
      out of step before.  The first is enough for the version exactly when its heartbeat
      was answered after the update; then the model is current if its model step was still
      ahead. */
  lemma TwoPassesConverge(f: Framework, s: State)
    requires Inv(f, s) && s.pass.Some? && Version(s) >= 1
    ensures var one := Finish(f, s);
      && (one.vps.localVersion == Version(s) <==> Target(s) == Version(s))
      && var two := HealthyPass(f, one);
         && two.vps.localVersion == Version(s) && two.vps.envKeys == Current(s).keys
         && (InStep(f, s) ==> two.vps.runningKeys == Current(s).keys)
         && (Target(s) != Version(s) || ModelAhead(f, s.pass.value.at) ==> ModelCurrent(f, two))
  {
    FinishLands(f, s);
    LastIsFetched(f, s);
    var one := Finish(f, s);
    hide Finish, Inv, InStep, ModelAhead, HealthyPass, Target, Source;
    WantedIsCurrent(f, one);
    hide Wanted, ModelCurrent;
    HealthyPassLands(f, one);
  }

  /** What Wanted says in terms of the model's being current. */
  lemma WantedIsCurrent(f: Framework, s: State)
    requires s.contents != []
    ensures ModelCurrent(f, s) <==> (Wanted(f, Current(s)).Some? ==> s.vps.model == Wanted(f, Current(s)))
  {
  }

  lemma LastIsFetched(f: Framework, s: State)
    requires Inv(f, s) && s.pass.Some?
    ensures Target(s) == Version(s) ==> Source(s) == Version(s)
  {
  }

  lemma HealthyPassLands(f: Framework, s: State)
    requires Inv(f, s) && s.pass.None? && Version(s) >= 1
    ensures var t := HealthyPass(f, s);
      && t.vps.localVersion == Version(s) && t.vps.envKeys == Current(s).keys
      && (s.vps.runningKeys == s.vps.envKeys ==> t.vps.runningKeys == Current(s).keys)
      && (s.vps.localVersion != Version(s) ==> ModelCurrent(f, t))
      && (s.vps.localVersion == Version(s) ==> t == s)
  {
    if PassDue(f, Version(s), s.vps.localVersion) {
      FinishLands(f, Next(f, s, Heartbeat(true)).value);
      hide Finish, PassInv, GoodStep;
    }
  }
}
