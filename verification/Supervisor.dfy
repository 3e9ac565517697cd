/** The engine supervisor of `pkg/inference/supervisor.go`: the loader, the exit monitors and the liveness
    probers as interleaved steps.  Each region under `mu` is one step; loads exclude each other by `loadMu`. */
module Supervisor {
  import opened Wrappers
  import opened ContextBudget

  // ---------- the fields under the lock ----------

  datatype Backend = Vllm | LlamaCpp

  /** What a load is asked for, and what it finds out about model and machine. */
  datatype Load = Load(model: string, contextSize: int, expose: bool, meta: Meta, topo: Topology)

  /** What the node publishes about its engine. */
  datatype Config = Config(model: string, maxContext: int, activeContext: int, expose: bool, backend: Backend)

  datatype Shared = Shared(currentCmd: Option<nat>, engineReady: bool, fatalError: bool, livenessCancel: Option<nat>,
                           config: Config)

  function BackendOf(gpuLocked: bool): Backend { if gpuLocked then Vllm else LlamaCpp }

  function ConfigOf(gpuLocked: bool, l: Load): Config {
    Config(l.model, l.meta.nativeMax, EffectiveContext(l.meta, l.topo, l.contextSize), l.expose, BackendOf(gpuLocked))
  }

  // ---------- the regions ----------

  function Cleared(sh: Shared): Shared {
    sh.(livenessCancel := None, currentCmd := None, engineReady := false, fatalError := false)
  }

  /** All of the configuration but the backend. */
  function Configured(sh: Shared, l: Load): Shared {
    sh.(config := Config(l.model, l.meta.nativeMax, EffectiveContext(l.meta, l.topo, l.contextSize), l.expose,
                         sh.config.backend))
  }

  function Backed(sh: Shared, gpuLocked: bool): Shared {
    sh.(config := sh.config.(backend := BackendOf(gpuLocked)))
  }

  function Launched(sh: Shared, cmd: nat): Shared { sh.(currentCmd := Some(cmd)) }

  function Ready(sh: Shared, prober: nat): Shared {
    sh.(livenessCancel := Some(prober), engineReady := true)
  }

  /** The engine process of `cmd` is gone: exit, timeout or cancellation. */
  function Gone(sh: Shared, cmd: nat): Shared {
    var quiet := sh.(livenessCancel := None);
    if sh.currentCmd == Some(cmd) then quiet.(currentCmd := None, engineReady := false) else quiet
  }

  function Unresponsive(sh: Shared): Shared {
    sh.(engineReady := false, fatalError := true, currentCmd := None)
  }

  /** The same regions on the mutable fields. */
  class Fields {
    const gpuLocked: bool
    var currentCmd: Option<nat>
    var currentModel: string
    var backendType: Backend
    var engineReady: bool
    var fatalError: bool
    var livenessCancel: Option<nat>
    var maxContext: int
    var activeContext: int
    var exposeInHealth: bool

    ghost function Now(): Shared
      reads this
    {
      Shared(currentCmd, engineReady, fatalError, livenessCancel,
             Config(currentModel, maxContext, activeContext, exposeInHealth, backendType))
    }

    constructor (gpuLocked: bool, hasGPU: bool)
      ensures this.gpuLocked == gpuLocked
      ensures Now() == Shared(None, false, gpuLocked && !hasGPU, None, Config("", 0, 0, false, BackendOf(gpuLocked)))
    {
      this.gpuLocked := gpuLocked;
      backendType := if gpuLocked then Vllm else LlamaCpp;
      currentCmd, livenessCancel, engineReady, fatalError := None, None, false, gpuLocked && !hasGPU;
      currentModel, maxContext, activeContext, exposeInHealth := "", 0, 0, false;
    }

    method BeginLoad() returns (oldCmd: Option<nat>, cancelled: Option<nat>)
      modifies this
      ensures Now() == Cleared(old(Now()))
      ensures oldCmd == old(currentCmd) && cancelled == old(livenessCancel)
    {
      cancelled := None;
      if livenessCancel.Some? {
        cancelled := livenessCancel;
        livenessCancel := None;
      }
      oldCmd := currentCmd;
      currentCmd := None;
      engineReady := false;
      fatalError := false;
    }

    method Configure(l: Load)
      modifies this
      ensures Now() == Configured(old(Now()), l)
    {
      var budget := EvaluateVRAMContextBudget(l.meta, l.topo, l.contextSize);
      var contextSize := l.contextSize;
      if budget.clamp && budget.context > 0 {
        contextSize := budget.context;
      } else if contextSize <= 0 {
        contextSize := if l.meta.nativeMax > 0 then l.meta.nativeMax else 4096;
      }
      currentModel := l.model;
      maxContext := l.meta.nativeMax;
      activeContext := contextSize;
      exposeInHealth := l.expose;
    }

    method SetBackend()
      modifies this
      ensures Now() == Backed(old(Now()), gpuLocked)
    {
      backendType := if gpuLocked then Vllm else LlamaCpp;
    }

    method Launch(cmd: nat)
      modifies this
      ensures Now() == Launched(old(Now()), cmd)
    {
      currentCmd := Some(cmd);
    }

    method EngineReady(prober: nat) returns (cancelled: Option<nat>)
      modifies this
      ensures Now() == Ready(old(Now()), prober) && cancelled == old(livenessCancel)
    {
      cancelled := livenessCancel;
      livenessCancel := Some(prober);
      engineReady := true;
    }

    method EngineGone(cmd: nat) returns (cancelled: Option<nat>)
      modifies this
      ensures Now() == Gone(old(Now()), cmd) && cancelled == old(livenessCancel)
    {
      cancelled := None;
      if livenessCancel.Some? {
        cancelled := livenessCancel;
        livenessCancel := None;
      }
      if currentCmd == Some(cmd) {
        engineReady := false;
        currentCmd := None;
      }
    }

    method ProbeFailed() returns (cmdToKill: Option<nat>)
      modifies this
      ensures Now() == Unresponsive(old(Now())) && cmdToKill == old(currentCmd)
    {
      engineReady := false;
      fatalError := true;
      cmdToKill := currentCmd;
      currentCmd := None;
    }
  }

  // ---------- the whole: loader, monitors, probers ----------

  /** Where the one load in progress is. */
  datatype Loader =
    | Idle
    | Checking(load: Load)                // running engine stopped, request being checked
    | Provisioning(load: Load)            // configuration set
    | Starting(load: Load)                // backend set
    | Polling(load: Load, cmd: nat)       // process started, polled for health

  /** A prober between ticks, or armed: it has seen the engine ready and is probing. */
  datatype Prober = Prober(cancelled: bool, armed: bool, failures: nat)

  /** Commands and probers are numbered in the order they start.  The last three are history: the load whose
      engine last reported healthy, whether a prober struck while the current engine was polled, and whether
      an exit monitor ran since an engine last reported healthy. */
  datatype State = State(shared: Shared, loader: Loader, monitors: set<nat>, probers: map<nat, Prober>,
                         commands: nat, proberCount: nat, healthy: Option<Load>, struck: bool, silenced: bool)

  datatype Event =
    | Begin(load: Load) | Configure | ChooseBackend | Start | Healthy | Abort | Fail(fatal: bool)
    | Exit(cmd: nat)
    | Tick(p: nat, recentActivity: bool) | ProbeOk(p: nat) | ProbeMiss(p: nat) | StopProber(p: nat)

  function Cancel(probers: map<nat, Prober>, p: Option<nat>): map<nat, Prober> {
    if p.Some? && p.value in probers then probers[p.value := probers[p.value].(cancelled := true)] else probers
  }

  /** The loader's steps.  `Abort` is any of: the process exited, the health poll timed out, the request was
      cancelled.  `Fail` is an error return outside the lock. */
  function LoaderStep(gpuLocked: bool, s: State, e: Event): State {
    match (e, s.loader)
    case (Begin(l), Idle) =>
      s.(shared := Cleared(s.shared), probers := Cancel(s.probers, s.shared.livenessCancel), loader := Checking(l))
    case (Configure, Checking(l)) => s.(shared := Configured(s.shared, l), loader := Provisioning(l))
    case (ChooseBackend, Provisioning(l)) =>
      s.(shared := Backed(s.shared, gpuLocked), loader := Starting(l))
    case (Start, Starting(l)) =>
      s.(shared := Launched(s.shared, s.commands), loader := Polling(l, s.commands), commands := s.commands + 1,
         struck := false)
    case (Healthy, Polling(l, cmd)) =>
      var p := s.proberCount;
      s.(shared := Ready(s.shared, p), loader := Idle, monitors := s.monitors + {cmd},
         probers := Cancel(s.probers, s.shared.livenessCancel)[p := Prober(false, false, 0)], proberCount := p + 1,
         healthy := Some(l), silenced := false)
    case (Abort, Polling(_, cmd)) =>
      s.(shared := Gone(s.shared, cmd), probers := Cancel(s.probers, s.shared.livenessCancel), loader := Idle)
    case (Fail(fatal), Checking(_)) => s.(loader := Idle)
    case (Fail(fatal), Provisioning(_)) =>
      s.(shared := if fatal then s.shared.(fatalError := true) else s.shared, loader := Idle)
    case (Fail(fatal), Starting(_)) => s.(loader := Idle)
    case _ => s
  }

  function ProberStep(s: State, e: Event): State {
    match e
    case Tick(p, recentActivity) =>
      if p !in s.probers || s.probers[p].armed then s
      else if !s.shared.engineReady then s.(probers := s.probers - {p})
      else if recentActivity then s.(probers := s.probers[p := s.probers[p].(failures := 0)])
      else s.(probers := s.probers[p := s.probers[p].(armed := true)])
    case ProbeOk(p) =>
      if p in s.probers && s.probers[p].armed
      then s.(probers := s.probers[p := s.probers[p].(armed := false, failures := 0)])
      else s
    case ProbeMiss(p) =>
      if p !in s.probers || !s.probers[p].armed then s
      else if s.probers[p].failures + 1 >= 3 then
        s.(shared := Unresponsive(s.shared), probers := s.probers - {p}, struck := s.struck || s.loader.Polling?)
      else s.(probers := s.probers[p := s.probers[p].(armed := false, failures := s.probers[p].failures + 1)])
    case StopProber(p) =>
      if p in s.probers && s.probers[p].cancelled && !s.probers[p].armed then s.(probers := s.probers - {p}) else s
    case _ => s
  }

  /** One step; an event that cannot happen here changes nothing. */
  function Step(gpuLocked: bool, s: State, e: Event): State {
    match e
    case Exit(cmd) =>
      if cmd in s.monitors
      then s.(shared := Gone(s.shared, cmd), probers := Cancel(s.probers, s.shared.livenessCancel),
              monitors := s.monitors - {cmd}, silenced := true)
      else s
    case Tick(_, _) => ProberStep(s, e)
    case ProbeOk(_) => ProberStep(s, e)
    case ProbeMiss(_) => ProberStep(s, e)
    case StopProber(_) => ProberStep(s, e)
    case _ => LoaderStep(gpuLocked, s, e)
  }

  function Initial(gpuLocked: bool, fatal: bool): State {
    State(Shared(None, false, fatal, None, Config("", 0, 0, false, BackendOf(gpuLocked))), Idle, {}, map[], 0, 0, None, false, false)
  }

  function Run(gpuLocked: bool, fatal: bool, events: seq<Event>): State {
    if events == [] then Initial(gpuLocked, fatal)
    else Step(gpuLocked, Run(gpuLocked, fatal, events[..|events| - 1]), events[|events| - 1])
  }

  // ---------- what every interleaving keeps ----------

  /** How much of the configuration the load in progress has written. */
  predicate LoaderWrote(gpuLocked: bool, s: State) {
    match s.loader
    case Idle => true
    case Checking(_) => true
    case Provisioning(l) => s.shared.config == ConfigOf(gpuLocked, l).(backend := s.shared.config.backend)
    case Starting(l) => s.shared.config == ConfigOf(gpuLocked, l)
    case Polling(l, cmd) => s.shared.config == ConfigOf(gpuLocked, l) && cmd + 1 == s.commands
  }

  /** Only the newest command is ever the current one; monitors watch commands that were started. */
  predicate HandlesAreNewest(s: State) {
    && (s.shared.currentCmd.Some? ==> s.shared.currentCmd.value + 1 == s.commands)
    && (forall c :: c in s.monitors ==> c < s.commands)
    && (s.loader.Polling? ==> s.loader.cmd !in s.monitors)
  }

  /** Only the prober whose cancellation is at hand runs on; the others have been told to stop. */
  ghost predicate ProbersOk(s: State) {
    && (forall p :: p in s.probers ==> p < s.proberCount)
    && (forall p :: p in s.probers && !s.probers[p].cancelled ==> s.shared.livenessCancel == Some(p))
    && (s.shared.engineReady ==> match s.shared.livenessCancel
                                 case None => s.silenced
                                 case Some(p) => !s.silenced && p in s.probers && !s.probers[p].cancelled)
  }

  predicate ReadyOk(gpuLocked: bool, s: State) {
    && (s.shared.engineReady ==>
          && s.loader.Idle? && s.healthy.Some?
          && s.shared.config == ConfigOf(gpuLocked, s.healthy.value)
          && (s.shared.currentCmd.Some? <==> !s.struck))
    && (s.loader.Polling? ==> (s.shared.currentCmd.Some? <==> !s.struck))
  }

  ghost predicate Invariant(gpuLocked: bool, s: State) {
    LoaderWrote(gpuLocked, s) && HandlesAreNewest(s) && ReadyOk(gpuLocked, s) && ProbersOk(s)
  }

  lemma LoaderKeepsHandles(gpuLocked: bool, s: State, e: Event)
    requires LoaderWrote(gpuLocked, s) && HandlesAreNewest(s)
    ensures HandlesAreNewest(LoaderStep(gpuLocked, s, e))
  {
    hide ConfigOf;
  }

  lemma LoaderKeeps(gpuLocked: bool, s: State, e: Event)
    requires LoaderWrote(gpuLocked, s) && HandlesAreNewest(s) && ReadyOk(gpuLocked, s)
    ensures var t := LoaderStep(gpuLocked, s, e);
            LoaderWrote(gpuLocked, t) && HandlesAreNewest(t) && ReadyOk(gpuLocked, t)
  {
    hide HandlesAreNewest, Cancel;
    LoaderKeepsHandles(gpuLocked, s, e);
  }

  lemma ProberKeeps(gpuLocked: bool, s: State, e: Event)
    requires LoaderWrote(gpuLocked, s) && HandlesAreNewest(s) && ReadyOk(gpuLocked, s)
    ensures var t := ProberStep(s, e);
            LoaderWrote(gpuLocked, t) && HandlesAreNewest(t) && ReadyOk(gpuLocked, t)
  {
  }

  lemma LoaderKeepsProbers(gpuLocked: bool, s: State, e: Event)
    requires ReadyOk(gpuLocked, s) && ProbersOk(s)
    ensures ProbersOk(LoaderStep(gpuLocked, s, e))
  {
  }

  lemma ProberKeepsProbers(s: State, e: Event)
    requires ProbersOk(s)
    ensures ProbersOk(ProberStep(s, e))
  {
  }

  lemma ExitKeeps(gpuLocked: bool, s: State, cmd: nat)
    requires Invariant(gpuLocked, s)
    ensures Invariant(gpuLocked, Step(gpuLocked, s, Exit(cmd)))
  {
  }

  lemma StepKeeps(gpuLocked: bool, s: State, e: Event)
    requires Invariant(gpuLocked, s)
    ensures Invariant(gpuLocked, Step(gpuLocked, s, e))
  {
    hide LoaderStep, ProberStep;
    match e
    case Exit(cmd) => ExitKeeps(gpuLocked, s, cmd);
    case _ =>
      LoaderKeeps(gpuLocked, s, e);
      LoaderKeepsProbers(gpuLocked, s, e);
      ProberKeeps(gpuLocked, s, e);
      ProberKeepsProbers(s, e);
  }

  lemma {:induction false} RunKeeps(gpuLocked: bool, fatal: bool, events: seq<Event>)
    ensures Invariant(gpuLocked, Run(gpuLocked, fatal, events))
  {
    if events != [] {
      RunKeeps(gpuLocked, fatal, events[..|events| - 1]);
      StepKeeps(gpuLocked, Run(gpuLocked, fatal, events[..|events| - 1]), events[|events| - 1]);
    }
  }

  /** Whenever the engine is ready, what the node publishes is what the load whose engine last reported
      healthy asked for, and its context is positive. */
  lemma ReadyIsHonest(gpuLocked: bool, fatal: bool, events: seq<Event>)
    ensures var s := Run(gpuLocked, fatal, events);
            s.shared.engineReady ==>
              && s.healthy.Some? && s.shared.config == ConfigOf(gpuLocked, s.healthy.value)
              && s.shared.config.activeContext > 0
  {
    RunKeeps(gpuLocked, fatal, events);
  }

  /** The exit monitor of any command but the newest changes neither handle nor readiness, whenever it runs. */
  lemma OldMonitorIsHarmless(gpuLocked: bool, fatal: bool, events: seq<Event>, cmd: nat)
    ensures var s := Run(gpuLocked, fatal, events);
            var t := Step(gpuLocked, s, Exit(cmd));
            cmd + 1 != s.commands ==>
              t.shared.currentCmd == s.shared.currentCmd && t.shared.engineReady == s.shared.engineReady
  {
    RunKeeps(gpuLocked, fatal, events);
  }

  /** A ready engine has a handle exactly when no prober struck while it was polled. */
  lemma ReadyHasHandleIff(gpuLocked: bool, fatal: bool, events: seq<Event>)
    ensures var s := Run(gpuLocked, fatal, events);
            s.shared.engineReady ==> (s.shared.currentCmd.Some? <==> !s.struck)
  {
    RunKeeps(gpuLocked, fatal, events);
  }

  /** A prober that was not told to stop. */
  predicate HasLiveProber(s: State) {
    exists p :: p in s.probers && !s.probers[p].cancelled
  }

  /** A ready engine has a live prober, and its cancellation at hand, exactly when no exit monitor ran since it
      reported healthy. */
  lemma ReadyHasProberIff(gpuLocked: bool, fatal: bool, events: seq<Event>)
    ensures var s := Run(gpuLocked, fatal, events);
            s.shared.engineReady ==>
              && (HasLiveProber(s) <==> !s.silenced)
              && (s.shared.livenessCancel.Some? <==> !s.silenced)
  {
    RunKeeps(gpuLocked, fatal, events);
    var s := Run(gpuLocked, fatal, events);
    if s.shared.engineReady && s.shared.livenessCancel.Some? {
      assert s.shared.livenessCancel.value in s.probers;
    }
  }

  // ---------- what an interleaving can do ----------

  function RunOn(gpuLocked: bool, s: State, events: seq<Event>): State {
    if events == [] then s
    else Step(gpuLocked, RunOn(gpuLocked, s, events[..|events| - 1]), events[|events| - 1])
  }

  lemma {:induction false} RunThenRunOn(gpuLocked: bool, fatal: bool, before: seq<Event>, after: seq<Event>)
    ensures Run(gpuLocked, fatal, before + after) == RunOn(gpuLocked, Run(gpuLocked, fatal, before), after)
  {
    var n := |after| - 1;
    if after == [] {
      assert before + after == before;
    } else {
      var all := before + after;
      assert all[..|all| - 1] == before + after[..n] && all[|all| - 1] == after[n];
      RunThenRunOn(gpuLocked, fatal, before, after[..n]);
    }
  }

  lemma RunOnSnoc(gpuLocked: bool, s: State, events: seq<Event>, e: Event)
    ensures RunOn(gpuLocked, s, events + [e]) == Step(gpuLocked, RunOn(gpuLocked, s, events), e)
  {
    assert (events + [e])[..|events|] == events;
  }

  /** A load up to the start of its process. */
  function Launch(l: Load): seq<Event> { [] + [Begin(l)] + [Configure] + [ChooseBackend] + [Start] }

  lemma LaunchRuns(gpuLocked: bool, s: State, l: Load)
    requires s.loader.Idle?
    ensures var t := RunOn(gpuLocked, s, Launch(l));
            && t.loader == Polling(l, s.commands) && t.shared.currentCmd == Some(s.commands) && !t.struck
            && t.probers == Cancel(s.probers, s.shared.livenessCancel) && t.shared.livenessCancel.None?
            && t.monitors == s.monitors && t.proberCount == s.proberCount && t.commands == s.commands + 1
  {
    RunOnSnoc(gpuLocked, s, [], Begin(l));
    RunOnSnoc(gpuLocked, s, [] + [Begin(l)], Configure);
    RunOnSnoc(gpuLocked, s, [] + [Begin(l)] + [Configure], ChooseBackend);
    RunOnSnoc(gpuLocked, s, [] + [Begin(l)] + [Configure] + [ChooseBackend], Start);
  }

  /** From any idle state a load can get its engine ready. */
  lemma LoadCanSucceed(gpuLocked: bool, s: State, l: Load)
    requires s.loader.Idle?
    ensures var t := RunOn(gpuLocked, s, Launch(l) + [Healthy]);
            && t.loader.Idle? && t.shared.engineReady && t.healthy == Some(l) && t.shared.currentCmd == Some(s.commands)
            && s.proberCount in t.probers && t.probers[s.proberCount] == Prober(false, false, 0)
            && s.commands in t.monitors && t.monitors == s.monitors + {s.commands}
            && t.proberCount == s.proberCount + 1 && t.commands == s.commands + 1
            && t.shared.livenessCancel == Some(s.proberCount)
  {
    LaunchRuns(gpuLocked, s, l);
    RunOnSnoc(gpuLocked, s, Launch(l), Healthy);
  }

  /** Two misses, and a third probe under way. */
  function Strikes(p: nat): seq<Event> {
    [] + [Tick(p, false)] + [ProbeMiss(p)] + [Tick(p, false)] + [ProbeMiss(p)] + [Tick(p, false)]
  }

  lemma StrikesRun(gpuLocked: bool, s: State, p: nat)
    requires s.shared.engineReady && p in s.probers && s.probers[p] == Prober(false, false, 0)
    ensures RunOn(gpuLocked, s, Strikes(p)) == s.(probers := s.probers[p := Prober(false, true, 2)])
  {
    var t := Tick(p, false);
    var m := ProbeMiss(p);
    RunOnSnoc(gpuLocked, s, [], t);
    RunOnSnoc(gpuLocked, s, [] + [t], m);
    RunOnSnoc(gpuLocked, s, [] + [t] + [m], t);
    RunOnSnoc(gpuLocked, s, [] + [t] + [m] + [t], m);
    RunOnSnoc(gpuLocked, s, [] + [t] + [m] + [t] + [m], t);
  }

  lemma StaleStrike(gpuLocked: bool, s: State, l: Load, p: nat)
    requires s.loader.Idle? && p in s.probers && s.probers[p].armed && s.probers[p].failures == 2
    ensures var sh := RunOn(gpuLocked, s, Launch(l) + [ProbeMiss(p)] + [Healthy]).shared;
            sh.engineReady && sh.currentCmd.None? && sh.fatalError
  {
    LaunchRuns(gpuLocked, s, l);
    RunOnSnoc(gpuLocked, s, Launch(l), ProbeMiss(p));
    RunOnSnoc(gpuLocked, s, Launch(l) + [ProbeMiss(p)], Healthy);
  }

  /** A prober of an earlier engine, in its third probe when the next load starts, takes the new engine's
      handle away; the engine still becomes ready, with a fatal error set. */
  lemma ReadyWithoutHandle(gpuLocked: bool, fatal: bool, l: Load)
    ensures exists events :: var sh := Run(gpuLocked, fatal, events).shared;
                             sh.engineReady && sh.currentCmd.None? && sh.fatalError
  {
    hide RunOn, Launch, Step, Strikes;
    var first, last := Launch(l) + [Healthy], Launch(l) + [ProbeMiss(0)] + [Healthy];
    var a := RunOn(gpuLocked, Initial(gpuLocked, fatal), first);
    LoadCanSucceed(gpuLocked, Initial(gpuLocked, fatal), l);
    RunThenRunOn(gpuLocked, fatal, [], first);
    assert [] + first == first;
    StrikesRun(gpuLocked, a, 0);
    RunThenRunOn(gpuLocked, fatal, first, Strikes(0));
    StaleStrike(gpuLocked, RunOn(gpuLocked, a, Strikes(0)), l, 0);
    RunThenRunOn(gpuLocked, fatal, first + Strikes(0), last);
    var sh := Run(gpuLocked, fatal, first + Strikes(0) + last).shared;
    assert sh.engineReady && sh.currentCmd.None? && sh.fatalError;
  }

  /** A load becomes ready, and then a monitor of an earlier engine runs. */
  lemma LateMonitor(gpuLocked: bool, s: State, l: Load, c: nat)
    requires s.loader.Idle? && c in s.monitors && c != s.commands
    ensures var t := RunOn(gpuLocked, s, Launch(l) + [Healthy] + [Exit(c)]);
            && t.shared.engineReady && t.shared.currentCmd.Some? && t.shared.livenessCancel.None?
            && s.proberCount in t.probers && t.probers[s.proberCount].cancelled
  {
    hide RunOn, Launch, LoaderStep;
    LoadCanSucceed(gpuLocked, s, l);
    RunOnSnoc(gpuLocked, s, Launch(l) + [Healthy], Exit(c));
  }

  /** A late exit monitor of an earlier engine stops the prober of the engine that is ready now. */
  lemma ReadyWithoutProber(gpuLocked: bool, fatal: bool, l: Load)
    ensures exists events :: var s := Run(gpuLocked, fatal, events);
                             && s.shared.engineReady && s.shared.currentCmd.Some?
                             && s.shared.livenessCancel.None? && 1 in s.probers && s.probers[1].cancelled
  {
    hide RunOn, Launch, Step;
    var first := Launch(l) + [Healthy];
    var a := RunOn(gpuLocked, Initial(gpuLocked, fatal), first);
    LoadCanSucceed(gpuLocked, Initial(gpuLocked, fatal), l);
    RunThenRunOn(gpuLocked, fatal, [], first);
    assert [] + first == first;
    LateMonitor(gpuLocked, a, l, 0);
    RunThenRunOn(gpuLocked, fatal, first, first + [Exit(0)]);
    var s := Run(gpuLocked, fatal, first + (first + [Exit(0)]));
    assert s.shared.engineReady && s.shared.livenessCancel.None? && s.probers[1].cancelled;
  }

  // ---------- three misses in a row ----------

  /** What a step is to prober `p`: a missed probe counts, a good probe or recent activity at a tick starts anew. */
  function MissesAfter(s: State, e: Event, p: nat, misses: nat): nat {
    match e
    case ProbeMiss(q) => if q == p && p in s.probers && s.probers[p].armed then misses + 1 else misses
    case ProbeOk(q) => if q == p && p in s.probers && s.probers[p].armed then 0 else misses
    case Tick(q, recentActivity) =>
      if q == p && p in s.probers && !s.probers[p].armed && s.shared.engineReady && recentActivity then 0 else misses
    case _ => misses
  }

  /** How many probes of `p` were missed since the last good one or the last activity. */
  function Misses(gpuLocked: bool, fatal: bool, events: seq<Event>, p: nat): nat {
    if events == [] then 0
    else
      var init := events[..|events| - 1];
      MissesAfter(Run(gpuLocked, fatal, init), events[|events| - 1], p, Misses(gpuLocked, fatal, init, p))
  }

  /** The counter of a prober is its misses, and those to come have none. */
  predicate Counted(s: State, p: nat, misses: nat) {
    && (p in s.probers ==> s.probers[p].failures == misses < 3)
    && (p >= s.proberCount ==> p !in s.probers && misses == 0)
  }

  lemma LoaderCounts(gpuLocked: bool, s: State, e: Event, p: nat, misses: nat)
    requires Counted(s, p, misses)
    ensures Counted(LoaderStep(gpuLocked, s, e), p, misses)
  {
    hide ConfigOf;
  }

  lemma StepCounts(gpuLocked: bool, s: State, e: Event, p: nat, misses: nat)
    requires Counted(s, p, misses)
    ensures Counted(Step(gpuLocked, s, e), p, MissesAfter(s, e, p, misses))
  {
    hide LoaderStep;
    LoaderCounts(gpuLocked, s, e, p, misses);
  }

  lemma {:induction false} RunCounts(gpuLocked: bool, fatal: bool, events: seq<Event>, p: nat)
    ensures Counted(Run(gpuLocked, fatal, events), p, Misses(gpuLocked, fatal, events, p))
  {
    hide Step, MissesAfter;
    if events != [] {
      var n := |events| - 1;
      RunCounts(gpuLocked, fatal, events[..n], p);
      StepCounts(gpuLocked, Run(gpuLocked, fatal, events[..n]), events[n], p, Misses(gpuLocked, fatal, events[..n], p));
    }
  }

  /** A prober strikes, taking readiness and handle away, exactly at its third miss in a row with neither a good
      probe nor activity seen between; until then a miss touches nothing shared. */
  lemma StrikesAtThirdMiss(gpuLocked: bool, fatal: bool, events: seq<Event>, p: nat)
    requires var s := Run(gpuLocked, fatal, events); p in s.probers && s.probers[p].armed
    ensures var s, t := Run(gpuLocked, fatal, events), Run(gpuLocked, fatal, events + [ProbeMiss(p)]);
            if Misses(gpuLocked, fatal, events, p) == 2
            then !t.shared.engineReady && t.shared.fatalError && t.shared.currentCmd.None? && p !in t.probers
            else t.shared == s.shared && p in t.probers
  {
    assert (events + [ProbeMiss(p)])[..|events|] == events;
    RunCounts(gpuLocked, fatal, events, p);
  }

  // ---------- failed loads ----------

  /** Any load in progress can be ended: by a failure before its process starts, or by abandoning it. */
  function Ending(s: State, fatal: bool): Event { if s.loader.Polling? then Abort else Fail(fatal) }

  lemma EndingEnds(gpuLocked: bool, s: State, why: bool)
    requires !s.loader.Idle? && LoaderWrote(gpuLocked, s) && HandlesAreNewest(s) && ReadyOk(gpuLocked, s)
    ensures var t := Step(gpuLocked, s, Ending(s, why));
            && t.loader.Idle? && !t.shared.engineReady
            && (s.loader.Polling? ==> t.shared.currentCmd.None? && t.shared.livenessCancel.None?)
  {
    hide ConfigOf, Cancel;
  }

  /** Over every interleaving: a load that fails, at whatever stage, leaves no ready engine, and the next one can
      succeed. */
  lemma FailedLoadCanBeRetried(gpuLocked: bool, fatal: bool, events: seq<Event>, why: bool, l: Load)
    requires !Run(gpuLocked, fatal, events).loader.Idle?
    ensures var s := Run(gpuLocked, fatal, events);
            var t := Step(gpuLocked, s, Ending(s, why));
            && t.loader.Idle? && !t.shared.engineReady
            && (s.loader.Polling? ==> t.shared.currentCmd.None? && t.shared.livenessCancel.None?)
            && RunOn(gpuLocked, t, Launch(l) + [Healthy]).shared.engineReady
  {
    hide Run, RunOn, Step, Launch, ProbersOk, LoaderWrote, HandlesAreNewest, ReadyOk;
    var s := Run(gpuLocked, fatal, events);
    RunKeeps(gpuLocked, fatal, events);
    EndingEnds(gpuLocked, s, why);
    LoadCanSucceed(gpuLocked, Step(gpuLocked, s, Ending(s, why)), l);
  }
}
