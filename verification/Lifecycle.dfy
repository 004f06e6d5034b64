/**
 The lifecycle protocol of runtime.go and host.go: NewInstance, Instance.Close,
 Runtime.Close, zygote initialisation and guest calls, run by any number of
 threads in any interleaving.

 Each step is one atomic action of one thread. A critical section of r.mu is one
 step, because nothing blocks inside it; guestMu is an explicit lock (`guard`),
 because guest calls run for many steps while holding it.
 */
module Lifecycle {
  import opened Prelude

  type Tid = nat
  type Iid = nat

  /** sync.Once: Do blocks while another thread runs the body. */
  datatype Once = Fresh | Running(runner: Tid) | Done

  /** The wazero module of an instance. */
  datatype Module = Absent | Live | Closed

  /** The unlinked file that holds the zygote image. */
  datatype File = NoFile | Open | Shut

  datatype Instance = Instance(
    registered: bool,      // present in r.states
    dead: bool,            // modDead
    published: bool,       // state.mod has been set
    wasm: Module,
    guard: Option<Tid>,    // holder of guestMu
    maker: Tid,            // the thread running newModuleInstance for it
    closer: Option<Tid>,   // winner of Instance.closed's CompareAndSwap
    handed: bool           // returned to a caller of NewInstance
  )

  /** For whom newModuleInstance runs: initZygote's template, or a caller. */
  datatype Owner = Template | Caller

  /** Where a guest block or an Instance.Close returns to. */
  datatype After = ToUser | ToMaker(owner: Owner)

  datatype EntryStage = EnterOnce | InitZygote | FinishOnce | AfterOnce | Register(o: Owner)

  /** newModuleInstance from registration on, then what its caller does with the result. */
  datatype MakeStage = Instantiate | AwaitPublish | Publishing | Orphaned | Unregister | Built | ZygoteFile

  datatype CloseStage = CompareSwap | RemoveState | AwaitGuard | KillModule

  datatype ShutdownStage = JoinOnce | Sweep | CloseWazero | CloseFile

  datatype Pc =
    | Idle
    | Entry(entry: EntryStage)
    | Make(make: MakeStage, owner: Owner, i: Iid)
    | Guest(inside: bool, after: After, i: Iid)
    | Close(close: CloseStage, after: After, i: Iid)
    | Shutdown(shutdown: ShutdownStage)
    | SweepNext(todo: set<Iid>)
    | SweepOne(holding: bool, i: Iid, todo: set<Iid>)

  /** The fields of Runtime that more than one thread touches. */
  datatype Shared = Shared(
    sweeper: Option<Tid>,   // winner of Runtime.closed's CompareAndSwap
    once: Once,             // zygoteOnce
    zygote: bool,           // r.zygote != nil
    file: File,
    swept: bool,            // Runtime.Close has emptied r.states
    captured: set<Iid>,     // the instances it found there
    torn: set<Iid>,         // published, undead modules that wazero.Close freed
    wazeroClosed: bool,
    closeReturned: bool
  )

  datatype State = State(g: Shared, instances: map<Iid, Instance>, threads: map<Tid, Pc>)

  const Init := State(Shared(None, Fresh, false, NoFile, false, {}, {}, false, false), map[], map[])

  /** What a thread chooses to do where the source leaves a choice. */
  datatype Act =
    | CallNewInstance
    | CallGuest(i: Iid)
    | CallClose(i: Iid)
    | CallRuntimeClose
    | Begin(i: Iid)      // register under a fresh random name
    | Pick(i: Iid)       // next state of Runtime.Close's loop
    | MakerGuest         // a guest call while the instance is being set up
    | MakeFile           // os.CreateTemp succeeded
    | Proceed
    | Fail               // the operation at hand returned an error

  function PcOf(threads: map<Tid, Pc>, t: Tid): Pc {
    if t in threads then threads[t] else Idle
  }

  function AfterMake(o: Owner): Pc {
    if o == Template then Entry(FinishOnce) else Idle
  }

  function AfterGuest(a: After, i: Iid): Pc {
    if a == ToUser then Idle else Make(Built, a.owner, i)
  }

  function AfterClose(a: After): Pc {
    if a == ToUser then Idle else AfterMake(a.owner)
  }

  /** closeModule's critical section: mark dead, close the module if it was published. */
  function Kill(x: Instance): Instance {
    x.(dead := true, wasm := if x.published then Closed else x.wasm, guard := None)
  }

  /** A module that guest calls may still be let into. */
  predicate InUse(x: Instance) {
    x.published && !x.dead && x.wasm == Live
  }

  /** wazero.Close closes whatever module is still open. */
  function FreeModule(x: Instance): Instance {
    if x.wasm == Live then x.(wasm := Closed) else x
  }

  /** One atomic action of thread t; None if the action is not enabled. */
  function Step(s: State, t: Tid, a: Act): Option<State> {
    var pc := PcOf(s.threads, t);
    if pc.Idle? then StepIdle(s, t, a)
    else if pc.Entry? && pc.entry.Register? then StepRegister(s, t, a, pc.entry.o)
    else if pc == Shutdown(Sweep) then if a == Proceed then Some(SweepStates(s, t)) else None
    else if pc == Shutdown(CloseWazero) then if a == Proceed then Some(SweepModules(s, t)) else None
    else if !HasInstance(pc) then
      match RuntimeMove(s.g, t, pc, a)
      case None => None
      case Some((g, q)) => Some(State(g, s.instances, s.threads[t := q]))
    else if pc.i !in s.instances then None
    else
      match InstanceMove(s.g, t, pc, s.instances[pc.i], a)
      case None => None
      case Some((g, q, x)) => Some(State(g, s.instances[pc.i := x], s.threads[t := q]))
  }

  predicate HasInstance(pc: Pc) {
    pc.Make? || pc.Guest? || pc.Close? || pc.SweepOne?
  }

  /** A call from outside. Only instances that NewInstance returned can be used. */
  function StepIdle(s: State, t: Tid, a: Act): Option<State> {
    match a
    case CallNewInstance =>
      Some(if s.g.sweeper.Some? then s else s.(threads := s.threads[t := Entry(EnterOnce)]))
    case CallRuntimeClose =>
      Some(if s.g.sweeper.Some? then s
           else s.(g := s.g.(sweeper := Some(t)), threads := s.threads[t := Shutdown(JoinOnce)]))
    case CallGuest(i) =>
      if i in s.instances && s.instances[i].handed
      then Some(s.(threads := s.threads[t := Guest(false, ToUser, i)])) else None
    case CallClose(i) =>
      if i in s.instances && s.instances[i].handed
      then Some(s.(threads := s.threads[t := Close(CompareSwap, ToUser, i)])) else None
    case _ => None
  }

  /** newModuleInstance's registration, under r.mu. */
  function StepRegister(s: State, t: Tid, a: Act, o: Owner): Option<State> {
    if !a.Begin? then None
    else if s.g.sweeper.Some? then Some(s.(threads := s.threads[t := AfterMake(o)]))
    else if a.i in s.instances then None
    else Some(s.(instances := s.instances[a.i := Instance(true, false, false, Absent, None, t, None, false)],
                 threads := s.threads[t := Make(Instantiate, o, a.i)]))
  }

  /** Runtime.Close takes every registered state out of r.states, under r.mu. */
  function SweepStates(s: State, t: Tid): State {
    var found := set i | i in s.instances && s.instances[i].registered;
    State(s.g.(swept := true, captured := found),
          map i | i in s.instances :: s.instances[i].(registered := false),
          s.threads[t := SweepNext(found)])
  }

  /** wazero.Close frees every module that is still open. */
  function SweepModules(s: State, t: Tid): State {
    var inUse := set i | i in s.instances && InUse(s.instances[i]);
    State(s.g.(wazeroClosed := true, torn := inUse),
          map i | i in s.instances :: FreeModule(s.instances[i]),
          s.threads[t := Shutdown(CloseFile)])
  }

  /** Steps that touch no instance: zygoteOnce, and Runtime.Close outside its critical sections. */
  function RuntimeMove(g: Shared, t: Tid, pc: Pc, a: Act): Option<(Shared, Pc)> {
    match pc
    case Entry(EnterOnce) =>
      if a != Proceed || g.once.Running? then None
      else if g.once == Done then Some((g, Entry(AfterOnce)))
      else Some((g.(once := Running(t)), Entry(InitZygote)))
    case Entry(InitZygote) =>
      if a == Fail then Some((g, Entry(FinishOnce)))
      else if a == Proceed then Some((g, Entry(Register(Template))))
      else None
    case Entry(FinishOnce) => if a == Proceed then Some((g.(once := Done), Entry(AfterOnce))) else None
    case Entry(AfterOnce) =>
      if a == Fail then Some((g, Idle))
      else if a == Proceed then Some((g, Entry(Register(Caller))))
      else None
    case SweepNext(todo) =>
      if a.Pick? && a.i in todo then Some((g, SweepOne(false, a.i, todo - {a.i})))
      else if a == Proceed && todo == {} then Some((g, Shutdown(CloseWazero)))
      else None
    case Shutdown(JoinOnce) =>
      if a != Proceed || g.once.Running? then None else Some((g.(once := Done), Shutdown(Sweep)))
    case Shutdown(CloseFile) =>
      if a == Proceed then Some((g.(file := if g.zygote then Shut else g.file, closeReturned := true), Idle)) else None
    case _ => None
  }

  /** Steps on one instance. */
  function InstanceMove(g: Shared, t: Tid, pc: Pc, x: Instance, a: Act): Option<(Shared, Pc, Instance)> {
    match pc
    case Make(m, o, i) => MakeMove(g, t, m, o, i, x, a)
    case Guest(inside, r, i) =>
      // instanceState.guest: take guestMu, refuse if modDead, run the body, release.
      if a != Proceed then None
      else if inside then Some((g, AfterGuest(r, i), x.(guard := None)))
      else if x.guard.Some? then None
      else if x.dead then Some((g, AfterGuest(r, i), x))
      else Some((g, Guest(true, r, i), x.(guard := Some(t))))
    case Close(c, r, i) => if a == Proceed then CloseMove(g, t, c, r, i, x) else None
    case SweepOne(holding, i, todo) =>
      // closeModule for one of the states that Runtime.Close found.
      if a != Proceed then None
      else if holding then Some((g, SweepNext(todo), Kill(x)))
      else if x.guard.Some? then None
      else Some((g, SweepOne(true, i, todo), x.(guard := Some(t))))
    case _ => None
  }

  /** newModuleInstance after registration, and what its caller does with the result. */
  function MakeMove(g: Shared, t: Tid, m: MakeStage, o: Owner, i: Iid, x: Instance, a: Act)
    : Option<(Shared, Pc, Instance)>
  {
    match m
    case Instantiate =>
      if a == Fail then Some((g, Make(Unregister, o, i), x))
      else if a == Proceed then Some((g, Make(AwaitPublish, o, i), x.(wasm := Live)))
      else None
    case AwaitPublish =>
      if a != Proceed || x.guard.Some? then None
      else Some((g, Make(Publishing, o, i), x.(guard := Some(t))))
    case Publishing =>
      if a != Proceed then None
      else if x.dead then Some((g, Make(Orphaned, o, i), x.(guard := None)))
      else Some((g, Make(Built, o, i), x.(guard := None, published := true)))
    case Orphaned => if a == Proceed then Some((g, Make(Unregister, o, i), x.(wasm := Closed))) else None
    case Unregister => if a == Proceed then Some((g, AfterMake(o), x.(registered := false))) else None
    case Built =>
      if a == MakerGuest then Some((g, Guest(false, ToMaker(o), i), x))
      else if a == Fail then Some((g, Close(CompareSwap, ToMaker(o), i), x))
      else if a == Proceed && o == Caller then Some((g, Idle, x.(handed := true)))
      else if a == MakeFile && o == Template then Some((g.(file := Open), Make(ZygoteFile, o, i), x))
      else None
    case ZygoteFile =>
      if a == Fail then Some((g.(file := Shut), Close(CompareSwap, ToMaker(o), i), x))
      else if a == Proceed then Some((g.(zygote := true), Close(CompareSwap, ToMaker(o), i), x))
      else None
  }

  /** Instance.Close. */
  function CloseMove(g: Shared, t: Tid, c: CloseStage, r: After, i: Iid, x: Instance): Option<(Shared, Pc, Instance)> {
    match c
    case CompareSwap =>
      if x.closer.Some? then Some((g, AfterClose(r), x))
      else Some((g, Close(RemoveState, r, i), x.(closer := Some(t))))
    case RemoveState => Some((g, Close(AwaitGuard, r, i), x.(registered := false)))
    case AwaitGuard => if x.guard.Some? then None else Some((g, Close(KillModule, r, i), x.(guard := Some(t))))
    case KillModule => Some((g, AfterClose(r), Kill(x)))
  }

  /** The state after a schedule of (thread, action) pairs, if every step is enabled. */
  function Run(s: State, schedule: seq<(Tid, Act)>): Option<State>
    decreases |schedule|
  {
    if schedule == [] then Some(s)
    else
      match Step(s, schedule[0].0, schedule[0].1)
      case None => None
      case Some(s') => Run(s', schedule[1..])
  }

  // ---- The inductive invariant ----

  predicate HoldsGuard(pc: Pc, i: Iid) {
    match pc
    case Make(m, _, j) => m == Publishing && i == j
    case Guest(inside, _, j) => inside && i == j
    case Close(c, _, j) => c == KillModule && i == j
    case SweepOne(holding, j, _) => holding && i == j
    case _ => false
  }

  /** Between the CompareAndSwap and the end of closeModule (runtime.go:719-724). */
  predicate ClosePhase(pc: Pc, i: Iid) {
    pc.Close? && pc.i == i && pc.close != CompareSwap
  }

  /** Unregistered, module not closed yet (between runtime.go:723 and 724). */
  predicate CloseWindow(pc: Pc, i: Iid) {
    pc.Close? && pc.i == i && (pc.close == AwaitGuard || pc.close == KillModule)
  }

  /** newModuleInstance holds, or may still create, a module nobody else knows. */
  predicate MakePhase(pc: Pc, i: Iid) {
    pc.Make? && pc.i == i && (pc.make == Instantiate || pc.make == AwaitPublish || pc.make == Publishing)
  }

  /** newModuleInstance holds a module that it must publish or close. */
  predicate OwesClose(pc: Pc, i: Iid) {
    pc.Make? && pc.i == i && (pc.make == AwaitPublish || pc.make == Publishing || pc.make == Orphaned)
  }

  predicate SweepOf(pc: Pc, i: Iid) {
    match pc
    case SweepNext(todo) => i in todo
    case SweepOne(_, j, todo) => i == j || i in todo
    case _ => false
  }

  predicate AfterSweep(pc: Pc) {
    pc.SweepNext? || pc.SweepOne? || (pc.Shutdown? && (pc.shutdown == CloseWazero || pc.shutdown == CloseFile))
  }

  /** The body that zygoteOnce runs. */
  predicate InOnce(pc: Pc) {
    match pc
    case Entry(e) => e == InitZygote || e == FinishOnce || e == Register(Template)
    case Make(_, o, _) => o == Template
    case Guest(_, r, _) => r == ToMaker(Template)
    case Close(_, r, _) => r == ToMaker(Template)
    case _ => false
  }

  /** initZygote before it has set r.zygote or given up. */
  predicate BeforeZygote(pc: Pc) {
    match pc
    case Entry(e) => e == InitZygote || e == Register(Template)
    case Make(m, o, _) => o == Template && m != ZygoteFile
    case Guest(_, r, _) => r == ToMaker(Template)
    case _ => false
  }

  /** What a thread may rely on about the instance it is making. */
  predicate MakeOk(t: Tid, m: MakeStage, o: Owner, x: Instance, late: bool) {
    match m
    case Instantiate => x.maker == t && !x.published && x.wasm == Absent
    case AwaitPublish => x.maker == t && !x.published && (x.wasm == Live || late)
    case Publishing => x.maker == t && !x.published && (x.wasm == Live || late) && x.guard == Some(t)
    case Orphaned => x.maker == t && !x.published && x.dead
    case Unregister => x.maker == t && !x.published && x.wasm != Live
    case Built => x.published
    case ZygoteFile => x.published && o == Template
  }

  predicate CloseOk(t: Tid, c: CloseStage, x: Instance) {
    && x.published
    && (c != CompareSwap ==> x.closer == Some(t))
    && (c == AwaitGuard || c == KillModule ==> !x.registered)
    && (c == KillModule ==> x.guard == Some(t))
  }

  /** What thread t at `pc` may rely on about the instance it is working on. */
  predicate PcInstance(t: Tid, pc: Pc, x: Instance, late: bool) {
    match pc
    case Make(m, o, _) => MakeOk(t, m, o, x, late)
    case Guest(inside, _, _) => x.published && (inside ==> x.guard == Some(t) && !x.dead)
    case Close(c, _, _) => CloseOk(t, c, x)
    case SweepOne(holding, _, _) => holding ==> x.guard == Some(t)
    case _ => true
  }

  /** What thread t at `pc` may rely on about the runtime. */
  predicate PcRuntime(g: Shared, t: Tid, pc: Pc) {
    && (pc.Shutdown? || AfterSweep(pc) ==> g.sweeper == Some(t) && !g.closeReturned)
    && (g.sweeper == Some(t) ==> (AfterSweep(pc) <==> g.swept && !g.closeReturned))
    && (g.sweeper == Some(t) ==> (pc == Shutdown(CloseFile) <==> g.wazeroClosed && !g.closeReturned))
    && (InOnce(pc) ==> g.once == Running(t))
    && (g.once == Running(t) ==> InOnce(pc))
    && (AfterSweep(pc) || pc == Shutdown(Sweep) ==> g.once == Done)
    && (BeforeZygote(pc) ==> g.file == NoFile && !g.zygote)
    && (pc.Make? && pc.make == ZygoteFile ==> pc.owner == Template && g.file == Open && !g.zygote)
    && (g.once == Running(t) && g.file == Open && !g.zygote ==> pc.Make? && pc.make == ZygoteFile)
    && (pc.SweepNext? || pc.SweepOne? ==> pc.todo <= g.captured)
    && (pc.SweepOne? ==> pc.i in g.captured)
  }

  predicate SharedOk(g: Shared) {
    && (g.swept ==> g.sweeper.Some? && g.once == Done)
    && (!g.swept ==> g.captured == {} && !g.wazeroClosed)
    && (g.closeReturned ==> g.wazeroClosed && g.file != Open)
    && (!g.wazeroClosed ==> g.torn == {})
    && (g.file == Open ==> g.zygote || g.once.Running?)
    && (g.zygote && g.file != Open ==> g.closeReturned)
    && (g.once == Fresh ==> g.file == NoFile && !g.zygote)
  }

  predicate Sweeping(g: Shared, threads: map<Tid, Pc>, i: Iid) {
    g.sweeper.Some? && SweepOf(PcOf(threads, g.sweeper.value), i)
  }

  predicate Closing(threads: map<Tid, Pc>, i: Iid, x: Instance) {
    x.closer.Some? && CloseWindow(PcOf(threads, x.closer.value), i)
  }

  /** Somebody is responsible for closing the module of instance i, or there is none. */
  predicate Covered(g: Shared, threads: map<Tid, Pc>, i: Iid, x: Instance) {
    || x.dead
    || x.registered
    || Sweeping(g, threads, i)
    || Closing(threads, i, x)
    || (x.wasm != Live && !MakePhase(PcOf(threads, x.maker), i))
  }

  /** The module is open exactly while it can be used, or while its maker still holds it. */
  predicate ModuleOk(g: Shared, threads: map<Tid, Pc>, i: Iid, x: Instance) {
    && (x.guard.Some? ==> HoldsGuard(PcOf(threads, x.guard.value), i))
    && (x.wasm == Live && !x.published ==> OwesClose(PcOf(threads, x.maker), i))
    && (x.published ==> x.wasm == (if x.dead || i in g.torn then Closed else Live))
    && (x.handed || x.closer.Some? ==> x.published)
  }

  predicate DutyOk(g: Shared, threads: map<Tid, Pc>, i: Iid, x: Instance) {
    && (x.registered ==> !g.swept)
    && (x.closer.Some? && !x.dead ==> ClosePhase(PcOf(threads, x.closer.value), i))
    && (x.dead ==> i in g.captured || (x.closer.Some? && !ClosePhase(PcOf(threads, x.closer.value), i)))
    && (i in g.captured ==> x.dead || Sweeping(g, threads, i))
    && Covered(g, threads, i, x)
  }

  predicate InstanceOk(g: Shared, threads: map<Tid, Pc>, i: Iid, x: Instance) {
    ModuleOk(g, threads, i, x) && DutyOk(g, threads, i, x)
  }

  predicate ThreadOk(s: State, t: Tid, pc: Pc) {
    && PcRuntime(s.g, t, pc)
    && (HasInstance(pc) ==> pc.i in s.instances && PcInstance(t, pc, s.instances[pc.i], s.g.wazeroClosed))
  }

  ghost predicate Inv(s: State) {
    && SharedOk(s.g)
    && s.g.captured <= s.instances.Keys
    && (forall t :: ThreadOk(s, t, PcOf(s.threads, t)))
    && (forall i :: i in s.instances ==> InstanceOk(s.g, s.threads, i, s.instances[i]))
  }

  // ---- Each kind of step keeps it ----

  lemma RuntimeMoveSelf(g: Shared, t: Tid, pc: Pc, a: Act)
    requires RuntimeMove(g, t, pc, a).Some?
    requires SharedOk(g) && PcRuntime(g, t, pc)
    ensures var (g', pc') := RuntimeMove(g, t, pc, a).value;
            SharedOk(g') && PcRuntime(g', t, pc')
  {
  }

  lemma RuntimeMoveOther(g: Shared, t: Tid, pc: Pc, a: Act, u: Tid, q: Pc)
    requires RuntimeMove(g, t, pc, a).Some?
    requires SharedOk(g) && PcRuntime(g, t, pc) && PcRuntime(g, u, q) && u != t
    ensures PcRuntime(RuntimeMove(g, t, pc, a).value.0, u, q)
  {
  }

  lemma MakeMoveSelf(g: Shared, t: Tid, m: MakeStage, o: Owner, i: Iid, x: Instance, a: Act)
    requires MakeMove(g, t, m, o, i, x, a).Some?
    requires SharedOk(g) && PcRuntime(g, t, Make(m, o, i))
    ensures var (g', pc', x') := MakeMove(g, t, m, o, i, x, a).value;
            SharedOk(g') && PcRuntime(g', t, pc')
  {
  }

  lemma InstanceMoveSelf(g: Shared, t: Tid, pc: Pc, x: Instance, a: Act)
    requires InstanceMove(g, t, pc, x, a).Some?
    requires SharedOk(g) && PcRuntime(g, t, pc)
    ensures var (g', pc', x') := InstanceMove(g, t, pc, x, a).value;
            SharedOk(g') && PcRuntime(g', t, pc')
  {
    if pc.Make? { MakeMoveSelf(g, t, pc.make, pc.owner, pc.i, x, a); }
  }

  lemma InstanceMoveOther(g: Shared, t: Tid, pc: Pc, x: Instance, a: Act, u: Tid, q: Pc)
    requires InstanceMove(g, t, pc, x, a).Some?
    requires SharedOk(g) && PcRuntime(g, t, pc) && PcRuntime(g, u, q) && u != t
    ensures PcRuntime(InstanceMove(g, t, pc, x, a).value.0, u, q)
  {
  }

  lemma MakeMoveOwnSelf(g: Shared, t: Tid, m: MakeStage, o: Owner, i: Iid, x: Instance, a: Act)
    requires MakeMove(g, t, m, o, i, x, a).Some? && MakeOk(t, m, o, x, g.wazeroClosed)
    ensures var (g', pc', x') := MakeMove(g, t, m, o, i, x, a).value;
            PcInstance(t, pc', x', g'.wazeroClosed)
  {
  }

  lemma InstanceMoveOwnSelf(g: Shared, t: Tid, pc: Pc, x: Instance, a: Act)
    requires InstanceMove(g, t, pc, x, a).Some?
    requires PcInstance(t, pc, x, g.wazeroClosed)
    ensures var (g', pc', x') := InstanceMove(g, t, pc, x, a).value;
            PcInstance(t, pc', x', g'.wazeroClosed)
  {
    if pc.Make? { MakeMoveOwnSelf(g, t, pc.make, pc.owner, pc.i, x, a); }
  }

  lemma InstanceMoveOwnOther(g: Shared, t: Tid, pc: Pc, x: Instance, a: Act, u: Tid, q: Pc)
    requires InstanceMove(g, t, pc, x, a).Some?
    requires PcInstance(t, pc, x, g.wazeroClosed)
    requires PcInstance(u, q, x, g.wazeroClosed) && u != t
    ensures var (g', pc', x') := InstanceMove(g, t, pc, x, a).value;
            PcInstance(u, q, x', g'.wazeroClosed)
  {
  }

  /** Where the holder of instance i stands before a step on it. */
  predicate AtInstance(g: Shared, t: Tid, threads: map<Tid, Pc>, pc: Pc, x: Instance) {
    && SharedOk(g) && HasInstance(pc) && pc == PcOf(threads, t)
    && InstanceOk(g, threads, pc.i, x)
    && PcInstance(t, pc, x, g.wazeroClosed) && PcRuntime(g, t, pc)
    && (g.wazeroClosed ==> !Sweeping(g, threads, pc.i))
  }

  lemma MakeMoveModule(g: Shared, t: Tid, threads: map<Tid, Pc>, m: MakeStage, o: Owner, i: Iid, x: Instance, a: Act)
    requires PcOf(threads, t) == Make(m, o, i) && MakeOk(t, m, o, x, g.wazeroClosed) && ModuleOk(g, threads, i, x)
    requires MakeMove(g, t, m, o, i, x, a).Some?
    requires if g.wazeroClosed then m == Publishing ==> x.dead else g.torn == {}
    ensures var (g', pc', x') := MakeMove(g, t, m, o, i, x, a).value;
            ModuleOk(g', threads[t := pc'], i, x')
  {
  }

  /** A module that is to be published after wazero.Close is one whose state was swept. */
  lemma LateMakerIsOrphan(g: Shared, t: Tid, threads: map<Tid, Pc>, pc: Pc, x: Instance)
    requires AtInstance(g, t, threads, pc, x) && pc.Make?
    ensures g.wazeroClosed && pc.make == Publishing ==> x.dead
  {
  }

  lemma OtherMoveModule(g: Shared, t: Tid, threads: map<Tid, Pc>, pc: Pc, x: Instance, a: Act)
    requires AtInstance(g, t, threads, pc, x) && !pc.Make? && InstanceMove(g, t, pc, x, a).Some?
    ensures var (g', pc', x') := InstanceMove(g, t, pc, x, a).value;
            ModuleOk(g', threads[t := pc'], pc.i, x')
  {
  }

  lemma MakeMoveDuty(g: Shared, t: Tid, threads: map<Tid, Pc>, pc: Pc, x: Instance, a: Act)
    requires AtInstance(g, t, threads, pc, x) && pc.Make? && InstanceMove(g, t, pc, x, a).Some?
    ensures var (g', pc', x') := InstanceMove(g, t, pc, x, a).value;
            DutyOk(g', threads[t := pc'], pc.i, x')
  {
  }

  lemma CloseMoveDuty(g: Shared, t: Tid, threads: map<Tid, Pc>, c: CloseStage, r: After, i: Iid, x: Instance)
    requires AtInstance(g, t, threads, Close(c, r, i), x) && CloseMove(g, t, c, r, i, x).Some?
    ensures var (g', pc', x') := CloseMove(g, t, c, r, i, x).value;
            DutyOk(g', threads[t := pc'], i, x')
  {
  }

  lemma OtherMoveDuty(g: Shared, t: Tid, threads: map<Tid, Pc>, pc: Pc, x: Instance, a: Act)
    requires AtInstance(g, t, threads, pc, x) && !pc.Make? && InstanceMove(g, t, pc, x, a).Some?
    ensures var (g', pc', x') := InstanceMove(g, t, pc, x, a).value;
            DutyOk(g', threads[t := pc'], pc.i, x')
  {
    if pc.Close? { CloseMoveDuty(g, t, threads, pc.close, pc.after, pc.i, x); }
  }

  /** A move from p to q that means nothing to instance j. */
  predicate SameFor(p: Pc, q: Pc, j: Iid) {
    && HoldsGuard(p, j) == HoldsGuard(q, j)
    && ClosePhase(p, j) == ClosePhase(q, j)
    && CloseWindow(p, j) == CloseWindow(q, j)
    && MakePhase(p, j) == MakePhase(q, j)
    && OwesClose(p, j) == OwesClose(q, j)
    && SweepOf(p, j) == SweepOf(q, j)
  }

  lemma BystanderOk(g: Shared, g': Shared, threads: map<Tid, Pc>, t: Tid, q: Pc, j: Iid, x: Instance)
    requires InstanceOk(g, threads, j, x)
    requires SameFor(PcOf(threads, t), q, j)
    requires g'.swept == g.swept && g'.captured == g.captured && g'.torn == g.torn
    requires g.sweeper.Some? ==> g'.sweeper == g.sweeper
    ensures InstanceOk(g', threads[t := q], j, x)
  {
  }

  /** A step changes little of what other instances depend on. */
  predicate FrameFor(g: Shared, g': Shared, p: Pc, q: Pc, j: Iid) {
    && g'.swept == g.swept && g'.captured == g.captured && g'.torn == g.torn
    && g'.sweeper == g.sweeper && g'.wazeroClosed == g.wazeroClosed
    && SameFor(p, q, j)
  }

  lemma RuntimeMoveFrame(g: Shared, t: Tid, pc: Pc, a: Act, j: Iid)
    requires RuntimeMove(g, t, pc, a).Some? && !HasInstance(pc)
    ensures var (g', q) := RuntimeMove(g, t, pc, a).value;
            FrameFor(g, g', pc, q, j) && (HasInstance(q) ==> q.SweepOne? && !q.holding && pc.SweepNext? && q.i in pc.todo)
  {
  }

  lemma MakeMoveFrame(g: Shared, t: Tid, m: MakeStage, o: Owner, i: Iid, x: Instance, a: Act, j: Iid)
    requires MakeMove(g, t, m, o, i, x, a).Some? && j != i
    ensures var (g', q, x') := MakeMove(g, t, m, o, i, x, a).value;
            FrameFor(g, g', Make(m, o, i), q, j) && (HasInstance(q) ==> q.i == i)
  {
  }

  lemma CloseMoveFrame(g: Shared, t: Tid, c: CloseStage, r: After, i: Iid, x: Instance, j: Iid)
    requires CloseMove(g, t, c, r, i, x).Some? && j != i
    ensures var (g', q, x') := CloseMove(g, t, c, r, i, x).value;
            FrameFor(g, g', Close(c, r, i), q, j) && (HasInstance(q) ==> q.i == i)
  {
  }

  lemma InstanceMoveFrame(g: Shared, t: Tid, pc: Pc, x: Instance, a: Act, j: Iid)
    requires HasInstance(pc) && InstanceMove(g, t, pc, x, a).Some? && j != pc.i
    ensures var (g', q, x') := InstanceMove(g, t, pc, x, a).value;
            FrameFor(g, g', pc, q, j) && (HasInstance(q) ==> q.i == pc.i)
  {
    if pc.Make? { MakeMoveFrame(g, t, pc.make, pc.owner, pc.i, x, a, j); }
    if pc.Close? { CloseMoveFrame(g, t, pc.close, pc.after, pc.i, x, j); }
  }

  lemma RuntimeStepKeeps(s: State, t: Tid, a: Act, pc: Pc, g: Shared, q: Pc)
    requires Inv(s) && PcOf(s.threads, t) == pc && !HasInstance(pc)
    requires RuntimeMove(s.g, t, pc, a) == Some((g, q))
    ensures Inv(State(g, s.instances, s.threads[t := q]))
  {
    var s' := State(g, s.instances, s.threads[t := q]);
    assert ThreadOk(s, t, pc);
    RuntimeMoveSelf(s.g, t, pc, a);
    RuntimeMoveFrame(s.g, t, pc, a, 0);
    forall u ensures ThreadOk(s', u, PcOf(s'.threads, u)) {
      assert ThreadOk(s, u, PcOf(s.threads, u));
      if u != t { RuntimeMoveOther(s.g, t, pc, a, u, PcOf(s.threads, u)); }
    }
    forall j | j in s.instances ensures InstanceOk(g, s'.threads, j, s.instances[j]) {
      RuntimeMoveFrame(s.g, t, pc, a, j);
      BystanderOk(s.g, g, s.threads, t, q, j, s.instances[j]);
    }
  }

  /** What the step of t from (g, pc, x) to (g', q, y) gives every thread and every other instance. */
  ghost predicate Respects(g: Shared, t: Tid, pc: Pc, x: Instance, g': Shared, q: Pc, y: Instance)
    requires HasInstance(pc)
  {
    && SharedOk(g') && PcRuntime(g', t, q) && PcInstance(t, q, y, g'.wazeroClosed)
    && (HasInstance(q) ==> q.i == pc.i)
    && (forall u, r :: u != t && PcRuntime(g, u, r) ==> PcRuntime(g', u, r))
    && (forall u, r :: u != t && PcInstance(u, r, x, g.wazeroClosed) ==> PcInstance(u, r, y, g'.wazeroClosed))
    && (forall j :: j != pc.i ==> FrameFor(g, g', pc, q, j))
  }

  lemma InstanceMoveRespects(g: Shared, t: Tid, pc: Pc, x: Instance, a: Act)
    requires HasInstance(pc) && InstanceMove(g, t, pc, x, a).Some?
    requires SharedOk(g) && PcRuntime(g, t, pc) && PcInstance(t, pc, x, g.wazeroClosed)
    ensures var (g', q, y) := InstanceMove(g, t, pc, x, a).value;
            Respects(g, t, pc, x, g', q, y)
  {
    var (g', q, y) := InstanceMove(g, t, pc, x, a).value;
    InstanceMoveSelf(g, t, pc, x, a);
    InstanceMoveOwnSelf(g, t, pc, x, a);
    forall u, r | u != t && PcRuntime(g, u, r) ensures PcRuntime(g', u, r) {
      InstanceMoveOther(g, t, pc, x, a, u, r);
    }
    forall u, r | u != t && PcInstance(u, r, x, g.wazeroClosed) ensures PcInstance(u, r, y, g'.wazeroClosed) {
      InstanceMoveOwnOther(g, t, pc, x, a, u, r);
    }
    forall j | j != pc.i ensures FrameFor(g, g', pc, q, j) {
      InstanceMoveFrame(g, t, pc, x, a, j);
    }
    InstanceMoveFrame(g, t, pc, x, a, pc.i + 1);
  }

  lemma InstanceStepOwn(s: State, t: Tid, a: Act, pc: Pc, g: Shared, q: Pc, y: Instance)
    requires Inv(s) && PcOf(s.threads, t) == pc && HasInstance(pc) && pc.i in s.instances
    requires InstanceMove(s.g, t, pc, s.instances[pc.i], a) == Some((g, q, y))
    ensures InstanceOk(g, s.threads[t := q], pc.i, y)
  {
    var x := s.instances[pc.i];
    assert ThreadOk(s, t, pc);
    if s.g.sweeper.Some? { assert ThreadOk(s, s.g.sweeper.value, PcOf(s.threads, s.g.sweeper.value)); }
    assert AtInstance(s.g, t, s.threads, pc, x);
    if pc.Make? {
      LateMakerIsOrphan(s.g, t, s.threads, pc, x);
      MakeMoveModule(s.g, t, s.threads, pc.make, pc.owner, pc.i, x, a);
      MakeMoveDuty(s.g, t, s.threads, pc, x, a);
    } else {
      OtherMoveModule(s.g, t, s.threads, pc, x, a);
      OtherMoveDuty(s.g, t, s.threads, pc, x, a);
    }
  }

  lemma InstanceStepKeeps(s: State, t: Tid, pc: Pc, g: Shared, q: Pc, y: Instance)
    requires Inv(s) && PcOf(s.threads, t) == pc && HasInstance(pc) && pc.i in s.instances
    requires Respects(s.g, t, pc, s.instances[pc.i], g, q, y)
    requires InstanceOk(g, s.threads[t := q], pc.i, y)
    ensures Inv(State(g, s.instances[pc.i := y], s.threads[t := q]))
  {
    var s' := State(g, s.instances[pc.i := y], s.threads[t := q]);
    assert ThreadOk(s, t, pc);
    assert FrameFor(s.g, g, pc, q, pc.i + 1);
    forall u ensures ThreadOk(s', u, PcOf(s'.threads, u)) {
      assert ThreadOk(s, u, PcOf(s.threads, u));
    }
    forall j | j in s'.instances ensures InstanceOk(g, s'.threads, j, s'.instances[j]) {
      if j != pc.i {
        assert FrameFor(s.g, g, pc, q, j);
        BystanderOk(s.g, g, s.threads, t, q, j, s.instances[j]);
      }
    }
  }

  /** An idle thread takes up q, which relies on no more than a handed instance gives. */
  lemma TakeUpKeeps(s: State, t: Tid, g: Shared, q: Pc)
    requires Inv(s) && PcOf(s.threads, t).Idle?
    requires q == Entry(EnterOnce) || q == Shutdown(JoinOnce) || q.Guest? || q.Close?
    requires q.Guest? ==> !q.inside && q.after == ToUser && q.i in s.instances && s.instances[q.i].handed
    requires q.Close? ==> q.close == CompareSwap && q.after == ToUser && q.i in s.instances && s.instances[q.i].handed
    requires if q == Shutdown(JoinOnce) then s.g.sweeper.None? && g == s.g.(sweeper := Some(t)) else g == s.g
    ensures Inv(State(g, s.instances, s.threads[t := q]))
  {
    var s' := State(g, s.instances, s.threads[t := q]);
    assert ThreadOk(s, t, Idle);
    forall u ensures ThreadOk(s', u, PcOf(s'.threads, u)) {
      assert ThreadOk(s, u, PcOf(s.threads, u));
      if u == t && HasInstance(q) { assert ModuleOk(s.g, s.threads, q.i, s.instances[q.i]); }
    }
    forall j | j in s.instances ensures InstanceOk(g, s'.threads, j, s.instances[j]) {
      BystanderOk(s.g, g, s.threads, t, q, j, s.instances[j]);
    }
  }

  lemma IdleStepKeeps(s: State, t: Tid, a: Act)
    requires Inv(s) && PcOf(s.threads, t).Idle? && StepIdle(s, t, a).Some?
    ensures Inv(StepIdle(s, t, a).value)
  {
    match a
    case CallNewInstance => if s.g.sweeper.None? { TakeUpKeeps(s, t, s.g, Entry(EnterOnce)); }
    case CallRuntimeClose => if s.g.sweeper.None? { TakeUpKeeps(s, t, s.g.(sweeper := Some(t)), Shutdown(JoinOnce)); }
    case CallGuest(i) => TakeUpKeeps(s, t, s.g, Guest(false, ToUser, i));
    case CallClose(i) => TakeUpKeeps(s, t, s.g, Close(CompareSwap, ToUser, i));
  }

  lemma RegisterStepKeeps(s: State, t: Tid, a: Act, o: Owner)
    requires Inv(s) && PcOf(s.threads, t) == Entry(Register(o)) && StepRegister(s, t, a, o).Some?
    ensures Inv(StepRegister(s, t, a, o).value)
  {
    var s' := StepRegister(s, t, a, o).value;
    assert ThreadOk(s, t, PcOf(s.threads, t));
    forall u ensures ThreadOk(s', u, PcOf(s'.threads, u)) {
      assert ThreadOk(s, u, PcOf(s.threads, u));
    }
    forall j | j in s'.instances ensures InstanceOk(s'.g, s'.threads, j, s'.instances[j]) {
      if j in s.instances { BystanderOk(s.g, s'.g, s.threads, t, PcOf(s'.threads, t), j, s.instances[j]); }
    }
  }

  lemma CapturedOk(g: Shared, found: set<Iid>, threads: map<Tid, Pc>, t: Tid, i: Iid, x: Instance)
    requires InstanceOk(g, threads, i, x) && PcOf(threads, t) == Shutdown(Sweep) && g.sweeper == Some(t)
    requires g.captured == {} && (i in found <==> x.registered)
    ensures InstanceOk(g.(swept := true, captured := found), threads[t := SweepNext(found)], i, x.(registered := false))
  {
  }

  lemma SweepStatesKeeps(s: State, t: Tid)
    requires Inv(s) && PcOf(s.threads, t) == Shutdown(Sweep)
    ensures Inv(SweepStates(s, t))
  {
    var s' := SweepStates(s, t);
    assert ThreadOk(s, t, PcOf(s.threads, t));
    forall u ensures ThreadOk(s', u, PcOf(s'.threads, u)) {
      assert ThreadOk(s, u, PcOf(s.threads, u));
    }
    forall j | j in s'.instances ensures InstanceOk(s'.g, s'.threads, j, s'.instances[j]) {
      CapturedOk(s.g, s'.g.captured, s.threads, t, j, s.instances[j]);
    }
  }

  lemma SweepModulesKeeps(s: State, t: Tid)
    requires Inv(s) && PcOf(s.threads, t) == Shutdown(CloseWazero)
    ensures Inv(SweepModules(s, t))
  {
    var s' := SweepModules(s, t);
    assert ThreadOk(s, t, PcOf(s.threads, t));
    forall u ensures ThreadOk(s', u, PcOf(s'.threads, u)) {
      assert ThreadOk(s, u, PcOf(s.threads, u));
    }
    forall j | j in s'.instances ensures InstanceOk(s'.g, s'.threads, j, s'.instances[j]) {
      assert InstanceOk(s.g, s.threads, j, s.instances[j]);
    }
  }

  /** The invariant holds after any step of any thread. */
  lemma StepKeeps(s: State, t: Tid, a: Act)
    requires Inv(s) && Step(s, t, a).Some?
    ensures Inv(Step(s, t, a).value)
  {
    var pc := PcOf(s.threads, t);
    if pc.Idle? {
      IdleStepKeeps(s, t, a);
    } else if pc.Entry? && pc.entry.Register? {
      RegisterStepKeeps(s, t, a, pc.entry.o);
    } else if pc == Shutdown(Sweep) {
      SweepStatesKeeps(s, t);
    } else if pc == Shutdown(CloseWazero) {
      SweepModulesKeeps(s, t);
    } else if !HasInstance(pc) {
      var (g, q) := RuntimeMove(s.g, t, pc, a).value;
      RuntimeStepKeeps(s, t, a, pc, g, q);
    } else {
      var (g, q, y) := InstanceMove(s.g, t, pc, s.instances[pc.i], a).value;
      assert ThreadOk(s, t, pc);
      InstanceMoveRespects(s.g, t, pc, s.instances[pc.i], a);
      InstanceStepOwn(s, t, a, pc, g, q, y);
      InstanceStepKeeps(s, t, pc, g, q, y);
    }
  }

  lemma {:induction false} RunKeeps(s: State, schedule: seq<(Tid, Act)>)
    requires Inv(s) && Run(s, schedule).Some?
    ensures Inv(Run(s, schedule).value)
    decreases |schedule|
  {
    if schedule != [] {
      StepKeeps(s, schedule[0].0, schedule[0].1);
      RunKeeps(Step(s, schedule[0].0, schedule[0].1).value, schedule[1..]);
    }
  }

  // ---- What every run guarantees ----

  /**
   Whatever the schedule, a thread inside a guest block holds guestMu of an instance
   that closeModule has not reached, and its module is open unless wazero.Close freed it.
   */
  lemma GuestBlockIsSafe(schedule: seq<(Tid, Act)>, s: State, t: Tid, r: After, i: Iid)
    requires Run(Init, schedule) == Some(s)
    requires PcOf(s.threads, t) == Guest(true, r, i)
    ensures i in s.instances && !s.instances[i].dead && s.instances[i].published
    ensures s.instances[i].wasm == Live <==> i !in s.g.torn
    ensures forall u :: HoldsGuard(PcOf(s.threads, u), i) ==> u == t
  {
    RunKeeps(Init, schedule);
    assert ThreadOk(s, t, PcOf(s.threads, t));
    forall u | HoldsGuard(PcOf(s.threads, u), i) ensures u == t {
      assert ThreadOk(s, u, PcOf(s.threads, u));
    }
  }

  /**
   A host import looks its instance up in the registry and panics if it is not there
   (runtime.go:247-255). Inside a guest block whose module is open the lookup succeeds exactly
   if Runtime.Close did not capture the instance and no Instance.Close has unregistered it.
   */
  lemma LookupSucceedsExactly(schedule: seq<(Tid, Act)>, s: State, t: Tid, r: After, i: Iid)
    requires Run(Init, schedule) == Some(s)
    requires PcOf(s.threads, t) == Guest(true, r, i) && i !in s.g.torn
    ensures i in s.instances
    ensures s.instances[i].registered <==> i !in s.g.captured && forall u :: !CloseWindow(PcOf(s.threads, u), i)
  {
    RunKeeps(Init, schedule);
    assert ThreadOk(s, t, PcOf(s.threads, t));
    var x := s.instances[i];
    assert InstanceOk(s.g, s.threads, i, x);
    if x.registered {
      forall u ensures !CloseWindow(PcOf(s.threads, u), i) { assert ThreadOk(s, u, PcOf(s.threads, u)); }
    } else if Closing(s.threads, i, x) {
      assert CloseWindow(PcOf(s.threads, x.closer.value), i);
    } else {
      assert Sweeping(s.g, s.threads, i);
      assert ThreadOk(s, s.g.sweeper.value, PcOf(s.threads, s.g.sweeper.value));
    }
  }

  /** The start functions run before the module is published: there only Runtime.Close can take the state away. */
  lemma StartLookupSucceedsExactly(schedule: seq<(Tid, Act)>, s: State, t: Tid, o: Owner, i: Iid)
    requires Run(Init, schedule) == Some(s) && PcOf(s.threads, t) == Make(Instantiate, o, i)
    ensures i in s.instances
    ensures s.instances[i].registered <==> i !in s.g.captured
  {
    RunKeeps(Init, schedule);
    assert ThreadOk(s, t, PcOf(s.threads, t));
    var x := s.instances[i];
    assert InstanceOk(s.g, s.threads, i, x) && MakePhase(PcOf(s.threads, x.maker), i);
    if Sweeping(s.g, s.threads, i) {
      assert ThreadOk(s, s.g.sweeper.value, PcOf(s.threads, s.g.sweeper.value));
    }
  }

  /** modDead, the emptied registry and a closed module are for ever. */
  lemma StepIsMonotone(s: State, t: Tid, a: Act, i: Iid)
    requires Inv(s) && Step(s, t, a).Some?
    ensures s.g.swept ==> Step(s, t, a).value.g.swept
    ensures i in s.instances ==> i in Step(s, t, a).value.instances
    ensures i in s.instances && s.instances[i].dead ==> Step(s, t, a).value.instances[i].dead
  {
    var pc, s' := PcOf(s.threads, t), Step(s, t, a).value;
    if HasInstance(pc) {
      DeadStays(s.g, t, pc, s.instances[pc.i], a);
    } else if pc.Idle? {
      assert s'.instances == s.instances && s'.g.swept == s.g.swept;
    } else if pc.Entry? && pc.entry.Register? {
      assert s'.g == s.g && forall j :: j in s.instances ==> s'.instances[j] == s.instances[j];
    }
  }

  lemma DeadStays(g: Shared, t: Tid, pc: Pc, x: Instance, a: Act)
    requires InstanceMove(g, t, pc, x, a).Some?
    ensures InstanceMove(g, t, pc, x, a).value.0.swept == g.swept
    ensures x.dead ==> InstanceMove(g, t, pc, x, a).value.2.dead
  {
  }

  lemma {:induction false} ClosedForEver(s: State, schedule: seq<(Tid, Act)>, i: Iid)
    requires Inv(s) && Run(s, schedule).Some?
    ensures s.g.swept ==> Run(s, schedule).value.g.swept
    ensures i in s.instances && s.instances[i].dead ==>
              && i in Run(s, schedule).value.instances
              && forall t :: !(PcOf(Run(s, schedule).value.threads, t).Guest?
                               && PcOf(Run(s, schedule).value.threads, t).inside
                               && PcOf(Run(s, schedule).value.threads, t).i == i)
    decreases |schedule|
  {
    if schedule == [] {
      forall t ensures ThreadOk(s, t, PcOf(s.threads, t)) { }
    } else {
      var (t, a) := schedule[0];
      StepKeeps(s, t, a);
      StepIsMonotone(s, t, a, i);
      ClosedForEver(Step(s, t, a).value, schedule[1..], i);
    }
  }

  /** Once Runtime.Close has swept the registry it stays empty, whatever happens next. */
  lemma RegistryStaysEmpty(before: seq<(Tid, Act)>, s: State, later: seq<(Tid, Act)>, s': State, i: Iid)
    requires Run(Init, before) == Some(s) && s.g.swept
    requires Run(s, later) == Some(s') && i in s'.instances
    ensures !s'.instances[i].registered
  {
    RunKeeps(Init, before);
    RunKeeps(s, later);
    ClosedForEver(s, later, i);
    assert InstanceOk(s'.g, s'.threads, i, s'.instances[i]);
  }

  /**
   When Runtime.Close has returned and no call is in flight, every module ever
   instantiated has been closed, and so has any image file ever created.
   */
  lemma NothingLeaks(schedule: seq<(Tid, Act)>, s: State, i: Iid)
    requires Run(Init, schedule) == Some(s)
    requires s.g.closeReturned
    requires forall t :: PcOf(s.threads, t) == Idle
    ensures s.g.file != Open
    ensures i in s.instances ==> s.instances[i].wasm != Live && !s.instances[i].registered
  {
    RunKeeps(Init, schedule);
    if i in s.instances {
      assert InstanceOk(s.g, s.threads, i, s.instances[i]);
    }
  }

  /** Some Instance.Close took i out of the registry before the sweep and has not closed its module. */
  ghost predicate MissedBySweep(s: State, i: Iid) {
    i !in s.g.captured && exists t :: CloseWindow(PcOf(s.threads, t), i)
  }

  /**
   wazero.Close must find every published module dead. It finds i in use exactly
   when an Instance.Close is between removeState and closeModule for i, and took
   it out of the registry before Runtime.Close could see it.
   */
  lemma FinalSweepIsSafeExactly(schedule: seq<(Tid, Act)>, s: State, t: Tid, i: Iid)
    requires Run(Init, schedule) == Some(s)
    requires PcOf(s.threads, t) == Shutdown(CloseWazero)
    requires i in s.instances
    ensures InUse(s.instances[i]) <==> MissedBySweep(s, i)
  {
    RunKeeps(Init, schedule);
    var x := s.instances[i];
    assert ThreadOk(s, t, PcOf(s.threads, t));
    assert InstanceOk(s.g, s.threads, i, x);
    if InUse(x) {
      assert CloseWindow(PcOf(s.threads, x.closer.value), i);
    }
    if MissedBySweep(s, i) {
      var u :| CloseWindow(PcOf(s.threads, u), i);
      assert ThreadOk(s, u, PcOf(s.threads, u));
    }
  }

  lemma {:induction false} RunAppend(s: State, first: seq<(Tid, Act)>, second: seq<(Tid, Act)>)
    requires Run(s, first).Some?
    ensures Run(s, first + second) == Run(Run(s, first).value, second)
    decreases |first|
  {
    if first == [] {
      assert first + second == second;
    } else {
      assert (first + second)[1..] == first[1..] + second;
      RunAppend(Step(s, first[0].0, first[0].1).value, first[1..], second);
    }
  }

  lemma RunOne(s: State, t: Tid, a: Act)
    ensures Run(s, [(t, a)]) == Step(s, t, a)
  {
  }

  /** The schedule extended by one step, when that step is enabled. */
  lemma Then(schedule: seq<(Tid, Act)>, s: State, t: Tid, a: Act) returns (longer: seq<(Tid, Act)>, s': State)
    requires Run(Init, schedule) == Some(s) && Step(s, t, a).Some?
    ensures longer == schedule + [(t, a)] && s' == Step(s, t, a).value
    ensures Run(Init, longer) == Some(s')
  {
    longer, s' := schedule + [(t, a)], Step(s, t, a).value;
    RunAppend(Init, schedule, [(t, a)]);
    RunOne(s, t, a);
  }

  /** Thread 0 enters NewInstance. */
  lemma OnceEntered() returns (w: seq<(Tid, Act)>, s: State)
    ensures Run(Init, w) == Some(s)
    ensures s.g == Init.g.(once := Running(0)) && s.threads == map[0 := Entry(InitZygote)] && s.instances == map[]
  {
    w, s := Then([], Init, 0, CallNewInstance);
    w, s := Then(w, s, 0, Proceed);
  }

  /** The zygote is not available. */
  lemma InitSkipped() returns (w: seq<(Tid, Act)>, s: State)
    ensures Run(Init, w) == Some(s)
    ensures s.g == Init.g.(once := Running(0)) && s.threads == map[0 := Entry(FinishOnce)] && s.instances == map[]
  {
    w, s := OnceEntered();
    w, s := Then(w, s, 0, Fail);
  }

  lemma Registered() returns (w: seq<(Tid, Act)>, s: State)
    ensures Run(Init, w) == Some(s) && s.g == Init.g.(once := Done)
    ensures s.threads == map[0 := Make(Instantiate, Caller, 7)]
    ensures s.instances == map[7 := Instance(true, false, false, Absent, None, 0, None, false)]
  {
    w, s := InitSkipped();
    w, s := Then(w, s, 0, Proceed);
    assert PcOf(s.threads, 0) == Entry(AfterOnce);
    w, s := Then(w, s, 0, Proceed);
    w, s := Then(w, s, 0, Begin(7));
  }

  /** It instantiates the module of instance 7 and takes its lock to publish it. */
  lemma ReadyToPublish() returns (w: seq<(Tid, Act)>, s: State)
    ensures Run(Init, w) == Some(s) && s.g == Init.g.(once := Done)
    ensures s.threads == map[0 := Make(Publishing, Caller, 7)]
    ensures s.instances == map[7 := Instance(true, false, false, Live, Some(0), 0, None, false)]
  {
    w, s := Registered();
    w, s := Then(w, s, 0, Proceed);
    assert PcOf(s.threads, 0) == Make(AwaitPublish, Caller, 7);
    w, s := Then(w, s, 0, Proceed);
  }

  /** It returns the instance. */
  lemma InstanceReturned() returns (w: seq<(Tid, Act)>, s: State)
    ensures Run(Init, w) == Some(s) && s.g == Init.g.(once := Done)
    ensures s.threads == map[0 := Idle]
    ensures s.instances == map[7 := Instance(true, false, true, Live, None, 0, None, true)]
  {
    w, s := ReadyToPublish();
    w, s := Then(w, s, 0, Proceed);
    assert PcOf(s.threads, 0) == Make(Built, Caller, 7);
    w, s := Then(w, s, 0, Proceed);
  }

  /** Thread 1 enters a guest block. */
  lemma GuestEntered() returns (w: seq<(Tid, Act)>, s: State)
    ensures Run(Init, w) == Some(s) && s.g == Init.g.(once := Done)
    ensures s.threads == map[0 := Idle, 1 := Guest(true, ToUser, 7)]
    ensures s.instances == map[7 := Instance(true, false, true, Live, Some(1), 0, None, true)]
  {
    w, s := InstanceReturned();
    w, s := Then(w, s, 1, CallGuest(7));
    w, s := Then(w, s, 1, Proceed);
  }

  /** Thread 2 begins to close the instance. */
  lemma CloseBegun() returns (w: seq<(Tid, Act)>, s: State)
    ensures Run(Init, w) == Some(s) && s.g == Init.g.(once := Done)
    ensures s.threads == map[0 := Idle, 1 := Guest(true, ToUser, 7), 2 := Close(RemoveState, ToUser, 7)]
    ensures s.instances == map[7 := Instance(true, false, true, Live, Some(1), 0, Some(2), true)]
  {
    w, s := GuestEntered();
    w, s := Then(w, s, 2, CallClose(7));
    w, s := Then(w, s, 2, Proceed);
  }

  /** It unregisters the instance and must wait for the guest block. */
  lemma CloseWaits() returns (w: seq<(Tid, Act)>, s: State)
    ensures Run(Init, w) == Some(s) && s.g == Init.g.(once := Done)
    ensures s.threads == map[0 := Idle, 1 := Guest(true, ToUser, 7), 2 := Close(AwaitGuard, ToUser, 7)]
    ensures s.instances == map[7 := Instance(false, false, true, Live, Some(1), 0, Some(2), true)]
  {
    w, s := CloseBegun();
    w, s := Then(w, s, 2, Proceed);
  }

  /** So a host import can find no state: thread 1 is in a guest block of an instance that is not registered. */
  lemma LookupCanFail() returns (w: seq<(Tid, Act)>, s: State)
    ensures Run(Init, w) == Some(s) && PcOf(s.threads, 1) == Guest(true, ToUser, 7)
    ensures 7 in s.instances && !s.instances[7].registered && !s.g.swept
  {
    w, s := CloseWaits();
  }

  /** While they stand there, thread 3 closes the runtime and finds no state to close. */
  lemma SweptPast() returns (w: seq<(Tid, Act)>, s: State)
    ensures Run(Init, w) == Some(s)
    ensures PcOf(s.threads, 1) == Guest(true, ToUser, 7) && PcOf(s.threads, 2) == Close(AwaitGuard, ToUser, 7)
    ensures PcOf(s.threads, 3) == SweepNext({})
    ensures s.instances.Keys == {7} && InUse(s.instances[7])
  {
    w, s := CloseWaits();
    w, s := Then(w, s, 3, CallRuntimeClose);
    w, s := Then(w, s, 3, Proceed);
    assert PcOf(s.threads, 3) == Shutdown(Sweep);
    w, s := Then(w, s, 3, Proceed);
  }

  /** The condition is needed: wazero.Close frees the module that thread 1 is running. */
  lemma FinalSweepCanFreeModuleInUse() returns (w: seq<(Tid, Act)>, s: State)
    ensures Run(Init, w) == Some(s)
    ensures PcOf(s.threads, 1) == Guest(true, ToUser, 7) && PcOf(s.threads, 2) == Close(AwaitGuard, ToUser, 7)
    ensures 7 in s.instances && s.instances[7].wasm == Closed && !s.instances[7].dead
  {
    w, s := SweptPast();
    w, s := Then(w, s, 3, Proceed);
    w, s := Then(w, s, 3, Proceed);
  }
}
