/** Executing flight Tasks on one aircraft: adoption, takeover, hold and recovery rules (task-engine.ts). */
module TaskEngine {
  import opened Wrappers

  datatype Command = Takeoff | Goto | ReturnToLaunch | Land | NotFlight

  datatype Status = Pending | Acknowledged | InProgress | Completed | Failed | Cancelled

  datatype Task = Task(id: string, command: Command, status: Status, cancelRequested: bool,
                       latitude: Option<real>, longitude: Option<real>, altitude: Option<real>)
  {
    predicate Actionable() { status.Pending? || status.Acknowledged? }
    predicate Terminal() { status.Completed? || status.Failed? || status.Cancelled? }
    predicate Flight() { !command.NotFlight? }
  }

  datatype Observation = Observation(latitude: real, longitude: real, altitudeMsl: real, relativeAltitude: real,
                                     groundSpeed: real, observedAt: int)

  datatype Snapshot = Snapshot(identity: Option<(int, int)>, armed: bool, mode: string, modeKnown: bool, guided: bool,
                               observation: Option<Observation>, lastHeartbeat: Option<int>, battery: Option<real>,
                               launchElevation: Option<real>, launchVerified: bool, launchPosition: Option<(real, real)>)

  datatype Control = Control(snapshot: Snapshot, now: int)

  datatype Config = Config(vehicle: (int, int), minBattery: real, taskTimeoutMs: int, progressTimeoutMs: int,
                           settleMs: int, altitudeTolerance: real, arrivalRadius: real)

  const HEARTBEAT_FRESHNESS_MS := 3_000
  const POSITION_FRESHNESS_MS := 10_000

  function Abs(x: real): real { if x < 0.0 then -x else x }

  /** `hasFreshControlTelemetry` */
  predicate Fresh(c: Control) {
    && c.snapshot.lastHeartbeat.Some? && 0 <= c.now - c.snapshot.lastHeartbeat.value <= HEARTBEAT_FRESHNESS_MS
    && c.snapshot.observation.Some? && 0 <= c.now - c.snapshot.observation.value.observedAt <= POSITION_FRESHNESS_MS
  }

  /** `preconditions` finds no problem. */
  predicate MayFly(config: Config, t: Task, c: Control) {
    var s := c.snapshot;
    && s.guided && s.identity == Some(config.vehicle) && Fresh(c)
    && (t.command.Takeoff? || t.command.Goto? ==> s.battery.Some? && s.battery.value >= config.minBattery)
    && (t.command.ReturnToLaunch? || t.command.Land? ==>
          s.armed && s.observation.Some? && Abs(s.observation.value.relativeAltitude) > 0.3)
    && (t.command.Takeoff? ==>
          s.armed && t.altitude.Some? && s.launchElevation.Some? && s.launchVerified
          && t.altitude.value > s.launchElevation.value + 0.3)
    && (t.command.Goto? ==> t.latitude.Some? && t.longitude.Some? && t.altitude.Some?)
  }

  /** Heard within three seconds, and its place known within ten. */
  predicate Heard(c: Control) {
    && c.snapshot.lastHeartbeat.Some? && 0 <= c.now - c.snapshot.lastHeartbeat.value <= 3_000
    && c.snapshot.observation.Some? && 0 <= c.now - c.snapshot.observation.value.observedAt <= 10_000
  }

  predicate Charged(config: Config, s: Snapshot) { s.battery.Some? && s.battery.value >= config.minBattery }

  /** The aircraft is the right one, heard of, in guided mode, and in the state the Task starts from. */
  predicate Ready(config: Config, t: Task, c: Control) {
    var s := c.snapshot;
    && s.guided && s.identity == Some(config.vehicle) && Heard(c)
    && match t.command
       case Takeoff =>
         s.armed && Charged(config, s) && t.altitude.Some? && s.launchElevation.Some? && s.launchVerified
         && t.altitude.value - s.launchElevation.value > 0.3
       case Goto => Charged(config, s) && t.latitude.Some? && t.longitude.Some? && t.altitude.Some?
       case NotFlight => true
       case _ => s.armed && !(-0.3 <= s.observation.value.relativeAltitude <= 0.3)
  }

  lemma ReadyExactly(config: Config, t: Task, c: Control)
    ensures MayFly(config, t, c) <==> Ready(config, t, c)
  {
  }

  /** What goes out to the aircraft. */
  datatype Order = TakeoffTo(height: real) | FlyTo(latitude: real, longitude: real, altitude: real) | Rtl | LandHere

  function OrderFor(t: Task, s: Snapshot): Option<Order> {
    match t.command
    case Takeoff =>
      if t.altitude.Some? && s.launchElevation.Some? then Some(TakeoffTo(t.altitude.value - s.launchElevation.value)) else None
    case Goto =>
      if s.observation.None? then None
      else
        var o := s.observation.value;
        Some(FlyTo(if t.latitude.Some? then t.latitude.value else o.latitude,
                   if t.longitude.Some? then t.longitude.value else o.longitude,
                   if t.altitude.Some? then t.altitude.value else o.altitudeMsl))
    case ReturnToLaunch => Some(Rtl)
    case Land => Some(LandHere)
    case NotFlight => None
  }

  /** The order a Task asks for: a climb by the height above the launch, a flight to its very target, home, or down here. */
  predicate Carries(t: Task, s: Snapshot, order: Option<Order>) {
    match t.command
    case Takeoff =>
      t.altitude.Some? && s.launchElevation.Some? && order == Some(TakeoffTo(t.altitude.value - s.launchElevation.value))
    case Goto =>
      t.latitude.Some? && t.longitude.Some? && t.altitude.Some?
      && order == Some(FlyTo(t.latitude.value, t.longitude.value, t.altitude.value))
    case ReturnToLaunch => order == Some(Rtl)
    case Land => order == Some(LandHere)
    case NotFlight => false
  }

  /** Once the preconditions hold the order to send is the one the Task asks for. */
  lemma OrderIsMeant(config: Config, t: Task, c: Control)
    requires MayFly(config, t, c) && t.Flight()
    ensures Carries(t, c.snapshot, OrderFor(t, c.snapshot))
    ensures t.command.Takeoff? ==> OrderFor(t, c.snapshot).value.height > 0.3
  {
  }

  // ----- progress -------------------------------------------------------------------------------------

  // None stands for an infinite distance.
  datatype Recovery = Recovery(highest: real, lowest: real, closest: Option<real>, modeIndex: int)

  datatype Execution = Execution(task: Task, startedAt: int, lastProgressAt: int, recovery: Option<Recovery>,
                                 bestRemaining: Option<real>, settleSince: Option<int>, expectedModes: seq<string>)

  function ExpectedModes(c: Command): seq<string> {
    match c
    case ReturnToLaunch => ["GUIDED", "RTL", "LAND"]
    case Land => ["GUIDED", "LAND"]
    case _ => ["GUIDED"]
  }

  /** How far into its course a command has come in that mode; the aircraft never is there of its own accord if negative. */
  function Phase(c: Command, mode: string): int {
    if mode == "GUIDED" then 0
    else if mode == "RTL" && c == ReturnToLaunch then 1
    else if mode == "LAND" && c == ReturnToLaunch then 2
    else if mode == "LAND" && c == Land then 1
    else -1
  }

  ghost predicate ModesFor(c: Command, modes: seq<string>) { forall mode :: IndexOf(modes, mode) == Phase(c, mode) }

  lemma ExpectedAreModes(c: Command)
    ensures ModesFor(c, ExpectedModes(c))
  {
    forall mode ensures IndexOf(ExpectedModes(c), mode) == Phase(c, mode) {
      IndexOfThree(ExpectedModes(c), mode);
    }
  }

  lemma IndexOfThree(modes: seq<string>, mode: string)
    requires 0 < |modes| <= 3
    ensures IndexOf(modes, mode) == if modes[0] == mode then 0 else if |modes| > 1 && modes[1] == mode then 1
                                    else if |modes| > 2 && modes[2] == mode then 2 else -1
  {
    if |modes| > 1 {
      IndexOfThree(modes[..|modes| - 1], mode);
    }
  }

  lemma {:induction false} IndexOfMember(modes: seq<string>, mode: string)
    ensures IndexOf(modes, mode) >= 0 <==> mode in modes
  {
    if modes != [] {
      IndexOfMember(modes[..|modes| - 1], mode);
      assert modes == modes[..|modes| - 1] + [modes[|modes| - 1]];
    }
  }

  function IndexOf(modes: seq<string>, mode: string): int {
    if modes == [] then -1
    else
      var earlier := IndexOf(modes[..|modes| - 1], mode);
      if earlier >= 0 then earlier else if modes[|modes| - 1] == mode then |modes| - 1 else -1
  }

  predicate Closer(d: Option<real>, than: Option<real>, step: real) {
    d.Some? && (than.None? || d.value <= than.value - step)
  }

  /** `recoveryProgressed`: the new best values, and whether any of them is new. */
  function Recovered(r: Recovery, returning: bool, modeIndex: int, altitude: real, distance: Option<real>): (Recovery, bool) {
    var moded := if modeIndex > r.modeIndex then r.(modeIndex := modeIndex) else r;
    var climbed := returning && altitude >= r.highest + 0.5;
    var sunk := !climbed && altitude <= r.lowest - 0.5;
    var vertical := if climbed then moded.(highest := altitude, lowest := altitude)
                    else if sunk then moded.(lowest := altitude) else moded;
    var nearer := returning && Closer(distance, r.closest, 0.5);
    (if nearer then vertical.(closest := distance) else vertical, modeIndex > r.modeIndex || climbed || sunk || nearer)
  }

  /** Hover noise never resets the stall timer: progress means a new best, by half a metre or a later mode. */
  lemma ProgressIsNewBest(r: Recovery, returning: bool, modeIndex: int, altitude: real, distance: Option<real>)
    ensures var (n, progressed) := Recovered(r, returning, modeIndex, altitude, distance);
            && n.modeIndex >= r.modeIndex && n.highest >= r.highest
            && (n.closest.None? ==> r.closest.None?)
            && (r.closest.Some? ==> n.closest.Some? && n.closest.value <= r.closest.value)
            && (n.highest == r.highest ==> n.lowest <= r.lowest)
            && (!progressed <==> n == r)
            && (progressed ==>
                  || n.modeIndex > r.modeIndex || n.highest >= r.highest + 0.5
                  || (n.highest == r.highest && n.lowest <= r.lowest - 0.5)
                  || (n.closest.Some? && (r.closest.None? || n.closest.value <= r.closest.value - 0.5)))
  {
  }

  // ----- what happened --------------------------------------------------------------------------------

  datatype Report = Complete(id: string) | Fail(id: string, precondition: bool)

  datatype Act =
    | Started(id: string)
    | Saw(control: Control)
    | Dispatched(task: Task, control: Control, order: Option<Order>)
    | Held(at: Observation)
    | LandSent(id: string)
    | Interrupted
    | GotoCancelled
    | Arrived(task: Task, control: Control)
    | Told(report: Report)

  /** A hold is owed since the last takeover or requested go-to cancellation. */
  function Owes(log: seq<Act>): bool {
    if log == [] then false
    else
      match log[|log| - 1]
      case Held(_) => false
      case Interrupted => true
      case GotoCancelled => true
      case _ => Owes(log[..|log| - 1])
  }

  /** The command the aircraft was last sent for that Task. */
  function Ordered(log: seq<Act>, id: string): Option<Command> {
    if log == [] then None
    else if log[|log| - 1].Dispatched? && log[|log| - 1].task.id == id then Some(log[|log| - 1].task.command)
    else Ordered(log[..|log| - 1], id)
  }

  lemma OrderedNext(log: seq<Act>, a: Act, id: string)
    ensures Ordered(log + [a], id) == if a.Dispatched? && a.task.id == id then Some(a.task.command) else Ordered(log, id)
  {
    assert (log + [a])[..|log|] == log;
  }

  /** The active Task was dispatched, and the modes expected of the aircraft are those of the command it was sent. */
  ghost predicate Underway(log: seq<Act>, active: Option<Execution>) {
    active.Some? ==>
      Ordered(log, active.value.task.id).Some? && ModesFor(Ordered(log, active.value.task.id).value, active.value.expectedModes)
  }

  /** How often a Task was interrupted. */
  function Interruptions(log: seq<Act>): nat {
    if log == [] then 0 else Interruptions(log[..|log| - 1]) + if log[|log| - 1].Interrupted? then 1 else 0
  }

  /** The pilot took the aircraft from a mode in which the command flies it into another in which it does not. */
  predicate PilotTook(c: Command, lastMode: Option<string>, s: Snapshot) {
    s.modeKnown && lastMode.Some? && lastMode.value != s.mode && Phase(c, lastMode.value) >= 0 && Phase(c, s.mode) < 0
  }

  /** The pilot took the aircraft from the Task under way. */
  predicate Taken(log: seq<Act>, active: Option<Execution>, lastMode: Option<string>, s: Snapshot) {
    active.Some? && Ordered(log, active.value.task.id).Some?
    && PilotTook(Ordered(log, active.value.task.id).value, lastMode, s)
  }

  /** What the expected modes decide is what the command decides. */
  lemma TakenExactly(log: seq<Act>, active: Option<Execution>, lastMode: Option<string>, s: Snapshot)
    requires Underway(log, active)
    ensures TakesOver(active, lastMode, s) <==> Taken(log, active, lastMode, s)
  {
    if active.Some? && lastMode.Some? {
      var modes := active.value.expectedModes;
      IndexOfMember(modes, s.mode);
      IndexOfMember(modes, lastMode.value);
      assert IndexOf(modes, "GUIDED") == Phase(Ordered(log, active.value.task.id).value, "GUIDED");
      assert IndexOf(modes, s.mode) == Phase(Ordered(log, active.value.task.id).value, s.mode);
    }
  }

  /**
    What the aircraft does of its own accord interrupts nothing: it goes home and lands on the order to return, and lands
    on the order to land.  Any other mode entered from guided flight is the pilot's.
    */
  lemma PilotTookMeans(c: Command, lastMode: string, s: Snapshot)
    requires s.modeKnown && lastMode != s.mode
    ensures c == ReturnToLaunch && s.mode in ["GUIDED", "RTL", "LAND"] ==> !PilotTook(c, Some(lastMode), s)
    ensures c == Land && s.mode in ["GUIDED", "LAND"] ==> !PilotTook(c, Some(lastMode), s)
    ensures c == Land && s.mode == "RTL" && lastMode in ["GUIDED", "LAND"] ==> PilotTook(c, Some(lastMode), s)
    ensures (c == Takeoff || c == Goto) && lastMode == "GUIDED" ==> PilotTook(c, Some(lastMode), s)
    ensures c == ReturnToLaunch && lastMode in ["GUIDED", "RTL", "LAND"] && s.mode !in ["GUIDED", "RTL", "LAND"] ==>
              PilotTook(c, Some(lastMode), s)
  {
  }

  predicate Breaks(a: Act) { a.Interrupted? || a.GotoCancelled? }

  /** A hold is owed exactly when some interruption has had no hold after it. */
  lemma {:induction false} OwesExactly(log: seq<Act>)
    ensures Owes(log) <==> exists i :: 0 <= i < |log| && Breaks(log[i]) && forall k :: i < k < |log| ==> !log[k].Held?
  {
    if log != [] {
      var rest := log[..|log| - 1];
      OwesExactly(rest);
      if Owes(rest) && !log[|log| - 1].Held? {
        var i :| 0 <= i < |rest| && Breaks(rest[i]) && forall k :: i < k < |rest| ==> !rest[k].Held?;
        assert Breaks(log[i]) && forall k :: i < k < |log| ==> !log[k].Held?;
      }
      if i :| 0 <= i < |log| && Breaks(log[i]) && forall k :: i < k < |log| ==> !log[k].Held? {
        if i < |rest| {
          assert Breaks(rest[i]) && forall k :: i < k < |rest| ==> !rest[k].Held?;
        }
      }
    }
  }

  /** Every dispatch follows the granted start and the state read after it, which meets the preconditions. */
  ghost predicate Guarded(log: seq<Act>, config: Config) {
    forall j :: 0 <= j < |log| && log[j].Dispatched? ==>
      && 2 <= j && log[j - 1] == Saw(log[j].control) && log[j - 2] == Started(log[j].task.id)
      && log[j].task.Flight() && MayFly(config, log[j].task, log[j].control)
      && Carries(log[j].task, log[j].control.snapshot, log[j].order)
  }

  ghost predicate DispatchedOnce(log: seq<Act>) {
    forall i, j :: 0 <= i < j < |log| && log[i].Dispatched? && log[j].Dispatched? ==> log[i].task.id != log[j].task.id
  }

  ghost predicate HoldFirst(log: seq<Act>) {
    forall j :: 0 <= j < |log| && log[j].Dispatched? ==> !Owes(log[..j])
  }

  ghost predicate ArrivedTruly(log: seq<Act>, config: Config, distance: (real, real, real, real) -> real) {
    forall j :: 0 <= j < |log| && log[j].Arrived? ==> AtGoal(config, distance, log[j].task, log[j].control)
  }

  /** The physical outcome a Task asks for, seen in fresh telemetry. */
  predicate AtGoal(config: Config, distance: (real, real, real, real) -> real, t: Task, c: Control) {
    && Fresh(c)
    && var s := c.snapshot;
       var o := s.observation.value;
       match t.command
       case Takeoff =>
         s.guided && s.armed && o.relativeAltitude > 0.3 && t.altitude.Some?
         && Abs(t.altitude.value - o.altitudeMsl) <= config.altitudeTolerance && o.groundSpeed <= 0.5
       case Goto =>
         t.latitude.Some? && t.longitude.Some? && t.altitude.Some?
         && distance(o.latitude, o.longitude, t.latitude.value, t.longitude.value) <= config.arrivalRadius
         && Abs(t.altitude.value - o.altitudeMsl) <= config.altitudeTolerance
       case Land => !s.armed && Abs(o.relativeAltitude) <= 0.3
       case ReturnToLaunch =>
         !s.armed && Abs(o.relativeAltitude) <= 0.3 && s.launchPosition.Some?
         && distance(o.latitude, o.longitude, s.launchPosition.value.0, s.launchPosition.value.1) <= config.arrivalRadius
       case NotFlight => false
  }

  predicate Within(x: real, tolerance: real) { -tolerance <= x <= tolerance }

  predicate OnGround(c: Control)
    requires Heard(c)
  {
    !c.snapshot.armed && Within(c.snapshot.observation.value.relativeAltitude, 0.3)
  }

  /** Hovering at the height, being at the place, standing on the ground, and doing so at the place of launch. */
  predicate There(config: Config, distance: (real, real, real, real) -> real, t: Task, c: Control) {
    && Heard(c)
    && var s := c.snapshot;
       var o := s.observation.value;
       match t.command
       case Takeoff =>
         s.guided && s.armed && o.relativeAltitude > 0.3 && o.groundSpeed <= 0.5 && t.altitude.Some?
         && Within(o.altitudeMsl - t.altitude.value, config.altitudeTolerance)
       case Goto =>
         t.latitude.Some? && t.longitude.Some? && t.altitude.Some?
         && Within(o.altitudeMsl - t.altitude.value, config.altitudeTolerance)
         && distance(o.latitude, o.longitude, t.latitude.value, t.longitude.value) <= config.arrivalRadius
       case Land => OnGround(c)
       case ReturnToLaunch =>
         OnGround(c) && s.launchPosition.Some?
         && distance(o.latitude, o.longitude, s.launchPosition.value.0, s.launchPosition.value.1) <= config.arrivalRadius
       case NotFlight => false
  }

  lemma ThereExactly(config: Config, distance: (real, real, real, real) -> real, t: Task, c: Control)
    ensures AtGoal(config, distance, t, c) <==> There(config, distance, t, c)
  {
  }

  /** A dispatched Task is active or finished, so it is never adopted again. */
  ghost predicate Known(log: seq<Act>, finished: set<string>, active: Option<Execution>) {
    forall j :: 0 <= j < |log| && log[j].Dispatched? ==>
      log[j].task.id in finished || (active.Some? && active.value.task.id == log[j].task.id)
  }

  // ----- what one tick decides ------------------------------------------------------------------------

  /** The log only grew, and by nothing that moves the aircraft anew. */
  ghost predicate Quietly(before: seq<Act>, after: seq<Act>) {
    |before| <= |after| && after[..|before|] == before && forall i :: |before| <= i < |after| ==> !after[i].Dispatched?
  }

  lemma QuietlyThrough(a: seq<Act>, b: seq<Act>, c: seq<Act>)
    requires Quietly(a, b) && Quietly(b, c)
    ensures Quietly(a, c)
  {
    assert c[..|a|] == c[..|b|][..|a|];
    forall i | |a| <= i < |c| ensures !c[i].Dispatched? {
      if i < |b| { assert c[i] == c[..|b|][i] == b[i]; }
    }
  }

  lemma QuietlyBy(before: seq<Act>, news: seq<Act>)
    requires forall a <- news :: !a.Dispatched?
    ensures Quietly(before, before + news)
  {
    forall i | |before| <= i < |before + news| ensures !(before + news)[i].Dispatched? {
      assert (before + news)[i] in news;
    }
  }

  /** At most one dispatch is new, and it is of a Task of the list that was not finished before. */
  ghost predicate DispatchesOne(tasks: seq<Task>, done: set<string>, before: seq<Act>, after: seq<Act>) {
    && |before| <= |after| && after[..|before|] == before
    && forall i :: |before| <= i < |after| && after[i].Dispatched? ==>
         after[i].task in tasks && after[i].task.id !in done && forall j :: i < j < |after| ==> !after[j].Dispatched?
  }

  lemma OneAfterQuiet(tasks: seq<Task>, done: set<string>, a: seq<Act>, b: seq<Act>, c: seq<Act>)
    requires Quietly(a, b) && DispatchesOne(tasks, done, b, c)
    ensures DispatchesOne(tasks, done, a, c)
  {
    assert c[..|a|] == c[..|b|][..|a|];
    forall i | 0 <= i < |b| ensures c[i] == b[i] { assert c[i] == c[..|b|][i]; }
  }

  lemma QuietAfterOne(tasks: seq<Task>, done: set<string>, a: seq<Act>, b: seq<Act>, c: seq<Act>)
    requires DispatchesOne(tasks, done, a, b) && Quietly(b, c)
    ensures DispatchesOne(tasks, done, a, c)
  {
    assert c[..|a|] == c[..|b|][..|a|];
    forall i | 0 <= i < |b| ensures c[i] == b[i] { assert c[i] == c[..|b|][i]; }
  }

  lemma OneBy(tasks: seq<Task>, done: set<string>, before: seq<Act>, first: seq<Act>, t: Task, c: Control, last: seq<Act>)
    requires t in tasks && t.id !in done
    requires (forall a <- first :: !a.Dispatched?) && forall a <- last :: !a.Dispatched?
    ensures DispatchesOne(tasks, done, before, before + (first + [Dispatched(t, c, OrderFor(t, c.snapshot))] + last))
  {
    var news := first + [Dispatched(t, c, OrderFor(t, c.snapshot))] + last;
    var after := before + news;
    forall i | |before| <= i < |after| && i != |before| + |first| ensures !after[i].Dispatched? {
      var k := i - |before|;
      assert after[i] == news[k];
      if k < |first| { assert news[k] in first; } else { assert news[k] in last; }
    }
  }

  lemma NothingDispatched(tasks: seq<Task>, done: set<string>, before: seq<Act>, after: seq<Act>)
    requires Quietly(before, after)
    ensures DispatchesOne(tasks, done, before, after)
  {
  }

  lemma FewerDone(tasks: seq<Task>, done: set<string>, more: set<string>, before: seq<Act>, after: seq<Act>)
    requires DispatchesOne(tasks, more, before, after) && done <= more
    ensures DispatchesOne(tasks, done, before, after)
  {
  }

  /** The last copy of a Task in a list, as a map built from the list holds it. */
  function LastCopy(tasks: seq<Task>, id: string): Option<Task> {
    if tasks == [] then None
    else if tasks[|tasks| - 1].id == id then Some(tasks[|tasks| - 1])
    else LastCopy(tasks[..|tasks| - 1], id)
  }

  lemma {:induction false} LastCopyIn(tasks: seq<Task>, id: string)
    ensures LastCopy(tasks, id).Some? ==> LastCopy(tasks, id).value in tasks && LastCopy(tasks, id).value.id == id
  {
    if tasks != [] {
      LastCopyIn(tasks[..|tasks| - 1], id);
    }
  }

  function TerminalIds(tasks: seq<Task>): set<string> { set t | t in tasks && t.Terminal() :: t.id }

  /** The active Task after its authoritative state is known; a Task absent from the list goes on. */
  function Reconciled(a: Option<Execution>, tasks: seq<Task>): Option<Execution> {
    if a.None? then None
    else
      match LastCopy(tasks, a.value.task.id)
      case None => a
      case Some(t) => if t.Terminal() then None else Some(a.value.(task := t))
  }

  lemma ReconciledSame(a: Option<Execution>, tasks: seq<Task>)
    ensures Reconciled(a, tasks).Some? ==> a.Some? && Reconciled(a, tasks).value.task.id == a.value.task.id
  {
    if a.Some? { LastCopyIn(tasks, a.value.task.id); }
  }

  /** An operator called off the go-to that is under way. */
  predicate GotoCalledOff(a: Option<Execution>, tasks: seq<Task>) {
    a.Some? && a.value.task.command.Goto?
    && var t := LastCopy(tasks, a.value.task.id);
       t.Some? && t.value.status.Cancelled? && t.value.cancelRequested
  }

  function ReportAfter(r: Option<Report>, tasks: seq<Task>): Option<Report> {
    if r.Some? && LastCopy(tasks, r.value.id).Some? && LastCopy(tasks, r.value.id).value.Terminal() then None else r
  }

  /** The pilot took the aircraft out of the modes the active Task expects. */
  predicate TakesOver(active: Option<Execution>, lastMode: Option<string>, s: Snapshot) {
    && s.modeKnown && active.Some? && lastMode.Some? && lastMode.value != s.mode && s.mode !in active.value.expectedModes
    && (lastMode.value in active.value.expectedModes || lastMode.value == "GUIDED")
  }

  /** The last copy of the Task in the list stands there. */
  predicate LastAt(tasks: seq<Task>, id: string, k: nat) {
    k < |tasks| && tasks[k].id == id && forall j :: k < j < |tasks| ==> tasks[j].id != id
  }

  /** A hold is owed for the go-to under way exactly if the list shows it cancelled on request. */
  lemma CalledOffExactly(a: Option<Execution>, tasks: seq<Task>)
    ensures GotoCalledOff(a, tasks) <==>
            a.Some? && a.value.task.command == Goto
            && exists k: nat :: LastAt(tasks, a.value.task.id, k) && tasks[k].status == Cancelled && tasks[k].cancelRequested
  {
    hide LastCopy;
    if a.Some? {
      var id := a.value.task.id;
      forall k: nat | LastAt(tasks, id, k) ensures k < |tasks| && LastCopy(tasks, id) == Some(tasks[k]) { LastCopyIs(tasks, id, k); }
      if LastCopy(tasks, id).Some? {
        var k := LastCopyAt(tasks, id);
      }
    }
  }

  lemma LastCopyAt(tasks: seq<Task>, id: string) returns (k: nat)
    requires LastCopy(tasks, id).Some?
    ensures LastAt(tasks, id, k) && tasks[k] == LastCopy(tasks, id).value
  {
    if tasks[|tasks| - 1].id == id {
      k := |tasks| - 1;
    } else {
      k := LastCopyAt(tasks[..|tasks| - 1], id);
    }
  }

  lemma {:induction false} LastCopyIs(tasks: seq<Task>, id: string, k: nat)
    requires LastAt(tasks, id, k)
    ensures LastCopy(tasks, id) == Some(tasks[k])
  {
    if k < |tasks| - 1 {
      LastCopyIs(tasks[..|tasks| - 1], id, k);
    }
  }

  predicate Refusable(t: Task, gotoOnly: bool) { t.Flight() && t.Actionable() && (gotoOnly ==> t.command.Goto?) }

  function RefusableIds(tasks: seq<Task>, gotoOnly: bool): set<string> { set t | t in tasks && Refusable(t, gotoOnly) :: t.id }

  lemma RefusedPrefix(tasks: seq<Task>, n: nat, gotoOnly: bool)
    requires n <= |tasks|
    ensures RefusableIds(tasks[..n], gotoOnly) <= RefusableIds(tasks, gotoOnly)
  {
  }

  /** The first Task of the list that may still be adopted. */
  function Candidate(tasks: seq<Task>, finished: set<string>): Option<Task> {
    if tasks == [] then None
    else if tasks[0].Flight() && tasks[0].Actionable() && tasks[0].id !in finished then Some(tasks[0])
    else Candidate(tasks[1..], finished)
  }

  predicate Adoptable(t: Task, finished: set<string>) {
    t.command != NotFlight && (t.status == Pending || t.status == Acknowledged) && t.id !in finished
  }

  /** It is the first of the list that waits to be flown and is not done with; there is none only if none waits. */
  lemma {:induction false} CandidateExactly(tasks: seq<Task>, finished: set<string>)
    ensures match Candidate(tasks, finished)
            case Some(t) =>
              exists i :: 0 <= i < |tasks| && tasks[i] == t && Adoptable(t, finished)
                          && forall j :: 0 <= j < i ==> !Adoptable(tasks[j], finished)
            case None => forall i :: 0 <= i < |tasks| ==> !Adoptable(tasks[i], finished)
  {
    if tasks != [] && !Adoptable(tasks[0], finished) {
      CandidateExactly(tasks[1..], finished);
      var c := Candidate(tasks[1..], finished);
      if c.Some? {
        var i :| 0 <= i < |tasks[1..]| && tasks[1..][i] == c.value && Adoptable(c.value, finished)
                 && forall j :: 0 <= j < i ==> !Adoptable(tasks[1..][j], finished);
        assert tasks[i + 1] == c.value;
        forall j | 0 <= j < i + 1 ensures !Adoptable(tasks[j], finished) {
          if j > 0 { assert tasks[1..][j - 1] == tasks[j]; }
        }
      } else {
        forall i | 0 <= i < |tasks| ensures !Adoptable(tasks[i], finished) {
          if i > 0 { assert tasks[1..][i - 1] == tasks[i]; }
        }
      }
    }
  }

  lemma {:induction false} CandidateIs(tasks: seq<Task>, finished: set<string>)
    ensures Candidate(tasks, finished).Some? ==>
              var t := Candidate(tasks, finished).value;
              t in tasks && t.Flight() && t.Actionable() && t.id !in finished
  {
    if tasks != [] {
      CandidateIs(tasks[1..], finished);
    }
  }

  /** A hold may be sent: with authority and on fresh telemetry only. */
  predicate Holdable(c: Control) { c.snapshot.observation.Some? && c.snapshot.guided && Fresh(c) }

  lemma HoldableExactly(c: Control)
    ensures Holdable(c) <==> c.snapshot.guided && Heard(c)
  {
  }

  /** Correcting a failed Task is safe. */
  predicate Correctable(c: Control) { c.snapshot.guided && c.snapshot.armed && Fresh(c) }

  predicate Airborne(c: Control) {
    c.snapshot.observation.Some? && Abs(c.snapshot.observation.value.relativeAltitude) > 0.5
  }

  datatype Judgement = Fails | Arrives(at: Execution) | GoesOn(next: Execution)

  // ----- the engine -----------------------------------------------------------------------------------

  /** The n-th call to the outside: whether it succeeds, and what the control state is. */
  datatype World = World(succeeds: nat -> bool, control: nat -> Option<Control>)

  class TaskEngine {
    const world: World
    const config: Config
    const distance: (real, real, real, real) -> real
    var calls: nat
    var active: Option<Execution>
    var finished: set<string>
    var reholdOnGuided: bool
    var holdRequired: bool
    var pendingReport: Option<Report>
    var lastMode: Option<string>
    ghost var log: seq<Act>

    ghost predicate Valid()
      reads this
    {
      && Guarded(log, config) && DispatchedOnce(log) && HoldFirst(log) && ArrivedTruly(log, config, distance)
      && (Owes(log) ==> reholdOnGuided || holdRequired)
      && Known(log, finished, active) && Underway(log, active)
    }

    constructor (world: World, config: Config, distance: (real, real, real, real) -> real)
      ensures Valid() && log == [] && active.None? && finished == {} && !reholdOnGuided && !holdRequired
    {
      this.world, this.config, this.distance := world, config, distance;
      calls, active, finished, reholdOnGuided, holdRequired, pendingReport, lastMode := 0, None, {}, false, false, None, None;
      log := [];
    }

    /** Anything but a dispatch or an arrival may be noted at any time; a hold pays what is owed. */
    ghost method Note(a: Act)
      requires Valid() && !a.Dispatched? && !a.Arrived?
      requires Breaks(a) ==> reholdOnGuided || holdRequired
      modifies `log
      ensures Valid() && log == old(log) + [a]
      ensures Owes(log) == if a.Held? then false else if Breaks(a) then true else Owes(old(log))
      ensures Interruptions(log) == Interruptions(old(log)) + if a.Interrupted? then 1 else 0
    {
      NoteKeeps(log, a, config, distance);
      assert (log + [a])[..|log|] == log;
      if active.Some? { OrderedNext(log, a, active.value.task.id); }
      log := log + [a];
    }

    /** One awaited call to the outside. */
    method Call() returns (ok: bool)
      requires Valid()
      modifies `calls
      ensures Valid() && calls == old(calls) + 1 && ok == world.succeeds(old(calls))
    {
      ok := world.succeeds(calls);
      calls := calls + 1;
    }

    method ReadControl() returns (c: Option<Control>)
      requires Valid()
      modifies `calls, `log
      ensures Interruptions(log) == Interruptions(old(log))
      ensures Valid() && log == if c.Some? then old(log) + [Saw(c.value)] else old(log)
      ensures c == world.control(old(calls)) && calls == old(calls) + 1
      ensures Owes(log) == Owes(old(log))
    {
      c := world.control(calls);
      calls := calls + 1;
      if c.Some? { Note(Saw(c.value)); }
    }

    /** `flushTerminalReport`; false when the callback failed and the report stays pending. */
    method FlushReport() returns (ok: bool)
      requires Valid()
      modifies `calls, `log, `pendingReport
      ensures Interruptions(log) == Interruptions(old(log))
      ensures Valid() && Owes(log) == Owes(old(log))
      ensures old(pendingReport).None? ==> ok && calls == old(calls) && log == old(log)
      ensures old(pendingReport).Some? ==>
                && calls == old(calls) + 1 && ok == world.succeeds(old(calls))
                && log == if ok then old(log) + [Told(old(pendingReport).value)] else old(log)
      ensures pendingReport == if ok then None else old(pendingReport)
    {
      if pendingReport.None? { return true; }
      var report := pendingReport.value;
      ok := Call();
      if ok {
        pendingReport := None;
        Note(Told(report));
      }
    }

    method ReportTerminal(report: Report) returns (ok: bool)
      requires Valid()
      modifies `calls, `log, `pendingReport
      ensures Interruptions(log) == Interruptions(old(log))
      ensures Valid() && Owes(log) == Owes(old(log))
      ensures calls == old(calls) + 1 && ok == world.succeeds(old(calls))
      ensures log == if ok then old(log) + [Told(report)] else old(log)
      ensures pendingReport == if ok then None else Some(report)
    {
      pendingReport := Some(report);
      ok := FlushReport();
    }

    /** `establishHold`: never from stale telemetry and never without authority. */
    method EstablishHold(c: Control) returns (held: bool, ok: bool)
      requires Valid()
      modifies `calls, `log
      ensures Interruptions(log) == Interruptions(old(log))
      ensures Valid() && (held ==> !Owes(log))
      ensures held == (Holdable(c) && world.succeeds(old(calls))) && ok == (Holdable(c) ==> held)
      ensures log == (if held then old(log) + [Held(c.snapshot.observation.value)] else old(log)) && calls == old(calls) + (if Holdable(c) then 1 else 0)
    {
      if c.snapshot.observation.None? || !c.snapshot.guided || !Fresh(c) { return false, true; }
      ok := Call();
      held := ok;
      if ok { Note(Held(c.snapshot.observation.value)); }
    }

    /** The active Task is over, whatever the reason. */
    method DropActive() returns (t: Task)
      requires Valid() && active.Some?
      modifies `active, `finished
      ensures Valid() && active.None? && t == old(active).value.task && finished == old(finished) + {t.id}
    {
      t := active.value.task;
      active := None;
      finished := finished + {t.id};
    }

    // ----- takeover and recovery ----------------------------------------------------------------------

    /** The Task is over, a hold is owed, and its failure is reported or stays to be reported. */
    ghost predicate Interrupts(id: string, before: seq<Act>, done: set<string>, ok: bool)
      reads `active, `reholdOnGuided, `finished, `log, `pendingReport
    {
      && active.None? && reholdOnGuided && finished == done + {id}
      && log == before + [Interrupted] + (if ok then [Told(Fail(id, false))] else [])
      && pendingReport == (if ok then None else Some(Fail(id, false)))
    }

    /** `noteTakeover` */
    method NoteTakeover(mode: string) returns (ok: bool)
      requires Valid()
      modifies `active, `finished, `reholdOnGuided, `log, `calls, `pendingReport
      ensures Valid()
      ensures Interruptions(log) == Interruptions(old(log)) + if old(active).Some? && mode !in old(active).value.expectedModes then 1 else 0
      ensures old(active).Some? && mode !in old(active).value.expectedModes ==> Interrupts(old(active).value.task.id, old(log), old(finished), ok)
      ensures !(old(active).Some? && mode !in old(active).value.expectedModes) ==>
                ok && log == old(log) && active == old(active) && reholdOnGuided == old(reholdOnGuided)
                && finished == old(finished) && pendingReport == old(pendingReport)
    {
      hide Guarded, DispatchedOnce, HoldFirst, ArrivedTruly, Owes, Interruptions, Ordered, ModesFor;
      if active.None? || mode in active.value.expectedModes { return true; }
      var t := DropActive();
      reholdOnGuided := true;
      Note(Interrupted);
      ok := ReportTerminal(Fail(t.id, false));
    }

    /** `noteGuidedReturn` */
    method NoteGuidedReturn(c: Control) returns (ok: bool)
      requires Valid()
      modifies `reholdOnGuided, `log, `calls
      ensures Interruptions(log) == Interruptions(old(log))
      ensures Valid()
      ensures var held := old(reholdOnGuided) && Holdable(c) && world.succeeds(old(calls));
              && reholdOnGuided == (old(reholdOnGuided) && !held)
              && log == if held then old(log) + [Held(c.snapshot.observation.value)] else old(log)
    {
      if !reholdOnGuided { return true; }
      var held;
      held, ok := EstablishHold(c);
      if held { reholdOnGuided := false; }
    }

    /** `abandonActiveForRecovery` */
    method AbandonActiveForRecovery(rehold: bool) returns (id: Option<string>)
      requires Valid()
      modifies `active, `finished, `reholdOnGuided, `log
      ensures Valid() && active.None? && reholdOnGuided == (old(reholdOnGuided) || rehold)
      ensures id == if old(active).Some? then Some(old(active).value.task.id) else None
      ensures finished == if id.Some? then old(finished) + {id.value} else old(finished)
      ensures log == if rehold then old(log) + [Interrupted] else old(log)
    {
      if rehold {
        reholdOnGuided := true;
        Note(Interrupted);
      }
      if active.None? { return None; }
      var t := DropActive();
      return Some(t.id);
    }

    /** The report still owed can be told, and the pilot took the aircraft from what is then under way. */
    ghost predicate TakenAfterReport(report: Option<Report>, under: Option<Execution>, s: Snapshot)
      reads this
    {
      (report.None? || world.succeeds(calls)) && Taken(log, under, lastMode, s)
    }

    /** The list leaves a Task under way, and the pilot took the aircraft from it. */
    ghost predicate TakenNow(tasks: seq<Task>, s: Snapshot)
      reads this
    {
      TakenAfterReport(ReportAfter(pendingReport, tasks), Reconciled(active, tasks), s)
    }

    /** `observeMode` */
    method ObserveMode(s: Snapshot) returns (ok: bool)
      requires Valid()
      modifies `lastMode, `active, `finished, `reholdOnGuided, `log, `calls, `pendingReport
      ensures Interruptions(log) == Interruptions(old(log)) + if Taken(old(log), old(active), old(lastMode), s) then 1 else 0
      ensures Valid() && lastMode == if s.modeKnown then Some(s.mode) else old(lastMode)
      ensures Taken(old(log), old(active), old(lastMode), s) ==> Interrupts(old(active).value.task.id, old(log), old(finished), ok)
      ensures !Taken(old(log), old(active), old(lastMode), s) ==>
                ok && log == old(log) && active == old(active) && reholdOnGuided == old(reholdOnGuided)
                && finished == old(finished) && pendingReport == old(pendingReport)
    {
      hide Guarded, DispatchedOnce, HoldFirst, ArrivedTruly, Known, Owes, Ordered, PilotTook, ModesFor;
      TakenExactly(log, active, lastMode, s);
      if !s.modeKnown || lastMode == Some(s.mode) { return true; }
      var previous := lastMode;
      lastMode := Some(s.mode);
      if active.Some? && previous.Some? && previous.value in active.value.expectedModes
         && s.mode !in active.value.expectedModes {
        ok := NoteTakeover(s.mode);
      } else if previous == Some("GUIDED") && s.mode != "GUIDED" {
        ok := NoteTakeover(s.mode);
      } else {
        ok := true;
      }
    }

    // ----- authoritative state ------------------------------------------------------------------------

    static method Find(tasks: seq<Task>, id: string) returns (t: Option<Task>)
      ensures t == LastCopy(tasks, id)
    {
      t := None;
      for i := 0 to |tasks|
        invariant t == LastCopy(tasks[..i], id)
      {
        assert tasks[..i + 1][..i] == tasks[..i];
        if tasks[i].id == id { t := Some(tasks[i]); }
      }
      assert tasks[..|tasks|] == tasks;
    }

    /** `reconcileAuthoritative` */
    method Reconcile(tasks: seq<Task>)
      requires Valid()
      modifies `active, `finished, `holdRequired, `log, `pendingReport
      ensures Interruptions(log) == Interruptions(old(log))
      ensures Valid() && active == Reconciled(old(active), tasks) && finished == old(finished) + TerminalIds(tasks)
      ensures holdRequired == (old(holdRequired) || GotoCalledOff(old(active), tasks))
      ensures log == if GotoCalledOff(old(active), tasks) then old(log) + [GotoCancelled] else old(log)
      ensures pendingReport == ReportAfter(old(pendingReport), tasks)
    {
      hide Guarded, DispatchedOnce, HoldFirst, ArrivedTruly, Fresh, MayFly, AtGoal, Owes, LastCopy;
      if pendingReport.Some? {
        var reported := Find(tasks, pendingReport.value.id);
        if reported.Some? && reported.value.Terminal() { pendingReport := None; }
      }
      ReconcileActive(tasks);
      FinishTerminals(tasks);
    }

    method ReconcileActive(tasks: seq<Task>)
      requires Valid()
      modifies `active, `finished, `holdRequired, `log
      ensures Interruptions(log) == Interruptions(old(log))
      ensures Valid() && active == Reconciled(old(active), tasks)
      ensures old(finished) <= finished <= old(finished) + TerminalIds(tasks)
      ensures holdRequired == (old(holdRequired) || GotoCalledOff(old(active), tasks))
      ensures log == if GotoCalledOff(old(active), tasks) then old(log) + [GotoCancelled] else old(log)
    {
      hide Guarded, DispatchedOnce, HoldFirst, ArrivedTruly, Fresh, MayFly, AtGoal, Owes, LastCopy;
      if active.None? { return; }
      var current := Find(tasks, active.value.task.id);
      LastCopyIn(tasks, active.value.task.id);
      if current.None? { return; }
      if current.value.Terminal() {
        var t := DropActive();
        if current.value.status.Cancelled? && current.value.cancelRequested && t.command.Goto? {
          holdRequired := true;
          Note(GotoCancelled);
        }
      } else {
        active := Some(active.value.(task := current.value));
      }
    }

    method FinishTerminals(tasks: seq<Task>)
      requires Valid()
      modifies `finished
      ensures Valid() && finished == old(finished) + TerminalIds(tasks)
    {
      hide Guarded, DispatchedOnce, HoldFirst, ArrivedTruly, Owes;
      for i := 0 to |tasks|
        invariant Valid() && finished == old(finished) + TerminalIds(tasks[..i])
      {
        assert forall t :: t in tasks[..i + 1] <==> t in tasks[..i] || t == tasks[i];
        if tasks[i].Terminal() { finished := finished + {tasks[i].id}; }
      }
      assert tasks[..|tasks|] == tasks;
    }

    /** `rejectGotoDuringTakeoff` and `rejectPendingOutsideGuided`: refused Tasks never run later. */
    method RejectAll(tasks: seq<Task>, gotoOnly: bool) returns (ok: bool)
      requires Valid()
      modifies `finished, `calls, `log, `pendingReport
      ensures Interruptions(log) == Interruptions(old(log))
      ensures Valid() && Owes(log) == Owes(old(log)) && Quietly(old(log), log)
      ensures old(finished) <= finished <= old(finished) + RefusableIds(tasks, gotoOnly)
      ensures ok ==> finished == old(finished) + RefusableIds(tasks, gotoOnly)
      ensures !ok ==> pendingReport.Some? && pendingReport.value.id in finished - old(finished)
    {
      hide Guarded, DispatchedOnce, HoldFirst, ArrivedTruly, Owes, Quietly, Refusable, Interruptions, Ordered, ModesFor;
      ok := true;
      QuietlyBy(log, []);
      assert log + [] == log;
      for i := 0 to |tasks|
        invariant Valid() && Owes(log) == Owes(old(log)) && ok && Quietly(old(log), log)
        invariant Interruptions(log) == Interruptions(old(log))
        invariant finished == old(finished) + RefusableIds(tasks[..i], gotoOnly)
      {
        var t := tasks[i];
        assert forall x :: x in tasks[..i + 1] <==> x in tasks[..i] || x == t;
        RefusedPrefix(tasks, i + 1, gotoOnly);
        if Refusable(t, gotoOnly) && t.id !in finished {
          finished := finished + {t.id};
          ghost var before := log;
          ok := ReportTerminal(Fail(t.id, true));
          QuietlyBy(before, [Told(Fail(t.id, true))]);
          QuietlyBy(before, []);
          assert before + [] == before;
          QuietlyThrough(old(log), before, log);
          if !ok { return; }
        }
      }
      assert tasks[..|tasks|] == tasks;
    }

    // ----- adopting and advancing ---------------------------------------------------------------------

    static method FirstActionable(tasks: seq<Task>, finished: set<string>) returns (t: Option<Task>)
      ensures t == Candidate(tasks, finished)
    {
      assert tasks[0..] == tasks;
      for i := 0 to |tasks|
        invariant Candidate(tasks, finished) == Candidate(tasks[i..], finished)
      {
        assert tasks[i..][0] == tasks[i] && tasks[i..][1..] == tasks[i + 1..];
        if tasks[i].Flight() && tasks[i].Actionable() && tasks[i].id !in finished { return Some(tasks[i]); }
      }
      return None;
    }

    function Remaining(t: Task, s: Snapshot): Option<real> {
      if s.observation.None? then None
      else
        var o := s.observation.value;
        if t.command.Takeoff? && t.altitude.Some? then Some(Abs(t.altitude.value - o.altitudeMsl))
        else if t.command.Goto? && t.latitude.Some? && t.longitude.Some? && t.altitude.Some? then
          var d := distance(o.latitude, o.longitude, t.latitude.value, t.longitude.value);
          var h := Abs(t.altitude.value - o.altitudeMsl);
          Some(if d < h then h else d)
        else None
    }

    function LaunchDistance(s: Snapshot): Option<real> {
      if s.observation.None? || s.launchPosition.None? then None
      else Some(distance(s.observation.value.latitude, s.observation.value.longitude, s.launchPosition.value.0, s.launchPosition.value.1))
    }

    /** The execution with its new best values, if it came nearer to its goal. */
    function Bettered(a: Execution, c: Control): Option<Execution> {
      var r := Remaining(a.task, c.snapshot);
      var best := if r.Some? then r else a.bestRemaining;
      if !Fresh(c) then None
      else if r.Some? && (a.bestRemaining.None? || r.value < a.bestRemaining.value) then
        Some(a.(bestRemaining := best, lastProgressAt := c.now))
      else if a.recovery.None? || c.snapshot.observation.None? then None
      else
        var (next, moved) := Recovered(a.recovery.value, a.task.command.ReturnToLaunch?,
                                       IndexOf(a.expectedModes, c.snapshot.mode),
                                       c.snapshot.observation.value.altitudeMsl, LaunchDistance(c.snapshot));
        if moved then Some(a.(recovery := Some(next), bestRemaining := best, lastProgressAt := c.now)) else None
    }

    /** Whether the goal is reached; a takeoff must also have hovered in place for a while. */
    function Settling(a: Execution, c: Control): (Execution, bool) {
      if !Fresh(c) then (a, false)
      else if !a.task.command.Takeoff? then (a, AtGoal(config, distance, a.task, c))
      else if a.task.altitude.None? then (a, false)
      else if !AtGoal(config, distance, a.task, c) then (a.(settleSince := None), false)
      else
        var since := if a.settleSince.None? then c.now else a.settleSince.value;
        (a.(settleSince := Some(since)), c.now - since >= config.settleMs)
    }

    /** What becomes of the active Task in one tick. */
    function Judge(a: Execution, c: Control): Judgement {
      var better := Bettered(a, c);
      if c.now - a.startedAt > config.taskTimeoutMs then Fails
      else if better.None? && c.now - a.lastProgressAt > config.progressTimeoutMs then Fails
      else
        var (next, done) := Settling(if better.Some? then better.value else a, c);
        if done then Arrives(next) else GoesOn(next)
    }

    /** A Task arrives only at its goal, and goes on only within its time and with recent progress. */
    lemma JudgeMeans(a: Execution, c: Control)
      ensures match Judge(a, c)
              case Fails =>
                c.now - a.startedAt > config.taskTimeoutMs || c.now - a.lastProgressAt > config.progressTimeoutMs
              case Arrives(n) =>
                AtGoal(config, distance, a.task, c) && n.task == a.task
                && (a.task.command.Takeoff? ==> n.settleSince.Some? && c.now - n.settleSince.value >= config.settleMs)
              case GoesOn(n) =>
                && n.task == a.task && n.startedAt == a.startedAt && c.now - a.startedAt <= config.taskTimeoutMs
                && (n.lastProgressAt == c.now
                    || (n.lastProgressAt == a.lastProgressAt && c.now - a.lastProgressAt <= config.progressTimeoutMs))
    {
      hide AtGoal, Recovered, Remaining, LaunchDistance;
    }

    /** A new best: nearer to the target than ever, or further on the way home or down. */
    predicate Advances(a: Execution, c: Control) {
      && Heard(c)
      && var o := c.snapshot.observation.value;
         || (a.task.command == Takeoff && a.task.altitude.Some? && Beats(a, Abs(a.task.altitude.value - o.altitudeMsl)))
         || (a.task.command == Goto && a.task.latitude.Some? && a.task.longitude.Some? && a.task.altitude.Some?
             && Beats(a, distance(o.latitude, o.longitude, a.task.latitude.value, a.task.longitude.value))
             && Beats(a, Abs(a.task.altitude.value - o.altitudeMsl)))
         || (a.recovery.Some? && Recovers(a, a.recovery.value, c))
    }

    predicate Beats(a: Execution, d: real) { a.bestRemaining.None? || d < a.bestRemaining.value }

    /** Home or down by half a metre more than ever, higher on the way home, or in a later mode. */
    predicate Recovers(a: Execution, r: Recovery, c: Control)
      requires c.snapshot.observation.Some?
    {
      var o := c.snapshot.observation.value;
      || IndexOf(a.expectedModes, c.snapshot.mode) > r.modeIndex
      || o.altitudeMsl <= r.lowest - 0.5
      || (a.task.command == ReturnToLaunch
          && (|| o.altitudeMsl >= r.highest + 0.5
              || (c.snapshot.launchPosition.Some?
                  && var home := distance(o.latitude, o.longitude, c.snapshot.launchPosition.value.0, c.snapshot.launchPosition.value.1);
                     r.closest.None? || home <= r.closest.value - 0.5)))
    }

    lemma AdvancesExactly(a: Execution, c: Control)
      ensures Bettered(a, c).Some? <==> Advances(a, c)
    {
    }

    /** In time, and not for too long without a new best. */
    predicate InTime(a: Execution, c: Control) {
      && c.now - a.startedAt <= config.taskTimeoutMs
      && (Advances(a, c) || c.now - a.lastProgressAt <= config.progressTimeoutMs)
    }

    /** The Task fails exactly out of time, and arrives exactly at its goal, for a takeoff after hovering there long enough. */
    lemma JudgeExactly(a: Execution, c: Control)
      ensures Judge(a, c).Fails? <==> !InTime(a, c)
      ensures Judge(a, c).Arrives? <==>
              && InTime(a, c) && There(config, distance, a.task, c)
              && (a.task.command == Takeoff ==>
                    c.now - (if a.settleSince.Some? then a.settleSince.value else c.now) >= config.settleMs)
      ensures Judge(a, c).GoesOn? && a.task.command == Takeoff && Heard(c) && a.task.altitude.Some? ==>
                Judge(a, c).next.settleSince ==
                if !There(config, distance, a.task, c) then None
                else if a.settleSince.Some? then a.settleSince else Some(c.now)
    {
      hide AtGoal, Advances, Recovered, Remaining, LaunchDistance;
      ThereExactly(config, distance, a.task, c);
      AdvancesExactly(a, c);
      BetteredKeeps(a, c);
    }

    lemma BetteredKeeps(a: Execution, c: Control)
      ensures Bettered(a, c).Some? ==>
                Bettered(a, c).value.task == a.task && Bettered(a, c).value.settleSince == a.settleSince
    {
      hide Recovered;
    }

    function Begin(t: Task, c: Control): Execution {
      var modes := ExpectedModes(t.command);
      var recovery :=
        if (t.command.ReturnToLaunch? || t.command.Land?) && c.snapshot.observation.Some? then
          var altitude := c.snapshot.observation.value.altitudeMsl;
          Some(Recovery(altitude, altitude, LaunchDistance(c.snapshot), IndexOf(modes, c.snapshot.mode)))
        else None;
      Execution(t, c.now, c.now, recovery, Remaining(t, c.snapshot), None, modes)
    }

    /** A Task begins now, with nothing reached yet: the order to return or to land measures its progress from here. */
    lemma BeginExactly(t: Task, c: Control)
      requires MayFly(config, t, c)
      ensures var a := Begin(t, c);
              var o := c.snapshot.observation.value;
              && a.task == t && a.startedAt == c.now && a.lastProgressAt == c.now && a.settleSince == None
              && ModesFor(t.command, a.expectedModes)
              && (t.command == Takeoff ==> a.recovery == None && a.bestRemaining == Some(Abs(t.altitude.value - o.altitudeMsl)))
              && (t.command == Goto ==>
                    && a.recovery == None
                    && var d, h := distance(o.latitude, o.longitude, t.latitude.value, t.longitude.value),
                                   Abs(t.altitude.value - o.altitudeMsl);
                       a.bestRemaining == Some(if d < h then h else d))
              && (t.command == ReturnToLaunch || t.command == Land ==>
                    && a.bestRemaining == None && a.recovery.Some?
                    && a.recovery.value.highest == o.altitudeMsl && a.recovery.value.lowest == o.altitudeMsl
                    && a.recovery.value.modeIndex == Phase(t.command, c.snapshot.mode)
                    && (a.recovery.value.closest.Some? <==> c.snapshot.launchPosition.Some?))
    {
      ExpectedAreModes(t.command);
      assert IndexOf(ExpectedModes(t.command), c.snapshot.mode) == Phase(t.command, c.snapshot.mode);
    }

    /**
      The Task is under way exactly when its preconditions held, its start was granted, they held again on the state
      read then, and the order went out; in every other case it is finished and its failure told or kept.
      */
    ghost predicate Adopts(t: Task, seen: Control, current: Option<Control>, ok: bool, before: seq<Act>, done: set<string>,
                           n: nat)
      reads `active, `finished, `log, `pendingReport
    {
      var started := MayFly(config, t, seen) && world.succeeds(n);
      var read := if started then world.control(n + 1) else None;
      var ready := read.Some? && MayFly(config, t, read.value);
      var told := if ok then [Told(Fail(t.id, !started || !ready))] else [];
      && current == read
      && (active.Some? <==> ready && world.succeeds(n + 2))
      && (active.Some? ==> ok && active.value == Begin(t, read.value) && finished == done)
      && (active.None? ==> finished == done + {t.id})
      && (!MayFly(config, t, seen) ==> log == before + told)
      && (MayFly(config, t, seen) && !started ==> !ok && log == before && pendingReport == Some(Fail(t.id, false)))
      && (started && read.None? ==> !ok && log == before + [Started(t.id)])
      && (read.Some? && !ready ==> log == before + [Started(t.id), Saw(read.value)] + told)
      && (ready ==> log == before + [Started(t.id), Saw(read.value), Dispatched(t, read.value, OrderFor(t, read.value.snapshot))]
                           + (if active.None? then told else []))
    }

    /** The order goes out; if it cannot, the Task is over and its failure is told or kept. */
    method Dispatch(t: Task, c: Control) returns (ok: bool)
      requires Valid() && active.None? && t.id !in finished && t.Flight() && MayFly(config, t, c) && !Owes(log)
      requires |log| >= 2 && log[|log| - 1] == Saw(c) && log[|log| - 2] == Started(t.id)
      modifies `active, `finished, `log, `calls, `pendingReport
      ensures Interruptions(log) == Interruptions(old(log))
      ensures Valid()
      ensures if world.succeeds(old(calls)) then
                ok && active == Some(Begin(t, c)) && finished == old(finished) && log == old(log) + [Dispatched(t, c, OrderFor(t, c.snapshot))]
              else
                && active.None? && finished == old(finished) + {t.id}
                && log == old(log) + [Dispatched(t, c, OrderFor(t, c.snapshot))] + (if ok then [Told(Fail(t.id, false))] else [])
    {
      hide Guarded, DispatchedOnce, HoldFirst, ArrivedTruly, Owes, Fresh, MayFly;
      active := Some(Begin(t, c));
      OrderIsMeant(config, t, c);
      ExpectedAreModes(t.command);
      OrderedNext(log, Dispatched(t, c, OrderFor(t, c.snapshot)), t.id);
      DispatchKeeps(log, Dispatched(t, c, OrderFor(t, c.snapshot)), config, distance);
      assert (log + [Dispatched(t, c, OrderFor(t, c.snapshot))])[..|log|] == log;
      log := log + [Dispatched(t, c, OrderFor(t, c.snapshot))];
      ok := Call();
      if !ok {
        var _ := DropActive();
        ok := ReportTerminal(Fail(t.id, false));
      }
    }

    /** The start of a Task whose preconditions hold: granted or not, and checked again on the state read then. */
    method StartTask(t: Task, seen: Control) returns (current: Option<Control>, ok: bool)
      requires Valid() && active.None? && t.id !in finished && t.Flight() && MayFly(config, t, seen) && !Owes(log)
      modifies `active, `finished, `log, `calls, `pendingReport
      ensures Interruptions(log) == Interruptions(old(log))
      ensures Valid() && Adopts(t, seen, current, ok, old(log), old(finished), old(calls))
    {
      hide Guarded, DispatchedOnce, HoldFirst, ArrivedTruly, Owes, Fresh, MayFly, Interruptions, Ordered, ModesFor;
      var started := Call();
      if !started {
        finished := finished + {t.id};
        pendingReport := Some(Fail(t.id, false));
        return None, false;
      }
      Note(Started(t.id));
      current := ReadControl();
      if current.None? {
        finished := finished + {t.id};
        return None, false;
      }
      var c := current.value;
      if !MayFly(config, t, c) {
        finished := finished + {t.id};
        ok := ReportTerminal(Fail(t.id, true));
        return;
      }
      ok := Dispatch(t, c);
    }

    /** `adoptNext`: the first actionable Task is started, checked again and dispatched. */
    method AdoptNext(tasks: seq<Task>, seen: Control) returns (current: Option<Control>, ok: bool)
      requires Valid() && active.None? && !reholdOnGuided && !holdRequired
      modifies `active, `finished, `log, `calls, `pendingReport
      ensures Interruptions(log) == Interruptions(old(log))
      ensures Valid() && old(finished) <= finished && DispatchesOne(tasks, old(finished), old(log), log)
      ensures Candidate(tasks, old(finished)).None? ==>
                current.None? && ok && active.None? && log == old(log) && finished == old(finished)
                && pendingReport == old(pendingReport)
      ensures Candidate(tasks, old(finished)).Some? ==>
                Adopts(Candidate(tasks, old(finished)).value, seen, current, ok, old(log), old(finished), old(calls))
    {
      hide Guarded, DispatchedOnce, HoldFirst, ArrivedTruly, Owes, Fresh, MayFly, Candidate, DispatchesOne, Adopts;
      CandidateIs(tasks, finished);
      var candidate := FirstActionable(tasks, finished);
      QuietlyBy(log, []);
      assert log + [] == log;
      NothingDispatched(tasks, finished, log, log);
      if candidate.None? { return None, true; }
      var t := candidate.value;
      if !MayFly(config, t, seen) {
        finished := finished + {t.id};
        ok := ReportTerminal(Fail(t.id, true));
        current := None;
        RefusedAdopts(t, seen, ok, old(log), old(finished), old(calls));
      } else {
        current, ok := StartTask(t, seen);
      }
      AdoptsOne(tasks, t, seen, current, ok, old(log), old(finished), old(calls));
    }

    lemma RefusedAdopts(t: Task, seen: Control, ok: bool, before: seq<Act>, done: set<string>, n: nat)
      requires !MayFly(config, t, seen) && active.None? && finished == done + {t.id}
      requires log == if ok then before + [Told(Fail(t.id, true))] else before
      ensures Adopts(t, seen, None, ok, before, done, n)
    {
      hide MayFly;
      assert before + [] == before;
    }

    lemma AdoptsOne(tasks: seq<Task>, t: Task, seen: Control, current: Option<Control>, ok: bool, before: seq<Act>,
                    done: set<string>, n: nat)
      requires Adopts(t, seen, current, ok, before, done, n) && t in tasks && t.id !in done
      ensures DispatchesOne(tasks, done, before, log) && done <= finished
    {
      hide MayFly, DispatchesOne, Quietly;
      var told := if ok then [Told(Fail(t.id, !(MayFly(config, t, seen) && world.succeeds(n)) || !(current.Some? && MayFly(config, t, current.value))))]
                  else [];
      if current.Some? && MayFly(config, t, current.value) {
        var c := current.value;
        var last := if active.None? then told else [];
        OneBy(tasks, done, before, [Started(t.id), Saw(c)], t, c, last);
        assert [Started(t.id), Saw(c)] + [Dispatched(t, c, OrderFor(t, c.snapshot))] + last == [Started(t.id), Saw(c), Dispatched(t, c, OrderFor(t, c.snapshot))] + last;
        assert before + ([Started(t.id), Saw(c), Dispatched(t, c, OrderFor(t, c.snapshot))] + last) == log;
      } else {
        var news := log[|before|..];
        assert log == before + news;
        QuietlyBy(before, news);
        NothingDispatched(tasks, done, before, log);
      }
    }

    /** What goes out to a failed Task's aircraft. */
    function Correction(t: Task, c: Control): seq<Act> {
      if !Correctable(c) then []
      else if t.command.Goto? then if Holdable(c) then [Held(c.snapshot.observation.value)] else []
      else if t.command.Takeoff? && Airborne(c) then [LandSent(t.id)]
      else []
    }

    /** A failed go-to holds where it is and a failed takeoff lands, armed in guided mode and heard of; nothing else is sent. */
    lemma CorrectionExactly(t: Task, c: Control)
      ensures var safe := c.snapshot.guided && c.snapshot.armed && Heard(c);
              Correction(t, c) ==
              if safe && t.command == Goto then [Held(c.snapshot.observation.value)]
              else if safe && t.command == Takeoff && !Within(c.snapshot.observation.value.relativeAltitude, 0.5)
              then [LandSent(t.id)] else []
    {
    }

    /** The Task is over; its correction goes out, then its failure is told; what could not be told is kept. */
    ghost predicate FailsActive(t: Task, c: Control, ok: bool, before: seq<Act>, done: set<string>, n: nat)
      reads `active, `finished, `log, `pendingReport
    {
      var correction := Correction(t, c);
      var corrected := correction == [] || world.succeeds(n);
      && active.None? && finished == done + {t.id}
      && ok == (corrected && world.succeeds(n + |correction|))
      && log == before + (if corrected then correction else []) + (if ok then [Told(Fail(t.id, false))] else [])
      && pendingReport == (if ok then None else Some(Fail(t.id, false)))
    }

    /** The correction of a failed Task goes out; false when it was due and could not be sent. */
    method Correct(t: Task, c: Control) returns (ok: bool)
      requires Valid()
      modifies `log, `calls
      ensures Interruptions(log) == Interruptions(old(log))
      ensures Valid() && ok == (Correction(t, c) == [] || world.succeeds(old(calls)))
      ensures calls == old(calls) + |Correction(t, c)| && log == old(log) + (if ok then Correction(t, c) else [])
    {
      hide Guarded, DispatchedOnce, HoldFirst, ArrivedTruly, Fresh, Owes;
      ok := true;
      if (t.command.Goto? || t.command.Takeoff?) && c.snapshot.guided && c.snapshot.armed && Fresh(c) {
        if t.command.Goto? {
          var held;
          held, ok := EstablishHold(c);
        } else if c.snapshot.observation.Some? && Abs(c.snapshot.observation.value.relativeAltitude) > 0.5 {
          ok := Call();
          if ok { Note(LandSent(t.id)); }
        }
      }
    }

    /** `failActive`: a failed go-to holds and a failed takeoff lands, while that is safe. */
    method FailActive(c: Control) returns (ok: bool)
      requires Valid() && active.Some?
      modifies `active, `finished, `log, `calls, `pendingReport
      ensures Interruptions(log) == Interruptions(old(log))
      ensures Valid() && FailsActive(old(active).value.task, c, ok, old(log), old(finished), old(calls))
      ensures Quietly(old(log), log) && old(finished) <= finished
    {
      hide Guarded, DispatchedOnce, HoldFirst, ArrivedTruly, Fresh, Owes, Correction, Quietly, Interruptions, Ordered, ModesFor;
      var t := DropActive();
      pendingReport := Some(Fail(t.id, false));
      ok := Correct(t, c);
      CorrectionQuiet(t, c);
      if !ok {
        QuietlyBy(old(log), []);
        return;
      }
      ghost var corrected := log;
      ok := FlushReport();
      QuietlyBy(old(log), Correction(t, c));
      QuietlyBy(corrected, [Told(Fail(t.id, false))]);
      QuietlyBy(corrected, []);
      assert corrected + [] == corrected;
      QuietlyThrough(old(log), corrected, log);
    }

    lemma CorrectionQuiet(t: Task, c: Control)
      ensures forall a <- Correction(t, c) :: !a.Dispatched?
    {
      hide Fresh;
    }

    /** `recoveryProgressed` */
    method RecoveryProgressed(c: Control) returns (progressed: bool)
      requires Valid() && active.Some?
      modifies `active
      ensures Valid()
      ensures var a := old(active).value;
              if a.recovery.None? || c.snapshot.observation.None? then !progressed && active == old(active)
              else
                (active, progressed) ==
                (var (next, moved) := Recovered(a.recovery.value, a.task.command.ReturnToLaunch?,
                                                IndexOf(a.expectedModes, c.snapshot.mode),
                                                c.snapshot.observation.value.altitudeMsl, LaunchDistance(c.snapshot));
                 (Some(a.(recovery := Some(next))), moved))
    {
      hide Guarded, DispatchedOnce, HoldFirst, ArrivedTruly, Recovered;
      var a := active.value;
      if a.recovery.None? || c.snapshot.observation.None? { return false; }
      var (next, moved) := Recovered(a.recovery.value, a.task.command.ReturnToLaunch?,
                                     IndexOf(a.expectedModes, c.snapshot.mode),
                                     c.snapshot.observation.value.altitudeMsl, LaunchDistance(c.snapshot));
      active := Some(a.(recovery := Some(next)));
      return moved;
    }

    /** `isComplete`: takeoff must also hover in place for a while. */
    method IsComplete(c: Control) returns (complete: bool)
      requires Valid() && active.Some?
      modifies `active
      ensures Valid() && active.Some? && (active.value, complete) == Settling(old(active).value, c)
    {
      hide Guarded, DispatchedOnce, HoldFirst, ArrivedTruly, Fresh, AtGoal;
      if !Fresh(c) { return false; }
      var t := active.value.task;
      if t.command.Takeoff? {
        if t.altitude.None? { return false; }
        if !AtGoal(config, distance, t, c) {
          active := Some(active.value.(settleSince := None));
          return false;
        }
        if active.value.settleSince.None? { active := Some(active.value.(settleSince := Some(c.now))); }
        return c.now - active.value.settleSince.value >= config.settleMs;
      }
      return AtGoal(config, distance, t, c);
    }

    /** The first half of `advance`: the best values so far, and whether the Task came nearer. */
    method NoteProgress(c: Control) returns (progressed: bool)
      requires Valid() && active.Some?
      modifies `active
      ensures Valid() && active.Some? && progressed == Bettered(old(active).value, c).Some?
      ensures active == if progressed then Bettered(old(active).value, c) else old(active)
    {
      hide Guarded, DispatchedOnce, HoldFirst, ArrivedTruly, Fresh, Remaining, LaunchDistance, Recovered;
      var a := active.value;
      var remaining := Remaining(a.task, c.snapshot);
      if !Fresh(c) { return false; }
      progressed := remaining.Some? && (a.bestRemaining.None? || remaining.value < a.bestRemaining.value);
      if !progressed {
        if a.recovery.Some? && c.snapshot.observation.Some? {
          ProgressIsNewBest(a.recovery.value, a.task.command.ReturnToLaunch?, IndexOf(a.expectedModes, c.snapshot.mode),
                            c.snapshot.observation.value.altitudeMsl, LaunchDistance(c.snapshot));
        }
        progressed := RecoveryProgressed(c);
      }
      if progressed {
        var best := if remaining.Some? then remaining else active.value.bestRemaining;
        active := Some(active.value.(bestRemaining := best, lastProgressAt := c.now));
      }
    }

    /** `advance`: the active Task fails, arrives or goes on, as judged. */
    method Advance(c: Control) returns (ok: bool)
      requires Valid()
      modifies `active, `finished, `log, `calls, `pendingReport
      ensures Interruptions(log) == Interruptions(old(log))
      ensures Valid() && Quietly(old(log), log) && old(finished) <= finished
      ensures old(active).None? ==>
                ok && active.None? && log == old(log) && finished == old(finished) && pendingReport == old(pendingReport)
      ensures old(active).Some? ==>
                match Judge(old(active).value, c)
                case Fails => FailsActive(old(active).value.task, c, ok, old(log), old(finished), old(calls))
                case GoesOn(next) =>
                  ok && active == Some(next) && log == old(log) && finished == old(finished)
                  && pendingReport == old(pendingReport)
                case Arrives(at) =>
                  && active.None? && finished == old(finished) + {at.task.id} && ok == world.succeeds(old(calls))
                  && log == old(log) + [Arrived(at.task, c)] + (if ok then [Told(Complete(at.task.id))] else [])
                  && pendingReport == if ok then None else Some(Complete(at.task.id))
    {
      hide Guarded, DispatchedOnce, HoldFirst, ArrivedTruly, Bettered, Settling, FailsActive, Owes;
      QuietlyBy(log, []);
      assert log + [] == log;
      if active.None? { return true; }
      JudgeMeans(active.value, c);
      if c.now - active.value.startedAt > config.taskTimeoutMs {
        ok := FailActive(c);
        return;
      }
      ghost var a := active.value;
      var progressed := NoteProgress(c);
      BetteredKeeps(a, c);
      if !progressed && c.now - active.value.lastProgressAt > config.progressTimeoutMs {
        ok := FailActive(c);
        return;
      }
      var complete := IsComplete(c);
      if complete {
        ok := Arrive(c);
        return;
      }
      return true;
    }

    /** The end of `advance` for a Task that reached its goal. */
    method Arrive(c: Control) returns (ok: bool)
      requires Valid() && active.Some? && AtGoal(config, distance, active.value.task, c)
      modifies `active, `finished, `log, `calls, `pendingReport
      ensures Interruptions(log) == Interruptions(old(log))
      ensures Valid() && active.None? && Quietly(old(log), log)
      ensures var t := old(active).value.task;
              && finished == old(finished) + {t.id} && ok == world.succeeds(old(calls))
              && log == old(log) + [Arrived(t, c)] + (if ok then [Told(Complete(t.id))] else [])
              && pendingReport == if ok then None else Some(Complete(t.id))
    {
      hide Guarded, DispatchedOnce, HoldFirst, ArrivedTruly, AtGoal, Owes;
      ArriveKeeps(log, Arrived(active.value.task, c), config, distance);
      assert (log + [Arrived(active.value.task, c)])[..|log|] == log;
      OrderedNext(log, Arrived(active.value.task, c), active.value.task.id);
      log := log + [Arrived(active.value.task, c)];
      var t := DropActive();
      ghost var arrived := log;
      ok := ReportTerminal(Complete(t.id));
      QuietlyBy(old(log), [Arrived(t, c)]);
      QuietlyBy(arrived, [Told(Complete(t.id))]);
      QuietlyBy(arrived, []);
      assert arrived + [] == arrived;
      QuietlyThrough(old(log), arrived, log);
    }

    /** After a takeover: back in guided mode a hold comes before anything else; until then every Task is refused. */
    method HoldAgain(tasks: seq<Task>, seen: Control) returns (current: Option<Control>, ok: bool)
      requires Valid() && reholdOnGuided
      modifies `finished, `calls, `log, `pendingReport, `reholdOnGuided
      ensures Interruptions(log) == Interruptions(old(log))
      ensures Valid() && Quietly(old(log), log) && old(finished) <= finished && (current.None? <==> reholdOnGuided)
      ensures current.Some? ==> ok && Holdable(seen) && log == old(log) + [Held(seen.snapshot.observation.value), Saw(current.value)]
      ensures !seen.snapshot.guided ==> current.None? && (ok ==> finished == old(finished) + RefusableIds(tasks, false))
    {
      hide Guarded, DispatchedOnce, HoldFirst, ArrivedTruly, Known, Owes, Fresh, MayFly, RefusableIds, Interruptions, Ordered, ModesFor;
      current := None;
      if !seen.snapshot.guided {
        ok := RejectAll(tasks, false);
        return;
      }
      var held;
      held, ok := EstablishHold(seen);
      if !held { return; }
      current := ReadControl();
      if current.None? { return None, false; }
      reholdOnGuided := false;
    }

    /** After a requested go-to cancellation: a hold on the state read now, and the state read after it. */
    method HoldFirstly() returns (current: Option<Control>, ok: bool)
      requires Valid() && holdRequired
      modifies `calls, `log, `holdRequired
      ensures Interruptions(log) == Interruptions(old(log))
      ensures Valid() && Quietly(old(log), log) && (current.None? <==> holdRequired)
      ensures current.Some? ==>
                ok && exists c :: Holdable(c) && log == old(log) + [Saw(c), Held(c.snapshot.observation.value), Saw(current.value)]
    {
      hide Guarded, DispatchedOnce, HoldFirst, ArrivedTruly, Known, Owes, Fresh, MayFly, Interruptions, Ordered, ModesFor;
      var read := ReadControl();
      if read.None? { return None, false; }
      var held;
      held, ok := EstablishHold(read.value);
      if !held { return None, ok; }
      current := ReadControl();
      if current.None? { return None, false; }
      holdRequired := false;
    }

    /**
      `ingest`: one tick; false when a callback or send failed and the error was passed on.  Terminal Tasks are
      finished, nothing finished is forgotten, and at most one Task of the list, not finished before, is dispatched.  The
      Task under way is interrupted exactly if the pilot took the aircraft from it.
      */
    method Ingest(tasks: seq<Task>, seen: Control) returns (ok: bool)
      requires Valid()
      modifies this
      ensures Interruptions(log) == Interruptions(old(log)) + if old(TakenNow(tasks, seen.snapshot)) then 1 else 0
      ensures old(active).Some? && old(TakenNow(tasks, seen.snapshot)) ==> old(active).value.task.id in finished
      ensures Valid() && old(finished) + TerminalIds(tasks) <= finished
      ensures DispatchesOne(tasks, old(finished), old(log), log)
      ensures old(reholdOnGuided) && !seen.snapshot.guided ==> reholdOnGuided && Quietly(old(log), log)
      ensures old(reholdOnGuided) && !seen.snapshot.guided && ok ==> RefusableIds(tasks, false) <= finished
    {
      hide Guarded, DispatchedOnce, HoldFirst, ArrivedTruly, Known, Owes, Fresh, MayFly, Quietly, DispatchesOne,
           TerminalIds, RefusableIds, Adopts, FailsActive;
      var current, go;
      current, go, ok := BeforeAdoption(tasks, seen);
      ghost var prepared, done := log, finished;
      NothingDispatched(tasks, old(finished), old(log), log);
      if !go { return; }
      if active.None? {
        var adopted;
        adopted, ok := AdoptNext(tasks, current);
        FewerDone(tasks, old(finished), done, prepared, log);
        OneAfterQuiet(tasks, old(finished), old(log), prepared, log);
        if !ok { return; }
        if adopted.Some? { current := adopted.value; }
      }
      ghost var adoptedLog := log;
      ok := Advance(current);
      QuietAfterOne(tasks, old(finished), old(log), adoptedLog, log);
    }

    /** The part of `ingest` before a Task may be adopted; `go` says that nothing stands in the way. */
    method BeforeAdoption(tasks: seq<Task>, seen: Control) returns (current: Control, go: bool, ok: bool)
      requires Valid()
      modifies this
      ensures Interruptions(log) == Interruptions(old(log)) + if old(TakenNow(tasks, seen.snapshot)) then 1 else 0
      ensures old(active).Some? && old(TakenNow(tasks, seen.snapshot)) ==> old(active).value.task.id in finished
      ensures Valid() && Quietly(old(log), log) && old(finished) + TerminalIds(tasks) <= finished
      ensures go ==> ok && !reholdOnGuided && !holdRequired
      ensures old(reholdOnGuided) && !seen.snapshot.guided ==> !go && reholdOnGuided
      ensures old(reholdOnGuided) && !seen.snapshot.guided && ok ==> RefusableIds(tasks, false) <= finished
    {
      hide Guarded, DispatchedOnce, HoldFirst, ArrivedTruly, Known, Owes, Fresh, MayFly, Quietly, TerminalIds,
           RefusableIds, Reconciled, GotoCalledOff, ReportAfter, Interruptions, Ordered, ModesFor;
      current, go := seen, false;
      ok := ReconcileAndObserve(tasks, seen.snapshot);
      if !ok { return; }
      ghost var observed := log;
      if reholdOnGuided {
        var again;
        again, ok := HoldAgain(tasks, seen);
        QuietlyThrough(old(log), observed, log);
        if again.None? { return; }
        current := again.value;
      }
      ghost var held := log;
      if active.Some? && active.value.task.command.Takeoff? {
        ok := RejectAll(tasks, true);
        QuietlyThrough(old(log), held, log);
        if !ok { return; }
      }
      ghost var refused := log;
      if holdRequired {
        var next;
        next, ok := HoldFirstly();
        QuietlyThrough(old(log), refused, log);
        if next.None? { return; }
        current := next.value;
      }
      go := true;
    }

    /** What the list and the mode say, before anything is sent. */
    method ReconcileAndObserve(tasks: seq<Task>, s: Snapshot) returns (ok: bool)
      requires Valid()
      modifies this
      ensures Interruptions(log) == Interruptions(old(log)) + if old(TakenNow(tasks, s)) then 1 else 0
      ensures old(active).Some? && old(TakenNow(tasks, s)) ==> old(active).value.task.id in finished
      ensures Valid() && Quietly(old(log), log) && old(finished) + TerminalIds(tasks) <= finished
      ensures old(reholdOnGuided) ==> reholdOnGuided
    {
      hide Guarded, DispatchedOnce, HoldFirst, ArrivedTruly, Known, Owes, TerminalIds, Reconciled, GotoCalledOff,
           ReportAfter, Quietly;
      ReconciledSame(active, tasks);
      Reconcile(tasks);
      ghost var reconciled := log;
      QuietlyBy(old(log), []);
      QuietlyBy(old(log), [GotoCancelled]);
      assert old(log) + [] == old(log);
      ok := FlushAndObserve(s);
      QuietlyThrough(old(log), reconciled, log);
    }

    /** A report that is still owed comes first, then what the new mode means. */
    method FlushAndObserve(s: Snapshot) returns (ok: bool)
      requires Valid()
      modifies this
      ensures Interruptions(log) == Interruptions(old(log)) + if old(TakenAfterReport(pendingReport, active, s)) then 1 else 0
      ensures old(active).Some? && old(TakenAfterReport(pendingReport, active, s)) ==> old(active).value.task.id in finished
      ensures Valid() && Quietly(old(log), log) && old(finished) <= finished
      ensures old(reholdOnGuided) ==> reholdOnGuided
    {
      hide Guarded, DispatchedOnce, HoldFirst, ArrivedTruly, Known, Owes, Quietly;
      QuietlyBy(log, []);
      assert log + [] == log;
      if pendingReport.Some? {
        ghost var report := pendingReport.value;
        ok := FlushReport();
        QuietlyBy(old(log), [Told(report)]);
        if !ok { return; }
      }
      ghost var flushed := log;
      ok := Observed(s);
      QuietlyThrough(old(log), flushed, log);
    }

    method Observed(s: Snapshot) returns (ok: bool)
      requires Valid()
      modifies `lastMode, `active, `finished, `reholdOnGuided, `log, `calls, `pendingReport
      ensures Interruptions(log) == Interruptions(old(log)) + if Taken(old(log), old(active), old(lastMode), s) then 1 else 0
      ensures old(active).Some? && Taken(old(log), old(active), old(lastMode), s) ==> old(active).value.task.id in finished
      ensures Valid() && Quietly(old(log), log) && old(finished) <= finished
      ensures old(reholdOnGuided) ==> reholdOnGuided
    {
      hide Guarded, DispatchedOnce, HoldFirst, ArrivedTruly, Known, Owes, Quietly;
      QuietlyBy(log, []);
      assert log + [] == log;
      ghost var was := active;
      ok := ObserveMode(s);
      if was.Some? {
        var news := [Interrupted] + (if ok then [Told(Fail(was.value.task.id, false))] else []);
        QuietlyBy(old(log), news);
        assert old(log) + [Interrupted] + (if ok then [Told(Fail(was.value.task.id, false))] else []) == old(log) + news;
      }
    }

    // ----- what the log shows after any number of ticks -----------------------------------------------

    /** Each Task is dispatched at most once. */
    lemma AtMostOnce(i: nat, j: nat)
      requires Valid() && i < j < |log| && log[i].Dispatched? && log[j].Dispatched?
      ensures log[i].task.id != log[j].task.id
    {
    }

    /** A dispatch comes right after the start was granted and a state was read that meets the preconditions. */
    lemma DispatchIsSafe(j: nat)
      requires Valid() && j < |log| && log[j].Dispatched?
      ensures 2 <= j && log[j - 2] == Started(log[j].task.id) && log[j - 1] == Saw(log[j].control)
      ensures Ready(config, log[j].task, log[j].control)
      ensures match log[j].task.command
              case Takeoff =>
                log[j].order == Some(TakeoffTo(log[j].task.altitude.value - log[j].control.snapshot.launchElevation.value))
              case Goto =>
                log[j].order == Some(FlyTo(log[j].task.latitude.value, log[j].task.longitude.value, log[j].task.altitude.value))
              case ReturnToLaunch => log[j].order == Some(Rtl)
              case Land => log[j].order == Some(LandHere)
              case NotFlight => false
    {
      ReadyExactly(config, log[j].task, log[j].control);
    }

    /** The modes expected of the aircraft are those in which the command it was sent flies it. */
    lemma ExpectedByName(mode: string)
      requires Valid() && active.Some?
      ensures var c := Ordered(log, active.value.task.id);
              c.Some? && (mode in active.value.expectedModes <==> Phase(c.value, mode) >= 0)
    {
      var c := Ordered(log, active.value.task.id).value;
      IndexOfMember(active.value.expectedModes, mode);
      assert IndexOf(active.value.expectedModes, mode) == Phase(c, mode);
    }

    /** Between a takeover or requested go-to cancellation and the next dispatch a hold was sent. */
    lemma HoldComesFirst(i: nat, j: nat)
      requires Valid() && i < j < |log| && Breaks(log[i]) && log[j].Dispatched?
      ensures exists k :: i < k < j && log[k].Held?
    {
      var before := log[..j];
      OwesExactly(before);
      assert before[i] == log[i];
      assert exists k :: i < k < |before| && before[k].Held?;
    }
  }

  lemma NoteKeeps(log: seq<Act>, a: Act, config: Config, distance: (real, real, real, real) -> real)
    requires Guarded(log, config) && DispatchedOnce(log) && HoldFirst(log) && ArrivedTruly(log, config, distance)
    requires !a.Dispatched? && !a.Arrived?
    ensures var n := log + [a];
            Guarded(n, config) && DispatchedOnce(n) && HoldFirst(n) && ArrivedTruly(n, config, distance)
    ensures Owes(log + [a]) == if a.Held? then false else if Breaks(a) then true else Owes(log)
  {
    hide Guarded, DispatchedOnce, HoldFirst, ArrivedTruly;
    assert (log + [a])[..|log|] == log;
    NoteGuarded(log, a, config, distance);
    NoteHold(log, a);
  }

  lemma NoteGuarded(log: seq<Act>, a: Act, config: Config, distance: (real, real, real, real) -> real)
    requires Guarded(log, config) && DispatchedOnce(log) && ArrivedTruly(log, config, distance)
    requires !a.Dispatched? && !a.Arrived?
    ensures var n := log + [a]; Guarded(n, config) && DispatchedOnce(n) && ArrivedTruly(n, config, distance)
  {
    hide MayFly, AtGoal;
  }

  lemma NoteHold(log: seq<Act>, a: Act)
    requires HoldFirst(log) && !a.Dispatched?
    ensures HoldFirst(log + [a])
  {
    hide Owes;
    assert forall j :: 0 <= j <= |log| ==> (log + [a])[..j] == log[..j];
  }

  lemma DispatchGuarded(log: seq<Act>, a: Act, config: Config)
    requires Guarded(log, config) && a.Dispatched? && a.task.Flight() && MayFly(config, a.task, a.control)
    requires Carries(a.task, a.control.snapshot, a.order)
    requires |log| >= 2 && log[|log| - 1] == Saw(a.control) && log[|log| - 2] == Started(a.task.id)
    ensures Guarded(log + [a], config)
  {
    hide MayFly;
    var n := log + [a];
    forall j | 0 <= j < |n| && n[j].Dispatched?
      ensures 2 <= j && n[j - 1] == Saw(n[j].control) && n[j - 2] == Started(n[j].task.id)
      ensures n[j].task.Flight() && MayFly(config, n[j].task, n[j].control)
      ensures Carries(n[j].task, n[j].control.snapshot, n[j].order)
    {
      if j < |log| {
        assert n[j] == log[j] && log[j].Dispatched?;
      }
    }
  }

  lemma DispatchHeld(log: seq<Act>, a: Act)
    requires HoldFirst(log) && !Owes(log) && a.Dispatched?
    ensures HoldFirst(log + [a]) && !Owes(log + [a])
  {
    var n := log + [a];
    assert n[..|log|] == log && log[..|log|] == log;
    forall j | 0 <= j < |n| && n[j].Dispatched?
      ensures !Owes(n[..j])
    {
      assert n[..j] == log[..j];
    }
  }

  lemma DispatchKeeps(log: seq<Act>, a: Act, config: Config, distance: (real, real, real, real) -> real)
    requires Guarded(log, config) && DispatchedOnce(log) && HoldFirst(log) && ArrivedTruly(log, config, distance)
    requires a.Dispatched? && a.task.Flight() && MayFly(config, a.task, a.control) && !Owes(log)
    requires Carries(a.task, a.control.snapshot, a.order)
    requires |log| >= 2 && log[|log| - 1] == Saw(a.control) && log[|log| - 2] == Started(a.task.id)
    requires forall j :: 0 <= j < |log| && log[j].Dispatched? ==> log[j].task.id != a.task.id
    ensures var n := log + [a];
            Guarded(n, config) && DispatchedOnce(n) && HoldFirst(n) && ArrivedTruly(n, config, distance) && !Owes(n)
  {
    hide MayFly, AtGoal, Guarded, HoldFirst, Owes;
    DispatchGuarded(log, a, config);
    DispatchHeld(log, a);
  }

  lemma ArriveKeeps(log: seq<Act>, a: Act, config: Config, distance: (real, real, real, real) -> real)
    requires Guarded(log, config) && DispatchedOnce(log) && HoldFirst(log) && ArrivedTruly(log, config, distance)
    requires a.Arrived? && AtGoal(config, distance, a.task, a.control)
    ensures var n := log + [a];
            Guarded(n, config) && DispatchedOnce(n) && HoldFirst(n) && ArrivedTruly(n, config, distance) && Owes(n) == Owes(log)
  {
    hide Guarded, DispatchedOnce, HoldFirst, ArrivedTruly, AtGoal;
    assert (log + [a])[..|log|] == log;
    ArriveGuarded(log, a, config);
    ArrivedMore(log, a, config, distance);
    NoteHold(log, a);
  }

  lemma ArriveGuarded(log: seq<Act>, a: Act, config: Config)
    requires Guarded(log, config) && DispatchedOnce(log) && a.Arrived?
    ensures Guarded(log + [a], config) && DispatchedOnce(log + [a])
  {
    hide MayFly, Carries;
  }

  lemma ArrivedMore(log: seq<Act>, a: Act, config: Config, distance: (real, real, real, real) -> real)
    requires ArrivedTruly(log, config, distance) && a.Arrived? && AtGoal(config, distance, a.task, a.control)
    ensures ArrivedTruly(log + [a], config, distance)
  {
    hide AtGoal;
  }
}
