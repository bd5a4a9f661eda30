/** `QuicServer.listen` and `close` racing each other: every stretch of code between two
    awaits is one step, and steps of the startup and of the close tasks interleave freely. */
module QuicServerRace {
  import opened Common

  /** `Broken`: its own `close()` was rejected. */
  datatype Status = Open | Closed | Broken

  /** An event loop and the generation of the startup that created it. */
  datatype Loop = Loop(generation: nat, status: Status)

  /** Where `_startListening` is. */
  datatype Stage =
    | Creating
    | Created(loop: nat)
    | Discarding(loop: nat)
    | Published
    | Settled

  datatype Startup = Startup(generation: nat, stage: Stage)

  /** Where a `close()` task is. `Waiting` holds the startup it awaits, `Ending` comes before
      its `finally`. */
  datatype Phase =
    | Waiting(on: Option<nat>)
    | Closing(loop: nat)
    | Ending(resolved: bool)
    | Done(resolved: bool)

  datatype Task = Task(generation: nat, phase: Phase)

  /** The fields of the server, and every loop and close task there ever was. `closePromise`
      is an index into `tasks`. */
  datatype Server = Server(
    generation: nat, startup: Option<Startup>, eventLoop: Option<nat>, closing: bool,
    closePromise: Option<nat>, loops: seq<Loop>, tasks: seq<Task>)

  const FRESH := Server(0, None, None, false, None, [], [])

  datatype Step =
    | Listen
    | Create            // the factory has bound a loop
    | CreateFails       // and the runtime selection tries no other mode
    | Check             // first generation test: publish or discard
    | Discarded(ok: bool)
    | Confirm           // second generation test, 'listening', return
    | Clear             // `finally` of listen
    | Close
    | Proceed(task: nat)
    | LoopClosed(task: nat, ok: bool)
    | Finally(task: nat)

  predicate AtStage(s: Server, stage: Stage) {
    s.startup.Some? && s.startup.value.stage == stage
  }

  predicate StartupSettled(s: Server, on: Option<nat>) {
    on.None? || s.startup.None? || s.startup.value.generation != on.value || s.startup.value.stage.Settled?
  }

  predicate Enabled(s: Server, step: Step) {
    match step
    case Listen => s.startup.None? && s.eventLoop.None? && !s.closing
    case Create => AtStage(s, Creating)
    case CreateFails => AtStage(s, Creating)
    case Check => s.startup.Some? && s.startup.value.stage.Created?
    case Discarded(_) => s.startup.Some? && s.startup.value.stage.Discarding?
    case Confirm => AtStage(s, Published)
    case Clear => AtStage(s, Settled)
    case Close => true
    case Proceed(i) => i < |s.tasks| && s.tasks[i].phase.Waiting? && StartupSettled(s, s.tasks[i].phase.on)
    case LoopClosed(i, _) => i < |s.tasks| && s.tasks[i].phase.Closing?
    case Finally(i) => i < |s.tasks| && s.tasks[i].phase.Ending?
  }

  function WithStage(s: Server, stage: Stage): Server
    requires s.startup.Some?
  {
    s.(startup := Some(s.startup.value.(stage := stage)))
  }

  function WithPhase(s: Server, i: nat, phase: Phase): Server
    requires i < |s.tasks|
  {
    s.(tasks := s.tasks[i := s.tasks[i].(phase := phase)])
  }

  function WithStatus(s: Server, l: nat, ok: bool): Server {
    if l < |s.loops| then s.(loops := s.loops[l := s.loops[l].(status := if ok then Closed else Broken)]) else s
  }

  function Next(s: Server, step: Step): Server
    requires Enabled(s, step)
  {
    match step
    case Listen =>
      s.(closePromise := None, generation := s.generation + 1, startup := Some(Startup(s.generation + 1, Creating)))
    case Create =>
      WithStage(s, Created(|s.loops|)).(loops := s.loops + [Loop(s.startup.value.generation, Open)])
    case CreateFails => WithStage(s, Settled)
    case Check =>
      var l := s.startup.value.stage.loop;
      if s.startup.value.generation != s.generation then WithStage(s, Discarding(l))
      else WithStage(s, Published).(eventLoop := Some(l))
    case Discarded(ok) => WithStatus(WithStage(s, Settled), s.startup.value.stage.loop, ok)
    case Confirm => WithStage(s, Settled)
    case Clear => s.(startup := None)
    case Close =>
      if s.closePromise.Some? then s
      else
        var on := if s.startup.Some? then Some(s.startup.value.generation) else None;
        s.(closing := true, generation := s.generation + 1, closePromise := Some(|s.tasks|),
           tasks := s.tasks + [Task(s.generation + 1, Waiting(on))])
    case Proceed(i) =>
      if s.eventLoop.Some? then WithPhase(s, i, Closing(s.eventLoop.value)).(eventLoop := None)
      else WithPhase(s, i, Ending(true)).(closing := false)
    case LoopClosed(i, ok) =>
      var t := WithStatus(WithPhase(s, i, Ending(ok)), s.tasks[i].phase.loop, ok);
      if ok then t.(closing := false) else t
    case Finally(i) =>
      var t := WithPhase(s, i, Done(s.tasks[i].phase.resolved));
      if s.tasks[i].generation == s.generation then t.(closing := false) else t
  }

  // ----- the invariant -----

  /** A close task that still keeps the server closing. */
  predicate Active(p: Phase) {
    p.Waiting? || p.Closing? || p == Ending(false)
  }

  predicate Resolved(p: Phase) {
    p == Ending(true) || p == Done(true)
  }

  predicate Unsettled(s: Server) {
    s.startup.Some? && !s.startup.value.stage.Settled?
  }

  function HeldByStartup(s: Server): Option<nat> {
    if s.startup.None? then None
    else match s.startup.value.stage
      case Created(l) => Some(l)
      case Discarding(l) => Some(l)
      case _ => None
  }

  /** The phase of the task that `close()` would return now. */
  function Current(s: Server): Option<Phase> {
    if s.closePromise.Some? && s.closePromise.value < |s.tasks| then Some(s.tasks[s.closePromise.value].phase) else None
  }

  function HeldByTask(s: Server): Option<nat> {
    if Current(s).Some? && Current(s).value.Closing? then Some(Current(s).value.loop) else None
  }

  /** The one owner of a live loop: the server, its startup, or its close task. */
  function Holder(s: Server): Option<nat> {
    if s.eventLoop.Some? then s.eventLoop
    else if HeldByStartup(s).Some? then HeldByStartup(s)
    else HeldByTask(s)
  }

  /** At most one close task is active; it is the current one, and `_closing` says so. */
  ghost predicate TasksOk(s: Server) {
    && (s.closePromise.Some? ==> s.closePromise.value < |s.tasks|)
    && (s.closing <==> Current(s).Some? && Active(Current(s).value))
    && (forall i :: 0 <= i < |s.tasks| ==> s.tasks[i].generation <= s.generation)
    && (forall i :: 0 <= i < |s.tasks| && s.tasks[i].generation == s.generation ==> s.closePromise == Some(i))
    && (forall i :: 0 <= i < |s.tasks| && Active(s.tasks[i].phase) ==> s.tasks[i].generation == s.generation)
  }

  /** A close task awaits the startup it overlaps, and has the loop to itself afterwards. */
  ghost predicate StartupOk(s: Server) {
    && (s.startup.Some? ==> s.startup.value.generation <= s.generation)
    && (HeldByStartup(s).Some? || AtStage(s, Creating) ==> s.eventLoop.None?)
    && (s.startup.Some? && Current(s).Some? && Current(s).value.Waiting? ==>
          Current(s).value.on == Some(s.startup.value.generation))
    && (Current(s).Some? && !Current(s).value.Waiting? ==> s.eventLoop.None? && !Unsettled(s))
  }

  ghost predicate LoopsOk(s: Server) {
    && (Holder(s).Some? ==> Holder(s).value < |s.loops|)
    && (forall l :: 0 <= l < |s.loops| ==> (s.loops[l].status.Open? <==> Holder(s) == Some(l)))
    && (forall l :: 0 <= l < |s.loops| ==> s.loops[l].generation <= s.generation)
  }

  /** Whatever is open, or still being started, is younger than every resolved close. */
  ghost predicate ResolvedOk(s: Server) {
    forall i :: 0 <= i < |s.tasks| && Resolved(s.tasks[i].phase) ==>
      && (Unsettled(s) ==> s.tasks[i].generation < s.startup.value.generation)
      && (Holder(s).Some? && Holder(s).value < |s.loops| ==> s.tasks[i].generation < s.loops[Holder(s).value].generation)
  }

  ghost predicate Inv(s: Server) {
    TasksOk(s) && StartupOk(s) && LoopsOk(s) && ResolvedOk(s)
  }

  // ----- every step keeps it -----

  lemma ListenKeepsInv(s: Server)
    requires Inv(s) && Enabled(s, Listen)
    ensures Inv(Next(s, Listen))
  {
  }

  lemma CreateKeepsInv(s: Server)
    requires Inv(s) && Enabled(s, Create)
    ensures Inv(Next(s, Create))
  {
  }

  lemma CheckKeepsInv(s: Server)
    requires Inv(s) && Enabled(s, Check)
    ensures Inv(Next(s, Check))
  {
  }

  lemma DiscardedKeepsInv(s: Server, ok: bool)
    requires Inv(s) && Enabled(s, Discarded(ok))
    ensures Inv(Next(s, Discarded(ok)))
  {
  }

  lemma SettleKeepsInv(s: Server, step: Step)
    requires Inv(s) && Enabled(s, step) && (step.CreateFails? || step.Confirm? || step.Clear?)
    ensures Inv(Next(s, step))
  {
  }

  lemma CloseKeepsInv(s: Server)
    requires Inv(s)
    ensures Inv(Next(s, Close))
  {
  }

  lemma ProceedKeepsInv(s: Server, i: nat)
    requires Inv(s) && Enabled(s, Proceed(i))
    ensures Inv(Next(s, Proceed(i)))
  {
  }

  lemma LoopClosedKeepsInv(s: Server, i: nat, ok: bool)
    requires Inv(s) && Enabled(s, LoopClosed(i, ok))
    ensures Inv(Next(s, LoopClosed(i, ok)))
  {
  }

  lemma FinallyKeepsInv(s: Server, i: nat)
    requires Inv(s) && Enabled(s, Finally(i))
    ensures Inv(Next(s, Finally(i)))
  {
    var t := Next(s, Finally(i));
    var p := s.tasks[i].phase;
    assert s.closing ==> s.tasks[s.closePromise.value].generation == s.generation;
    assert forall k :: 0 <= k < |t.tasks| && k != i ==> t.tasks[k] == s.tasks[k];
    assert Holder(t) == Holder(s) && t.loops == s.loops;
  }

  lemma StepKeepsInv(s: Server, step: Step)
    requires Inv(s) && Enabled(s, step)
    ensures Inv(Next(s, step))
  {
    match step {
      case Listen => ListenKeepsInv(s);
      case Create => CreateKeepsInv(s);
      case Check => CheckKeepsInv(s);
      case Discarded(ok) => DiscardedKeepsInv(s, ok);
      case Close => CloseKeepsInv(s);
      case Proceed(i) => ProceedKeepsInv(s, i);
      case LoopClosed(i, ok) => LoopClosedKeepsInv(s, i, ok);
      case Finally(i) => FinallyKeepsInv(s, i);
      case _ => SettleKeepsInv(s, step);
    }
  }

  // ----- every interleaving -----

  ghost predicate Run(s: Server, steps: seq<Step>, t: Server)
    decreases |steps|
  {
    if steps == [] then s == t
    else Enabled(s, steps[0]) && Run(Next(s, steps[0]), steps[1..], t)
  }

  lemma {:induction false} RunKeepsInv(s: Server, steps: seq<Step>, t: Server)
    requires Inv(s) && Run(s, steps, t)
    ensures Inv(t)
    decreases |steps|
  {
    if steps != [] {
      StepKeepsInv(s, steps[0]);
      RunKeepsInv(Next(s, steps[0]), steps[1..], t);
    }
  }

  /** At any moment at most one loop is open, and it has an owner: it is published, or the
      startup that created it will publish or close it, or a close task is closing it. Every
      other loop has been closed, or its own close was rejected. */
  lemma OneOwnedLoop(steps: seq<Step>, s: Server)
    requires Run(FRESH, steps, s)
    ensures forall l, k :: 0 <= l < |s.loops| && 0 <= k < |s.loops| && s.loops[l].status.Open? && s.loops[k].status.Open? ==> l == k
    ensures forall l :: 0 <= l < |s.loops| && s.loops[l].status.Open? ==>
      s.eventLoop == Some(l) || HeldByStartup(s) == Some(l) || HeldByTask(s) == Some(l)
    ensures s.eventLoop.Some? ==> s.eventLoop.value < |s.loops| && s.loops[s.eventLoop.value].status.Open?
  {
    RunKeepsInv(FRESH, steps, s);
  }

  /** The step in which a loop's own `close()` is rejected. */
  predicate Rejects(step: Step) {
    step == Discarded(false) || (step.LoopClosed? && !step.ok)
  }

  /** How a step changes the loops: one more, the owned one closed or broken, or nothing. */
  lemma LoopsAfter(s: Server, step: Step)
    requires Inv(s) && Enabled(s, step)
    ensures var loops := Next(s, step).loops;
      match step
      case Create => loops == s.loops + [Loop(s.startup.value.generation, Open)]
      case Discarded(ok) => Holder(s).Some? && loops == Settle(s.loops, Holder(s).value, ok)
      case LoopClosed(_, ok) => Holder(s).Some? && loops == Settle(s.loops, Holder(s).value, ok)
      case _ => loops == s.loops
  {
    if step.LoopClosed? {
      assert s.closePromise == Some(step.task);
    }
  }

  function Settle(loops: seq<Loop>, l: nat, ok: bool): seq<Loop> {
    if l < |loops| then loops[l := loops[l].(status := if ok then Closed else Broken)] else loops
  }

  ghost predicate HasBroken(loops: seq<Loop>) {
    exists l :: 0 <= l < |loops| && loops[l].status.Broken?
  }

  lemma SettleBreaks(loops: seq<Loop>, l: nat, ok: bool)
    requires l < |loops| && loops[l].status.Open?
    ensures HasBroken(Settle(loops, l, ok)) <==> HasBroken(loops) || !ok
  {
    var after := Settle(loops, l, ok);
    if HasBroken(loops) {
      var k :| 0 <= k < |loops| && loops[k].status.Broken?;
      assert after[k].status.Broken?;
    }
    if !ok {
      assert after[l].status.Broken?;
    }
  }

  lemma StepBreaks(s: Server, step: Step)
    requires Inv(s) && Enabled(s, step)
    ensures HasBroken(Next(s, step).loops) <==> HasBroken(s.loops) || Rejects(step)
  {
    LoopsAfter(s, step);
    if step.Discarded? || step.LoopClosed? {
      SettleBreaks(s.loops, Holder(s).value, step.ok);
    } else if step.Create? && HasBroken(s.loops) {
      var k :| 0 <= k < |s.loops| && s.loops[k].status.Broken?;
      assert Next(s, step).loops[k].status.Broken?;
    }
  }

  lemma {:induction false} RunBreaks(s: Server, steps: seq<Step>, t: Server)
    requires Inv(s) && Run(s, steps, t)
    ensures HasBroken(t.loops) <==> HasBroken(s.loops) || exists i :: 0 <= i < |steps| && Rejects(steps[i])
    decreases |steps|
  {
    if steps != [] {
      StepBreaks(s, steps[0]);
      StepKeepsInv(s, steps[0]);
      RunBreaks(Next(s, steps[0]), steps[1..], t);
      assert forall i :: 0 < i < |steps| ==> steps[i] == steps[1..][i - 1];
    }
  }

  /** A loop can outlive its close only if that close was rejected: every loop but the one that
      is owned is really closed if and only if no `close()` of a loop was rejected in the run. */
  lemma OthersAreClosed(steps: seq<Step>, s: Server)
    requires Run(FRESH, steps, s)
    ensures (forall l :: 0 <= l < |s.loops| && Holder(s) != Some(l) ==> s.loops[l].status.Closed?) <==>
            (forall i :: 0 <= i < |steps| ==> !Rejects(steps[i]))
  {
    RunKeepsInv(FRESH, steps, s);
    RunBreaks(FRESH, steps, s);
    assert forall l :: 0 <= l < |s.loops| ==> (s.loops[l].status.Open? <==> Holder(s) == Some(l));
  }

  /** Once a close has resolved, no loop of an earlier startup is owned by anyone, then or ever
      after; it is closed unless its own `close()` was rejected. */
  lemma ResolvedCloseIsFinal(steps: seq<Step>, s: Server, i: nat)
    requires Run(FRESH, steps, s) && i < |s.tasks| && Resolved(s.tasks[i].phase)
    ensures forall l :: 0 <= l < |s.loops| && s.loops[l].generation < s.tasks[i].generation ==> !s.loops[l].status.Open?
    ensures (forall k :: 0 <= k < |steps| ==> !Rejects(steps[k])) ==>
      forall l :: 0 <= l < |s.loops| && s.loops[l].generation < s.tasks[i].generation ==> s.loops[l].status.Closed?
  {
    RunKeepsInv(FRESH, steps, s);
    RunBreaks(FRESH, steps, s);
    forall l | 0 <= l < |s.loops| && s.loops[l].generation < s.tasks[i].generation ensures !s.loops[l].status.Open? {
      assert s.loops[l].status.Open? ==> Holder(s) == Some(l);
    }
  }

  lemma RunFirst(s: Server, step: Step, rest: seq<Step>, t: Server)
    requires Enabled(s, step) && Run(Next(s, step), rest, t)
    ensures Run(s, [step] + rest, t)
  {
    assert ([step] + rest)[1..] == rest;
  }

  /** A startup that has bound a loop when a close comes in. */
  const SUPERSEDED := Server(2, Some(Startup(1, Created(0))), None, true, Some(0), [Loop(1, Open)], [Task(2, Waiting(Some(1)))])

  /** The close has resolved; the loop's own close was rejected. */
  const LEFT_BEHIND := Server(2, Some(Startup(1, Settled)), None, false, Some(0), [Loop(1, Broken)], [Task(2, Ending(true))])

  lemma DiscardIsRejected()
    ensures Run(SUPERSEDED, [Check] + ([Discarded(false)] + [Proceed(0)]), LEFT_BEHIND)
  {
    var s4 := SUPERSEDED.(startup := Some(Startup(1, Discarding(0))));
    var s5 := s4.(startup := Some(Startup(1, Settled)), loops := [Loop(1, Broken)]);
    assert Next(s5, Proceed(0)) == LEFT_BEHIND && Run(LEFT_BEHIND, [], LEFT_BEHIND);
    RunFirst(s5, Proceed(0), [], LEFT_BEHIND);
    assert [Proceed(0)] + [] == [Proceed(0)];
    RunFirst(s4, Discarded(false), [Proceed(0)], LEFT_BEHIND);
    RunFirst(SUPERSEDED, Check, [Discarded(false)] + [Proceed(0)], LEFT_BEHIND);
  }

  /** The failing family: a superseded startup whose discard is rejected leaves its loop behind,
      and the close that superseded it resolves all the same. */
  lemma RejectedDiscardOutlivesClose() returns (steps: seq<Step>, s: Server)
    ensures Run(FRESH, steps, s) && |s.tasks| == 1 && s.tasks[0].phase == Ending(true)
    ensures |s.loops| == 1 && s.loops[0].generation < s.tasks[0].generation && s.loops[0].status.Broken?
  {
    var s1 := FRESH.(generation := 1, startup := Some(Startup(1, Creating)));
    var s2 := s1.(startup := Some(Startup(1, Created(0))), loops := [Loop(1, Open)]);
    s := LEFT_BEHIND;
    var rest := [Check] + ([Discarded(false)] + [Proceed(0)]);
    DiscardIsRejected();
    assert Next(s2, Close) == SUPERSEDED && Next(s1, Create) == s2;
    RunFirst(s2, Close, rest, s);
    RunFirst(s1, Create, [Close] + rest, s);
    RunFirst(FRESH, Listen, [Create] + ([Close] + rest), s);
    steps := [Listen] + ([Create] + ([Close] + rest));
  }

  /** `_closing` never sticks: while it is set, the close task or the startup it awaits has a
      next step. */
  lemma ClosingProgresses(steps: seq<Step>, s: Server) returns (step: Step)
    requires Run(FRESH, steps, s) && s.closing
    ensures Enabled(s, step) && !step.Listen? && !step.Close?
  {
    RunKeepsInv(FRESH, steps, s);
    var i := s.closePromise.value;
    match s.tasks[i].phase {
      case Closing(_) => step := LoopClosed(i, true);
      case Ending(_) => step := Finally(i);
      case Waiting(on) =>
        if StartupSettled(s, on) {
          step := Proceed(i);
        } else {
          match s.startup.value.stage {
            case Creating => step := Create;
            case Created(_) => step := Check;
            case Discarding(_) => step := Discarded(true);
            case Published => step := Confirm;
          }
        }
    }
  }

  /** A server whose close has resolved, and whose startup is forgotten, can listen again. */
  lemma ClosedServerListensAgain(steps: seq<Step>, s: Server)
    requires Run(FRESH, steps, s) && s.startup.None? && Current(s).Some? && Resolved(Current(s).value)
    ensures Enabled(s, Listen) && AtStage(Next(s, Listen), Creating)
  {
    RunKeepsInv(FRESH, steps, s);
  }

  function PhaseRank(p: Phase): nat {
    match p case Waiting(_) => 3 case Closing(_) => 2 case Ending(_) => 1 case Done(_) => 0
  }

  function TaskRank(tasks: seq<Task>): nat {
    if tasks == [] then 0 else TaskRank(tasks[..|tasks| - 1]) + PhaseRank(tasks[|tasks| - 1].phase)
  }

  function StartupRank(startup: Option<Startup>): nat {
    if startup.None? then 0
    else match startup.value.stage
      case Creating => 4
      case Created(_) => 3
      case Discarding(_) => 2
      case Published => 2
      case Settled => 1
  }

  lemma {:induction false} TaskRankFalls(tasks: seq<Task>, i: nat, phase: Phase)
    requires i < |tasks| && PhaseRank(phase) < PhaseRank(tasks[i].phase)
    ensures TaskRank(tasks[i := tasks[i].(phase := phase)]) < TaskRank(tasks)
  {
    var n := |tasks| - 1;
    var after := tasks[i := tasks[i].(phase := phase)];
    if i == n {
      assert after[..n] == tasks[..n];
    } else {
      TaskRankFalls(tasks[..n], i, phase);
      assert after[..n] == tasks[..n][i := tasks[i].(phase := phase)];
    }
  }

  /** Between two calls of `listen` or `close` only boundedly many steps happen, whatever their
      order; with `ClosingProgresses`, every close comes to an end. */
  lemma RankFalls(s: Server, step: Step)
    requires Enabled(s, step) && !step.Listen? && !step.Close?
    ensures StartupRank(Next(s, step).startup) + TaskRank(Next(s, step).tasks) < StartupRank(s.startup) + TaskRank(s.tasks)
  {
    match step {
      case Proceed(i) =>
        TaskRankFalls(s.tasks, i, if s.eventLoop.Some? then Closing(s.eventLoop.value) else Ending(true));
      case LoopClosed(i, ok) => TaskRankFalls(s.tasks, i, Ending(ok));
      case Finally(i) => TaskRankFalls(s.tasks, i, Done(s.tasks[i].phase.resolved));
      case _ =>
    }
  }

  // ----- the object -----

  /** The server object. Each method is the code between two awaits; `loops` and `tasks` stand
      for the event loops and promises it has created. */
  class QuicServer {
    var startupGeneration: nat
    var startup: Option<Startup>
    var eventLoop: Option<nat>
    var closing: bool
    var closePromise: Option<nat>
    var loops: seq<Loop>
    var tasks: seq<Task>

    function View(): Server
      reads this
    {
      Server(startupGeneration, startup, eventLoop, closing, closePromise, loops, tasks)
    }

    ghost predicate Valid()
      reads this
    {
      Inv(View())
    }

    constructor ()
      ensures Valid() && View() == FRESH
    {
      startupGeneration, startup, eventLoop, closing, closePromise := 0, None, None, false, None;
      loops, tasks := [], [];
    }

    /** `listen` up to its first await; refused while starting, listening or closing. */
    method Listen() returns (accepted: bool)
      requires Valid()
      modifies this
      ensures Valid() && accepted == Enabled(old(View()), Step.Listen)
      ensures accepted <==> old(startup).None? && old(eventLoop).None? && !old(closing)
      ensures View() == if accepted then Next(old(View()), Step.Listen) else old(View())
    {
      if startup.Some? || eventLoop.Some? || closing {
        return false;
      }
      ListenKeepsInv(View());
      closePromise := None;
      startupGeneration := startupGeneration + 1;
      startup := Some(Startup(startupGeneration, Creating));
      return true;
    }

    /** The factory has bound a loop, or failed. */
    method FactoryReturns(ok: bool)
      requires Valid() && AtStage(View(), Creating)
      modifies this
      ensures Valid() && View() == Next(old(View()), if ok then Create else CreateFails)
    {
      StepKeepsInv(View(), if ok then Create else CreateFails);
      if ok {
        startup := Some(startup.value.(stage := Created(|loops|)));
        loops := loops + [Loop(startup.value.generation, Open)];
      } else {
        startup := Some(startup.value.(stage := Settled));
      }
    }

    /** Publish the loop, unless a close has come in between: then close it here. */
    method PublishOrDiscard()
      requires Valid() && Enabled(View(), Check)
      modifies this
      ensures Valid() && View() == Next(old(View()), Check)
      ensures eventLoop.Some? <==> startup.value.generation == startupGeneration
    {
      CheckKeepsInv(View());
      var loop := startup.value.stage.loop;
      if startup.value.generation != startupGeneration {
        startup := Some(startup.value.(stage := Discarding(loop)));
      } else {
        eventLoop := Some(loop);
        startup := Some(startup.value.(stage := Published));
      }
    }

    /** The loop that lost against a close is closed by the startup itself. */
    method DiscardReturns(ok: bool)
      requires Valid() && Enabled(View(), Discarded(ok))
      modifies this
      ensures Valid() && View() == Next(old(View()), Discarded(ok))
    {
      DiscardedKeepsInv(View(), ok);
      var loop := startup.value.stage.loop;
      startup := Some(startup.value.(stage := Settled));
      if loop < |loops| {
        loops := loops[loop := loops[loop].(status := if ok then Closed else Broken)];
      }
    }

    /** The startup returns, or throws because it was cancelled after publishing; either way
        `listen` then forgets it. */
    method StartupEnds()
      requires Valid() && Enabled(View(), Confirm)
      modifies this
      ensures Valid() && startup == None
      ensures View() == Next(Next(old(View()), Confirm), Clear)
    {
      SettleKeepsInv(View(), Confirm);
      startup := Some(startup.value.(stage := Settled));
      SettleKeepsInv(View(), Clear);
      startup := None;
    }

    /** `close` up to its first await. */
    method Close() returns (task: nat)
      requires Valid()
      modifies this
      ensures Valid() && View() == Next(old(View()), Step.Close) && closePromise == Some(task) && task < |tasks|
    {
      CloseKeepsInv(View());
      if closePromise.Some? {
        return closePromise.value;
      }
      closing := true;
      startupGeneration := startupGeneration + 1;
      closePromise := Some(|tasks|);
      tasks := tasks + [Task(startupGeneration, Waiting(if startup.Some? then Some(startup.value.generation) else None))];
      return |tasks| - 1;
    }

    /** The awaited startup has settled: take the loop, or finish. */
    method CloseProceeds(i: nat)
      requires Valid() && Enabled(View(), Proceed(i))
      modifies this
      ensures Valid() && View() == Next(old(View()), Proceed(i)) && eventLoop == None
    {
      ProceedKeepsInv(View(), i);
      var loop := eventLoop;
      eventLoop := None;
      if loop.Some? {
        tasks := tasks[i := tasks[i].(phase := Closing(loop.value))];
      } else {
        closing := false;
        tasks := tasks[i := tasks[i].(phase := Ending(true))];
      }
    }

    /** `loop.close()` has settled. */
    method CloseReturns(i: nat, ok: bool)
      requires Valid() && Enabled(View(), LoopClosed(i, ok))
      modifies this
      ensures Valid() && View() == Next(old(View()), LoopClosed(i, ok))
    {
      LoopClosedKeepsInv(View(), i, ok);
      var loop := tasks[i].phase.loop;
      tasks := tasks[i := tasks[i].(phase := Ending(ok))];
      if loop < |loops| {
        loops := loops[loop := loops[loop].(status := if ok then Closed else Broken)];
      }
      if ok {
        closing := false;
      }
    }

    /** The `finally` of close: a newer lifecycle keeps its own flag. */
    method CloseFinally(i: nat)
      requires Valid() && Enabled(View(), Finally(i))
      modifies this
      ensures Valid() && View() == Next(old(View()), Finally(i))
      ensures closePromise == Some(i) ==> !closing
    {
      FinallyKeepsInv(View(), i);
      tasks := tasks[i := tasks[i].(phase := Done(tasks[i].phase.resolved))];
      if tasks[i].generation == startupGeneration {
        closing := false;
      }
    }
  }
}
