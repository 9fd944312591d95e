/**
 * The two-thread handshake of the CMD models. The simulation thread (Surrogate::rpt or
 * Surrogate::update) and the messaging thread (MonteCarlo_Step or processTargetInput)
 * alternate through one mutex, two condition variables and two flags.
 */
module Handshake {

  datatype Thread = Sim | Ise

  /** Where a thread is in its critical section. Check is the messaging thread's test of
      State::ticklast; Done is the simulation thread after Sim::run has returned. */
  datatype Pc =
    | Outside | Acquire | Check | Test | Asleep | Reacquire | Inside | Signal | Unlock | Done

  /** waiting is the flag this thread waits on: waiting_for_ise for the simulation thread,
      waiting_for_cmd for the messaging thread. */
  datatype Side = Side(pc: Pc, waiting: bool, rounds: nat)

  datatype Owner = Free | Held(holder: Thread)

  datatype State = State(sim: Side, ise: Side, owner: Owner, last: bool)

  /** The thread's own next step, a spurious wakeup, or the simulation setting ticklast. */
  datatype Move = Act(t: Thread) | Spurious(t: Thread) | Finish

  function Other(t: Thread): Thread {
    if t == Sim then Ise else Sim
  }

  function Of(s: State, t: Thread): Side {
    if t == Sim then s.sim else s.ise
  }

  function With(s: State, t: Thread, side: Side): State {
    if t == Sim then s.(sim := side) else s.(ise := side)
  }

  /** The initial flags decide who goes first: the simulation in CMD_Target, the
      messaging thread in CMD_Radar and CMD_Missile. */
  function Init(first: Thread): State {
    State(Side(Outside, first != Sim, 0), Side(Outside, first != Ise, 0), Free, false)
  }

  predicate Holding(pc: Pc) {
    (pc.Check? || pc.Test? || pc.Inside? || pc.Signal? || pc.Unlock?)
  }

  /** exitReport: the simulation thread goes through the handshake once more after it has
      set ticklast (CMD_Target, whose handshake sits in rpt). */
  predicate Enabled(exitReport: bool, s: State, m: Move) {
    match m
    case Spurious(t) => Of(s, t).pc == Asleep
    case Finish => s.sim.pc == Outside && !s.last
    case Act(t) =>
      match Of(s, t).pc
      case Outside => t == Ise || !s.last || exitReport
      case Acquire => s.owner == Free
      case Reacquire => s.owner == Free
      case Asleep => false
      case Done => false
      case _ => true
  }

  function Next(exitReport: bool, s: State, m: Move): State
    requires Enabled(exitReport, s, m)
  {
    match m
    case Spurious(t) => With(s, t, Of(s, t).(pc := Reacquire))
    case Finish => s.(last := true, sim := if exitReport then s.sim else s.sim.(pc := Done))
    case Act(t) =>
      var me, u := Of(s, t), Other(t);
      match me.pc
      case Outside => With(s, t, me.(pc := Acquire))
      case Acquire => With(s, t, me.(pc := if t == Ise then Check else Test)).(owner := Held(t))
      case Reacquire => With(s, t, me.(pc := Test)).(owner := Held(t))
      case Check =>
        if s.last then With(s, t, me.(pc := Outside)).(owner := Free)
        else With(s, t, me.(pc := Test))
      case Test =>
        if me.waiting then With(s, t, me.(pc := Asleep)).(owner := Free)
        else With(s, t, Side(Inside, true, me.rounds + 1))
      case Inside => With(With(s, t, me.(pc := Signal)), u, Of(s, u).(waiting := false))
      case Signal =>
        var s' := With(s, t, me.(pc := Unlock));
        if Of(s, u).pc == Asleep then With(s', u, Of(s, u).(pc := Reacquire)) else s'
      case Unlock =>
        With(s, t, me.(pc := if t == Sim && s.last then Done else Outside)).(owner := Free)
  }

  // ---------------------------------------------------------------------------
  // Safety

  predicate InSection(pc: Pc) {
    (pc.Inside? || pc.Signal? || pc.Unlock?)
  }

  predicate MutexInv(s: State) {
    && (s.owner == Held(Sim) <==> Holding(s.sim.pc))
    && (s.owner == Held(Ise) <==> Holding(s.ise.pc))
    && s.sim.pc != Check && s.ise.pc != Done
  }

  predicate SideInv(me: Side, other: Side) {
    && (me.pc == Inside ==> me.waiting && other.waiting)
    && ((me.pc.Signal? || me.pc.Unlock?) ==> me.waiting && !other.waiting)
    && (me.pc == Asleep && !me.waiting ==> other.pc == Signal)
  }

  predicate FlagInv(s: State) {
    SideInv(s.sim, s.ise) && SideInv(s.ise, s.sim)
  }

  predicate TurnInv(s: State) {
    !InSection(s.sim.pc) && !InSection(s.ise.pc) ==> s.sim.waiting != s.ise.waiting
  }

  /** The first mover is level with the other thread while it is the first mover's turn,
      or the other is inside; otherwise it is one round ahead. */
  predicate RoundInv(first: Thread, s: State) {
    var a, b := Of(s, first), Of(s, Other(first));
    if !a.waiting || b.pc == Inside then a.rounds == b.rounds else a.rounds == b.rounds + 1
  }

  predicate Inv(first: Thread, s: State) {
    MutexInv(s) && FlagInv(s) && TurnInv(s) && RoundInv(first, s)
  }

  lemma ActKeepsMutex(exitReport: bool, s: State, t: Thread)
    requires MutexInv(s) && Enabled(exitReport, s, Act(t))
    ensures MutexInv(Next(exitReport, s, Act(t)))
  {
  }

  lemma ActKeepsFlags(exitReport: bool, s: State, t: Thread)
    requires MutexInv(s) && FlagInv(s) && TurnInv(s) && Enabled(exitReport, s, Act(t))
    ensures FlagInv(Next(exitReport, s, Act(t)))
  {
    match t case Sim => case Ise =>
  }

  lemma ActKeepsTurn(exitReport: bool, s: State, t: Thread)
    requires MutexInv(s) && FlagInv(s) && TurnInv(s) && Enabled(exitReport, s, Act(t))
    ensures TurnInv(Next(exitReport, s, Act(t)))
  {
    match t case Sim => case Ise =>
  }

  lemma ActKeepsRounds(exitReport: bool, first: Thread, s: State, t: Thread)
    requires Inv(first, s) && Enabled(exitReport, s, Act(t))
    ensures RoundInv(first, Next(exitReport, s, Act(t)))
  {
    match t case Sim => case Ise =>
  }

  lemma NextKeepsInv(exitReport: bool, first: Thread, s: State, m: Move)
    requires Inv(first, s) && Enabled(exitReport, s, m)
    ensures Inv(first, Next(exitReport, s, m))
  {
    if m.Act? {
      ActKeepsMutex(exitReport, s, m.t);
      ActKeepsFlags(exitReport, s, m.t);
      ActKeepsTurn(exitReport, s, m.t);
      ActKeepsRounds(exitReport, first, s, m.t);
    }
  }

  predicate Runnable(exitReport: bool, s: State, run: seq<Move>)
    decreases |run|
  {
    run == [] || (Enabled(exitReport, s, run[0]) && Runnable(exitReport, Next(exitReport, s, run[0]), run[1..]))
  }

  function Run(exitReport: bool, s: State, run: seq<Move>): State
    requires Runnable(exitReport, s, run)
    decreases |run|
  {
    if run == [] then s else Run(exitReport, Next(exitReport, s, run[0]), run[1..])
  }

  lemma {:induction false} RunKeepsInv(exitReport: bool, first: Thread, s: State, run: seq<Move>)
    requires Inv(first, s) && Runnable(exitReport, s, run)
    ensures Inv(first, Run(exitReport, s, run))
    decreases |run|
  {
    if run != [] {
      NextKeepsInv(exitReport, first, s, run[0]);
      RunKeepsInv(exitReport, first, Next(exitReport, s, run[0]), run[1..]);
    }
  }

  /** In every interleaving: the critical sections exclude each other, exactly one flag is
      set whenever the mutex is free, the rounds alternate starting with the first mover,
      and no thread sleeps on a cleared flag except while it is being notified. */
  lemma Safety(exitReport: bool, first: Thread, run: seq<Move>)
    requires Runnable(exitReport, Init(first), run)
    ensures var s := Run(exitReport, Init(first), run);
            && !(InSection(s.sim.pc) && InSection(s.ise.pc))
            && (s.owner == Free ==> s.sim.waiting != s.ise.waiting)
            && Of(s, Other(first)).rounds <= Of(s, first).rounds <= Of(s, Other(first)).rounds + 1
            && (s.owner == Free ==> (s.sim.pc == Asleep ==> s.sim.waiting) && (s.ise.pc == Asleep ==> s.ise.waiting))
  {
    RunKeepsInv(exitReport, first, Init(first), run);
    var s := Run(exitReport, Init(first), run);
  }

  // ---------------------------------------------------------------------------
  // Progress before ticklast

  /** Deadlock freedom: some thread can always take a step of its own. */
  lemma SomeThreadCanMove(exitReport: bool, first: Thread, run: seq<Move>)
    requires Runnable(exitReport, Init(first), run)
    requires !Run(exitReport, Init(first), run).last
    requires Run(exitReport, Init(first), run).sim.pc != Done
    ensures exists t: Thread :: Enabled(exitReport, Run(exitReport, Init(first), run), Act(t))
  {
    RunKeepsInv(exitReport, first, Init(first), run);
    var s := Run(exitReport, Init(first), run);
    if s.owner == Held(Sim) || (s.owner == Free && s.sim.pc != Asleep) {
      assert Enabled(exitReport, s, Act(Sim));
    } else {
      assert Enabled(exitReport, s, Act(Ise));
    }
  }

  function Distance(pc: Pc): nat {
    match pc
    case Asleep => 0 case Done => 0 case Test => 1 case Check => 2 case Reacquire => 2
    case Acquire => 3 case Outside => 4 case Unlock => 5 case Signal => 8 case Inside => 9
  }

  function Rank(s: State): nat {
    Distance(s.sim.pc) + Distance(s.ise.pc)
  }

  function Rounds(s: State): nat {
    s.sim.rounds + s.ise.rounds
  }

  function Acts(run: seq<Move>): nat {
    if run == [] then 0 else (if run[0].Act? then 1 else 0) + Acts(run[1..])
  }

  lemma ActMakesProgress(exitReport: bool, first: Thread, s: State, m: Move)
    requires Inv(first, s) && Enabled(exitReport, s, m) && !s.last && m != Finish
    ensures var s' := Next(exitReport, s, m);
            9 * Rounds(s') - Rank(s') >= 9 * Rounds(s) - Rank(s) + (if m.Act? then 1 else -2) && !s'.last
  {
  }

  lemma {:induction false} RoundsAccumulate(exitReport: bool, first: Thread, s: State, run: seq<Move>)
    requires Inv(first, s) && Runnable(exitReport, s, run) && !s.last && Finish !in run
    ensures var s', spurious := Run(exitReport, s, run), |run| - Acts(run);
            9 * Rounds(s') - Rank(s') >= 9 * Rounds(s) - Rank(s) + Acts(run) - 2 * spurious
    decreases |run|
  {
    if run != [] {
      NextKeepsInv(exitReport, first, s, run[0]);
      ActMakesProgress(exitReport, first, s, run[0]);
      RoundsAccumulate(exitReport, first, Next(exitReport, s, run[0]), run[1..]);
    }
  }

  /** No livelock: a run of n thread steps and k spurious wakeups has completed at least
      (n - 2k - 8) / 9 rounds, whatever the interleaving. */
  lemma RoundsGrow(exitReport: bool, first: Thread, run: seq<Move>)
    requires Runnable(exitReport, Init(first), run) && Finish !in run
    ensures var s, spurious := Run(exitReport, Init(first), run), |run| - Acts(run);
            9 * Rounds(s) + 8 >= Acts(run) - 2 * spurious
  {
    RoundsAccumulate(exitReport, first, Init(first), run);
  }

  // ---------------------------------------------------------------------------
  // After ticklast: the final report of CMD_Target

  /** ticklast is set, the simulation still waits for the messaging thread, and the
      messaging thread has not yet passed its test of ticklast. */
  predicate Doomed(s: State) {
    && s.last && s.sim.waiting
    && (s.ise.pc.Outside? || s.ise.pc.Acquire? || s.ise.pc.Check?)
    && (s.sim.pc.Outside? || s.sim.pc.Acquire? || s.sim.pc.Test? || s.sim.pc.Asleep? || s.sim.pc.Reacquire?)
  }

  lemma {:induction false} DoomedForever(s: State, run: seq<Move>)
    requires Doomed(s) && Runnable(true, s, run)
    ensures Doomed(Run(true, s, run))
    decreases |run|
  {
    if run != [] {
      DoomedForever(Next(true, s, run[0]), run[1..]);
    }
  }

  /** A scheduler that brings the simulation thread to its end. */
  function Pick(s: State): Move {
    if Holding(s.ise.pc) then Act(Ise)
    else if Holding(s.sim.pc) then Act(Sim)
    else if s.sim.waiting then Act(Ise)
    else Act(Sim)
  }

  function SimLeft(s: State): nat {
    match s.sim.pc
    case Outside => if s.sim.waiting then 28 else 8
    case Acquire => if s.sim.waiting then 27 else 7
    case Test => if s.sim.waiting then 27 else 4
    case Asleep => if s.sim.waiting then 26 else 6
    case Reacquire => if s.sim.waiting then 25 else 5
    case Inside => 3 case Signal => 2 case Unlock => 1 case Done => 0 case Check => 0
  }

  function IseLeft(s: State): nat {
    match s.ise.pc
    case Reacquire => 8 case Test => 7 case Asleep => 6 case Inside => 5 case Signal => 4
    case Unlock => 3 case Check => 3 case Acquire => 2 case Outside => 1 case Done => 0
  }

  lemma PickDescends(first: Thread, s: State)
    requires Inv(first, s) && s.last && !Doomed(s) && s.sim.pc != Done
    ensures Enabled(true, s, Pick(s))
    ensures var s' := Next(true, s, Pick(s));
            s'.last && !Doomed(s')
            && (SimLeft(s') < SimLeft(s) || (SimLeft(s') == SimLeft(s) && IseLeft(s') < IseLeft(s)))
  {
  }

  lemma {:induction false} FinishingRun(first: Thread, s: State) returns (run: seq<Move>)
    requires Inv(first, s) && s.last && !Doomed(s)
    ensures Runnable(true, s, run) && Run(true, s, run).sim.pc == Done
    decreases SimLeft(s), IseLeft(s)
  {
    if s.sim.pc == Done {
      run := [];
    } else {
      PickDescends(first, s);
      NextKeepsInv(true, first, s, Pick(s));
      var rest := FinishingRun(first, Next(true, s, Pick(s)));
      run := [Pick(s)] + rest;
      assert run[1..] == rest;
    }
  }

  /** The final report can complete exactly when the state is not doomed; so the
      simulation thread (and the join in MonteCarlo_EndRun) is saved if and only if, when
      ticklast is set, its flag is already clear or the messaging thread is past its
      ticklast test. */
  lemma FinalReportIff(first: Thread, run: seq<Move>)
    requires Runnable(true, Init(first), run)
    requires Run(true, Init(first), run).last
    ensures var s := Run(true, Init(first), run);
            (exists more :: Runnable(true, s, more) && Run(true, s, more).sim.pc == Done) <==> !Doomed(s)
  {
    var s := Run(true, Init(first), run);
    RunKeepsInv(true, first, Init(first), run);
    if Doomed(s) {
      forall more | Runnable(true, s, more)
        ensures Run(true, s, more).sim.pc != Done
      {
        DoomedForever(s, more);
      }
    } else {
      var more := FinishingRun(first, s);
    }
  }

  /** A step that leads on towards the end of the final report: any step of the simulation
      thread, and of the messaging thread those past its test of ticklast. */
  predicate Useful(s: State, m: Move) {
    m == Act(Sim) || (m == Act(Ise) && !s.ise.pc.Outside? && !s.ise.pc.Acquire? && !s.ise.pc.Check?)
  }

  function SimBudget(me: Side): nat {
    match me.pc
    case Done => 0 case Unlock => 1 case Signal => 4 case Inside => 5 case Check => 0
    case Asleep => 7
    case Test => if me.waiting then 8 else 6
    case Reacquire => if me.waiting then 9 else 7
    case Acquire => if me.waiting then 9 else 7
    case Outside => if me.waiting then 10 else 8
  }

  function IseBudget(pc: Pc): nat {
    match pc
    case Unlock => 1 case Signal => 2 case Inside => 3 case Asleep => 3 case Test => 4 case Reacquire => 5
    case _ => 0
  }

  function Budget(s: State): nat {
    SimBudget(s.sim) + IseBudget(s.ise.pc)
  }

  function UsefulSteps(s: State, run: seq<Move>): nat
    requires Runnable(true, s, run)
    decreases |run|
  {
    if run == [] then 0
    else (if Useful(s, run[0]) then 1 else 0) + UsefulSteps(Next(true, s, run[0]), run[1..])
  }

  lemma UsefulLowers(first: Thread, s: State, m: Move)
    requires Inv(first, s) && s.last && Enabled(true, s, m)
    ensures var s' := Next(true, s, m);
            s'.last && Budget(s') <= Budget(s) - (if Useful(s, m) then 1 else 0) + (if m.Spurious? then 2 else 0)
  {
    if m.Act? || m.Spurious? {
      match m.t case Sim => case Ise =>
    }
  }

  lemma NotDoomedStays(first: Thread, s: State, m: Move)
    requires Inv(first, s) && s.last && !Doomed(s) && Enabled(true, s, m)
    ensures !Doomed(Next(true, s, m))
  {
    if m.Act? || m.Spurious? {
      match m.t case Sim => case Ise =>
    }
  }

  /** Some useful step can be taken, at the latest once the messaging thread, found testing
      ticklast, has let go of the mutex. */
  predicate CanAdvance(s: State) {
    || Enabled(true, s, Act(Sim))
    || (Enabled(true, s, Act(Ise)) && (Useful(s, Act(Ise)) || s.ise.pc.Check?))
  }

  lemma NotDoomedAdvances(first: Thread, s: State)
    requires Inv(first, s) && s.last && !Doomed(s) && s.sim.pc != Done
    ensures CanAdvance(s)
  {
    PickDescends(first, s);
  }

  lemma {:induction false} EveryContinuation(first: Thread, s: State, run: seq<Move>)
    requires Inv(first, s) && s.last && !Doomed(s) && Runnable(true, s, run)
    ensures var s' := Run(true, s, run);
            && Inv(first, s') && s'.last && !Doomed(s')
            && UsefulSteps(s, run) + Budget(s') <= Budget(s) + 2 * (|run| - Acts(run))
    decreases |run|
  {
    if run != [] {
      NextKeepsInv(true, first, s, run[0]);
      UsefulLowers(first, s, run[0]);
      NotDoomedStays(first, s, run[0]);
      EveryContinuation(first, Next(true, s, run[0]), run[1..]);
    }
  }

  /** Not just some continuation: from a state that is not doomed, every continuation with k
      spurious wakeups takes at most 15 + 2k useful steps, and as long as the simulation
      thread has not ended, it or the messaging thread can take one. */
  lemma FinalReportInEveryContinuation(first: Thread, run: seq<Move>, more: seq<Move>)
    requires Runnable(true, Init(first), run)
    requires var s := Run(true, Init(first), run); s.last && !Doomed(s) && Runnable(true, s, more)
    ensures var s := Run(true, Init(first), run);
            var s' := Run(true, s, more);
            && UsefulSteps(s, more) <= 15 + 2 * (|more| - Acts(more))
            && !Doomed(s')
            && (s'.sim.pc == Done || CanAdvance(s'))
  {
    RunKeepsInv(true, first, Init(first), run);
    var s := Run(true, Init(first), run);
    EveryContinuation(first, s, more);
    if Run(true, s, more).sim.pc != Done {
      NotDoomedAdvances(first, Run(true, s, more));
    }
  }

  /** And the doomed case does occur: one report, then ticklast before the messaging
      thread has taken its turn. */
  lemma FinalReportCanHang()
    ensures exists run :: Runnable(true, Init(Sim), run) && Doomed(Run(true, Init(Sim), run))
  {
    var s := Solo(true, Init(Sim), Sim, 6);
    assert s == State(Side(Outside, true, 1), Side(Outside, false, 0), Free, false);
    var run := SoloRun(true, Init(Sim), Sim, 6);
    var all := Extend(true, Init(Sim), run, [Finish]);
  }

  /** n steps of one thread alone (fewer if it blocks). */
  function Solo(exitReport: bool, s: State, t: Thread, n: nat): State
    decreases n
  {
    if n == 0 || !Enabled(exitReport, s, Act(t)) then s
    else Solo(exitReport, Next(exitReport, s, Act(t)), t, n - 1)
  }

  lemma {:induction false} SoloRun(exitReport: bool, s: State, t: Thread, n: nat) returns (run: seq<Move>)
    ensures Runnable(exitReport, s, run) && Run(exitReport, s, run) == Solo(exitReport, s, t, n)
    decreases n
  {
    run := [];
    if n > 0 && Enabled(exitReport, s, Act(t)) {
      var rest := SoloRun(exitReport, Next(exitReport, s, Act(t)), t, n - 1);
      run := [Act(t)] + rest;
      assert run[1..] == rest;
    }
  }

  lemma {:induction false} Extend(exitReport: bool, s: State, run: seq<Move>, more: seq<Move>) returns (all: seq<Move>)
    requires Runnable(exitReport, s, run) && Runnable(exitReport, Run(exitReport, s, run), more)
    ensures all == run + more && Runnable(exitReport, s, all)
    ensures Run(exitReport, s, all) == Run(exitReport, Run(exitReport, s, run), more)
    decreases |run|
  {
    all := run + more;
    if run == [] {
      assert all == more;
    } else {
      var rest := Extend(exitReport, Next(exitReport, s, run[0]), run[1..], more);
      assert all[0] == run[0] && all[1..] == rest;
    }
  }

  // ---------------------------------------------------------------------------
  // After the simulation has ended: the messaging thread

  /** The simulation is over and the messaging thread, past its ticklast test, waits for it. */
  predicate Stranded(s: State) {
    s.sim.pc == Done && s.ise.waiting && (s.ise.pc.Test? || s.ise.pc.Asleep? || s.ise.pc.Reacquire?)
  }

  lemma {:induction false} StrandedForever(exitReport: bool, s: State, run: seq<Move>)
    requires Stranded(s) && s.last && Runnable(exitReport, s, run)
    ensures Stranded(Run(exitReport, s, run))
    decreases |run|
  {
    if run != [] {
      StrandedForever(exitReport, Next(exitReport, s, run[0]), run[1..]);
    }
  }

  function IseBack(s: State): nat {
    match s.ise.pc
    case Reacquire => 7 case Test => 6 case Inside => 5 case Signal => 4 case Unlock => 3
    case Acquire => 2 case Check => 1 case Outside => 0 case Asleep => 0 case Done => 0
  }

  lemma {:induction false} ReturningRun(exitReport: bool, first: Thread, s: State) returns (run: seq<Move>)
    requires Inv(first, s) && s.last && s.sim.pc == Done && !Stranded(s)
    ensures Runnable(exitReport, s, run) && Run(exitReport, s, run).ise.pc == Outside
    decreases IseBack(s)
  {
    if s.ise.pc == Outside {
      run := [];
    } else {
      NextKeepsInv(exitReport, first, s, Act(Ise));
      var rest := ReturningRun(exitReport, first, Next(exitReport, s, Act(Ise)));
      run := [Act(Ise)] + rest;
      assert run[1..] == rest;
    }
  }

  /** Once Sim::run has returned, the messaging thread's call can return exactly when the
      thread is not stranded past its ticklast test with its flag still set. */
  lemma MessagingReturnsIff(exitReport: bool, first: Thread, run: seq<Move>)
    requires Runnable(exitReport, Init(first), run)
    requires var s := Run(exitReport, Init(first), run); s.last && s.sim.pc == Done
    ensures var s := Run(exitReport, Init(first), run);
            (exists more :: Runnable(exitReport, s, more) && Run(exitReport, s, more).ise.pc == Outside)
            <==> !Stranded(s)
  {
    var s := Run(exitReport, Init(first), run);
    RunKeepsInv(exitReport, first, Init(first), run);
    if Stranded(s) {
      forall more | Runnable(exitReport, s, more)
        ensures Run(exitReport, s, more).ise.pc != Outside
      {
        StrandedForever(exitReport, s, more);
      }
    } else {
      var more := ReturningRun(exitReport, first, s);
    }
  }

  /** Both threads outside after n rounds of the simulation thread. */
  function Turn(n: nat, simTurn: bool): State {
    if simTurn then State(Side(Outside, false, n), Side(Outside, true, n + 1), Free, false)
    else State(Side(Outside, true, n), Side(Outside, false, n), Free, false)
  }

  lemma IseRound(n: nat)
    ensures Solo(false, Turn(n, false), Ise, 7) == Turn(n, true)
  {
  }

  lemma SimRound(n: nat)
    ensures Solo(false, Turn(n, true), Sim, 6) == Turn(n + 1, false)
  {
  }

  lemma IsePastCheck(n: nat)
    ensures Solo(false, Turn(n, true), Ise, 3) == Turn(n, true).(ise := Side(Test, true, n + 1), owner := Held(Ise))
  {
  }

  /** Without a final report (CMD_Radar, CMD_Missile) stranding does occur: a further
      target message passes the ticklast test just before the simulation ends. */
  lemma MessagingCanHang() returns (run: seq<Move>)
    ensures Runnable(false, Init(Ise), run)
    ensures Run(false, Init(Ise), run).sim.rounds > 0 && Stranded(Run(false, Init(Ise), run))
  {
    var s, s', s'' := Init(Ise), Turn(0, true), Turn(1, true);
    IseRound(0);
    run := ThenSolo(s, [], s, Ise, 7);
    SimRound(0);
    run := ThenSolo(s, run, s', Sim, 6);
    IseRound(1);
    run := ThenSolo(s, run, Turn(1, false), Ise, 7);
    IsePastCheck(1);
    run := ThenSolo(s, run, s'', Ise, 3);
    run := Extend(false, s, run, [Finish]);
  }

  lemma ThenSolo(s: State, run: seq<Move>, mid: State, t: Thread, n: nat) returns (all: seq<Move>)
    requires Runnable(false, s, run) && Run(false, s, run) == mid
    ensures Runnable(false, s, all) && Run(false, s, all) == Solo(false, mid, t, n)
  {
    var more := SoloRun(false, mid, t, n);
    all := Extend(false, s, run, more);
  }

  /** The final report of CMD_Target clears the messaging thread's flag on the way out. */
  predicate ReportedOut(s: State) {
    s.sim.pc == Done ==> s.last && !Stranded(s)
  }

  lemma NextKeepsReportedOut(first: Thread, s: State, m: Move)
    requires Inv(first, s) && ReportedOut(s) && Enabled(true, s, m)
    ensures ReportedOut(Next(true, s, m))
  {
  }

  lemma {:induction false} RunKeepsReportedOut(first: Thread, s: State, run: seq<Move>)
    requires Inv(first, s) && ReportedOut(s) && Runnable(true, s, run)
    ensures ReportedOut(Run(true, s, run))
    decreases |run|
  {
    if run != [] {
      NextKeepsInv(true, first, s, run[0]);
      NextKeepsReportedOut(first, s, run[0]);
      RunKeepsReportedOut(first, Next(true, s, run[0]), run[1..]);
    }
  }

  /** With the final report the messaging thread is never stranded. */
  lemma TargetNeverStrands(first: Thread, run: seq<Move>)
    requires Runnable(true, Init(first), run)
    ensures !Stranded(Run(true, Init(first), run))
  {
    RunKeepsReportedOut(first, Init(first), run);
  }
}
