/** Admission slots and retries: a state machine over every interleaving of threads that nest
    guards and runs, and the retry loop itself. */
module TransactionRunner {
  import opened Wrappers

  /** How one attempt of a run ends. */
  datatype Ending =
    | Commits(result: string)
    /** A serialization failure or a deadlock, SQLSTATE 40001 or 40P01. */
    | Conflicts
    /** Another operational error, or no connection from the pool in time. */
    | Unavailable
    | Raises(error: string)

  datatype RunOutcome =
    | Value(result: string)
    | TransactionConflict
    | DatabaseUnavailable
    | Other(error: string)

  datatype Phase = Asking | Inside | Sleeping

  /** One `guard` block, or one `run` with the number of its current attempt. */
  datatype Frame =
    | GuardFrame(phase: Phase)
    | RunFrame(phase: Phase, attempt: nat, commits: nat)

  datatype Report = Report(attempts: nat, commits: nat, outcome: RunOutcome)

  /** A thread: its admission depth, its open blocks, outermost first, and the runs it has ended. */
  datatype Thread = Thread(depth: nat, stack: seq<Frame>, reports: seq<Report>, refused: nat)

  datatype State = State(capacity: nat, free: nat, delays: nat, threads: map<nat, Thread>)

  datatype Event =
    | Spawn(thread: nat)
    | OpenGuard(thread: nat)
    | StartRun(thread: nat)
    /** `acquire`, or the nested admission that needs none. */
    | Admit(thread: nat)
    | CloseGuard(thread: nat)
    | EndAttempt(thread: nat, ending: Ending)
    | Wake(thread: nat)

  function Top(th: Thread): Frame
    requires th.stack != []
  {
    th.stack[|th.stack| - 1]
  }

  function Pop(th: Thread): seq<Frame>
    requires th.stack != []
  {
    th.stack[..|th.stack| - 1]
  }

  /** The thread is running its own code, not waiting or sleeping. */
  predicate Awake(th: Thread) { th.stack == [] || Top(th).phase == Inside }

  function Set(s: State, t: nat, th: Thread): State { s.(threads := s.threads[t := th]) }

  /** The end of `_admit_transaction`: only the outermost block gives its slot back. */
  function Released(s: State, th: Thread): nat { if th.depth == 1 then s.free + 1 else s.free }

  function OutcomeOf(ending: Ending): RunOutcome
    requires !ending.Conflicts?
  {
    match ending
    case Commits(result) => Value(result)
    case Unavailable => DatabaseUnavailable
    case Raises(error) => Other(error)
  }

  function Ended(th: Thread, top: Frame, commits: nat, outcome: RunOutcome): Thread
    requires th.stack != [] && top.RunFrame? && th.depth > 0
  {
    Thread(th.depth - 1, Pop(th), th.reports + [Report(top.attempt + 1, commits, outcome)], th.refused)
  }

  function Next(s: State, e: Event): State {
    if e.Spawn? then if e.thread in s.threads then s else Set(s, e.thread, Thread(0, [], [], 0))
    else if e.thread !in s.threads then s
    else
      var th := s.threads[e.thread];
      match e
      case OpenGuard(t) => if Awake(th) then Set(s, t, th.(stack := th.stack + [GuardFrame(Asking)])) else s
      case StartRun(t) =>
        if !Awake(th) then s
        else if th.depth > 0 then Set(s, t, th.(refused := th.refused + 1))
        else Set(s, t, th.(stack := th.stack + [RunFrame(Asking, 0, 0)]))
      case Admit(t) =>
        if th.stack == [] || Top(th).phase != Asking then s
        else if th.depth > 0 then Set(s, t, th.(depth := th.depth + 1, stack := Pop(th) + [Top(th).(phase := Inside)]))
        else if s.free == 0 then s
        else Set(s.(free := s.free - 1), t, th.(depth := 1, stack := Pop(th) + [Top(th).(phase := Inside)]))
      case CloseGuard(t) =>
        if th.stack == [] || !Top(th).GuardFrame? || Top(th).phase != Inside || th.depth == 0 then s
        else Set(s.(free := Released(s, th)), t, th.(depth := th.depth - 1, stack := Pop(th)))
      case EndAttempt(t, ending) =>
        if th.stack == [] || !Top(th).RunFrame? || Top(th).phase != Inside || th.depth == 0 then s
        else
          var top, freed := Top(th), s.(free := Released(s, th));
          if !ending.Conflicts? then Set(freed, t, Ended(th, top, top.commits + (if ending.Commits? then 1 else 0), OutcomeOf(ending)))
          else if top.attempt == s.delays then Set(freed, t, Ended(th, top, top.commits, TransactionConflict))
          else Set(freed, t, th.(depth := th.depth - 1, stack := Pop(th) + [top.(phase := Sleeping)]))
      case Wake(t) =>
        if th.stack == [] || Top(th).phase != Sleeping || !Top(th).RunFrame? then s
        else Set(s, t, th.(stack := Pop(th) + [RunFrame(Asking, Top(th).attempt + 1, Top(th).commits)]))
  }

  function Run(s: State, es: seq<Event>): State {
    if es == [] then s else Next(Run(s, es[..|es| - 1]), es[|es| - 1])
  }

  function Initial(capacity: nat, delays: nat): State { State(capacity, capacity, delays, map[]) }

  // -------------------------------------------------------------- invariant

  function Admitted(threads: map<nat, Thread>): set<nat> { set t | t in threads && threads[t].depth > 0 }

  ghost predicate ReportOk(delays: nat, r: Report) {
    r.attempts <= delays + 1 && r.commits <= 1 && (r.outcome.Value? <==> r.commits == 1) && (r.outcome.TransactionConflict? ==> r.attempts == delays + 1)
  }

  /** All blocks but the last are entered; a run is always outermost and has not committed yet;
      the depth counts the entered blocks. */
  ghost predicate ThreadOk(delays: nat, th: Thread) {
    && (forall i | 0 <= i < |th.stack| - 1 :: th.stack[i].phase == Inside)
    && (forall i | 0 < i < |th.stack| :: th.stack[i].GuardFrame?)
    && (forall i | 0 <= i < |th.stack| && th.stack[i].RunFrame? :: th.stack[i].attempt <= delays && th.stack[i].commits == 0)
    && (forall i | 0 <= i < |th.stack| && th.stack[i].phase == Sleeping :: th.stack[i].RunFrame? && th.stack[i].attempt < delays)
    && th.depth == (if th.stack != [] && Top(th).phase != Inside then |th.stack| - 1 else |th.stack|)
    && (forall i | 0 <= i < |th.reports| :: ReportOk(delays, th.reports[i]))
  }

  ghost predicate Sound(s: State) {
    s.free + |Admitted(s.threads)| == s.capacity && forall t | t in s.threads :: ThreadOk(s.delays, s.threads[t])
  }

  /** Changing one thread changes the admitted ones by that thread at most. */
  lemma AdmittedMoves(threads: map<nat, Thread>, t: nat, th: Thread)
    ensures var was := t in threads && threads[t].depth > 0;
      |Admitted(threads[t := th])| == |Admitted(threads)| - (if was then 1 else 0) + (if th.depth > 0 then 1 else 0)
  {
    var before, after := Admitted(threads), Admitted(threads[t := th]);
    var others := before - {t};
    forall u ensures u in after <==> u in others || (u == t && th.depth > 0) {}
    SetSizes(before, others, t);
    SetSizes(after, others, t);
  }

  lemma SetSizes(s: set<nat>, others: set<nat>, t: nat)
    requires t !in others && forall u | u != t :: u in s <==> u in others
    ensures |s| == |others| + if t in s then 1 else 0
  {
    assert s == others + if t in s then {t} else {};
  }

  lemma {:induction false} ThreadStep(s: State, e: Event)
    requires !e.Spawn? && e.thread in s.threads && ThreadOk(s.delays, s.threads[e.thread])
    ensures var th, after := s.threads[e.thread], Next(s, e);
      && e.thread in after.threads && after == s.(free := after.free, threads := s.threads[e.thread := after.threads[e.thread]])
      && ThreadOk(s.delays, after.threads[e.thread])
      && after.free == s.free + (if th.depth > 0 then 1 else 0) - (if after.threads[e.thread].depth > 0 then 1 else 0)
  {
    hide ReportOk;
    var th := s.threads[e.thread];
    assert s == s.(threads := s.threads[e.thread := th]);
    match e
    case OpenGuard(t) =>
    case StartRun(t) =>
    case Admit(t) => AdmitStep(s, t);
    case CloseGuard(t) => CloseStep(s, t);
    case EndAttempt(t, ending) => AttemptStep(s, t, ending);
    case Wake(t) => AdmitStep(s, t);
  }

  lemma AdmitStep(s: State, t: nat)
    requires t in s.threads && ThreadOk(s.delays, s.threads[t])
    ensures forall e | e == Admit(t) || e == Wake(t) ::
      var after := Next(s, e);
      && t in after.threads && after == s.(free := after.free, threads := s.threads[t := after.threads[t]])
      && ThreadOk(s.delays, after.threads[t])
      && after.free == s.free + (if s.threads[t].depth > 0 then 1 else 0) - (if after.threads[t].depth > 0 then 1 else 0)
  {
    hide ReportOk;
    assert s == s.(threads := s.threads[t := s.threads[t]]);
  }

  lemma CloseStep(s: State, t: nat)
    requires t in s.threads && ThreadOk(s.delays, s.threads[t])
    ensures var after := Next(s, CloseGuard(t));
      && t in after.threads && after == s.(free := after.free, threads := s.threads[t := after.threads[t]])
      && ThreadOk(s.delays, after.threads[t])
      && after.free == s.free + (if s.threads[t].depth > 0 then 1 else 0) - (if after.threads[t].depth > 0 then 1 else 0)
  {
    hide ReportOk;
    assert s == s.(threads := s.threads[t := s.threads[t]]);
  }

  lemma {:induction false} AttemptStep(s: State, t: nat, ending: Ending)
    requires t in s.threads && ThreadOk(s.delays, s.threads[t])
    ensures var th, after := s.threads[t], Next(s, EndAttempt(t, ending));
      && t in after.threads && after == s.(free := after.free, threads := s.threads[t := after.threads[t]])
      && ThreadOk(s.delays, after.threads[t])
      && after.free == s.free + (if th.depth > 0 then 1 else 0) - (if after.threads[t].depth > 0 then 1 else 0)
  {
    var th := s.threads[t];
    assert s == s.(threads := s.threads[t := th]);
    if th.stack != [] && Top(th).RunFrame? { assert |th.stack| == 1; }
  }

  /** Every step of every thread keeps the invariant. */
  lemma {:induction false} StepKeeps(s: State, e: Event)
    requires Sound(s)
    ensures Sound(Next(s, e)) && Next(s, e).capacity == s.capacity && Next(s, e).delays == s.delays
  {
    hide ThreadOk, Admitted;
    if e.Spawn? {
      NewThread(s.delays);
      AdmittedMoves(s.threads, e.thread, Thread(0, [], [], 0));
    } else if e.thread in s.threads {
      ThreadStep(s, e);
      AdmittedMoves(s.threads, e.thread, Next(s, e).threads[e.thread]);
    }
  }

  lemma NewThread(delays: nat)
    ensures ThreadOk(delays, Thread(0, [], [], 0))
  {
  }

  lemma {:induction false} RunKeeps(capacity: nat, delays: nat, es: seq<Event>)
    ensures var s := Run(Initial(capacity, delays), es); Sound(s) && s.capacity == capacity && s.delays == delays
    decreases |es|
  {
    hide Next, ThreadOk;
    if es == [] {
      assert Admitted(map[]) == {};
    } else {
      RunKeeps(capacity, delays, es[..|es| - 1]);
      StepKeeps(Run(Initial(capacity, delays), es[..|es| - 1]), es[|es| - 1]);
    }
  }

  // --------------------------------------------------------------- theorems

  /** Over every interleaving: free slots plus threads inside equal the capacity, a thread takes
      one slot however deep it nests, and none while it sleeps between attempts. */
  lemma SlotsAreConserved(capacity: nat, delays: nat, es: seq<Event>, t: nat)
    ensures var s := Run(Initial(capacity, delays), es);
      && s.free + |Admitted(s.threads)| == capacity
      && (t in s.threads && s.threads[t].stack != [] && Top(s.threads[t]).phase == Sleeping ==> t !in Admitted(s.threads))
  {
    hide Run;
    RunKeeps(capacity, delays, es);
    var s := Run(Initial(capacity, delays), es);
    if t in s.threads && s.threads[t].stack != [] && Top(s.threads[t]).phase == Sleeping {
      assert ThreadOk(s.delays, s.threads[t]);
    }
  }

  /** Slots thread `t` has taken in a run, less those it has given back. */
  function SlotsTaken(capacity: nat, delays: nat, es: seq<Event>, t: nat): int {
    if es == [] then 0
    else
      var front, last := es[..|es| - 1], es[|es| - 1];
      var s := Run(Initial(capacity, delays), front);
      SlotsTaken(capacity, delays, front, t) + if last.thread == t then s.free - Next(s, last).free else 0
  }

  /** Over every interleaving, however deep a thread nests guards and runs, it holds one slot while
      it is inside any of them and none otherwise. */
  lemma {:induction false} OneSlotPerThread(capacity: nat, delays: nat, es: seq<Event>, t: nat)
    ensures var s := Run(Initial(capacity, delays), es);
      SlotsTaken(capacity, delays, es, t) == if t in s.threads && s.threads[t].stack != [] && EntersAny(s.threads[t]) then 1 else 0
    decreases |es|
  {
    hide Next, ThreadOk, EntersAny;
    if es == [] {
    } else {
      var front, last := es[..|es| - 1], es[|es| - 1];
      var s := Run(Initial(capacity, delays), front);
      OneSlotPerThread(capacity, delays, front, t);
      RunKeeps(capacity, delays, front);
      RunKeeps(capacity, delays, es);
      SlotStep(s, last, t);
    }
  }

  /** The thread is inside a block: one is entered. */
  predicate EntersAny(th: Thread) { exists i | 0 <= i < |th.stack| :: th.stack[i].phase == Inside }

  lemma EntersDepth(delays: nat, th: Thread)
    requires ThreadOk(delays, th)
    ensures th.depth > 0 <==> th.stack != [] && EntersAny(th)
  {
    hide ReportOk;
    if th.depth > 0 { assert th.stack[0].phase == Inside; }
  }

  lemma {:induction false} SlotStep(s: State, e: Event, t: nat)
    requires Sound(s) && Sound(Next(s, e)) && Next(s, e).delays == s.delays
    ensures var n := Next(s, e);
      var was, now := t in s.threads && s.threads[t].stack != [] && EntersAny(s.threads[t]), t in n.threads && n.threads[t].stack != [] && EntersAny(n.threads[t]);
      (if e.thread == t then s.free - n.free else 0) == (if now then 1 else 0) - (if was then 1 else 0)
  {
    hide ThreadOk, EntersAny, Admitted;
    var n := Next(s, e);
    if t in s.threads { EntersDepth(s.delays, s.threads[t]); }
    if t in n.threads { EntersDepth(s.delays, n.threads[t]); }
    if !e.Spawn? && e.thread in s.threads { ThreadStep(s, e); }
  }

  /** A run inside a guard or another run is refused and starts nothing; outside it is not. */
  lemma NestedRunIsRefused(capacity: nat, delays: nat, es: seq<Event>, t: nat)
    ensures var s := Run(Initial(capacity, delays), es);
      t in s.threads && Awake(s.threads[t]) ==>
        var after := Next(s, StartRun(t)).threads[t];
        if s.threads[t].stack == [] then after.stack == [RunFrame(Asking, 0, 0)] && after.refused == s.threads[t].refused
        else after == s.threads[t].(refused := s.threads[t].refused + 1)
  {
    hide Run;
    RunKeeps(capacity, delays, es);
    var s := Run(Initial(capacity, delays), es);
    if t in s.threads && Awake(s.threads[t]) { assert ThreadOk(s.delays, s.threads[t]); }
  }

  /** Every run that has ended made at most one more attempt than there are delays, committed at
      most once, and returned a value exactly if it committed. */
  lemma RunsAreBounded(capacity: nat, delays: nat, es: seq<Event>, t: nat, r: Report)
    ensures var s := Run(Initial(capacity, delays), es);
      t in s.threads && r in s.threads[t].reports ==>
        r.attempts <= delays + 1 && r.commits <= 1 && (r.outcome.Value? <==> r.commits == 1)
  {
    hide Run;
    RunKeeps(capacity, delays, es);
    var s := Run(Initial(capacity, delays), es);
    if t in s.threads { assert ThreadOk(s.delays, s.threads[t]); }
  }

  // ------------------------------------------------------------ the runner

  /** The attempt that decides a run: the first that does not conflict, or the last one. */
  predicate Decides(k: nat, delays: nat, endings: nat -> Ending) {
    k <= delays && (forall i | 0 <= i < k :: endings(i).Conflicts?) && (k == delays || !endings(k).Conflicts?)
  }

  class Runner {
    const delays: seq<nat>
    var free: nat
    var depth: nat

    constructor (delays: seq<nat>, free: nat)
      ensures this.delays == delays && this.free == free && depth == 0
    {
      this.delays, this.free, depth := delays, free, 0;
    }

    /** The runner as thread `t` of a state of the machine sees it. */
    ghost predicate Shows(s: State, t: nat)
      reads this
    {
      && s.free == free && s.delays == |delays| && t in s.threads && s.threads[t].depth == depth && ThreadOk(|delays|, s.threads[t])
    }

    /** Entering `_admit_transaction` once the semaphore lets the thread through: the machine's admission. */
    method Enter(ghost s: State, t: nat)
      requires Shows(s, t) && s.threads[t].stack != [] && Top(s.threads[t]).phase == Asking && (depth > 0 || free > 0)
      modifies this
      ensures Shows(Next(s, Admit(t)), t) && depth == |Next(s, Admit(t)).threads[t].stack| && Awake(Next(s, Admit(t)).threads[t])
    {
      ThreadStep(s, Admit(t));
      if depth == 0 { free := free - 1; }
      depth := depth + 1;
    }

    /** Leaving a guard: the machine's closing. */
    method Exit(ghost s: State, t: nat)
      requires Shows(s, t) && s.threads[t].stack != [] && Top(s.threads[t]).GuardFrame? && Top(s.threads[t]).phase == Inside
      modifies this
      ensures Shows(Next(s, CloseGuard(t)), t) && Next(s, CloseGuard(t)).threads[t].stack == Pop(s.threads[t])
    {
      ThreadStep(s, CloseGuard(t));
      Leave();
    }

    method Leave()
      requires depth > 0
      modifies this
      ensures depth == old(depth) - 1 && free == if old(depth) > 1 then old(free) else old(free) + 1
    {
      depth := depth - 1;
      if depth == 0 { free := free + 1; }
    }

    /** One attempt of the outermost run: admission, the operation, and the way out. */
    method Attempt(ghost s: State, t: nat, ending: Ending)
      requires Shows(s, t) && |s.threads[t].stack| == 1 && Top(s.threads[t]).RunFrame? && Top(s.threads[t]).phase == Asking && free > 0
      modifies this
      ensures free == old(free) && depth == 0 && old(depth) == 0
      ensures Shows(Next(Next(s, Admit(t)), EndAttempt(t, ending)), t)
    {
      Enter(s, t);
      ThreadStep(Next(s, Admit(t)), EndAttempt(t, ending));
      Leave();
    }

    /** `run`, called by thread `t` between its other blocks: attempt `i` ends as `endings(i)`.
        Whatever happens, the slot is free again, and the machine's report says what happened. */
    method RunTransaction(endings: nat -> Ending, ghost s: State, t: nat)
        returns (outcome: Option<RunOutcome>, attempts: nat, commits: nat, slept: seq<nat>, ghost after: State)
      requires Shows(s, t) && Awake(s.threads[t]) && (depth > 0 || free > 0)
      modifies this
      ensures Shows(after, t) && free == old(free) && depth == old(depth)
      ensures outcome.None? <==> s.threads[t].stack != []
      ensures outcome.None? ==> after == Next(s, StartRun(t)) && attempts == 0 && commits == 0 && slept == []
      ensures outcome.Some? ==>
        && after.threads[t] == s.threads[t].(reports := s.threads[t].reports + [Report(attempts, commits, outcome.value)])
        && 1 <= attempts <= |delays| + 1 && Decides(attempts - 1, |delays|, endings) && slept == delays[..attempts - 1]
        && outcome.value == (match endings(attempts - 1)
                             case Commits(result) => Value(result)
                             case Conflicts => TransactionConflict
                             case Unavailable => DatabaseUnavailable
                             case Raises(error) => Other(error))
        && commits == (if outcome.value.Value? then 1 else 0)
    {
      hide ThreadOk, ReportOk, Next, Top, Awake, Ended;
      attempts, commits, slept := 0, 0, [];
      after := Next(s, StartRun(t));
      ThreadStep(s, StartRun(t));
      StartedRun(s, t);
      BetweenBlocks(|delays|, s.threads[t]);
      if depth > 0 { return None, 0, 0, [], after; }
      for attempt := 0 to |delays| + 1
        invariant depth == 0 && free == old(free) && attempts == attempt <= |delays| && commits == 0 && slept == delays[..attempt]
        invariant forall i | 0 <= i < attempt :: endings(i).Conflicts?
        invariant Shows(after, t) && after.threads[t] == s.threads[t].(stack := [RunFrame(Asking, attempt, 0)])
      {
        var ending := endings(attempt);
        AttemptEnds(after, t, ending, attempt);
        Attempt(after, t, ending);
        after := Next(Next(after, Admit(t)), EndAttempt(t, ending));
        attempts := attempts + 1;
        if ending.Commits? { commits := commits + 1; }
        if !ending.Conflicts? { return Some(OutcomeOf(ending)), attempts, commits, slept, after; }
        if attempt == |delays| { return Some(TransactionConflict), attempts, commits, slept, after; }
        slept := slept + [delays[attempt]];
        ThreadStep(after, Wake(t));
        Woken(after, t, attempt);
        after := Next(after, Wake(t));
      }
      assert false;
    }
  }

  lemma StartedRun(s: State, t: nat)
    requires t in s.threads && Awake(s.threads[t])
    ensures var th, n := s.threads[t], Next(s, StartRun(t));
      && t in n.threads && n.threads[t].depth == th.depth && n.free == s.free && n.delays == s.delays
      && (th.depth == 0 ==> n.threads[t] == th.(stack := th.stack + [RunFrame(Asking, 0, 0)]))
  {
  }

  /** What admission and one ending make of the outermost run. */
  lemma AttemptEnds(s: State, t: nat, ending: Ending, attempt: nat)
    requires t in s.threads && s.threads[t].stack == [RunFrame(Asking, attempt, 0)] && s.threads[t].depth == 0 && s.free > 0
    ensures Top(s.threads[t]) == RunFrame(Asking, attempt, 0)
    ensures var th, n := s.threads[t], Next(Next(s, Admit(t)), EndAttempt(t, ending));
      && t in n.threads && n.free == s.free && n.delays == s.delays
      && n.threads[t] ==
           if !ending.Conflicts? then
             th.(stack := [], reports := th.reports + [Report(attempt + 1, if ending.Commits? then 1 else 0, OutcomeOf(ending))])
           else if attempt == s.delays then th.(stack := [], reports := th.reports + [Report(attempt + 1, 0, TransactionConflict)])
           else th.(stack := [RunFrame(Sleeping, attempt, 0)])
  {
  }

  lemma Woken(s: State, t: nat, attempt: nat)
    requires t in s.threads && s.threads[t].stack == [RunFrame(Sleeping, attempt, 0)]
    ensures var n := Next(s, Wake(t));
      && t in n.threads && n.free == s.free && n.delays == s.delays
      && n.threads[t] == s.threads[t].(stack := [RunFrame(Asking, attempt + 1, 0)])
  {
  }

  lemma BetweenBlocks(delays: nat, th: Thread)
    requires ThreadOk(delays, th) && Awake(th)
    ensures th.depth == |th.stack|
  {
    hide ReportOk;
  }
}
