/** The task executor: a worker thread as the only consumer of its own blocking queue. */
module TaskExecution {
  import opened Basics
  import opened BlockingQueue

  /** Where the worker thread is. */
  datatype Worker<T> = NotStarted | Ready | InWait | Running(task: T) | Exited

  /** The executor's queue, its worker, and the tasks the worker has run to the end. */
  datatype Executor<T> = Executor(q: Monitor<T>, worker: Worker<T>, done: seq<T>)

  const WORKER: nat := 0

  function NewExecutor<T>(capacity: nat): Executor<T> {
    Executor(Init(Fresh<T>(), capacity), NotStarted, [])
  }

  /** The worker's loop leaves when Pop returns false and otherwise runs what it got. */
  function AfterPop<T>(e: Executor<T>, r: (Monitor<T>, BlockingQueue.Outcome<T>)): Executor<T> {
    e.(q := r.0, worker := match r.1
                           case Blocks => InWait
                           case Returns(ok, x) => if ok && x.Some? then Running(x.value) else Exited)
  }

  datatype Move<T> =
    | Submit(t: nat, x: T, isWait: bool, pick: nat)
    | SubmitWake(t: nat, pick: nat)
    | StartThread
    | WorkerPop(pick: nat)
    | WorkerWake(pick: nat)
    | WorkerDone
    | StopLocked
    | StopNotifyConsumers
    | StopNotifyProducers

  predicate MayMove<T>(e: Executor<T>, a: Move<T>) {
    match a
    case Submit(t, x, isWait, pick) => t != WORKER && Enabled(e.q, DoPush(t, x, isWait, pick))
    case SubmitWake(t, pick) => Enabled(e.q, DoPushWake(t, pick))
    case StartThread => e.worker == NotStarted
    case WorkerPop(pick) => e.worker == Ready && PicksProducer(e.q, pick)
    case WorkerWake(pick) => e.worker == InWait && PicksProducer(e.q, pick)
    case WorkerDone => e.worker.Running?
    case StopLocked => true
    case StopNotifyConsumers => e.q.pendE > 0
    case StopNotifyProducers => e.q.pendF > e.q.pendE
  }

  function MoveOn<T>(e: Executor<T>, a: Move<T>): Executor<T>
    requires MayMove(e, a)
  {
    match a
    case Submit(t, x, isWait, pick) => e.(q := Do(e.q, DoPush(t, x, isWait, pick)))
    case SubmitWake(t, pick) => e.(q := Do(e.q, DoPushWake(t, pick)))
    case StartThread => e.(worker := Ready)
    case WorkerPop(pick) => AfterPop(e, PopEnter(e.q, WORKER, pick))
    case WorkerWake(pick) => AfterPop(e, PopWake(e.q, WORKER, false, pick))
    case WorkerDone => e.(worker := Ready, done := e.done + [e.worker.task])
    case StopLocked => e.(q := Do(e.q, DoUninit))
    case StopNotifyConsumers => e.(q := Do(e.q, DoNotifyConsumers))
    case StopNotifyProducers => e.(q := Do(e.q, DoNotifyProducers))
  }

  /** What the worker took off the queue is what it ran, plus the task it is running. */
  ghost predicate Works<T>(e: Executor<T>) {
    && Inv(e.q) && e.q.popped <= e.q.accepted
    && e.q.popped == e.done + (if e.worker.Running? then [e.worker.task] else [])
    && e.q.waitC + e.q.wokenC == (if e.worker == InWait then {WORKER} else {})
    && WORKER !in e.q.waitP && WORKER !in e.q.wokenP
    && (e.worker == Exited ==> !e.q.available)
  }

  lemma SubmitKeeps<T>(e: Executor<T>, a: Act<T>)
    requires Works(e) && Enabled(e.q, a)
    requires (a.DoPush? && a.t != WORKER) || a.DoPushWake?
    ensures Works(e.(q := Do(e.q, a)))
  {
    hide Core, Room, Enabled, Do;
    StepKeeps(e.q, a);
    PushLeavesConsumers(e.q, a);
  }

  /** Pushing takes nothing off the queue and moves consumers only from waiting to woken. */
  lemma PushLeavesConsumers<T>(m: Monitor<T>, a: Act<T>)
    requires Enabled(m, a)
    requires (a.DoPush? && a.t != WORKER) || a.DoPushWake?
    requires WORKER !in m.waitP && WORKER !in m.wokenP
    ensures var m' := Do(m, a);
            && m'.popped == m.popped && m.accepted <= m'.accepted && m'.available == m.available
            && m'.waitC + m'.wokenC == m.waitC + m.wokenC
            && WORKER !in m'.waitP && WORKER !in m'.wokenP
  {
  }

  lemma WorkerPopKeeps<T>(e: Executor<T>, pick: nat)
    requires Works(e) && e.worker == Ready && PicksProducer(e.q, pick)
    ensures Works(AfterPop(e, PopEnter(e.q, WORKER, pick)))
  {
    hide Core, Room;
    FifoOf(e.q);
    StepKeeps(e.q, DoPop(WORKER, pick));
  }

  lemma WorkerWakeKeeps<T>(e: Executor<T>, pick: nat)
    requires Works(e) && e.worker == InWait && PicksProducer(e.q, pick)
    ensures Works(AfterPop(e, PopWake(e.q, WORKER, false, pick)))
  {
    hide Core, Room;
    assert WORKER in e.q.waitC + e.q.wokenC;
    FifoOf(e.q);
    StepKeeps(e.q, DoPopWake(WORKER, false, pick));
  }

  /** What the next pop takes is the next element accepted. */
  lemma FifoOf<T>(m: Monitor<T>)
    requires Core(m)
    ensures m.available && m.queue != [] ==> m.popped + [m.queue[0]] <= m.accepted
  {
  }

  lemma MoveKeeps<T>(e: Executor<T>, a: Move<T>)
    requires Works(e) && MayMove(e, a)
    ensures Works(MoveOn(e, a))
  {
    hide Core, Room, AfterPop, PopEnter, PopWake;
    match a
    case Submit(t, x, isWait, pick) => SubmitKeeps(e, DoPush(t, x, isWait, pick));
    case SubmitWake(t, pick) => SubmitKeeps(e, DoPushWake(t, pick));
    case StartThread =>
    case WorkerPop(pick) => WorkerPopKeeps(e, pick);
    case WorkerWake(pick) => WorkerWakeKeeps(e, pick);
    case WorkerDone =>
    case StopLocked => StepKeeps(e.q, DoUninit);
    case StopNotifyConsumers => StepKeeps(e.q, DoNotifyConsumers);
    case StopNotifyProducers => StepKeeps(e.q, DoNotifyProducers);
  }

  predicate CanMove<T>(e: Executor<T>, moves: seq<Move<T>>)
    decreases |moves|
  {
    moves == [] || (MayMove(e, moves[0]) && CanMove(MoveOn(e, moves[0]), moves[1..]))
  }

  function After<T>(e: Executor<T>, moves: seq<Move<T>>): Executor<T>
    requires CanMove(e, moves)
    decreases |moves|
  {
    if moves == [] then e else After(MoveOn(e, moves[0]), moves[1..])
  }

  lemma {:induction false} MovesKeep<T>(e: Executor<T>, moves: seq<Move<T>>)
    requires Works(e) && CanMove(e, moves)
    ensures Works(After(e, moves))
    decreases |moves|
  {
    if moves != [] {
      MoveKeeps(e, moves[0]);
      MovesKeep(MoveOn(e, moves[0]), moves[1..]);
    }
  }

  /** How many of the moves satisfy `p`. */
  ghost function Tally<T(!new)>(moves: seq<Move<T>>, p: Move<T> -> bool): nat {
    if moves == [] then 0 else (if p(moves[0]) then 1 else 0) + Tally(moves[1..], p)
  }

  ghost function Starts<T(!new)>(moves: seq<Move<T>>): nat {
    Tally(moves, (a: Move<T>) => a.StartThread?)
  }

  ghost function Stops<T(!new)>(moves: seq<Move<T>>): nat {
    Tally(moves, (a: Move<T>) => a.StopLocked?)
  }

  ghost function WorkerTold<T(!new)>(moves: seq<Move<T>>): nat {
    Tally(moves, (a: Move<T>) => a.StopNotifyConsumers?)
  }

  ghost function SubmittersTold<T(!new)>(moves: seq<Move<T>>): nat {
    Tally(moves, (a: Move<T>) => a.StopNotifyProducers?)
  }

  lemma StopStep<T>(e: Executor<T>, a: Move<T>)
    requires MayMove(e, a)
    ensures var e' := MoveOn(e, a);
            && e'.q.available == (e.q.available && !a.StopLocked?)
            && e'.q.pendE == e.q.pendE + (if a.StopLocked? then 1 else if a.StopNotifyConsumers? then -1 else 0)
            && e'.q.pendF == e.q.pendF + (if a.StopLocked? then 1 else if a.StopNotifyProducers? then -1 else 0)
            && (e'.worker == NotStarted <==> e.worker == NotStarted && !a.StartThread?)
  {
  }

  /** The queue is open until the first StopThread, and what is owed is what was not yet done. */
  lemma {:induction false} StopRun<T(!new)>(e: Executor<T>, moves: seq<Move<T>>)
    requires CanMove(e, moves)
    ensures var e' := After(e, moves);
            && e'.q.available == (e.q.available && Stops(moves) == 0)
            && e'.q.pendE == e.q.pendE + Stops(moves) - WorkerTold(moves)
            && e'.q.pendF == e.q.pendF + Stops(moves) - SubmittersTold(moves)
            && (e'.worker == NotStarted <==> e.worker == NotStarted && Starts(moves) == 0)
    decreases |moves|
  {
    hide MayMove, MoveOn;
    if moves != [] {
      StopStep(e, moves[0]);
      StopRun(MoveOn(e, moves[0]), moves[1..]);
    }
  }

  /** In every run the tasks executed are a prefix of those accepted, in order and each once. The
      worker exits only after a StopThread; until then, whenever it is about to pop and a task is
      left, the next one it runs is the oldest not yet run. Once every StopThread has made both its
      notifications the worker is not left waiting: it has exited, was never started, is running
      its last task, or leaves at its next step. */
  lemma {:induction false} ExecutorRuns<T(!new)>(capacity: nat, moves: seq<Move<T>>, pick: nat)
    requires CanMove(NewExecutor<T>(capacity), moves)
    ensures var e := After(NewExecutor<T>(capacity), moves);
            && e.done <= e.q.accepted
            && (e.worker.Running? ==> e.done + [e.worker.task] <= e.q.accepted)
            && (e.worker == NotStarted <==> Starts(moves) == 0)
            && (e.worker == Exited ==> Stops(moves) > 0)
            && (Stops(moves) == 0 && e.worker == Ready && e.done != e.q.accepted && PicksProducer(e.q, pick) ==>
                  MoveOn(e, WorkerPop(pick)).worker == Running(e.q.accepted[|e.done|]))
            && (Stops(moves) > 0 && Stops(moves) == WorkerTold(moves) == SubmittersTold(moves) ==>
                  && e.q.waitC == {} && e.q.waitP == map[]
                  && (e.worker == Ready ==> MoveOn(e, WorkerPop(pick)).worker == Exited)
                  && (e.worker == InWait ==> MoveOn(e, WorkerWake(pick)).worker == Exited))
  {
    hide CanMove, MoveOn, MayMove, Works;
    var e := After(NewExecutor<T>(capacity), moves);
    NewWorks<T>(capacity);
    MovesKeep(NewExecutor<T>(capacity), moves);
    StopRun(NewExecutor<T>(capacity), moves);
    WorkedPrefix(e, pick);
  }

  lemma NewWorks<T>(capacity: nat)
    ensures Works(NewExecutor<T>(capacity)) && NewExecutor<T>(capacity).q.available
    ensures NewExecutor<T>(capacity).q.pendE == 0 && NewExecutor<T>(capacity).q.pendF == 0
    ensures NewExecutor<T>(capacity).worker == NotStarted
  {
  }

  lemma WorkedPrefix<T>(e: Executor<T>, pick: nat)
    requires Works(e)
    ensures e.done <= e.q.accepted
    ensures e.worker.Running? ==> e.done + [e.worker.task] <= e.q.accepted
    ensures e.worker == Exited ==> !e.q.available
    ensures e.q.available && e.worker == Ready && e.done != e.q.accepted && PicksProducer(e.q, pick) ==>
              MoveOn(e, WorkerPop(pick)).worker == Running(e.q.accepted[|e.done|])
    ensures !e.q.available && e.q.pendE == 0 && e.q.pendF == 0 ==>
              && e.q.waitC == {} && e.q.waitP == map[]
              && (e.worker == Ready ==> MoveOn(e, WorkerPop(pick)).worker == Exited)
              && (e.worker == InWait ==> MoveOn(e, WorkerWake(pick)).worker == Exited)
  {
    if e.q.available && e.worker == Ready && e.done != e.q.accepted {
      assert e.q.accepted == e.done + e.q.queue;
    }
  }

  /** Each method is one critical section, or one stretch of the worker between two of them. */
  class TaskExecutor<T> {
    const queue: QueueUtil<T>
    var worker: Worker<T>
    var done: seq<T>

    ghost function View(): Executor<T>
      reads this, queue
    {
      Executor(queue.View(), worker, done)
    }

    constructor (capacity: nat)
      ensures fresh(queue) && View() == NewExecutor<T>(capacity) && Works(View())
    {
      queue := new QueueUtil();
      worker, done := NotStarted, [];
      new;
      queue.Initialise(capacity);
    }

    method AddAsyncTask(t: nat, task: T, isWait: bool) returns (r: BlockingQueue.Outcome<T>, pick: nat)
      requires Works(View()) && t != WORKER && View().q.Idle(t)
      modifies queue
      ensures Works(View()) && MayMove(old(View()), Submit(t, task, isWait, pick))
      ensures View() == MoveOn(old(View()), Submit(t, task, isWait, pick))
      ensures (View().q, r) == PushEnter(old(View()).q, t, task, isWait, pick)
    {
      hide Core, Room, PushEnter;
      r, pick := queue.Push(t, task, isWait);
      MoveKeeps(old(View()), Submit(t, task, isWait, pick));
    }

    /** Creating the thread may fail, which leaves the executor without a worker. */
    method StartThread(created: bool)
      requires Works(View()) && worker == NotStarted
      modifies `worker
      ensures Works(View())
      ensures View() == if created then MoveOn(old(View()), Move.StartThread) else old(View())
    {
      if !created {
        return;
      }
      worker := Ready;
    }

    /** The worker's loop up to its Pop: it blocks, leaves, or has a task to run. */
    method PopTask() returns (pick: nat)
      requires Works(View()) && worker == Ready
      modifies `worker, queue
      ensures Works(View()) && MayMove(old(View()), WorkerPop(pick))
      ensures View() == MoveOn(old(View()), WorkerPop(pick))
    {
      hide Core, Room, PopEnter;
      var r: BlockingQueue.Outcome<T>;
      r, pick := queue.Pop(WORKER);
      MoveKeeps(old(View()), WorkerPop(pick));
      Proceed(r);
    }

    /** The worker inside its Pop is woken. */
    method ResumeTask() returns (pick: nat)
      requires Works(View()) && worker == InWait
      modifies `worker, queue
      ensures Works(View()) && MayMove(old(View()), WorkerWake(pick))
      ensures View() == MoveOn(old(View()), WorkerWake(pick))
    {
      hide Core, Room, PopWake;
      assert WORKER in queue.waitC + queue.wokenC;
      var r: BlockingQueue.Outcome<T>;
      r, pick := queue.ResumePop(WORKER, false);
      MoveKeeps(old(View()), WorkerWake(pick));
      Proceed(r);
    }

    method Proceed(r: BlockingQueue.Outcome<T>)
      modifies `worker
      ensures worker == AfterPop(old(View()), (old(View()).q, r)).worker
    {
      match r
      case Blocks => worker := InWait;
      case Returns(ok, x) =>
        if ok && x.Some? {
          worker := Running(x.value);
        } else {
          worker := Exited;
        }
    }

    /** The task the worker took has run to its end. */
    method FinishTask()
      requires Works(View()) && worker.Running?
      modifies `worker, `done
      ensures Works(View()) && View() == MoveOn(old(View()), WorkerDone)
    {
      done := done + [worker.task];
      worker := Ready;
    }

    /** The three sections of StopThread before it joins the worker. */
    method CloseQueue()
      requires Works(View())
      modifies queue
      ensures Works(View()) && View() == MoveOn(old(View()), StopLocked)
    {
      hide Core, Room;
      MoveKeeps(View(), StopLocked);
      queue.Close();
    }

    method NotifyWorker()
      requires Works(View()) && queue.pendE > 0
      modifies queue
      ensures Works(View()) && View() == MoveOn(old(View()), StopNotifyConsumers)
    {
      hide Core, Room;
      MoveKeeps(View(), StopNotifyConsumers);
      queue.WakeConsumers();
    }

    method NotifySubmitters()
      requires Works(View()) && queue.pendF > queue.pendE
      modifies queue
      ensures Works(View()) && View() == MoveOn(old(View()), StopNotifyProducers)
    {
      hide Core, Room;
      MoveKeeps(View(), StopNotifyProducers);
      queue.WakeProducers();
    }
  }
}
