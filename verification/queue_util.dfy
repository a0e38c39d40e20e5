/** The bounded blocking queue as a monitor: every critical section of its operations, with
    the threads that wait on its two condition variables made explicit. */
module BlockingQueue {
  import opened Basics

  /** The queue and its waiters. A waiting thread is blocked; a woken one was notified and has
      not yet taken the lock again. A blocked producer keeps the element it wants to push.
      `pendE` and `pendF` count Uninit calls that still owe notify_all to the consumers and
      to the producers. `accepted` and `popped` record what went in and out since Init. */
  datatype Monitor<T> = Monitor(
    available: bool,
    capacity: nat,
    queue: seq<T>,
    waitC: set<nat>,
    wokenC: set<nat>,
    waitP: map<nat, T>,
    wokenP: map<nat, T>,
    pendE: nat,
    pendF: nat,
    accepted: seq<T>,
    popped: seq<T>)
  {
    predicate Waits(t: nat) {
      t in waitP || t in wokenP
    }
    predicate Idle(t: nat) {
      t !in waitC && t !in wokenC && t !in waitP && t !in wokenP
    }
  }

  function Fresh<T>(): Monitor<T> {
    Monitor(false, 0, [], {}, {}, map[], map[], 0, 0, [], [])
  }

  /** How a critical section ends: the call returns, or the thread blocks. */
  datatype Outcome<T> = Returns(ok: bool, element: Option<T>) | Blocks

  // ---- Notification.

  /** notify_one wakes one waiter, any one, if there is one. */
  predicate PicksConsumer<T>(m: Monitor<T>, pick: nat) {
    m.waitC != {} ==> pick in m.waitC
  }

  predicate PicksProducer<T>(m: Monitor<T>, pick: nat) {
    m.waitP != map[] ==> pick in m.waitP
  }

  function NotifyConsumer<T>(m: Monitor<T>, pick: nat): Monitor<T> {
    if pick in m.waitC then m.(waitC := m.waitC - {pick}, wokenC := m.wokenC + {pick}) else m
  }

  function NotifyProducer<T>(m: Monitor<T>, pick: nat): Monitor<T> {
    if pick in m.waitP then m.(waitP := m.waitP - {pick}, wokenP := m.wokenP[pick := m.waitP[pick]]) else m
  }

  // ---- The critical sections.

  /** Opening a closed queue starts its records anew; on an open one only the capacity changes. */
  function Init<T>(m: Monitor<T>, capacity: nat): Monitor<T> {
    if m.available then m.(capacity := capacity)
    else m.(available := true, capacity := capacity, accepted := [], popped := [])
  }

  function PushNow<T>(m: Monitor<T>, x: T, pick: nat): Monitor<T> {
    NotifyConsumer(m.(queue := m.queue + [x], accepted := m.accepted + [x]), pick)
  }

  function PopNow<T>(m: Monitor<T>, pick: nat): Monitor<T>
    requires m.queue != []
  {
    NotifyProducer(m.(queue := m.queue[1..], popped := m.popped + [m.queue[0]]), pick)
  }

  /** Push from taking the lock to returning or blocking. */
  function PushEnter<T>(m: Monitor<T>, t: nat, x: T, isWait: bool, pick: nat): (Monitor<T>, Outcome<T>) {
    if !m.available then (m, Returns(false, None))
    else if |m.queue| >= m.capacity then
      if !isWait then (m, Returns(false, None)) else (m.(waitP := m.waitP[t := x]), Blocks)
    else (PushNow(m, x, pick), Returns(true, None))
  }

  /** Thread `t` is no longer among the producers that wait, nor among those woken. */
  function ProducerUp<T>(m: Monitor<T>, t: nat): Monitor<T> {
    m.(waitP := m.waitP - {t}, wokenP := m.wokenP - {t})
  }

  function ConsumerUp<T>(m: Monitor<T>, t: nat): Monitor<T> {
    m.(waitC := m.waitC - {t}, wokenC := m.wokenC - {t})
  }

  /** A blocked producer takes the lock again: notified, or woken for no reason. */
  function PushWake<T>(m: Monitor<T>, t: nat, pick: nat): (Monitor<T>, Outcome<T>)
    requires t in m.waitP || t in m.wokenP
  {
    var x := if t in m.wokenP then m.wokenP[t] else m.waitP[t];
    var m := ProducerUp(m, t);
    if m.available && |m.queue| >= m.capacity then (m.(waitP := m.waitP[t := x]), Blocks)
    else if !m.available then (m, Returns(false, None))
    else (PushNow(m, x, pick), Returns(true, None))
  }

  /** Pop or PopUntilTimeout from taking the lock to returning or blocking. */
  function PopEnter<T>(m: Monitor<T>, t: nat, pick: nat): (Monitor<T>, Outcome<T>) {
    if !m.available then (m, Returns(false, None))
    else if m.queue == [] then (m.(waitC := m.waitC + {t}), Blocks)
    else (PopNow(m, pick), Returns(true, Some(m.queue[0])))
  }

  /** A blocked consumer takes the lock again: notified, woken for no reason, or timed out. */
  function PopWake<T>(m: Monitor<T>, t: nat, timedOut: bool, pick: nat): (Monitor<T>, Outcome<T>) {
    var m := ConsumerUp(m, t);
    if m.available && m.queue == [] then
      if timedOut then (m, Returns(false, None)) else (m.(waitC := m.waitC + {t}), Blocks)
    else if !m.available then (m, Returns(false, None))
    else (PopNow(m, pick), Returns(true, Some(m.queue[0])))
  }

  /** Uninit up to releasing the lock; both notify_all calls come after. */
  function UninitLocked<T>(m: Monitor<T>): Monitor<T> {
    m.(available := false, capacity := 0, queue := [], pendE := m.pendE + 1, pendF := m.pendF + 1)
  }

  function NotifyAllConsumers<T>(m: Monitor<T>): Monitor<T>
    requires m.pendE > 0
  {
    m.(waitC := {}, wokenC := m.wokenC + m.waitC, pendE := m.pendE - 1)
  }

  function NotifyAllProducers<T>(m: Monitor<T>): Monitor<T>
    requires m.pendF > 0
  {
    m.(waitP := map[], wokenP := m.wokenP + m.waitP, pendF := m.pendF - 1)
  }

  /** PopLen takes up to `maxLen` elements and notifies nobody. */
  function PopLen<T>(m: Monitor<T>, maxLen: nat): Monitor<T> {
    if !m.available then m
    else
      var k := if |m.queue| < maxLen then |m.queue| else maxLen;
      m.(queue := m.queue[k..], popped := m.popped + m.queue[..k])
  }

  // ---- What every critical section keeps.

  /** If a consumer is still waiting, every queued element has a woken consumer coming for it. */
  ghost predicate NoLostConsumer<T>(m: Monitor<T>) {
    m.waitC != {} ==> |m.queue| <= |m.wokenC|
  }

  /** While open, what was popped followed by what is queued is what was accepted, in order. */
  ghost predicate Fifo<T>(m: Monitor<T>) {
    if m.available then m.accepted == m.popped + m.queue
    else m.queue == [] && m.capacity == 0 && m.popped <= m.accepted
  }

  /** After Uninit only threads it still owes a notification are waiting. */
  ghost predicate Drains<T>(m: Monitor<T>) {
    && m.pendE <= m.pendF
    && (!m.available && m.waitC != {} ==> m.pendE > 0)
    && (!m.available && m.waitP != map[] ==> m.pendF > 0)
  }

  ghost predicate OnePlace<T>(m: Monitor<T>) {
    && (forall t :: t in m.waitC ==> t !in m.wokenC)
    && (forall t :: t in m.waitP ==> t !in m.wokenP)
  }

  /** What holds however the queue is used. */
  ghost predicate Core<T>(m: Monitor<T>) {
    NoLostConsumer(m) && Fifo(m) && Drains(m) && OnePlace(m)
  }

  /** If a producer is still waiting, every free slot has a woken producer coming for it. */
  ghost predicate NoLostProducer<T>(m: Monitor<T>) {
    m.waitP != map[] && m.pendF == 0 ==> m.capacity - |m.queue| <= |m.wokenP|
  }

  /** What holds as long as the queue is used with care: its capacity, and no lost producer. */
  ghost predicate Room<T>(m: Monitor<T>) {
    NoLostProducer(m) && |m.queue| <= m.capacity
  }

  ghost predicate Inv<T>(m: Monitor<T>) {
    Core(m) && Room(m)
  }

  lemma PushNowKeeps<T>(m: Monitor<T>, x: T, pick: nat)
    requires Core(m) && m.available && |m.queue| < m.capacity && PicksConsumer(m, pick)
    ensures Core(PushNow(m, x, pick))
    ensures (m.waitP != map[] && m.pendF == 0 ==> m.capacity - |m.queue| - 1 <= |m.wokenP|)
            ==> Room(PushNow(m, x, pick))
  {
    var m' := PushNow(m, x, pick);
    assert Fifo(m') by {
      assert m.popped + m.queue + [x] == m.popped + (m.queue + [x]);
    }
    assert OnePlace(m');
    assert NoLostConsumer(m') by {
      assert m.waitC != {} ==> |m'.wokenC| == |m.wokenC| + 1;
    }
  }

  lemma PopNowKeeps<T>(m: Monitor<T>, pick: nat)
    requires Fifo(m) && Drains(m) && OnePlace(m)
    requires m.available && m.queue != [] && PicksProducer(m, pick)
    requires m.waitC != {} ==> |m.queue| - 1 <= |m.wokenC|
    ensures Core(PopNow(m, pick))
    ensures Room(m) ==> Room(PopNow(m, pick))
  {
    hide Fifo, PopNow;
    PopNowFifo(m, pick);
    PopNowWakes(m, pick);
  }

  lemma PopNowWakes<T>(m: Monitor<T>, pick: nat)
    requires OnePlace(m) && m.queue != [] && PicksProducer(m, pick)
    ensures var m' := PopNow(m, pick);
            && OnePlace(m') && m'.(queue := [], popped := [], waitP := map[], wokenP := map[])
                               == m.(queue := [], popped := [], waitP := map[], wokenP := map[])
            && (m.waitP == map[] ==> m'.waitP == map[] && m'.wokenP == m.wokenP)
            && (m.waitP != map[] ==> |m'.wokenP| == |m.wokenP| + 1)
  {
    var m' := PopNow(m, pick);
    if m.waitP != map[] {
      assert m'.wokenP.Keys == m.wokenP.Keys + {pick};
      MapSize(m.wokenP);
      MapSize(m'.wokenP);
    }
  }

  lemma PopNowFifo<T>(m: Monitor<T>, pick: nat)
    requires Fifo(m) && m.available && m.queue != []
    ensures Fifo(PopNow(m, pick)) && |PopNow(m, pick).queue| == |m.queue| - 1
  {
    assert m.popped + m.queue == m.popped + [m.queue[0]] + m.queue[1..];
  }

  lemma MapSize<T>(p: map<nat, T>)
    ensures |p| == |p.Keys|
  {
  }

  lemma PushEnterKeeps<T>(m: Monitor<T>, t: nat, x: T, isWait: bool, pick: nat)
    requires Core(m) && m.Idle(t) && PicksConsumer(m, pick)
    ensures var m' := PushEnter(m, t, x, isWait, pick).0; Core(m') && (Room(m) ==> Room(m'))
  {
    hide PushNow;
    if m.available && |m.queue| < m.capacity {
      PushNowKeeps(m, x, pick);
    }
  }

  lemma PushWakeKeeps<T>(m: Monitor<T>, t: nat, pick: nat)
    requires Core(m) && (t in m.waitP || t in m.wokenP) && PicksConsumer(m, pick)
    ensures var m' := PushWake(m, t, pick).0; Core(m') && (Room(m) ==> Room(m'))
  {
    hide Core, Room, PushNow, ProducerUp;
    var x := if t in m.wokenP then m.wokenP[t] else m.waitP[t];
    var m1 := ProducerUp(m, t);
    ProducerUpKeeps(m, t);
    if m1.available && |m1.queue| >= m1.capacity {
      WaitAgainKeeps(m1, t, x);
    } else if m1.available {
      PushNowKeeps(m1, x, pick);
    }
  }

  /** A producer that got up leaves at most one slot unspoken for. */
  lemma ProducerUpKeeps<T>(m: Monitor<T>, t: nat)
    requires Core(m)
    ensures var m' := ProducerUp(m, t);
            && Core(m') && !m'.Waits(t) && m'.(waitP := m.waitP, wokenP := m.wokenP) == m
            && (!m.available ==> Room(m'))
            && (Room(m) ==> |m.queue| <= m.capacity
                            && (m'.waitP != map[] && m.pendF == 0 ==> m.capacity - |m.queue| - 1 <= |m'.wokenP|))
  {
    var m' := ProducerUp(m, t);
    RemoveOne(m.wokenP, t);
    assert m'.waitP != map[] ==> m.waitP != map[];
  }

  lemma WaitAgainKeeps<T>(m: Monitor<T>, t: nat, x: T)
    requires Core(m) && m.available && |m.queue| >= m.capacity && !m.Waits(t)
    ensures var m' := m.(waitP := m.waitP[t := x]);
            Core(m') && (|m.queue| <= m.capacity ==> Room(m'))
  {
  }

  lemma RemoveOne<T>(p: map<nat, T>, t: nat)
    ensures |p - {t}| >= |p| - 1
    ensures t !in p ==> p - {t} == p
  {
    assert (p - {t}).Keys == p.Keys - {t};
    MapSize(p);
    MapSize(p - {t});
  }

  lemma PopEnterKeeps<T>(m: Monitor<T>, t: nat, pick: nat)
    requires Core(m) && m.Idle(t) && PicksProducer(m, pick)
    ensures var m' := PopEnter(m, t, pick).0; Core(m') && (Room(m) ==> Room(m'))
  {
    hide PopNow;
    if m.available && m.queue != [] {
      PopNowKeeps(m, pick);
    }
  }

  lemma PopWakeKeeps<T>(m: Monitor<T>, t: nat, timedOut: bool, pick: nat)
    requires Core(m) && PicksProducer(m, pick)
    ensures var m' := PopWake(m, t, timedOut, pick).0; Core(m') && (Room(m) ==> Room(m'))
  {
    hide Fifo, Drains, OnePlace, Room, PopNow, ConsumerUp;
    var m1 := ConsumerUp(m, t);
    ConsumerUpKeeps(m, t);
    if m1.available && m1.queue != [] {
      PopNowKeeps(m1, pick);
    }
  }

  /** A consumer that got up leaves at most one element unspoken for. */
  lemma ConsumerUpKeeps<T>(m: Monitor<T>, t: nat)
    requires Core(m)
    ensures var m' := ConsumerUp(m, t);
            && Fifo(m') && Drains(m') && OnePlace(m') && m'.(waitC := m.waitC, wokenC := m.wokenC) == m
            && (m'.waitC != {} ==> |m.queue| - 1 <= |m'.wokenC|)
            && (m.queue == [] ==> Core(m') && (m.available ==> Core(m'.(waitC := m'.waitC + {t}))))
            && (Room(m) ==> Room(m') && Room(m'.(waitC := m'.waitC + {t})))
  {
    var m' := ConsumerUp(m, t);
    assert m'.waitC != {} ==> m.waitC != {};
  }

  lemma NotifyAllKeeps<T>(m: Monitor<T>)
    requires Core(m)
    ensures m.pendE > 0 ==> Core(NotifyAllConsumers(m)) && (Room(m) ==> Room(NotifyAllConsumers(m)))
    ensures m.pendF > m.pendE ==> Core(NotifyAllProducers(m)) && (Room(m) ==> Room(NotifyAllProducers(m)))
  {
  }

  /** PopLen keeps everything but the producers' guarantee. */
  lemma PopLenKeeps<T>(m: Monitor<T>, maxLen: nat)
    requires Core(m)
    ensures Core(PopLen(m, maxLen)) && |PopLen(m, maxLen).queue| <= |m.queue|
    ensures m.available ==> |PopLen(m, maxLen).popped| == |m.popped| + if |m.queue| < maxLen then |m.queue| else maxLen
  {
    if m.available {
      var k := if |m.queue| < maxLen then |m.queue| else maxLen;
      assert m.queue == m.queue[..k] + m.queue[k..];
    }
  }

  // ---- Runs of any number of threads.

  datatype Act<T> =
    | DoInit(capacity: nat)
    | DoPush(t: nat, x: T, isWait: bool, pick: nat)
    | DoPushWake(t: nat, pick: nat)
    | DoPop(t: nat, pick: nat)
    | DoPopWake(t: nat, timedOut: bool, pick: nat)
    | DoPopLen(maxLen: nat)
    | DoUninit
    | DoNotifyConsumers
    | DoNotifyProducers

  /** A thread does one thing at a time, notify_one reaches a waiter if there is one, and each
      Uninit notifies consumers first. */
  predicate Enabled<T>(m: Monitor<T>, a: Act<T>) {
    match a
    case DoInit(_) => true
    case DoPush(t, _, _, pick) => m.Idle(t) && PicksConsumer(m, pick)
    case DoPushWake(t, pick) => (t in m.waitP || t in m.wokenP) && PicksConsumer(m, pick)
    case DoPop(t, pick) => m.Idle(t) && PicksProducer(m, pick)
    case DoPopWake(t, _, pick) => (t in m.waitC || t in m.wokenC) && PicksProducer(m, pick)
    case DoPopLen(_) => true
    case DoUninit => true
    case DoNotifyConsumers => m.pendE > 0
    case DoNotifyProducers => m.pendF > m.pendE
  }

  function Do<T>(m: Monitor<T>, a: Act<T>): Monitor<T>
    requires Enabled(m, a)
  {
    match a
    case DoInit(capacity) => Init(m, capacity)
    case DoPush(t, x, isWait, pick) => PushEnter(m, t, x, isWait, pick).0
    case DoPushWake(t, pick) => PushWake(m, t, pick).0
    case DoPop(t, pick) => PopEnter(m, t, pick).0
    case DoPopWake(t, timedOut, pick) => PopWake(m, t, timedOut, pick).0
    case DoPopLen(maxLen) => PopLen(m, maxLen)
    case DoUninit => UninitLocked(m)
    case DoNotifyConsumers => NotifyAllConsumers(m)
    case DoNotifyProducers => NotifyAllProducers(m)
  }

  /** The acts that may leave a producer behind or overfill the queue. */
  predicate Careless<T>(m: Monitor<T>, a: Act<T>) {
    a.DoPopLen? || (a.DoInit? && m.available)
  }

  /** Every act keeps Core, and every act but those two keeps Room. */
  lemma StepKeeps<T>(m: Monitor<T>, a: Act<T>)
    requires Core(m) && Enabled(m, a)
    ensures Core(Do(m, a))
    ensures Room(m) && !Careless(m, a) ==> Room(Do(m, a))
  {
    hide PushEnter, PushWake, PopEnter, PopWake, PopLen;
    match a
    case DoInit(capacity) =>
    case DoPush(t, x, isWait, pick) => PushEnterKeeps(m, t, x, isWait, pick);
    case DoPushWake(t, pick) => PushWakeKeeps(m, t, pick);
    case DoPop(t, pick) => PopEnterKeeps(m, t, pick);
    case DoPopWake(t, timedOut, pick) => PopWakeKeeps(m, t, timedOut, pick);
    case DoPopLen(maxLen) => PopLenKeeps(m, maxLen);
    case DoUninit =>
    case DoNotifyConsumers => NotifyAllKeeps(m);
    case DoNotifyProducers => NotifyAllKeeps(m);
  }

  /** The acts can be performed one after the other from `m`. */
  predicate CanRun<T>(m: Monitor<T>, acts: seq<Act<T>>)
    decreases |acts|
  {
    acts == [] || (Enabled(m, acts[0]) && CanRun(Do(m, acts[0]), acts[1..]))
  }

  function Exec<T>(m: Monitor<T>, acts: seq<Act<T>>): Monitor<T>
    requires CanRun(m, acts)
    decreases |acts|
  {
    if acts == [] then m else Exec(Do(m, acts[0]), acts[1..])
  }

  lemma {:induction false} ExecKeeps<T>(m: Monitor<T>, acts: seq<Act<T>>)
    requires Core(m) && CanRun(m, acts)
    ensures Core(Exec(m, acts))
    decreases |acts|
  {
    hide Core, Do, Enabled;
    if acts != [] {
      StepKeeps(m, acts[0]);
      ExecKeeps(Do(m, acts[0]), acts[1..]);
    }
  }

  // ---- What the calls answer, and when the queue is open.

  /** The capacity the queue was last opened with, or None if it was closed since, after `acts`
      from a queue for which that was `now`. */
  function Opened<T>(now: Option<nat>, acts: seq<Act<T>>): Option<nat>
    decreases |acts|
  {
    if acts == [] then now else Opened(OpenedBy(now, acts[0]), acts[1..])
  }

  function OpenedBy<T>(now: Option<nat>, a: Act<T>): Option<nat> {
    match a
    case DoInit(capacity) => Some(capacity)
    case DoUninit => None
    case _ => now
  }

  /** The queue is in the state its last Init or Uninit left it in. */
  ghost predicate OpenAs<T>(m: Monitor<T>, size: Option<nat>) {
    && (m.available <==> size.Some?)
    && (if size.Some? then m.capacity == size.value else m.queue == [])
  }

  lemma OpenStep<T>(m: Monitor<T>, a: Act<T>, size: Option<nat>)
    requires Enabled(m, a) && OpenAs(m, size)
    ensures OpenAs(Do(m, a), OpenedBy(size, a))
  {
  }

  lemma {:induction false} OpenRun<T>(m: Monitor<T>, acts: seq<Act<T>>, size: Option<nat>)
    requires CanRun(m, acts) && OpenAs(m, size)
    ensures OpenAs(Exec(m, acts), Opened(size, acts))
    decreases |acts|
  {
    hide Do, Enabled, OpenAs;
    if acts != [] {
      OpenStep(m, acts[0], size);
      OpenRun(Do(m, acts[0]), acts[1..], OpenedBy(size, acts[0]));
    }
  }

  /** How many of the acts satisfy `p`. */
  ghost function Number<T(!new)>(acts: seq<Act<T>>, p: Act<T> -> bool): nat {
    if acts == [] then 0 else (if p(acts[0]) then 1 else 0) + Number(acts[1..], p)
  }

  ghost function Uninits<T(!new)>(acts: seq<Act<T>>): nat {
    Number(acts, (a: Act<T>) => a.DoUninit?)
  }

  ghost function ConsumersTold<T(!new)>(acts: seq<Act<T>>): nat {
    Number(acts, (a: Act<T>) => a.DoNotifyConsumers?)
  }

  ghost function ProducersTold<T(!new)>(acts: seq<Act<T>>): nat {
    Number(acts, (a: Act<T>) => a.DoNotifyProducers?)
  }

  lemma OweStep<T>(m: Monitor<T>, a: Act<T>)
    requires Enabled(m, a)
    ensures Do(m, a).pendE == m.pendE + (if a.DoUninit? then 1 else if a.DoNotifyConsumers? then -1 else 0)
    ensures Do(m, a).pendF == m.pendF + (if a.DoUninit? then 1 else if a.DoNotifyProducers? then -1 else 0)
  {
  }

  /** What Uninit calls still owe is what they have not yet done. */
  lemma {:induction false} OweRun<T(!new)>(m: Monitor<T>, acts: seq<Act<T>>)
    requires CanRun(m, acts)
    ensures Exec(m, acts).pendE == m.pendE + Uninits(acts) - ConsumersTold(acts)
    ensures Exec(m, acts).pendF == m.pendF + Uninits(acts) - ProducersTold(acts)
    decreases |acts|
  {
    hide Do, Enabled;
    if acts != [] {
      OweStep(m, acts[0]);
      OweRun(Do(m, acts[0]), acts[1..]);
    }
  }

  /** A push succeeds exactly if the queue is open and has room, and then x is the last element
      accepted; it waits exactly if it may and the queue is open and full; nothing else changes
      what is queued. */
  lemma PushAnswers<T>(m: Monitor<T>, t: nat, x: T, isWait: bool, pick: nat)
    ensures var (m', r) := PushEnter(m, t, x, isWait, pick);
            && (r.Blocks? <==> m.available && m.capacity <= |m.queue| && isWait)
            && (r == Returns(true, None) <==> m.available && |m.queue| < m.capacity)
            && (r.Returns? && !r.ok ==> m' == m)
            && (r == Returns(true, None) ==> m'.queue == m.queue + [x] && m'.accepted == m.accepted + [x])
            && (r.Blocks? ==> m'.queue == m.queue && m'.accepted == m.accepted && t in m'.waitP && m'.waitP[t] == x)
            && r in {Blocks, Returns(true, None), Returns(false, None)}
  {
  }

  /** A pop succeeds exactly if the queue is open and not empty, and hands out the oldest element;
      it waits exactly if the queue is open and empty. */
  lemma PopAnswers<T>(m: Monitor<T>, t: nat, pick: nat)
    ensures var (m', r) := PopEnter(m, t, pick);
            && (r.Blocks? <==> m.available && m.queue == [])
            && (r.Returns? ==> (r.ok <==> m.available) && (r.ok <==> r.element.Some?))
            && (r.Returns? && r.ok ==> [r.element.value] + m'.queue == m.queue
                                       && m'.popped == m.popped + [r.element.value])
            && (r.Returns? && !r.ok ==> m' == m)
            && (r.Blocks? ==> m'.queue == m.queue && m'.popped == m.popped && t in m'.waitC)
  {
  }

  /** A thread that gets up in a wait does what a call would do at that moment; only a timeout
      makes a difference, and only where the call would wait. */
  lemma WakingIsCalling<T>(m: Monitor<T>, t: nat, pick: nat)
    ensures t in m.waitP || t in m.wokenP ==>
              PushWake(m, t, pick)
              == PushEnter(ProducerUp(m, t), t, if t in m.wokenP then m.wokenP[t] else m.waitP[t], true, pick)
    ensures PopWake(m, t, false, pick) == PopEnter(ConsumerUp(m, t), t, pick)
    ensures var call := PopEnter(ConsumerUp(m, t), t, pick);
            PopWake(m, t, true, pick) == if call.1.Blocks? then (ConsumerUp(m, t), Returns(false, None)) else call
  {
  }

  /** However the queue is used, in every state any run can reach: no consumer is lost and elements
      come out in the order they went in; the queue is open, with the capacity then given, exactly
      if its last Init is later than its last Uninit; and once every Uninit has made its two
      notifications nobody is left waiting on a closed queue. */
  lemma {:induction false} EveryRun<T(!new)>(acts: seq<Act<T>>)
    requires CanRun(Fresh<T>(), acts)
    ensures var m, size := Exec(Fresh<T>(), acts), Opened(None, acts);
            && (m.waitC != {} ==> |m.queue| <= |m.wokenC|)
            && (size.Some? ==> m.available && m.capacity == size.value && m.accepted == m.popped + m.queue)
            && (size.None? ==> !m.available && m.queue == [])
            && (size.None? && Uninits(acts) == ConsumersTold(acts) == ProducersTold(acts) ==>
                  m.waitC == {} && m.waitP == map[])
            && m.popped <= m.accepted
  {
    hide Do, Enabled;
    ExecKeeps(Fresh<T>(), acts);
    OpenRun(Fresh<T>(), acts, None);
    OweRun(Fresh<T>(), acts);
  }

  /** After an Uninit with no Init since, every push and every pop is refused and changes nothing,
      and so is whatever a thread that gets up in a wait wanted. */
  lemma ClosedRefuses<T(!new)>(acts: seq<Act<T>>, t: nat, x: T, isWait: bool, timedOut: bool, pick: nat)
    requires CanRun(Fresh<T>(), acts) && Opened(None, acts).None?
    ensures var m := Exec(Fresh<T>(), acts);
            && PushEnter(m, t, x, isWait, pick) == (m, Returns(false, None))
            && PopEnter(m, t, pick) == (m, Returns(false, None))
            && (t in m.waitP || t in m.wokenP ==> PushWake(m, t, pick) == (ProducerUp(m, t), Returns(false, None)))
            && PopWake(m, t, timedOut, pick) == (ConsumerUp(m, t), Returns(false, None))
            && PopLen(m, pick) == m
  {
    hide Do, Enabled;
    OpenRun(Fresh<T>(), acts, None);
  }

  // ---- Ways of using the queue.

  /** Which of three things the users of a queue do: take elements with PopLen, let a push wait,
      and call Init while the queue is open. */
  datatype Usage = Usage(popLens: bool, waits: bool, reopens: bool)

  predicate Allows<T>(u: Usage, m: Monitor<T>, a: Act<T>) {
    && (a.DoPopLen? ==> u.popLens)
    && (a.DoPush? && a.isWait ==> u.waits)
    && (a.DoInit? && m.available ==> u.reopens)
  }

  predicate Follows<T>(u: Usage, m: Monitor<T>, acts: seq<Act<T>>)
    requires CanRun(m, acts)
    decreases |acts|
  {
    acts == [] || (Allows(u, m, acts[0]) && Follows(u, Do(m, acts[0]), acts[1..]))
  }

  /** No push is waiting. */
  predicate NoPushWaits<T>(m: Monitor<T>) {
    m.waitP == map[] && m.wokenP == map[]
  }

  /** Where no push ever waits, PopLen has nobody to notify. */
  lemma QuietKeeps<T>(u: Usage, m: Monitor<T>, a: Act<T>)
    requires Core(m) && NoPushWaits(m) && |m.queue| <= m.capacity && Enabled(m, a)
    requires !u.waits && !u.reopens && Allows(u, m, a)
    ensures NoPushWaits(Do(m, a)) && |Do(m, a).queue| <= Do(m, a).capacity
  {
  }

  lemma UsageStep<T>(u: Usage, m: Monitor<T>, a: Act<T>)
    requires Inv(m) && (u.waits || NoPushWaits(m)) && Enabled(m, a)
    requires !u.reopens && !(u.popLens && u.waits) && Allows(u, m, a)
    ensures Inv(Do(m, a)) && (u.waits || NoPushWaits(Do(m, a)))
  {
    hide Core, Do;
    StepKeeps(m, a);
    if !u.waits {
      QuietKeeps(u, m, a);
    }
  }

  lemma {:induction false} UsageKeeps<T>(u: Usage, m: Monitor<T>, acts: seq<Act<T>>)
    requires Inv(m) && (u.waits || NoPushWaits(m)) && CanRun(m, acts)
    requires !u.reopens && !(u.popLens && u.waits) && Follows(u, m, acts)
    ensures Inv(Exec(m, acts))
    decreases |acts|
  {
    hide Inv, NoPushWaits, Do, Enabled, Allows;
    if acts != [] {
      UsageStep(u, m, acts[0]);
      UsageKeeps(u, Do(m, acts[0]), acts[1..]);
    }
  }

  /** In a run that never reopens an open queue and does not mix PopLen with waiting pushes, the
      capacity is respected too and, outside an unfinished Uninit, no producer is lost. */
  lemma GuardedRun<T>(u: Usage, acts: seq<Act<T>>)
    requires CanRun(Fresh<T>(), acts) && Follows(u, Fresh<T>(), acts)
    requires !u.reopens && !(u.popLens && u.waits)
    ensures var m := Exec(Fresh<T>(), acts);
            && |m.queue| <= m.capacity
            && (m.waitP != map[] && m.pendF == 0 ==> m.capacity - |m.queue| <= |m.wokenP|)
  {
    hide Do, Enabled, Follows;
    UsageKeeps(u, Fresh<T>(), acts);
  }

  /** Two waiting pushes on a queue of one, then PopLen: the second producer is left waiting for
      ever beside an empty queue. */
  function LosingRun<T>(x: T): seq<Act<T>> {
    [DoInit(1), DoPush(1, x, true, 0), DoPush(2, x, true, 0), DoPopLen(1)]
  }

  lemma PopLenLosesWakeup<T>(x: T)
    ensures CanRun(Fresh<T>(), LosingRun(x)) && Follows(Usage(true, true, false), Fresh<T>(), LosingRun(x))
    ensures var m := Exec(Fresh<T>(), LosingRun(x));
            m.available && m.queue == [] && 2 in m.waitP && m.wokenP == map[] && m.pendF == 0 && !Room(m)
  {
    var acts := LosingRun(x);
    var m1 := Do(Fresh<T>(), acts[0]);
    assert m1 == Fresh<T>().(available := true, capacity := 1);
    var m2 := Do(m1, acts[1]);
    assert m2 == m1.(queue := [x], accepted := [x]);
    var m3 := Do(m2, acts[2]);
    assert m3 == m2.(waitP := map[2 := x]);
    var m4 := Do(m3, acts[3]);
    assert m4 == m3.(queue := [], popped := [x]);
    FourSteps(Usage(true, true, false), acts, m1, m2, m3, m4);
  }

  /** Two pushes into a queue of two that is then initialised again with room for one. */
  function OverfullRun<T>(x: T): seq<Act<T>> {
    [DoInit(2), DoPush(1, x, false, 0), DoPush(1, x, false, 0), DoInit(1)]
  }

  lemma InitOverfills<T>(x: T)
    ensures CanRun(Fresh<T>(), OverfullRun(x)) && Follows(Usage(false, false, true), Fresh<T>(), OverfullRun(x))
    ensures var m := Exec(Fresh<T>(), OverfullRun(x)); m.available && |m.queue| == 2 && m.capacity == 1 && !Room(m)
  {
    var acts := OverfullRun(x);
    var m1 := Do(Fresh<T>(), acts[0]);
    assert m1 == Fresh<T>().(available := true, capacity := 2);
    var m2 := Do(m1, acts[1]);
    assert m2 == m1.(queue := [x], accepted := [x]);
    var m3 := Do(m2, acts[2]);
    assert m3 == m2.(queue := [x, x], accepted := [x, x]);
    var m4 := Do(m3, acts[3]);
    assert m4 == m3.(capacity := 1);
    FourSteps(Usage(false, false, true), acts, m1, m2, m3, m4);
  }

  lemma FourSteps<T>(u: Usage, acts: seq<Act<T>>, m1: Monitor<T>, m2: Monitor<T>, m3: Monitor<T>, m4: Monitor<T>)
    requires |acts| == 4
    requires Enabled(Fresh<T>(), acts[0]) && Allows(u, Fresh<T>(), acts[0]) && Do(Fresh<T>(), acts[0]) == m1
    requires Enabled(m1, acts[1]) && Allows(u, m1, acts[1]) && Do(m1, acts[1]) == m2
    requires Enabled(m2, acts[2]) && Allows(u, m2, acts[2]) && Do(m2, acts[2]) == m3
    requires Enabled(m3, acts[3]) && Allows(u, m3, acts[3]) && Do(m3, acts[3]) == m4
    ensures CanRun(Fresh<T>(), acts) && Follows(u, Fresh<T>(), acts) && Exec(Fresh<T>(), acts) == m4
  {
    hide Enabled, Allows, Do;
    var a3, a2, a1 := acts[3..], acts[2..], acts[1..];
    assert a3[1..] == [] && a3[0] == acts[3];
    assert a2[1..] == a3 && a2[0] == acts[2];
    assert a1[1..] == a2 && a1[0] == acts[1];
    assert CanRun(m4, a3[1..]) && Exec(m4, a3[1..]) == m4 && Follows(u, m4, a3[1..]);
    assert CanRun(m3, a3) && Exec(m3, a3) == m4 && Follows(u, m3, a3);
    assert CanRun(m2, a2) && Exec(m2, a2) == m4 && Follows(u, m2, a2);
    assert CanRun(m1, a1) && Exec(m1, a1) == m4 && Follows(u, m1, a1);
  }

  ghost predicate AlwaysRoomy<T(!new)>(u: Usage) {
    forall acts: seq<Act<T>> ::
      CanRun(Fresh<T>(), acts) && Follows(u, Fresh<T>(), acts) ==> Room(Exec(Fresh<T>(), acts))
  }

  /** Exactly which uses are safe: those that neither reopen an open queue nor mix PopLen with
      waiting pushes. */
  lemma UsageIsExact<T(!new)>(u: Usage, x: T)
    ensures AlwaysRoomy<T>(u) <==> !u.reopens && !(u.popLens && u.waits)
  {
    if !u.reopens && !(u.popLens && u.waits) {
      forall acts: seq<Act<T>> | CanRun(Fresh<T>(), acts) && Follows(u, Fresh<T>(), acts)
        ensures Room(Exec(Fresh<T>(), acts))
      {
        GuardedRun(u, acts);
      }
    } else if u.reopens {
      InitOverfills(x);
      FollowsMore(Usage(false, false, true), u, Fresh<T>(), OverfullRun(x));
    } else {
      PopLenLosesWakeup(x);
      FollowsMore(Usage(true, true, false), u, Fresh<T>(), LosingRun(x));
    }
  }

  lemma {:induction false} FollowsMore<T>(u: Usage, v: Usage, m: Monitor<T>, acts: seq<Act<T>>)
    requires CanRun(m, acts) && Follows(u, m, acts)
    requires (u.popLens ==> v.popLens) && (u.waits ==> v.waits) && (u.reopens ==> v.reopens)
    ensures Follows(v, m, acts)
    decreases |acts|
  {
    hide Do, Enabled;
    if acts != [] {
      FollowsMore(u, v, Do(m, acts[0]), acts[1..]);
    }
  }

  // ---- The queue itself.

  /** Each method is one critical section; a method that blocks ends in its wait. Which waiter
      notify_one reached is reported in `pick`. */
  class QueueUtil<T> {
    var isAvailable: bool
    var capacity: nat
    var queue: seq<T>
    var waitC: set<nat>
    var wokenC: set<nat>
    var waitP: map<nat, T>
    var wokenP: map<nat, T>
    var pendE: nat
    var pendF: nat
    ghost var accepted: seq<T>
    ghost var popped: seq<T>

    ghost function View(): Monitor<T>
      reads this
    {
      Monitor(isAvailable, capacity, queue, waitC, wokenC, waitP, wokenP, pendE, pendF, accepted, popped)
    }

    constructor ()
      ensures View() == Fresh<T>() && Inv(View())
    {
      isAvailable, capacity, queue := false, 0, [];
      waitC, wokenC, waitP, wokenP := {}, {}, map[], map[];
      pendE, pendF := 0, 0;
      accepted, popped := [], [];
    }

    method Initialise(capacity: nat)
      requires Core(View())
      modifies this
      ensures View() == Init(old(View()), capacity) && Core(View())
      ensures Room(old(View())) && !old(isAvailable) ==> Room(View())
    {
      if !isAvailable {
        accepted, popped := [], [];
      }
      isAvailable := true;
      this.capacity := capacity;
    }

    method Push(t: nat, x: T, isWait: bool) returns (r: Outcome<T>, pick: nat)
      requires Core(View()) && View().Idle(t)
      modifies this
      ensures Core(View()) && (Room(old(View())) ==> Room(View()))
      ensures PicksConsumer(old(View()), pick)
      ensures (View(), r) == PushEnter(old(View()), t, x, isWait, pick)
    {
      hide Core, Room;
      pick := AnyConsumer();
      PushEnterKeeps(View(), t, x, isWait, pick);
      if !isAvailable {
        return Returns(false, None), pick;
      }
      if |queue| >= capacity {
        if !isWait {
          return Returns(false, None), pick;
        }
        waitP := waitP[t := x];
        return Blocks, pick;
      }
      Append(x, pick);
      return Returns(true, None), pick;
    }

    /** The wait in Push, on the far side: the loop tests its condition again. */
    method ResumePush(t: nat) returns (r: Outcome<T>, pick: nat)
      requires Core(View()) && (t in waitP || t in wokenP)
      modifies this
      ensures Core(View()) && (Room(old(View())) ==> Room(View()))
      ensures PicksConsumer(old(View()), pick)
      ensures (View(), r) == PushWake(old(View()), t, pick)
    {
      hide Core, Room;
      pick := AnyConsumer();
      PushWakeKeeps(View(), t, pick);
      var x := if t in wokenP then wokenP[t] else waitP[t];
      waitP, wokenP := waitP - {t}, wokenP - {t};
      if isAvailable && |queue| >= capacity {
        waitP := waitP[t := x];
        return Blocks, pick;
      }
      if !isAvailable {
        return Returns(false, None), pick;
      }
      Append(x, pick);
      return Returns(true, None), pick;
    }

    method Append(x: T, pick: nat)
      requires PicksConsumer(View(), pick)
      modifies this
      ensures View() == PushNow(old(View()), x, pick)
    {
      queue, accepted := queue + [x], accepted + [x];
      if pick in waitC {
        waitC, wokenC := waitC - {pick}, wokenC + {pick};
      }
    }

    method Pop(t: nat) returns (r: Outcome<T>, pick: nat)
      requires Core(View()) && View().Idle(t)
      modifies this
      ensures Core(View()) && (Room(old(View())) ==> Room(View()))
      ensures PicksProducer(old(View()), pick)
      ensures (View(), r) == PopEnter(old(View()), t, pick)
    {
      hide Core, Room;
      pick := AnyProducer();
      PopEnterKeeps(View(), t, pick);
      if !isAvailable {
        return Returns(false, None), pick;
      }
      if queue == [] {
        waitC := waitC + {t};
        return Blocks, pick;
      }
      var x := TakeFront(pick);
      return Returns(true, Some(x)), pick;
    }

    /** The wait in Pop or, with `timedOut` possible, in PopUntilTimeout. */
    method ResumePop(t: nat, timedOut: bool) returns (r: Outcome<T>, pick: nat)
      requires Core(View()) && (t in waitC || t in wokenC)
      modifies this
      ensures Core(View()) && (Room(old(View())) ==> Room(View()))
      ensures PicksProducer(old(View()), pick)
      ensures (View(), r) == PopWake(old(View()), t, timedOut, pick)
    {
      hide Core, Room;
      pick := AnyProducer();
      PopWakeKeeps(View(), t, timedOut, pick);
      waitC, wokenC := waitC - {t}, wokenC - {t};
      if isAvailable && queue == [] {
        if timedOut {
          return Returns(false, None), pick;
        }
        waitC := waitC + {t};
        return Blocks, pick;
      }
      if !isAvailable {
        return Returns(false, None), pick;
      }
      var x := TakeFront(pick);
      return Returns(true, Some(x)), pick;
    }

    method TakeFront(pick: nat) returns (x: T)
      requires queue != [] && PicksProducer(View(), pick)
      modifies this
      ensures View() == PopNow(old(View()), pick) && x == old(queue)[0]
    {
      x := queue[0];
      queue, popped := queue[1..], popped + [x];
      if pick in waitP {
        waitP, wokenP := waitP - {pick}, wokenP[pick := waitP[pick]];
      }
    }

    /** Takes up to `maxLen` elements and notifies nobody, so it may lose a wakeup. */
    method TakeMany(maxLen: nat) returns (ok: bool, list: seq<T>)
      requires Core(View())
      modifies `queue, `popped
      ensures Core(View()) && (Room(old(View())) && NoPushWaits(View()) ==> Room(View()))
      ensures ok == isAvailable && View() == PopLen(old(View()), maxLen)
      ensures popped == old(popped) + list
    {
      hide Core;
      list := [];
      if !isAvailable {
        return false, list;
      }
      var count := 0;
      while queue != [] && count < maxLen
        invariant count == |list| <= maxLen && |list| <= |old(queue)|
        invariant queue == old(queue)[|list|..] && list == old(queue)[..|list|] && popped == old(popped) + list
        decreases |queue|
      {
        list, popped := list + [queue[0]], popped + [queue[0]];
        queue := queue[1..];
        count := count + 1;
      }
      PopLenKeeps(old(View()), maxLen);
      return true, list;
    }

    /** Uninit up to the end of its locked block. */
    method Close()
      requires Core(View())
      modifies this
      ensures Core(View()) && (Room(old(View())) ==> Room(View()))
      ensures View() == UninitLocked(old(View()))
      ensures !isAvailable && queue == []
    {
      capacity := 0;
      while queue != []
        invariant View() == old(View()).(capacity := 0, queue := queue)
      {
        queue := queue[1..];
      }
      isAvailable := false;
      pendE, pendF := pendE + 1, pendF + 1;
    }

    method WakeConsumers()
      requires Core(View()) && pendE > 0
      modifies this
      ensures Core(View()) && (Room(old(View())) ==> Room(View()))
      ensures View() == NotifyAllConsumers(old(View()))
    {
      NotifyAllKeeps(View());
      wokenC, waitC, pendE := wokenC + waitC, {}, pendE - 1;
    }

    method WakeProducers()
      requires Core(View()) && pendF > pendE
      modifies this
      ensures Core(View()) && (Room(old(View())) ==> Room(View()))
      ensures View() == NotifyAllProducers(old(View()))
    {
      NotifyAllKeeps(View());
      wokenP, waitP, pendF := wokenP + waitP, map[], pendF - 1;
    }

    method AnyConsumer() returns (pick: nat)
      ensures PicksConsumer(View(), pick)
    {
      if waitC == {} {
        return 0;
      }
      assert Pick(waitC) in waitC;
      pick :| pick in waitC;
    }

    method AnyProducer() returns (pick: nat)
      ensures PicksProducer(View(), pick)
    {
      if waitP.Keys == {} {
        return 0;
      }
      assert Pick(waitP.Keys) in waitP.Keys;
      pick :| pick in waitP.Keys;
    }
  }
}
