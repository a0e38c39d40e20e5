/** The table-driven state machine on top of the timer manager. Handlers run under the
    message lock; the timer thread may take its turn whenever the timer lock is free. */
module StateManager {
  import opened Basics
  import opened TimerQueue
  import opened TimerManager

  const NO_PROCESS_RET := -2
  const MAX_TIMERS := 10

  /** The machine as the observer of its own timers. */
  const SELF := 1

  datatype TimerCfg = TimerCfg(kind: int, delayUs: int, cookie: int)

  /** A configured state: its timer, the id it believes it holds, the messages it handles. */
  datatype StateActions = StateActions(cfg: TimerCfg, timerId: int, actions: set<int>)

  const NEW_ACTIONS := StateActions(TimerCfg(0, 0, 0), INVALID_ID, {})

  /** Registered states; None is a state registered without actions. */
  type States = map<int, Option<StateActions>>

  /** What a handler does: what it returns, where it wants to go, and how often it calls
      ResetTimerDelay. */
  datatype Outcome = Outcome(ret: int, next: int, resets: nat)

  /** Only the default state may lack actions, and while it does the machine cannot have left
      it. No current state means an allocation failed. */
  ghost predicate Registered(states: States, initial: int, curr: Option<int>) {
    && initial in states
    && (forall s :: s in states && s != initial ==> states[s].Some?)
    && (curr.Some? ==> curr.value in states && (states[initial].None? ==> curr.value == initial))
  }

  /** The timer is the one `a` asks for, under the one id the machine ever holds. */
  predicate Matches(item: TimerItem, a: StateActions) {
    && item.timerId == 0 && a.timerId == 0
    && item.kind == a.cfg.kind && item.cookie == a.cfg.cookie && item.observer == SELF
  }

  /** At most one timer is queued and it belongs to the current state; every other state
      holds INVALID_ID. */
  ghost predicate OneTimer(states: States, curr: Option<int>, q: Queue, owners: seq<int>) {
    && OthersHoldNone(states, curr)
    && if curr.Some? && curr.value in states && states[curr.value].Some?
       then var a := states[curr.value].value;
            && a.timerId in {0, INVALID_ID}
            && OwnTimer(q, a.cfg, owners, curr.value)
            && (q != [] ==> a.timerId == 0)
       else q == []
  }

  /** At most one timer, and it is the one state `s` asked for. */
  ghost predicate OwnTimer(q: Queue, cfg: TimerCfg, owners: seq<int>, s: int) {
    && |q| <= 1
    && (q != [] ==> Matches(q[0], StateActions(cfg, 0, {})) && q[0].ticket < |owners| && owners[q[0].ticket] == s)
  }

  lemma EmptyIsOwn(cfg: TimerCfg, owners: seq<int>, s: int)
    ensures OwnTimer([], cfg, owners, s)
  {
  }

  ghost predicate OthersHoldNone(states: States, curr: Option<int>) {
    forall s :: s in states && states[s].Some? && curr != Some(s) ==> states[s].value.timerId == INVALID_ID
  }

  /** From the machine, resetting the queued timer in place is killing it and setting it again. */
  lemma MachineResetRefines(c: Core, now: int, a: StateActions)
    requires Valid(c) && |c.queue| == 1 && Matches(c.queue[0], a) && c.status == StatusStarted
    ensures
      var TimerCfg(kind, delayUs, cookie) := a.cfg;
      var (inPlace, id1) := TimerQueue.ResetTimer(c, now, a.timerId, kind, delayUs, cookie, Some(SELF));
      var killed := TimerQueue.KillTimer(c, a.timerId);
      var (again, id2) := TimerQueue.SetTimer(killed, now, kind, delayUs, cookie, Some(SELF));
      SameTimers(inPlace, again) && id1 == id2 == 0
  {
    ResetInPlaceRefines(c, now, a.cfg.kind, a.cfg.delayUs, a.cfg.cookie, Some(SELF));
  }

  /** With at most one timer queued and none to spare needed, setting always succeeds. */
  lemma SetOnEmpty(c: Core, now: int, cfg: TimerCfg)
    requires Valid(c) && c.queue == [] && |c.flags| > 0
    ensures
      var (c', id) := TimerQueue.SetTimer(c, now, cfg.kind, cfg.delayUs, cfg.cookie, Some(SELF));
      if c.status == StatusStarted
      then id == 0 && c' == c.(flags := c.flags[0 := true], tickets := c.tickets + 1,
                               queue := [TimerItem(0, cfg.kind, cfg.cookie, now + cfg.delayUs, SELF, c.tickets)])
      else id == INVALID_ID && c' == c
  {
    assert Keys([], Id()) == {};
    assert FirstFree(c.flags) == 0;
  }

  /** Whatever was killed since, belonged to state `s`. */
  ghost predicate KilledOnly(before: History, after: History, owners: seq<int>, s: Option<int>) {
    && |before.fate| <= |after.fate|
    && forall t :: 0 <= t < |after.fate| && after.fate[t] == Killed && (t < |before.fate| ==> before.fate[t] != Killed)
                   ==> t < |owners| && s == Some(owners[t])
  }

  /** Which state was current when each killed timer was killed: exactly the one that armed it. */
  ghost predicate Recorded(h: History, owners: seq<int>, killedIn: map<nat, int>) {
    && (forall t :: t in killedIn ==> t < |h.fate| && h.fate[t] == Killed)
    && (forall t :: 0 <= t < |h.fate| && h.fate[t] == Killed ==>
                      t in killedIn && t < |owners| && killedIn[t] == owners[t])
  }

  /** The record after an activity that began in state `s`. */
  ghost function Record(killedIn: map<nat, int>, after: History, s: Option<int>): map<nat, int> {
    map t: nat | t < |after.fate| && after.fate[t] == Killed && (t in killedIn || s.Some?) ::
      if t in killedIn then killedIn[t] else s.value
  }

  /** What was killed in two stages, the second of which killed nothing. */
  lemma KilledThen(before: History, mid: History, after: History, ownersMid: seq<int>, owners: seq<int>, s: Option<int>)
    requires KilledOnly(before, mid, ownersMid, s) && KilledOnly(mid, after, owners, None) && ownersMid <= owners
    ensures KilledOnly(before, after, owners, s)
  {
  }

  lemma ArmKillsNothing(before: History, mid: History, owners: seq<int>, delayUs: int)
    requires OnlyFired(before, mid)
    ensures KilledOnly(before, mid, owners, None) && KilledOnly(before, mid.Set(delayUs), owners, None)
  {
  }

  lemma LatestSet(h: History, owners: seq<int>, s: int, delayUs: int)
    requires |h.fate| == |owners|
    ensures LatestFor(h.Set(delayUs), owners + [s], s)
  {
  }

  lemma KilledNothing(h: History, owners: seq<int>)
    ensures KilledOnly(h, h, owners, None)
  {
  }

  lemma SameButId(states: States, s: int, id: int)
    requires s in states && states[s].Some?
    ensures SameConfig(states, states[s := Some(states[s].value.(timerId := id))])
    ensures id == states[s].value.timerId ==> states[s := Some(states[s].value.(timerId := id))] == states
  {
  }

  lemma SameTwice(a: States, b: States, c: States)
    requires SameConfig(a, b) && SameConfig(b, c)
    ensures SameConfig(a, c)
  {
    assert forall s :: s in a ==> s in b && s in c;
  }

  lemma RecordNothing(h: History, owners: seq<int>)
    requires h.fate == []
    ensures Recorded(h, owners, map[])
  {
  }

  lemma RecordKeeps(before: History, after: History, ownersBefore: seq<int>, owners: seq<int>, s: Option<int>,
                    killedIn: map<nat, int>)
    requires Recorded(before, ownersBefore, killedIn) && ownersBefore <= owners
    requires KilledOnly(before, after, owners, s)
    ensures Recorded(after, owners, Record(killedIn, after, s))
  {
  }

  /** Tickets may have fired since; nothing else became of them. */
  ghost predicate OnlyFired(before: History, after: History) {
    && |after.fate| == |before.fate|
    && forall t :: 0 <= t < |before.fate| ==>
                     after.fate[t] == before.fate[t] || (before.fate[t] == Queued && after.fate[t] == Fired)
  }

  /** The latest timer set was set for state `s`, and it is queued or has fired. */
  ghost predicate LatestFor(h: History, owners: seq<int>, s: int) {
    && |h.fate| == |owners| > 0 && owners[|owners| - 1] == s
    && h.fate[|owners| - 1] in {Queued, Fired}
  }

  /** A state that holds an id was armed: its timer, the latest set, is queued or has fired. And a
      state with a timeout that was entered while the manager was started does hold one. */
  ghost predicate Timed(states: States, curr: Option<int>, h: History, owners: seq<int>, moved: bool, started: bool) {
    curr.Some? && curr.value in states && states[curr.value].Some? ==>
      var a := states[curr.value].value;
      && (a.timerId != INVALID_ID ==> LatestFor(h, owners, curr.value))
      && (moved && started && a.cfg.delayUs != 0 ==> a.timerId != INVALID_ID)
  }

  /** The timers that fired were delivered to the machine, in order and once each, but for the one
      the timer thread may be about to deliver. */
  ghost predicate Delivers(fired: Queue, delivered: Queue, inflight: Option<TimerItem>) {
    fired == delivered + (if inflight.Some? then [inflight.value] else [])
  }

  /** The states differ only in the ids they hold. */
  ghost predicate SameConfig(before: States, after: States) {
    && after.Keys == before.Keys
    && forall s :: s in before ==>
         && (before[s].None? <==> after[s].None?)
         && (before[s].Some? ==> after[s].value.(timerId := 0) == before[s].value.(timerId := 0))
  }

  class ModuleStates {
    const timers: TimerMgr
    const initial: int
    var states: States
    var curr: Option<int>
    var running: bool
    var inflight: Option<TimerItem>
    ghost var owners: seq<int>
    ghost var delivered: Queue
    ghost var moved: bool

    /** What holds even between leaving a state and entering the next. */
    ghost predicate Base()
      reads this, timers
    {
      && timers.Inv() && |timers.idFlags| == MAX_TIMERS
      && Registered(states, initial, curr)
      && OneTimer(states, curr, timers.itemQueue, owners)
      && |owners| == timers.tickets
      && Delivers(timers.history.fired, delivered, inflight)
    }

    /** What holds whenever the message lock is free. */
    ghost predicate Inv()
      reads this, timers
    {
      && Base()
      && Timed(states, curr, timers.history, owners, moved, timers.status == StatusStarted)
      && (curr.Some? && curr.value != initial ==> moved)
      && (!running ==> !moved && timers.itemQueue == [] && forall s :: s in states && states[s].Some? ==>
                                                            states[s].value.timerId == INVALID_ID)
    }

    constructor (initial: int, now: int, created: bool)
      ensures Inv() && fresh(timers) && timers.history.fate == []
      ensures timers.status == if created then StatusStarted else StatusInit
      ensures this.initial == initial && curr == Some(initial) && states == map[initial := None] && !running
    {
      hide Valid, Accounted, OnTime, WakesInTime;
      this.initial := initial;
      states, curr, running, inflight, owners := map[initial := None], Some(initial), false, None, [];
      delivered, moved := [], false;
      timers := new TimerMgr(MAX_TIMERS, now);
      new;
      timers.Start(None, created);
    }

    // ---- Configuration, frozen once messages are handled.

    /** Allocating the actions may fail, which leaves the machine dead. */
    method ForState(s: int, hasMemory: bool)
      requires Inv() && !running
      modifies `states, `curr
      ensures Inv()
      ensures s in old(states) && old(states)[s].Some? ==> states == old(states) && curr == old(curr)
      ensures !(s in old(states) && old(states)[s].Some?) ==>
                if hasMemory then states == old(states)[s := Some(NEW_ACTIONS)] && curr == old(curr)
                else states == old(states) && curr == None
    {
      if s !in states || states[s].None? {
        if !hasMemory {
          curr := None;
          return;
        }
        states := states[s := Some(NEW_ACTIONS)];
      }
    }

    method Add(s: int, msg: int)
      requires Inv() && !running && s in states && states[s].Some?
      modifies `states
      ensures Inv()
      ensures states == old(states)[s := Some(old(states)[s].value.(actions := old(states)[s].value.actions + {msg}))]
    {
      var a := states[s].value;
      states := states[s := Some(a.(actions := a.actions + {msg}))];
    }

    method WaitUntil(s: int, kind: int, delayUs: int, cookie: int)
      requires Inv() && !running && s in states && states[s].Some?
      modifies `states
      ensures Inv()
      ensures states == old(states)[s := Some(StateActions(TimerCfg(kind, delayUs, cookie),
                                                           old(states)[s].value.timerId,
                                                           old(states)[s].value.actions + {kind}))]
    {
      states := states[s := Some(states[s].value.(cfg := TimerCfg(kind, delayUs, cookie)))];
      Add(s, kind);
    }

    // ---- The timer thread beside a running handler.

    /** Time passes and the timer thread may take its turn, unless it is already busy
        delivering a timer, for which it needs the message lock. */
    method Interfere()
      requires timers.Inv() && Delivers(timers.history.fired, delivered, inflight)
      modifies `inflight, timers
      ensures timers.Inv() && Delivers(timers.history.fired, delivered, inflight)
      ensures OnlyFired(old(timers.history), timers.history)
      ensures timers.View() == old(timers.View())
              || (old(timers.itemQueue) != [] && timers.View() == PopFront(old(timers.View())))
      ensures inflight == old(inflight)
              || (old(inflight).None? && old(timers.itemQueue) != [] && inflight == Some(old(timers.itemQueue)[0])
                  && timers.View() == PopFront(old(timers.View())))
      ensures inflight == old(inflight) ==> timers.View() == old(timers.View())
    {
      hide Valid, Accounted, OnTime, WakesInTime;
      var us: nat := *;
      timers.Tick(us);
      var turn: bool := *;
      if turn && inflight.None? {
        timers.WakeUp();
        var what := timers.Step();
        if what.Fire? {
          inflight := Some(what.item);
        }
      }
    }

    /** The timers as seen by state `s`: nothing queued, or its own timer. */
    ghost predicate Holds(s: int, cfg: TimerCfg)
      reads this, timers
    {
      && timers.Inv() && |timers.idFlags| == MAX_TIMERS && |owners| == timers.tickets
      && OwnTimer(timers.itemQueue, cfg, owners, s)
      && Delivers(timers.history.fired, delivered, inflight)
    }

    /** Leaving a state, or resetting its timer the long way, kills the id it holds. Whether
        that id is stale or not, only its own timer can go. */
    method Disarm(s: int, a: StateActions)
      requires Holds(s, a.cfg) && a.timerId == 0
      modifies `inflight, timers
      ensures Holds(s, a.cfg) && timers.itemQueue == [] && timers.status == old(timers.status)
      ensures KilledOnly(old(timers.history), timers.history, owners, Some(s))
      ensures old(inflight).Some? ==> inflight == old(inflight)
    {
      hide Valid, Accounted, OnTime, WakesInTime;
      Interfere();
      ghost var h := timers.history;
      var _ := timers.KillTimer(a.timerId);
    }

    /** One timer is queued, and it is due after the configured delay, counted from now. */
    ghost predicate Due(cfg: TimerCfg)
      reads timers
    {
      |timers.itemQueue| == 1 && timers.itemQueue[0].tgtUs == timers.now + cfg.delayUs
    }

    /** Arming succeeds whenever the manager is started. */
    method Rearm(s: int, cfg: TimerCfg) returns (id: int)
      requires Holds(s, cfg) && timers.itemQueue == []
      modifies `inflight, `owners, timers
      ensures Holds(s, cfg) && timers.status == old(timers.status) && old(owners) <= owners
      ensures id == if timers.status == StatusStarted then 0 else INVALID_ID
      ensures id == INVALID_ID ==> timers.itemQueue == []
      ensures timers.status == StatusStarted ==> Due(cfg) && LatestFor(timers.history, owners, s)
      ensures KilledOnly(old(timers.history), timers.history, owners, None)
      ensures old(inflight).Some? ==> inflight == old(inflight)
    {
      hide Valid, Accounted, OnTime, WakesInTime, KilledOnly, LatestFor, OnlyFired, TimerQueue.SetTimer;
      Interfere();
      ArmKillsNothing(old(timers.history), timers.history, owners + [s], cfg.delayUs);
      ArmKillsNothing(old(timers.history), timers.history, owners, cfg.delayUs);
      SetOnEmpty(timers.View(), timers.now, cfg);
      AccountSize(timers.itemQueue, timers.tickets, timers.history);
      LatestSet(timers.history, owners, s, cfg.delayUs);
      id := timers.SetTimer(cfg.kind, cfg.delayUs, cfg.cookie, Some(SELF));
      if |owners| < timers.tickets {
        owners := owners + [s];
      }
    }

    /** The three critical sections of ResetTimer, the timer thread free to act before each. */
    method ResetTimer(s: int, a: StateActions) returns (id: int)
      requires Holds(s, a.cfg) && a.timerId == 0 && LatestFor(timers.history, owners, s)
      modifies `inflight, `owners, timers
      ensures Holds(s, a.cfg) && timers.status == old(timers.status) && old(owners) <= owners
      ensures timers.status == StatusStarted ==> id == 0 && Due(a.cfg)
      ensures timers.itemQueue != [] ==> Due(a.cfg)
      ensures id == 0 ==> LatestFor(timers.history, owners, s)
      ensures id in {0, INVALID_ID} && (id == INVALID_ID ==> timers.itemQueue == [])
      ensures KilledOnly(old(timers.history), timers.history, owners, Some(s))
      ensures old(inflight).Some? ==> inflight == old(inflight)
    {
      hide Valid, Accounted, OnTime, WakesInTime;
      Interfere();
      var done: bool;
      done, id := timers.TryResetInPlace(a.timerId, a.cfg.delayUs);
      if !done {
        Disarm(s, a);
        id := Rearm(s, a.cfg);
      }
    }

    /** The current state holds a timer that a reset would restart. */
    ghost predicate Resets()
      reads this
    {
      && curr.Some? && curr.value in states && states[curr.value].Some?
      && states[curr.value].value.timerId != INVALID_ID && states[curr.value].value.cfg.delayUs != 0
    }

    /** Called from inside a handler, so under the message lock. */
    method ResetTimerDelay()
      requires Inv() && running
      modifies `states, `inflight, `owners, timers
      ensures Inv() && SameConfig(old(states), states)
      ensures timers.status == old(timers.status) && old(owners) <= owners
      ensures KilledOnly(old(timers.history), timers.history, owners, curr)
      ensures timers.status == StatusStarted ==> states == old(states)
      ensures Resets() && timers.status == StatusStarted ==> Due(states[curr.value].value.cfg)
      ensures old(inflight).Some? ==> inflight == old(inflight)
    {
      hide Valid, Accounted, OnTime, WakesInTime, OwnTimer, LatestFor, OnlyFired;
      if curr.None? || states[curr.value].None? {
        return;
      }
      var a := states[curr.value].value;
      if a.timerId == INVALID_ID || a.cfg.delayUs == 0 {
        return;
      }
      var id := ResetTimer(curr.value, a);
      states := states[curr.value := Some(a.(timerId := id))];
    }

    /** Neither side of a transition lacks actions: that is a precondition here, and met by
        the only caller. */
    method ToState(next: int)
      requires Inv() && running
      requires curr.Some? && states[curr.value].Some?
      requires next in states && states[next].Some? && next != curr.value
      modifies `states, `curr, `inflight, `owners, `moved, timers
      ensures Inv() && curr == Some(next) && moved && SameConfig(old(states), states)
      ensures timers.status == old(timers.status) && old(owners) <= owners
      ensures KilledOnly(old(timers.history), timers.history, owners, old(curr))
      ensures Entered(next)
      ensures old(inflight).Some? ==> inflight == old(inflight)
    {
      hide Valid, Accounted, OnTime, WakesInTime, OneTimer, Timed, KilledOnly;
      LeaveState();
      ghost var mid, midStates := timers.history, states;
      EnterState(next);
      KilledThen(old(timers.history), mid, timers.history, old(owners), owners, old(curr));
      SameTwice(old(states), midStates, states);
    }

    /** The state just entered: with a timeout and the manager started it holds id 0 and its timer is
        queued, due after its delay from now; else it holds none and nothing is queued. */
    ghost predicate Entered(next: int)
      reads this, timers
    {
      && next in states && states[next].Some?
      && var a := states[next].value;
         if a.cfg.delayUs != 0 && timers.status == StatusStarted then a.timerId == 0 && Due(a.cfg)
         else a.timerId == INVALID_ID && timers.itemQueue == []
    }

    /** Leaving a state takes its timer away, and no other. */
    method LeaveState()
      requires Base() && running && curr.Some? && states[curr.value].Some?
      modifies `states, `inflight, timers
      ensures Base() && SameConfig(old(states), states) && OthersHoldNone(states, None)
      ensures timers.itemQueue == [] && timers.status == old(timers.status)
      ensures KilledOnly(old(timers.history), timers.history, owners, curr)
      ensures old(inflight).Some? ==> inflight == old(inflight)
    {
      hide Valid, Accounted, OnTime, WakesInTime, OwnTimer;
      var a := states[curr.value].value;
      EmptyIsOwn(a.cfg, owners, curr.value);
      if a.timerId != INVALID_ID {
        Disarm(curr.value, a);
        states := states[curr.value := Some(a.(timerId := INVALID_ID))];
      }
    }

    /** Entering a state arms its timer, if it has one. */
    method EnterState(next: int)
      requires Base() && running && OthersHoldNone(states, None) && timers.itemQueue == []
      requires next in states && states[next].Some? && states[initial].Some?
      modifies `states, `curr, `inflight, `owners, `moved, timers
      ensures Inv() && curr == Some(next) && moved && SameConfig(old(states), states)
      ensures timers.status == old(timers.status) && old(owners) <= owners
      ensures KilledOnly(old(timers.history), timers.history, owners, None)
      ensures Entered(next)
      ensures old(inflight).Some? ==> inflight == old(inflight)
    {
      hide Valid, Accounted, OnTime, WakesInTime, OwnTimer, LatestFor, SameConfig, KilledOnly, Delivers;
      curr := Some(next);
      moved := true;
      var b := states[next].value;
      EmptyIsOwn(b.cfg, owners, next);
      KilledNothing(timers.history, owners);
      if b.cfg.delayUs != 0 {
        var id := Rearm(next, b.cfg);
        states := states[next := Some(b.(timerId := id))];
      }
      SameButId(old(states), next, states[next].value.timerId);
    }

    /** The current state's timer is queued and due after its delay from now. */
    ghost predicate Restarted()
      reads this, timers
    {
      curr.Some? && curr.value in states && states[curr.value].Some? && Due(states[curr.value].value.cfg)
    }

    /** The part of a handler that touches the machine. */
    method RunHandler(resets: nat)
      requires Inv() && running
      modifies `states, `inflight, `owners, timers
      ensures Inv() && SameConfig(old(states), states)
      ensures timers.status == old(timers.status) && old(owners) <= owners
      ensures KilledOnly(old(timers.history), timers.history, owners, curr)
      ensures old(Resets()) && timers.status == StatusStarted && resets > 0 ==> Restarted()
      ensures old(inflight).Some? ==> inflight == old(inflight)
    {
      hide Valid, Accounted, OnTime, WakesInTime, OneTimer, OwnTimer, Registered, Timed, LatestFor;
      for i := 0 to resets
        invariant Inv() && SameConfig(old(states), states)
        invariant timers.status == old(timers.status) && old(owners) <= owners
        invariant KilledOnly(old(timers.history), timers.history, owners, curr)
        invariant timers.status == StatusStarted ==> states == old(states)
        invariant old(Resets()) && timers.status == StatusStarted && i > 0 ==> Restarted()
        invariant old(inflight).Some? ==> inflight == old(inflight)
      {
        ResetTimerDelay();
      }
    }

    /** The result of handling `msg` in the state the machine was in: only a successful handler naming
        another registered state moves it. */
    twostate predicate Handled(msg: int, h: Outcome, ret: int)
      reads this, timers
    {
      if old(curr).None? || old(curr).value !in old(states) || old(states)[old(curr).value].None? then
        ret == -1 && curr == old(curr)
      else if msg !in old(states)[old(curr).value].value.actions then
        ret == NO_PROCESS_RET && curr == old(curr)
      else if h.ret == 0 && h.next in old(states) && Some(h.next) != old(curr) then
        ret == 0 && curr == Some(h.next) && Entered(h.next)
      else
        && ret == h.ret && curr == old(curr)
        && (old(Resets()) && timers.status == StatusStarted && h.resets > 0 ==> Restarted())
    }

    method HandleMsg(msg: int, h: Outcome) returns (ret: int)
      requires Inv()
      modifies `states, `curr, `running, `inflight, `owners, `moved, timers
      ensures Inv() && running && SameConfig(old(states), states)
      ensures timers.status == old(timers.status) && old(owners) <= owners
      ensures KilledOnly(old(timers.history), timers.history, owners, old(curr))
      ensures Handled(msg, h, ret)
      ensures old(inflight).Some? ==> inflight == old(inflight)
    {
      hide Valid, Accounted, OnTime, WakesInTime, OwnTimer, LatestFor;
      running := true;
      if curr.None? || states[curr.value].None? {
        return -1;
      }
      if msg !in states[curr.value].value.actions {
        return NO_PROCESS_RET;
      }
      RunHandler(h.resets);
      if h.ret != 0 {
        return h.ret;
      }
      if curr.value == h.next {
        return 0;
      }
      if h.next !in states {
        return 0;
      }
      ToState(h.next);
      return 0;
    }

    /** The timer thread delivers the timer it took off the queue, as a message of its kind, then is
        free again. */
    method OnTimerEvent(h: Outcome) returns (ret: int)
      requires Inv() && inflight.Some?
      modifies `states, `curr, `running, `inflight, `owners, `delivered, `moved, timers
      ensures Inv() && inflight.None? && SameConfig(old(states), states) && old(owners) <= owners
      ensures timers.status == old(timers.status) && delivered == old(delivered) + [old(inflight).value]
      ensures KilledOnly(old(timers.history), timers.history, owners, old(curr))
      ensures Handled(old(inflight).value.kind, h, ret)
    {
      hide Valid, Accounted, OnTime, WakesInTime, OneTimer, Registered, Timed;
      ret := HandleMsg(inflight.value.kind, h);
      delivered := delivered + [inflight.value];
      inflight := None;
    }

    /** The timer thread's turn while the message lock is free. */
    method ThreadTurn()
      requires Inv()
      modifies `inflight, timers
      ensures Inv()
      ensures KilledOnly(old(timers.history), timers.history, owners, None)
      ensures timers.status == old(timers.status)
    {
      hide Valid, Accounted, OnTime, WakesInTime, Registered, OthersHoldNone;
      Interfere();
    }
  }

  datatype Config =
    | Configure(state: int, hasMemory: bool)
    | Handles(state: int, msg: int)
    | Waits(state: int, cfg: TimerCfg)

  datatype Activity = Message(msg: int, h: Outcome) | Thread | Delivery(h: Outcome)

  /** Configures a fresh machine and lets it run. */
  method Drive(initial: int, now: int, created: bool, config: seq<Config>, activities: seq<Activity>)
    returns (m: ModuleStates, ghost killedIn: map<nat, int>)
    ensures fresh(m) && fresh(m.timers) && m.Inv() && m.initial == initial
    ensures m.timers.status == if created then StatusStarted else StatusInit
    ensures Recorded(m.timers.history, m.owners, killedIn)
  {
    hide ModuleStates.Inv, Recorded, KilledOnly;
    m := new ModuleStates(initial, now, created);
    killedIn := map[];
    for i := 0 to |config|
      invariant fresh(m) && fresh(m.timers) && m.Inv() && !m.running && m.initial == initial
      invariant m.timers.status == if created then StatusStarted else StatusInit
      invariant m.timers.history.fate == []
    {
      ApplyConfig(m, config[i]);
    }
    RecordNothing(m.timers.history, m.owners);
    for i := 0 to |activities|
      invariant fresh(m) && fresh(m.timers) && m.Inv() && m.initial == initial
      invariant m.timers.status == if created then StatusStarted else StatusInit
      invariant Recorded(m.timers.history, m.owners, killedIn)
    {
      ghost var before, owners, curr := m.timers.history, m.owners, m.curr;
      Perform(m, activities[i]);
      RecordKeeps(before, m.timers.history, owners, m.owners, curr, killedIn);
      killedIn := Record(killedIn, m.timers.history, curr);
    }
  }

  /** Every configuration followed by every interleaving of messages and the timer thread. What
      `killedIn` records is the state in which each activity that killed a timer began. */
  method Run(initial: int, now: int, created: bool, config: seq<Config>, activities: seq<Activity>)
    returns (m: ModuleStates, ghost killedIn: map<nat, int>)
    ensures fresh(m) && fresh(m.timers) && m.Inv() && m.initial == initial
    ensures |m.timers.itemQueue| <= 1
    ensures forall s :: s in m.states && m.states[s].Some? && m.curr != Some(s) ==>
                          m.states[s].value.timerId == INVALID_ID
    ensures m.timers.itemQueue != [] ==>
              && m.curr.Some? && m.curr.value in m.states && m.states[m.curr.value].Some?
              && Matches(m.timers.itemQueue[0], m.states[m.curr.value].value)
    ensures m.curr.Some? ==> m.curr.value in m.states && (m.states[m.curr.value].None? ==> m.curr.value == initial)
    ensures Recorded(m.timers.history, m.owners, killedIn)
    // A state other than the first that has a timeout was armed: its timer is queued or has fired.
    ensures created && m.curr.Some? && m.curr.value != initial && m.states[m.curr.value].value.cfg.delayUs != 0 ==>
              && m.states[m.curr.value].value.timerId == 0
              && LatestFor(m.timers.history, m.owners, m.curr.value)
    ensures Delivers(m.timers.history.fired, m.delivered, m.inflight)
  {
    hide Recorded;
    m, killedIn := Drive(initial, now, created, config, activities);
  }

  method ApplyConfig(m: ModuleStates, c: Config)
    requires m.Inv() && !m.running
    modifies m
    ensures m.Inv() && !m.running
  {
    hide Valid, Accounted, OnTime, WakesInTime, Registered, OneTimer;
    match c
    case Configure(s, hasMemory) => m.ForState(s, hasMemory);
    case Handles(s, msg) =>
      if s in m.states && m.states[s].Some? {
        m.Add(s, msg);
      }
    case Waits(s, cfg) =>
      if s in m.states && m.states[s].Some? {
        m.WaitUntil(s, cfg.kind, cfg.delayUs, cfg.cookie);
      }
  }

  method Perform(m: ModuleStates, act: Activity)
    requires m.Inv()
    modifies m, m.timers
    ensures m.Inv() && old(m.owners) <= m.owners && m.timers.status == old(m.timers.status)
    ensures KilledOnly(old(m.timers.history), m.timers.history, m.owners, old(m.curr))
  {
    hide Valid, Accounted, OnTime, WakesInTime, Registered, OneTimer;
    match act
    case Message(msg, h) => var _ := m.HandleMsg(msg, h);
    case Thread => m.ThreadTurn();
    case Delivery(h) =>
      if m.inflight.Some? {
        var _ := m.OnTimerEvent(h);
      }
  }
}
