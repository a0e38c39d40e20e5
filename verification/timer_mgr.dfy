/** The timer manager: the id allocator it inherits, its queue, its clock, and the thread
    that fires timers. */
module TimerManager {
  import opened Basics
  import opened TimerQueue

  /** What became of a successful set. */
  datatype Fate = Queued | Fired | Killed | Cleared

  /** What has happened so far: the fate of every ticket, the timers fired in order and when,
      and whether every delay asked for was nonnegative. */
  datatype History = History(fate: seq<Fate>, fired: Queue, firedAt: seq<int>, nonneg: bool) {
    function Set(delayUs: int): History {
      this.(fate := fate + [Queued], nonneg := nonneg && delayUs >= 0)
    }
    function Reset(delayUs: int): History {
      this.(nonneg := nonneg && delayUs >= 0)
    }
    function Ends(ticket: nat, end: Fate): History
      requires ticket < |fate|
    {
      this.(fate := fate[ticket := end])
    }
    function Fires(item: TimerItem, now: int): History
      requires item.ticket < |fate|
    {
      this.(fate := fate[item.ticket := Fired], fired := fired + [item], firedAt := firedAt + [now])
    }
    function Clears(): History {
      this.(fate := seq(|fate|, t requires 0 <= t < |fate| => if fate[t] == Queued then Cleared else fate[t]))
    }
    /** A ticket that has met its fate keeps it. */
    predicate Extends(before: History) {
      && |before.fate| <= |fate| && before.fired <= fired
      && forall t :: 0 <= t < |before.fate| && before.fate[t] != Queued ==> fate[t] == before.fate[t]
    }
  }

  /** Every successful set is queued, fired, killed or cleared, exactly one of them, and was
      fired at most once. */
  ghost predicate Accounted(q: Queue, tickets: nat, h: History) {
    && |h.fate| == tickets
    && Distinct(q, Ticket()) && Distinct(h.fired, Ticket())
    && (forall x :: x in q ==> x.ticket < tickets)
    && (forall x :: x in h.fired ==> x.ticket < tickets)
    && (forall t: nat :: t < tickets ==> (h.fate[t] == Queued <==> t in Keys(q, Ticket())))
    && (forall t: nat :: t < tickets ==> (h.fate[t] == Fired <==> t in Keys(h.fired, Ticket())))
  }

  /** Nothing fired early, and with nonnegative delays deadlines fired in order. */
  ghost predicate OnTime(q: Queue, now: int, h: History) {
    && |h.firedAt| == |h.fired|
    && (forall k :: 0 <= k < |h.fired| ==> h.fired[k].tgtUs <= h.firedAt[k] <= now)
    && (h.nonneg ==> Sorted(h.fired))
    && (h.nonneg && h.fired != [] ==> forall x :: x in q ==> h.fired[|h.fired| - 1].tgtUs <= x.tgtUs)
  }

  lemma AccountSet(q: Queue, tickets: nat, h: History, item: TimerItem, delayUs: int)
    requires Accounted(q, tickets, h) && item.ticket == tickets
    ensures Accounted(Insert(q, item), tickets + 1, h.Set(delayUs))
  {
    assert tickets !in Keys(q, Ticket());
    KeysInsert(q, item, Ticket());
    forall x | x in Insert(q, item)
      ensures x.ticket < tickets + 1
    {
      MembersInsert(q, item, x);
    }
  }

  lemma AccountRemove(q: Queue, tickets: nat, h: History, i: nat, end: Fate)
    requires Accounted(q, tickets, h) && i < |q| && end != Queued && end != Fired
    ensures q[i].ticket < |h.fate|
    ensures Accounted(Without(q, i), tickets, h.Ends(q[i].ticket, end))
  {
    assert q[i] in q;
    KeysWithout(q, i, Ticket());
    var gone := q[i].ticket;
    assert gone in Keys(q, Ticket());
    assert h.fate[gone] == Queued;
    assert gone !in Keys(h.fired, Ticket());
  }

  lemma AccountFire(q: Queue, tickets: nat, h: History, now: int)
    requires Accounted(q, tickets, h) && q != []
    ensures q[0].ticket < |h.fate| && h.fate[q[0].ticket] == Queued
    ensures Accounted(q[1..], tickets, h.Fires(q[0], now))
  {
    var item := q[0];
    assert item in q;
    KeysWithout(q, 0, Ticket());
    assert Without(q, 0) == q[1..];
    var fired' := h.fired + [item];
    assert item.ticket in Keys(q, Ticket()) && item.ticket !in Keys(h.fired, Ticket());
    assert forall x :: x in h.fired ==> x.ticket in Keys(h.fired, Ticket());
    assert Keys(fired', Ticket()) == Keys(h.fired, Ticket()) + {item.ticket} by {
      assert forall x :: x in fired' <==> x in h.fired || x == item;
    }
  }

  lemma AccountSize(q: Queue, tickets: nat, h: History)
    requires Accounted(q, tickets, h)
    ensures |h.fate| == tickets
  {
  }

  lemma AccountClear(q: Queue, tickets: nat, h: History)
    requires Accounted(q, tickets, h)
    ensures Accounted([], tickets, h.Clears())
  {
  }

  lemma AccountReset(q: Queue, tickets: nat, h: History, tgtUs: int, delayUs: int)
    requires Accounted(q, tickets, h) && |q| == 1
    ensures Accounted([q[0].(tgtUs := tgtUs)], tickets, h.Reset(delayUs))
  {
    var r := [q[0].(tgtUs := tgtUs)];
    assert q[0] in q && r[0] in r;
    assert Keys(r, Ticket()) == Keys(q, Ticket());
  }

  lemma OnTimeSet(q: Queue, now: int, h: History, item: TimerItem, delayUs: int)
    requires OnTime(q, now, h) && item.tgtUs == now + delayUs
    ensures OnTime(Insert(q, item), now, h.Set(delayUs))
  {
    forall x | x in Insert(q, item)
      ensures x in q || x == item
    {
      MembersInsert(q, item, x);
    }
  }

  lemma OnTimeFire(q: Queue, now: int, h: History)
    requires OnTime(q, now, h) && Sorted(q) && q != [] && q[0].tgtUs <= now && q[0].ticket < |h.fate|
    ensures OnTime(q[1..], now, h.Fires(q[0], now))
  {
    assert q[0] in q;
    forall x | x in q[1..]
      ensures q[0].tgtUs <= x.tgtUs
    {
      var k :| 0 <= k < |q| - 1 && q[1..][k] == x;
      assert x == q[k + 1];
    }
  }

  lemma OnTimeRemove(q: Queue, now: int, h: History, i: nat, end: Fate)
    requires OnTime(q, now, h) && i < |q| && q[i].ticket < |h.fate|
    ensures OnTime(Without(q, i), now, h.Ends(q[i].ticket, end))
  {
    assert forall x :: x in Without(q, i) ==> x in q;
  }

  /** The timer thread runs, waits without limit, or waits until a given time. */
  datatype Sleep = Awake | Forever | Until(us: int)

  /** A sleeping timer thread wakes no later than the earliest deadline. */
  predicate WakesInTime(q: Queue, sleep: Sleep) {
    match sleep
    case Awake => true
    case Forever => q == []
    case Until(us) => q == [] || us <= q[0].tgtUs
  }

  lemma WakesAfterRemove(q: Queue, sleep: Sleep, i: nat)
    requires Sorted(q) && i < |q| && WakesInTime(q, sleep)
    ensures WakesInTime(Without(q, i), sleep)
  {
  }

  /** One turn of the timer thread's loop. */
  datatype Turn = Exit | Wait | Fire(item: TimerItem)

  class TimerMgr {
    var status: TimerStatus
    var observer: Option<int>
    var idFlags: seq<bool>
    var itemQueue: Queue
    var tickets: nat
    var now: int
    var sleep: Sleep
    ghost var history: History

    function View(): Core
      reads this
    {
      Core(status, observer, idFlags, itemQueue, tickets)
    }

    ghost predicate Inv()
      reads this
    {
      && Valid(View())
      && Accounted(itemQueue, tickets, history)
      && OnTime(itemQueue, now, history)
      && (status == StatusStarted ==> WakesInTime(itemQueue, sleep))
    }

    /** The source's ids and INVALID_ID only stay apart up to 0xffff timers. */
    constructor (maxTimerNum: int, now: int)
      requires maxTimerNum <= INVALID_ID
      ensures Inv() && View() == Core(StatusInit, None, seq(|idFlags|, i => false), [], 0)
      ensures |idFlags| == if maxTimerNum < 0 then 0 else maxTimerNum
      ensures history == History([], [], [], true) && this.now == now
    {
      status, observer, itemQueue, tickets := StatusInit, None, [], 0;
      idFlags := seq(if maxTimerNum < 0 then 0 else maxTimerNum, i => false);
      this.now, sleep := now, Awake;
      history := History([], [], [], true);
    }

    /** The monotone clock advances. */
    method Tick(us: nat)
      requires Inv()
      modifies `now
      ensures Inv() && now == old(now) + us
    {
      now := now + us;
    }

    /** Starting the thread may fail. */
    method Start(observer: Option<int>, created: bool)
      requires Inv()
      modifies `status, `observer, `sleep
      ensures Inv()
      ensures old(status) != StatusInit || !created ==> View() == old(View())
      ensures old(status) == StatusInit && created ==>
                View() == old(View()).(status := StatusStarted, observer := observer) && sleep == Awake
    {
      if status != StatusInit {
        return;
      }
      if !created {
        return;
      }
      this.observer := observer;
      status := StatusStarted;
      sleep := Awake;
    }

    /** The first half of Stop: tell the thread to quit. */
    method RequestStop() returns (quitting: bool)
      requires Inv()
      modifies `status, `sleep
      ensures Inv()
      ensures quitting <==> old(status) == StatusStarted
      ensures View() == if quitting then old(View()).(status := StatusToQuit) else old(View())
      ensures quitting ==> sleep == Awake
    {
      if status != StatusStarted {
        return false;
      }
      status := StatusToQuit;
      sleep := Awake;
      return true;
    }

    /** The second half of Stop, after the thread has been joined. */
    method Clear()
      requires Inv()
      modifies `status, `observer, `idFlags, `itemQueue, `history
      ensures Inv() && View() == ClearAll(old(View()))
      ensures history == old(history).Clears() && history.Extends(old(history))
      ensures status == StatusInit && observer == None && itemQueue == []
      ensures forall i :: 0 <= i < |idFlags| ==> !idFlags[i]
      ensures forall t :: 0 <= t < |old(history).fate| && old(history).fate[t] == Queued ==> history.fate[t] == Cleared
    {
      AccountClear(itemQueue, tickets, history);
      history := history.Clears();
      itemQueue := [];
      ClearId();
      status := StatusInit;
      observer := None;
    }

    // ---- The inherited id allocator.

    method AllocId() returns (id: int)
      modifies `idFlags
      ensures FirstFree(old(idFlags)) == |old(idFlags)| ==> id == INVALID_ID && idFlags == old(idFlags)
      ensures FirstFree(old(idFlags)) < |old(idFlags)| ==>
                id == FirstFree(old(idFlags)) && idFlags == old(idFlags)[id := true]
    {
      var i := 0;
      while i < |idFlags|
        invariant 0 <= i <= |idFlags| && idFlags == old(idFlags)
        invariant forall k :: 0 <= k < i ==> idFlags[k]
      {
        if !idFlags[i] {
          idFlags := idFlags[i := true];
          return i;
        }
        i := i + 1;
      }
      return INVALID_ID;
    }

    method ReleaseId(id: nat)
      modifies `idFlags
      ensures idFlags == Released(old(idFlags), id)
    {
      if id >= |idFlags| {
        return;
      }
      idFlags := idFlags[id := false];
    }

    method ClearId()
      modifies `idFlags
      ensures idFlags == seq(|old(idFlags)|, i => false)
    {
      var i := 0;
      while i < |idFlags|
        invariant 0 <= i <= |idFlags| == |old(idFlags)|
        invariant forall k :: 0 <= k < i ==> !idFlags[k]
      {
        idFlags := idFlags[i := false];
        i := i + 1;
      }
    }

    // ---- Client calls.

    method SetTimer(kind: int, delayUs: int, cookie: int, own: Option<int>) returns (id: int)
      requires Inv()
      modifies `idFlags, `itemQueue, `tickets, `sleep, `history
      ensures Inv()
      ensures (View(), id) == TimerQueue.SetTimer(old(View()), now, kind, delayUs, cookie, own)
      ensures history == if tickets == old(tickets) then old(history) else old(history).Set(delayUs)
    {
      if status != StatusStarted {
        return INVALID_ID;
      }
      var target := if own.None? then observer else own;
      if target.None? {
        return INVALID_ID;
      }
      id := Arm(kind, delayUs, cookie, target.value);
    }

    /** Allocates an id and queues the timer, unless every id is taken. */
    method Arm(kind: int, delayUs: int, cookie: int, target: int) returns (id: int)
      requires Inv() && status == StatusStarted
      modifies `idFlags, `itemQueue, `tickets, `sleep, `history
      ensures Inv()
      ensures View() == TimerQueue.SetTimer(old(View()), now, kind, delayUs, cookie, Some(target)).0
      ensures id == TimerQueue.SetTimer(old(View()), now, kind, delayUs, cookie, Some(target)).1
      ensures history == if tickets == old(tickets) then old(history) else old(history).Set(delayUs)
    {
      hide Valid, Accounted, OnTime, WakesInTime, Insert;
      ValidSize(View());
      SetTimerKeeps(View(), now, kind, delayUs, cookie, Some(target));
      id := AllocId();
      if id == INVALID_ID {
        return;
      }
      Admit(TimerItem(id, kind, cookie, now + delayUs, target, tickets), delayUs);
    }

    /** Queues a timer under a fresh ticket. */
    method Admit(item: TimerItem, delayUs: int)
      requires Accounted(itemQueue, tickets, history) && OnTime(itemQueue, now, history)
      requires item.ticket == tickets && item.tgtUs == now + delayUs
      modifies `itemQueue, `tickets, `sleep, `history
      ensures Accounted(itemQueue, tickets, history) && OnTime(itemQueue, now, history)
      ensures itemQueue == Insert(old(itemQueue), item) && tickets == old(tickets) + 1
      ensures history == old(history).Set(delayUs)
      ensures WakesInTime(old(itemQueue), old(sleep)) ==> WakesInTime(itemQueue, sleep)
    {
      hide Accounted, OnTime;
      AccountSet(itemQueue, tickets, history, item, delayUs);
      OnTimeSet(itemQueue, now, history, item, delayUs);
      Enqueue(item);
      tickets := tickets + 1;
      history := history.Set(delayUs);
    }

    /** Inserts in deadline order and wakes the thread when the new timer comes first. */
    method Enqueue(item: TimerItem)
      modifies `itemQueue, `sleep
      ensures itemQueue == Insert(old(itemQueue), item)
      ensures WakesInTime(old(itemQueue), old(sleep)) ==> WakesInTime(itemQueue, sleep)
    {
      var i := 0;
      while i < |itemQueue| && itemQueue[i].tgtUs < item.tgtUs
        invariant 0 <= i <= |itemQueue|
        invariant forall k :: 0 <= k < i ==> itemQueue[k].tgtUs < item.tgtUs
      {
        i := i + 1;
      }
      PositionIs(itemQueue, item.tgtUs, i);
      itemQueue := itemQueue[..i] + [item] + itemQueue[i..];
      if i == 0 {
        sleep := Awake;
      }
    }

    /** The search inside KillTimer. */
    method FindTimer(timerId: int) returns (i: nat)
      ensures i == IndexOf(itemQueue, timerId)
    {
      i := 0;
      while i < |itemQueue| && itemQueue[i].timerId != timerId
        invariant 0 <= i <= |itemQueue|
        invariant forall k :: 0 <= k < i ==> itemQueue[k].timerId != timerId
      {
        i := i + 1;
      }
      IndexOfIs(itemQueue, timerId, i);
    }

    /** KillTimer takes its argument by reference and always leaves INVALID_ID there. */
    method KillTimer(timerId: int) returns (left: int)
      requires Inv()
      modifies `idFlags, `itemQueue, `history
      ensures Inv() && left == INVALID_ID
      ensures View() == TimerQueue.KillTimer(old(View()), timerId)
      ensures var i := IndexOf(old(itemQueue), timerId);
              if i == |old(itemQueue)| then history == old(history)
              else old(itemQueue)[i].ticket < |old(history).fate|
                   && history == old(history).Ends(old(itemQueue)[i].ticket, Killed)
                   && history.fate[old(itemQueue)[i].ticket] == Killed
    {
      hide Valid, Accounted, OnTime, WakesInTime, Without;
      ValidSize(View());
      KillTimerKeeps(View(), timerId);
      var i := FindTimer(timerId);
      if i < |itemQueue| {
        Erase(i);
      }
      return INVALID_ID;
    }

    /** Releases the id of a queued timer and takes the timer off the queue. */
    method Erase(i: nat)
      requires i < |itemQueue| && Accounted(itemQueue, tickets, history) && OnTime(itemQueue, now, history)
      requires Sorted(itemQueue)
      modifies `idFlags, `itemQueue, `history
      ensures Accounted(itemQueue, tickets, history) && OnTime(itemQueue, now, history)
      ensures idFlags == Released(old(idFlags), old(itemQueue)[i].timerId) && itemQueue == Without(old(itemQueue), i)
      ensures var ticket := old(itemQueue)[i].ticket;
              && ticket < |old(history).fate| && history == old(history).Ends(ticket, Killed)
              && history.fate[ticket] == Killed
      ensures WakesInTime(old(itemQueue), sleep) ==> WakesInTime(itemQueue, sleep)
    {
      hide Accounted, OnTime, WakesInTime;
      if WakesInTime(itemQueue, sleep) {
        WakesAfterRemove(itemQueue, sleep, i);
      }
      AccountRemove(itemQueue, tickets, history, i, Killed);
      OnTimeRemove(itemQueue, now, history, i, Killed);
      history := history.Ends(itemQueue[i].ticket, Killed);
      ReleaseId(itemQueue[i].timerId);
      itemQueue := itemQueue[..i] + itemQueue[i + 1..];
    }

    /** The first critical section of ResetTimer. It acts only on a single queued timer. */
    method TryResetInPlace(timerId: int, delayUs: int) returns (done: bool, id: int)
      requires Inv()
      modifies `itemQueue, `sleep, `history
      ensures Inv() && (done <==> |old(itemQueue)| == 1)
      ensures done ==> (View(), id) == ResetInPlace(old(View()), now, timerId, delayUs)
      ensures !done ==> View() == old(View())
      ensures history == if done && id != INVALID_ID then old(history).Reset(delayUs) else old(history)
    {
      hide Valid, Accounted;
      if |itemQueue| == 1 {
        if itemQueue[0].timerId != timerId {
          return true, INVALID_ID;
        }
        ValidSize(View());
        ResetInPlaceKeeps(View(), now, timerId, delayUs);
        AccountReset(itemQueue, tickets, history, now + delayUs, delayUs);
        assert itemQueue[0] in itemQueue;
        itemQueue := [itemQueue[0].(tgtUs := now + delayUs)];
        history := history.Reset(delayUs);
        sleep := Awake;
        return true, timerId;
      }
      return false, INVALID_ID;
    }

    /** ResetTimer when no other thread gets in between its critical sections. */
    method ResetTimer(timerId: int, kind: int, delayUs: int, cookie: int, own: Option<int>) returns (id: int)
      requires Inv()
      modifies `idFlags, `itemQueue, `tickets, `sleep, `history
      ensures Inv()
      ensures (View(), id) == TimerQueue.ResetTimer(old(View()), now, timerId, kind, delayUs, cookie, own)
    {
      var done: bool;
      done, id := TryResetInPlace(timerId, delayUs);
      if done {
        return;
      }
      var _ := KillTimer(timerId);
      id := SetTimer(kind, delayUs, cookie, own);
    }

    // ---- The timer thread.

    /** One turn of the loop in Run. The callback of a fired timer runs outside the lock. */
    method Step() returns (turn: Turn)
      requires Inv() && sleep == Awake
      modifies `idFlags, `itemQueue, `sleep, `history
      ensures Inv()
      ensures turn == (if status != StatusStarted then Exit
                       else if old(itemQueue) == [] || now < old(itemQueue)[0].tgtUs then Wait
                       else Fire(old(itemQueue)[0]))
      ensures turn.Fire? ==>
                && View() == PopFront(old(View()))
                && turn.item.ticket < |old(history).fate| && history == old(history).Fires(turn.item, now)
                && old(history).fate[turn.item.ticket] == Queued && history.fate[turn.item.ticket] == Fired
                && [turn.item] + itemQueue == old(itemQueue)
      ensures !turn.Fire? ==> View() == old(View()) && history == old(history)
    {
      hide Valid, Accounted, OnTime;
      if status != StatusStarted {
        return Exit;
      }
      if itemQueue == [] {
        sleep := Forever;
        return Wait;
      }
      var item := itemQueue[0];
      if now < item.tgtUs {
        sleep := Until(item.tgtUs);
        return Wait;
      }
      ValidSize(View());
      PopFrontKeeps(View());
      AccountFire(itemQueue, tickets, history, now);
      OnTimeFire(itemQueue, now, history);
      history := history.Fires(item, now);
      ReleaseId(item.timerId);
      itemQueue := itemQueue[1..];
      return Fire(item);
    }

    /** A notification, a timeout or a spurious wakeup. */
    method WakeUp()
      requires Inv()
      modifies `sleep
      ensures Inv() && sleep == Awake
    {
      sleep := Awake;
    }
  }

  /** A critical section, or the passing of time. */
  datatype Section =
    | Tick(us: nat)
    | StartThread(observer: Option<int>, created: bool)
    | AskStop
    | FinishStop
    | Set(kind: int, delayUs: int, cookie: int, own: Option<int>)
    | Kill(timerId: int)
    | Reset(timerId: int, delayUs: int)
    | ThreadTurn
    | ThreadWakes

  lemma ExtendsTransitive(a: History, b: History, c: History)
    requires b.Extends(a) && c.Extends(b)
    ensures c.Extends(a)
  {
  }

  method Perform(t: TimerMgr, s: Section)
    requires t.Inv()
    modifies t
    ensures t.Inv() && t.history.Extends(old(t.history)) && t.now >= old(t.now)
  {
    hide Valid, Accounted, OnTime, WakesInTime;
    match s
    case Tick(us) => t.Tick(us);
    case StartThread(observer, created) => t.Start(observer, created);
    case AskStop => var _ := t.RequestStop();
    case FinishStop =>
      if t.status == StatusToQuit {
        t.Clear();
      }
    case Set(kind, delayUs, cookie, own) => var _ := t.SetTimer(kind, delayUs, cookie, own);
    case Kill(timerId) => KillOne(t, timerId);
    case Reset(timerId, delayUs) => var _, _ := t.TryResetInPlace(timerId, delayUs);
    case ThreadTurn =>
      if t.sleep == Awake {
        TurnOnce(t);
      }
    case ThreadWakes => t.WakeUp();
  }

  method KillOne(t: TimerMgr, timerId: int)
    requires t.Inv()
    modifies t
    ensures t.Inv() && t.history.Extends(old(t.history)) && t.now == old(t.now)
  {
    hide Valid, OnTime, WakesInTime;
    var i := IndexOf(t.itemQueue, timerId);
    assert i < |t.itemQueue| ==> t.itemQueue[i] in t.itemQueue;
    var _ := t.KillTimer(timerId);
  }

  method TurnOnce(t: TimerMgr)
    requires t.Inv() && t.sleep == Awake
    modifies t
    ensures t.Inv() && t.history.Extends(old(t.history)) && t.now == old(t.now)
  {
    hide Valid, OnTime, WakesInTime;
    assert t.itemQueue != [] ==> t.itemQueue[0] in t.itemQueue;
    var _ := t.Step();
  }

  /** Every interleaving of clients, clock and timer thread, from any state reached before:
      tickets are accounted for exactly once, fates are final, nothing fires early, deadlines
      fire in order while delays are nonnegative, the queue stays sorted with exact flags,
      and the thread never sleeps past the earliest deadline. */
  method Run(t: TimerMgr, sections: seq<Section>)
    requires t.Inv()
    modifies t
    ensures t.Inv() && t.history.Extends(old(t.history))
    ensures Accounted(t.itemQueue, t.tickets, t.history)
    ensures forall k :: 0 <= k < |t.history.fired| ==> t.history.fired[k].tgtUs <= t.history.firedAt[k]
    ensures t.history.nonneg ==> Sorted(t.history.fired)
    ensures WellFormed(t.idFlags, t.itemQueue)
    ensures t.status == StatusStarted && t.itemQueue != [] && t.itemQueue[0].tgtUs <= t.now ==>
              t.sleep == Awake || (t.sleep.Until? && t.sleep.us <= t.now)
  {
    for i := 0 to |sections|
      invariant t.Inv() && t.history.Extends(old(t.history))
    {
      ghost var h := t.history;
      Perform(t, sections[i]);
      ExtendsTransitive(old(t.history), h, t.history);
    }
  }
}
