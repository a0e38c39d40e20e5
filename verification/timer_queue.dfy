/** The timer queue and the id flags as values: what one critical section of the timer
    manager does to them, and what every such section keeps. */
module TimerQueue {
  import opened Basics

  const INVALID_ID := 0xffff

  datatype TimerStatus = StatusInit | StatusStarted | StatusToQuit

  /** A queued timer. `ticket` numbers the successful set calls; ids are reused, tickets are not. */
  datatype TimerItem = TimerItem(timerId: nat, kind: int, cookie: int, tgtUs: int, observer: int, ticket: nat)

  type Queue = seq<TimerItem>

  /** What the manager's lock protects. */
  datatype Core = Core(status: TimerStatus, observer: Option<int>, flags: seq<bool>, queue: Queue, tickets: nat)

  // ---- The id allocator.

  /** The least free id, or the number of ids when none is free. */
  function FirstFree(flags: seq<bool>): (i: nat)
    ensures i <= |flags|
    ensures forall k :: 0 <= k < i ==> flags[k]
    ensures i < |flags| ==> !flags[i]
  {
    if flags == [] || !flags[0] then 0 else 1 + FirstFree(flags[1..])
  }

  /** Releasing an id that does not exist is ignored. */
  function Released(flags: seq<bool>, id: nat): seq<bool> {
    if id < |flags| then flags[id := false] else flags
  }

  // ---- The queue.

  /** Where a deadline goes: behind every strictly earlier one at the front of the queue. */
  function Position(q: Queue, tgtUs: int): (i: nat)
    ensures i <= |q|
    ensures forall k :: 0 <= k < i ==> q[k].tgtUs < tgtUs
    ensures i < |q| ==> q[i].tgtUs >= tgtUs
  {
    if q == [] || q[0].tgtUs >= tgtUs then 0 else 1 + Position(q[1..], tgtUs)
  }

  lemma PositionIs(q: Queue, tgtUs: int, i: nat)
    requires i <= |q|
    requires forall k :: 0 <= k < i ==> q[k].tgtUs < tgtUs
    requires i < |q| ==> q[i].tgtUs >= tgtUs
    ensures i == Position(q, tgtUs)
  {
  }

  function Insert(q: Queue, item: TimerItem): Queue {
    var i := Position(q, item.tgtUs);
    q[..i] + [item] + q[i..]
  }

  /** The first place an id is queued, or the length when it is not. */
  function IndexOf(q: Queue, id: int): (i: nat)
    ensures i <= |q|
    ensures forall k :: 0 <= k < i ==> q[k].timerId != id
    ensures i < |q| ==> q[i].timerId == id
  {
    if q == [] || q[0].timerId == id then 0 else 1 + IndexOf(q[1..], id)
  }

  lemma IndexOfIs(q: Queue, id: int, i: nat)
    requires i <= |q|
    requires forall k :: 0 <= k < i ==> q[k].timerId != id
    requires i < |q| ==> q[i].timerId == id
    ensures i == IndexOf(q, id)
  {
  }

  function Without(q: Queue, i: nat): Queue
    requires i < |q|
  {
    q[..i] + q[i + 1..]
  }

  predicate Sorted(q: Queue) {
    forall i, j :: 0 <= i < j < |q| ==> q[i].tgtUs <= q[j].tgtUs
  }

  // ---- Keys of queued items: ids and tickets alike.

  type Key = TimerItem -> nat

  ghost function Id(): Key { (x: TimerItem) => x.timerId }
  ghost function Ticket(): Key { (x: TimerItem) => x.ticket }

  ghost predicate Distinct(q: Queue, f: Key) {
    forall i, j :: 0 <= i < j < |q| ==> f(q[i]) != f(q[j])
  }

  ghost function Keys(q: Queue, f: Key): set<nat> {
    set x | x in q :: f(x)
  }

  lemma InsertAt(q: Queue, item: TimerItem)
    ensures var i, r := Position(q, item.tgtUs), Insert(q, item);
            |r| == |q| + 1
            && forall k :: 0 <= k < |r| ==> r[k] == (if k < i then q[k] else if k == i then item else q[k - 1])
  {
  }

  lemma MembersInsert(q: Queue, item: TimerItem, x: TimerItem)
    ensures x in Insert(q, item) <==> x in q || x == item
  {
    InsertAt(q, item);
    var i, r := Position(q, item.tgtUs), Insert(q, item);
    if x in q {
      var k :| 0 <= k < |q| && q[k] == x;
      assert r[if k < i then k else k + 1] == x;
    }
    assert r[i] == item;
  }

  lemma KeysInsert(q: Queue, item: TimerItem, f: Key)
    requires Distinct(q, f) && f(item) !in Keys(q, f)
    ensures Distinct(Insert(q, item), f)
    ensures Keys(Insert(q, item), f) == Keys(q, f) + {f(item)}
  {
    hide Insert;
    forall x
      ensures x in Insert(q, item) <==> x in q || x == item
    {
      MembersInsert(q, item, x);
    }
    DistinctInsert(q, item, f);
  }

  lemma DistinctInsert(q: Queue, item: TimerItem, f: Key)
    requires Distinct(q, f) && f(item) !in Keys(q, f)
    ensures Distinct(Insert(q, item), f)
  {
    hide Keys;
    var i, r := Position(q, item.tgtUs), Insert(q, item);
    InsertAt(q, item);
    forall k | 0 <= k < |q|
      ensures f(q[k]) != f(item)
    {
      KeyOf(q, k, f);
    }
    forall j, k | 0 <= j < k < |r|
      ensures f(r[j]) != f(r[k])
    {
      assert r[j] == (if j < i then q[j] else if j == i then item else q[j - 1]);
      assert r[k] == (if k < i then q[k] else if k == i then item else q[k - 1]);
    }
  }

  lemma KeyOf(q: Queue, k: nat, f: Key)
    requires k < |q|
    ensures f(q[k]) in Keys(q, f)
  {
    assert q[k] in q;
  }

  lemma KeysWithout(q: Queue, i: nat, f: Key)
    requires Distinct(q, f) && i < |q|
    ensures Distinct(Without(q, i), f)
    ensures Keys(Without(q, i), f) == Keys(q, f) - {f(q[i])}
  {
    var r := Without(q, i);
    assert forall k :: 0 <= k < |r| ==> r[k] == q[if k < i then k else k + 1];
    forall x | x in q && f(x) != f(q[i])
      ensures x in r
    {
      var k :| 0 <= k < |q| && q[k] == x;
      assert r[if k < i then k else k - 1] == x;
    }
  }

  lemma MembersWithout(q: Queue, i: nat)
    requires Distinct(q, Id()) && i < |q|
    ensures forall x :: x in Without(q, i) <==> x in q && x.timerId != q[i].timerId
  {
    var r := Without(q, i);
    assert forall k :: 0 <= k < |r| ==> r[k] == q[if k < i then k else k + 1];
    forall x | x in r
      ensures x in q && x.timerId != q[i].timerId
    {
      var k :| 0 <= k < |r| && r[k] == x;
      assert Id()(q[if k < i then k else k + 1]) != Id()(q[i]);
    }
    forall x | x in q && x.timerId != q[i].timerId
      ensures x in r
    {
      var k :| 0 <= k < |q| && q[k] == x;
      assert r[if k < i then k else k - 1] == x;
    }
  }

  /** Distinct keys make as many keys as items. */
  lemma {:induction false} KeysCount(q: Queue, f: Key)
    requires Distinct(q, f)
    ensures |Keys(q, f)| == |q|
  {
    if q != [] {
      KeysWithout(q, 0, f);
      assert Without(q, 0) == q[1..];
      KeysCount(q[1..], f);
      assert q[0] in q;
    }
  }

  // ---- The invariant of the queue and the flags.

  /** Sorted by deadline, ids pairwise distinct, and a flag is set iff its id is queued. */
  ghost predicate WellFormed(flags: seq<bool>, q: Queue) {
    && Sorted(q)
    && Distinct(q, Id())
    && (forall x :: x in q ==> x.timerId < |flags|)
    && (forall i :: 0 <= i < |flags| ==> (flags[i] <==> i in Keys(q, Id())))
  }

  /** All ids are taken exactly when as many timers are queued as there are ids. */
  lemma {:induction false} FullIffAllQueued(flags: seq<bool>, q: Queue)
    requires WellFormed(flags, q)
    ensures |q| <= |flags|
    ensures FirstFree(flags) == |flags| <==> |q| == |flags|
  {
    KeysCount(q, Id());
    var ids := Keys(q, Id());
    SubsetCount(ids, Below(|flags|));
    if FirstFree(flags) == |flags| {
      assert ids == Below(|flags|);
    }
  }

  ghost function Below(n: nat): (s: set<nat>)
    ensures |s| == n
    ensures forall i: nat :: i in s <==> i < n
  {
    if n == 0 then {} else Below(n - 1) + {n - 1}
  }

  lemma {:induction false} SubsetCount(a: set<nat>, b: set<nat>)
    requires a <= b
    ensures |a| <= |b|
    ensures |a| == |b| ==> a == b
  {
    if a != {} {
      var x := Pick(a);
      SubsetCount(a - {x}, b - {x});
      assert a == a - {x} + {x} && b == b - {x} + {x};
    }
  }

  lemma SetKeeps(flags: seq<bool>, q: Queue, item: TimerItem)
    requires WellFormed(flags, q)
    requires item.timerId == FirstFree(flags) < |flags|
    ensures WellFormed(flags[item.timerId := true], Insert(q, item))
  {
    hide Insert, Sorted, Distinct, FirstFree;
    assert item.timerId !in Keys(q, Id()) by {
      FreeIsFree(flags);
    }
    KeysInsert(q, item, Id());
    SortedInsert(q, item);
    forall x | x in Insert(q, item)
      ensures x.timerId < |flags|
    {
      MembersInsert(q, item, x);
    }
  }

  lemma FreeIsFree(flags: seq<bool>)
    ensures FirstFree(flags) < |flags| ==> !flags[FirstFree(flags)]
  {
  }

  lemma SortedInsert(q: Queue, item: TimerItem)
    requires Sorted(q)
    ensures Sorted(Insert(q, item))
  {
    InsertAt(q, item);
  }

  lemma RemoveKeeps(flags: seq<bool>, q: Queue, i: nat)
    requires WellFormed(flags, q) && i < |q|
    ensures WellFormed(Released(flags, q[i].timerId), Without(q, i))
  {
    hide Without, Sorted, Distinct;
    KeysWithout(q, i, Id());
    SortedWithout(q, i);
    MembersWithout(q, i);
    assert q[i] in q;
    assert Keys(Without(q, i), Id()) == Keys(q, Id()) - {q[i].timerId};
  }

  lemma SortedWithout(q: Queue, i: nat)
    requires Sorted(q) && i < |q|
    ensures Sorted(Without(q, i))
  {
    var r := Without(q, i);
    assert forall k :: 0 <= k < |r| ==> r[k] == q[if k < i then k else k + 1];
  }

  // ---- The critical sections.

  function Observer(c: Core, own: Option<int>): Option<int> {
    if own.None? then c.observer else own
  }

  function SetTimer(c: Core, now: int, kind: int, delayUs: int, cookie: int, own: Option<int>): (Core, int) {
    var id := FirstFree(c.flags);
    if c.status != StatusStarted || Observer(c, own).None? || id == |c.flags| then (c, INVALID_ID)
    else
      var item := TimerItem(id, kind, cookie, now + delayUs, Observer(c, own).value, c.tickets);
      (c.(flags := c.flags[id := true], queue := Insert(c.queue, item), tickets := c.tickets + 1), id)
  }

  function KillTimer(c: Core, id: int): Core {
    var i := IndexOf(c.queue, id);
    if i == |c.queue| then c
    else c.(flags := Released(c.flags, c.queue[i].timerId), queue := Without(c.queue, i))
  }

  /** The in-place path, for a single queued timer: a wrong id is refused. */
  function ResetInPlace(c: Core, now: int, id: int, delayUs: int): (Core, int)
    requires |c.queue| == 1
  {
    if c.queue[0].timerId != id then (c, INVALID_ID)
    else (c.(queue := [c.queue[0].(tgtUs := now + delayUs)]), id)
  }

  function ResetTimer(c: Core, now: int, id: int, kind: int, delayUs: int, cookie: int, own: Option<int>)
    : (Core, int)
  {
    if |c.queue| == 1 then ResetInPlace(c, now, id, delayUs)
    else SetTimer(KillTimer(c, id), now, kind, delayUs, cookie, own)
  }

  /** The timer thread takes the earliest timer off the queue. */
  function PopFront(c: Core): Core
    requires c.queue != []
  {
    c.(flags := Released(c.flags, c.queue[0].timerId), queue := c.queue[1..])
  }

  function ClearAll(c: Core): Core {
    c.(status := StatusInit, observer := None, flags := seq(|c.flags|, i => false), queue := [])
  }

  ghost predicate Valid(c: Core) {
    |c.flags| <= INVALID_ID && WellFormed(c.flags, c.queue)
  }

  lemma ValidSize(c: Core)
    requires Valid(c)
    ensures |c.flags| <= INVALID_ID && Sorted(c.queue)
    ensures forall x :: x in c.queue ==> x.timerId < |c.flags|
  {
  }

  lemma SetTimerKeeps(c: Core, now: int, kind: int, delayUs: int, cookie: int, own: Option<int>)
    requires Valid(c)
    ensures Valid(SetTimer(c, now, kind, delayUs, cookie, own).0)
  {
    var id := FirstFree(c.flags);
    if id < |c.flags| && Observer(c, own).Some? {
      SetKeeps(c.flags, c.queue,
               TimerItem(id, kind, cookie, now + delayUs, Observer(c, own).value, c.tickets));
    }
  }

  /** A successful set puts exactly one more timer in the queue: what was asked for, due `delayUs` from
      now, for the caller's own observer or else the manager's, under an id no queued timer has. */
  lemma SetTimerAdds(c: Core, now: int, kind: int, delayUs: int, cookie: int, own: Option<int>)
    requires Valid(c)
    ensures var (c', id) := SetTimer(c, now, kind, delayUs, cookie, own);
            && (id == INVALID_ID ==> c' == c)
            && (id != INVALID_ID ==>
                  && 0 <= id < |c.flags| && (forall x :: x in c.queue ==> x.timerId != id)
                  && (own.Some? || c.observer.Some?)
                  && var target := if own.Some? then own.value else c.observer.value;
                     forall x :: x in c'.queue <==>
                       x in c.queue || x == TimerItem(id, kind, cookie, now + delayUs, target, c.tickets))
  {
    var id := FirstFree(c.flags);
    if c.status == StatusStarted && Observer(c, own).Some? && id < |c.flags| {
      var item := TimerItem(id, kind, cookie, now + delayUs, Observer(c, own).value, c.tickets);
      forall x
        ensures x in Insert(c.queue, item) <==> x in c.queue || x == item
      {
        MembersInsert(c.queue, item, x);
      }
      forall x | x in c.queue
        ensures x.timerId != id
      {
        assert Id()(x) in Keys(c.queue, Id());
      }
    }
  }

  /** With the manager started and an observer present, setting fails iff the queue is full. */
  lemma SetTimerFailsIffFull(c: Core, now: int, kind: int, delayUs: int, cookie: int, own: Option<int>)
    requires Valid(c) && c.status == StatusStarted && Observer(c, own).Some?
    ensures SetTimer(c, now, kind, delayUs, cookie, own).1 == INVALID_ID <==> |c.queue| == |c.flags|
    ensures |c.queue| <= |c.flags|
  {
    FullIffAllQueued(c.flags, c.queue);
  }

  lemma KillTimerKeeps(c: Core, id: int)
    requires Valid(c)
    ensures Valid(KillTimer(c, id))
    ensures forall x :: x in KillTimer(c, id).queue <==> x in c.queue && x.timerId != id
  {
    hide Without, Sorted;
    var i := IndexOf(c.queue, id);
    if i < |c.queue| {
      RemoveKeeps(c.flags, c.queue, i);
      MembersWithout(c.queue, i);
    }
  }

  lemma PopFrontKeeps(c: Core)
    requires Valid(c) && c.queue != []
    ensures Valid(PopFront(c))
  {
    RemoveKeeps(c.flags, c.queue, 0);
    assert Without(c.queue, 0) == c.queue[1..];
  }

  /** Resetting in place moves the deadline of the only timer to `delayUs` from now and nothing else;
      under any other id it is refused. */
  lemma ResetInPlaceMoves(c: Core, now: int, id: int, delayUs: int)
    requires |c.queue| == 1
    ensures var (c', got) := ResetInPlace(c, now, id, delayUs);
            && c'.(queue := c.queue) == c && |c'.queue| == 1
            && c'.queue[0].(tgtUs := c.queue[0].tgtUs) == c.queue[0]
            && (id != c.queue[0].timerId ==> got == INVALID_ID && c' == c)
            && (id == c.queue[0].timerId ==> got == id && c'.queue[0].tgtUs == now + delayUs)
  {
  }

  lemma ResetInPlaceKeeps(c: Core, now: int, id: int, delayUs: int)
    requires Valid(c) && |c.queue| == 1
    ensures Valid(ResetInPlace(c, now, id, delayUs).0)
  {
    var r := ResetInPlace(c, now, id, delayUs).0;
    assert c.queue[0] in c.queue && r.queue[0] in r.queue;
    assert Keys(r.queue, Id()) == Keys(c.queue, Id());
  }

  /** The same queue as far as clients can tell: tickets belong to this model only. */
  predicate SameTimers(a: Core, b: Core) {
    && a.status == b.status && a.observer == b.observer && a.flags == b.flags
    && |a.queue| == |b.queue|
    && forall i :: 0 <= i < |a.queue| ==> a.queue[i].(ticket := 0) == b.queue[i].(ticket := 0)
  }

  /** For the one queued timer, resetting in place gives the same queue, flags and id as
      killing it and setting it again exactly when it carries id 0, is set again with what
      it was set with, and the manager is started. */
  lemma ResetInPlaceRefines(c: Core, now: int, kind: int, delayUs: int, cookie: int, own: Option<int>)
    requires Valid(c) && |c.queue| == 1
    ensures
      var was := c.queue[0];
      var (inPlace, id1) := ResetTimer(c, now, was.timerId, kind, delayUs, cookie, own);
      var (again, id2) := SetTimer(KillTimer(c, was.timerId), now, kind, delayUs, cookie, own);
      SameTimers(inPlace, again) && id1 == id2
      <==> was.timerId == 0 && was.kind == kind && was.cookie == cookie
           && c.status == StatusStarted && Observer(c, own) == Some(was.observer)
  {
    hide FirstFree, Sorted, Distinct;
    var was := c.queue[0];
    var killed := KillTimer(c, was.timerId);
    KillOnly(c);
    var (inPlace, id1) := ResetTimer(c, now, was.timerId, kind, delayUs, cookie, own);
    var (again, id2) := SetTimer(killed, now, kind, delayUs, cookie, own);
    assert id1 == was.timerId && inPlace.queue == [was.(tgtUs := now + delayUs)];
    if c.status != StatusStarted || Observer(c, own).None? {
      assert id2 == INVALID_ID;
    } else {
      var item := TimerItem(0, kind, cookie, now + delayUs, Observer(c, own).value, c.tickets);
      assert id2 == 0 && again.queue == [item];
      assert was.timerId == 0 ==> killed.flags[0 := true] == c.flags;
      assert inPlace.queue[0].(ticket := 0) == was.(tgtUs := now + delayUs, ticket := 0);
    }
  }

  /** Killing the only timer empties the queue and frees every id. */
  lemma KillOnly(c: Core)
    requires Valid(c) && |c.queue| == 1
    ensures var was := c.queue[0];
            && was.timerId < |c.flags| && c.flags[was.timerId]
            && KillTimer(c, was.timerId) == c.(flags := c.flags[was.timerId := false], queue := [])
            && FirstFree(c.flags[was.timerId := false]) == 0
  {
    var was := c.queue[0];
    assert was in c.queue;
    assert Keys(c.queue, Id()) == {was.timerId};
    assert IndexOf(c.queue, was.timerId) == 0;
  }

  const FIRST := TimerItem(0, 7, 0, 5, 1, 0)
  const SECOND := TimerItem(1, 8, 0, 6, 1, 1)

  /** A started manager with two ids, observed by 1. */
  function Two(flags: seq<bool>, queue: Queue, tickets: nat): Core {
    Core(StatusStarted, Some(1), flags, queue, tickets)
  }

  lemma TwoSet()
    ensures SetTimer(Two([false, false], [], 0), 0, 7, 5, 0, None) == (Two([true, false], [FIRST], 1), 0)
    ensures SetTimer(Two([true, false], [FIRST], 1), 0, 8, 6, 0, None) == (Two([true, true], [FIRST, SECOND], 2), 1)
  {
    assert [false, false][0 := true] == [true, false] && [true, false][1 := true] == [true, true];
    assert Insert([], FIRST) == [FIRST];
    assert Position([FIRST], 6) == 1;
    assert Insert([FIRST], SECOND) == [FIRST, SECOND];
    assert FirstFree([true, false]) == 1 by {
      assert [true, false][1..] == [false];
    }
  }

  lemma TwoKill()
    ensures KillTimer(Two([true, true], [FIRST, SECOND], 2), 0) == Two([false, true], [SECOND], 2)
    ensures KillTimer(Two([false, true], [SECOND], 2), 1) == Two([false, false], [], 2)
  {
    assert IndexOf([FIRST, SECOND], 0) == 0 && Without([FIRST, SECOND], 0) == [SECOND];
    assert IndexOf([SECOND], 1) == 0 && Without([SECOND], 0) == [];
  }

  /** A started manager of two ids sets two timers and kills the first. The second, now alone,
      is reset in place under id 1; killed and set again it would get id 0. */
  lemma ResetInPlaceDiffers()
    ensures
      var c0 := Core(StatusStarted, Some(1), [false, false], [], 0);
      var (c1, first) := SetTimer(c0, 0, 7, 5, 0, None);
      var (c2, second) := SetTimer(c1, 0, 8, 6, 0, None);
      var c3 := KillTimer(c2, first);
      var (_, inPlace) := ResetTimer(c3, 0, second, 8, 6, 0, None);
      var (_, again) := SetTimer(KillTimer(c3, second), 0, 8, 6, 0, None);
      inPlace == 1 && again == 0
  {
    hide KillTimer, Insert, IndexOf;
    TwoSet();
    TwoKill();
    assert FirstFree([false, false]) == 0;
  }
}
