/** Matching enrolment requests to the events that complete them: one queue per kind of
    request, drained by events and by aborts. */
module EnrollCallbacks {
  import opened Basics

  /** EnrollAsyncWorkType, in declaration order. */
  datatype WorkType = WorkInit | WorkStart | WorkCommit | WorkInvalid

  datatype MsgId = MsgNone | InitDone | EnrollComplete | CommitEnrollComplete | OtherMsg(code: int)

  datatype NapiResult = Success | InitFailed | CommitEnrollFailed | OtherFailure(code: int)

  const UNKNOWN_ERROR := -100

  /** A request; `serial` stands for the context object. */
  datatype Request = Request(serial: nat, kind: WorkType)

  /** How a request left its queue: handed back to the caller, with the callback details that
      were filled in, or dropped without a word. */
  datatype Ending =
    | Completed(request: Request, event: MsgId, details: Option<(int, string)>, result: NapiResult)
    | Dropped(request: Request)

  type Pending = map<WorkType, seq<Request>>

  function Waiting(p: Pending, w: WorkType): seq<Request> {
    if w in p then p[w] else []
  }

  function ConvertEventId(w: WorkType): MsgId {
    match w
    case WorkInit => InitDone
    case WorkStart => EnrollComplete
    case WorkCommit => CommitEnrollComplete
    case WorkInvalid => MsgNone
  }

  function WorkOf(msg: MsgId): WorkType {
    match msg
    case InitDone => WorkInit
    case EnrollComplete => WorkStart
    case CommitEnrollComplete => WorkCommit
    case _ => WorkInvalid
  }

  /** What a failing processWork writes into a request of kind `w` that is already queued. */
  predicate MayWrite(w: WorkType, result: NapiResult) {
    match w
    case WorkInit => result == InitFailed
    case WorkStart => result != Success
    case WorkCommit => result == CommitEnrollFailed
    case WorkInvalid => false
  }

  /** An event ends a request into which processWork has written something, or nothing. */
  function EventEnding(r: Request, wrote: Option<NapiResult>, msg: MsgId, code: int, info: string): Ending {
    Completed(r, msg, Some((code, info)),
              if code != 0 && msg == InitDone then InitFailed
              else if code != 0 && msg == CommitEnrollComplete then CommitEnrollFailed
              else if wrote.Some? then wrote.value
              else Success)
  }

  /** An aborted request; a request of no valid kind is lost. */
  function AbortEnding(r: Request, w: WorkType): Ending {
    match ConvertEventId(w)
    case InitDone => Completed(r, InitDone, None, InitFailed)
    case EnrollComplete => Completed(r, EnrollComplete, Some((UNKNOWN_ERROR, "")), Success)
    case CommitEnrollComplete => Completed(r, CommitEnrollComplete, None, CommitEnrollFailed)
    case _ => Dropped(r)
  }

  type Written = map<nat, NapiResult>

  function At(wrote: Written, k: nat): Option<NapiResult> {
    if k in wrote then Some(wrote[k]) else None
  }

  function AbortAll(rs: seq<Request>, w: WorkType): (es: seq<Ending>)
    ensures |es| == |rs| && forall i :: 0 <= i < |rs| ==> es[i] == AbortEnding(rs[i], w)
  {
    seq(|rs|, i requires 0 <= i < |rs| => AbortEnding(rs[i], w))
  }

  // ---- What should happen, from the steps alone.

  datatype Step =
    | Queue(r: Request)
    | Fail(w: WorkType, place: nat, result: NapiResult)
    | Event(msg: MsgId, code: int, info: string)
    | Clear

  /** Why a request ended. */
  datatype Cause = ByEvent(msg: MsgId, code: int, info: string) | ByAbort

  /** One kind of request: what was asked, in order, why the first of these ended, in order, and
      what processWork wrote into which of them before they ended. */
  datatype Account = Account(asked: seq<Request>, causes: seq<Cause>, wrote: Written)

  /** The events that concern requests of kind `w`. */
  predicate Concerns(msg: MsgId, w: WorkType) {
    || (w == WorkInit && msg == InitDone)
    || (w == WorkStart && msg == EnrollComplete)
    || (w == WorkCommit && msg == CommitEnrollComplete)
    || (w == WorkInvalid && msg !in {InitDone, EnrollComplete, CommitEnrollComplete})
  }

  /** What a step does to the account of kind `w`. */
  function Told(a: Account, w: WorkType, step: Step): Account {
    match step
    case Queue(r) => if r.kind == w then a.(asked := a.asked + [r]) else a
    case Fail(v, place, result) =>
      if v == w && |a.causes| <= place < |a.asked| && MayWrite(w, result)
      then a.(wrote := a.wrote[place := result]) else a
    case Event(msg, code, info) =>
      if Concerns(msg, w) && |a.causes| < |a.asked| then a.(causes := a.causes + [ByEvent(msg, code, info)]) else a
    case Clear =>
      if |a.causes| < |a.asked| then a.(causes := a.causes + seq(|a.asked| - |a.causes|, i => ByAbort)) else a
  }

  function Story(steps: seq<Step>, w: WorkType): Account {
    if steps == [] then Account([], [], map[])
    else Told(Story(steps[..|steps| - 1], w), w, steps[|steps| - 1])
  }

  /** The answer a request of kind `w` must get. An event's answer carries that event's id, code and
      info; an init or commit is a success exactly if the code is 0 and processWork has written no
      failure, a start unless processWork has. An abort answers with the event of the request's own
      kind: a failed init or commit, or an unknown error of a start; an invalid kind is not answered. */
  ghost predicate Answered(w: WorkType, r: Request, cause: Cause, wrote: Option<NapiResult>, e: Ending) {
    match cause
    case ByEvent(msg, code, info) =>
      && e.Completed? && e.request == r && e.event == msg && e.details == Some((code, info))
      && (match w
          case WorkInit => e.result == if code == 0 && wrote.None? then Success else InitFailed
          case WorkCommit => e.result == if code == 0 && wrote.None? then Success else CommitEnrollFailed
          case _ => e.result == if wrote.None? then Success else wrote.value)
    case ByAbort =>
      (match w
       case WorkInit => e == Completed(r, InitDone, None, InitFailed)
       case WorkStart => e == Completed(r, EnrollComplete, Some((-100, "")), Success)
       case WorkCommit => e == Completed(r, CommitEnrollComplete, None, CommitEnrollFailed)
       case WorkInvalid => e == Dropped(r))
  }

  lemma EventAnswers(r: Request, wrote: Option<NapiResult>, msg: MsgId, code: int, info: string)
    requires wrote.Some? ==> MayWrite(WorkOf(msg), wrote.value)
    ensures Concerns(msg, WorkOf(msg))
    ensures Answered(WorkOf(msg), r, ByEvent(msg, code, info), wrote, EventEnding(r, wrote, msg, code, info))
  {
  }

  lemma AbortAnswers(r: Request, w: WorkType, wrote: Option<NapiResult>)
    ensures Answered(w, r, ByAbort, wrote, AbortEnding(r, w))
  {
  }

  /** The queue and the answers of one kind are those of its account. */
  ghost predicate Tallies(w: WorkType, a: Account, ended: seq<Ending>, waiting: seq<Request>, wrote: Written) {
    && |ended| == |a.causes| <= |a.asked| && waiting == a.asked[|a.causes|..] && wrote == a.wrote
    && (forall k :: k in wrote ==> MayWrite(w, wrote[k]))
    && (forall k :: 0 <= k < |ended| ==> Answered(w, a.asked[k], a.causes[k], At(wrote, k), ended[k]))
  }

  lemma TallyQueue(w: WorkType, a: Account, ended: seq<Ending>, waiting: seq<Request>, wrote: Written, r: Request)
    requires Tallies(w, a, ended, waiting, wrote) && r.kind == w
    ensures Tallies(w, Told(a, w, Queue(r)), ended, waiting + [r], wrote)
  {
    hide Answered;
  }

  lemma TallyFail(w: WorkType, a: Account, ended: seq<Ending>, waiting: seq<Request>, wrote: Written,
                  place: nat, result: NapiResult)
    requires Tallies(w, a, ended, waiting, wrote)
    requires |ended| <= place < |ended| + |waiting| && MayWrite(w, result)
    ensures Tallies(w, Told(a, w, Fail(w, place, result)), ended, waiting, wrote[place := result])
  {
    hide Answered;
  }

  lemma TallyEvent(w: WorkType, a: Account, ended: seq<Ending>, waiting: seq<Request>, wrote: Written,
                   msg: MsgId, code: int, info: string)
    requires Tallies(w, a, ended, waiting, wrote) && WorkOf(msg) == w && waiting != []
    ensures var e := EventEnding(waiting[0], At(wrote, |ended|), msg, code, info);
            Tallies(w, Told(a, w, Event(msg, code, info)), ended + [e], waiting[1..], wrote)
  {
    hide Answered, EventEnding;
    EventAnswers(waiting[0], At(wrote, |ended|), msg, code, info);
  }

  lemma TallyClear(w: WorkType, a: Account, ended: seq<Ending>, waiting: seq<Request>, wrote: Written)
    requires Tallies(w, a, ended, waiting, wrote)
    ensures Tallies(w, Told(a, w, Clear), ended + AbortAll(waiting, w), [], wrote)
  {
    hide Answered, AbortEnding, AbortAll;
    var a', ended', n := Told(a, w, Clear), ended + AbortAll(waiting, w), |ended|;
    assert |a'.causes| == |a'.asked| && a'.asked[|a'.causes|..] == [];
    forall k | n <= k < |ended'|
      ensures Answered(w, a'.asked[k], a'.causes[k], At(wrote, k), ended'[k])
    {
      assert ended'[k] == AbortAll(waiting, w)[k - n] == AbortEnding(a.asked[k], w);
      assert a'.causes[k] == ByAbort;
      AbortAnswers(a.asked[k], w, At(wrote, k));
    }
    assert forall k :: 0 <= k < n ==> ended'[k] == ended[k] && a'.causes[k] == a.causes[k];
  }

  class EnrollCallback {
    var contextMap: Pending
    var ended: WorkType -> seq<Ending>
    var wrote: WorkType -> Written

    constructor ()
      ensures contextMap == map[] && forall w :: ended(w) == [] && wrote(w) == map[]
    {
      contextMap := map[];
      ended := w => [];
      wrote := w => map[];
    }

    method QueueAsyncWork(r: Request)
      modifies `contextMap
      ensures forall w :: Waiting(contextMap, w) == Waiting(old(contextMap), w) + if w == r.kind then [r] else []
    {
      if r.kind !in contextMap {
        contextMap := contextMap[r.kind := [r]];
      } else {
        contextMap := contextMap[r.kind := contextMap[r.kind] + [r]];
      }
    }

    /** An event completes the oldest request of its kind, if there is one. */
    method OnEvent(msg: MsgId, code: int, info: string)
      modifies `contextMap, `ended
      ensures Waiting(old(contextMap), WorkOf(msg)) == [] ==> ended == old(ended) && contextMap == old(contextMap)
      ensures forall w :: w != WorkOf(msg) ==>
                ended(w) == old(ended)(w) && Waiting(contextMap, w) == Waiting(old(contextMap), w)
      ensures var w, waiting := WorkOf(msg), Waiting(old(contextMap), WorkOf(msg));
              waiting != [] ==>
                && Waiting(contextMap, w) == waiting[1..]
                && ended(w) == old(ended)(w) + [EventEnding(waiting[0], At(wrote(w), |old(ended)(w)|), msg, code, info)]
    {
      var w := match msg
        case InitDone => WorkInit
        case EnrollComplete => WorkStart
        case CommitEnrollComplete => WorkCommit
        case _ => WorkInvalid;
      if w !in contextMap || contextMap[w] == [] {
        return;
      }
      var r := contextMap[w][0];
      var result := if |ended(w)| in wrote(w) then wrote(w)[|ended(w)|] else Success;
      if code != 0 {
        if msg == InitDone {
          result := InitFailed;
        } else if msg == CommitEnrollComplete {
          result := CommitEnrollFailed;
        }
      }
      contextMap := contextMap[w := contextMap[w][1..]];
      OnJsCallBack(w, [Completed(r, msg, Some((code, info)), result)]);
    }

    /** processWork fails for the request at `place` of its kind, which still waits: outside the lock,
        it writes the failure into the request. The clear that follows is a step of its own. */
    method ProcessWorkFails(w: WorkType, place: nat, result: NapiResult)
      requires |ended(w)| <= place < |ended(w)| + |Waiting(contextMap, w)| && MayWrite(w, result)
      modifies `wrote
      ensures forall v :: wrote(v) == if v == w then old(wrote)(v)[place := result] else old(wrote)(v)
    {
      var before := wrote;
      wrote := v => if v == w then before(v)[place := result] else before(v);
    }

    /** Hands endings back to the callers. */
    method OnJsCallBack(w: WorkType, es: seq<Ending>)
      modifies `ended
      ensures forall v :: ended(v) == if v == w then old(ended)(v) + es else old(ended)(v)
    {
      var before := ended;
      ended := v => if v == w then before(v) + es else before(v);
    }

    /** Takes every request off one queue: the inner loop of ClearAsyncWork. */
    method Drain(w: WorkType) returns (es: seq<Ending>)
      requires w in contextMap
      modifies `contextMap
      ensures es == AbortAll(old(contextMap)[w], w)
      ensures contextMap == old(contextMap)[w := []]
    {
      ghost var all := contextMap[w];
      es := [];
      while contextMap[w] != []
        invariant w in contextMap && |es| <= |all|
        invariant contextMap == old(contextMap)[w := all[|es|..]] && es == AbortAll(all, w)[..|es|]
        decreases |contextMap[w]|
      {
        var r := contextMap[w][0];
        contextMap := contextMap[w := contextMap[w][1..]];
        var eventId := ConvertEventId(w);
        if eventId == InitDone {
          es := es + [Completed(r, eventId, None, InitFailed)];
        } else if eventId == EnrollComplete {
          es := es + [Completed(r, eventId, Some((UNKNOWN_ERROR, "")), Success)];
        } else if eventId == CommitEnrollComplete {
          es := es + [Completed(r, eventId, None, CommitEnrollFailed)];
        } else {
          es := es + [Dropped(r)];
        }
      }
    }

    /** Drains one queue if it exists and answers its requests. */
    method ClearKind(w: WorkType)
      modifies `contextMap, `ended
      ensures Waiting(contextMap, w) == []
      ensures forall v :: v != w ==> Waiting(contextMap, v) == Waiting(old(contextMap), v)
      ensures forall v :: ended(v) == if v != w then old(ended)(v)
                                      else old(ended)(v) + AbortAll(Waiting(old(contextMap), w), w)
    {
      hide AbortAll;
      var es := [];
      if w in contextMap {
        es := Drain(w);
      }
      assert Waiting(old(contextMap), w) == [] ==> AbortAll(Waiting(old(contextMap), w), w) == [];
      OnJsCallBack(w, es);
    }

    /** Every waiting request ends, in order; only requests of no valid kind go unanswered. */
    method ClearAsyncWork()
      modifies `contextMap, `ended
      ensures contextMap == map[]
      ensures forall w :: ended(w) == old(ended)(w) + AbortAll(Waiting(old(contextMap), w), w)
    {
      hide AbortAll;
      ClearKind(WorkInit);
      ClearKind(WorkStart);
      ClearKind(WorkCommit);
      ClearKind(WorkInvalid);
      contextMap := map[];
    }
  }

  ghost predicate TallyAll(c: EnrollCallback, steps: seq<Step>)
    reads c
  {
    forall w :: Tallies(w, Story(steps, w), c.ended(w), Waiting(c.contextMap, w), c.wrote(w))
  }

  /** Every interleaving of requests, failures, events and clears: of each kind, the requests that
      ended are the first ones asked, in order and each once, every one answered as the step that
      ended it demands, and the rest is still waiting; after a clear nothing waits. */
  method Run(steps: seq<Step>) returns (c: EnrollCallback)
    ensures fresh(c)
    ensures forall w :: var a := Story(steps, w);
              && |c.ended(w)| == |a.causes| <= |a.asked|
              && Waiting(c.contextMap, w) == a.asked[|a.causes|..]
              && forall k :: 0 <= k < |a.causes| ==>
                               Answered(w, a.asked[k], a.causes[k], At(a.wrote, k), c.ended(w)[k])
    ensures steps != [] && steps[|steps| - 1].Clear? ==> c.contextMap == map[]
  {
    hide Answered;
    c := new EnrollCallback();
    for i := 0 to |steps|
      invariant fresh(c) && TallyAll(c, steps[..i])
      invariant i > 0 && steps[i - 1].Clear? ==> c.contextMap == map[]
    {
      assert steps[..i + 1][..i] == steps[..i];
      Take(c, steps[..i], steps[i]);
      assert steps[..i + 1] == steps[..i] + [steps[i]];
    }
    assert steps[..|steps|] == steps;
  }

  lemma StoryNext(before: seq<Step>, step: Step, w: WorkType)
    ensures Story(before + [step], w) == Told(Story(before, w), w, step)
  {
    assert (before + [step])[..|before|] == before;
  }

  /** One step, whatever it is. */
  method Take(c: EnrollCallback, ghost before: seq<Step>, step: Step)
    requires TallyAll(c, before)
    modifies c
    ensures TallyAll(c, before + [step])
    ensures step.Clear? ==> c.contextMap == map[]
  {
    hide Tallies, Told, Story;
    forall w
      ensures Story(before + [step], w) == Told(Story(before, w), w, step)
    {
      StoryNext(before, step, w);
    }
    match step
    case Queue(r) => TakeQueue(c, before, r);
    case Fail(w, place, result) => TakeFail(c, before, w, place, result);
    case Event(msg, code, info) => TakeEvent(c, before, msg, code, info);
    case Clear => TakeClear(c, before);
  }

  /** The accounts after one more step. */
  ghost predicate TallyNext(c: EnrollCallback, before: seq<Step>, step: Step)
    reads c
  {
    forall w :: Tallies(w, Told(Story(before, w), w, step), c.ended(w), Waiting(c.contextMap, w), c.wrote(w))
  }

  method TakeQueue(c: EnrollCallback, ghost before: seq<Step>, r: Request)
    requires TallyAll(c, before)
    modifies c
    ensures TallyNext(c, before, Queue(r))
  {
    hide Tallies, Story;
    TallyQueue(r.kind, Story(before, r.kind), c.ended(r.kind), Waiting(c.contextMap, r.kind), c.wrote(r.kind), r);
    c.QueueAsyncWork(r);
    assert forall w :: w != r.kind ==> Waiting(c.contextMap, w) == Waiting(old(c.contextMap), w);
  }

  method TakeFail(c: EnrollCallback, ghost before: seq<Step>, w: WorkType, place: nat, result: NapiResult)
    requires TallyAll(c, before)
    modifies c
    ensures TallyNext(c, before, Fail(w, place, result))
  {
    hide Story, Answered;
    assert Tallies(w, Story(before, w), c.ended(w), Waiting(c.contextMap, w), c.wrote(w));
    if |c.ended(w)| <= place < |c.ended(w)| + |Waiting(c.contextMap, w)| && MayWrite(w, result) {
      TallyFail(w, Story(before, w), c.ended(w), Waiting(c.contextMap, w), c.wrote(w), place, result);
      c.ProcessWorkFails(w, place, result);
    }
  }

  method TakeEvent(c: EnrollCallback, ghost before: seq<Step>, msg: MsgId, code: int, info: string)
    requires TallyAll(c, before)
    modifies c
    ensures TallyNext(c, before, Event(msg, code, info))
  {
    hide Story, Answered, EventEnding;
    ghost var w := WorkOf(msg);
    assert Tallies(w, Story(before, w), c.ended(w), Waiting(c.contextMap, w), c.wrote(w));
    if Waiting(c.contextMap, w) != [] {
      TallyEvent(w, Story(before, w), c.ended(w), Waiting(c.contextMap, w), c.wrote(w), msg, code, info);
    }
    c.OnEvent(msg, code, info);
  }

  method TakeClear(c: EnrollCallback, ghost before: seq<Step>)
    requires TallyAll(c, before)
    modifies c
    ensures TallyNext(c, before, Clear) && c.contextMap == map[]
  {
    hide Tallies, Story, AbortAll, Told;
    forall w
      ensures Tallies(w, Told(Story(before, w), w, Clear),
                      c.ended(w) + AbortAll(Waiting(c.contextMap, w), w), [], c.wrote(w))
    {
      TallyClear(w, Story(before, w), c.ended(w), Waiting(c.contextMap, w), c.wrote(w));
    }
    c.ClearAsyncWork();
  }
}
