/** What the trigger arbiter promises, as definitions over values: when a model may run, where a
    pass over the models takes each, and what the HAL must have been told. */
module TriggerRules {
  import opened Basics
  import opened TriggerHal

  datatype Build = PlainCapture | ConcurrentCapture

  datatype Scene = DefaultScene | Ringing | PhoneCall | PhoneChat | OtherScene(code: int)

  /** TelCallState: a code outside the enumeration, the three idle codes, or any other. */
  datatype CallState = OutOfRange | Unknown | Disconnected | Idle | Busy

  ghost predicate OthersSame(before: Models, after: Models, u: int) {
    forall v :: v != u ==> (v in after <==> v in before) && (v in before ==> after[v] == before[v])
  }

  /** Entry `u` moved to another state and handle; nothing else changed. */
  function InState(models: Models, u: int, state: ModelState, handle: int): Models
    requires u in models
  {
    models[u := models[u].(state := state, handle := handle)]
  }

  /** `u` is the first entry, in key order, that carries handle `h`. */
  ghost predicate First(models: Models, h: int, u: int) {
    && u in models && models[u].handle == h
    && forall v :: v in models && v < u ==> models[v].handle != h
  }

  /** Entries may differ only in what the HAL calls write. */
  ghost predicate SameRequests(before: Models, after: Models) {
    && after.Keys == before.Keys
    && forall u :: u in before ==> after[u].SameRequest(before[u])
  }

  /** Where one update pass takes an entry when no HAL call fails. */
  function Target(d: ModelData, conflict: bool, hibernate: bool): ModelState {
    if d.requested && !conflict then Started
    else if d.state == Started then (if hibernate then NotLoaded else Loaded)
    else d.state
  }

  ghost predicate NoneStarted(models: Models) {
    forall u :: u in models ==> models[u].state != Started
  }

  ghost predicate StartedAreRequested(models: Models) {
    forall u :: u in models && models[u].state == Started ==> models[u].requested
  }

  /** Everything that may forbid wakeup. The last three belong to the concurrent-capture build. */
  datatype Situation = Situation(
    callActive: bool,
    systemHibernate: bool,
    captureActive: bool,
    scene: Scene,
    concurrentCapture: bool,
    voip: bool,
    callConcurrency: bool)
  {
    /** IsConflictSceneActive. */
    predicate Conflict(build: Build) {
      match build
      case ConcurrentCapture =>
        if voip && !callConcurrency then
          systemHibernate || (scene != DefaultScene && scene != PhoneChat && scene != Ringing) || CaptureConflict()
        else if voip && callConcurrency then
          systemHibernate
          || (scene != DefaultScene && scene != PhoneChat && scene != PhoneCall && scene != Ringing)
          || CaptureConflict()
        else
          callActive || systemHibernate || scene != DefaultScene || CaptureConflict()
      case PlainCapture =>
        callActive || captureActive || systemHibernate || scene != DefaultScene
    }

    /** Capture is running and not allowed beside wakeup. */
    predicate CaptureConflict() {
      !concurrentCapture && captureActive
    }

    /** Capture is running beside wakeup. */
    predicate SwitchOn() {
      concurrentCapture && captureActive
    }
  }

  /** What wakeup needs, condition by condition. In the plain build: no call, no capture, no
      hibernation and the default scene. In the concurrent-capture build capture may run if it is
      concurrent; and with VoIP concurrency a call may go on and the scene may also be a chat or
      ringing, or, if calls are concurrent, a phone call. */
  predicate Undisturbed(build: Build, s: Situation) {
    match build
    case PlainCapture =>
      !s.callActive && !s.captureActive && !s.systemHibernate && s.scene == DefaultScene
    case ConcurrentCapture =>
      && !s.systemHibernate && (s.captureActive ==> s.concurrentCapture)
      && if s.voip then s.scene in {DefaultScene, PhoneChat, Ringing} || (s.callConcurrency && s.scene == PhoneCall)
         else !s.callActive && s.scene == DefaultScene
  }

  /** A conflict is anything that disturbs. */
  lemma ConflictIsDisturbance(build: Build, s: Situation)
    ensures s.Conflict(build) <==> !Undisturbed(build, s)
  {
  }

  /** What a pass does, in states: a requested model runs if nothing disturbs; any other model that
      ran is stopped, and unloaded during hibernation; the rest are left alone. */
  ghost predicate Settles(before: Models, after: Models, build: Build, s: Situation) {
    && SameRequests(before, after)
    && (forall u :: u in before && before[u].requested && Undisturbed(build, s) ==> after[u].state == Started)
    && (forall u :: u in before && !(before[u].requested && Undisturbed(build, s)) && before[u].state == Started ==>
                      after[u].state == if s.systemHibernate then NotLoaded else Loaded)
    && (forall u :: u in before && !(before[u].requested && Undisturbed(build, s)) && before[u].state != Started ==>
                      after[u].state == before[u].state)
    && (forall u :: u in before && before[u].state != NotLoaded ==> after[u].handle == before[u].handle)
  }

  lemma TargetsSettle(before: Models, after: Models, build: Build, s: Situation)
    requires SameRequests(before, after) && AllAtTarget(before, after, s.Conflict(build), s.systemHibernate)
    ensures Settles(before, after, build, s)
  {
    ConflictIsDisturbance(build, s);
    forall u | u in before
      ensures u in after && after[u].state == Target(before[u], s.Conflict(build), s.systemHibernate)
      ensures before[u].state != NotLoaded ==> after[u].handle == before[u].handle
    {
    }
  }

  lemma DisturbanceStops(before: Models, after: Models, build: Build, s: Situation)
    requires Settles(before, after, build, s) && !Undisturbed(build, s)
    ensures NoneStarted(after)
  {
    assert forall u :: u in after ==> u in before;
  }

  /** What a pipe change does, in the capture flags and model states. Entering concurrent capture from
      a state in which capture was not concurrent starts every LOADED model, requested or not; capture
      that begins or ends while it is concurrent changes no model, nor does a change of the whisper
      setting alone; any other change is a pass. */
  ghost predicate PipeSettles(before: Models, after: Models, build: Build, was: Situation, s: Situation) {
    if s.concurrentCapture == was.concurrentCapture && s.captureActive == was.captureActive then after == before
    else if s.concurrentCapture && s.captureActive && !was.concurrentCapture then
      && after.Keys == before.Keys
      && (forall u :: u in before && before[u].state == Loaded ==> after[u] == before[u].(state := Started))
      && (forall u :: u in before && before[u].state != Loaded ==> after[u] == before[u])
    else if s.concurrentCapture && was.concurrentCapture && s.captureActive != was.captureActive then after == before
    else Settles(before, after, build, s)
  }

  lemma ArrangedSettles(before: Models, after: Models, build: Build, was: Situation, s: Situation)
    requires Arranged(before, after, {}, StateToInt(was.concurrentCapture, was.captureActive),
                      StateToInt(s.concurrentCapture, s.captureActive), s.Conflict(build), s.systemHibernate)
    ensures PipeSettles(before, after, build, was, s)
  {
    var o, n := StateToInt(was.concurrentCapture, was.captureActive), StateToInt(s.concurrentCapture, s.captureActive);
    if Runs(o, n) {
      if before.Keys != {} {
        TargetsSettle(before, after, build, s);
      }
    }
  }

  const QUIET := Situation(false, false, false, DefaultScene, true, false, false)

  /** What the two builds promise about STARTED models, as long as no HAL Stop failed. */
  ghost predicate SafeModels(build: Build, models: Models, s: Situation) {
    match build
    case PlainCapture => StartedAreRequested(models) && (s.Conflict(build) ==> NoneStarted(models))
    case ConcurrentCapture => s.CaptureConflict() ==> NoneStarted(models)
  }

  /** Changing one entry keeps the promise if that entry keeps it. */
  lemma SafeEntry(build: Build, before: Models, after: Models, u: int, s: Situation)
    requires SafeModels(build, before, s)
    requires u in after && OthersSame(before, after, u)
    requires after[u].state == Started ==>
               || (after[u].requested && !s.Conflict(build))
               || (u in before && before[u].state == Started && before[u].requested == after[u].requested)
    ensures SafeModels(build, after, s)
  {
  }

  lemma SafeWithout(build: Build, before: Models, after: Models, u: int, s: Situation)
    requires SafeModels(build, before, s) && u !in after && OthersSame(before, after, u)
    ensures SafeModels(build, after, s)
  {
  }

  /** What a pass leaves behind keeps the promise. */
  lemma PassIsSafe(build: Build, before: Models, after: Models, s: Situation)
    requires SameRequests(before, after)
    requires build == PlainCapture ==> StartedAreRequested(before)
    requires s.Conflict(build) ==> AllAtTarget(before, after, true, s.systemHibernate)
    requires !s.Conflict(build) && StartedAreRequested(before) ==> StartedAreRequested(after)
    ensures SafeModels(build, after, s)
  {
  }

  /** Where a faultless pass leads there is nothing left to do. */
  lemma TargetIsSettled(before: Models, after: Models, conflict: bool, hibernate: bool)
    requires SameRequests(before, after) && AllAtTarget(before, after, conflict, hibernate)
    ensures Settled(after, conflict)
  {
  }

  /** The input pipe listener's state. The source's part is whether a callback was published,
      mFirstProc, extension mode and the whisper setting. The rest is bookkeeping: whether an
      attach ever got as far as mFirstProc, whether the HAL was switched off and left so while
      capture went on, and whether extension mode began during capture with no whisper value sent
      since. */
  datatype Listener = Listener(
    attached: bool,
    firstProc: bool,
    extension: bool,
    whisper: bool,
    armed: bool,
    stale: bool,
    late: bool)
  {
    function Published(): Listener {
      this.(attached := true)
    }
    /** The extension ability is read while capture is, or is not, running beside wakeup. */
    function WithExtension(ability: bool, on: bool): Listener {
      this.(extension := extension || ability, late := late || (ability && !extension && on))
    }
    /** mFirstProc is set. */
    function Armed(): Listener {
      this.(firstProc := true, armed := true)
    }
    /** The first change after that has switched the HAL off. */
    function SwitchedOff(on: bool): Listener {
      this.(firstProc := false, stale := stale || on)
    }
    /** A pipe change was not a repetition, and capture now runs beside wakeup or not. */
    function Changed(newWhisper: bool, on: bool): Listener {
      this.(whisper := newWhisper, stale := stale && on, late := false)
    }
  }

  const NEW_LISTENER := Listener(false, false, false, true, false, false, false)

  /** What the last on/off value and the last whisper value sent must be. */
  predicate Knows(s: Situation, l: Listener, switch: Option<bool>, whisper: Option<bool>) {
    && (!l.firstProc ==> (switch == Some(true) <==> s.SwitchOn() && !l.stale))
    && (!l.firstProc && l.armed ==> switch.Some?)
    && (l.extension && s.SwitchOn() ==> whisper == if l.late then None else Some(l.whisper))
    && (!l.extension ==> whisper == None)
  }

  /** The bookkeeping: capture runs beside wakeup only under a published callback, and the HAL is
      misled only while it does. */
  predicate Kept(s: Situation, l: Listener) {
    && (s.SwitchOn() ==> l.attached)
    && (l.stale ==> s.SwitchOn())
    && (l.late ==> s.SwitchOn() && l.extension)
  }

  /** As long as every value reached it, the HAL knows what the listener knows. */
  ghost predicate Told(s: Situation, l: Listener, sent: seq<PipeValue>, missed: nat) {
    && Kept(s, l)
    && (missed == 0 ==> Knows(s, l, LastSwitch(sent), LastWhisper(sent)))
  }

  /** Every entry outside `rest` is where a faultless pass takes it. */
  ghost predicate AtTarget(before: Models, after: Models, rest: set<int>, conflict: bool, hibernate: bool) {
    forall u :: u in before && u in after && u !in rest
                ==> && after[u].state == Target(before[u], conflict, hibernate)
                    && (before[u].state != NotLoaded ==> after[u].handle == before[u].handle)
  }

  /** How far a pass begun at `before` has come. */
  ghost predicate Passed(before: Models, now: Models, rest: set<int>, stopped: bool, conflict: bool, hibernate: bool) {
    && rest <= now.Keys && SameRequests(before, now)
    && (forall u :: u in rest ==> now[u] == before[u])
    && (stopped ==> AtTarget(before, now, rest, conflict, hibernate))
    && (!conflict && StartedAreRequested(before) ==> StartedAreRequested(now))
  }

  /** One model more. */
  lemma PassedNext(before: Models, mid: Models, now: Models, rest: set<int>, u: int, stopped: bool, stoppedNow: bool,
                   conflict: bool, hibernate: bool)
    requires Passed(before, mid, rest, stopped, conflict, hibernate) && u in rest && (stoppedNow ==> stopped)
    requires u in now && now == InState(mid, u, now[u].state, now[u].handle)
    requires stoppedNow ==> now[u].state == Target(mid[u], conflict, hibernate)
    requires mid[u].state != NotLoaded ==> now[u].handle == mid[u].handle
    requires now[u].state == Started ==> (mid[u].requested && !conflict) || mid[u].state == Started
    ensures Passed(before, now, rest - {u}, stoppedNow, conflict, hibernate)
  {
  }

  lemma PassedNothing(models: Models, conflict: bool, hibernate: bool)
    ensures Passed(models, models, models.Keys, true, conflict, hibernate)
  {
  }

  lemma PassedAll(before: Models, now: Models, stopped: bool, conflict: bool, hibernate: bool)
    requires Passed(before, now, {}, stopped, conflict, hibernate)
    ensures SameRequests(before, now)
    ensures stopped ==> AllAtTarget(before, now, conflict, hibernate)
    ensures !conflict && StartedAreRequested(before) ==> StartedAreRequested(now)
  {
  }

  /** What is left of that when a pass is given up. */
  lemma PassedHalf(before: Models, now: Models, rest: set<int>, conflict: bool, hibernate: bool)
    requires Passed(before, now, rest, false, conflict, hibernate)
    ensures SameRequests(before, now)
    ensures !conflict && StartedAreRequested(before) ==> StartedAreRequested(now)
  {
  }

  ghost predicate AllAtTarget(before: Models, after: Models, conflict: bool, hibernate: bool) {
    AtTarget(before, after, {}, conflict, hibernate)
  }

  /** Started exactly when wanted: nothing for a pass to do. */
  ghost predicate Settled(models: Models, conflict: bool) {
    forall u :: u in models ==> (models[u].state == Started <==> models[u].requested && !conflict)
  }

  datatype CaptureMethod =
    | SameState
    | ConcurrentCloseSource
    | ConcurrentOpenSource
    | NoConcurrentStopSource
    | NoConcurrentOpenSource
    | ConcurrentStopAndNoConcurrentOpenSource
    | NoConcurrentStopAndConcurrentOpenSource

  /** stateToInt: the concurrent flag is the high bit, the running flag the low one. */
  function StateToInt(concurrent: bool, running: bool): (state: nat)
    ensures state < 4
  {
    (if concurrent then 2 else 0) + (if running then 1 else 0)
  }

  function MethodTable(oldState: nat, newState: nat): CaptureMethod
    requires oldState < 4 && newState < 4
  {
    [[SameState, NoConcurrentOpenSource, NoConcurrentStopSource, NoConcurrentStopAndConcurrentOpenSource],
     [NoConcurrentStopSource, SameState, NoConcurrentStopSource, NoConcurrentStopAndConcurrentOpenSource],
     [NoConcurrentOpenSource, NoConcurrentOpenSource, SameState, ConcurrentOpenSource],
     [ConcurrentStopAndNoConcurrentOpenSource, ConcurrentStopAndNoConcurrentOpenSource, ConcurrentCloseSource,
      SameState]][oldState][newState]
  }

  function StartValue(extension: bool, whisper: bool): PipeValue {
    if !extension then PipeValue.Start else if whisper then StartWithWhisper else StartNoWhisper
  }

  /** What the HAL is sent for one model when the capture state moves. */
  ghost function Sent(oldState: nat, newState: nat, extension: bool, whisper: bool): seq<PipeValue>
    requires oldState < 4 && newState < 4
  {
    if oldState == newState then
      if !extension then [] else if whisper then [EnableWhisper] else [DisableWhisper]
    else if newState == 3 then [StartValue(extension, whisper)]
    else if oldState == 3 then [Stop]
    else []
  }

  /** The values a table entry sends, at most one. */
  function AsList(v: Option<PipeValue>): seq<PipeValue> {
    if v.None? then [] else [v.value]
  }

  /** The transitions that re-arbitrate: every change of state except into or within
      concurrent capture and out of it to idle. */
  ghost predicate Runs(oldState: nat, newState: nat) {
    oldState != newState && newState != 3 && !(oldState == 3 && newState == 2)
  }

  /** The last on/off value after one table entry, or several times the same one. */
  function SwitchAfter(oldState: nat, newState: nat, switch: Option<bool>): Option<bool> {
    if newState == 3 && oldState != 3 then Some(true)
    else if newState != 3 && oldState == 3 then Some(false)
    else switch
  }

  /** The last whisper value likewise. */
  function WhisperAfter(oldState: nat, newState: nat, l: Listener, whisper: Option<bool>): Option<bool> {
    if l.extension && (newState == 3 || newState == oldState) then Some(l.whisper) else whisper
  }

  /** What one more value tells. */
  lemma OneMore(sent: seq<PipeValue>, v: PipeValue)
    ensures LastSwitch(sent + [v]) == match v
                                      case Start => Some(true)
                                      case StartWithWhisper => Some(true)
                                      case StartNoWhisper => Some(true)
                                      case Stop => Some(false)
                                      case _ => LastSwitch(sent)
    ensures LastWhisper(sent + [v]) == match v
                                       case StartWithWhisper => Some(true)
                                       case StartNoWhisper => Some(false)
                                       case EnableWhisper => Some(true)
                                       case DisableWhisper => Some(false)
                                       case _ => LastWhisper(sent)
  {
    assert (sent + [v])[..|sent|] == sent;
  }

  lemma SentTells(sent: seq<PipeValue>, oldState: nat, newState: nat, l: Listener)
    requires oldState < 4 && newState < 4
    ensures var now := sent + Sent(oldState, newState, l.extension, l.whisper);
            && LastSwitch(now) == SwitchAfter(oldState, newState, LastSwitch(sent))
            && LastWhisper(now) == WhisperAfter(oldState, newState, l, LastWhisper(sent))
  {
    hide LastSwitch, LastWhisper;
    var more := Sent(oldState, newState, l.extension, l.whisper);
    if more == [] {
      assert sent + more == sent;
    } else {
      assert more == [more[0]];
      OneMore(sent, more[0]);
    }
  }

  /** What the HAL has been told once the table entry was run for some model, or for none. */
  ghost predicate Relayed(
    before: seq<PipeValue>, now: seq<PipeValue>, none: bool, oldState: nat, newState: nat, l: Listener)
  {
    if none then now == before
    else && LastSwitch(now) == SwitchAfter(oldState, newState, LastSwitch(before))
         && LastWhisper(now) == WhisperAfter(oldState, newState, l, LastWhisper(before))
  }

  lemma RelayedNone(sent: seq<PipeValue>, oldState: nat, newState: nat, l: Listener)
    ensures Relayed(sent, sent, true, oldState, newState, l)
  {
  }

  lemma RelayedNext(
    before: seq<PipeValue>, mid: seq<PipeValue>, none: bool, oldState: nat, newState: nat, l: Listener)
    requires oldState < 4 && newState < 4
    requires Relayed(before, mid, none, oldState, newState, l)
    ensures Relayed(before, mid + Sent(oldState, newState, l.extension, l.whisper), false, oldState, newState, l)
  {
    SentTells(mid, oldState, newState, l);
  }

  /** The transitions into concurrent capture that start models without arbitrating. */
  ghost predicate Enters(oldState: nat, newState: nat) {
    newState == 3 && oldState < 2
  }

  /** Where a faultless round of the table takes the models, those in `rest` not yet visited:
      re-arbitrated, or started as they are found LOADED, or left alone. */
  ghost predicate Arranged(before: Models, after: Models, rest: set<int>, oldState: nat, newState: nat,
                           conflict: bool, hibernate: bool)
  {
    && SameRequests(before, after)
    && if Runs(oldState, newState) && rest != before.Keys then AllAtTarget(before, after, conflict, hibernate)
       else if Enters(oldState, newState) then
         forall u :: u in before ==> after[u] == AfterEntry(before[u], u in rest)
       else after == before
  }

  lemma ArrangedNone(models: Models, oldState: nat, newState: nat, conflict: bool, hibernate: bool)
    ensures Arranged(models, models, models.Keys, oldState, newState, conflict, hibernate)
  {
  }

  /** What one table entry, run for one model or for none, may do to the models: `clean` when no
      call failed, `stopped` when no Stop did and, without a conflict, no other call either. */
  ghost predicate Moved(before: Models, after: Models, u: Option<int>, oldState: nat, newState: nat,
                        clean: bool, stopped: bool, conflict: bool, hibernate: bool)
  {
    && SameRequests(before, after)
    && (Runs(oldState, newState) && Settled(before, conflict) ==> after == before)
    && (Runs(oldState, newState) && stopped ==> AllAtTarget(before, after, conflict, hibernate))
    && (Enters(oldState, newState) && u.Some? && u.value in before && clean ==>
          after == before[u.value := AfterEntry(before[u.value], false)])
    && (!Runs(oldState, newState) && !(Enters(oldState, newState) && u.Some?) ==> after == before)
  }

  lemma MovedKeys(before: Models, after: Models, u: Option<int>, oldState: nat, newState: nat,
                  clean: bool, stopped: bool, conflict: bool, hibernate: bool)
    requires Moved(before, after, u, oldState, newState, clean, stopped, conflict, hibernate)
    ensures after.Keys == before.Keys && (before == map[] ==> after == before)
  {
  }

  /** Under a capture conflict a table entry stops everything, unless the state is the old one. */
  lemma MovedStops(before: Models, after: Models, u: Option<int>, oldState: nat,
                   clean: bool, stopped: bool, hibernate: bool)
    requires Moved(before, after, u, oldState, 1, clean, stopped, true, hibernate)
    ensures oldState != 1 && stopped ==> NoneStarted(after)
    ensures oldState == 1 ==> after == before
  {
  }

  /** One table entry more. */
  lemma ArrangedNext(before: Models, mid: Models, after: Models, rest: set<int>, u: int, oldState: nat, newState: nat,
                     conflict: bool, hibernate: bool)
    requires Arranged(before, mid, rest, oldState, newState, conflict, hibernate)
    requires u in rest && rest <= before.Keys
    requires Moved(mid, after, Some(u), oldState, newState, true, true, conflict, hibernate)
    ensures Arranged(before, after, rest - {u}, oldState, newState, conflict, hibernate)
  {
    if Runs(oldState, newState) && rest != before.Keys {
      TargetIsSettled(before, mid, conflict, hibernate);
    }
  }

  function AfterEntry(d: ModelData, waiting: bool): ModelData {
    if d.state == Loaded && !waiting then d.(state := Started) else d
  }

  lemma PublishKeepsTold(s: Situation, l: Listener, sent: seq<PipeValue>, missed: nat)
    requires Told(s, l, sent, missed)
    ensures Told(s, l.Published(), sent, missed)
  {
  }

  lemma ExtensionKeepsTold(s: Situation, l: Listener, ability: bool, sent: seq<PipeValue>, missed: nat)
    requires Told(s, l, sent, missed)
    ensures Told(s, l.WithExtension(ability, s.SwitchOn()), sent, missed)
  {
  }

  lemma ArmKeepsTold(s: Situation, l: Listener, sent: seq<PipeValue>, missed: nat)
    requires Told(s, l, sent, missed)
    ensures Told(s, l.Armed(), sent, missed)
  {
  }

  /** Switching the HAL off misleads it when capture runs beside wakeup. */
  lemma SwitchOffKeepsTold(s: Situation, l: Listener, sent: seq<PipeValue>, missed: nat)
    requires Told(s, l, sent, missed) && l.firstProc
    ensures Told(s, l.SwitchedOff(s.SwitchOn()), sent + [Stop], missed)
  {
    StopTells(sent);
  }

  /** A round of the table makes good what the HAL was misled about, unless capture stays on. */
  lemma RoundKeepsTold(was: Situation, s: Situation, l: Listener, whisper: bool, sent: seq<PipeValue>,
                       now: seq<PipeValue>, missed: nat)
    requires Told(was, l, sent, missed) && !l.firstProc && l.attached
    requires missed == 0 ==>
               Relayed(sent, now, false, StateToInt(was.concurrentCapture, was.captureActive),
                       StateToInt(s.concurrentCapture, s.captureActive), l.Changed(whisper, s.SwitchOn()))
    ensures Told(s, l.Changed(whisper, s.SwitchOn()), now, missed)
  {
  }

  /** A whole round, whether or not values were lost in it. */
  lemma Heard(was: Situation, s: Situation, l: Listener, whisper: bool, halBefore: Hal, hal: Hal)
    requires Told(was, l, halBefore.pipe, halBefore.missed) && !l.firstProc && l.attached
    requires hal.missed >= halBefore.missed
    requires hal.missed == halBefore.missed ==>
               Relayed(halBefore.pipe, hal.pipe, false, StateToInt(was.concurrentCapture, was.captureActive),
                       StateToInt(s.concurrentCapture, s.captureActive), l.Changed(whisper, s.SwitchOn()))
    ensures Told(s, l.Changed(whisper, s.SwitchOn()), hal.pipe, hal.missed)
  {
    hide Relayed, Knows;
    if hal.missed == 0 {
      RoundKeepsTold(was, s, l, whisper, halBefore.pipe, hal.pipe, 0);
    }
  }

  /** The listener after a pipe change: a repetition leaves it alone. */
  function Noticed(l: Listener, was: Situation, s: Situation, whisperAllowed: bool): Listener {
    var whisper := !l.extension || whisperAllowed;
    if s.concurrentCapture == was.concurrentCapture && s.captureActive == was.captureActive
       && (!l.extension || whisper == l.whisper)
    then l else l.Changed(whisper, s.SwitchOn())
  }

  lemma UntoldWhenMissed(s: Situation, l: Listener, sent: seq<PipeValue>, now: seq<PipeValue>, missed: nat, more: nat)
    requires Told(s, l, sent, missed) && more > 0
    ensures Told(s, l, now, more)
  {
  }

  lemma Misled(s: Situation, l: Listener, sent: seq<PipeValue>)
    requires Told(s, l, sent, 0) && l.stale && l.armed && !l.firstProc
    ensures s.SwitchOn() && LastSwitch(sent) == Some(false)
  {
    var told := LastSwitch(sent).value;
    assert LastSwitch(sent) == Some(told) && !told;
  }

  /** Only a capture conflict matters to the promise of the concurrent-capture build. */
  lemma SafeAlike(models: Models, was: Situation, s: Situation)
    requires SafeModels(ConcurrentCapture, models, was)
    requires StateToInt(was.concurrentCapture, was.captureActive) == StateToInt(s.concurrentCapture, s.captureActive)
    ensures SafeModels(ConcurrentCapture, models, s)
  {
  }

  lemma StopTells(sent: seq<PipeValue>)
    ensures LastSwitch(sent + [Stop]) == Some(false) && LastWhisper(sent + [Stop]) == LastWhisper(sent)
  {
    hide LastSwitch, LastWhisper;
    OneMore(sent, Stop);
  }
}
