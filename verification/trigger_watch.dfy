/** What runs depend on: the events that can reach the helper, when a model should be running, and
    when the HAL is told the truth about concurrent capture, as a matter of the order of events. */
module TriggerWatch {
  import opened Basics
  import opened TriggerHal
  import opened TriggerRules

  /** Everything that can reach the helper. */
  datatype Event =
    | ClientStart(uuid: int, model: Model, callback: Option<int>)
    | ClientStop(uuid: int)
    | ClientUnload(uuid: int)
    | Recognised(handle: int)
    | CallChange(state: CallState)
    | SceneChange(scene: Scene)
    | Hibernate(on: bool)
    | CapturerChange(on: bool)
    | Publish
    | Abilities(extension: bool, voip: bool, callConcurrency: bool)
    | Arm
    | PipeChange(concurrent: bool, running: bool, whisper: bool)
  {
    /** The events of the pipe listener, which only the concurrent-capture build has. */
    predicate Pipes() {
      Publish? || Abilities? || Arm? || PipeChange?
    }
    /** The events that may change the situation. */
    predicate Changes() {
      CallChange? || SceneChange? || Hibernate? || CapturerChange?
    }
  }

  // ---- When a model runs in the plain build.

  /** Exactly the requested models run while nothing disturbs, but for those the HAL has reported
      and nothing has restarted since. */
  ghost predicate Awake(models: Models, s: Situation, heard: set<int>) {
    forall u :: u in models ==>
      (models[u].state == Started <==>
        models[u].requested && !s.callActive && !s.captureActive && !s.systemHibernate && s.scene == DefaultScene
        && u !in heard)
  }

  /** The models reported and not restarted since, after one more event. */
  ghost function StillHeard(heard: set<int>, before: Models, after: Models, e: Event): set<int> {
    set u | u in after && after[u].state != Started
            && (u in heard
                || (e.Recognised? && u in before && before[u].state == Started && before[u].handle == e.handle))
  }

  lemma AwakeAfterPass(before: Models, after: Models, s: Situation, heard: set<int>, e: Event)
    requires Settles(before, after, PlainCapture, s)
    ensures Awake(after, s, StillHeard(heard, before, after, e))
  {
  }

  lemma AwakeUnchanged(models: Models, s: Situation, heard: set<int>, e: Event)
    requires Awake(models, s, heard)
    requires e.Recognised? ==> forall v :: v in models && models[v].state == Started ==> models[v].handle != e.handle
    ensures Awake(models, s, StillHeard(heard, models, models, e))
  {
  }

  /** One entry changed, and it runs iff it should or was just reported; or it is gone. */
  lemma AwakeEntry(before: Models, after: Models, s: Situation, heard: set<int>, u: int, e: Event)
    requires Awake(before, s, heard) && OthersSame(before, after, u)
    requires e.Recognised? ==> forall v :: v in before && v != u ==> before[v].handle != e.handle
    requires u in after ==>
               || (after[u].state == Started <==> after[u].requested && Undisturbed(PlainCapture, s))
               || (after[u].state != Started && u in before && e.Recognised?
                   && before[u].state == Started && before[u].handle == e.handle)
    ensures Awake(after, s, StillHeard(heard, before, after, e))
  {
  }

  // ---- When the HAL is told the truth.

  /** What it depends on: the two capture flags and the listener. */
  datatype Watch = Watch(concurrent: bool, running: bool, listener: Listener) {
    predicate On() {
      concurrent && running
    }
    function Situated(): Situation {
      QUIET.(concurrentCapture := concurrent, captureActive := running)
    }
  }

  const NEW_WATCH := Watch(true, false, NEW_LISTENER)

  /** The effect of one event on that, in the concurrent-capture build. */
  function Seen(w: Watch, e: Event): Watch {
    var l := w.listener;
    match e
    case Publish => w.(listener := l.Published())
    case Abilities(extension, _, _) => if l.attached then w.(listener := l.WithExtension(extension, w.On())) else w
    case Arm => if l.attached then w.(listener := l.Armed()) else w
    case PipeChange(concurrent, running, whisper) =>
      if l.attached then SeenChange(w, concurrent, running, whisper) else w
    case _ => w
  }

  function SeenChange(w: Watch, concurrent: bool, running: bool, whisper: bool): Watch {
    var now := Watch(concurrent, running, w.listener);
    now.(listener := Noticed(AfterFirst(w.listener, w.On()), w.Situated(), now.Situated(), whisper))
  }

  /** The first change after mFirstProc was set switches the HAL off. */
  function AfterFirst(l: Listener, on: bool): Listener {
    if l.firstProc then l.SwitchedOff(on) else l
  }

  /** Only the two capture flags of a situation matter to the listener. */
  lemma NoticedAlike(l: Listener, was: Situation, s: Situation, w: Watch, now: Watch, whisper: bool)
    requires w.concurrent == was.concurrentCapture && w.running == was.captureActive
    requires now.concurrent == s.concurrentCapture && now.running == s.captureActive
    ensures Noticed(l, was, s, whisper) == Noticed(l, w.Situated(), now.Situated(), whisper)
  {
  }

  function Saw(events: seq<Event>): Watch {
    if events == [] then NEW_WATCH else Seen(Saw(events[..|events| - 1]), events[|events| - 1])
  }

  /** The last on/off value sent is on iff capture runs beside wakeup, once the first change is
      through; and in extension mode the last whisper value sent is the current one while it does. */
  predicate Truthful(s: Situation, l: Listener, switch: Option<bool>, whisper: Option<bool>) {
    && (!l.firstProc ==> (switch == Some(true) <==> s.SwitchOn()))
    && (l.extension && s.SwitchOn() ==> whisper == Some(l.whisper))
  }

  predicate Unmisled(w: Watch) {
    (w.listener.firstProc || !w.listener.stale) && !w.listener.late
  }

  lemma TruthIff(s: Situation, l: Listener, switch: Option<bool>, whisper: Option<bool>, w: Watch)
    requires Knows(s, l, switch, whisper) && Kept(s, l)
    requires w == Watch(s.concurrentCapture, s.captureActive, l)
    ensures Truthful(s, l, switch, whisper) <==> Unmisled(w)
  {
  }

  /** Whether those who attach the listener may do two things while capture runs beside wakeup: set
      mFirstProc, and begin extension mode. */
  datatype Habit = Habit(armsOn: bool, extendsOn: bool)

  const CAREFUL := Habit(false, false)

  predicate Permits(h: Habit, w: Watch, e: Event) {
    && (e.Arm? && w.On() ==> h.armsOn)
    && (e.Abilities? && e.extension && !w.listener.extension && w.On() ==> h.extendsOn)
  }

  ghost predicate Obeys(h: Habit, events: seq<Event>) {
    forall i :: 0 <= i < |events| ==> Permits(h, Saw(events[..i]), events[i])
  }

  /** Nothing is misled, nor about to be. */
  predicate Sound(w: Watch) {
    && !w.listener.stale && !w.listener.late && (w.listener.firstProc ==> !w.On())
  }

  lemma SoundStep(w: Watch, e: Event)
    requires Sound(w) && Permits(CAREFUL, w, e)
    ensures Sound(Seen(w, e))
  {
  }

  lemma {:induction false} CarefulIsSafe(events: seq<Event>, n: nat)
    requires Obeys(CAREFUL, events) && n <= |events|
    ensures Sound(Saw(events[..n])) && Unmisled(Saw(events[..n]))
    ensures n == |events| ==> Unmisled(Saw(events))
  {
    hide Seen;
    if n > 0 {
      CarefulIsSafe(events, n - 1);
      assert events[..n][..n - 1] == events[..n - 1];
      SoundStep(Saw(events[..n - 1]), events[n - 1]);
    }
    assert events[..|events|] == events;
  }

  ghost predicate AlwaysTruthful(h: Habit) {
    forall events :: Obeys(h, events) ==> Unmisled(Saw(events))
  }

  /** Exactly which habits never mislead the HAL: those that do neither. */
  lemma HabitIsExact(h: Habit)
    ensures AlwaysTruthful(h) <==> h == CAREFUL
  {
    if h == CAREFUL {
      forall events | Obeys(h, events)
        ensures Unmisled(Saw(events))
      {
        CarefulIsSafe(events, |events|);
      }
    } else if h.armsOn {
      ArmingMisleads(h);
    } else {
      ExtendingMisleads(h);
    }
  }

  /** Capture begins, mFirstProc is set, and the next change finds capture still on. */
  lemma ArmingMisleads(h: Habit)
    requires h.armsOn
    ensures exists events :: Obeys(h, events) && !Unmisled(Saw(events))
  {
    var on := PipeChange(true, true, true);
    var events := [Publish, on, Arm, on];
    SawFour(events);
    assert Obeys(h, events);
  }

  /** Capture begins, and then extension mode. */
  lemma ExtendingMisleads(h: Habit)
    requires h.extendsOn
    ensures exists events :: Obeys(h, events) && !Unmisled(Saw(events))
  {
    var on := PipeChange(true, true, true);
    var events := [Publish, on, Abilities(true, false, false), on];
    SawFour(events);
    assert Obeys(h, events);
  }

  lemma SawFour(events: seq<Event>)
    requires |events| == 4
    ensures Saw(events[..0]) == NEW_WATCH
    ensures forall i :: 0 <= i < 4 ==> Saw(events[..i + 1]) == Seen(Saw(events[..i]), events[i])
    ensures Saw(events) == Seen(Seen(Seen(Seen(NEW_WATCH, events[0]), events[1]), events[2]), events[3])
  {
    hide Seen;
    forall i | 0 <= i < 4
      ensures Saw(events[..i + 1]) == Seen(Saw(events[..i]), events[i])
    {
      assert events[..i + 1][..i] == events[..i];
    }
    assert events[..4] == events;
    assert Saw(events[..1]) == Seen(NEW_WATCH, events[0]);
    assert Saw(events[..2]) == Seen(Saw(events[..1]), events[1]);
    assert Saw(events[..3]) == Seen(Saw(events[..2]), events[2]);
    assert Saw(events[..4]) == Seen(Saw(events[..3]), events[3]);
  }
}
