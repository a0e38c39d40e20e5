/** The trigger recognition arbiter: client requests, calls, audio scenes, capture,
    hibernation and DSP events against a HAL whose calls may fail. One class covers both
    builds; `build` plays the part of SUPPORT_RECORD_WAKEUP_CONCURRENT. */
module TriggerArbiter {
  import opened Basics
  import opened TriggerHal
  import opened TriggerRules
  import opened TriggerWatch

  class TriggerHelper {
    const build: Build
    /** A HAL that refuses nothing, as opposed to one that may refuse any call. */
    const flawless: bool
    var models: Models
    var connected: bool
    var hal: Hal
    var situation: Situation
    var listener: Listener

    /** Helper and HAL agree, and only a connected HAL has loaded anything. */
    ghost predicate Linked()
      reads `models, `hal, `connected
    {
      && Consistent(models, hal)
      && (!connected ==> hal.held.loaded == {} && forall u :: u in models ==> models[u].state == NotLoaded)
      && (flawless ==> hal.Flawless())
    }

    ghost predicate Inv()
      reads this
    {
      && Linked()
      && !situation.voip
      && (hal.stopFaults == 0 ==> SafeModels(build, models, situation))
      && (build == ConcurrentCapture ==>
            Told(situation, listener, hal.pipe, hal.missed))
    }

    constructor (build: Build, flawless: bool)
      ensures this.build == build && this.flawless == flawless
      ensures Inv() && models == map[] && hal == NEW_HAL
      ensures situation == QUIET && listener == NEW_LISTENER
    {
      this.build, this.flawless := build, flawless;
      models, connected, hal := map[], false, NEW_HAL;
      situation, listener := QUIET, NEW_LISTENER;
    }

    // ---- The HAL's side of each call. A handle is fresh, nonzero and never reused; the
    // preconditions are the HAL's own protocol.

    method HalLoad(model: Option<Model>) returns (ret: int, handle: int)
      requires connected
      modifies `hal
      ensures ret == 0 ==> handle != 0 && handle !in old(hal.held.used)
                           && hal == old(hal).Done(old(hal).held.Load(handle, model))
      ensures ret != 0 ==> hal == old(hal).CallFailed() && !flawless
    {
      ret, handle := *, 0;
      ret := if flawless then 0 else ret;
      if ret == 0 {
        SomeIntOutside(hal.held.used);
        handle :| handle != 0 && handle !in hal.held.used;
        hal := hal.Done(hal.held.Load(handle, model));
      } else {
        hal := hal.CallFailed();
      }
    }

    method HalStart(handle: int) returns (ret: int)
      requires connected && handle in hal.held.loaded && handle !in hal.held.started
      modifies `hal
      ensures hal == if ret == 0 then old(hal).Done(old(hal).held.Start(handle)) else old(hal).CallFailed()
      ensures ret != 0 ==> !flawless
    {
      ret := *;
      ret := if flawless then 0 else ret;
      hal := if ret == 0 then hal.Done(hal.held.Start(handle)) else hal.CallFailed();
    }

    method HalStop(handle: int) returns (ret: int)
      requires connected && handle in hal.held.started
      modifies `hal
      ensures hal == if ret == 0 then old(hal).Done(old(hal).held.Stop(handle)) else old(hal).StopFailed()
      ensures ret != 0 ==> !flawless
    {
      ret := *;
      ret := if flawless then 0 else ret;
      hal := if ret == 0 then hal.Done(hal.held.Stop(handle)) else hal.StopFailed();
    }

    method HalUnload(handle: int) returns (ret: int)
      requires connected && handle in hal.held.loaded && handle !in hal.held.started
      modifies `hal
      ensures hal == if ret == 0 then old(hal).Done(old(hal).held.Unload(handle)) else old(hal).UnloadFailed()
      ensures ret != 0 ==> !flawless
    {
      ret := *;
      ret := if flawless then 0 else ret;
      hal := if ret == 0 then hal.Done(hal.held.Unload(handle)) else hal.UnloadFailed();
    }

    /** Connecting may fail; once connected it stays so. */
    method GetModule() returns (ok: bool)
      modifies `connected, `hal
      ensures old(connected) ==> ok && hal == old(hal)
      ensures ok == connected
      ensures ok ==> hal == old(hal)
      ensures !ok ==> hal == old(hal).(faults := old(hal).faults + 1) && !flawless
    {
      if !connected {
        connected := *;
        connected := connected || flawless;
        if !connected {
          hal := hal.(faults := hal.faults + 1);
        }
      }
      ok := connected;
    }

    // ---- One model.

    method LoadModel(u: int) returns (ret: int)
      requires Linked() && u in models
      modifies `models, `hal
      ensures Linked()
      ensures old(models[u].state) != NotLoaded ==> ret == 0
      ensures old(models[u].state) != NotLoaded || ret != 0 ==> models == old(models)
      ensures old(models[u].state) == NotLoaded && ret == 0 ==>
                connected && u in models && models == InState(old(models), u, Loaded, models[u].handle)
      ensures hal == (if old(models[u].state) != NotLoaded || !connected then old(hal)
                      else if ret != 0 then old(hal).CallFailed()
                      else old(hal).Done(old(hal).held.Load(models[u].handle, models[u].model)))
    {
      hide Consistent;
      if models[u].state != NotLoaded {
        return 0;
      }
      if !connected {
        return -1;
      }
      CallFailKeeps(models, hal);
      var handle: int;
      ret, handle := HalLoad(models[u].model);
      if ret != 0 {
        return;
      }
      LoadKeeps(models, old(hal), u, handle);
      models := models[u := models[u].(state := Loaded, handle := handle)];
    }

    method PrepareForRecognition(u: int) returns (ret: int)
      requires Linked() && u in models
      modifies `models, `hal, `connected
      ensures Linked() && hal.After(old(hal)) && hal.NoStopFaultSince(old(hal))
      ensures ret == 0 ==> connected && hal.faults == old(hal).faults
      ensures ret != 0 ==> hal.faults > old(hal).faults
      ensures ret != 0 || old(models[u].state) != NotLoaded ==> models == old(models)
      ensures ret == 0 && old(models[u].state) == NotLoaded ==>
                u in models && models == InState(old(models), u, Loaded, models[u].handle)
    {
      var ok := GetModule();
      if !ok {
        return -1;
      }
      var r := LoadModel(u);
      if r != 0 {
        return -1;
      }
      return 0;
    }

    method StartRecognition(u: int) returns (ret: int)
      requires Linked() && u in models
      modifies `models, `hal
      ensures Linked()
      ensures old(models[u].state) != Loaded ==> ret == 0
      ensures models == (if old(models[u].state) == Loaded && ret == 0
                         then InState(old(models), u, Started, old(models[u].handle)) else old(models))
      ensures hal == (if old(models[u].state) != Loaded then old(hal)
                      else if ret != 0 then old(hal).CallFailed()
                      else old(hal).Done(old(hal).held.Start(old(models[u].handle))))
    {
      hide Consistent;
      if models[u].state != Loaded {
        return 0;
      }
      if !connected {
        return -1;
      }
      CallFailKeeps(models, hal);
      StartKeeps(models, hal, u);
      ret := HalStart(models[u].handle);
      if ret != 0 {
        return;
      }
      models := models[u := models[u].(state := Started)];
    }

    method StopRecognition(u: int) returns (ret: int)
      requires Linked() && u in models
      modifies `models, `hal
      ensures Linked()
      ensures old(models[u].state) != Started ==> ret == 0
      ensures models == (if old(models[u].state) == Started && ret == 0
                         then InState(old(models), u, Loaded, old(models[u].handle)) else old(models))
      ensures hal == (if old(models[u].state) != Started then old(hal)
                      else if ret != 0 then old(hal).StopFailed()
                      else old(hal).Done(old(hal).held.Stop(old(models[u].handle))))
      ensures ret != 0 ==> |Leaked(models, hal.held)| + 1 <= hal.stopFaults + hal.unloadFaults
    {
      hide Consistent, Leaked;
      if models[u].state != Started {
        return 0;
      }
      if !connected {
        return -1;
      }
      StopFailKeeps(models, hal);
      StopKeeps(models, hal, u);
      ret := HalStop(models[u].handle);
      if ret != 0 {
        return;
      }
      models := models[u := models[u].(state := Loaded)];
    }

    /** The entry is unloaded even when the HAL refuses: then its handle leaks. */
    method UnloadModel(u: int) returns (ret: int)
      requires Linked() && u in models
      modifies `models, `hal
      ensures Linked()
      ensures old(models[u].state) != Loaded ==> ret == 0
      ensures models == (if old(models[u].state) == Loaded
                         then InState(old(models), u, NotLoaded, old(models[u].handle)) else old(models))
      ensures hal == (if old(models[u].state) != Loaded then old(hal)
                      else if ret != 0 then old(hal).UnloadFailed()
                      else old(hal).Done(old(hal).held.Unload(old(models[u].handle))))
    {
      hide Consistent;
      if models[u].state != Loaded {
        return 0;
      }
      if !connected {
        return -1;
      }
      UnloadKeeps(models, hal, u);
      UnloadFailKeeps(models, hal, u);
      ret := HalUnload(models[u].handle);
      models := models[u := models[u].(state := NotLoaded)];
    }

    /** Stops a loaded model and, when its data changes, also unloads and clears it. */
    method InitRecognition(u: int, unload: bool) returns (ret: int)
      requires Linked() && u in models
      modifies `models, `hal
      ensures Linked() && hal.After(old(hal)) && hal.faults == old(hal).faults
      ensures u in models && OthersSame(old(models), models, u)
      ensures old(models[u].state) == NotLoaded ==> ret == 0 && models == old(models) && hal == old(hal)
      ensures old(models[u].state) != NotLoaded && unload ==>
                models[u] == old(models[u]).(state := NotLoaded, callback := None)
      ensures old(models[u].state) != NotLoaded && !unload && ret == 0 ==>
                models[u] == old(models[u]).(state := Loaded)
      ensures ret != 0 && !unload ==> models == old(models)
      ensures hal.NoStopFaultSince(old(hal)) ==> ret == 0
    {
      hide Consistent, Leaked;
      if models[u].state == NotLoaded {
        return 0;
      }
      ret := StopRecognition(u);
      if unload {
        ret := UnloadModel(u);
        Clear(u);
      }
    }

    /** Clear: the entry is forgotten as far as the HAL goes, whatever its state was. */
    method Clear(u: int)
      requires Linked() && u in models
      requires models[u].state != NotLoaded ==> |Leaked(models, hal.held)| + 1 <= hal.stopFaults + hal.unloadFaults
      requires models[u].state == Started ==> hal.stopFaults > 0
      modifies `models
      ensures Linked()
      ensures models == old(models)[u := old(models[u]).(state := NotLoaded, callback := None)]
    {
      hide Consistent, Leaked;
      var cleared := models[u].(callback := None, state := NotLoaded);
      ForgetKeeps(models, hal, u, cleared);
      models := models[u := cleared];
    }

    /** SetModel, SetCallback and SetRequested(true): a null callback leaves the old one. */
    method SetRequest(u: int, model: Model, callback: Option<int>)
      requires Linked() && u in models && (models[u].state != NotLoaded ==> models[u].SameModel(model))
      modifies `models
      ensures Linked()
      ensures models == old(models)[u := old(models[u]).(
                                      model := Some(model), requested := true,
                                      callback := if callback.Some? then callback else old(models[u].callback))]
    {
      var d := models[u].(model := Some(model), requested := true);
      if callback.Some? {
        d := d.(callback := callback);
      }
      RewriteKeeps(models, hal, u, d);
      models := models[u := d];
    }

    // ---- Client requests.

    method StartGenericRecognition(u: int, model: Model, callback: Option<int>) returns (ret: int)
      requires Inv()
      modifies `models, `hal, `connected
      ensures Inv() && hal.After(old(hal))
      ensures u in models && OthersSame(old(models), models, u)
      ensures ret == 0 ==>
                && models[u].requested && models[u].model == Some(model)
                && (callback.Some? ==> models[u].callback == callback)
                && models[u].state == (if !situation.Conflict(build) then Started
                                       else if u in old(models) && old(models)[u].state != NotLoaded
                                               && old(models)[u].SameModel(model) then Loaded
                                       else NotLoaded)
      ensures ret != 0 ==> models[u].state != Started || (u in old(models) && models[u] == old(models)[u])
      // A request that fails to load or start is remembered, and tried again by the next pass.
      ensures hal.NoStopFaultSince(old(hal)) ==>
                && models[u].requested && models[u].model == Some(model)
                && (callback.Some? ==> models[u].callback == callback)
      ensures hal.faults == old(hal).faults && hal.NoStopFaultSince(old(hal)) ==> ret == 0
    {
      hide Consistent, Told, SafeModels;
      if u !in models {
        AddKeeps(models, hal, u);
        models := models[u := FRESH_ENTRY];
      }
      ret := RestartRecognition(u, model, callback);
      if hal.stopFaults == 0 {
        SafeEntry(build, old(models), models, u, situation);
      }
    }

    method RestartRecognition(u: int, model: Model, callback: Option<int>) returns (ret: int)
      requires Linked() && u in models
      modifies `models, `hal, `connected
      ensures Linked() && hal.After(old(hal))
      ensures u in models && OthersSame(old(models), models, u)
      ensures ret == 0 ==>
                && models[u].requested && models[u].model == Some(model)
                && (callback.Some? ==> models[u].callback == callback)
                && models[u].state == (if !situation.Conflict(build) then Started
                                       else if old(models[u].state) != NotLoaded && old(models[u].SameModel(model))
                                       then Loaded else NotLoaded)
      ensures ret != 0 ==> models[u].state != Started || models[u] == old(models[u])
      ensures hal.NoStopFaultSince(old(hal)) ==>
                && models[u].requested && models[u].model == Some(model)
                && (callback.Some? ==> models[u].callback == callback)
      ensures hal.faults == old(hal).faults && hal.NoStopFaultSince(old(hal)) ==> ret == 0
    {
      hide Consistent;
      var unload := !models[u].SameModel(model);
      ret := InitRecognition(u, unload);
      if ret != 0 {
        return -1;
      }
      ret := BeginRecognition(u, model, callback);
    }

    /** The second half of a start request: record it and start unless a conflict forbids. */
    method BeginRecognition(u: int, model: Model, callback: Option<int>) returns (ret: int)
      requires Linked() && u in models && models[u].state != Started
      requires models[u].state != NotLoaded ==> models[u].SameModel(model)
      modifies `models, `hal, `connected
      ensures Linked() && hal.After(old(hal)) && hal.NoStopFaultSince(old(hal))
      ensures u in models && OthersSame(old(models), models, u)
      ensures models[u].requested && models[u].model == Some(model)
      ensures callback.Some? ==> models[u].callback == callback
      ensures situation.Conflict(build) ==> ret == 0 && models[u].state == old(models[u].state)
      ensures !situation.Conflict(build) ==> (ret == 0 <==> models[u].state == Started)
      ensures ret != 0 ==> hal.faults > old(hal).faults
    {
      hide Consistent;
      SetRequest(u, model, callback);
      if situation.Conflict(build) {
        return 0;
      }
      ret := PrepareForRecognition(u);
      if ret != 0 {
        return;
      }
      ret := StartRecognition(u);
    }

    method StopGenericRecognition(u: int) returns (ret: int)
      requires Inv()
      modifies `models, `hal
      ensures Inv() && hal.After(old(hal)) && hal.faults == old(hal).faults
      ensures u !in old(models) ==> ret == -1 && models == old(models) && hal == old(hal)
      ensures u in old(models) ==>
                && models == old(models)[u := old(models)[u].(
                     requested := false,
                     state := if ret == 0 && old(models)[u].state == Started then Loaded else old(models)[u].state,
                     callback := if ret == 0 then None else old(models)[u].callback)]
                && (ret != 0 ==> hal == old(hal).StopFailed())
    {
      hide Consistent, Told, SafeModels;
      if u !in models {
        return -1;
      }
      Rewrite(u, models[u].(requested := false));
      ret := StopRecognition(u);
      if ret == 0 {
        Rewrite(u, models[u].(callback := None));
      }
      if hal.stopFaults == 0 {
        SafeEntry(build, old(models), models, u, situation);
      }
    }

    /** Writes fields of an entry the HAL knows nothing about. */
    method Rewrite(u: int, d: ModelData)
      requires Linked() && u in models && d.state == models[u].state && d.handle == models[u].handle
      requires d.state != NotLoaded ==> d.model == models[u].model
      modifies `models
      ensures Linked() && models == old(models)[u := d]
    {
      RewriteKeeps(models, hal, u, d);
      models := models[u := d];
    }

    /** A loaded model is stopped, unloaded and dropped; an unloaded one stays in the map. */
    method UnloadGenericTriggerModel(u: int)
      requires Inv()
      modifies `models, `hal
      ensures Inv() && hal.After(old(hal)) && hal.faults == old(hal).faults
      ensures u !in old(models) || old(models)[u].state == NotLoaded ==> models == old(models) && hal == old(hal)
      ensures u in old(models) && old(models)[u].state != NotLoaded ==> models == old(models) - {u}
    {
      hide Consistent, Leaked, Told, SafeModels;
      if u !in models || models[u].state == NotLoaded {
        return;
      }
      var _ := StopRecognition(u);
      var _ := UnloadModel(u);
      EraseKeeps(models, hal, u);
      models := models - {u};
      if hal.stopFaults == 0 {
        SafeWithout(build, old(models), models, u, situation);
      }
    }

    // ---- DSP events.

    /** The search inside OnRecognition: the first entry in key order that carries `h`. */
    method FindByHandle(h: int) returns (found: Option<int>)
      ensures found.Some? ==> First(models, h, found.value)
      ensures found.None? ==> forall u :: u in models ==> models[u].handle != h
    {
      var rest := models.Keys;
      while rest != {}
        invariant rest <= models.Keys
        invariant forall u, v :: u in models && u !in rest && v in rest ==> u < v
        invariant forall u :: u in models && u !in rest ==> models[u].handle != h
        decreases rest
      {
        var u := MinKey(rest);
        rest := rest - {u};
        if models[u].handle == h {
          return Some(u);
        }
      }
      return None;
    }

    /** The HAL reports handle `h`, which it thereby stops; the entry carrying that handle
        becomes LOADED. For an arbitrary handle, agreement survives exactly when no entry carries
        it, or the HAL still holds it and, unless a Stop has failed, for the entry's own data. */
    method OnRecognition(h: int) returns (notified: Option<int>)
      requires Inv()
      modifies `models, `hal
      ensures hal == old(hal).(held := old(hal).held.Stop(h))
      ensures (forall u :: u in old(models) ==> old(models)[u].handle != h) ==>
                models == old(models) && notified == None
      ensures forall u :: First(old(models), h, u) ==>
                && models == old(models)[u := old(models)[u].(state := Loaded)]
                && notified == old(models)[u].callback
      ensures (forall u :: u in old(models) ==> old(models)[u].handle != h) ==> Linked()
      ensures forall u :: First(old(models), h, u) ==>
                (Linked() <==> && h in old(hal).held.loaded
                               && (hal.stopFaults == 0 ==> Holds(old(hal).held, old(models)[u])))
      ensures h in old(hal).held.started ==> Inv()
    {
      hide Consistent, Told, SafeModels;
      StartedIsLoaded(models, hal);
      var found := FindByHandle(h);
      hal := hal.(held := hal.held.Stop(h));
      match found
      case None =>
        RecogniseUnknown(models, old(hal), h);
        return None;
      case Some(u) =>
        RecogniseKeeps(models, old(hal), u);
        if h in old(hal).held.started && hal.stopFaults == 0 {
          RunningHolds(models, old(hal), u);
        }
        notified := models[u].callback;
        models := models[u := models[u].(state := Loaded)];
        if hal.stopFaults == 0 {
          SafeEntry(build, old(models), models, u, situation);
        }
    }

    // ---- Arbitration.

    /** One pass over the map. A model that should run is loaded and started, and the pass
        gives up when that cannot even be prepared; one that should not is stopped, and
        unloaded during hibernation. */
    method OnUpdateAllRecognitionState()
      requires Linked()
      modifies `models, `hal, `connected
      ensures Linked() && SameRequests(old(models), models) && hal.After(old(hal))
      // Under a conflict only Stop is called, so the early return cannot happen.
      ensures hal.stopFaults == old(hal).stopFaults && (situation.Conflict(build) || hal.faults == old(hal).faults) ==>
                && AllAtTarget(old(models), models, situation.Conflict(build), situation.systemHibernate)
                && Settles(old(models), models, build, situation)
      ensures !situation.Conflict(build) && StartedAreRequested(old(models)) ==> StartedAreRequested(models)
      ensures Settled(old(models), situation.Conflict(build)) ==> models == old(models) && hal == old(hal)
    {
      hide Linked, Passed, AtTarget, Settles;
      ghost var conflict := situation.Conflict(build);
      PassedNothing(models, conflict, situation.systemHibernate);
      var rest := models.Keys;
      while rest != {}
        invariant Linked() && hal.After(old(hal))
        invariant rest <= models.Keys
        invariant Passed(old(models), models, rest, Stopped(old(hal)), conflict, situation.systemHibernate)
        invariant Settled(old(models), conflict) ==> models == old(models) && hal == old(hal)
        decreases rest
      {
        var u := MinKey(rest);
        ghost var mid, midHal := models, hal;
        var needStart := models[u].requested && !situation.Conflict(build);
        var go := true;
        if needStart != (models[u].state == Started) {
          go := Redirect(u, needStart);
        }
        PassedNext(old(models), mid, models, rest, u, old(hal).stopFaults == midHal.stopFaults
                   && (conflict || old(hal).faults == midHal.faults), Stopped(old(hal)) && go,
                   conflict, situation.systemHibernate);
        if !go {
          PassedHalf(old(models), models, rest - {u}, conflict, situation.systemHibernate);
          return;
        }
        rest := rest - {u};
      }
      PassedAll(old(models), models, Stopped(old(hal)), conflict, situation.systemHibernate);
      if Stopped(old(hal)) {
        TargetsSettle(old(models), models, build, situation);
      }
    }

    /** No Stop has failed since and, without a conflict, no other call either. */
    ghost predicate Stopped(before: Hal)
      reads this
    {
      hal.stopFaults == before.stopFaults && (situation.Conflict(build) || hal.faults == before.faults)
    }

    /** The pass's work on one model whose state is not what it should be. */
    method Redirect(u: int, needStart: bool) returns (go: bool)
      requires Linked() && u in models
      requires needStart == (models[u].requested && !situation.Conflict(build))
      requires needStart != (models[u].state == Started)
      modifies `models, `hal, `connected
      ensures Linked() && hal.After(old(hal))
      ensures u in models && models == InState(old(models), u, models[u].state, models[u].handle)
      ensures go && hal.faults == old(hal).faults && hal.stopFaults == old(hal).stopFaults ==>
                models[u].state == Target(old(models[u]), situation.Conflict(build), situation.systemHibernate)
      ensures old(models[u].state) != NotLoaded ==> models[u].handle == old(models[u].handle)
      ensures !go ==> needStart && hal.faults > old(hal).faults
      ensures !needStart ==> hal.faults == old(hal).faults
      ensures models[u].state == Started ==> needStart || old(models[u].state) == Started
    {
      hide Consistent;
      go := true;
      if needStart {
        var ret := PrepareForRecognition(u);
        if ret != 0 {
          return false;
        }
        var _ := StartRecognition(u);
      } else {
        var _ := StopRecognition(u);
        if situation.systemHibernate {
          var _ := UnloadModel(u);
        }
      }
    }

    /** A pass has run since `before`: unless a Stop failed or, with nothing to disturb, any other call,
        every model is where it belongs. */
    ghost predicate Arbitrated(before: Models, halBefore: Hal)
      reads this
    {
      && SameRequests(before, models) && hal.After(halBefore)
      && (hal.stopFaults == halBefore.stopFaults
          && (!Undisturbed(build, situation) || hal.faults == halBefore.faults) ==>
            Settles(before, models, build, situation))
    }

    /** Every event handler that changes the situation re-arbitrates afterwards. */
    method Rearbitrate(s: Situation)
      requires Inv()
      requires !s.voip && (build == ConcurrentCapture ==> s.SwitchOn() == situation.SwitchOn())
      modifies `situation, `models, `hal, `connected
      ensures Inv() && situation == s
      ensures Arbitrated(old(models), old(hal))
      ensures !Undisturbed(build, s) && hal.stopFaults == old(hal).stopFaults ==> NoneStarted(models)
    {
      hide Consistent, LastSwitch, LastWhisper, Settles, Undisturbed;
      situation := s;
      OnUpdateAllRecognitionState();
      ConflictIsDisturbance(build, s);
      if !Undisturbed(build, s) && hal.stopFaults == old(hal).stopFaults {
        DisturbanceStops(old(models), models, build, s);
      }
      if hal.stopFaults == 0 {
        PassIsSafe(build, old(models), models, s);
      }
    }

    method OnCallStateUpdated(state: CallState)
      requires Inv()
      modifies `situation, `models, `hal, `connected
      ensures Inv()
      ensures situation == (if state == OutOfRange then old(situation)
                            else old(situation).(callActive := state == Busy))
      ensures situation == old(situation) ==> models == old(models) && hal == old(hal)
      ensures situation != old(situation) ==> Arbitrated(old(models), old(hal))
      ensures situation != old(situation) && situation.callActive && hal.stopFaults == old(hal).stopFaults ==>
                NoneStarted(models)
    {
      hide Linked, Told, SafeModels, Settles, NoneStarted;
      if state == OutOfRange {
        return;
      }
      var curCallActive := state != Disconnected && state != Idle && state != Unknown;
      if situation.callActive == curCallActive {
        return;
      }
      Rearbitrate(situation.(callActive := curCallActive));
    }

    method OnAudioSceneChange(scene: Scene)
      requires Inv()
      modifies `situation, `models, `hal, `connected
      ensures Inv() && situation == old(situation).(scene := scene)
      ensures situation == old(situation) ==> models == old(models) && hal == old(hal)
      ensures situation != old(situation) ==> Arbitrated(old(models), old(hal))
      ensures situation != old(situation) && scene != DefaultScene && hal.stopFaults == old(hal).stopFaults ==>
                NoneStarted(models)
    {
      hide Linked, Told, SafeModels, Settles, NoneStarted;
      if situation.scene == scene {
        return;
      }
      Rearbitrate(situation.(scene := scene));
    }

    method OnHibernateStateUpdated(isHibernate: bool)
      requires Inv()
      modifies `situation, `models, `hal, `connected
      ensures Inv() && situation == old(situation).(systemHibernate := isHibernate)
      ensures situation == old(situation) ==> models == old(models) && hal == old(hal)
      ensures situation != old(situation) ==> Arbitrated(old(models), old(hal))
      ensures situation != old(situation) && isHibernate && hal.stopFaults == old(hal).stopFaults ==>
                NoneStarted(models)
    {
      hide Linked, Told, SafeModels, Settles, NoneStarted;
      if situation.systemHibernate == isHibernate {
        return;
      }
      Rearbitrate(situation.(systemHibernate := isHibernate));
    }

    /** Exists only in the build without concurrent capture. */
    method OnCapturerStateChange(isActive: bool)
      requires Inv() && build == PlainCapture
      modifies `situation, `models, `hal, `connected
      ensures Inv() && situation == old(situation).(captureActive := isActive)
      ensures situation == old(situation) ==> models == old(models) && hal == old(hal)
      ensures situation != old(situation) ==> Arbitrated(old(models), old(hal))
      ensures situation != old(situation) && isActive && hal.stopFaults == old(hal).stopFaults ==>
                NoneStarted(models)
    {
      hide Linked, Told, SafeModels, Settles, NoneStarted;
      if situation.captureActive == isActive {
        return;
      }
      Rearbitrate(situation.(captureActive := isActive));
    }

    /** A second pass right after a faultless one issues no HAL call. */
    method UpdateTwice() returns (halAfterFirst: Hal)
      requires Linked()
      modifies `models, `hal, `connected
      ensures Linked()
      ensures hal.faults == old(hal).faults && hal.stopFaults == old(hal).stopFaults ==>
                && hal == halAfterFirst
                && Settles(old(models), models, build, situation)
                && forall u :: u in models ==>
                     (models[u].state == Started <==> models[u].requested && Undisturbed(build, situation))
    {
      hide Consistent;
      OnUpdateAllRecognitionState();
      halAfterFirst := hal;
      ghost var models1 := models;
      OnUpdateAllRecognitionState();
      if hal.faults == old(hal).faults && hal.stopFaults == old(hal).stopFaults {
        TargetIsSettled(old(models), models1, situation.Conflict(build), situation.systemHibernate);
        ConflictIsDisturbance(build, situation);
      }
    }

    // ---- Concurrent capture.

    /** Sends a "concurrent_capture" value unless the HAL cannot be connected. */
    method SetParameterForInputPipe(v: PipeValue)
      requires Linked()
      modifies `hal, `connected
      ensures Linked() && SameCalls(old(hal)) && (old(connected) ==> connected)
      ensures hal == if connected then old(hal).(pipe := old(hal).pipe + [v])
                     else old(hal).(missed := old(hal).missed + 1, faults := old(hal).faults + 1)
    {
      var ok := GetModule();
      if !ok {
        hal := hal.(missed := hal.missed + 1);
        return;
      }
      hal := hal.(pipe := hal.pipe + [v]);
    }

    /** The handles held and the Stop and Unload failures are as before. */
    ghost predicate SameCalls(before: Hal)
      reads `hal
    {
      && hal.held == before.held && hal.missed >= before.missed && hal.faults >= before.faults
      && hal.NoStopFaultSince(before)
    }

    /** One table entry, from `before`, did to the models and told the HAL what it should. */
    ghost predicate Transited(before: Models, halBefore: Hal, u: Option<int>, oldState: nat, newState: nat)
      requires oldState < 4 && newState < 4
      reads this
    {
      && Linked() && hal.missed >= halBefore.missed
      && hal.stopFaults >= halBefore.stopFaults && hal.faults >= halBefore.faults
      && (hal.missed == halBefore.missed ==>
            hal.pipe == halBefore.pipe + Sent(oldState, newState, listener.extension, listener.whisper))
      && Moved(before, models, u, oldState, newState,
               hal.faults == halBefore.faults,
               hal.stopFaults == halBefore.stopFaults && (situation.Conflict(build) || hal.faults == halBefore.faults),
               situation.Conflict(build), situation.systemHibernate)
    }

    /** One row entry of the transition table, run for one model or for none. */
    method ExecuteStateTransition(oldState: nat, newState: nat, u: Option<int>)
      requires Linked() && oldState < 4 && newState < 4
      requires u.Some? ==> u.value in models
      modifies `models, `hal, `connected
      ensures Transited(old(models), old(hal), u, oldState, newState)
    {
      hide Transited;
      match MethodTable(oldState, newState)
      case SameState =>
        var whisper := if listener.whisper then EnableWhisper else DisableWhisper;
        Tell(if listener.extension then Some(whisper) else None, u, oldState, newState);
      case ConcurrentCloseSource =>
        Tell(Some(Stop), u, oldState, newState);
      case ConcurrentOpenSource =>
        Tell(Some(StartValue(listener.extension, listener.whisper)), u, oldState, newState);
      case NoConcurrentStopSource =>
        Arbitrate(None, u, oldState, newState);
      case NoConcurrentOpenSource =>
        Arbitrate(None, u, oldState, newState);
      case ConcurrentStopAndNoConcurrentOpenSource =>
        Arbitrate(Some(Stop), u, oldState, newState);
      case NoConcurrentStopAndConcurrentOpenSource =>
        EnterConcurrent(u, oldState, newState);
    }

    /** The table entries that only send a value, or nothing. */
    method Tell(v: Option<PipeValue>, u: Option<int>, oldState: nat, newState: nat)
      requires Linked() && oldState < 4 && newState < 4
      requires !Runs(oldState, newState) && !Enters(oldState, newState)
      requires AsList(v) == Sent(oldState, newState, listener.extension, listener.whisper)
      modifies `hal, `connected
      ensures Transited(old(models), old(hal), u, oldState, newState)
    {
      hide Linked, Sent, Settled;
      if v.Some? {
        SetParameterForInputPipe(v.value);
      } else {
        assert hal.pipe + [] == hal.pipe;
      }
    }

    /** The table entries that re-arbitrate, some after switching the HAL off. */
    method Arbitrate(v: Option<PipeValue>, u: Option<int>, oldState: nat, newState: nat)
      requires Linked() && oldState < 4 && newState < 4
      requires Runs(oldState, newState) && AsList(v) == Sent(oldState, newState, listener.extension, listener.whisper)
      modifies `models, `hal, `connected
      ensures Transited(old(models), old(hal), u, oldState, newState)
    {
      hide Linked, Sent, Settled, AllAtTarget;
      if v.Some? {
        SetParameterForInputPipe(v.value);
      } else {
        assert hal.pipe + [] == hal.pipe;
      }
      OnUpdateAllRecognitionState();
    }

    /** The two entries into concurrent capture: the given model is started as it is found. */
    method EnterConcurrent(u: Option<int>, oldState: nat, newState: nat)
      requires Linked() && oldState < 4 && newState < 4 && Enters(oldState, newState)
      requires u.Some? ==> u.value in models
      modifies `models, `hal, `connected
      ensures Transited(old(models), old(hal), u, oldState, newState)
    {
      hide Consistent, Settled;
      if u.Some? && models[u.value].state != Started {
        var _ := StartRecognition(u.value);
      }
      SetParameterForInputPipe(StartValue(listener.extension, listener.whisper));
    }

    // ---- Attaching the listener, step by step: pipe changes may come between any two.

    /** From here on pipe changes reach the helper, whether or not registration succeeds. */
    method PublishCallback()
      requires Inv() && build == ConcurrentCapture
      modifies `listener
      ensures Inv() && listener == old(listener).Published()
    {
      hide Linked, SafeModels, Told;
      PublishKeepsTold(situation, listener, hal.pipe, hal.missed);
      listener := listener.Published();
    }

    /** The abilities read after a successful registration. Extension mode that begins while
        capture runs beside wakeup finds the HAL without a whisper setting. */
    method ReadAbilities(extension: bool, voip: bool, callConcurrency: bool)
      requires Inv() && build == ConcurrentCapture && listener.attached
      modifies `listener, `situation
      ensures Inv() && listener == old(listener).WithExtension(extension, situation.SwitchOn())
      ensures situation == old(situation).(voip := old(situation).voip && !voip,
                                           callConcurrency := old(situation).callConcurrency || callConcurrency)
    {
      hide Linked, SafeModels, Told;
      ExtensionKeepsTold(situation, listener, extension, hal.pipe, hal.missed);
      listener := listener.WithExtension(extension, situation.SwitchOn());
      SetConcurrency(voip, callConcurrency);
    }

    /** The two abilities that only bear on conflicts. */
    method SetConcurrency(voip: bool, callConcurrency: bool)
      requires Inv() && build == ConcurrentCapture
      modifies `situation
      ensures Inv()
      ensures situation == old(situation).(voip := old(situation).voip && !voip,
                                           callConcurrency := old(situation).callConcurrency || callConcurrency)
    {
      hide Linked, LastSwitch, LastWhisper, NoneStarted;
      if voip {
        situation := situation.(voip := false);
      }
      if callConcurrency {
        situation := situation.(callConcurrency := true);
      }
    }

    /** Sets mFirstProc: the next pipe change will switch the HAL off first. */
    method ArmFirstChange()
      requires Inv() && build == ConcurrentCapture && listener.attached
      modifies `listener
      ensures Inv() && listener == old(listener).Armed()
    {
      hide Linked, SafeModels, Told;
      ArmKeepsTold(situation, listener, hal.pipe, hal.missed);
      listener := listener.Armed();
    }

    /** What the audio engine reports is whether every stream may run beside wakeup, whether
        any runs, and whether whisper is allowed. The HAL is misled when it is switched off first
        and capture stays on, until capture ends. */
    method OnInputPipeChange(isConcurrent: bool, isSourceRunning: bool, whisperAllowed: bool)
      requires Inv() && build == ConcurrentCapture && listener.attached
      modifies this
      ensures Inv()
      ensures situation == old(situation).(concurrentCapture := isConcurrent, captureActive := isSourceRunning)
      ensures listener == Noticed(
                if old(listener).firstProc then old(listener).SwitchedOff(old(situation).SwitchOn()) else old(listener),
                old(situation), situation, whisperAllowed)
      ensures !listener.firstProc && (listener.extension ==> listener.whisper == whisperAllowed)
      ensures hal.faults == old(hal).faults && hal.stopFaults == old(hal).stopFaults ==>
                PipeSettles(old(models), models, build, old(situation), situation)
    {
      hide Linked, SafeModels, Told, Arranged, PipeSettles;
      StopFirst();
      Respond(isConcurrent, isSourceRunning, whisperAllowed);
      if hal.faults == old(hal).faults && hal.stopFaults == old(hal).stopFaults {
        ArrangedSettles(old(models), models, build, old(situation), situation);
      }
    }

    /** What telling the HAL the truth depends on. */
    ghost function Watched(): Watch
      reads this
    {
      Watch(situation.concurrentCapture, situation.captureActive, listener)
    }

    /** A faultless pipe change has taken every model where the table wants it. */
    ghost predicate Rearranged(before: Models, was: Situation)
      reads this
    {
      Arranged(before, models, {}, StateToInt(was.concurrentCapture, was.captureActive),
               StateToInt(situation.concurrentCapture, situation.captureActive),
               situation.Conflict(build), situation.systemHibernate)
    }

    /** The first pipe change after an attach switches the HAL off. */
    method StopFirst()
      requires Inv() && build == ConcurrentCapture
      modifies `hal, `connected, `listener
      ensures Inv() && SameCalls(old(hal))
      ensures listener == if old(listener).firstProc then old(listener).SwitchedOff(situation.SwitchOn())
                          else old(listener)
    {
      hide Linked, SafeModels, Told;
      if listener.firstProc {
        SetParameterForInputPipe(Stop);
        SwitchOffKeepsTold(situation, listener, old(hal).pipe, old(hal).missed);
        listener := listener.SwitchedOff(situation.SwitchOn());
        if hal.missed > 0 {
          UntoldWhenMissed(situation, listener, old(hal).pipe + [Stop], hal.pipe, old(hal).missed, hal.missed);
        }
      }
    }

    /** The pipe change itself: nothing to do, or a round of the table. */
    method Respond(isConcurrent: bool, isSourceRunning: bool, whisperAllowed: bool)
      requires Inv() && build == ConcurrentCapture && listener.attached && !listener.firstProc
      modifies this
      ensures Inv() && hal.stopFaults >= old(hal).stopFaults && hal.faults >= old(hal).faults
      ensures situation == old(situation).(concurrentCapture := isConcurrent, captureActive := isSourceRunning)
      ensures listener == Noticed(old(listener), old(situation), situation, whisperAllowed)
      ensures hal.faults == old(hal).faults && hal.stopFaults == old(hal).stopFaults ==>
                Rearranged(old(models), old(situation))
    {
      hide Inv;
      var isWhisper := if listener.extension then whisperAllowed else true;
      if isConcurrent == situation.concurrentCapture && isSourceRunning == situation.captureActive
         && (!listener.extension || isWhisper == listener.whisper) {
        return;
      }
      RunRound(isConcurrent, isSourceRunning, isWhisper);
    }

    /** A pipe change that is no repetition. */
    method RunRound(isConcurrent: bool, isSourceRunning: bool, isWhisper: bool)
      requires Inv() && build == ConcurrentCapture && listener.attached && !listener.firstProc
      modifies this
      ensures Inv() && hal.stopFaults >= old(hal).stopFaults && hal.faults >= old(hal).faults
      ensures situation == old(situation).(concurrentCapture := isConcurrent, captureActive := isSourceRunning)
      ensures listener == old(listener).Changed(isWhisper, situation.SwitchOn())
      ensures hal.faults == old(hal).faults && hal.stopFaults == old(hal).stopFaults ==>
                Rearranged(old(models), old(situation))
    {
      hide Linked, SafeModels, Told, Arranged, Relayed, Situation.Conflict, Situation.SwitchOn, Listener.Changed;
      var oldState := StateToInt(situation.concurrentCapture, situation.captureActive);
      var newState := StateToInt(isConcurrent, isSourceRunning);
      situation := situation.(concurrentCapture := isConcurrent, captureActive := isSourceRunning);
      listener := listener.Changed(isWhisper, situation.SwitchOn());
      if hal.stopFaults == 0 && oldState == newState {
        SafeAlike(models, old(situation), situation);
      }
      TransitionAll(oldState, newState);
      Heard(old(situation), situation, old(listener), isWhisper, old(hal), hal);
    }

    /** Runs the table entry once per model, or once without a model when there is none. */
    method TransitionAll(oldState: nat, newState: nat)
      requires Linked() && build == ConcurrentCapture && oldState < 4
      requires newState == StateToInt(situation.concurrentCapture, situation.captureActive)
      requires hal.stopFaults == 0 && oldState == newState ==> SafeModels(build, models, situation)
      modifies `models, `hal, `connected
      ensures Linked() && hal.missed >= old(hal).missed
      ensures hal.stopFaults >= old(hal).stopFaults && hal.faults >= old(hal).faults
      ensures hal.stopFaults == 0 ==> SafeModels(build, models, situation)
      ensures hal.faults == old(hal).faults && hal.stopFaults == old(hal).stopFaults ==>
                Arranged(old(models), models, {}, oldState, newState,
                         situation.Conflict(build), situation.systemHibernate)
      ensures hal.missed == old(hal).missed ==> Relayed(old(hal).pipe, hal.pipe, false, oldState, newState, listener)
    {
      hide Linked, Relayed, Arranged;
      ArrangedNone(models, oldState, newState, situation.Conflict(build), situation.systemHibernate);
      RelayedNone(hal.pipe, oldState, newState, listener);
      var rest := models.Keys;
      if rest == {} {
        TransitionOne(None, oldState, newState, models, hal, {}, true);
        return;
      }
      while rest != {}
        invariant Linked() && rest <= old(models).Keys
        invariant Progress(old(models), old(hal), rest, rest == old(models).Keys, oldState, newState)
        decreases rest
      {
        var u := MinKey(rest);
        TransitionOne(Some(u), oldState, newState, old(models), old(hal), rest, rest == old(models).Keys);
        rest := rest - {u};
      }
    }

    /** How far a round begun at `before` has come: `rest` is still to be visited, and `none` says
        that no table entry was run yet. */
    ghost predicate Progress(before: Models, halBefore: Hal, rest: set<int>, none: bool, oldState: nat, newState: nat)
      reads this
    {
      && models.Keys == before.Keys && hal.missed >= halBefore.missed
      && hal.stopFaults >= halBefore.stopFaults && hal.faults >= halBefore.faults
      && (hal.faults == halBefore.faults && hal.stopFaults == halBefore.stopFaults ==>
            Arranged(before, models, rest, oldState, newState, situation.Conflict(build), situation.systemHibernate))
      && (hal.stopFaults == 0 && situation.CaptureConflict() && (!none || oldState == newState) ==> NoneStarted(models))
      && (hal.missed == halBefore.missed ==> Relayed(halBefore.pipe, hal.pipe, none, oldState, newState, listener))
    }

    /** One table entry of a round. */
    method TransitionOne(u: Option<int>, oldState: nat, newState: nat,
                         ghost before: Models, ghost halBefore: Hal, ghost rest: set<int>, ghost none: bool)
      requires Linked() && build == ConcurrentCapture && oldState < 4
      requires newState == StateToInt(situation.concurrentCapture, situation.captureActive)
      requires Progress(before, halBefore, rest, none, oldState, newState)
      requires if u.Some? then u.value in rest && rest <= before.Keys else before == map[] && rest == {}
      modifies `models, `hal, `connected
      ensures Linked()
      ensures Progress(before, halBefore, if u.Some? then rest - {u.value} else {}, false, oldState, newState)
    {
      hide Linked, Relayed, Arranged, Moved, Sent;
      ExecuteStateTransition(oldState, newState, u);
      MovedKeys(old(models), models, u, oldState, newState, hal.faults == old(hal).faults,
                hal.stopFaults == old(hal).stopFaults && (situation.Conflict(build) || hal.faults == old(hal).faults),
                situation.Conflict(build), situation.systemHibernate);
      if situation.CaptureConflict() {
        MovedStops(old(models), models, u, oldState, hal.faults == old(hal).faults,
                   hal.stopFaults == old(hal).stopFaults, situation.systemHibernate);
      }
      if hal.faults == halBefore.faults && hal.stopFaults == halBefore.stopFaults && u.Some? {
        ArrangedNext(before, old(models), models, rest, u.value, oldState, newState,
                     situation.Conflict(build), situation.systemHibernate);
      }
      if hal.missed == halBefore.missed {
        RelayedNext(halBefore.pipe, old(hal).pipe, none, oldState, newState, listener);
      }
    }
  }

  /** One event. The HAL reports only handles it has started, and events of the other build do
      not exist. The pipe change that call and scene handlers of the concurrent-capture build
      make after releasing the lock is an event of its own. */
  method Deliver(t: TriggerHelper, e: Event, ghost heard: set<int>)
    requires t.Inv()
    modifies t
    ensures t.Inv() && (t.build == PlainCapture && t.hal.Clean() ==> old(t.hal).Clean())
    ensures t.build == ConcurrentCapture ==> t.Watched() == Seen(old(t.Watched()), e)
    ensures t.build == PlainCapture && t.hal.Clean() && Awake(old(t.models), old(t.situation), heard) ==>
              Awake(t.models, t.situation, StillHeard(heard, old(t.models), t.models, e))
  {
    hide TriggerHelper.Inv, Noticed, Awake;
    if e.Pipes() {
      if t.build == ConcurrentCapture {
        DeliverToListener(t, e);
      } else if Awake(t.models, t.situation, heard) {
        AwakeUnchanged(t.models, t.situation, heard, e);
      }
    } else if e.Changes() {
      DeliverChange(t, e, heard);
    } else if e.Recognised? {
      DeliverRecognition(t, e, heard);
    } else {
      DeliverRequest(t, e, heard);
    }
  }

  /** An event that may change the situation. */
  method DeliverChange(t: TriggerHelper, e: Event, ghost heard: set<int>)
    requires t.Inv() && e.Changes()
    modifies t
    ensures t.Inv() && (t.build == PlainCapture && t.hal.Clean() ==> old(t.hal).Clean())
    ensures t.build == ConcurrentCapture ==> t.Watched() == old(t.Watched())
    ensures t.build == PlainCapture && t.hal.Clean() && Awake(old(t.models), old(t.situation), heard) ==>
              Awake(t.models, t.situation, StillHeard(heard, old(t.models), t.models, e))
  {
    hide TriggerHelper.Inv, Awake, Settles, Undisturbed;
    match e {
      case CallChange(state) => t.OnCallStateUpdated(state);
      case SceneChange(scene) => t.OnAudioSceneChange(scene);
      case Hibernate(on) => t.OnHibernateStateUpdated(on);
      case CapturerChange(on) =>
        if t.build == PlainCapture {
          t.OnCapturerStateChange(on);
        }
      case _ =>
    }
    if t.build == PlainCapture && t.hal.Clean() && Awake(old(t.models), old(t.situation), heard) {
      if t.situation == old(t.situation) {
        AwakeUnchanged(t.models, t.situation, heard, e);
      } else {
        AwakeAfterPass(old(t.models), t.models, t.situation, heard, e);
      }
    }
  }

  /** A client's request. */
  method DeliverRequest(t: TriggerHelper, e: Event, ghost heard: set<int>)
    requires t.Inv() && !e.Pipes() && !e.Changes() && !e.Recognised?
    modifies t
    ensures t.Inv() && (t.build == PlainCapture && t.hal.Clean() ==> old(t.hal).Clean())
    ensures t.build == ConcurrentCapture ==> t.Watched() == old(t.Watched())
    ensures t.build == PlainCapture && t.hal.Clean() && Awake(old(t.models), old(t.situation), heard) ==>
              Awake(t.models, t.situation, StillHeard(heard, old(t.models), t.models, e))
  {
    hide TriggerHelper.Inv, Awake;
    ConflictIsDisturbance(t.build, t.situation);
    match e {
      case ClientStart(uuid, model, callback) => var _ := t.StartGenericRecognition(uuid, model, callback);
      case ClientStop(uuid) => var _ := t.StopGenericRecognition(uuid);
      case ClientUnload(uuid) => t.UnloadGenericTriggerModel(uuid);
      case _ =>
    }
    if t.build == PlainCapture && t.hal.Clean() && Awake(old(t.models), old(t.situation), heard) {
      if t.models == old(t.models) {
        AwakeUnchanged(t.models, t.situation, heard, e);
      } else {
        AwakeEntry(old(t.models), t.models, t.situation, heard, e.uuid, e);
      }
    }
  }

  /** A recognition, from a handle the HAL has started. */
  method DeliverRecognition(t: TriggerHelper, e: Event, ghost heard: set<int>)
    requires t.Inv() && e.Recognised?
    modifies t
    ensures t.Inv() && (t.build == PlainCapture && t.hal.Clean() ==> old(t.hal).Clean())
    ensures t.build == ConcurrentCapture ==> t.Watched() == old(t.Watched())
    ensures t.build == PlainCapture && t.hal.Clean() && Awake(old(t.models), old(t.situation), heard) ==>
              Awake(t.models, t.situation, StillHeard(heard, old(t.models), t.models, e))
  {
    hide Consistent, SafeModels, Told, Awake;
    ghost var u := 0;
    if t.hal.Clean() {
      u := Runner(t.models, t.hal, e.handle);
    }
    if e.handle in t.hal.held.started {
      var _ := t.OnRecognition(e.handle);
      if t.build == PlainCapture && t.hal.Clean() && Awake(old(t.models), old(t.situation), heard) {
        assert First(old(t.models), e.handle, u);
        AwakeEntry(old(t.models), t.models, t.situation, heard, u, e);
      }
    } else if t.build == PlainCapture && t.hal.Clean() && Awake(old(t.models), old(t.situation), heard) {
      AwakeUnchanged(t.models, t.situation, heard, e);
    }
  }

  method DeliverToListener(t: TriggerHelper, e: Event)
    requires t.Inv() && t.build == ConcurrentCapture && e.Pipes()
    modifies t
    ensures t.Inv() && t.Watched() == Seen(old(t.Watched()), e)
  {
    hide TriggerHelper.Inv, SeenChange;
    match e
    case Publish =>
      t.PublishCallback();
    case Abilities(extension, voip, callConcurrency) =>
      if t.listener.attached {
        t.ReadAbilities(extension, voip, callConcurrency);
      }
    case Arm =>
      if t.listener.attached {
        t.ArmFirstChange();
      }
    case PipeChange(concurrent, running, whisper) =>
      if t.listener.attached {
        ChangePipe(t, concurrent, running, whisper);
      }
    case _ =>
  }

  method ChangePipe(t: TriggerHelper, concurrent: bool, running: bool, whisper: bool)
    requires t.Inv() && t.build == ConcurrentCapture && t.listener.attached
    modifies t
    ensures t.Inv() && t.Watched() == SeenChange(old(t.Watched()), concurrent, running, whisper)
  {
    hide TriggerHelper.Inv, Noticed, Arranged;
    ghost var was, l := t.situation, t.listener;
    t.OnInputPipeChange(concurrent, running, whisper);
    ghost var now := Watch(concurrent, running, l);
    NoticedAlike(AfterFirst(l, was.SwitchOn()), was, t.situation, old(t.Watched()), now, whisper);
  }

  /** Delivers events one by one to a fresh helper. */
  method Drive(build: Build, flawless: bool, events: seq<Event>) returns (t: TriggerHelper, ghost heard: set<int>)
    ensures fresh(t) && t.build == build && t.Inv()
    ensures build == ConcurrentCapture ==> t.Watched() == Saw(events)
    ensures build == PlainCapture && t.hal.Clean() ==> Awake(t.models, t.situation, heard)
    ensures heard != {} ==> exists i :: 0 <= i < |events| && events[i].Recognised?
  {
    hide TriggerHelper.Inv, Seen;
    t := new TriggerHelper(build, flawless);
    heard := {};
    for i := 0 to |events|
      invariant t.build == build && t.Inv() && fresh(t)
      invariant build == ConcurrentCapture ==> t.Watched() == Saw(events[..i])
      invariant build == PlainCapture && t.hal.Clean() ==> Awake(t.models, t.situation, heard)
      invariant heard != {} ==> exists k :: 0 <= k < i && events[k].Recognised?
    {
      ghost var before := t.models;
      Deliver(t, events[i], heard);
      heard := StillHeard(heard, before, t.models, events[i]);
      assert events[..i + 1][..i] == events[..i];
    }
    assert events[..|events|] == events;
  }

  /** Every run from a fresh helper, for any HAL behaviour: what holds in each state reached. `heard`
      are the models recognised and not restarted since. */
  method Run(build: Build, flawless: bool, events: seq<Event>) returns (t: TriggerHelper, ghost heard: set<int>)
    ensures t.build == build && t.Inv()
    ensures |Leaked(t.models, t.hal.held)| <= t.hal.stopFaults + t.hal.unloadFaults
    ensures t.hal.stopFaults == 0 && t.hal.unloadFaults == 0 ==>
              t.hal.held.loaded == LoadedHandles(t.models) && t.hal.held.started == StartedHandles(t.models)
    ensures t.hal.stopFaults == 0 ==>
              forall u :: u in t.models && t.models[u].state != NotLoaded ==> Holds(t.hal.held, t.models[u])
    ensures build == PlainCapture && t.hal.stopFaults == 0 ==>
              forall u :: u in t.models && t.models[u].state == Started ==>
                            && t.models[u].requested && !t.situation.callActive && !t.situation.captureActive
                            && !t.situation.systemHibernate && t.situation.scene == DefaultScene
    // With no failed call these conditions are also enough, except after a recognition.
    ensures build == PlainCapture && t.hal.Clean() ==> Awake(t.models, t.situation, heard)
    ensures heard != {} ==> exists i :: 0 <= i < |events| && events[i].Recognised?
    ensures !t.situation.voip
    ensures build == ConcurrentCapture && t.hal.stopFaults == 0 ==>
              t.situation.captureActive && !t.situation.concurrentCapture ==> NoneStarted(t.models)
    // Exactly what the HAL was told last, unless a value was lost.
    ensures build == ConcurrentCapture && t.hal.missed == 0 && !t.listener.firstProc ==>
              && (LastSwitch(t.hal.pipe) == Some(true) <==> t.situation.SwitchOn() && !t.listener.stale)
              && (t.listener.armed ==> LastSwitch(t.hal.pipe).Some?)
    ensures build == ConcurrentCapture && t.hal.missed == 0 && t.listener.extension && t.situation.SwitchOn() ==>
              LastWhisper(t.hal.pipe) == if t.listener.late then None else Some(t.listener.whisper)
    // So it knows the truth exactly unless misled by then, and always if attaching is careful.
    ensures build == ConcurrentCapture && t.hal.missed == 0 ==>
              (Truthful(t.situation, t.listener, LastSwitch(t.hal.pipe), LastWhisper(t.hal.pipe))
               <==> Unmisled(Saw(events)))
    ensures build == ConcurrentCapture && t.hal.missed == 0 && Obeys(CAREFUL, events) ==>
              Truthful(t.situation, t.listener, LastSwitch(t.hal.pipe), LastWhisper(t.hal.pipe))
  {
    hide Seen, Saw, Obeys, LastSwitch, LastWhisper, Unmisled, Truthful, Awake;
    t, heard := Drive(build, flawless, events);
    ConflictIsDisturbance(build, t.situation);
    if t.hal.stopFaults == 0 && t.hal.unloadFaults == 0 {
      AgreementIsExact(t.models, t.hal);
    }
    if build == ConcurrentCapture && t.hal.missed == 0 {
      TruthIff(t.situation, t.listener, LastSwitch(t.hal.pipe), LastWhisper(t.hal.pipe), Saw(events));
    }
    if Obeys(CAREFUL, events) {
      CarefulIsSafe(events, |events|);
    }
  }

  // ---- Runs on which something goes wrong, against a HAL that refuses nothing.

  /** Attaching again while capture runs beside wakeup leaves the HAL switched off. */
  method ReattachRun() returns (t: TriggerHelper)
    ensures fresh(t) && t.build == ConcurrentCapture && t.Inv() && t.hal.missed == 0
    ensures t.situation.SwitchOn() && LastSwitch(t.hal.pipe) == Some(false)
  {
    hide TriggerHelper.Linked, SafeModels, LastSwitch, LastWhisper;
    t := new TriggerHelper(ConcurrentCapture, true);
    Attach(t, false);
    t.OnInputPipeChange(true, false, true);
    t.OnInputPipeChange(true, true, true);
    Attach(t, false);
    t.OnInputPipeChange(true, true, true);
    NothingMissed(t);
    Misled(t.situation, t.listener, t.hal.pipe);
  }

  /** So does a first attach, when capture begins between publishing the callback and setting
      mFirstProc; and if extension mode began then, no whisper setting was ever sent. */
  method FirstAttachRun() returns (t: TriggerHelper)
    ensures fresh(t) && t.build == ConcurrentCapture && t.Inv() && t.hal.missed == 0
    ensures t.situation.SwitchOn() && LastSwitch(t.hal.pipe) == Some(false)
    ensures t.listener.extension && LastWhisper(t.hal.pipe) == None
  {
    hide TriggerHelper.Linked, SafeModels, LastSwitch, LastWhisper;
    t := new TriggerHelper(ConcurrentCapture, true);
    t.PublishCallback();
    t.OnInputPipeChange(true, true, true);
    t.ReadAbilities(true, false, false);
    t.ArmFirstChange();
    t.OnInputPipeChange(true, true, true);
    NothingMissed(t);
    Misled(t.situation, t.listener, t.hal.pipe);
  }

  /** The steps of one attach with nothing in between. */
  method Attach(t: TriggerHelper, extension: bool)
    requires t.Inv() && t.build == ConcurrentCapture
    modifies t
    ensures t.Inv() && t.situation == old(t.situation)
    ensures var on := t.situation.SwitchOn();
            t.listener == old(t.listener).Published().WithExtension(extension, on).Armed()
  {
    hide TriggerHelper.Inv;
    t.PublishCallback();
    t.ReadAbilities(extension, false, false);
    t.ArmFirstChange();
  }

  lemma NothingMissed(t: TriggerHelper)
    requires t.Linked() && t.flawless
    ensures t.hal.Flawless()
  {
  }

  /** A model is started and unloaded for hibernation; an event for its old handle then makes
      the helper believe it loaded. */
  method StaleRecognitionRun(u: int, model: Model) returns (t: TriggerHelper, h: int)
    ensures fresh(t) && t.hal.Flawless() && h in t.hal.held.used && h !in t.hal.held.loaded
    ensures u in t.models && t.models[u].state == Loaded && t.models[u].handle == h && !t.Linked()
  {
    hide Consistent, SafeModels;
    t := new TriggerHelper(PlainCapture, true);
    var _ := t.StartGenericRecognition(u, model, None);
    EntryKnows(t.models, t.hal, u);
    assert t.models.Keys == {u} by {
      assert forall v :: v in t.models ==> v == u;
    }
    t.OnHibernateStateUpdated(true);
    h := t.models[u].handle;
    AgreementIsExact(t.models, t.hal);
    assert t.models.Keys == {u} && t.models[u].state == NotLoaded;
    assert h !in t.hal.held.loaded;
    EntryKnows(t.models, t.hal, u);
    assert First(t.models, h, u);
    var _ := t.OnRecognition(h);
  }
}
