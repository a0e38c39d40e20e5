/** The data a wakeup model carries, the trigger HAL as the helper sees it, and what it
    means for the two to agree. */
module TriggerHal {
  import opened Basics

  type Model = seq<bv8>

  datatype ModelState = NotLoaded | Loaded | Started

  /** TriggerModelData: an entry of the helper's model map. The handle survives unloading. */
  datatype ModelData = ModelData(
    state: ModelState,
    model: Option<Model>,
    callback: Option<int>,
    handle: int,
    requested: bool)
  {
    predicate SameModel(m: Model) {
      model == Some(m)
    }

    /** Everything except the two fields the HAL calls write. */
    predicate SameRequest(other: ModelData) {
      model == other.model && callback == other.callback && requested == other.requested
    }
  }

  const FRESH_ENTRY := ModelData(NotLoaded, None, None, 0, false)

  type Models = map<int, ModelData>

  /** The values written to the HAL parameter "concurrent_capture". */
  datatype PipeValue = Start | StartWithWhisper | StartNoWhisper | Stop | EnableWhisper | DisableWhisper

  /** The handles the HAL holds loaded, those it holds started, all it ever issued, and the
      data each was issued for. */
  datatype Held = Held(loaded: set<int>, started: set<int>, used: set<int>, content: map<int, Option<Model>>) {
    function Load(h: int, model: Option<Model>): Held {
      this.(loaded := loaded + {h}, used := used + {h}, content := content[h := model])
    }
    function Start(h: int): Held {
      this.(started := started + {h})
    }
    function Stop(h: int): Held {
      this.(started := started - {h})
    }
    function Unload(h: int): Held {
      this.(loaded := loaded - {h})
    }
    predicate Valid() {
      started <= loaded <= used && 0 !in used
    }
  }

  /** The HAL: the handles it holds, how many calls it received and how many failed, and the
      values it was sent for "concurrent_capture". `missed` counts values that never
      reached it. */
  datatype Hal = Hal(
    held: Held,
    calls: nat,
    faults: nat,
    stopFaults: nat,
    unloadFaults: nat,
    missed: nat,
    pipe: seq<PipeValue>)
  {
    function Done(after: Held): Hal {
      this.(held := after, calls := calls + 1)
    }
    function CallFailed(): Hal {
      this.(faults := faults + 1, calls := calls + 1)
    }
    function StopFailed(): Hal {
      this.(stopFaults := stopFaults + 1, calls := calls + 1)
    }
    function UnloadFailed(): Hal {
      this.(unloadFaults := unloadFaults + 1, calls := calls + 1)
    }
    predicate Flawless() {
      Clean() && missed == 0
    }
    /** No call has failed so far. */
    predicate Clean() {
      faults == 0 && stopFaults == 0 && unloadFaults == 0
    }
    predicate NoStopFaultSince(before: Hal) {
      stopFaults == before.stopFaults && unloadFaults == before.unloadFaults
    }
    /** The counters only grow, and "concurrent_capture" was not written. */
    predicate After(before: Hal) {
      && before.calls <= calls && before.faults <= faults
      && before.stopFaults <= stopFaults && before.unloadFaults <= unloadFaults
      && missed == before.missed && pipe == before.pipe
    }
  }

  const NEW_HAL := Hal(Held({}, {}, {}, map[]), 0, 0, 0, 0, 0, [])

  ghost function LoadedHandles(models: Models): set<int> {
    set u | u in models && models[u].state != NotLoaded :: models[u].handle
  }

  ghost function StartedHandles(models: Models): set<int> {
    set u | u in models && models[u].state == Started :: models[u].handle
  }

  /** Handles the HAL still holds loaded although no entry knows about them. */
  ghost function Leaked(models: Models, held: Held): set<int> {
    held.loaded - LoadedHandles(models)
  }

  /** Helper and HAL agree on every entry; every handle no entry accounts for is paid for by
      a Stop or Unload that failed; and until a Stop fails they agree on the data, too. */
  ghost predicate Consistent(models: Models, hal: Hal) {
    && Agrees(models, hal.held)
    && |Leaked(models, hal.held)| <= hal.stopFaults + hal.unloadFaults
    && (hal.stopFaults == 0 ==> Faithful(models, hal.held))
  }

  /** A loaded entry's handle was issued for the entry's own data, and nothing runs that no entry
      knows to be running. */
  ghost predicate Faithful(models: Models, held: Held) {
    && (forall u :: u in models && models[u].state != NotLoaded ==> Holds(held, models[u]))
    && (forall h :: h in held.started ==> exists u :: RunsUnder(models, u, h))
  }

  predicate Holds(held: Held, d: ModelData) {
    d.handle in held.loaded && d.handle in held.content && held.content[d.handle] == d.model
  }

  predicate RunsUnder(models: Models, u: int, h: int) {
    u in models && models[u].state == Started && models[u].handle == h
  }

  ghost predicate Agrees(models: Models, held: Held) {
    && held.Valid()
    && Distinct(models)
    && forall u {:trigger EntryAgrees(models[u], held)} :: u in models ==> EntryAgrees(models[u], held)
  }

  predicate EntryAgrees(d: ModelData, held: Held) {
    && (d.handle == 0 || d.handle in held.used)
    && (d.state != NotLoaded ==> d.handle in held.loaded && (d.state == Started <==> d.handle in held.started))
  }

  /** No two entries carry the same handle; 0 means none was ever issued. */
  ghost predicate Distinct(models: Models) {
    forall u, v {:trigger ShareHandle(models, u, v)} :: ShareHandle(models, u, v) ==> models[u].handle == 0
  }

  ghost predicate ShareHandle(models: Models, u: int, v: int) {
    u in models && v in models && u != v && models[u].handle == models[v].handle
  }

  /** With no failed Stop or Unload, agreement is exact: nothing leaks. */
  lemma {:induction false} AgreementIsExact(models: Models, hal: Hal)
    requires Consistent(models, hal)
    requires hal.stopFaults == 0 && hal.unloadFaults == 0
    ensures hal.held.loaded == LoadedHandles(models)
    ensures hal.held.started == StartedHandles(models)
  {
    var held := hal.held;
    assert Leaked(models, held) == {};
    forall u | u in models
      ensures EntryAgrees(models[u], held)
    {
    }
    forall h | h in held.loaded
      ensures h in LoadedHandles(models)
    {
      assert h !in Leaked(models, held);
    }
  }

  lemma StartedIsLoaded(models: Models, hal: Hal)
    requires Consistent(models, hal)
    ensures hal.held.started <= hal.held.loaded
  {
  }

  /** How rewriting one entry changes the set of handles accounted for. */
  lemma LoadedHandlesUpdate(models: Models, u: int, d: ModelData)
    requires Distinct(models)
    requires u in models && (models[u].state != NotLoaded ==> models[u].handle != 0)
    ensures LoadedHandles(models[u := d])
         == LoadedHandles(models)
            - (if models[u].state != NotLoaded then {models[u].handle} else {})
            + (if d.state != NotLoaded then {d.handle} else {})
  {
    var models' := models[u := d];
    var gone := if models[u].state != NotLoaded then {models[u].handle} else {};
    var come := if d.state != NotLoaded then {d.handle} else {};
    forall h | h in LoadedHandles(models) - gone + come
      ensures h in LoadedHandles(models')
    {
      if h in come {
        assert models'[u].handle == h;
      } else {
        var v :| v in models && models[v].state != NotLoaded && models[v].handle == h;
        assert models'[v] == models[v];
      }
    }
    forall h | h in LoadedHandles(models')
      ensures h in LoadedHandles(models) - gone + come
    {
      var v :| v in models' && models'[v].state != NotLoaded && models'[v].handle == h;
      if v != u {
        assert models[v].handle == h;
        assert ShareHandle(models, v, u) <==> models[u].handle == h;
      }
    }
  }

  /** Rewriting one entry, together with a HAL change confined to that entry's handles, keeps
      agreement as long as the entry itself agrees. */
  lemma UpdateKeeps(models: Models, held: Held, u: int, d: ModelData, held': Held)
    requires Agrees(models, held)
    requires u in models
    requires held'.Valid() && held.used <= held'.used
    requires d.handle == models[u].handle || d.handle !in held.used + {0}
    requires EntryAgrees(d, held')
    requires forall h :: h !in {d.handle, models[u].handle} || h == 0
                         ==> (h in held.loaded <==> h in held'.loaded) && (h in held.started <==> h in held'.started)
    ensures Agrees(models[u := d], held')
  {
    var models' := models[u := d];
    forall v | v in models'
      ensures EntryAgrees(models'[v], held')
    {
      if v != u {
        assert EntryAgrees(models[v], held);
        assert ShareHandle(models, v, u) <==> models[u].handle == models[v].handle;
      }
    }
    forall v, w | ShareHandle(models', v, w)
      ensures models'[v].handle == 0
    {
      assert EntryAgrees(models[v], held) && EntryAgrees(models[w], held);
      assert d.handle == models[u].handle || (v != u && w != u) ==> ShareHandle(models, v, w);
    }
  }

  /** The same for the data and for what runs. */
  lemma FaithfulUpdate(models: Models, held: Held, u: int, d: ModelData, held': Held)
    requires Agrees(models, held) && Faithful(models, held) && u in models
    requires d.state != NotLoaded ==> Holds(held', d)
    requires forall h :: h in held.loaded && h != models[u].handle ==> SameData(held, held', h)
    requires forall h :: h in held'.started ==>
                           || (d.state == Started && h == d.handle)
                           || (h in held.started && !RunsUnder(models, u, h))
    ensures Faithful(models[u := d], held')
  {
    var models' := models[u := d];
    forall v | v in models' && models'[v].state != NotLoaded
      ensures Holds(held', models'[v])
    {
      if v != u {
        assert EntryAgrees(models[v], held) && Holds(held, models[v]);
        assert ShareHandle(models, v, u) <==> models[u].handle == models[v].handle;
        assert SameData(held, held', models[v].handle);
      }
    }
    forall h | h in held'.started
      ensures exists v :: RunsUnder(models', v, h)
    {
      if d.state == Started && h == d.handle {
        assert RunsUnder(models', u, h);
      } else {
        var v :| RunsUnder(models, v, h);
        assert RunsUnder(models', v, h);
      }
    }
  }

  /** The HAL holds `h` as before. */
  predicate SameData(held: Held, held': Held, h: int) {
    h in held.content ==> h in held'.loaded && h in held'.content && held'.content[h] == held.content[h]
  }

  lemma LoadKeeps(models: Models, hal: Hal, u: int, h: int)
    requires Consistent(models, hal)
    requires u in models && models[u].state == NotLoaded
    requires h != 0 && h !in hal.held.used
    ensures Consistent(models[u := models[u].(state := Loaded, handle := h)],
                       hal.Done(hal.held.Load(h, models[u].model)))
  {
    hide Agrees, Leaked, Faithful;
    LoadAgrees(models, hal.held, u, h);
    LoadLeaksNothing(models, hal.held, u, h);
    if hal.stopFaults == 0 {
      LoadIsFaithful(models, hal.held, u, h);
    }
  }

  lemma LoadAgrees(models: Models, held: Held, u: int, h: int)
    requires Agrees(models, held) && u in models
    requires h != 0 && h !in held.used
    ensures Agrees(models[u := models[u].(state := Loaded, handle := h)], held.Load(h, models[u].model))
  {
    hide Distinct;
    var d, held' := models[u].(state := Loaded, handle := h), held.Load(h, models[u].model);
    assert held'.Valid() && EntryAgrees(d, held');
    UpdateKeeps(models, held, u, d, held');
  }

  lemma LoadLeaksNothing(models: Models, held: Held, u: int, h: int)
    requires Agrees(models, held) && u in models && models[u].state == NotLoaded && h !in held.used
    ensures Leaked(models[u := models[u].(state := Loaded, handle := h)], held.Load(h, models[u].model))
         == Leaked(models, held)
  {
    hide LoadedHandles, Distinct;
    LoadedHandlesUpdate(models, u, models[u].(state := Loaded, handle := h));
  }

  lemma LoadIsFaithful(models: Models, held: Held, u: int, h: int)
    requires Agrees(models, held) && Faithful(models, held)
    requires u in models && models[u].state == NotLoaded && h !in held.used
    ensures Faithful(models[u := models[u].(state := Loaded, handle := h)], held.Load(h, models[u].model))
  {
    hide Faithful, Distinct, EntryAgrees;
    FaithfulUpdate(models, held, u, models[u].(state := Loaded, handle := h), held.Load(h, models[u].model));
  }

  /** Moving an entry between states under the handle it has, with the HAL following. */
  lemma StepKeeps(models: Models, hal: Hal, u: int, state: ModelState, held': Held)
    requires Consistent(models, hal) && u in models
    requires models[u].handle in hal.held.loaded && held'.Valid()
    requires held'.used == hal.held.used && held'.content == hal.held.content
    requires forall h :: h != models[u].handle ==>
               (h in hal.held.loaded <==> h in held'.loaded) && (h in hal.held.started <==> h in held'.started)
    requires EntryAgrees(models[u].(state := state), held')
    requires models[u].handle in held'.started ==> state == Started
    requires state == NotLoaded ==> models[u].handle !in held'.loaded && models[u].state != NotLoaded
    requires state != NotLoaded ==> models[u].handle in held'.loaded
    requires hal.stopFaults == 0 && state != NotLoaded ==> Holds(hal.held, models[u])
    ensures Consistent(models[u := models[u].(state := state)], hal.Done(held'))
    ensures Consistent(models[u := models[u].(state := state)], hal.(held := held'))
  {
    hide Agrees, Leaked, Faithful;
    StepAgrees(models, hal.held, u, state, held');
    StepLeaksNothing(models, hal.held, u, state, held');
    CardinalityLe(Leaked(models[u := models[u].(state := state)], held'), Leaked(models, hal.held));
    if hal.stopFaults == 0 {
      StepIsFaithful(models, hal.held, u, state, held');
    }
  }

  lemma StepAgrees(models: Models, held: Held, u: int, state: ModelState, held': Held)
    requires Agrees(models, held) && u in models && held'.Valid() && held'.used == held.used
    requires models[u].handle in held.loaded
    requires forall h :: h != models[u].handle ==>
               (h in held.loaded <==> h in held'.loaded) && (h in held.started <==> h in held'.started)
    requires EntryAgrees(models[u].(state := state), held')
    ensures Agrees(models[u := models[u].(state := state)], held')
  {
    UpdateKeeps(models, held, u, models[u].(state := state), held');
  }

  lemma StepLeaksNothing(models: Models, held: Held, u: int, state: ModelState, held': Held)
    requires Agrees(models, held) && u in models
    requires forall h :: h != models[u].handle ==> (h in held.loaded <==> h in held'.loaded)
    requires models[u].handle in held.loaded
    requires state == NotLoaded ==> models[u].handle !in held'.loaded
    ensures Leaked(models[u := models[u].(state := state)], held') <= Leaked(models, held)
  {
    hide LoadedHandles, Distinct;
    var d := models[u].(state := state);
    assert EntryAgrees(models[u], held);
    LoadedHandlesUpdate(models, u, d);
    forall h | h in Leaked(models[u := d], held')
      ensures h in Leaked(models, held)
    {
      assert h != d.handle;
    }
  }

  lemma StepIsFaithful(models: Models, held: Held, u: int, state: ModelState, held': Held)
    requires Agrees(models, held) && Faithful(models, held) && u in models
    requires held'.content == held.content
    requires forall h :: h != models[u].handle ==>
               (h in held.loaded <==> h in held'.loaded) && (h in held.started <==> h in held'.started)
    requires models[u].handle in held'.started ==> state == Started
    requires state != NotLoaded ==> models[u].handle in held'.loaded && Holds(held, models[u])
    ensures Faithful(models[u := models[u].(state := state)], held')
  {
    hide Agrees, Faithful;
    FaithfulUpdate(models, held, u, models[u].(state := state), held');
  }

  /** What an entry's state says about its handle. */
  lemma EntryKnows(models: Models, hal: Hal, u: int)
    requires Consistent(models, hal) && u in models
    ensures hal.held.Valid() && EntryAgrees(models[u], hal.held)
    ensures hal.stopFaults == 0 && models[u].state != NotLoaded ==> Holds(hal.held, models[u])
  {
  }

  lemma StartKeeps(models: Models, hal: Hal, u: int)
    requires Consistent(models, hal)
    requires u in models && models[u].state == Loaded
    ensures models[u].handle in hal.held.loaded && models[u].handle !in hal.held.started
    ensures Consistent(models[u := models[u].(state := Started)], hal.Done(hal.held.Start(models[u].handle)))
  {
    hide Consistent;
    EntryKnows(models, hal, u);
    StepKeeps(models, hal, u, Started, hal.held.Start(models[u].handle));
  }

  lemma StopKeeps(models: Models, hal: Hal, u: int)
    requires Consistent(models, hal)
    requires u in models && models[u].state == Started
    ensures models[u].handle in hal.held.started
    ensures Consistent(models[u := models[u].(state := Loaded)], hal.Done(hal.held.Stop(models[u].handle)))
  {
    hide Consistent;
    EntryKnows(models, hal, u);
    StepKeeps(models, hal, u, Loaded, hal.held.Stop(models[u].handle));
  }

  lemma UnloadKeeps(models: Models, hal: Hal, u: int)
    requires Consistent(models, hal)
    requires u in models && models[u].state == Loaded
    ensures models[u].handle in hal.held.loaded && models[u].handle !in hal.held.started
    ensures Consistent(models[u := models[u].(state := NotLoaded)], hal.Done(hal.held.Unload(models[u].handle)))
  {
    hide Consistent;
    EntryKnows(models, hal, u);
    StepKeeps(models, hal, u, NotLoaded, hal.held.Unload(models[u].handle));
  }

  /** Forgetting an entry leaks its handle if it was still loaded. The leak is paid for when
      one failure more than the current leaks has been counted. */
  lemma ForgetKeeps(models: Models, hal: Hal, u: int, d: ModelData)
    requires Consistent(models, hal)
    requires u in models && d.state == NotLoaded && d.handle == models[u].handle
    requires models[u].state != NotLoaded ==> |Leaked(models, hal.held)| + 1 <= hal.stopFaults + hal.unloadFaults
    requires models[u].state == Started ==> hal.stopFaults > 0
    ensures Consistent(models[u := d], hal)
  {
    hide Faithful;
    var held := hal.held;
    assert EntryAgrees(models[u], held);
    assert |Leaked(models[u := d], held)| <= hal.stopFaults + hal.unloadFaults by {
      LoadedHandlesUpdate(models, u, d);
      if models[u].state != NotLoaded {
        assert Leaked(models[u := d], held) == Leaked(models, held) + {d.handle};
      } else {
        assert Leaked(models[u := d], held) == Leaked(models, held);
      }
    }
    UpdateKeeps(models, held, u, d, held);
    if hal.stopFaults == 0 {
      FaithfulUpdate(models, held, u, d, held);
    }
  }

  /** A refused Unload leaks the handle of an entry that is unloaded all the same. */
  lemma UnloadFailKeeps(models: Models, hal: Hal, u: int)
    requires Consistent(models, hal)
    requires u in models && models[u].state == Loaded
    ensures Consistent(models[u := models[u].(state := NotLoaded)], hal.UnloadFailed())
  {
    hide Agrees, Faithful;
    ForgetKeeps(models, hal.UnloadFailed(), u, models[u].(state := NotLoaded));
  }

  /** Rewriting what the HAL does not see keeps agreement. */
  lemma RewriteKeeps(models: Models, hal: Hal, u: int, d: ModelData)
    requires Consistent(models, hal)
    requires u in models && d.state == models[u].state && d.handle == models[u].handle
    requires d.state != NotLoaded ==> d.model == models[u].model
    ensures Consistent(models[u := d], hal)
  {
    hide Faithful;
    EntryKnows(models, hal, u);
    assert Leaked(models[u := d], hal.held) == Leaked(models, hal.held) by {
      LoadedHandlesUpdate(models, u, d);
    }
    UpdateKeeps(models, hal.held, u, d, hal.held);
    if hal.stopFaults == 0 {
      FaithfulUpdate(models, hal.held, u, d, hal.held);
    }
  }

  /** Maps that differ only in unloaded entries agree with the HAL alike. */
  lemma SameLoadedKeeps(models: Models, models': Models, hal: Hal)
    requires Consistent(models, hal)
    requires forall v :: v in models && models[v].state != NotLoaded ==> v in models' && models'[v] == models[v]
    requires forall v :: v in models' ==> (v in models && models'[v] == models[v]) || models'[v] == FRESH_ENTRY
    ensures Consistent(models', hal)
  {
    SameHandles(models, models');
    assert Agrees(models', hal.held) by {
      forall v | v in models'
        ensures EntryAgrees(models'[v], hal.held)
      {
        assert v in models ==> EntryAgrees(models[v], hal.held);
      }
      forall v, w | ShareHandle(models', v, w)
        ensures models'[v].handle == 0
      {
        assert v in models && w in models ==> ShareHandle(models, v, w) || models'[v].handle == 0;
      }
    }
    assert hal.stopFaults == 0 ==> Faithful(models', hal.held) by {
      SameLoadedFaithful(models, models', hal);
    }
  }

  lemma SameLoadedFaithful(models: Models, models': Models, hal: Hal)
    requires Consistent(models, hal)
    requires forall v :: v in models && models[v].state != NotLoaded ==> v in models' && models'[v] == models[v]
    requires forall v :: v in models' ==> (v in models && models'[v] == models[v]) || models'[v] == FRESH_ENTRY
    ensures hal.stopFaults == 0 ==> Faithful(models', hal.held)
  {
    if hal.stopFaults == 0 {
      forall h | h in hal.held.started
        ensures exists v :: RunsUnder(models', v, h)
      {
        var v :| RunsUnder(models, v, h);
        assert RunsUnder(models', v, h);
      }
    }
  }

  /** Dropping an unloaded entry changes no accounting. */
  lemma DropKeeps(models: Models, hal: Hal, u: int)
    requires Consistent(models, hal)
    requires u in models && models[u].state == NotLoaded
    ensures Consistent(models - {u}, hal)
  {
    hide Consistent;
    SameLoadedKeeps(models, models - {u}, hal);
  }

  /** Nor does adding a fresh one. */
  lemma AddKeeps(models: Models, hal: Hal, u: int)
    requires Consistent(models, hal)
    requires u !in models
    ensures Consistent(models[u := FRESH_ENTRY], hal)
  {
    hide Consistent;
    SameLoadedKeeps(models, models[u := FRESH_ENTRY], hal);
  }

  lemma SameHandles(a: Models, b: Models)
    requires forall v :: v in a && a[v].state != NotLoaded ==> v in b && b[v] == a[v]
    requires forall v :: v in b && b[v].state != NotLoaded ==> v in a && a[v] == b[v]
    ensures LoadedHandles(a) == LoadedHandles(b)
  {
  }

  /** A forgotten entry can be dropped. */
  lemma EraseKeeps(models: Models, hal: Hal, u: int)
    requires Consistent(models, hal) && u in models
    requires models[u].state != NotLoaded ==> |Leaked(models, hal.held)| + 1 <= hal.stopFaults + hal.unloadFaults
    requires models[u].state == Started ==> hal.stopFaults > 0
    ensures Consistent(models - {u}, hal)
  {
    hide Consistent;
    var forgotten := models[u := models[u].(state := NotLoaded)];
    ForgetKeeps(models, hal, u, forgotten[u]);
    DropKeeps(forgotten, hal, u);
    assert models - {u} == forgotten - {u};
  }

  /** An entry the event's handle belongs to becomes LOADED whatever it was. That agrees with
      the HAL exactly when the HAL still holds the handle, and for this entry's data. */
  lemma RecogniseKeeps(models: Models, hal: Hal, u: int)
    requires Consistent(models, hal)
    requires u in models
    ensures models[u].handle in hal.held.loaded && (hal.stopFaults == 0 ==> Holds(hal.held, models[u]))
       <==> Consistent(models[u := models[u].(state := Loaded)], hal.(held := hal.held.Stop(models[u].handle)))
  {
    hide Agrees, Leaked, Faithful;
    var after := models[u := models[u].(state := Loaded)];
    var held' := hal.held.Stop(models[u].handle);
    EntryKnows(models, hal, u);
    if models[u].handle in hal.held.loaded && (hal.stopFaults == 0 ==> Holds(hal.held, models[u])) {
      StepKeeps(models, hal, u, Loaded, held');
    } else if Consistent(after, hal.(held := held')) {
      EntryKnows(after, hal.(held := held'), u);
    }
  }

  /** Until a Stop fails, a handle that runs is held for the data of the entry that carries it, and
      that entry is STARTED. */
  lemma RunningHolds(models: Models, hal: Hal, u: int)
    requires Consistent(models, hal) && hal.stopFaults == 0
    requires u in models && models[u].handle in hal.held.started
    ensures Holds(hal.held, models[u]) && models[u].state == Started
  {
    var h := models[u].handle;
    var v :| RunsUnder(models, v, h);
    assert EntryAgrees(models[v], hal.held);
    assert ShareHandle(models, u, v) <==> u != v;
  }

  /** Until a Stop fails, a handle that runs belongs to one entry only, which is STARTED; and a handle
      that does not run belongs to no STARTED entry. */
  lemma Runner(models: Models, hal: Hal, h: int) returns (u: int)
    requires Consistent(models, hal) && hal.stopFaults == 0
    ensures h in hal.held.started ==>
              RunsUnder(models, u, h) && forall v :: v in models && v != u ==> models[v].handle != h
    ensures h !in hal.held.started ==> forall v :: v in models && models[v].state == Started ==> models[v].handle != h
  {
    if h in hal.held.started {
      u :| RunsUnder(models, u, h);
      forall v | v in models && v != u
        ensures models[v].handle != h
      {
        assert EntryAgrees(models[u], hal.held);
        assert ShareHandle(models, u, v) <==> models[v].handle == h;
      }
    } else {
      u := 0;
      forall v | v in models
        ensures EntryAgrees(models[v], hal.held)
      {
      }
    }
  }

  /** A failed Stop can make them disagree on the data. Model `a` runs under handle 1; a request for
      `b` finds the Stop refused, forgets the entry, records `b` and then finds the Load refused, too
      (with a conflict active it would not even try). When the HAL reports handle 1 the entry is
      LOADED, for `b`, under a handle that holds `a`. */
  lemma StopFailureMisleads(a: Model, b: Model)
    requires a != b
    ensures var running := Hal(Held({1}, {1}, {1}, map[1 := Some(a)]), 2, 0, 0, 0, 0, []);
            var m0 := map[7 := ModelData(Started, Some(a), None, 1, true)];
            var m1 := map[7 := ModelData(NotLoaded, Some(b), None, 1, true)];
            var m2 := map[7 := ModelData(Loaded, Some(b), None, 1, true)];
            var refused := running.StopFailed().CallFailed();
            var reported := refused.(held := refused.held.Stop(1));
            && Consistent(m0, running) && Consistent(m1, refused) && Consistent(m2, reported)
            && !Holds(reported.held, m2[7])
  {
    hide Consistent;
    var running := Hal(Held({1}, {1}, {1}, map[1 := Some(a)]), 2, 0, 0, 0, 0, []);
    var m0 := map[7 := ModelData(Started, Some(a), None, 1, true)];
    RunningIsConsistent(a);
    var unstopped := running.StopFailed();
    StopFailKeeps(m0, running);
    var forgotten := m0[7].(state := NotLoaded);
    ForgetKeeps(m0, unstopped, 7, forgotten);
    RewriteKeeps(m0[7 := forgotten], unstopped, 7, forgotten.(model := Some(b)));
    var refused := unstopped.CallFailed();
    CallFailKeeps(m0[7 := forgotten][7 := forgotten.(model := Some(b))], unstopped);
    var m1 := map[7 := ModelData(NotLoaded, Some(b), None, 1, true)];
    assert m0[7 := forgotten][7 := forgotten.(model := Some(b))] == m1;
    RecogniseKeeps(m1, refused, 7);
    assert m1[7 := m1[7].(state := Loaded)] == map[7 := ModelData(Loaded, Some(b), None, 1, true)];
  }

  lemma RunningIsConsistent(a: Model)
    ensures Consistent(map[7 := ModelData(Started, Some(a), None, 1, true)],
                       Hal(Held({1}, {1}, {1}, map[1 := Some(a)]), 2, 0, 0, 0, 0, []))
  {
    var m := map[7 := ModelData(Started, Some(a), None, 1, true)];
    assert RunsUnder(m, 7, 1);
    assert 1 in LoadedHandles(m) by {
      assert m[7].handle == 1;
    }
    assert Leaked(m, Held({1}, {1}, {1}, map[1 := Some(a)])) == {};
  }

  /** A refused Load or Start leaves everything as it was. */
  lemma CallFailKeeps(models: Models, hal: Hal)
    requires Consistent(models, hal)
    ensures Consistent(models, hal.CallFailed())
  {
  }

  /** A refused Stop leaves everything as it was and pays for one leak. */
  lemma StopFailKeeps(models: Models, hal: Hal)
    requires Consistent(models, hal)
    ensures Consistent(models, hal.StopFailed())
    ensures |Leaked(models, hal.held)| + 1 <= hal.StopFailed().stopFaults + hal.unloadFaults
  {
  }

  /** An event for a handle no entry carries leaves agreement alone. */
  lemma RecogniseUnknown(models: Models, hal: Hal, h: int)
    requires Consistent(models, hal)
    requires forall u :: u in models ==> models[u].handle != h
    ensures Consistent(models, hal.(held := hal.held.Stop(h)))
  {
    forall v | v in models
      ensures EntryAgrees(models[v], hal.held.Stop(h))
    {
      assert EntryAgrees(models[v], hal.held);
    }
    assert Leaked(models, hal.held.Stop(h)) == Leaked(models, hal.held);
  }

  lemma CardinalityLe(a: set<int>, b: set<int>)
    requires a <= b
    ensures |a| <= |b|
  {
    if a != {} {
      var x := Pick(a);
      CardinalityLe(a - {x}, b - {x});
    }
  }

  /** The last on/off value among the values sent, whisper-only values aside. */
  function LastSwitch(log: seq<PipeValue>): Option<bool> {
    if log == [] then None
    else
      match log[|log| - 1]
      case Start => Some(true)
      case StartWithWhisper => Some(true)
      case StartNoWhisper => Some(true)
      case Stop => Some(false)
      case _ => LastSwitch(log[..|log| - 1])
  }

  /** The last whisper value among the values sent, plain on/off values aside. */
  function LastWhisper(log: seq<PipeValue>): Option<bool> {
    if log == [] then None
    else
      match log[|log| - 1]
      case StartWithWhisper => Some(true)
      case StartNoWhisper => Some(false)
      case EnableWhisper => Some(true)
      case DisableWhisper => Some(false)
      case _ => LastWhisper(log[..|log| - 1])
  }
}
