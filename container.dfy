/**
 * The settings container: the committed value store, the pending changes,
 * the changed-from-default and wrapper lists, the event bindings, and the
 * operations that propose, commit, discard, reset, save and load values.
 */
module Container {
  import opened SettingsTypes
  import opened SettingDefinitions
  import opened Lists
  import opened Bindings
  import opened Codec
  import opened SavePaths
  import opened Transitions

  /** How an operation ended: normally, or at a fatal engine check that stops the process. */
  datatype Status = Completed | Crashed

  /** The number of save profiles. */
  const MaxProfiles: int := 5

  /** The value a typed getter returns for an id the store does not hold. */
  function Sentinel(t: ValueType): (p: Payload)
    requires IsStoredType(t)
    ensures TypeOf(p) == t
  {
    match t
    case BooleanType => BoolPayload(false)
    case IntegerType => IntPayload(-1)
    case FloatType => FloatPayload(-1.0)
    case ColorType => ColorPayload(Red)
    case TagType => TagPayload(EmptyTag)
  }

  /** Clamps an index into [lo, hi]. */
  function Clamp(x: int, lo: int, hi: int): (r: int)
    requires lo <= hi
    ensures lo <= r <= hi
    ensures lo <= x <= hi ==> r == x
    ensures x < lo ==> r == lo
    ensures x > hi ==> r == hi
  {
    if x < lo then lo else if x > hi then hi else x
  }

  /** The handler calls of broadcasting one event of one setting: the loop over the bindings. */
  method CollectCalls(bs: seq<EventBinding>, s: Setting, e: ChangeEvent, v: SettingValue) returns (calls: seq<Call>)
    requires AllTyped(bs)
    ensures calls == Fires(bs, s, e, v)
  {
    calls := [];
    var i := 0;
    while i < |bs|
      invariant 0 <= i <= |bs|
      invariant AllTyped(bs[..i])
      invariant calls == Fires(bs[..i], s, e, v)
    {
      assert bs[..i + 1][..i] == bs[..i];
      if Listens(bs[i], s, e) {
        var call := Execute(bs[i], Instance(s, v));
        if call.Some? {
          calls := calls + [call.value];
        }
      }
      i := i + 1;
    }
    assert bs[..|bs|] == bs;
  }

  /** The linear search for the first registered setting with an id. */
  method GetSettingByUniqueID(registry: seq<Setting>, id: Tag) returns (r: Option<Setting>)
    ensures r == FindById(registry, id)
  {
    var i := 0;
    while i < |registry|
      invariant 0 <= i <= |registry|
      invariant FindById(registry, id) == FindById(registry[i..], id)
    {
      if registry[i].id == id {
        return Some(registry[i]);
      }
      assert registry[i..][1..] == registry[i + 1..];
      i := i + 1;
    }
    return None;
  }

  /** The Loaded broadcast over one map of the store, visiting its keys in the given order. */
  method CollectLoadedCalls<T>(bs: seq<EventBinding>, registry: seq<Setting>, order: seq<Tag>, values: map<Tag, T>,
                               wrap: T -> Payload) returns (calls: seq<Call>)
    requires AllTyped(bs)
    requires forall k :: k in order ==> k in values
    ensures calls == LoadedCalls(bs, registry, order, values, wrap)
  {
    calls := [];
    var i := 0;
    while i < |order|
      invariant 0 <= i <= |order|
      invariant calls == LoadedCalls(bs, registry, order[..i], values, wrap)
    {
      assert order[..i + 1][..i] == order[..i];
      var setting := GetSettingByUniqueID(registry, order[i]);
      if setting.Some? {
        var more := CollectCalls(bs, setting.value, Loaded, FromPayload(wrap(values[order[i]])));
        calls := calls + more;
      }
      i := i + 1;
    }
    assert order[..|order|] == order;
  }

  /** Broadcasts one event for each setting in order, with its value in the map. */
  method BroadcastEach(bs: seq<EventBinding>, order: seq<Setting>, values: map<Setting, SettingValue>, e: ChangeEvent)
    returns (calls: seq<Call>)
    requires AllTyped(bs)
    requires forall s :: s in order ==> s in values
    ensures calls == BroadcastAll(bs, order, values, e)
  {
    calls := [];
    var i := 0;
    while i < |order|
      invariant 0 <= i <= |order|
      invariant calls == BroadcastAll(bs, order[..i], values, e)
    {
      assert order[..i + 1][..i] == order[..i];
      var more := CollectCalls(bs, order[i], e, values[order[i]]);
      calls := calls + more;
      i := i + 1;
    }
    assert order[..|order|] == order;
  }

  /**
   * Commits pending values in the given order, on values: for each setting
   * the field of its pending value that its type selects is written, the
   * changed list is updated and the Commited bindings fire. ok is false when
   * a setting of the base class is met, where the process stops.
   */
  method CommitPending(st: ValueStore, changed: seq<Setting>, bs: seq<EventBinding>, order: seq<Setting>,
                       pending: map<Setting, SettingValue>)
    returns (ok: bool, st': ValueStore, changed': seq<Setting>, calls: seq<Call>)
    requires AllTyped(bs)
    requires forall s :: s in order ==> s in pending
    ensures ok <==> forall s :: s in order ==> IsStoredType(ValueTypeOf(s))
    ensures ok ==>
      st' == WriteAll(st, order, AppliedPayloads(pending))
      && changed' == ChangedAfter(changed, order, AppliedPayloads(pending))
      && calls == BroadcastAll(bs, order, pending, Commited)
  {
    var applied := AppliedPayloads(pending);
    st', changed', calls := st, changed, [];
    var i := 0;
    while i < |order|
      invariant 0 <= i <= |order|
      invariant forall s :: s in order[..i] ==> IsStoredType(ValueTypeOf(s))
      invariant st' == WriteAll(st, order[..i], applied)
      invariant changed' == ChangedAfter(changed, order[..i], applied)
      invariant calls == BroadcastAll(bs, order[..i], pending, Commited)
    {
      var s := order[i];
      PrefixGrows(order, i);
      var t := ValueTypeOf(s);
      if !IsStoredType(t) {
        return false, st', changed', calls;
      }
      var value := Field(pending[s], t);
      assert s in applied && applied[s] == value;
      WriteAllSnoc(st, order[..i], s, applied);
      ChangedAfterSnoc(changed, order[..i], s, applied);
      BroadcastAllSnoc(bs, order[..i], s, pending, Commited);
      st' := Write(st', s.id, value);
      if value == DefaultOf(s) {
        changed' := RemoveAll(changed', s);
      } else {
        changed' := AddUnique(changed', s);
      }
      var more := CollectCalls(bs, s, Commited, pending[s]);
      calls := calls + more;
      i := i + 1;
    }
    assert order[..|order|] == order;
    ok := true;
  }

  /**
   * Writes the default of each changed setting, in list order, and fires its
   * Reset bindings with that default. ok is false when a setting of the base
   * class is met, where the process stops.
   */
  method RestoreDefaults(st: ValueStore, bs: seq<EventBinding>, changed: seq<Setting>)
    returns (ok: bool, st': ValueStore, calls: seq<Call>)
    requires AllTyped(bs)
    ensures ok <==> forall s :: s in changed ==> IsStoredType(ValueTypeOf(s))
    ensures ok ==>
      st' == WriteAll(st, changed, DefaultPayloads(changed))
      && calls == BroadcastAll(bs, changed, DefaultValues(changed), Reset)
  {
    var defaults := DefaultPayloads(changed);
    var values := DefaultValues(changed);
    st', calls := st, [];
    var i := 0;
    while i < |changed|
      invariant 0 <= i <= |changed|
      invariant forall s :: s in changed[..i] ==> IsStoredType(ValueTypeOf(s))
      invariant st' == WriteAll(st, changed[..i], defaults)
      invariant calls == BroadcastAll(bs, changed[..i], values, Reset)
    {
      var s := changed[i];
      PrefixGrows(changed, i);
      if !IsStoredType(ValueTypeOf(s)) {
        return false, st', calls;
      }
      WriteAllSnoc(st, changed[..i], s, defaults);
      BroadcastAllSnoc(bs, changed[..i], s, values, Reset);
      st' := Write(st', s.id, DefaultOf(s));
      var more := CollectCalls(bs, s, Reset, FromPayload(DefaultOf(s)));
      calls := calls + more;
      i := i + 1;
    }
    assert changed[..|changed|] == changed;
    ok := true;
  }

  class SettingsContainer {
    /** The scope of the subsystem that owns the container. */
    const ownerScope: Scope
    /** The class name of the owning object, if there is one. */
    const outerClassName: Option<string>
    /** Editor builds and packaged builds save under different roots. */
    const editorBuild: bool
    const projectDir: string
    const projectUserDir: string

    var profileIndex: int
    /** The committed values. */
    var store: ValueStore
    /** Proposed values not yet committed. */
    var pending: map<Setting, SettingValue>
    /** The setting assets added to the container, in order. */
    var registry: seq<Setting>
    /** The settings whose committed value differs from the default. */
    var changed: seq<Setting>
    var changedWrappers: seq<Wrapper>
    var pendingWrappers: seq<Wrapper>
    var bindings: seq<EventBinding>
    /** The settings files, by path. */
    var files: map<string, FileText>
    /** Every handler call made so far, in order. */
    var invoked: seq<Call>

    ghost predicate Valid()
      reads this
    {
      AllTyped(bindings) && 1 <= profileIndex <= MaxProfiles
    }

    constructor (ownerScope: Scope, outerClassName: Option<string>, editorBuild: bool,
                 projectDir: string, projectUserDir: string, files: map<string, FileText>)
      ensures Valid()
      ensures this.ownerScope == ownerScope && this.outerClassName == outerClassName
      ensures this.editorBuild == editorBuild && this.projectDir == projectDir && this.projectUserDir == projectUserDir
      ensures profileIndex == 1 && store == EmptyStore && pending == map[] && registry == []
      ensures changed == [] && changedWrappers == [] && pendingWrappers == [] && bindings == []
      ensures this.files == files && invoked == []
    {
      this.ownerScope := ownerScope;
      this.outerClassName := outerClassName;
      this.editorBuild := editorBuild;
      this.projectDir := projectDir;
      this.projectUserDir := projectUserDir;
      profileIndex := 1;
      store := EmptyStore;
      pending := map[];
      registry := [];
      changed := [];
      changedWrappers := [];
      pendingWrappers := [];
      bindings := [];
      this.files := files;
      invoked := [];
    }

    // ---------------------------------------------------------------- seeding

    /**
     * Registers a setting asset and seeds the store with its default in the
     * map of its value type; a setting of the base class has no map and stops
     * the process.
     */
    method AddSettingToContainer(s: Setting) returns (status: Status)
      modifies this
      ensures registry == old(registry) + [s]
      ensures status == Completed <==> IsStoredType(ValueTypeOf(s))
      ensures status == Completed ==> store == Write(old(store), s.id, DefaultOf(s))
      ensures status == Completed ==> Lookup(store, ValueTypeOf(s), s.id) == Some(DefaultOf(s))
      ensures pending == old(pending) && changed == old(changed) && bindings == old(bindings) && invoked == old(invoked)
      ensures changedWrappers == old(changedWrappers) && pendingWrappers == old(pendingWrappers)
      ensures files == old(files) && profileIndex == old(profileIndex)
    {
      registry := registry + [s];
      if !IsStoredType(ValueTypeOf(s)) {
        return Crashed;
      }
      store := Write(store, s.id, DefaultOf(s));
      return Completed;
    }

    /**
     * Adds a setting asset unless it belongs to another scope. A missing asset
     * (None) is not rejected and is dereferenced.
     */
    method TryToAddSettingToContainer(s: Option<Setting>) returns (added: bool, status: Status)
      modifies this
      ensures s.Some? && ScopeOf(s.value) != ownerScope ==>
        !added && status == Completed && registry == old(registry) && store == old(store)
      ensures s.None? ==> status == Crashed
      ensures s.Some? && ScopeOf(s.value) == ownerScope ==>
        added && registry == old(registry) + [s.value]
        && (status == Completed <==> IsStoredType(ValueTypeOf(s.value)))
        && (status == Completed ==> store == Write(old(store), s.value.id, DefaultOf(s.value)))
      ensures pending == old(pending) && changed == old(changed) && bindings == old(bindings) && invoked == old(invoked)
      ensures changedWrappers == old(changedWrappers) && pendingWrappers == old(pendingWrappers)
      ensures files == old(files) && profileIndex == old(profileIndex)
    {
      if s.None? {
        return true, Crashed;
      }
      if ScopeOf(s.value) != ownerScope {
        return false, Completed;
      }
      status := AddSettingToContainer(s.value);
      added := true;
    }

    // ---------------------------------------------------------------- getters

    /** The committed value of a setting in the map of a type, or that type's sentinel. */
    function GetBoundTypedValue(s: Setting, t: ValueType): (p: Payload)
      requires IsStoredType(t)
      reads this
      ensures TypeOf(p) == t
      ensures Lookup(store, t, s.id).Some? ==> p == Lookup(store, t, s.id).value
      ensures Lookup(store, t, s.id).None? ==> p == Sentinel(t)
      ensures Lookup(store, t, s.id).None? ==>
        (t == BooleanType ==> p == BoolPayload(false)) && (t == IntegerType ==> p == IntPayload(-1))
        && (t == FloatType ==> p == FloatPayload(-1.0)) && (t == ColorType ==> p == ColorPayload(Red))
        && (t == TagType ==> p == TagPayload(EmptyTag))
    {
      match t
      case BooleanType => BoolPayload(GetBoundValue(store.bools, s.id, false))
      case IntegerType => IntPayload(GetBoundValue(store.ints, s.id, -1))
      case FloatType => FloatPayload(GetBoundValue(store.floats, s.id, -1.0))
      case ColorType => ColorPayload(GetBoundValue(store.colors, s.id, Red))
      case TagType => TagPayload(GetBoundValue(store.tags, s.id, EmptyTag))
    }

    /**
     * The committed value of a setting tagged with the setting's own value
     * type; a setting without a map stops the process.
     */
    function GetBoundSettingValue(s: Setting): (r: Result<SettingValue>)
      reads this
      ensures r.Ok? <==> IsStoredType(ValueTypeOf(s))
      ensures r.Ok? ==> r.value.valueType == ValueTypeOf(s)
      ensures r.Ok? && Lookup(store, ValueTypeOf(s), s.id).Some? ==>
        Field(r.value, ValueTypeOf(s)) == Lookup(store, ValueTypeOf(s), s.id).value
      ensures r.Ok? && Lookup(store, ValueTypeOf(s), s.id).None? ==>
        Field(r.value, ValueTypeOf(s)) == Sentinel(ValueTypeOf(s))
    {
      if IsStoredType(ValueTypeOf(s)) then Ok(FromPayload(GetBoundTypedValue(s, ValueTypeOf(s)))) else Fatal
    }

    // ---------------------------------------------------------------- changes

    /**
     * Proposes a value: the Changed bindings of the setting fire with it
     * first; then, if the map of the value's type already holds it, the
     * setting's pending entry is dropped, and otherwise the value becomes the
     * pending one. The store is never touched.
     */
    method ChangeBoundValue(s: Setting, p: Payload)
      requires Valid()
      modifies this
      ensures Valid()
      ensures invoked == old(invoked) + Fires(bindings, s, Changed, FromPayload(p))
      ensures Lookup(store, TypeOf(p), s.id) == Some(p) ==> pending == old(pending) - {s}
      ensures Lookup(store, TypeOf(p), s.id) != Some(p) ==> pending == old(pending)[s := FromPayload(p)]
      ensures store == old(store) && registry == old(registry) && changed == old(changed) && bindings == old(bindings)
      ensures changedWrappers == old(changedWrappers) && pendingWrappers == old(pendingWrappers)
      ensures files == old(files) && profileIndex == old(profileIndex)
    {
      var calls := CollectCalls(bindings, s, Changed, FromPayload(p));
      invoked := invoked + calls;
      if Lookup(store, TypeOf(p), s.id) == Some(p) {
        pending := pending - {s};
        return;
      }
      pending := pending[s := FromPayload(p)];
    }

    /** True exactly when a setting value or a wrapper is waiting to be applied. */
    predicate HasUnappliedChanges()
      reads this
      ensures HasUnappliedChanges() <==> pending != map[] || pendingWrappers != []
    {
      |pending| > 0 || |pendingWrappers| > 0
    }

    /** True exactly when a setting or a wrapper differs from its default. */
    predicate CanResetSettings()
      reads this
      ensures CanResetSettings() <==> changed != [] || changedWrappers != []
    {
      |changed| > 0 || |changedWrappers| > 0
    }

    /** Applying would complete: see ApplyResolvable. */
    predicate ApplyCompletes()
      reads this
    {
      ApplyResolvable(store, pending, registry)
    }

    /** Resetting and saving would complete: see ResetResolvable. */
    predicate ResetAndSaveCompletes()
      reads this
    {
      ResetResolvable(store, changed, registry)
    }

    /**
     * Discards the pending values: the Changed bindings of each pending
     * setting fire with its discarded value, in the map's order, then the
     * pending map and the pending-wrapper list are emptied.
     */
    method ClearUnappliedChanges() returns (order: seq<Setting>)
      requires Valid()
      modifies this
      ensures Valid()
      ensures Enumerates(order, old(pending).Keys)
      ensures invoked == old(invoked) + BroadcastAll(bindings, order, old(pending), Changed)
      ensures pending == map[] && pendingWrappers == [] && !HasUnappliedChanges()
      ensures store == old(store) && registry == old(registry) && changed == old(changed) && bindings == old(bindings)
      ensures changedWrappers == old(changedWrappers) && files == old(files) && profileIndex == old(profileIndex)
    {
      order := Enumerate(pending.Keys);
      var calls := BroadcastEach(bindings, order, pending, Changed);
      invoked := invoked + calls;
      pending := map[];
      pendingWrappers := [];
    }

    // ---------------------------------------------------------------- apply

    /**
     * The commit half of applying: the pending values are committed in the
     * map's order (each written into the map of its setting's type, the
     * changed list updated, the setting's Commited bindings fired), then the
     * pending map and pending wrappers are emptied. ok is false at a pending
     * setting of the base class, where the process stops.
     */
    method CommitPendingChanges() returns (order: seq<Setting>, ok: bool)
      requires Valid()
      modifies this
      ensures Valid()
      ensures Enumerates(order, old(pending).Keys)
      ensures ok <==> forall s :: s in order ==> IsStoredType(ValueTypeOf(s))
      ensures ok ==>
        store == WriteAll(old(store), order, AppliedPayloads(old(pending)))
        && changed == ChangedAfter(old(changed), order, AppliedPayloads(old(pending)))
        && invoked == old(invoked) + BroadcastAll(bindings, order, old(pending), Commited)
        && pending == map[] && pendingWrappers == []
      ensures registry == old(registry) && bindings == old(bindings) && changedWrappers == old(changedWrappers)
      ensures files == old(files) && profileIndex == old(profileIndex)
    {
      order := Enumerate(pending.Keys);
      var st, ch, calls;
      ok, st, ch, calls := CommitPending(store, changed, bindings, order, pending);
      if !ok {
        return;
      }
      store, changed, invoked := st, ch, invoked + calls;
      pending := map[];
      pendingWrappers := [];
    }

    /**
     * Commits the pending values, then saves the store. A pending setting of
     * the base class, or a save that meets a key without a setting of the
     * matching class, stops the process; see ApplyResolvable.
     */
    method ApplyChanges() returns (order: seq<Setting>, status: Status)
      requires Valid()
      modifies this
      ensures Valid()
      ensures Enumerates(order, old(pending).Keys)
      ensures status == Completed <==> old(ApplyCompletes())
      ensures status == Completed ==>
        (forall s :: s in order ==> IsStoredType(ValueTypeOf(s)))
        && store == WriteAll(old(store), order, AppliedPayloads(old(pending)))
        && changed == ChangedAfter(old(changed), order, AppliedPayloads(old(pending)))
        && invoked == old(invoked) + BroadcastAll(bindings, order, old(pending), Commited)
        && pending == map[] && pendingWrappers == [] && !HasUnappliedChanges()
        && StoreResolves(store, registry)
        && exists o :: EnumeratesStore(o, store) && VisitsStore(o, store) && Serialize(store, registry, o).Ok?
             && files == old(files)[FilePath() := JsonText(Serialize(store, registry, o).value)]
      ensures registry == old(registry) && bindings == old(bindings) && changedWrappers == old(changedWrappers)
      ensures profileIndex == old(profileIndex)
    {
      ghost var store0, pending0 := store, pending;
      var ok;
      order, ok := CommitPendingChanges();
      ApplyResolves(store0, order, pending0, registry);
      if !ok {
        return order, Crashed;
      }
      status := SaveSettings();
    }

    // ---------------------------------------------------------------- reset

    /**
     * Resets to defaults: when something can be reset, each changed setting,
     * in list order, gets its default written into the store and its Reset
     * bindings fire with that default; then the pending map, the changed
     * list and both wrapper lists are emptied. A changed setting of the base
     * class stops the process.
     */
    method ResetSettings() returns (status: Status)
      requires Valid()
      modifies this
      ensures Valid()
      ensures CanResetSettings() == false && HasUnappliedChanges() == false
      ensures status == Completed <==> forall s :: s in old(changed) ==> IsStoredType(ValueTypeOf(s))
      ensures status == Completed ==>
        (forall s :: s in old(changed) ==> IsStoredType(ValueTypeOf(s)))
        && store == WriteAll(old(store), old(changed), DefaultPayloads(old(changed)))
        && invoked == old(invoked) + BroadcastAll(bindings, old(changed), DefaultValues(old(changed)), Reset)
      ensures pending == map[] && changed == [] && pendingWrappers == [] && changedWrappers == []
      ensures registry == old(registry) && bindings == old(bindings) && files == old(files) && profileIndex == old(profileIndex)
    {
      status := Completed;
      if CanResetSettings() {
        var ok, st, calls := RestoreDefaults(store, bindings, changed);
        if !ok {
          status := Crashed;
        } else {
          store, invoked := st, invoked + calls;
        }
      } else {
        assert WriteAll(store, changed, DefaultPayloads(changed)) == store;
        assert BroadcastAll(bindings, changed, DefaultValues(changed), Reset) == [];
      }
      pending := map[];
      changed := [];
      pendingWrappers := [];
      changedWrappers := [];
    }

    /** Resets, then saves. */
    method ResetSettingsAndApply() returns (status: Status)
      requires Valid()
      modifies this
      ensures Valid()
      ensures !CanResetSettings() && !HasUnappliedChanges()
      ensures registry == old(registry) && bindings == old(bindings) && profileIndex == old(profileIndex)
      ensures status == Completed <==> old(ResetAndSaveCompletes())
      ensures status == Completed <==>
        (forall s :: s in old(changed) ==> IsStoredType(ValueTypeOf(s)))
        && StoreResolves(WriteAll(old(store), old(changed), DefaultPayloads(old(changed))), registry)
      ensures status == Completed ==>
        invoked == old(invoked) + BroadcastAll(bindings, old(changed), DefaultValues(old(changed)), Reset)
      ensures status == Completed ==>
        store == WriteAll(old(store), old(changed), DefaultPayloads(old(changed)))
        && StoreResolves(store, registry)
        && exists o :: EnumeratesStore(o, store) && VisitsStore(o, store) && Serialize(store, registry, o).Ok?
             && files == old(files)[FilePath() := JsonText(Serialize(store, registry, o).value)]
    {
      ResetResolves(store, changed, registry);
      status := ResetSettings();
      if status == Crashed {
        return;
      }
      status := SaveSettings();
    }

    /**
     * Switches profile: resets, clamps the index into [1, MaxProfiles] and
     * loads that profile's file.
     */
    method SetProfile(index: int) returns (status: Status, loaded: bool)
      requires Valid()
      modifies this
      ensures Valid()
      ensures registry == old(registry) && bindings == old(bindings) && files == old(files)
      ensures status == Completed <==> forall s :: s in old(changed) ==> IsStoredType(ValueTypeOf(s))
      ensures status == Completed ==> profileIndex == Clamp(index, 1, MaxProfiles)
      ensures status == Completed ==>
        invoked == old(invoked) + BroadcastAll(bindings, old(changed), DefaultValues(old(changed)), Reset)
      ensures status == Completed ==> (loaded <==> FilePath() in files && files[FilePath()].JsonText?)
      ensures status == Completed && !loaded ==>
        store == WriteAll(old(store), old(changed), DefaultPayloads(old(changed)))
      ensures status == Completed && loaded ==>
        exists o ::
          VisitsDocument(o, files[FilePath()].doc)
          && Deserialize(files[FilePath()], WriteAll(old(store), old(changed), DefaultPayloads(old(changed))), [], registry, true, o)
             == LoadResult(true, store, changed)
      ensures !loaded ==> changed == []
      ensures !HasUnappliedChanges() && changedWrappers == []
    {
      status := ResetSettings();
      if status == Crashed {
        return status, false;
      }
      profileIndex := Clamp(index, 1, MaxProfiles);
      loaded := LoadSettings();
    }

    // ---------------------------------------------------------------- bindings

    /**
     * Binds a handler to an event of a setting: a binding of the setting's
     * value type is bound to the handler, set to fire under the editor-script
     * guard and appended. A setting of the base class stops the process.
     */
    method BindEnhancedSetting(s: Setting, e: ChangeEvent, handler: Handler) returns (status: Status, b: EventBinding)
      requires Valid()
      modifies this
      ensures Valid()
      ensures status == Completed <==> IsStoredType(ValueTypeOf(s))
      ensures status == Completed ==>
        bindings == old(bindings) + [b] && Listens(b, s, e) && b.signature == ValueTypeOf(s)
        && b.delegate.delegate == Some(ScriptDelegate(Some(handler))) && b.delegate.fireWithEditorScriptGuard
        && (IsBound(b.delegate) <==> handler.resolves)
      ensures status == Crashed ==> bindings == old(bindings)
      ensures store == old(store) && pending == old(pending) && registry == old(registry) && changed == old(changed)
      ensures changedWrappers == old(changedWrappers) && pendingWrappers == old(pendingWrappers)
      ensures files == old(files) && profileIndex == old(profileIndex) && invoked == old(invoked)
    {
      var t := ValueTypeOf(s);
      if !IsStoredType(t) {
        return Crashed, DefaultBinding;
      }
      b := NewBinding(s, e, t);
      b := b.(delegate := BindDelegate(b.delegate, handler));
      b := b.(delegate := SetShouldFireWithEditorScriptGuard(b.delegate, true));
      bindings := bindings + [b];
      assert AllTyped(bindings) by {
        assert forall i :: 0 <= i < |old(bindings)| ==> bindings[i] == old(bindings)[i];
      }
      status := Completed;
    }

    /**
     * Fires the Loaded bindings of every stored value whose id names a
     * registered setting, map by map: booleans, integers, floats, colours,
     * tags, each in its map's order.
     */
    method CallOnLoadedEvents() returns (o: Orders<Tag>)
      requires Valid()
      modifies this
      ensures Valid()
      ensures EnumeratesStore(o, store) && VisitsStore(o, store)
      ensures invoked == old(invoked)
        + LoadedCalls(bindings, registry, o.bools, store.bools, b => BoolPayload(b))
        + LoadedCalls(bindings, registry, o.ints, store.ints, i => IntPayload(i))
        + LoadedCalls(bindings, registry, o.floats, store.floats, f => FloatPayload(f))
        + LoadedCalls(bindings, registry, o.colors, store.colors, c => ColorPayload(c))
        + LoadedCalls(bindings, registry, o.tags, store.tags, t => TagPayload(t))
      ensures store == old(store) && pending == old(pending) && registry == old(registry) && changed == old(changed)
      ensures bindings == old(bindings) && changedWrappers == old(changedWrappers) && pendingWrappers == old(pendingWrappers)
      ensures files == old(files) && profileIndex == old(profileIndex)
    {
      o := StoreOrders();
      var cb := CollectLoadedCalls(bindings, registry, o.bools, store.bools, b => BoolPayload(b));
      var ci := CollectLoadedCalls(bindings, registry, o.ints, store.ints, i => IntPayload(i));
      var cf := CollectLoadedCalls(bindings, registry, o.floats, store.floats, f => FloatPayload(f));
      var cc := CollectLoadedCalls(bindings, registry, o.colors, store.colors, c => ColorPayload(c));
      var ct := CollectLoadedCalls(bindings, registry, o.tags, store.tags, t => TagPayload(t));
      invoked := invoked + cb + ci + cf + cc + ct;
    }

    // ---------------------------------------------------------------- wrappers

    method AddPendingEnhancedSettingWrapper(w: Wrapper)
      modifies this
      ensures pendingWrappers == AddUnique(old(pendingWrappers), w)
      ensures w in pendingWrappers && HasUnappliedChanges()
      ensures store == old(store) && pending == old(pending) && registry == old(registry) && changed == old(changed)
      ensures bindings == old(bindings) && changedWrappers == old(changedWrappers) && invoked == old(invoked)
      ensures files == old(files) && profileIndex == old(profileIndex)
    {
      pendingWrappers := AddUnique(pendingWrappers, w);
    }

    method RemovePendingEnhancedSettingWrapper(w: Wrapper)
      modifies this
      ensures pendingWrappers == RemoveAll(old(pendingWrappers), w) && w !in pendingWrappers
      ensures store == old(store) && pending == old(pending) && registry == old(registry) && changed == old(changed)
      ensures bindings == old(bindings) && changedWrappers == old(changedWrappers) && invoked == old(invoked)
      ensures files == old(files) && profileIndex == old(profileIndex)
    {
      pendingWrappers := RemoveAll(pendingWrappers, w);
    }

    method AddEnhancedSettingWrapperChangedSetting(w: Wrapper)
      modifies this
      ensures changedWrappers == AddUnique(old(changedWrappers), w)
      ensures w in changedWrappers && CanResetSettings()
      ensures store == old(store) && pending == old(pending) && registry == old(registry) && changed == old(changed)
      ensures bindings == old(bindings) && pendingWrappers == old(pendingWrappers) && invoked == old(invoked)
      ensures files == old(files) && profileIndex == old(profileIndex)
    {
      changedWrappers := AddUnique(changedWrappers, w);
    }

    method RemoveEnhancedSettingWrapperChangedSetting(w: Wrapper)
      modifies this
      ensures changedWrappers == RemoveAll(old(changedWrappers), w) && w !in changedWrappers
      ensures store == old(store) && pending == old(pending) && registry == old(registry) && changed == old(changed)
      ensures bindings == old(bindings) && pendingWrappers == old(pendingWrappers) && invoked == old(invoked)
      ensures files == old(files) && profileIndex == old(profileIndex)
    {
      changedWrappers := RemoveAll(changedWrappers, w);
    }

    // ---------------------------------------------------------------- save and load

    /** The container's settings file for the current profile. */
    function FilePath(): string
      reads this
      requires Valid()
    {
      SaveLoadFilePath(editorBuild, projectDir, projectUserDir, profileIndex, outerClassName, false, EmptyTag)
    }

    /** Picks the visiting order of the keys of each map of the store. */
    method StoreOrders() returns (o: Orders<Tag>)
      ensures EnumeratesStore(o, store) && VisitsStore(o, store)
    {
      var b := Enumerate(store.bools.Keys);
      var i := Enumerate(store.ints.Keys);
      var f := Enumerate(store.floats.Keys);
      var c := Enumerate(store.colors.Keys);
      var t := Enumerate(store.tags.Keys);
      o := Orders(b, i, f, c, t);
    }

    /**
     * Writes the store to the current profile's file; a key without a
     * registered setting of the matching class stops the process.
     */
    method SaveSettings() returns (status: Status)
      requires Valid()
      modifies this
      ensures Valid()
      ensures status == Completed <==> StoreResolves(store, registry)
      ensures status == Completed ==>
        exists o :: EnumeratesStore(o, store) && VisitsStore(o, store) && Serialize(store, registry, o).Ok?
          && files == old(files)[FilePath() := JsonText(Serialize(store, registry, o).value)]
      ensures status == Crashed ==> files == old(files)
      ensures store == old(store) && pending == old(pending) && registry == old(registry) && changed == old(changed)
      ensures bindings == old(bindings) && changedWrappers == old(changedWrappers) && pendingWrappers == old(pendingWrappers)
      ensures invoked == old(invoked) && profileIndex == old(profileIndex)
    {
      var o := StoreOrders();
      SerializeSucceeds(store, registry, o);
      var doc := Serialize(store, registry, o);
      if doc.Fatal? {
        return Crashed;
      }
      files := files[FilePath() := JsonText(doc.value)];
      return Completed;
    }

    /** Picks the visiting order of the keys of each block of a document. */
    static method DocumentOrders(doc: Document) returns (o: Orders<string>)
      ensures EnumeratesDocument(o, doc) && VisitsDocument(o, doc)
    {
      var b := Enumerate(BlockOf(doc, BoolBlock).Keys);
      var i := Enumerate(BlockOf(doc, IntegerBlock).Keys);
      var f := Enumerate(BlockOf(doc, FloatBlock).Keys);
      var c := Enumerate(BlockOf(doc, ColorBlock).Keys);
      var t := Enumerate(BlockOf(doc, TagBlock).Keys);
      o := Orders(b, i, f, c, t);
    }

    /**
     * Reads the current profile's file into the store as the base profile:
     * false when the file is missing or does not parse, with nothing changed;
     * otherwise every entry naming a registered setting is stored and that
     * setting appended to the changed list.
     */
    method LoadSettings() returns (loaded: bool)
      requires Valid()
      modifies this
      ensures Valid()
      ensures loaded <==> FilePath() in files && files[FilePath()].JsonText?
      ensures !loaded ==> store == old(store) && changed == old(changed)
      ensures loaded ==>
        exists o ::
          VisitsDocument(o, files[FilePath()].doc)
          && Deserialize(files[FilePath()], old(store), old(changed), registry, true, o) == LoadResult(true, store, changed)
      ensures pending == old(pending) && registry == old(registry) && bindings == old(bindings) && invoked == old(invoked)
      ensures changedWrappers == old(changedWrappers) && pendingWrappers == old(pendingWrappers)
      ensures files == old(files) && profileIndex == old(profileIndex)
    {
      var path := FilePath();
      if path !in files || files[path].Unparseable? {
        return false;
      }
      var o := DocumentOrders(files[path].doc);
      var r := Deserialize(files[path], store, changed, registry, true, o);
      assert r == LoadResult(true, r.store, r.changed);
      store := r.store;
      changed := r.changed;
      return true;
    }

    /**
     * Loads a stack's file into a fresh store and drops it: the container is
     * left as it was.
     */
    method ApplyStack(stackTag: Tag) returns (loaded: bool)
      requires Valid()
      ensures loaded <==> var path := SaveLoadFilePath(editorBuild, projectDir, projectUserDir, profileIndex, outerClassName, true, stackTag);
        path in files && files[path].JsonText?
    {
      var path := SaveLoadFilePath(editorBuild, projectDir, projectUserDir, profileIndex, outerClassName, true, stackTag);
      if path !in files || files[path].Unparseable? {
        return false;
      }
      var o := DocumentOrders(files[path].doc);
      var stackProfile := Deserialize(files[path], EmptyStore, changed, registry, false, o);
      return true;
    }

    /** Removing a stack does nothing. */
    method RemoveStack(stackTag: Tag)
    {
    }
  }
}
