/**
 * Event bindings: the unified delegate storage, binding handles, the
 * (setting, event) binding records and the typed execution that hands a
 * bound handler the payload its signature selects.
 */
module Bindings {
  import opened SettingsTypes
  import opened SettingDefinitions

  /**
   * The object and function a script delegate calls. Whether the engine can
   * resolve the pair (the object is alive and has a function of that name) is
   * engine state, recorded here as a flag.
   */
  datatype Handler = Handler(object: nat, functionName: string, resolves: bool)

  /** A script delegate, bound to a handler or unbound. */
  datatype ScriptDelegate = ScriptDelegate(target: Option<Handler>)

  /**
   * The unified delegate storage: an optional shared delegate and the flag that
   * asks for the editor-script guard when firing. Each binding owns its storage
   * by value, so its updates are modelled as value updates.
   */
  datatype UnifiedDelegate = UnifiedDelegate(delegate: Option<ScriptDelegate>, fireWithEditorScriptGuard: bool)

  const EmptyDelegate: UnifiedDelegate := UnifiedDelegate(None, false)

  /** Bound: a delegate is present and its target resolves. */
  predicate IsBound(d: UnifiedDelegate)
  {
    d.delegate.Some? && d.delegate.value.target.Some? && d.delegate.value.target.value.resolves
  }

  /** Unbinds the present delegate, if any, and keeps the guard flag. */
  function Unbind(d: UnifiedDelegate): (r: UnifiedDelegate)
    ensures !IsBound(r)
    ensures r.fireWithEditorScriptGuard == d.fireWithEditorScriptGuard
    ensures r.delegate.Some? == d.delegate.Some?
  {
    match d.delegate
    case None => d
    case Some(_) => d.(delegate := Some(ScriptDelegate(None)))
  }

  /** Unbinds, then binds a fresh script delegate to the handler. */
  function BindDelegate(d: UnifiedDelegate, h: Handler): (r: UnifiedDelegate)
    ensures IsBound(r) <==> h.resolves
    ensures r.delegate == Some(ScriptDelegate(Some(h)))
    ensures r.fireWithEditorScriptGuard == d.fireWithEditorScriptGuard
  {
    Unbind(d).(delegate := Some(ScriptDelegate(Some(h))))
  }

  function SetShouldFireWithEditorScriptGuard(d: UnifiedDelegate, fire: bool): (r: UnifiedDelegate)
    ensures r.fireWithEditorScriptGuard == fire && r.delegate == d.delegate
    ensures IsBound(r) == IsBound(d)
  {
    d.(fireWithEditorScriptGuard := fire)
  }

  /**
   * One call of a handler: the handler and the three arguments it received,
   * namely the payload, the setting id and the setting itself.
   */
  datatype Call = Call(handler: Handler, payload: Payload, id: Tag, setting: Setting)

  /** What executing the delegate with these arguments calls: nothing unless it is bound. */
  function ExecuteDelegate(d: UnifiedDelegate, payload: Payload, id: Tag, setting: Setting): (r: Option<Call>)
    ensures r.Some? <==> IsBound(d)
    ensures r.Some? ==> (r.value.payload == payload && r.value.id == id && r.value.setting == setting
                         && Some(r.value.handler) == d.delegate.value.target)
  {
    if IsBound(d) then Some(Call(d.delegate.value.target.value, payload, id, setting)) else None
  }

  // ---------------------------------------------------------------- bindings

  type UInt32 = x: int | 0 <= x < 0x1_0000_0000

  /** A setting together with a value for it, as handed to a binding. */
  datatype Instance = Instance(setting: Setting, value: SettingValue)

  /**
   * A binding of a handler to one event of one setting. The signature is the
   * value type of the handler's first parameter.
   */
  datatype EventBinding = EventBinding(
    handle: UInt32,
    setting: Option<Setting>,
    triggerEvent: ChangeEvent,
    signature: ValueType,
    delegate: UnifiedDelegate)

  /** A default-constructed binding: handle 0, no setting, event None. */
  const DefaultBinding: EventBinding := EventBinding(0, None, NoEvent, NoType, EmptyDelegate)

  function GetSetting(b: EventBinding): Option<Setting>
  {
    b.setting
  }

  function GetChangeEvent(b: EventBinding): ChangeEvent
  {
    b.triggerEvent
  }

  /** Handle equality: two bindings compare equal exactly when their handles do. */
  predicate SameHandle(a: EventBinding, b: EventBinding)
  {
    a.handle == b.handle
  }

  /**
   * The typed constructor: the setting and event it was given, a handle that
   * nothing ever assigns (so 0) and an empty delegate.
   */
  function NewBinding(s: Setting, e: ChangeEvent, signature: ValueType): (b: EventBinding)
    ensures GetSetting(b) == Some(s) && GetChangeEvent(b) == e
    ensures SameHandle(b, DefaultBinding) && b.signature == signature
    ensures !IsBound(b.delegate) && !b.delegate.fireWithEditorScriptGuard
  {
    EventBinding(0, Some(s), e, signature, EmptyDelegate)
  }

  /** The clone constructor copies handle, setting, event and delegate. */
  function Clone(b: EventBinding): (c: EventBinding)
    ensures SameHandle(c, b) && GetSetting(c) == GetSetting(b) && GetChangeEvent(c) == GetChangeEvent(b)
    ensures c.delegate == b.delegate && c.signature == b.signature
  {
    EventBinding(b.handle, b.setting, b.triggerEvent, b.signature, b.delegate)
  }

  /**
   * Handles are never assigned, so every two bindings built by the typed
   * constructor (or cloned from one) compare equal, whatever they bind.
   */
  lemma BindingsAllCompareEqual(s1: Setting, e1: ChangeEvent, t1: ValueType, s2: Setting, e2: ChangeEvent, t2: ValueType)
    ensures SameHandle(Clone(NewBinding(s1, e1, t1)), NewBinding(s2, e2, t2))
  {
  }

  /** A binding of one of the five typed signatures. */
  predicate Typed(b: EventBinding)
  {
    IsStoredType(b.signature)
  }

  /**
   * The typed Execute: the handler gets the field of the value its signature
   * selects, the id of the instance's setting and that setting.
   */
  function Execute(b: EventBinding, data: Instance): (r: Option<Call>)
    requires Typed(b)
    ensures r.Some? <==> IsBound(b.delegate)
    ensures r.Some? ==> r.value.payload == Field(data.value, b.signature) && r.value.id == data.setting.id
    ensures r.Some? ==> r.value.setting == data.setting
  {
    ExecuteDelegate(b.delegate, Field(data.value, b.signature), data.setting.id, data.setting)
  }

  /** The binding listens to this event of this setting. */
  predicate Listens(b: EventBinding, s: Setting, e: ChangeEvent)
  {
    b.setting == Some(s) && b.triggerEvent == e
  }

  predicate AllTyped(bs: seq<EventBinding>)
  {
    forall i :: 0 <= i < |bs| ==> Typed(bs[i])
  }

  /** The call one binding makes when an event of a setting is broadcast. */
  function FireOne(b: EventBinding, s: Setting, e: ChangeEvent, v: SettingValue): seq<Call>
    requires Typed(b)
  {
    if Listens(b, s, e) then
      match Execute(b, Instance(s, v))
      case Some(c) => [c]
      case None => []
    else []
  }

  /**
   * The calls made when an event of a setting is broadcast to the bindings, in
   * binding order: one per binding that listens to it and is bound.
   */
  function Fires(bs: seq<EventBinding>, s: Setting, e: ChangeEvent, v: SettingValue): seq<Call>
    requires AllTyped(bs)
  {
    if bs == [] then [] else Fires(bs[..|bs| - 1], s, e, v) + FireOne(bs[|bs| - 1], s, e, v)
  }

  /**
   * A broadcast calls exactly the bound bindings that listen to the event of
   * the setting, each with the field its signature selects and the setting's id.
   */
  lemma {:induction false} FiresExactly(bs: seq<EventBinding>, s: Setting, e: ChangeEvent, v: SettingValue, c: Call)
    requires AllTyped(bs)
    ensures c in Fires(bs, s, e, v) <==>
      exists i :: 0 <= i < |bs| && Listens(bs[i], s, e) && IsBound(bs[i].delegate)
        && c == Call(bs[i].delegate.delegate.value.target.value, Field(v, bs[i].signature), s.id, s)
  {
    if bs != [] {
      var init := bs[..|bs| - 1];
      assert AllTyped(init);
      FiresExactly(init, s, e, v, c);
      if c in Fires(bs, s, e, v) && c !in Fires(init, s, e, v) {
        assert c in FireOne(bs[|bs| - 1], s, e, v);
        assert Listens(bs[|bs| - 1], s, e) && IsBound(bs[|bs| - 1].delegate);
      }
      if exists i :: (0 <= i < |bs| && Listens(bs[i], s, e) && IsBound(bs[i].delegate)
                      && c == Call(bs[i].delegate.delegate.value.target.value, Field(v, bs[i].signature), s.id, s))
      {
        var i :| 0 <= i < |bs| && Listens(bs[i], s, e) && IsBound(bs[i].delegate)
          && c == Call(bs[i].delegate.delegate.value.target.value, Field(v, bs[i].signature), s.id, s);
        if i == |bs| - 1 {
          assert FireOne(bs[i], s, e, v) == [c];
        } else {
          assert init[i] == bs[i];
        }
      }
    }
  }

  /**
   * Every call of a broadcast carries the setting and its id; no listening
   * binding means no call.
   */
  lemma {:induction false} FiresCarrySettingId(bs: seq<EventBinding>, s: Setting, e: ChangeEvent, v: SettingValue)
    requires AllTyped(bs)
    ensures forall c :: c in Fires(bs, s, e, v) ==> c.id == s.id && c.setting == s
    ensures (forall i :: 0 <= i < |bs| ==> !Listens(bs[i], s, e)) ==> Fires(bs, s, e, v) == []
    ensures |Fires(bs, s, e, v)| <= |bs|
  {
    if bs != [] {
      var init := bs[..|bs| - 1];
      assert AllTyped(init);
      FiresCarrySettingId(init, s, e, v);
    }
  }

  /**
   * Adding the binding of an unbound delegate or of another setting or event
   * does not change what a broadcast calls.
   */
  lemma FiresIgnoresOtherBindings(bs: seq<EventBinding>, b: EventBinding, s: Setting, e: ChangeEvent, v: SettingValue)
    requires AllTyped(bs) && Typed(b)
    requires !Listens(b, s, e) || !IsBound(b.delegate)
    ensures AllTyped(bs + [b]) && Fires(bs + [b], s, e, v) == Fires(bs, s, e, v)
  {
    assert (bs + [b])[..|bs + [b]| - 1] == bs;
  }
}
