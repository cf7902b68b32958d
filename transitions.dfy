/**
 * What the container's batch operations do, stated on values: writing a
 * payload per setting into the store, the changed-from-default list after
 * applying pending values, and the handler calls of broadcasting one event
 * per setting. The container's methods are proved to compute these.
 */
module Transitions {
  import opened SettingsTypes
  import opened SettingDefinitions
  import opened Lists
  import opened Bindings
  import opened Codec

  // ---------------------------------------------------------------- store writes

  /** Writes, for each setting in order, its payload under its id; a later write of the same key wins. */
  function WriteAll(st: ValueStore, order: seq<Setting>, payloads: map<Setting, Payload>): ValueStore
    requires forall s :: s in order ==> s in payloads
  {
    if order == [] then st
    else
      var last := order[|order| - 1];
      Write(WriteAll(st, order[..|order| - 1], payloads), last.id, payloads[last])
  }

  /** Writing one more setting's payload extends the fold. */
  lemma WriteAllSnoc(st: ValueStore, order: seq<Setting>, s: Setting, payloads: map<Setting, Payload>)
    requires forall x :: x in order + [s] ==> x in payloads
    ensures WriteAll(st, order + [s], payloads) == Write(WriteAll(st, order, payloads), s.id, payloads[s])
  {
    assert (order + [s])[..|order|] == order;
  }

  /**
   * A key no setting in order writes keeps its entry; a key that settings in
   * order write, all with the same payload, holds that payload.
   */
  lemma {:induction false} WriteAllLookup(st: ValueStore, order: seq<Setting>, payloads: map<Setting, Payload>, t: ValueType, k: Tag)
    requires forall s :: s in order ==> s in payloads
    requires IsStoredType(t)
    ensures (forall s :: s in order ==> TypeOf(payloads[s]) != t || s.id != k) ==>
      Lookup(WriteAll(st, order, payloads), t, k) == Lookup(st, t, k)
    ensures forall s :: (s in order && TypeOf(payloads[s]) == t && s.id == k
                         && forall s' :: s' in order && TypeOf(payloads[s']) == t && s'.id == k ==> payloads[s'] == payloads[s]) ==>
      Lookup(WriteAll(st, order, payloads), t, k) == Some(payloads[s])
  {
    if order != [] {
      var init := order[..|order| - 1];
      var last := order[|order| - 1];
      assert forall s :: s in order <==> s in init || s == last;
      WriteAllLookup(st, init, payloads, t, k);
    }
  }

  /**
   * The store after the writes can be saved exactly when the store before
   * could and every written key resolves in the map its payload goes to.
   */
  lemma {:induction false} WriteAllResolves(st: ValueStore, order: seq<Setting>, payloads: map<Setting, Payload>, registry: seq<Setting>)
    requires forall s :: s in order ==> s in payloads
    ensures StoreResolves(WriteAll(st, order, payloads), registry) <==>
      StoreResolves(st, registry) && forall s :: s in order ==> KeyResolves(registry, TypeOf(payloads[s]), s.id)
  {
    if order != [] {
      var init := order[..|order| - 1];
      var last := order[|order| - 1];
      assert forall s :: s in order <==> s in init || s == last;
      WriteAllResolves(st, init, payloads, registry);
      WriteResolves(WriteAll(st, init, payloads), last.id, payloads[last], registry);
    }
  }

  /**
   * Pending values can be applied and the result saved: every pending
   * setting has a map and its id resolves there, and every stored key
   * resolves.
   */
  predicate ApplyResolvable(st: ValueStore, pending: map<Setting, SettingValue>, registry: seq<Setting>)
  {
    (forall s :: s in pending ==> IsStoredType(ValueTypeOf(s)) && KeyResolves(registry, ValueTypeOf(s), s.id))
    && StoreResolves(st, registry)
  }

  /**
   * A changed list can be reset and the result saved: every listed setting
   * has a map and its id resolves there, and every stored key resolves.
   */
  predicate ResetResolvable(st: ValueStore, changed: seq<Setting>, registry: seq<Setting>)
  {
    (forall s :: s in changed ==> IsStoredType(ValueTypeOf(s)) && KeyResolves(registry, ValueTypeOf(s), s.id))
    && StoreResolves(st, registry)
  }

  /**
   * Applying pending values in any order of their keys, then saving, goes
   * through exactly when they are resolvable: a setting without a map stops
   * the apply, and otherwise the store left can be saved exactly then.
   */
  lemma ApplyResolves(st: ValueStore, order: seq<Setting>, pending: map<Setting, SettingValue>, registry: seq<Setting>)
    requires Enumerates(order, pending.Keys)
    ensures !(forall s :: s in order ==> IsStoredType(ValueTypeOf(s))) ==> !ApplyResolvable(st, pending, registry)
    ensures (forall s :: s in order ==> IsStoredType(ValueTypeOf(s))) ==>
      (forall s :: s in order ==> s in AppliedPayloads(pending))
      && (StoreResolves(WriteAll(st, order, AppliedPayloads(pending)), registry) <==> ApplyResolvable(st, pending, registry))
  {
    if forall s :: s in order ==> IsStoredType(ValueTypeOf(s)) {
      WriteAllResolves(st, order, AppliedPayloads(pending), registry);
    }
  }

  /**
   * Resetting a changed list, then saving, goes through exactly when it is
   * resolvable.
   */
  lemma ResetResolves(st: ValueStore, changed: seq<Setting>, registry: seq<Setting>)
    ensures !(forall s :: s in changed ==> IsStoredType(ValueTypeOf(s))) ==> !ResetResolvable(st, changed, registry)
    ensures (forall s :: s in changed ==> IsStoredType(ValueTypeOf(s))) ==>
      (forall s :: s in changed ==> s in DefaultPayloads(changed))
      && (StoreResolves(WriteAll(st, changed, DefaultPayloads(changed)), registry) <==> ResetResolvable(st, changed, registry))
  {
    if forall s :: s in changed ==> IsStoredType(ValueTypeOf(s)) {
      WriteAllResolves(st, changed, DefaultPayloads(changed), registry);
    }
  }

  /** The payload applying a pending value writes: the field the setting's own type selects. */
  function AppliedPayloads(pending: map<Setting, SettingValue>): (r: map<Setting, Payload>)
    ensures forall s :: s in r <==> s in pending && IsStoredType(ValueTypeOf(s))
    ensures forall s :: s in r ==> TypeOf(r[s]) == ValueTypeOf(s)
  {
    map s | s in pending && IsStoredType(ValueTypeOf(s)) :: Field(pending[s], ValueTypeOf(s))
  }

  /** The default payload of each listed setting of a stored type. */
  function DefaultPayloads(settings: seq<Setting>): (r: map<Setting, Payload>)
    ensures forall s :: s in r <==> s in settings && IsStoredType(ValueTypeOf(s))
    ensures forall s :: s in r ==> r[s] == DefaultOf(s)
  {
    map s | s in settings && IsStoredType(ValueTypeOf(s)) :: DefaultOf(s)
  }

  /** The default of each listed setting of a stored type, as a whole setting value. */
  function DefaultValues(settings: seq<Setting>): (r: map<Setting, SettingValue>)
    ensures forall s :: s in r <==> s in settings && IsStoredType(ValueTypeOf(s))
    ensures forall s :: s in r ==> r[s] == FromPayload(DefaultOf(s))
  {
    map s | s in settings && IsStoredType(ValueTypeOf(s)) :: FromPayload(DefaultOf(s))
  }

  /**
   * Applying pending values in an order writes each setting's pending field
   * into the map of its type, unless another applied setting of the same
   * type shares its id.
   */
  lemma ApplyWritesPending(st: ValueStore, order: seq<Setting>, pending: map<Setting, SettingValue>, s: Setting)
    requires forall x :: x in order ==> x in pending && IsStoredType(ValueTypeOf(x))
    requires s in order
    requires forall x :: x in order && ValueTypeOf(x) == ValueTypeOf(s) && x.id == s.id ==> x == s
    ensures Lookup(WriteAll(st, order, AppliedPayloads(pending)), ValueTypeOf(s), s.id) == Some(Field(pending[s], ValueTypeOf(s)))
  {
    WriteAllLookup(st, order, AppliedPayloads(pending), ValueTypeOf(s), s.id);
  }

  /**
   * Resetting a changed list writes each setting's default into the map of
   * its type, unless another listed setting of the same type shares its id.
   */
  lemma ResetWritesDefault(st: ValueStore, changed: seq<Setting>, s: Setting)
    requires forall x :: x in changed ==> IsStoredType(ValueTypeOf(x))
    requires s in changed
    requires forall x :: x in changed && ValueTypeOf(x) == ValueTypeOf(s) && x.id == s.id ==> x == s
    ensures Lookup(WriteAll(st, changed, DefaultPayloads(changed)), ValueTypeOf(s), s.id) == Some(DefaultOf(s))
  {
    WriteAllLookup(st, changed, DefaultPayloads(changed), ValueTypeOf(s), s.id);
  }

  // ---------------------------------------------------------------- changed list

  /**
   * The changed-from-default list after applying the settings in order: each
   * is removed (every occurrence) when its applied payload is its default,
   * and otherwise added unless already present.
   */
  function ChangedAfter(changed: seq<Setting>, order: seq<Setting>, applied: map<Setting, Payload>): seq<Setting>
    requires forall s :: s in order ==> s in applied && IsStoredType(ValueTypeOf(s))
  {
    if order == [] then changed
    else
      var last := order[|order| - 1];
      var rest := ChangedAfter(changed, order[..|order| - 1], applied);
      if applied[last] == DefaultOf(last) then RemoveAll(rest, last) else AddUnique(rest, last)
  }

  /** Applying one more setting extends the fold. */
  lemma ChangedAfterSnoc(changed: seq<Setting>, order: seq<Setting>, s: Setting, applied: map<Setting, Payload>)
    requires forall x :: x in order + [s] ==> x in applied && IsStoredType(ValueTypeOf(x))
    ensures ChangedAfter(changed, order + [s], applied)
         == if applied[s] == DefaultOf(s) then RemoveAll(ChangedAfter(changed, order, applied), s)
            else AddUnique(ChangedAfter(changed, order, applied), s)
  {
    assert (order + [s])[..|order|] == order;
  }

  /**
   * After applying, an applied setting is in the changed list exactly when
   * its payload differs from its default, and then as often as before, or
   * once when it was absent; every other setting keeps its count.
   */
  lemma {:induction false} ChangedAfterMeaning(changed: seq<Setting>, order: seq<Setting>, applied: map<Setting, Payload>, x: Setting)
    requires forall s :: s in order ==> s in applied && IsStoredType(ValueTypeOf(s))
    ensures x in order ==> (x in ChangedAfter(changed, order, applied) <==> applied[x] != DefaultOf(x))
    ensures x in order && applied[x] != DefaultOf(x) ==>
      multiset(ChangedAfter(changed, order, applied))[x] == if multiset(changed)[x] == 0 then 1 else multiset(changed)[x]
    ensures x !in order ==> multiset(ChangedAfter(changed, order, applied))[x] == multiset(changed)[x]
  {
    if order != [] {
      var init := order[..|order| - 1];
      var last := order[|order| - 1];
      assert forall s :: s in order <==> s in init || s == last;
      ChangedAfterMeaning(changed, init, applied, x);
      var rest := ChangedAfter(changed, init, applied);
      if x != last {
        assert multiset(ChangedAfter(changed, order, applied))[x] == multiset(rest)[x];
      }
    }
  }

  // ---------------------------------------------------------------- broadcasts

  /** The handler calls of broadcasting one event for each setting in order, with its value in the map. */
  function BroadcastAll(bs: seq<EventBinding>, order: seq<Setting>, values: map<Setting, SettingValue>, e: ChangeEvent): seq<Call>
    requires AllTyped(bs)
    requires forall s :: s in order ==> s in values
  {
    if order == [] then []
    else
      var last := order[|order| - 1];
      BroadcastAll(bs, order[..|order| - 1], values, e) + Fires(bs, last, e, values[last])
  }

  /** Broadcasting for one more setting appends its calls. */
  lemma BroadcastAllSnoc(bs: seq<EventBinding>, order: seq<Setting>, s: Setting, values: map<Setting, SettingValue>, e: ChangeEvent)
    requires AllTyped(bs)
    requires forall x :: x in order + [s] ==> x in values
    ensures BroadcastAll(bs, order + [s], values, e) == BroadcastAll(bs, order, values, e) + Fires(bs, s, e, values[s])
  {
    assert (order + [s])[..|order|] == order;
  }

  /**
   * A call belongs to the broadcast exactly when a bound binding listening to
   * the event of one of the settings makes it: its handler, the field of the
   * setting's value its signature selects, the setting's id and the setting.
   */
  lemma {:induction false} BroadcastAllExactly(bs: seq<EventBinding>, order: seq<Setting>, values: map<Setting, SettingValue>,
                                               e: ChangeEvent, c: Call)
    requires AllTyped(bs)
    requires forall s :: s in order ==> s in values
    ensures c in BroadcastAll(bs, order, values, e) <==>
      exists s, i :: s in order && 0 <= i < |bs| && Listens(bs[i], s, e) && IsBound(bs[i].delegate)
        && c == Call(bs[i].delegate.delegate.value.target.value, Field(values[s], bs[i].signature), s.id, s)
  {
    if order != [] {
      var init := order[..|order| - 1];
      var last := order[|order| - 1];
      assert forall s :: s in order <==> s in init || s == last;
      BroadcastAllExactly(bs, init, values, e, c);
      FiresExactly(bs, last, e, values[last], c);
    }
  }

  /** A broadcast makes no call for an event no binding listens to. */
  lemma {:induction false} BroadcastAllSilent(bs: seq<EventBinding>, order: seq<Setting>, values: map<Setting, SettingValue>, e: ChangeEvent)
    requires AllTyped(bs)
    requires forall s :: s in order ==> s in values
    requires forall i :: 0 <= i < |bs| ==> bs[i].triggerEvent != e
    ensures BroadcastAll(bs, order, values, e) == []
  {
    if order != [] {
      var last := order[|order| - 1];
      BroadcastAllSilent(bs, order[..|order| - 1], values, e);
      FiresCarrySettingId(bs, last, e, values[last]);
    }
  }

  // ---------------------------------------------------------------- loaded events

  /**
   * The handler calls of the Loaded broadcast over one map of the store: for
   * each key in order that names a registered setting, the Loaded bindings of
   * that setting get the stored value.
   */
  function LoadedCalls<T>(bs: seq<EventBinding>, registry: seq<Setting>, order: seq<Tag>, values: map<Tag, T>,
                          wrap: T -> Payload): seq<Call>
    requires AllTyped(bs)
    requires forall k :: k in order ==> k in values
  {
    if order == [] then []
    else
      var k := order[|order| - 1];
      var rest := LoadedCalls(bs, registry, order[..|order| - 1], values, wrap);
      match FindById(registry, k)
      case None => rest
      case Some(s) => rest + Fires(bs, s, Loaded, FromPayload(wrap(values[k])))
  }

  /**
   * A Loaded call is made exactly for a stored key whose id names a
   * registered setting, by a bound Loaded binding of that setting, with the
   * stored value.
   */
  lemma {:induction false} LoadedCallsExactly<T>(bs: seq<EventBinding>, registry: seq<Setting>, order: seq<Tag>,
                                                 values: map<Tag, T>, wrap: T -> Payload, c: Call)
    requires AllTyped(bs)
    requires forall k :: k in order ==> k in values
    ensures c in LoadedCalls(bs, registry, order, values, wrap) <==>
      exists k :: k in order && FindById(registry, k).Some?
        && c in Fires(bs, FindById(registry, k).value, Loaded, FromPayload(wrap(values[k])))
  {
    if order != [] {
      var init := order[..|order| - 1];
      var last := order[|order| - 1];
      assert forall k :: k in order <==> k in init || k == last;
      LoadedCallsExactly(bs, registry, init, values, wrap, c);
    }
  }
}
