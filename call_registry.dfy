/** The Android call registry: per call id, a state under `<id>_state` and the
    call's data as JSON under `<id>_data`; the id of the latest shown call
    under `last_call_id`; and the background callback handles under five
    fixed keys. An Android `Context` is modelled by what the registry uses it
    for, the plugin's preferences file; `null` is a context that is not there
    (the plugin detached from its engine), on which every read returns its
    fallback and every write does nothing. */
module CallRegistry {

  import opened Values
  import opened SharedPrefs
  import opened AndroidConstants
  import opened AndroidPlatform
  import Decimal

  function StateKey(callId: string): string { callId + "_state" }

  function DataKey(callId: string): string { callId + "_data" }

  const LAST_CALL_ID_KEY := "last_call_id"

  const BACKGROUND_CALLBACK_KEY := "background_callback"
  const BACKGROUND_ACCEPT_KEY := "background_callback_accept"
  const BACKGROUND_REJECT_KEY := "background_callback_reject"
  const BACKGROUND_INCOMING_KEY := "background_callback_incoming_call"
  const BACKGROUND_TAP_KEY := "background_callback_tap_call"

  const HandlerKeys: set<string> :=
    {BACKGROUND_CALLBACK_KEY, BACKGROUND_ACCEPT_KEY, BACKGROUND_REJECT_KEY,
     BACKGROUND_INCOMING_KEY, BACKGROUND_TAP_KEY}

  predicate IsDataKey(key: string) { |key| >= 5 && key[|key| - 5..] == "_data" }

  /** The key families never collide: a state key ends in `e`, a data key in
      `_data`, `last_call_id` in `d` and the handler keys in `k`, `t` or `l`. */
  lemma KeyShapes(callId: string)
    ensures IsDataKey(DataKey(callId)) && !IsDataKey(StateKey(callId))
    ensures StateKey(callId) !in HandlerKeys && DataKey(callId) !in HandlerKeys
    ensures StateKey(callId) != LAST_CALL_ID_KEY && DataKey(callId) != LAST_CALL_ID_KEY
    ensures !IsDataKey(LAST_CALL_ID_KEY) && LAST_CALL_ID_KEY !in HandlerKeys
    ensures forall k :: k in HandlerKeys ==> !IsDataKey(k)
  {
    var s := StateKey(callId);
    var d := DataKey(callId);
    assert s[|s| - 1] == 'e';
    assert d[|d| - 5..] == "_data";
    assert s[|s| - 5..] == "state";
  }

  /** Distinct call ids use distinct keys. */
  lemma KeysInjective(a: string, b: string)
    ensures StateKey(a) == StateKey(b) ==> a == b
    ensures DataKey(a) == DataKey(b) ==> a == b
    ensures StateKey(a) != DataKey(b)
  {
    if StateKey(a) == StateKey(b) {
      assert a == StateKey(a)[..|a|];
      assert b == StateKey(b)[..|b|];
    }
    if DataKey(a) == DataKey(b) {
      assert a == DataKey(a)[..|a|];
      assert b == DataKey(b)[..|b|];
    }
    var s := StateKey(a);
    var d := DataKey(b);
    assert s[|s| - 1] == 'e' && d[|d| - 1] == 'a';
  }

  /** The value kinds the registry writes under each kind of key. */
  predicate Admissible(key: string, v: Value)
  {
    if key in HandlerKeys then v.Long?
    else if IsDataKey(key) then v.Str? && v.text.JsonObject?
    else v.Str? && v.text.Plain?
  }

  /** The store invariant: no reader of the registry meets a value of a type
      it does not expect, so none throws ClassCastException. */
  predicate Typed(store: Store)
  {
    forall key :: key in store ==> Admissible(key, store[key])
  }

  /** `getMapFromJsonString(mapToJsonString(data))`: JSON keeps strings, and
      the reader turns numbers, booleans and null back into their text. */
  function JsonRoundTrip(f: Field): string
  {
    match f
    case FStr(s) => s
    case FInt(i) => Decimal.IntToString(i as int)
    case FLong(l) => Decimal.IntToString(l as int)
    case FBool(b) => if b then "true" else "false"
    case FNull => "null"
  }

  function StoredCallData(data: CallData): (m: map<string, string>)
    ensures m.Keys == data.Keys
    ensures forall k :: k in data ==> m[k] == JsonRoundTrip(data[k])
  {
    map k | k in data :: JsonRoundTrip(data[k])
  }

  // ---- reads, on the store ----

  /** `getCallState`: the stored state, or `unknown` when none or empty. */
  function CallStateIn(store: Store, callId: string): (state: string)
    ensures state != ""
    ensures StateKey(callId) !in store ==> state == CALL_STATE_UNKNOWN
    ensures StateKey(callId) in store && store[StateKey(callId)].Str? &&
            store[StateKey(callId)].text.Plain? && store[StateKey(callId)].text.chars != "" ==>
              state == store[StateKey(callId)].text.chars
    ensures state != CALL_STATE_UNKNOWN ==>
              StateKey(callId) in store && store[StateKey(callId)] == Str(Plain(state))
  {
    match StringAt(store, StateKey(callId))
    case Got(Plain(s)) => if s == "" then CALL_STATE_UNKNOWN else s
    case _ => CALL_STATE_UNKNOWN
  }

  /** `getCallData`: the stored data read back from JSON, or null. */
  function CallDataIn(store: Store, callId: string): (data: Option<map<string, string>>)
    ensures data.Some? <==>
              DataKey(callId) in store && store[DataKey(callId)].Str? && store[DataKey(callId)].text.JsonObject?
    ensures data.Some? ==> data.value == StoredCallData(store[DataKey(callId)].text.fields)
  {
    match StringAt(store, DataKey(callId))
    case Got(JsonObject(data)) => Some(StoredCallData(data))
    case _ => None
  }

  /** `getLastCallId` on a present context: `""` when none was saved. */
  function LastCallIdIn(store: Store): (id: string)
    ensures LAST_CALL_ID_KEY !in store ==> id == ""
    ensures LAST_CALL_ID_KEY in store && store[LAST_CALL_ID_KEY].Str? && store[LAST_CALL_ID_KEY].text.Plain? ==>
              id == store[LAST_CALL_ID_KEY].text.chars
  {
    match StringAt(store, LAST_CALL_ID_KEY)
    case Got(Plain(s)) => s
    case _ => ""
  }

  /** A background handler getter on a present context: the saved handle,
      or `-1` when none was saved. */
  function HandlerIn(store: Store, key: string): (handle: int64)
    ensures key !in store ==> handle == -1
    ensures key in store && store[key].Long? ==> handle == store[key].l
  {
    match LongAt(store, key)
    case Got(l) => l
    case _ => DefaultLong
  }

  /** Under the invariant every registry read gets a value of its own type. */
  lemma TypedReadsSucceed(store: Store, callId: string, key: string)
    requires Typed(store)
    requires key in HandlerKeys
    ensures StringAt(store, StateKey(callId)).Got? && StringAt(store, StateKey(callId)).value.Plain?
    ensures StringAt(store, DataKey(callId)).Got?
    ensures DataKey(callId) in store ==> StringAt(store, DataKey(callId)).value.JsonObject?
    ensures StringAt(store, LAST_CALL_ID_KEY).Got? && StringAt(store, LAST_CALL_ID_KEY).value.Plain?
    ensures LongAt(store, key).Got?
  {
    KeyShapes(callId);
  }

  // ---- writes, on the store ----

  function WithCallState(store: Store, callId: string, state: string): Store
  {
    store[StateKey(callId) := Str(Plain(state))]
  }

  function WithCallData(store: Store, callId: string, data: CallData): Store
  {
    store[DataKey(callId) := Str(JsonObject(data))]
  }

  function WithLastCallId(store: Store, callId: string): Store
  {
    store[LAST_CALL_ID_KEY := Str(Plain(callId))]
  }

  function WithoutCall(store: Store, callId: string): Store
  {
    store - {StateKey(callId), DataKey(callId)}
  }

  function WithHandler(store: Store, key: string, handle: int64): Store
  {
    store[key := Long(handle)]
  }

  /** What a shown incoming call leaves behind: state `pending`, its data,
      and its id as the last call id. */
  function Invited(store: Store, callId: string, data: CallData): Store
  {
    WithLastCallId(WithCallData(WithCallState(store, callId, CALL_STATE_PENDING), callId, data), callId)
  }

  /** Everything the registry says about call `other`: its state and its data. */
  predicate SameCall(a: Store, b: Store, other: string)
  {
    CallStateIn(a, other) == CallStateIn(b, other) && CallDataIn(a, other) == CallDataIn(b, other)
  }

  predicate SameHandlers(a: Store, b: Store)
  {
    forall key :: key in HandlerKeys ==> HandlerIn(a, key) == HandlerIn(b, key)
  }

  /** A write to one key leaves the reads of every other key as they were. */
  lemma WriteElsewhere(store: Store, key: string, v: Value, k: string)
    requires k != key
    ensures StringAt(store[key := v], k) == StringAt(store, k)
    ensures LongAt(store[key := v], k) == LongAt(store, k)
  {
  }

  /** Removing some keys leaves the reads of every other key as they were. */
  lemma RemoveElsewhere(store: Store, keys: set<string>, k: string)
    requires k !in keys
    ensures StringAt(store - keys, k) == StringAt(store, k)
    ensures LongAt(store - keys, k) == LongAt(store, k)
  {
  }

  /** A write to a key outside the handler keys leaves every handler as it was. */
  lemma WriteKeepsHandlers(store: Store, key: string, v: Value)
    requires key !in HandlerKeys
    ensures SameHandlers(store[key := v], store)
  {
    forall k | k in HandlerKeys
      ensures HandlerIn(store[key := v], k) == HandlerIn(store, k)
    {
      WriteElsewhere(store, key, v, k);
    }
  }

  /** saveCallState keeps every key holding the type its readers expect. */
  lemma CallStateTyped(store: Store, callId: string, state: string)
    ensures Typed(store) ==> Typed(WithCallState(store, callId, state))
  {
    KeyShapes(callId);
  }

  /** saveCallState: the state reads back (empty reads as `unknown`); data,
      last call id, handlers and every other call are untouched. */
  lemma CallStateWrite(store: Store, callId: string, state: string, other: string)
    ensures Typed(store) ==> Typed(WithCallState(store, callId, state))
    ensures CallStateIn(WithCallState(store, callId, state), callId) ==
            if state == "" then CALL_STATE_UNKNOWN else state
    ensures CallDataIn(WithCallState(store, callId, state), other) == CallDataIn(store, other)
    ensures other != callId ==> SameCall(WithCallState(store, callId, state), store, other)
    ensures LastCallIdIn(WithCallState(store, callId, state)) == LastCallIdIn(store)
    ensures SameHandlers(WithCallState(store, callId, state), store)
  {
    var v := Str(Plain(state));
    CallStateTyped(store, callId, state);
    KeyShapes(callId);
    KeysInjective(callId, other);
    KeysInjective(other, callId);
    WriteElsewhere(store, StateKey(callId), v, DataKey(other));
    WriteElsewhere(store, StateKey(callId), v, LAST_CALL_ID_KEY);
    if other != callId {
      WriteElsewhere(store, StateKey(callId), v, StateKey(other));
    }
    WriteKeepsHandlers(store, StateKey(callId), v);
  }

  /** saveCallData keeps the store typed: the data key holds a JSON object. */
  lemma CallDataTyped(store: Store, callId: string, data: CallData)
    ensures Typed(store) ==> Typed(WithCallData(store, callId, data))
  {
    KeyShapes(callId);
  }

  /** saveCallData: the data reads back through JSON; states and every other
      call's data are untouched. */
  lemma CallDataWrite(store: Store, callId: string, data: CallData, other: string)
    ensures Typed(store) ==> Typed(WithCallData(store, callId, data))
    ensures CallDataIn(WithCallData(store, callId, data), callId) == Some(StoredCallData(data))
    ensures CallStateIn(WithCallData(store, callId, data), other) == CallStateIn(store, other)
    ensures other != callId ==> SameCall(WithCallData(store, callId, data), store, other)
    ensures LastCallIdIn(WithCallData(store, callId, data)) == LastCallIdIn(store)
    ensures SameHandlers(WithCallData(store, callId, data), store)
  {
    var v := Str(JsonObject(data));
    assert StringAt(WithCallData(store, callId, data), DataKey(callId)) == Got(JsonObject(data));
    CallDataTyped(store, callId, data);
    KeyShapes(callId);
    KeysInjective(other, callId);
    KeysInjective(callId, other);
    WriteElsewhere(store, DataKey(callId), v, StateKey(other));
    WriteElsewhere(store, DataKey(callId), v, LAST_CALL_ID_KEY);
    if other != callId {
      WriteElsewhere(store, DataKey(callId), v, DataKey(other));
    }
    WriteKeepsHandlers(store, DataKey(callId), v);
  }

  /** saveCallId: only the last call id changes. */
  lemma LastCallIdWrite(store: Store, callId: string, other: string)
    ensures Typed(store) ==> Typed(WithLastCallId(store, callId))
    ensures LastCallIdIn(WithLastCallId(store, callId)) == callId
    ensures SameCall(WithLastCallId(store, callId), store, other)
    ensures SameHandlers(WithLastCallId(store, callId), store)
  {
    var v := Str(Plain(callId));
    KeyShapes(other);
    WriteElsewhere(store, LAST_CALL_ID_KEY, v, StateKey(other));
    WriteElsewhere(store, LAST_CALL_ID_KEY, v, DataKey(other));
    WriteKeepsHandlers(store, LAST_CALL_ID_KEY, v);
  }

  /** clearCallData keeps the store typed. */
  lemma ClearTyped(store: Store, callId: string)
    ensures Typed(store) ==> Typed(WithoutCall(store, callId))
  {
  }

  /** clearCallData: the call reads as `unknown` with no data, as if never
      seen; the last call id and every other call are untouched. */
  lemma ClearCall(store: Store, callId: string, other: string)
    ensures Typed(store) ==> Typed(WithoutCall(store, callId))
    ensures CallStateIn(WithoutCall(store, callId), callId) == CALL_STATE_UNKNOWN
    ensures CallDataIn(WithoutCall(store, callId), callId).None?
    ensures other != callId ==> SameCall(WithoutCall(store, callId), store, other)
    ensures LastCallIdIn(WithoutCall(store, callId)) == LastCallIdIn(store)
    ensures SameHandlers(WithoutCall(store, callId), store)
  {
    var gone := {StateKey(callId), DataKey(callId)};
    assert StateKey(callId) !in WithoutCall(store, callId) && DataKey(callId) !in WithoutCall(store, callId);
    ClearTyped(store, callId);
    KeyShapes(callId);
    KeysInjective(callId, other);
    KeysInjective(other, callId);
    RemoveElsewhere(store, gone, LAST_CALL_ID_KEY);
    if other != callId {
      RemoveElsewhere(store, gone, StateKey(other));
      RemoveElsewhere(store, gone, DataKey(other));
    }
    forall k | k in HandlerKeys
      ensures HandlerIn(WithoutCall(store, callId), k) == HandlerIn(store, k)
    {
      RemoveElsewhere(store, gone, k);
    }
  }

  /** save*Handler: the handle reads back; nothing else changes. */
  lemma HandlerWrite(store: Store, key: string, handle: int64, other: string, callId: string)
    requires key in HandlerKeys
    ensures Typed(store) ==> Typed(WithHandler(store, key, handle))
    ensures HandlerIn(WithHandler(store, key, handle), key) == handle
    ensures other in HandlerKeys && other != key ==>
      HandlerIn(WithHandler(store, key, handle), other) == HandlerIn(store, other)
    ensures SameCall(WithHandler(store, key, handle), store, callId)
    ensures LastCallIdIn(WithHandler(store, key, handle)) == LastCallIdIn(store)
  {
    var v := Long(handle);
    KeyShapes(callId);
    WriteElsewhere(store, key, v, StateKey(callId));
    WriteElsewhere(store, key, v, DataKey(callId));
    WriteElsewhere(store, key, v, LAST_CALL_ID_KEY);
    if other != key {
      WriteElsewhere(store, key, v, other);
    }
  }

  /** Recording an invite keeps the store typed. */
  lemma InviteTyped(store: Store, callId: string, data: CallData)
    ensures Typed(store) ==> Typed(Invited(store, callId, data))
  {
    var s1 := WithCallState(store, callId, CALL_STATE_PENDING);
    CallStateTyped(store, callId, CALL_STATE_PENDING);
    CallDataTyped(s1, callId, data);
    LastCallIdWrite(WithCallData(s1, callId, data), callId, callId);
  }

  /** A recorded invite reads as pending. */
  lemma InvitedPending(store: Store, callId: string, data: CallData)
    ensures CallStateIn(Invited(store, callId, data), callId) == CALL_STATE_PENDING
  {
    var s1 := WithCallState(store, callId, CALL_STATE_PENDING);
    var s2 := WithCallData(s1, callId, data);
    KeyShapes(callId);
    KeysInjective(callId, callId);
    WriteElsewhere(s1, DataKey(callId), Str(JsonObject(data)), StateKey(callId));
    WriteElsewhere(s2, LAST_CALL_ID_KEY, Str(Plain(callId)), StateKey(callId));
  }

  /** After a call is shown: it is pending, its data reads back, it is the
      last call, and no other call changed. Showing it again is refused,
      since its state is no longer `unknown`. */
  lemma InviteRecorded(store: Store, callId: string, data: CallData, other: string)
    requires Typed(store)
    ensures Typed(Invited(store, callId, data))
    ensures CallStateIn(Invited(store, callId, data), callId) == CALL_STATE_PENDING != CALL_STATE_UNKNOWN
    ensures CallDataIn(Invited(store, callId, data), callId) == Some(StoredCallData(data))
    ensures LastCallIdIn(Invited(store, callId, data)) == callId
    ensures other != callId ==> SameCall(Invited(store, callId, data), store, other)
    ensures SameHandlers(Invited(store, callId, data), store)
  {
    var s1 := WithCallState(store, callId, CALL_STATE_PENDING);
    var s2 := WithCallData(s1, callId, data);
    CallStateWrite(store, callId, CALL_STATE_PENDING, other);
    CallStateWrite(store, callId, CALL_STATE_PENDING, callId);
    CallDataWrite(s1, callId, data, other);
    CallDataWrite(s1, callId, data, callId);
    LastCallIdWrite(s2, callId, other);
    LastCallIdWrite(s2, callId, callId);
  }

  // ---- the registry functions of the plugin, on a possibly absent context ----

  /** `getCallState` */
  function GetCallState(context: Preferences?, callId: string): (state: string)
    reads context
    ensures state != ""
    ensures context == null ==> state == CALL_STATE_UNKNOWN
    ensures context != null ==> state == CallStateIn(context.store, callId)
  {
    if context == null then CALL_STATE_UNKNOWN else CallStateIn(context.store, callId)
  }

  /** `getCallData` */
  function GetCallData(context: Preferences?, callId: string): (data: Option<map<string, string>>)
    reads context
    ensures context == null ==> data.None?
    ensures context != null ==> data == CallDataIn(context.store, callId)
  {
    if context == null then None else CallDataIn(context.store, callId)
  }

  /** `getLastCallId`: null only without a context. */
  function GetLastCallId(context: Preferences?): (id: Option<string>)
    reads context
    ensures id.None? <==> context == null
    ensures context != null ==> id.value == LastCallIdIn(context.store)
  {
    if context == null then None else Some(LastCallIdIn(context.store))
  }

  /** `getBackgroundHandler` and its four siblings, by key. */
  function GetHandler(context: Preferences?, key: string): (handle: int64)
    reads context
    ensures context == null ==> handle == -1
    ensures context != null ==> handle == HandlerIn(context.store, key)
  {
    if context == null then -1 else HandlerIn(context.store, key)
  }

  method SaveCallState(context: Preferences?, callId: string, callState: string)
    modifies context
    ensures context != null ==> context.store == WithCallState(old(context.store), callId, callState)
  {
    if context == null {
      return;
    }
    context.PutString(StateKey(callId), Some(Plain(callState)));
  }

  method SaveCallData(context: Preferences?, callId: string, callData: CallData)
    modifies context
    ensures context != null ==> context.store == WithCallData(old(context.store), callId, callData)
  {
    if context == null {
      return;
    }
    context.PutString(DataKey(callId), Some(JsonObject(callData)));
  }

  method SaveCallId(context: Preferences?, callId: string)
    modifies context
    ensures context != null ==> context.store == WithLastCallId(old(context.store), callId)
  {
    if context == null {
      return;
    }
    context.PutString(LAST_CALL_ID_KEY, Some(Plain(callId)));
  }

  method ClearCallData(context: Preferences?, callId: string)
    modifies context
    ensures context != null ==> context.store == WithoutCall(old(context.store), callId)
  {
    if context == null {
      return;
    }
    context.Remove(StateKey(callId));
    context.Remove(DataKey(callId));
    assert context.store == old(context.store) - {StateKey(callId)} - {DataKey(callId)};
  }

  /** `saveBackgroundHandler` and its four siblings, by key. */
  method SaveHandler(context: Preferences?, key: string, handle: int64)
    requires key in HandlerKeys
    modifies context
    ensures context != null ==> context.store == WithHandler(old(context.store), key, handle)
  {
    if context == null {
      return;
    }
    context.PutLong(key, handle);
  }

  /** The three writes of a shown incoming call, in the source's order. */
  method RecordInvite(context: Preferences, callId: string, callData: CallData)
    modifies context
    ensures context.store == Invited(old(context.store), callId, callData)
  {
    SaveCallState(context, callId, CALL_STATE_PENDING);
    SaveCallData(context, callId, callData);
    SaveCallId(context, callId);
  }

  /** The broadcast announcing that a call ended. */
  function CallEndedIntent(callId: string): Intent
  {
    Intent(ACTION_CALL_ENDED, Some(map[EXTRA_CALL_ID := EStr(callId)]))
  }

  /** `processCallEnded`: the call becomes `rejected`, its notification is
      cancelled and the end is broadcast; without a context nothing happens. */
  method ProcessCallEnded(context: Preferences?, sessionId: string, log: EffectLog)
    modifies context, log
    ensures context == null ==> log.effects == old(log.effects)
    ensures context != null ==> context.store == WithCallState(old(context.store), sessionId, CALL_STATE_REJECTED)
    ensures context != null ==>
      log.effects == old(log.effects) + [NotificationCancelled(sessionId), LocalBroadcast(CallEndedIntent(sessionId))]
  {
    if context == null {
      return;
    }
    SaveCallState(context, sessionId, CALL_STATE_REJECTED);
    log.Record(NotificationCancelled(sessionId));
    log.Record(LocalBroadcast(CallEndedIntent(sessionId)));
  }
}
