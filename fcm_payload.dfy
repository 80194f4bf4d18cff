/** What the two FCM push handlers (`ConnectycubeFCMService` and
    `ConnectycubeFCMReceiver`) do with a push's string data map, as a function
    of the registry store: dispatch on `signal_type`, the invite's
    validation and duplicate check, and the end event. The handlers differ
    only in the effects they emit around an accepted invite. */
module FcmPayload {

  import opened Values
  import opened SharedPrefs
  import opened AndroidConstants
  import opened AndroidPlatform
  import opened CallRegistry
  import Decimal
  import Opponents

  /** `RemoteMessage.data` */
  type RemoteData = map<string, string>

  function Get(data: RemoteData, key: string): (r: Option<string>)
    ensures r.Some? <==> key in data
    ensures r.Some? ==> r.value == data[key]
  {
    if key in data then Some(data[key]) else None
  }

  datatype InviteFields =
      /** a present `call_type`, `caller_id` or `call_opponents` failed `toInt()` */
    | Threw
      /** a required field is missing */
    | Incomplete
    | Complete(call: IncomingCall)

  /** The field reads of `processInviteCallEvent`: the three parses run
      first (any of them may throw), then the null and emptiness checks. An
      absent `call_opponents` leaves the list empty; an absent `user_info`
      reads as `"{}"`. */
  function ParseInvite(data: RemoteData): (r: InviteFields)
    ensures r.Threw? <==>
      ("call_type" in data && Decimal.ToInt32(data["call_type"]).None?) ||
      ("caller_id" in data && Decimal.ToInt32(data["caller_id"]).None?) ||
      ("call_opponents" in data && Opponents.ParseKotlin(data["call_opponents"]).None?)
    ensures r.Complete? <==> !r.Threw? && "call_type" in data && "caller_id" in data && "caller_name" in data && "call_opponents" in data
    ensures r.Complete? ==>
      Some(r.call.callType) == Decimal.ToInt32(data["call_type"]) &&
      Some(r.call.callerId) == Decimal.ToInt32(data["caller_id"]) &&
      r.call.callerName == data["caller_name"] &&
      Some(r.call.opponents) == Opponents.ParseKotlin(data["call_opponents"]) &&
      r.call.photo == Get(data, "photo_url") &&
      r.call.userInfo == (if "user_info" in data then data["user_info"] else "{}")
    ensures r.Complete? ==> |r.call.opponents| > 0
  {
    var callType := if "call_type" in data then Some(Decimal.ToInt32(data["call_type"])) else None;
    var callerId := if "caller_id" in data then Some(Decimal.ToInt32(data["caller_id"])) else None;
    var opponents := if "call_opponents" in data then Some(Opponents.ParseKotlin(data["call_opponents"])) else None;
    if (callType.Some? && callType.value.None?) || (callerId.Some? && callerId.value.None?) ||
       (opponents.Some? && opponents.value.None?) then Threw
    else if callType.None? || callerId.None? || "caller_name" !in data || opponents.None? then Incomplete
    else
      Complete(IncomingCall(callType.value.value, callerId.value.value, data["caller_name"],
                            opponents.value.value, Get(data, "photo_url"), Get(data, "user_info").GetOr("{}")))
  }

  /** The field reads of `processInviteCallEvent` as the handlers run them,
      returning early at the first `toInt()` that throws. */
  method ReadInviteFields(data: RemoteData) returns (r: InviteFields)
    ensures r == ParseInvite(data)
  {
    var callType: Option<int32> := None;
    if "call_type" in data {
      var parsed := Decimal.ToInt32(data["call_type"]);
      if parsed.None? {
        return Threw;
      }
      callType := parsed;
    }
    var callerId: Option<int32> := None;
    if "caller_id" in data {
      var parsed := Decimal.ToInt32(data["caller_id"]);
      if parsed.None? {
        return Threw;
      }
      callerId := parsed;
    }
    var callerName := Get(data, "caller_name");
    var callPhoto := Get(data, "photo_url");
    var opponents: seq<int32> := [];
    if "call_opponents" in data {
      var parsed := Opponents.ParseKotlin(data["call_opponents"]);
      if parsed.None? {
        return Threw;
      }
      opponents := parsed.value;
    }
    var userInfo := Get(data, "user_info").GetOr("{}");
    if callType.None? || callerId.None? || callerName.None? || |opponents| == 0 {
      return Incomplete;
    }
    r := Complete(IncomingCall(callType.value, callerId.value, callerName.value, opponents, callPhoto, userInfo));
  }

  /** The push data saved for the call reads back unchanged. */
  lemma {:induction false} PushDataRoundTrip(data: RemoteData)
    ensures StoredCallData(FromStrings(data)) == data
  {
    var m := StoredCallData(FromStrings(data));
    assert m.Keys == data.Keys;
    forall k | k in data ensures m[k] == data[k] {
      assert FromStrings(data)[k] == FStr(data[k]);
    }
  }

  datatype Handler = Service | Receiver

  /** The store after a push, the effects it emitted, and whether the
      handler threw. */
  datatype Outcome = Outcome(store: Store, effects: seq<Effect>, crashed: bool)

  /** The broadcast the receiver sends before it shows an invite. */
  function IncomingIntent(callId: string): Intent
  {
    Intent(ACTION_CALL_INCOMING, Some(map[EXTRA_CALL_ID := EStr(callId)]))
  }

  /** The service shows the notification without a photo; the receiver
      first broadcasts the incoming call, then shows it with its photo. */
  function InviteEffects(data: RemoteData, callId: string, call: IncomingCall, handler: Handler): (e: seq<Effect>)
    ensures |e| > 0 && e[|e| - 1].NotificationShown? && e[|e| - 1].callId == callId
    ensures e[|e| - 1].call == if handler.Service? then call.(photo := None) else call
    ensures forall i :: 0 <= i < |e| - 1 ==> handler.Receiver? && e[i] == LocalBroadcast(IncomingIntent(callId))
  {
    match handler
    case Service => [NotificationShown(callId, call.(photo := None))]
    case Receiver =>
      (if Get(data, "signal_type") == Some("startCall") then [LocalBroadcast(IncomingIntent(callId))] else []) +
      [NotificationShown(callId, call)]
  }

  /** `processInviteCallEvent`: nothing is written and nothing emitted
      unless the invite is new and complete. */
  function HandleInvite(store: Store, data: RemoteData, handler: Handler): (r: Outcome)
    ensures r.crashed || r.effects == [] ==> r.store == store
    ensures r.crashed ==> r.effects == [] && ParseInvite(data).Threw?
    ensures r.effects != [] ==>
      "session_id" in data && CallStateIn(store, data["session_id"]) == CALL_STATE_UNKNOWN && ParseInvite(data).Complete?
  {
    var callId := Get(data, "session_id");
    if callId.None? || CALL_STATE_UNKNOWN != CallStateIn(store, callId.value) then Outcome(store, [], false)
    else match ParseInvite(data)
      case Threw => Outcome(store, [], true)
      case Incomplete => Outcome(store, [], false)
      case Complete(call) =>
        Outcome(Invited(store, callId.value, FromStrings(data)), InviteEffects(data, callId.value, call, handler), false)
  }

  /** `processEndCallEvent`: the call reads `rejected` afterwards; without a
      `session_id` nothing happens. */
  function HandleEnd(store: Store, data: RemoteData): (r: Outcome)
    ensures !r.crashed
    ensures "session_id" !in data ==> r.store == store && r.effects == []
    ensures "session_id" in data ==> CallStateIn(r.store, data["session_id"]) == CALL_STATE_REJECTED
  {
    var callId := Get(data, "session_id");
    if callId.None? then Outcome(store, [], false)
    else Outcome(WithCallState(store, callId.value, CALL_STATE_REJECTED),
                 [NotificationCancelled(callId.value), LocalBroadcast(CallEndedIntent(callId.value))], false)
  }

  /** The dispatch of both handlers on `signal_type`. Only an invite can
      throw, and a throw leaves the store as it was and emits nothing. */
  function HandleMessage(store: Store, data: RemoteData, handler: Handler): (r: Outcome)
    ensures r.crashed ==> Get(data, "signal_type") == Some("startCall") && r.store == store && r.effects == []
  {
    var signal := Get(data, "signal_type");
    if signal == Some("startCall") then HandleInvite(store, data, handler)
    else if signal == Some("endCall") || signal == Some("rejectCall") then HandleEnd(store, data)
    else Outcome(store, [], false)
  }

  /** Dispatch: `startCall` is an invite, `endCall` and `rejectCall` an end,
      anything else (or no `signal_type`) changes nothing. */
  lemma Dispatch(store: Store, data: RemoteData, handler: Handler)
    ensures Get(data, "signal_type") == Some("startCall") ==> HandleMessage(store, data, handler) == HandleInvite(store, data, handler)
    ensures Get(data, "signal_type") in {Some("endCall"), Some("rejectCall")} ==>
      HandleMessage(store, data, handler) == HandleEnd(store, data)
    ensures Get(data, "signal_type") !in {Some("startCall"), Some("endCall"), Some("rejectCall")} ==>
      HandleMessage(store, data, handler) == Outcome(store, [], false)
  {
  }

  /** An end event rejects the call, from whatever state it was in; without a
      `session_id` it changes nothing. */
  lemma EndRejects(store: Store, data: RemoteData, other: string)
    requires Typed(store)
    ensures Typed(HandleEnd(store, data).store) && !HandleEnd(store, data).crashed
    ensures "session_id" !in data ==> HandleEnd(store, data) == Outcome(store, [], false)
    ensures "session_id" in data ==> CallStateIn(HandleEnd(store, data).store, data["session_id"]) == CALL_STATE_REJECTED
    ensures "session_id" in data && other != data["session_id"] ==> SameCall(HandleEnd(store, data).store, store, other)
  {
    if "session_id" in data {
      ConstantsDistinct();
      CallStateWrite(store, data["session_id"], CALL_STATE_REJECTED, other);
    }
  }

  /** An invite is dropped with no write and no effect when it has no
      `session_id`, when its call is already known, or when a required field
      is missing; it throws, again before any write, when a field does not
      parse. Otherwise the call is pending, its push data reads back
      unchanged, and it is the last call. */
  lemma InviteOutcome(store: Store, data: RemoteData, handler: Handler, other: string)
    requires Typed(store)
    ensures Typed(HandleInvite(store, data, handler).store)
    ensures "session_id" !in data || CallStateIn(store, data["session_id"]) != CALL_STATE_UNKNOWN ==>
      HandleInvite(store, data, handler) == Outcome(store, [], false)
    ensures "session_id" in data && CallStateIn(store, data["session_id"]) == CALL_STATE_UNKNOWN ==>
      var o := HandleInvite(store, data, handler);
      var callId := data["session_id"];
      (ParseInvite(data).Threw? ==> o == Outcome(store, [], true)) &&
      (ParseInvite(data).Incomplete? ==> o == Outcome(store, [], false)) &&
      (ParseInvite(data).Complete? ==>
         !o.crashed &&
         CallStateIn(o.store, callId) == CALL_STATE_PENDING &&
         CallDataIn(o.store, callId) == Some(data) &&
         LastCallIdIn(o.store) == callId &&
         (other != callId ==> SameCall(o.store, store, other)) &&
         SameHandlers(o.store, store))
  {
    if "session_id" in data && CallStateIn(store, data["session_id"]) == CALL_STATE_UNKNOWN && ParseInvite(data).Complete? {
      InviteRecorded(store, data["session_id"], FromStrings(data), other);
      PushDataRoundTrip(data);
    }
  }

  /** Duplicate delivery: handling the same invite a second time, on the
      store the first left behind, writes nothing and emits nothing. */
  lemma DuplicateInviteIgnored(store: Store, data: RemoteData, handler: Handler)
    requires Get(data, "signal_type") == Some("startCall")
    ensures var first := HandleMessage(store, data, handler);
            HandleMessage(first.store, data, handler) == Outcome(first.store, [], first.crashed)
  {
    var first := HandleMessage(store, data, handler);
    if "session_id" in data && CallStateIn(store, data["session_id"]) == CALL_STATE_UNKNOWN && ParseInvite(data).Complete? {
      ConstantsDistinct();
      InvitedPending(store, data["session_id"], FromStrings(data));
    }
  }

  /** A repeated end event leaves the store as the first one did. */
  lemma DuplicateEndSameStore(store: Store, data: RemoteData, handler: Handler)
    requires Get(data, "signal_type") in {Some("endCall"), Some("rejectCall")}
    ensures var first := HandleMessage(store, data, handler);
            HandleMessage(first.store, data, handler).store == first.store
  {
  }

  /** The service and the receiver leave the same store and throw alike;
      they differ only in the effects they emit. */
  lemma HandlersAgreeOnStore(store: Store, data: RemoteData)
    ensures HandleMessage(store, data, Service).store == HandleMessage(store, data, Receiver).store
    ensures HandleMessage(store, data, Service).crashed == HandleMessage(store, data, Receiver).crashed
  {
  }
}
