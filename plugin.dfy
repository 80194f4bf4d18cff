/** The Android plugin's method channel (`onMethodCall`) and its event-channel
    receiver (`CallStreamHandler.onReceive`). Arguments arrive as a map from
    names to channel values; a branch whose cast fails, or that dereferences a
    missing context with `!!`, replies with an error and writes nothing. */
module CallKitPlugin {

  import opened Values
  import opened SharedPrefs
  import opened AndroidConstants
  import opened AndroidPlatform
  import opened CallRegistry
  import Opponents
  import Decimal

  /** `call.arguments as Map<String, Any>`; `None` when they are not a map. */
  type Arguments = Option<CallData>

  datatype ReplyValue = NullValue | StringValue(s: string) | DataValue(data: map<string, string>)

  datatype Reply =
    | Success(value: ReplyValue)
    | Error
    | NotImplemented
      /** the branch never replies */
    | NoReply
      /** the reply comes from a Firebase or Android service outside this model */
    | FromPlatform

  // ---- Kotlin casts of argument values ----

  /** `arguments[key] as Int` */
  function AsInt(args: CallData, key: string): (r: Option<int32>)
    ensures r.Some? <==> key in args && args[key].FInt?
    ensures r.Some? ==> args[key] == FInt(r.value)
  {
    if key in args && args[key].FInt? then Some(args[key].i) else None
  }

  /** `arguments[key] as Boolean` */
  function AsBoolean(args: CallData, key: string): (r: Option<bool>)
    ensures r.Some? <==> key in args && args[key].FBool?
    ensures r.Some? ==> args[key] == FBool(r.value)
  {
    if key in args && args[key].FBool? then Some(args[key].b) else None
  }

  /** `arguments[key] as String?`: the outer `None` is the failed cast. */
  function AsNullableString(args: CallData, key: string): (r: Option<Option<string>>)
    ensures r.None? <==> key in args && !args[key].FStr? && !args[key].FNull?
    ensures r == Some(None) <==> key !in args || args[key].FNull?
    ensures r.Some? && r.value.Some? ==> args[key] == FStr(r.value.value)
  {
    if key !in args || args[key].FNull? then Some(None)
    else if args[key].FStr? then Some(Some(args[key].s))
    else None
  }

  /** `arguments[key] ?: -1L`, then `if (arg is Long) arg else (arg as Int).toLong()` */
  function AsHandle(args: CallData, key: string): (r: Option<int64>)
    ensures key !in args || args[key].FNull? ==> r == Some(-1)
    ensures key in args && args[key].FLong? ==> r == Some(args[key].l)
    ensures key in args && args[key].FInt? ==> r == Some(args[key].i as int64)
    ensures r.None? <==> key in args && !(args[key].FNull? || args[key].FLong? || args[key].FInt?)
  {
    if key !in args || args[key].FNull? then Some(-1)
    else if args[key].FLong? then Some(args[key].l)
    else if args[key].FInt? then Some(args[key].i as int64)
    else None
  }

  /** `arguments[key]?.toString() ?: ""` */
  function AsText(args: CallData, key: string): string
  {
    if key !in args then ""
    else match args[key]
      case FStr(s) => s
      case FInt(i) => Decimal.IntToString(i as int)
      case FLong(l) => Decimal.IntToString(l as int)
      case FBool(b) => if b then "true" else "false"
      case FNull => ""
  }

  /** The `session_id` every call branch starts from. */
  function SessionId(arguments: Arguments): Option<string>
  {
    if arguments.None? then None else AsString(arguments.value, "session_id")
  }

  /** The casts `showCallNotification` performs after the state check;
      `None` when one of them throws. */
  function NotificationArgs(args: CallData): (r: Option<IncomingCall>)
    ensures r.Some? <==>
      AsInt(args, "call_type").Some? && AsInt(args, "caller_id").Some? &&
      AsString(args, "caller_name").Some? && AsString(args, "call_opponents").Some? &&
      Opponents.ParseKotlin(AsString(args, "call_opponents").value).Some? &&
      AsNullableString(args, "photo_url").Some? && AsString(args, "user_info").Some?
    ensures r.Some? ==> r.value == IncomingCall(
      AsInt(args, "call_type").value, AsInt(args, "caller_id").value,
      AsString(args, "caller_name").value,
      Opponents.ParseKotlin(AsString(args, "call_opponents").value).value,
      AsNullableString(args, "photo_url").value, AsString(args, "user_info").value)
    ensures r.Some? ==> |r.value.opponents| > 0
  {
    var callType := AsInt(args, "call_type");
    var callerId := AsInt(args, "caller_id");
    var callerName := AsString(args, "caller_name");
    var opponentsText := AsString(args, "call_opponents");
    if callType.None? || callerId.None? || callerName.None? || opponentsText.None? then None
    else
      var opponents := Opponents.ParseKotlin(opponentsText.value);
      var photo := AsNullableString(args, "photo_url");
      var userInfo := AsString(args, "user_info");
      if opponents.None? || photo.None? || userInfo.None? then None
      else Some(IncomingCall(callType.value, callerId.value, callerName.value,
                             opponents.value, photo.value, userInfo.value))
  }

  /** A notification argument map that the branch accepts: the opponents
      text a push handler joined from a non-empty list is read back as that
      list. */
  lemma NotificationOpponentsRoundTrip(args: CallData, opponents: seq<int32>)
    requires |opponents| > 0
    requires AsInt(args, "call_type").Some? && AsInt(args, "caller_id").Some?
    requires AsString(args, "caller_name").Some? && AsString(args, "user_info").Some?
    requires AsNullableString(args, "photo_url").Some?
    requires "call_opponents" in args && args["call_opponents"] == FStr(Opponents.JoinKotlin(opponents))
    ensures NotificationArgs(args).Some? && NotificationArgs(args).value.opponents == opponents
  {
    Opponents.OpponentsRoundTripKotlin(opponents);
  }

  // ---- the branches ----

  /** `showCallNotification`: refused (successfully) for a call whose state
      is already known; otherwise the notification is shown and the call is
      recorded as pending with its arguments as its data. */
  method ShowCallNotification(context: Preferences?, arguments: Arguments, log: EffectLog) returns (reply: Reply)
    requires context != null ==> Typed(context.store)
    modifies context, log
    ensures context != null ==> Typed(context.store)
    ensures SessionId(arguments).None? ==>
      reply == Error && log.effects == old(log.effects) && (context != null ==> context.store == old(context.store))
    ensures SessionId(arguments).Some? && old(GetCallState(context, SessionId(arguments).value)) != CALL_STATE_UNKNOWN ==>
      reply == Success(NullValue) && log.effects == old(log.effects) && context.store == old(context.store)
    ensures SessionId(arguments).Some? && old(GetCallState(context, SessionId(arguments).value)) == CALL_STATE_UNKNOWN ==>
      if context != null && NotificationArgs(arguments.value).Some? then
        reply == Success(NullValue) &&
        context.store == Invited(old(context.store), SessionId(arguments).value, arguments.value) &&
        log.effects == old(log.effects) + [NotificationShown(SessionId(arguments).value, NotificationArgs(arguments.value).value)]
      else
        reply == Error && log.effects == old(log.effects) && (context != null ==> context.store == old(context.store))
  {
    var callId := SessionId(arguments);
    if callId.None? {
      return Error;
    }
    if CALL_STATE_UNKNOWN != GetCallState(context, callId.value) {
      return Success(NullValue);
    }
    var call := NotificationArgs(arguments.value);
    if call.None? || context == null {
      return Error;
    }
    log.Record(NotificationShown(callId.value, call.value));
    InviteRecorded(context.store, callId.value, arguments.value, callId.value);
    RecordInvite(context, callId.value, arguments.value);
    reply := Success(NullValue);
  }

  /** `putString(context, key, value)` of an optional plain string. */
  function PutPlain(store: Store, key: string, value: Option<string>): Store
  {
    if value.Some? then store[key := Str(Plain(value.value))] else store - {key}
  }

  /** The four configuration keys `updateConfig` writes, in order. */
  function WithConfig(store: Store, ringtone: Option<string>, icon: Option<string>,
                      notificationIcon: Option<string>, color: Option<string>): Store
  {
    PutPlain(PutPlain(PutPlain(PutPlain(store, "ringtone", ringtone), "icon", icon),
                      "notification_icon", notificationIcon), "color", color)
  }

  /** A plain string under a key outside the registry's families keeps the
      registry as it was. */
  lemma PutPlainKeepsRegistry(store: Store, key: string, value: Option<string>, callId: string)
    requires key !in HandlerKeys && !IsDataKey(key) && key != LAST_CALL_ID_KEY
    requires key != StateKey(callId) && key != DataKey(callId)
    ensures Typed(store) ==> Typed(PutPlain(store, key, value))
    ensures SameCall(PutPlain(store, key, value), store, callId)
    ensures LastCallIdIn(PutPlain(store, key, value)) == LastCallIdIn(store)
    ensures SameHandlers(PutPlain(store, key, value), store)
  {
  }

  /** The configuration keys are outside the registry's key families. */
  lemma ConfigKeysApart(key: string, callId: string)
    requires key in {"ringtone", "icon", "notification_icon", "color"}
    ensures key !in HandlerKeys && !IsDataKey(key) && key != LAST_CALL_ID_KEY
    ensures key != StateKey(callId) && key != DataKey(callId)
  {
    var s := StateKey(callId);
    var d := DataKey(callId);
    assert s[|s| - 1] == 'e' && s[|s| - 2] == 't';
    assert d[|d| - 1] == 'a';
    assert !IsDataKey(key) by {
      if |key| >= 5 { assert key[|key| - 1] != 'a'; }
    }
  }

  /** The configuration lives beside the registry without touching it. */
  lemma ConfigKeepsRegistry(store: Store, ringtone: Option<string>, icon: Option<string>,
                            notificationIcon: Option<string>, color: Option<string>, callId: string)
    ensures Typed(store) ==> Typed(WithConfig(store, ringtone, icon, notificationIcon, color))
    ensures SameCall(WithConfig(store, ringtone, icon, notificationIcon, color), store, callId)
    ensures LastCallIdIn(WithConfig(store, ringtone, icon, notificationIcon, color)) == LastCallIdIn(store)
    ensures SameHandlers(WithConfig(store, ringtone, icon, notificationIcon, color), store)
  {
    var s1 := PutPlain(store, "ringtone", ringtone);
    var s2 := PutPlain(s1, "icon", icon);
    var s3 := PutPlain(s2, "notification_icon", notificationIcon);
    ConfigKeysApart("ringtone", callId);
    ConfigKeysApart("icon", callId);
    ConfigKeysApart("notification_icon", callId);
    ConfigKeysApart("color", callId);
    PutPlainKeepsRegistry(store, "ringtone", ringtone, callId);
    PutPlainKeepsRegistry(s1, "icon", icon, callId);
    PutPlainKeepsRegistry(s2, "notification_icon", notificationIcon, callId);
    PutPlainKeepsRegistry(s3, "color", color, callId);
  }

  /** `updateConfig`: the four optional strings are stored, a null one
      removed. */
  method UpdateConfig(context: Preferences?, arguments: Arguments) returns (reply: Reply)
    requires context != null ==> Typed(context.store)
    modifies context
    ensures context != null ==> Typed(context.store)
    ensures reply.Success? <==>
      context != null && arguments.Some? &&
      AsNullableString(arguments.value, "ringtone").Some? && AsNullableString(arguments.value, "icon").Some? &&
      AsNullableString(arguments.value, "notification_icon").Some? && AsNullableString(arguments.value, "color").Some?
    ensures reply.Success? ==>
      reply == Success(NullValue) &&
      context.store == WithConfig(old(context.store),
        AsNullableString(arguments.value, "ringtone").value, AsNullableString(arguments.value, "icon").value,
        AsNullableString(arguments.value, "notification_icon").value, AsNullableString(arguments.value, "color").value)
    ensures !reply.Success? ==> reply == Error && (context != null ==> context.store == old(context.store))
  {
    if arguments.None? {
      return Error;
    }
    var ringtone := AsNullableString(arguments.value, "ringtone");
    var icon := AsNullableString(arguments.value, "icon");
    var notificationIcon := AsNullableString(arguments.value, "notification_icon");
    var color := AsNullableString(arguments.value, "color");
    if ringtone.None? || icon.None? || notificationIcon.None? || color.None? || context == null {
      return Error;
    }
    ConfigKeepsRegistry(context.store, ringtone.value, icon.value, notificationIcon.value, color.value, "");
    context.PutString("ringtone", if ringtone.value.Some? then Some(Plain(ringtone.value.value)) else None);
    context.PutString("icon", if icon.value.Some? then Some(Plain(icon.value.value)) else None);
    context.PutString("notification_icon",
      if notificationIcon.value.Some? then Some(Plain(notificationIcon.value.value)) else None);
    context.PutString("color", if color.value.Some? then Some(Plain(color.value.value)) else None);
    reply := Success(NullValue);
  }

  /** `reportCallAccepted`: the notification is cancelled and the call is
      `accepted`. */
  method ReportCallAccepted(context: Preferences?, arguments: Arguments, log: EffectLog) returns (reply: Reply)
    requires context != null ==> Typed(context.store)
    modifies context, log
    ensures context != null ==> Typed(context.store)
    ensures reply.Success? <==> SessionId(arguments).Some? && context != null
    ensures reply.Success? ==>
      reply == Success(NullValue) &&
      context.store == WithCallState(old(context.store), SessionId(arguments).value, CALL_STATE_ACCEPTED) &&
      log.effects == old(log.effects) + [NotificationCancelled(SessionId(arguments).value)]
    ensures !reply.Success? ==>
      reply == Error && log.effects == old(log.effects) && (context != null ==> context.store == old(context.store))
  {
    var callId := SessionId(arguments);
    if callId.None? || context == null {
      return Error;
    }
    log.Record(NotificationCancelled(callId.value));
    CallStateWrite(context.store, callId.value, CALL_STATE_ACCEPTED, "");
    SaveCallState(context, callId.value, CALL_STATE_ACCEPTED);
    reply := Success(NullValue);
  }

  /** `reportCallEnded`: `processCallEnded`, which does nothing without a
      context; the reply is a success either way. */
  method ReportCallEnded(context: Preferences?, arguments: Arguments, log: EffectLog) returns (reply: Reply)
    requires context != null ==> Typed(context.store)
    modifies context, log
    ensures context != null ==> Typed(context.store)
    ensures reply == if SessionId(arguments).Some? then Success(NullValue) else Error
    ensures SessionId(arguments).None? || context == null ==>
      log.effects == old(log.effects) && (context != null ==> context.store == old(context.store))
    ensures SessionId(arguments).Some? && context != null ==>
      context.store == WithCallState(old(context.store), SessionId(arguments).value, CALL_STATE_REJECTED) &&
      log.effects == old(log.effects) +
        [NotificationCancelled(SessionId(arguments).value), LocalBroadcast(CallEndedIntent(SessionId(arguments).value))]
  {
    var callId := SessionId(arguments);
    if callId.None? {
      return Error;
    }
    if context != null {
      CallStateWrite(context.store, callId.value, CALL_STATE_REJECTED, "");
    }
    ProcessCallEnded(context, callId.value, log);
    reply := Success(NullValue);
  }

  /** `getCallState` */
  method GetCallStateBranch(context: Preferences?, arguments: Arguments) returns (reply: Reply)
    requires context != null ==> Typed(context.store)
    ensures SessionId(arguments).None? ==> reply == Error
    ensures SessionId(arguments).Some? ==>
      reply == Success(StringValue(GetCallState(context, SessionId(arguments).value)))
  {
    var callId := SessionId(arguments);
    if callId.None? {
      return Error;
    }
    reply := Success(StringValue(GetCallState(context, callId.value)));
  }

  /** `setCallState`: any string is stored as the state. */
  method SetCallState(context: Preferences?, arguments: Arguments) returns (reply: Reply)
    requires context != null ==> Typed(context.store)
    modifies context
    ensures context != null ==> Typed(context.store)
    ensures reply.Success? <==> SessionId(arguments).Some? && AsString(arguments.value, "call_state").Some?
    ensures reply.Success? && context != null ==>
      context.store == WithCallState(old(context.store), SessionId(arguments).value,
                                     AsString(arguments.value, "call_state").value)
    ensures !reply.Success? ==> reply == Error
    ensures !reply.Success? || context == null ==> context != null ==> context.store == old(context.store)
  {
    var callId := SessionId(arguments);
    if callId.None? {
      return Error;
    }
    var callState := AsString(arguments.value, "call_state");
    if callState.None? {
      return Error;
    }
    if context != null {
      CallStateWrite(context.store, callId.value, callState.value, "");
    }
    SaveCallState(context, callId.value, callState.value);
    reply := Success(NullValue);
  }

  /** `getCallData`: the stored data, or null. */
  method GetCallDataBranch(context: Preferences?, arguments: Arguments) returns (reply: Reply)
    requires context != null ==> Typed(context.store)
    ensures SessionId(arguments).None? ==> reply == Error
    ensures SessionId(arguments).Some? ==>
      reply == Success(match GetCallData(context, SessionId(arguments).value)
                       case Some(data) => DataValue(data)
                       case None => NullValue)
  {
    var callId := SessionId(arguments);
    if callId.None? {
      return Error;
    }
    var data := GetCallData(context, callId.value);
    reply := Success(if data.Some? then DataValue(data.value) else NullValue);
  }

  /** `setOnLockScreenVisibility` */
  method SetOnLockScreenVisibility(arguments: Arguments, log: EffectLog) returns (reply: Reply)
    modifies log
    ensures reply.Success? <==> arguments.Some? && AsBoolean(arguments.value, "is_visible").Some?
    ensures reply.Success? ==>
      reply == Success(NullValue) &&
      log.effects == old(log.effects) + [ShowWhenLocked(AsBoolean(arguments.value, "is_visible").value)]
    ensures !reply.Success? ==> reply == Error && log.effects == old(log.effects)
  {
    if arguments.None? {
      return Error;
    }
    var visible := AsBoolean(arguments.value, "is_visible");
    if visible.None? {
      return Error;
    }
    log.Record(ShowWhenLocked(visible.value));
    reply := Success(NullValue);
  }

  /** `clearCallData` */
  method ClearCallDataBranch(context: Preferences?, arguments: Arguments) returns (reply: Reply)
    requires context != null ==> Typed(context.store)
    modifies context
    ensures context != null ==> Typed(context.store)
    ensures reply == if SessionId(arguments).Some? then Success(NullValue) else Error
    ensures context != null ==>
      context.store == if SessionId(arguments).Some? then WithoutCall(old(context.store), SessionId(arguments).value)
                       else old(context.store)
  {
    var callId := SessionId(arguments);
    if callId.None? {
      return Error;
    }
    if context != null {
      ClearCall(context.store, callId.value, "");
    }
    ClearCallData(context, callId.value);
    reply := Success(NullValue);
  }

  /** `getLastCallId`: null without a context, `""` before any call. */
  method GetLastCallIdBranch(context: Preferences?) returns (reply: Reply)
    requires context != null ==> Typed(context.store)
    ensures context == null ==> reply == Success(NullValue)
    ensures context != null ==> reply == Success(StringValue(LastCallIdIn(context.store)))
  {
    var id := GetLastCallId(context);
    reply := Success(if id.Some? then StringValue(id.value) else NullValue);
  }

  /** The handler slot a `userCallbackHandleName` selects. */
  function CallbackSlot(name: string): (key: Option<string>)
    ensures key.Some? ==> key.value in HandlerKeys && key.value != BACKGROUND_CALLBACK_KEY
  {
    if name == REJECTED_IN_BACKGROUND then Some(BACKGROUND_REJECT_KEY)
    else if name == ACCEPTED_IN_BACKGROUND then Some(BACKGROUND_ACCEPT_KEY)
    else if name == INCOMING_IN_BACKGROUND then Some(BACKGROUND_INCOMING_KEY)
    else if name == TAP_IN_BACKGROUND then Some(BACKGROUND_TAP_KEY)
    else None
  }

  /** The handler writes of `startBackgroundIsolate`. */
  function WithIsolateHandlers(store: Store, pluginHandle: int64, name: string, userHandle: int64): Store
  {
    var s := WithHandler(store, BACKGROUND_CALLBACK_KEY, pluginHandle);
    if CallbackSlot(name).Some? then WithHandler(s, CallbackSlot(name).value, userHandle) else s
  }

  /** After `startBackgroundIsolate` the plugin handle and the named user
      handle read back, every other handler is as it was, and no call
      changed. An unknown name stores only the plugin handle. */
  lemma IsolateHandlersRecorded(store: Store, pluginHandle: int64, name: string, userHandle: int64,
                                key: string, callId: string)
    requires Typed(store)
    ensures Typed(WithIsolateHandlers(store, pluginHandle, name, userHandle))
    ensures HandlerIn(WithIsolateHandlers(store, pluginHandle, name, userHandle), BACKGROUND_CALLBACK_KEY) == pluginHandle
    ensures CallbackSlot(name).Some? ==>
      HandlerIn(WithIsolateHandlers(store, pluginHandle, name, userHandle), CallbackSlot(name).value) == userHandle
    ensures key in HandlerKeys && key != BACKGROUND_CALLBACK_KEY && Some(key) != CallbackSlot(name) ==>
      HandlerIn(WithIsolateHandlers(store, pluginHandle, name, userHandle), key) == HandlerIn(store, key)
    ensures SameCall(WithIsolateHandlers(store, pluginHandle, name, userHandle), store, callId)
  {
    var s := WithHandler(store, BACKGROUND_CALLBACK_KEY, pluginHandle);
    HandlerWrite(store, BACKGROUND_CALLBACK_KEY, pluginHandle, key, callId);
    if CallbackSlot(name).Some? {
      var slot := CallbackSlot(name).value;
      HandlerWrite(s, slot, userHandle, key, callId);
      HandlerWrite(s, slot, userHandle, BACKGROUND_CALLBACK_KEY, callId);
    }
  }

  /** `startBackgroundIsolate`: saves the handles and starts the isolate. It
      never replies; a handle of the wrong type throws before any write. */
  method StartBackgroundIsolate(context: Preferences?, arguments: Arguments, log: EffectLog) returns (reply: Reply)
    requires context != null ==> Typed(context.store)
    modifies context, log
    ensures context != null ==> Typed(context.store)
    ensures reply != Error <==>
      arguments.Some? && AsHandle(arguments.value, "pluginCallbackHandle").Some? &&
      AsHandle(arguments.value, "userCallbackHandle").Some?
    ensures reply == Error ==> log.effects == old(log.effects) && (context != null ==> context.store == old(context.store))
    ensures reply != Error ==>
      reply == NoReply &&
      log.effects == old(log.effects) + [BackgroundIsolateStarted(AsHandle(arguments.value, "pluginCallbackHandle").value)] &&
      (context != null ==> context.store == WithIsolateHandlers(old(context.store),
         AsHandle(arguments.value, "pluginCallbackHandle").value, AsText(arguments.value, "userCallbackHandleName"),
         AsHandle(arguments.value, "userCallbackHandle").value))
  {
    if arguments.None? {
      return Error;
    }
    var name := AsText(arguments.value, "userCallbackHandleName");
    var pluginHandle := AsHandle(arguments.value, "pluginCallbackHandle");
    var userHandle := AsHandle(arguments.value, "userCallbackHandle");
    if pluginHandle.None? || userHandle.None? {
      return Error;
    }
    if context != null {
      IsolateHandlersRecorded(context.store, pluginHandle.value, name, userHandle.value, BACKGROUND_CALLBACK_KEY, "");
    }
    SaveHandler(context, BACKGROUND_CALLBACK_KEY, pluginHandle.value);
    var slot := CallbackSlot(name);
    if slot.Some? {
      SaveHandler(context, slot.value, userHandle.value);
    }
    log.Record(BackgroundIsolateStarted(pluginHandle.value));
    reply := NoReply;
  }

  /** The method names `onMethodCall` answers. */
  const Methods: set<string> :=
    {"getVoipToken", "startBackgroundIsolate", "showCallNotification", "updateConfig",
     "reportCallAccepted", "reportCallEnded", "getCallState", "setCallState", "getCallData",
     "setOnLockScreenVisibility", "clearCallData", "getLastCallId", "muteCall",
     "canUseFullScreenIntent", "provideFullScreenIntentAccess"}

  /** `onMethodCall`: routes by method name; an unknown name is not
      implemented and changes nothing. */
  method OnMethodCall(context: Preferences?, name: string, arguments: Arguments, log: EffectLog) returns (reply: Reply)
    requires context != null ==> Typed(context.store)
    modifies context, log
    ensures context != null ==> Typed(context.store)
    ensures name !in Methods ==>
      reply == NotImplemented && log.effects == old(log.effects) && (context != null ==> context.store == old(context.store))
    ensures name in {"getVoipToken", "muteCall", "provideFullScreenIntentAccess", "getCallState",
                     "getCallData", "getLastCallId", "canUseFullScreenIntent"} ==>
      log.effects == old(log.effects) && (context != null ==> context.store == old(context.store))
    ensures name == "muteCall" || name == "provideFullScreenIntentAccess" ==> reply == Success(NullValue)
    ensures name == "getVoipToken" ==> reply == FromPlatform
    ensures name == "canUseFullScreenIntent" ==> reply == if context == null then Error else FromPlatform
  {
    if name == "getVoipToken" {
      reply := FromPlatform;
    } else if name == "startBackgroundIsolate" {
      reply := StartBackgroundIsolate(context, arguments, log);
    } else if name == "showCallNotification" {
      reply := ShowCallNotification(context, arguments, log);
    } else if name == "updateConfig" {
      reply := UpdateConfig(context, arguments);
    } else if name == "reportCallAccepted" {
      reply := ReportCallAccepted(context, arguments, log);
    } else if name == "reportCallEnded" {
      reply := ReportCallEnded(context, arguments, log);
    } else if name == "getCallState" {
      reply := GetCallStateBranch(context, arguments);
    } else if name == "setCallState" {
      reply := SetCallState(context, arguments);
    } else if name == "getCallData" {
      reply := GetCallDataBranch(context, arguments);
    } else if name == "setOnLockScreenVisibility" {
      reply := SetOnLockScreenVisibility(arguments, log);
    } else if name == "clearCallData" {
      reply := ClearCallDataBranch(context, arguments);
    } else if name == "getLastCallId" {
      reply := GetLastCallIdBranch(context);
    } else if name == "muteCall" {
      reply := Success(NullValue);
    } else if name == "canUseFullScreenIntent" {
      reply := if context == null then Error else FromPlatform;
    } else if name == "provideFullScreenIntentAccess" {
      reply := Success(NullValue);
    } else {
      reply := NotImplemented;
    }
  }

  // ---- CallStreamHandler ----

  /** The actions the handler forwards to Dart as call events. */
  const CallActions: set<string> := {ACTION_CALL_REJECT, ACTION_CALL_ACCEPT, ACTION_CALL_INCOMING, ACTION_CALL_TAP}

  function EventName(action: string): string
  {
    if action == ACTION_CALL_REJECT then "endCall"
    else if action == ACTION_CALL_ACCEPT then "answerCall"
    else if action == ACTION_CALL_INCOMING then "incomingCall"
    else "tapCall"
  }

  function NullableString(s: Option<string>): Field
  {
    if s.Some? then FStr(s.value) else FNull
  }

  /** The `callEventMap` of a call: its id, type, caller and opponents,
      photo and user info, each null when the extras lack it. */
  function EventMap(callId: string, callType: int32, callerId: int32, callerName: Option<string>,
                    opponents: Option<seq<int32>>, photo: Option<string>, userInfo: Option<string>): map<string, Field>
  {
    map["session_id" := FStr(callId),
        "call_type" := FInt(callType),
        "caller_id" := FInt(callerId),
        "caller_name" := NullableString(callerName),
        "call_opponents" := if opponents.Some? then FStr(Opponents.JoinKotlin(opponents.value)) else FNull,
        "photo_url" := NullableString(photo),
        "user_info" := NullableString(userInfo)]
  }

  /** The `callEventMap` built from the intent's extras; a missing call type
      or caller id reads as -1. */
  function CallEventArgs(intent: Intent, callId: string): (args: map<string, Field>)
    ensures args.Keys == {"session_id", "call_type", "caller_id", "caller_name", "call_opponents", "photo_url", "user_info"}
    ensures args["session_id"] == FStr(callId)
  {
    EventMap(callId, IntExtra(intent, EXTRA_CALL_TYPE, -1), IntExtra(intent, EXTRA_CALL_INITIATOR_ID, -1),
             StringExtra(intent, EXTRA_CALL_INITIATOR_NAME), IntListExtra(intent, EXTRA_CALL_OPPONENTS),
             StringExtra(intent, EXTRA_CALL_PHOTO), StringExtra(intent, EXTRA_CALL_USER_INFO))
  }

  /** The call id of a call-event intent, when it has a non-empty one. */
  function EventCallId(intent: Intent): Option<string>
  {
    var id := StringExtra(intent, EXTRA_CALL_ID);
    if id.Some? && id.value != "" then id else None
  }

  /** The Dart side's view of the event channel: `events` is set by
      `onListen`; without it events are dropped. */
  class CallStreamHandler {
    var listening: bool

    constructor ()
      ensures !listening
    {
      listening := false;
    }

    method OnListen()
      modifies this
      ensures listening
    {
      listening := true;
    }

    /** `onReceive`. A reject or accept updates the call's state (through a
        possibly null context); every call action is sent to Dart as an
        event; an accept then starts the launch activity, which needs the
        context (`context!!`). */
    method OnReceive(context: Preferences?, intent: Option<Intent>, log: EffectLog) returns (crashed: bool)
      requires context != null ==> Typed(context.store)
      modifies context, log
      ensures context != null ==> Typed(context.store)
      ensures crashed <==>
        intent.Some? && intent.value.action == ACTION_CALL_ACCEPT && EventCallId(intent.value).Some? && context == null
      ensures intent.None? || intent.value.action == "" ||
              (intent.value.action != ACTION_TOKEN_REFRESHED &&
               (intent.value.action !in CallActions || EventCallId(intent.value).None?)) ==>
        log.effects == old(log.effects) && (context != null ==> context.store == old(context.store))
      ensures intent.Some? && intent.value.action == ACTION_TOKEN_REFRESHED ==>
        (context != null ==> context.store == old(context.store)) &&
        log.effects == old(log.effects) +
          (if listening then [TokenEvent(StringExtra(intent.value, EXTRA_PUSH_TOKEN))] else [])
      ensures intent.Some? && intent.value.action in CallActions && EventCallId(intent.value).Some? ==>
        var action := intent.value.action;
        var callId := EventCallId(intent.value).value;
        (context != null ==>
           context.store == if action == ACTION_CALL_REJECT then WithCallState(old(context.store), callId, CALL_STATE_REJECTED)
                            else if action == ACTION_CALL_ACCEPT then WithCallState(old(context.store), callId, CALL_STATE_ACCEPTED)
                            else old(context.store)) &&
        log.effects == old(log.effects) +
          (if listening then [ChannelEvent(EventName(action), CallEventArgs(intent.value, callId))] else []) +
          (if action == ACTION_CALL_ACCEPT && context != null then [LaunchActivityStarted(ACTION_CALL_ACCEPT)] else [])
    {
      crashed := false;
      if intent.None? || intent.value.action == "" {
        return;
      }
      var action := intent.value.action;
      if action == ACTION_TOKEN_REFRESHED {
        if listening {
          log.Record(TokenEvent(StringExtra(intent.value, EXTRA_PUSH_TOKEN)));
        }
        return;
      } else if action !in CallActions {
        return;
      }
      var callId := EventCallId(intent.value);
      if callId.None? {
        return;
      }
      var event := ChannelEvent(EventName(action), CallEventArgs(intent.value, callId.value));
      if action == ACTION_CALL_REJECT {
        if context != null {
          CallStateWrite(context.store, callId.value, CALL_STATE_REJECTED, "");
        }
        SaveCallState(context, callId.value, CALL_STATE_REJECTED);
        if listening {
          log.Record(event);
        }
      } else if action == ACTION_CALL_ACCEPT {
        if context != null {
          CallStateWrite(context.store, callId.value, CALL_STATE_ACCEPTED, "");
        }
        SaveCallState(context, callId.value, CALL_STATE_ACCEPTED);
        if listening {
          log.Record(event);
        }
        if context == null {
          return true;
        }
        log.Record(LaunchActivityStarted(ACTION_CALL_ACCEPT));
      } else {
        if listening {
          log.Record(event);
        }
      }
    }
  }
}
