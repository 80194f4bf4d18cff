/** `ConnectycubeFCMReceiver`: the broadcast receiver that gets the raw
    Firebase intent, also while the app is not running. Its outcome on the
    registry is `FcmPayload.HandleMessage` with the `Receiver` effects. */
module FcmReceiver {

  import opened Values
  import opened SharedPrefs
  import opened AndroidConstants
  import opened AndroidPlatform
  import opened CallRegistry
  import opened FcmPayload

  /** `onReceive`; `extras` is the push data of the intent's extras, `None`
      when the intent has none. A null context throws at `context!!`. */
  method OnReceive(context: Preferences?, extras: Option<RemoteData>, log: EffectLog) returns (crashed: bool)
    requires context != null ==> Typed(context.store)
    modifies context, log
    ensures context != null ==> Typed(context.store)
    ensures context == null ==> crashed && log.effects == old(log.effects)
    ensures context != null && extras.None? ==>
      !crashed && context.store == old(context.store) && log.effects == old(log.effects)
    ensures context != null && extras.Some? ==>
      var o := HandleMessage(old(context.store), extras.value, Receiver);
      context.store == o.store && log.effects == old(log.effects) + o.effects && crashed == o.crashed
  {
    if context == null {
      return true;
    }
    crashed := false;
    if extras.None? {
      return;
    }
    var data := extras.value;
    if "signal_type" in data {
      var signal := data["signal_type"];
      if signal == "startCall" {
        crashed := ProcessInviteCallEvent(context, data, log);
      } else if signal == "endCall" {
        ProcessEndCallEvent(context, data, log);
      } else if signal == "rejectCall" {
        ProcessEndCallEvent(context, data, log);
      }
    }
  }

  /** `processEndCallEvent` */
  method ProcessEndCallEvent(context: Preferences, data: RemoteData, log: EffectLog)
    requires Typed(context.store)
    modifies context, log
    ensures Typed(context.store)
    ensures context.store == HandleEnd(old(context.store), data).store
    ensures log.effects == old(log.effects) + HandleEnd(old(context.store), data).effects
  {
    EndRejects(context.store, data, "");
    if "session_id" !in data {
      return;
    }
    ProcessCallEnded(context, data["session_id"], log);
  }

  /** `processInviteCallEvent`: as the service's, but the incoming call is
      broadcast first and the notification carries the photo. */
  method ProcessInviteCallEvent(context: Preferences, data: RemoteData, log: EffectLog) returns (crashed: bool)
    requires Typed(context.store)
    modifies context, log
    ensures Typed(context.store)
    ensures var o := HandleInvite(old(context.store), data, Receiver);
            context.store == o.store && log.effects == old(log.effects) + o.effects && crashed == o.crashed
  {
    crashed := false;
    if "session_id" !in data {
      return;
    }
    var callId := data["session_id"];
    if CALL_STATE_UNKNOWN != GetCallState(context, callId) {
      return;
    }
    var fields := ReadInviteFields(data);
    if fields.Threw? {
      return true;
    } else if fields.Incomplete? {
      return;
    }
    ghost var before := log.effects;
    if Get(data, "signal_type") == Some("startCall") {
      log.Record(LocalBroadcast(IncomingIntent(callId)));
    }
    log.Record(NotificationShown(callId, fields.call));
    assert log.effects == before + InviteEffects(data, callId, fields.call, Receiver);
    InviteTyped(context.store, callId, FromStrings(data));
    RecordInvite(context, callId, FromStrings(data));
  }
}
