/** `ConnectycubeFCMService`: the Firebase messaging service that receives a
    call push while the app runs. Its outcome on the registry is
    `FcmPayload.HandleMessage` with the `Service` effects. */
module FcmService {

  import opened Values
  import opened SharedPrefs
  import opened AndroidConstants
  import opened AndroidPlatform
  import opened CallRegistry
  import opened FcmPayload

  /** `onMessageReceived` */
  method OnMessageReceived(context: Preferences, data: RemoteData, log: EffectLog) returns (crashed: bool)
    requires Typed(context.store)
    modifies context, log
    ensures Typed(context.store)
    ensures var o := HandleMessage(old(context.store), data, Service);
            context.store == o.store && log.effects == old(log.effects) + o.effects && crashed == o.crashed
  {
    crashed := false;
    if "signal_type" in data {
      var signal := data["signal_type"];
      if signal == "startCall" {
        crashed := ProcessInviteCallEvent(context, data, log);
      } else if signal == "endCall" {
        ProcessEndCallEvent(context, data, log);
      } else if signal == "rejectCall" {
        ProcessEndCallEvent(context, data, log);
      }
    }
  }

  /** `processEndCallEvent` */
  method ProcessEndCallEvent(context: Preferences, data: RemoteData, log: EffectLog)
    requires Typed(context.store)
    modifies context, log
    ensures Typed(context.store)
    ensures context.store == HandleEnd(old(context.store), data).store
    ensures log.effects == old(log.effects) + HandleEnd(old(context.store), data).effects
  {
    EndRejects(context.store, data, "");
    if "session_id" !in data {
      return;
    }
    ProcessCallEnded(context, data["session_id"], log);
  }

  /** `processInviteCallEvent` */
  method ProcessInviteCallEvent(context: Preferences, data: RemoteData, log: EffectLog) returns (crashed: bool)
    requires Typed(context.store)
    modifies context, log
    ensures Typed(context.store)
    ensures var o := HandleInvite(old(context.store), data, Service);
            context.store == o.store && log.effects == old(log.effects) + o.effects && crashed == o.crashed
  {
    crashed := false;
    if "session_id" !in data {
      return;
    }
    var callId := data["session_id"];
    if CALL_STATE_UNKNOWN != GetCallState(context, callId) {
      return;
    }
    var fields := ReadInviteFields(data);
    if fields.Threw? {
      return true;
    } else if fields.Incomplete? {
      return;
    }
    log.Record(NotificationShown(callId, fields.call.(photo := None)));
    InviteTyped(context.store, callId, FromStrings(data));
    RecordInvite(context, callId, FromStrings(data));
  }
}
