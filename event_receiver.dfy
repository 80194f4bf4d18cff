/** `EventReceiver`: the receiver of the notification's actions (accept,
    reject, dismiss) and of the incoming-call announcement. It re-broadcasts
    each locally, updates the call's state for accept and reject, and when
    the app is not in the foreground hands the intent to the background
    isolate. Whether the app is in the foreground is an input. */
module EventReceiver {

  import opened Values
  import opened SharedPrefs
  import opened AndroidConstants
  import opened AndroidPlatform
  import opened CallRegistry
  import CallKitPlugin

  /** A bundle holding only the (possibly null) call id. */
  function IdBundle(callId: Option<string>): Bundle
  {
    PutString(map[], EXTRA_CALL_ID, callId)
  }

  /** The bundle an accept or reject re-broadcasts: each field read from the
      incoming extras (`getInt` falls back to 0) and put again. */
  function Rebroadcast(extras: Bundle): (b: Bundle)
    ensures GetString(b, EXTRA_CALL_ID) == GetString(extras, EXTRA_CALL_ID)
    ensures GetInt(b, EXTRA_CALL_TYPE, -1) == GetInt(extras, EXTRA_CALL_TYPE, 0)
    ensures GetInt(b, EXTRA_CALL_INITIATOR_ID, -1) == GetInt(extras, EXTRA_CALL_INITIATOR_ID, 0)
    ensures GetString(b, EXTRA_CALL_INITIATOR_NAME) == GetString(extras, EXTRA_CALL_INITIATOR_NAME)
    ensures GetIntList(b, EXTRA_CALL_OPPONENTS) == GetIntList(extras, EXTRA_CALL_OPPONENTS)
    ensures GetString(b, EXTRA_CALL_PHOTO) == GetString(extras, EXTRA_CALL_PHOTO)
    ensures GetString(b, EXTRA_CALL_USER_INFO) == GetString(extras, EXTRA_CALL_USER_INFO)
  {
    ExtraKeysApart();
    var strings := {EXTRA_CALL_ID, EXTRA_CALL_INITIATOR_NAME, EXTRA_CALL_PHOTO, EXTRA_CALL_USER_INFO};
    map k | k in strings + {EXTRA_CALL_TYPE, EXTRA_CALL_INITIATOR_ID, EXTRA_CALL_OPPONENTS} &&
              (k in strings ==> GetString(extras, k).Some?) && (k == EXTRA_CALL_OPPONENTS ==> GetIntList(extras, k).Some?) ::
      if k in strings then EStr(GetString(extras, k).value)
      else if k == EXTRA_CALL_OPPONENTS then EIntList(GetIntList(extras, k).value)
      else EInt(GetInt(extras, k, 0))
  }

  /** The intent handed to the background isolate: the re-broadcast intent
      tagged with the callback it is for. */
  function Tagged(action: string, b: Bundle, callbackName: string): Intent
  {
    Intent(action, Some(b[USER_CALLBACK_HANDLE_NAME := EStr(callbackName)]))
  }

  /** The Dart-side event for a re-broadcast accept or reject carries the
      same call as the notification's own extras, except that a missing call
      type or caller id arrives as 0 instead of -1. */
  lemma RebroadcastEvent(action: string, extras: Bundle, callId: string)
    ensures var mine := CallKitPlugin.CallEventArgs(Intent(action, Some(Rebroadcast(extras))), callId);
            var theirs := CallKitPlugin.CallEventArgs(Intent(action, Some(extras)), callId);
            var name := GetString(extras, EXTRA_CALL_INITIATOR_NAME);
            var opponents := GetIntList(extras, EXTRA_CALL_OPPONENTS);
            var photo := GetString(extras, EXTRA_CALL_PHOTO);
            var userInfo := GetString(extras, EXTRA_CALL_USER_INFO);
            mine == CallKitPlugin.EventMap(callId, GetInt(extras, EXTRA_CALL_TYPE, 0), GetInt(extras, EXTRA_CALL_INITIATOR_ID, 0),
                                           name, opponents, photo, userInfo) &&
            theirs == CallKitPlugin.EventMap(callId, GetInt(extras, EXTRA_CALL_TYPE, -1), GetInt(extras, EXTRA_CALL_INITIATOR_ID, -1),
                                             name, opponents, photo, userInfo) &&
            ((EXTRA_CALL_TYPE in extras && extras[EXTRA_CALL_TYPE].EInt? &&
              EXTRA_CALL_INITIATOR_ID in extras && extras[EXTRA_CALL_INITIATOR_ID].EInt?) ==>
               mine == theirs) &&
            (!(EXTRA_CALL_TYPE in extras && extras[EXTRA_CALL_TYPE].EInt?) ==>
               mine["call_type"] == FInt(0) && theirs["call_type"] == FInt(-1)) &&
            (!(EXTRA_CALL_INITIATOR_ID in extras && extras[EXTRA_CALL_INITIATOR_ID].EInt?) ==>
               mine["caller_id"] == FInt(0) && theirs["caller_id"] == FInt(-1))
  {
    var mine := Intent(action, Some(Rebroadcast(extras)));
    assert IntExtra(mine, EXTRA_CALL_TYPE, -1) == GetInt(extras, EXTRA_CALL_TYPE, 0);
    assert IntExtra(mine, EXTRA_CALL_INITIATOR_ID, -1) == GetInt(extras, EXTRA_CALL_INITIATOR_ID, 0);
  }

  /** The effects of an accept or a reject, up to the throw at `callId!!`:
      the re-broadcast and the cancel of the notification by the id's hash. */
  function Sent(action: string, extras: Bundle): seq<Effect>
  {
    [LocalBroadcast(Intent(action, Some(Rebroadcast(extras)))), NotificationIdCancelled(GetString(extras, EXTRA_CALL_ID))]
  }

  /** The reject branch of `onReceive` on an intent with extras. */
  method OnReject(context: Preferences, extras: Bundle, foreground: bool, log: EffectLog) returns (crashed: bool)
    requires Typed(context.store)
    modifies context, log
    ensures Typed(context.store)
    ensures var callId := GetString(extras, EXTRA_CALL_ID);
      crashed == callId.None? &&
      (callId.None? ==> context.store == old(context.store) && log.effects == old(log.effects) + Sent(ACTION_CALL_REJECT, extras)) &&
      (callId.Some? ==>
         context.store == WithCallState(old(context.store), callId.value, CALL_STATE_REJECTED) &&
         log.effects == old(log.effects) + Sent(ACTION_CALL_REJECT, extras) +
           [NotificationCancelled(callId.value), LocalBroadcast(CallEndedIntent(callId.value))] +
           (if foreground then []
            else [BackgroundWorkEnqueued(Tagged(ACTION_CALL_REJECT, Rebroadcast(extras), REJECTED_IN_BACKGROUND))]))
  {
    var callId := GetString(extras, EXTRA_CALL_ID);
    var bundle := Rebroadcast(extras);
    log.Record(LocalBroadcast(Intent(ACTION_CALL_REJECT, Some(bundle))));
    log.Record(NotificationIdCancelled(callId));
    assert log.effects == old(log.effects) + Sent(ACTION_CALL_REJECT, extras);
    if callId.None? {
      return true;
    }
    ghost var sent := log.effects;
    crashed := false;
    CallStateTyped(context.store, callId.value, CALL_STATE_REJECTED);
    ProcessCallEnded(context, callId.value, log);
    if !foreground {
      log.Record(BackgroundWorkEnqueued(Tagged(ACTION_CALL_REJECT, bundle, REJECTED_IN_BACKGROUND)));
    }
    assert log.effects == sent + [NotificationCancelled(callId.value), LocalBroadcast(CallEndedIntent(callId.value))] +
      (if foreground then [] else [BackgroundWorkEnqueued(Tagged(ACTION_CALL_REJECT, bundle, REJECTED_IN_BACKGROUND))]);
  }

  /** The accept branch of `onReceive` on an intent with extras. */
  method OnAccept(context: Preferences, extras: Bundle, foreground: bool, log: EffectLog) returns (crashed: bool)
    requires Typed(context.store)
    modifies context, log
    ensures Typed(context.store)
    ensures var callId := GetString(extras, EXTRA_CALL_ID);
      crashed == callId.None? &&
      (callId.None? ==> context.store == old(context.store) && log.effects == old(log.effects) + Sent(ACTION_CALL_ACCEPT, extras)) &&
      (callId.Some? ==>
         context.store == WithCallState(old(context.store), callId.value, CALL_STATE_ACCEPTED) &&
         log.effects == old(log.effects) + Sent(ACTION_CALL_ACCEPT, extras) +
           (if foreground then []
            else [BackgroundWorkEnqueued(Tagged(ACTION_CALL_ACCEPT, Rebroadcast(extras), ACCEPTED_IN_BACKGROUND))]) +
           [LaunchActivityStarted(ACTION_CALL_ACCEPT)])
  {
    var callId := GetString(extras, EXTRA_CALL_ID);
    var bundle := Rebroadcast(extras);
    log.Record(LocalBroadcast(Intent(ACTION_CALL_ACCEPT, Some(bundle))));
    log.Record(NotificationIdCancelled(callId));
    assert log.effects == old(log.effects) + Sent(ACTION_CALL_ACCEPT, extras);
    if callId.None? {
      return true;
    }
    ghost var sent := log.effects;
    crashed := false;
    CallStateTyped(context.store, callId.value, CALL_STATE_ACCEPTED);
    SaveCallState(context, callId.value, CALL_STATE_ACCEPTED);
    if !foreground {
      log.Record(BackgroundWorkEnqueued(Tagged(ACTION_CALL_ACCEPT, bundle, ACCEPTED_IN_BACKGROUND)));
    }
    log.Record(LaunchActivityStarted(ACTION_CALL_ACCEPT));
    assert log.effects == sent +
      (if foreground then [] else [BackgroundWorkEnqueued(Tagged(ACTION_CALL_ACCEPT, bundle, ACCEPTED_IN_BACKGROUND))]) +
      [LaunchActivityStarted(ACTION_CALL_ACCEPT)];
  }

  /** `onReceive`. The accept and reject branches throw at `callType!!` when
      the intent has no extras, before doing anything; with extras but no
      call id they throw at `callId!!`, after the re-broadcast and the
      cancel. */
  method OnReceive(context: Preferences, intent: Option<Intent>, foreground: bool, log: EffectLog) returns (crashed: bool)
    requires Typed(context.store)
    modifies context, log
    ensures Typed(context.store)
    ensures intent.None? ||
            intent.value.action !in {ACTION_CALL_INCOMING, ACTION_CALL_REJECT, ACTION_CALL_ACCEPT, ACTION_CALL_NOTIFICATION_CANCELED} ==>
      !crashed && context.store == old(context.store) && log.effects == old(log.effects)
    ensures intent.Some? && intent.value.action in {ACTION_CALL_INCOMING, ACTION_CALL_NOTIFICATION_CANCELED} ==>
      !crashed && context.store == old(context.store) &&
      log.effects == old(log.effects) +
        [LocalBroadcast(Intent(intent.value.action, Some(IdBundle(StringExtra(intent.value, EXTRA_CALL_ID)))))]
    ensures intent.Some? && intent.value.action in {ACTION_CALL_REJECT, ACTION_CALL_ACCEPT} ==>
      (intent.value.extras.None? ==> crashed && context.store == old(context.store) && log.effects == old(log.effects)) &&
      (intent.value.extras.Some? ==> crashed == GetString(intent.value.extras.value, EXTRA_CALL_ID).None?)
    ensures intent.Some? && intent.value.action in {ACTION_CALL_REJECT, ACTION_CALL_ACCEPT} && intent.value.extras.Some? ==>
      var extras := intent.value.extras.value;
      var callId := GetString(extras, EXTRA_CALL_ID);
      var action := intent.value.action;
      (callId.None? ==> context.store == old(context.store) && log.effects == old(log.effects) + Sent(action, extras)) &&
      (callId.Some? ==>
         context.store == WithCallState(old(context.store), callId.value,
                                        if action == ACTION_CALL_REJECT then CALL_STATE_REJECTED else CALL_STATE_ACCEPTED))
    ensures intent.Some? && intent.value.action == ACTION_CALL_REJECT && intent.value.extras.Some? ==>
      var extras := intent.value.extras.value;
      var callId := GetString(extras, EXTRA_CALL_ID);
      callId.Some? ==>
        log.effects == old(log.effects) + Sent(ACTION_CALL_REJECT, extras) +
          [NotificationCancelled(callId.value), LocalBroadcast(CallEndedIntent(callId.value))] +
          (if foreground then []
           else [BackgroundWorkEnqueued(Tagged(ACTION_CALL_REJECT, Rebroadcast(extras), REJECTED_IN_BACKGROUND))])
    ensures intent.Some? && intent.value.action == ACTION_CALL_ACCEPT && intent.value.extras.Some? ==>
      var extras := intent.value.extras.value;
      var callId := GetString(extras, EXTRA_CALL_ID);
      callId.Some? ==>
        log.effects == old(log.effects) + Sent(ACTION_CALL_ACCEPT, extras) +
          (if foreground then []
           else [BackgroundWorkEnqueued(Tagged(ACTION_CALL_ACCEPT, Rebroadcast(extras), ACCEPTED_IN_BACKGROUND))]) +
          [LaunchActivityStarted(ACTION_CALL_ACCEPT)]
  {
    crashed := false;
    if intent.None? || intent.value.action == "" {
      return;
    }
    var action := intent.value.action;
    if action == ACTION_CALL_INCOMING || action == ACTION_CALL_NOTIFICATION_CANCELED {
      var callId := StringExtra(intent.value, EXTRA_CALL_ID);
      log.Record(LocalBroadcast(Intent(action, Some(IdBundle(callId)))));
    } else if action == ACTION_CALL_REJECT || action == ACTION_CALL_ACCEPT {
      if intent.value.extras.None? {
        return true;
      }
      if action == ACTION_CALL_REJECT {
        crashed := OnReject(context, intent.value.extras.value, foreground, log);
      } else {
        crashed := OnAccept(context, intent.value.extras.value, foreground, log);
      }
    }
  }
}
