/** String constants of the Android side. The extras and actions declared in
    `Constants.kt` keep their values; the others (call states, the remaining
    actions and extras, the background-callback names) are declared in a file
    that is not part of this model and are given stand-in values here. Only
    their distinctness and non-emptiness matter to the model. */
module AndroidConstants {

  const EXTRA_CALL_ID := "extra_call_id"
  const EXTRA_CALL_TYPE := "extra_call_type"
  const EXTRA_CALL_INITIATOR_ID := "extra_call_initiator_id"
  const EXTRA_CALL_INITIATOR_NAME := "extra_call_initiator_name"
  const EXTRA_CALL_OPPONENTS := "extra_call_opponents"
  const EXTRA_CALL_PHOTO := "extra_call_photo"
  const EXTRA_CALL_USER_INFO := "extra_call_user_info"
  const EXTRA_PUSH_TOKEN := "extra_push_token"

  const ACTION_CALL_ACCEPT := "action_call_accept"
  const ACTION_CALL_REJECT := "action_call_reject"
  const ACTION_CALL_NOTIFICATION_CANCELED := "action_call_notification_canceled"
  const ACTION_CALL_INCOMING := "action_call_incoming"
  const ACTION_CALL_ENDED := "action_call_ended"
  const ACTION_CALL_TAP := "action_call_tap"
  const ACTION_TOKEN_REFRESHED := "action_token_refreshed"

  const CALL_STATE_PENDING := "pending"
  const CALL_STATE_ACCEPTED := "accepted"
  const CALL_STATE_REJECTED := "rejected"
  const CALL_STATE_UNKNOWN := "unknown"

  /** Names under which the Dart side registers its background callbacks. */
  const REJECTED_IN_BACKGROUND := "rejected_in_background"
  const ACCEPTED_IN_BACKGROUND := "accepted_in_background"
  const INCOMING_IN_BACKGROUND := "incoming_in_background"
  const TAP_IN_BACKGROUND := "tap_in_background"

  /** Extra naming the background callback an enqueued intent is for. */
  const USER_CALLBACK_HANDLE_NAME := "userCallbackHandleName"

  /** The facts about the constants the model relies on. */
  lemma ConstantsDistinct()
    ensures CALL_STATE_PENDING != CALL_STATE_UNKNOWN && CALL_STATE_ACCEPTED != CALL_STATE_UNKNOWN
    ensures CALL_STATE_REJECTED != CALL_STATE_UNKNOWN && CALL_STATE_PENDING != CALL_STATE_ACCEPTED
    ensures CALL_STATE_PENDING != CALL_STATE_REJECTED && CALL_STATE_ACCEPTED != CALL_STATE_REJECTED
    ensures CALL_STATE_PENDING != "" && CALL_STATE_ACCEPTED != "" && CALL_STATE_REJECTED != ""
    ensures |{ACTION_CALL_ACCEPT, ACTION_CALL_REJECT, ACTION_CALL_NOTIFICATION_CANCELED,
              ACTION_CALL_INCOMING, ACTION_CALL_ENDED, ACTION_CALL_TAP, ACTION_TOKEN_REFRESHED}| == 7
    ensures |{REJECTED_IN_BACKGROUND, ACCEPTED_IN_BACKGROUND, INCOMING_IN_BACKGROUND, TAP_IN_BACKGROUND}| == 4
  {
  }

  /** The seven call extras are distinct keys. They differ in length, except
      the opponents and user-info keys, which differ at the first character
      after `extra_call_`. */
  lemma ExtraKeysApart()
    ensures |{EXTRA_CALL_ID, EXTRA_CALL_TYPE, EXTRA_CALL_INITIATOR_ID, EXTRA_CALL_INITIATOR_NAME,
              EXTRA_CALL_OPPONENTS, EXTRA_CALL_PHOTO, EXTRA_CALL_USER_INFO}| == 7
    ensures |EXTRA_CALL_ID| == 13 && |EXTRA_CALL_TYPE| == 15 && |EXTRA_CALL_INITIATOR_ID| == 23
    ensures |EXTRA_CALL_INITIATOR_NAME| == 25 && |EXTRA_CALL_PHOTO| == 16
    ensures |EXTRA_CALL_OPPONENTS| == 20 && |EXTRA_CALL_USER_INFO| == 20
    ensures EXTRA_CALL_OPPONENTS[11] == 'o' && EXTRA_CALL_USER_INFO[11] == 'u'
  {
  }
}
