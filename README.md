# ConnectyCube Flutter call kit: the call registry, in Dafny

This project models the native halves of the ConnectyCube Flutter call-kit
plugin. At their centre is a per-call state registry, written once for each
platform.

- **Android.** The registry sits on a SharedPreferences file: text keyed by
  `callId + "_state"` and `callId + "_data"`, the last call id, and five
  background-callback handles. The model covers:
  - the key-value store (`SharedPrefsUtils.kt`);
  - the registry functions and the `onMethodCall` branches of
    `ConnectycubeFlutterCallKitPlugin.kt`, plus its event-channel receiver
    `CallStreamHandler.onReceive`;
  - the two FCM push handlers (`ConnectycubeFCMService.kt`,
    `ConnectycubeFCMReceiver.kt`), which check a push, drop duplicates and
    record the call;
  - the notification action receiver `EventReceiver.kt`, which handles
    accept and reject.
- **iOS.** `CallKitController.swift` keeps the registry in memory, in three
  dictionaries. `VoIPController.swift` encodes the PushKit token as hex and
  turns a VoIP push into an incoming-call report.

How the model is built:

- Stateful objects are classes, and their methods state their whole new
  state. These are the preferences file, the CallKit controller, the VoIP
  controller and the stream handler.
- Everything the platform does outside the registry is appended to an
  effect log: notifications, broadcasts, Dart events, background work,
  CallKit requests and listener calls.
- "The app is in the foreground" and "the provider reported an error" are
  inputs.
- A Kotlin exception or a Swift trap is a `crashed` result, or an `Error`
  reply. The state is whatever the source had written before that point.

The Android registry keeps one store invariant, `CallRegistry.Typed`:
- handler keys hold longs;
- `*_data` keys hold JSON objects;
- every other key holds plain text.

Every entry point keeps `Typed`, so no registry read meets a
`ClassCastException`.

The main results:
- the call-state machine: accept and reject apply from any state, and
  duplicates are suppressed by the `unknown` check;
- duplicate push delivery: a duplicate invite writes and emits nothing; a
  duplicate end leaves the same store (and sends the cancel and the end
  broadcast again);
- the two FCM handlers agree on the store;
- round trips: opponents split and joined, push data through JSON, the
  token through its hex text, and UUID text;
- "nothing else changes" for every registry write.

Behaviour of the code that the model keeps, and proves where it can be
stated:
- On iOS, a VoIP push is reported under its lower-cased session id. The
  CallKit callbacks key the registry by the UUID's upper-case
  `uuidString`, so an answered call can leave its reported id `pending`
  (`IosVoip.PushThenAnswer`).
- The answer, end, start and mute callbacks hand Dart the data of the call
  reported last, whichever call the callback is for
  (`IosCalls.AnswerReportsLastCall`).
- `clearCallData(uuid)` forgets every call on iOS, and `reportCallEnded`
  sets `pending` there.
- `startCall` with a nil uuid always traps at `uuid!`: the random UUID it
  made is never used.
- On Android, an accept or reject from the notification is re-broadcast
  with `getInt`, which reads a missing call type or caller id as 0. When
  the stream handler reads the event directly from the original extras it
  gets -1 instead (`EventReceiver.RebroadcastEvent`).

The files:
- `values.dfy`: integer widths, Option, and channel values.
- `decimal.dfy`: `toInt()`, `Int(String)` and `toString()`.
- `strings.dfy`: split and join.
- `opponents.dfy`: the `call_opponents` text.
- `hex.dfy`: `%02X`.
- `uuid.dfy`: Foundation's `UUID` text.
- `shared_prefs.dfy`.
- `android_constants.dfy` and `android_platform.dfy`: bundles, intents and
  the effect log.
- `call_registry.dfy`.
- `plugin.dfy`.
- `fcm_payload.dfy`, `fcm_service.dfy` and `fcm_receiver.dfy`.
- `event_receiver.dfy`.
- `callkit_controller.dfy`.
- `voip_controller.dfy`.

Where the two platforms name the call states, the Android model uses the
iOS raw values. The Android file that declares them is not part of this
model, and only the states' distinctness matters.

## Model

| member | source | states |
|---|---|---|
| SharedPrefs.StringAt | android/src/main/kotlin/com/connectycube/flutter/connectycube_flutter_call_kit/utils/SharedPrefsUtils.kt:37-40 | `getString` gives the stored text, `""` for an absent key, and a ClassCast failure exactly when the key holds another type |
| SharedPrefs.IntAt | android/src/main/kotlin/com/connectycube/flutter/connectycube_flutter_call_kit/utils/SharedPrefsUtils.kt:49-52 | `getInt` gives the stored int, -1 for an absent key, ClassCast exactly on another type |
| SharedPrefs.LongAt | android/src/main/kotlin/com/connectycube/flutter/connectycube_flutter_call_kit/utils/SharedPrefsUtils.kt:60-63 | `getLong` gives the stored long, -1L for an absent key, ClassCast exactly on another type |
| SharedPrefs.BooleanAt | android/src/main/kotlin/com/connectycube/flutter/connectycube_flutter_call_kit/utils/SharedPrefsUtils.kt:26-29 | `getBoolean` gives the stored flag, false for an absent key, ClassCast exactly on another type |
| SharedPrefs.AbsentKeyDefaults | android/src/main/kotlin/com/connectycube/flutter/connectycube_flutter_call_kit/utils/SharedPrefsUtils.kt:8-63 | a key never written reads as `""`, -1, -1L and false |
| SharedPrefs.Preferences.constructor | android/src/main/kotlin/com/connectycube/flutter/connectycube_flutter_call_kit/utils/SharedPrefsUtils.kt:11-18 | a fresh preferences file is empty |
| SharedPrefs.Preferences.PutString | android/src/main/kotlin/com/connectycube/flutter/connectycube_flutter_call_kit/utils/SharedPrefsUtils.kt:31-35 | a non-null value reads back; a null one removes the key; every other key reads as before |
| SharedPrefs.Preferences.PutInt | android/src/main/kotlin/com/connectycube/flutter/connectycube_flutter_call_kit/utils/SharedPrefsUtils.kt:43-47 | the int reads back; only that key changes |
| SharedPrefs.Preferences.PutLong | android/src/main/kotlin/com/connectycube/flutter/connectycube_flutter_call_kit/utils/SharedPrefsUtils.kt:54-58 | the long reads back; only that key changes |
| SharedPrefs.Preferences.PutBoolean | android/src/main/kotlin/com/connectycube/flutter/connectycube_flutter_call_kit/utils/SharedPrefsUtils.kt:20-24 | the flag reads back; only that key changes |
| SharedPrefs.Preferences.Remove | android/src/main/kotlin/com/connectycube/flutter/connectycube_flutter_call_kit/utils/SharedPrefsUtils.kt:79-83 | afterwards every getter on the key returns its default; every other key holds what it held |
| AndroidConstants.ConstantsDistinct | android/src/main/kotlin/com/connectycube/flutter/connectycube_flutter_call_kit/Constants.kt:3-10 | the call states are distinct and non-empty; the seven actions and the four background-callback names are pairwise distinct |
| AndroidConstants.ExtraKeysApart | android/src/main/kotlin/com/connectycube/flutter/connectycube_flutter_call_kit/Constants.kt:3-6 | the seven call extras (the four declared there and three stand-ins) are seven distinct keys |
| AndroidPlatform.PutString | android/src/main/kotlin/com/connectycube/flutter/connectycube_flutter_call_kit/EventReceiver.kt:51-57 | the value put reads back through `getString` (a null one as no entry), and every other key keeps its entry |
| AndroidPlatform.GetString | android/src/main/kotlin/com/connectycube/flutter/connectycube_flutter_call_kit/EventReceiver.kt:40 | `getString` is the stored string, null when absent or of another type |
| AndroidPlatform.GetInt | android/src/main/kotlin/com/connectycube/flutter/connectycube_flutter_call_kit/EventReceiver.kt:41-42 | `getInt` is the stored int, or the default when absent or of another type |
| AndroidPlatform.GetIntList | android/src/main/kotlin/com/connectycube/flutter/connectycube_flutter_call_kit/EventReceiver.kt:44 | `getIntegerArrayList` is the stored list, null otherwise |
| Values.FromStrings | android/src/main/kotlin/com/connectycube/flutter/connectycube_flutter_call_kit/ConnectycubeFCMService.kt:78 | the push's string map as call data: same keys, each value the same string |
| Decimal.ParseInt | android/src/main/kotlin/com/connectycube/flutter/connectycube_flutter_call_kit/ConnectycubeFCMService.kt:53-54 | a parse succeeds exactly on an optionally signed digit string whose value lies in range, and gives that value |
| Decimal.SignedValue | android/src/main/kotlin/com/connectycube/flutter/connectycube_flutter_call_kit/ConnectycubeFCMService.kt:53-54 | defined exactly on an optional `+` or `-` followed by one or more ASCII digits, with the value the digits denote, negated after `-` |
| Decimal.ToInt32 | android/src/main/kotlin/com/connectycube/flutter/connectycube_flutter_call_kit/ConnectycubeFCMService.kt:53-54 | Kotlin `toInt()`: the value of a signed ASCII decimal in the 32-bit range, otherwise the NumberFormatException |
| Decimal.ToInt64 | ios/Classes/VoIPController.swift:63-64 | Swift `Int(String)`: the value of a signed decimal in the 64-bit range, otherwise nil |
| Decimal.NatToStringDigits | android/src/main/kotlin/com/connectycube/flutter/connectycube_flutter_call_kit/ConnectycubeFlutterCallKitPlugin.kt:629-630 | the decimal text of a natural number is non-empty, all digits, and its digits denote the number |
| Decimal.IntToStringChars | android/src/main/kotlin/com/connectycube/flutter/connectycube_flutter_call_kit/ConnectycubeFlutterCallKitPlugin.kt:629-630 | the text of an integer is digits with a leading `-` exactly when it is negative, so it never contains a comma |
| Decimal.ParseIntToString | android/src/main/kotlin/com/connectycube/flutter/connectycube_flutter_call_kit/ConnectycubeFlutterCallKitPlugin.kt:154-156 | parsing the decimal text of an in-range integer gives the integer back |
| Decimal.ToInt32OfToString | android/src/main/kotlin/com/connectycube/flutter/connectycube_flutter_call_kit/ConnectycubeFlutterCallKitPlugin.kt:154-156 | `x.toString().toInt() == x` for every Kotlin `Int` |
| Decimal.ToInt64OfToString | ios/Classes/VoIPController.swift:63-64 | `Int(String(x)) == x` for every Swift `Int` |
| Strings.Split | android/src/main/kotlin/com/connectycube/flutter/connectycube_flutter_call_kit/ConnectycubeFlutterCallKitPlugin.kt:154-155 | `split(',')` always yields at least one piece |
| Strings.SplitPieces | android/src/main/kotlin/com/connectycube/flutter/connectycube_flutter_call_kit/ConnectycubeFlutterCallKitPlugin.kt:154-155 | no piece contains the separator, and there is one piece more than there are separators |
| Strings.SplitWithoutSeparator | android/src/main/kotlin/com/connectycube/flutter/connectycube_flutter_call_kit/ConnectycubeFlutterCallKitPlugin.kt:154-155 | a text without the separator splits into itself alone |
| Strings.SplitAtFirstSeparator | android/src/main/kotlin/com/connectycube/flutter/connectycube_flutter_call_kit/ConnectycubeFlutterCallKitPlugin.kt:154-155 | splitting `a + sep + b`, `a` separator-free, gives `a` followed by the pieces of `b` |
| Strings.SplitJoin | android/src/main/kotlin/com/connectycube/flutter/connectycube_flutter_call_kit/ConnectycubeFlutterCallKitPlugin.kt:629-630 | splitting the join of a non-empty list of separator-free pieces gives the list back |
| Opponents.ToStrings | ios/Classes/CallKitController.swift:117 | `map { String($0) }`: one decimal text per id, in order |
| Opponents.Widen | android/src/main/kotlin/com/connectycube/flutter/connectycube_flutter_call_kit/ConnectycubeFlutterCallKitPlugin.kt:630 | the Kotlin ints as integers, in order |
| Opponents.JoinKotlin | android/src/main/kotlin/com/connectycube/flutter/connectycube_flutter_call_kit/ConnectycubeFlutterCallKitPlugin.kt:630 | `joinToString(separator = ",")`: the empty list gives `""`, and a non-empty one splits back into its ids' decimal texts |
| Opponents.JoinSwift | ios/Classes/CallKitController.swift:117 | `map { String($0) }.joined(separator: ",")`: the empty list gives `""`, and a non-empty one splits back into its ids' decimal texts |
| Opponents.ParsePieces | android/src/main/kotlin/com/connectycube/flutter/connectycube_flutter_call_kit/ConnectycubeFlutterCallKitPlugin.kt:156 | `map { it.toInt() }`: succeeds exactly when every piece parses, and then gives them in order |
| Opponents.ParseKotlin | android/src/main/kotlin/com/connectycube/flutter/connectycube_flutter_call_kit/ConnectycubeFlutterCallKitPlugin.kt:154-156 | `split(',').map { it.toInt() }`: the parse of every piece of the split, never an empty list |
| Opponents.ParseSwift | ios/Classes/VoIPController.swift:62-64 | `components(separatedBy: ",").map { Int($0) ?? 0 }`: one id per piece, 0 for a piece that is not a 64-bit integer |
| Opponents.NoCommaInDecimals | ios/Classes/CallKitController.swift:117 | no id's decimal text contains a comma |
| Opponents.OpponentsRoundTripKotlin | android/src/main/kotlin/com/connectycube/flutter/connectycube_flutter_call_kit/ConnectycubeFlutterCallKitPlugin.kt:154-156 | a non-empty list joined with `,` parses back to itself; the empty list joins to `""`, which throws |
| Opponents.OpponentsRoundTripSwift | ios/Classes/CallKitController.swift:117 | a non-empty list of 64-bit ids joined with `,` parses back to itself; the empty list comes back as `[0]` |
| Hex.HexDigit | ios/Classes/VoIPController.swift:41 | a nibble becomes an upper-case hex digit whose value is the nibble |
| Hex.HexDigitValue | ios/Classes/VoIPController.swift:41 | an upper-case hex digit's value is a nibble, and it inverts `HexDigit` |
| Hex.ByteHex | ios/Classes/VoIPController.swift:41 | `String(format: "%02X", b)`: two upper-case hex digits whose values make up the byte, high nibble first |
| Hex.HexFold | ios/Classes/VoIPController.swift:41 | the `reduce` fold as written: the accumulator followed by the byte texts in order |
| Hex.EncodeToken | ios/Classes/VoIPController.swift:41 | the device token text is the byte texts concatenated in order |
| Hex.ConcatAt | ios/Classes/VoIPController.swift:41 | character `2i` of the text is byte `i`'s high digit and character `2i+1` its low digit |
| Hex.EncodeTokenSpec | ios/Classes/VoIPController.swift:41 | the token text has two upper-case hex digits per byte, in byte order, high nibble first |
| Hex.DecodeConcat | ios/Classes/VoIPController.swift:41 | reading the concatenated byte texts two digits at a time gives the bytes back |
| Hex.DecodeLength | ios/Classes/VoIPController.swift:41 | a text that decodes has two digits per decoded byte |
| Hex.DecodeEncodeToken | ios/Classes/VoIPController.swift:41 | the token text decodes back to the token bytes |
| Hex.EncodeTokenInjective | ios/Classes/VoIPController.swift:41 | distinct tokens have distinct texts |
| CallRegistry.KeyShapes | android/src/main/kotlin/com/connectycube/flutter/connectycube_flutter_call_kit/ConnectycubeFlutterCallKitPlugin.kt:412-548 | a call's state and data keys differ from each other, from `last_call_id` and from every handler key |
| CallRegistry.KeysInjective | android/src/main/kotlin/com/connectycube/flutter/connectycube_flutter_call_kit/ConnectycubeFlutterCallKitPlugin.kt:412-457 | distinct call ids use distinct state keys and distinct data keys, and no call's state key is another's data key |
| CallRegistry.StoredCallData | android/src/main/kotlin/com/connectycube/flutter/connectycube_flutter_call_kit/utils/StringUtils.kt:62-85 | data read back from its JSON has the same keys, each value turned into its text |
| CallRegistry.CallStateIn | android/src/main/kotlin/com/connectycube/flutter/connectycube_flutter_call_kit/ConnectycubeFlutterCallKitPlugin.kt:418-426 | never empty; `unknown` when the key is absent or holds `""`; otherwise the stored text |
| CallRegistry.CallDataIn | android/src/main/kotlin/com/connectycube/flutter/connectycube_flutter_call_kit/ConnectycubeFlutterCallKitPlugin.kt:428-436 | present exactly when the key holds call data, and then that data as read back from JSON |
| CallRegistry.LastCallIdIn | android/src/main/kotlin/com/connectycube/flutter/connectycube_flutter_call_kit/ConnectycubeFlutterCallKitPlugin.kt:564-568 | `""` before any call id was saved, otherwise the saved id |
| CallRegistry.HandlerIn | android/src/main/kotlin/com/connectycube/flutter/connectycube_flutter_call_kit/ConnectycubeFlutterCallKitPlugin.kt:479-548 | the saved handle, or -1 when none was saved |
| CallRegistry.TypedReadsSucceed | android/src/main/kotlin/com/connectycube/flutter/connectycube_flutter_call_kit/ConnectycubeFlutterCallKitPlugin.kt:418-548 | in a typed store every registry read gets a value of the type it expects |
| CallRegistry.WriteElsewhere | android/src/main/kotlin/com/connectycube/flutter/connectycube_flutter_call_kit/utils/SharedPrefsUtils.kt:31-35 | a write to one key leaves the string and long reads of every other key as they were |
| CallRegistry.RemoveElsewhere | android/src/main/kotlin/com/connectycube/flutter/connectycube_flutter_call_kit/utils/SharedPrefsUtils.kt:79-83 | removing keys leaves the reads of every other key as they were |
| CallRegistry.WriteKeepsHandlers | android/src/main/kotlin/com/connectycube/flutter/connectycube_flutter_call_kit/utils/SharedPrefsUtils.kt:31-35 | a write outside the handler keys keeps every handler |
| CallRegistry.CallStateTyped | android/src/main/kotlin/com/connectycube/flutter/connectycube_flutter_call_kit/ConnectycubeFlutterCallKitPlugin.kt:412-416 | `saveCallState` keeps the store typed |
| CallRegistry.CallStateWrite | android/src/main/kotlin/com/connectycube/flutter/connectycube_flutter_call_kit/ConnectycubeFlutterCallKitPlugin.kt:412-426 | after `saveCallState(id, s)`, `getCallState(id)` is `s`, or `unknown` when `s` is empty; the data, last call id, handlers and every other call are unchanged |
| CallRegistry.CallDataTyped | android/src/main/kotlin/com/connectycube/flutter/connectycube_flutter_call_kit/ConnectycubeFlutterCallKitPlugin.kt:438-446 | `saveCallData` keeps the store typed |
| CallRegistry.CallDataWrite | android/src/main/kotlin/com/connectycube/flutter/connectycube_flutter_call_kit/ConnectycubeFlutterCallKitPlugin.kt:428-446 | after `saveCallData`, `getCallData` reads the data back through JSON; states, last call id, handlers and other calls are unchanged |
| CallRegistry.LastCallIdWrite | android/src/main/kotlin/com/connectycube/flutter/connectycube_flutter_call_kit/ConnectycubeFlutterCallKitPlugin.kt:459-467 | after `saveCallId`, `getLastCallId` gives the id; every call and handler is unchanged |
| CallRegistry.ClearTyped | android/src/main/kotlin/com/connectycube/flutter/connectycube_flutter_call_kit/ConnectycubeFlutterCallKitPlugin.kt:448-457 | `clearCallData` keeps the store typed |
| CallRegistry.ClearCall | android/src/main/kotlin/com/connectycube/flutter/connectycube_flutter_call_kit/ConnectycubeFlutterCallKitPlugin.kt:448-457 | after `clearCallData(id)` the call reads `unknown` with null data; the last call id, handlers and every other call are unchanged |
| CallRegistry.HandlerWrite | android/src/main/kotlin/com/connectycube/flutter/connectycube_flutter_call_kit/ConnectycubeFlutterCallKitPlugin.kt:469-548 | a saved handle reads back from its slot; other slots, calls and the last call id are unchanged |
| CallRegistry.InviteTyped | android/src/main/kotlin/com/connectycube/flutter/connectycube_flutter_call_kit/ConnectycubeFlutterCallKitPlugin.kt:171-173 | the three writes of a shown call keep the store typed |
| CallRegistry.InvitedPending | android/src/main/kotlin/com/connectycube/flutter/connectycube_flutter_call_kit/ConnectycubeFlutterCallKitPlugin.kt:171 | a recorded call reads `pending` |
| CallRegistry.InviteRecorded | android/src/main/kotlin/com/connectycube/flutter/connectycube_flutter_call_kit/ConnectycubeFlutterCallKitPlugin.kt:171-173 | a recorded call is pending, its data reads back, it is the last call, and other calls and handlers are unchanged |
| CallRegistry.GetCallState | android/src/main/kotlin/com/connectycube/flutter/connectycube_flutter_call_kit/ConnectycubeFlutterCallKitPlugin.kt:418-426 | never the empty string; `unknown` without a context; with one, the state read from the store |
| CallRegistry.GetCallData | android/src/main/kotlin/com/connectycube/flutter/connectycube_flutter_call_kit/ConnectycubeFlutterCallKitPlugin.kt:428-436 | null without a context; with one, the stored data read back from JSON, or null |
| CallRegistry.GetLastCallId | android/src/main/kotlin/com/connectycube/flutter/connectycube_flutter_call_kit/ConnectycubeFlutterCallKitPlugin.kt:564-568 | null exactly when there is no context; with one, the saved id or `""` |
| CallRegistry.GetHandler | android/src/main/kotlin/com/connectycube/flutter/connectycube_flutter_call_kit/ConnectycubeFlutterCallKitPlugin.kt:479-548 | -1 without a context; with one, the saved handle or -1 |
| CallRegistry.SaveCallState | android/src/main/kotlin/com/connectycube/flutter/connectycube_flutter_call_kit/ConnectycubeFlutterCallKitPlugin.kt:412-416 | with a context, the store becomes the state write; without one nothing happens |
| CallRegistry.SaveCallData | android/src/main/kotlin/com/connectycube/flutter/connectycube_flutter_call_kit/ConnectycubeFlutterCallKitPlugin.kt:438-446 | with a context, the store becomes the data write |
| CallRegistry.SaveCallId | android/src/main/kotlin/com/connectycube/flutter/connectycube_flutter_call_kit/ConnectycubeFlutterCallKitPlugin.kt:459-467 | with a context, the store becomes the last-call-id write |
| CallRegistry.ClearCallData | android/src/main/kotlin/com/connectycube/flutter/connectycube_flutter_call_kit/ConnectycubeFlutterCallKitPlugin.kt:448-457 | with a context, the call's two keys are removed |
| CallRegistry.SaveHandler | android/src/main/kotlin/com/connectycube/flutter/connectycube_flutter_call_kit/ConnectycubeFlutterCallKitPlugin.kt:469-542 | with a context, the handle is stored in its slot |
| CallRegistry.RecordInvite | android/src/main/kotlin/com/connectycube/flutter/connectycube_flutter_call_kit/ConnectycubeFlutterCallKitPlugin.kt:171-173 | state `pending`, the data, then the last call id, in that order |
| CallRegistry.ProcessCallEnded | android/src/main/kotlin/com/connectycube/flutter/connectycube_flutter_call_kit/ConnectycubeFlutterCallKitPlugin.kt:550-561 | the call becomes `rejected` from any state, its notification is cancelled and the end is broadcast; without a context nothing happens |
| Values.AsString | android/src/main/kotlin/com/connectycube/flutter/connectycube_flutter_call_kit/ConnectycubeFlutterCallKitPlugin.kt:144 | `as String` (and Swift's `as! String` in `VoIPController.swift`) succeeds exactly on a present string, with that string |
| CallKitPlugin.AsInt | android/src/main/kotlin/com/connectycube/flutter/connectycube_flutter_call_kit/ConnectycubeFlutterCallKitPlugin.kt:151-152 | `as Int` succeeds exactly on a present int |
| CallKitPlugin.AsBoolean | android/src/main/kotlin/com/connectycube/flutter/connectycube_flutter_call_kit/ConnectycubeFlutterCallKitPlugin.kt:274 | `as Boolean` succeeds exactly on a present flag |
| CallKitPlugin.AsNullableString | android/src/main/kotlin/com/connectycube/flutter/connectycube_flutter_call_kit/ConnectycubeFlutterCallKitPlugin.kt:157 | `as String?` is null on an absent or null value, the string on a string, and throws on anything else |
| CallKitPlugin.AsHandle | android/src/main/kotlin/com/connectycube/flutter/connectycube_flutter_call_kit/ConnectycubeFlutterCallKitPlugin.kt:98-112 | -1 when absent or null; a long as itself; an int widened; anything else throws |
| CallKitPlugin.NotificationArgs | android/src/main/kotlin/com/connectycube/flutter/connectycube_flutter_call_kit/ConnectycubeFlutterCallKitPlugin.kt:151-158 | the casts succeed exactly when each argument has its type and the opponents parse; the call then carries those values and at least one opponent |
| CallKitPlugin.NotificationOpponentsRoundTrip | android/src/main/kotlin/com/connectycube/flutter/connectycube_flutter_call_kit/ConnectycubeFlutterCallKitPlugin.kt:154-156 | arguments whose opponents text was joined from a non-empty list are accepted, with that list |
| CallKitPlugin.ShowCallNotification | android/src/main/kotlin/com/connectycube/flutter/connectycube_flutter_call_kit/ConnectycubeFlutterCallKitPlugin.kt:140-179 | a known call is refused with success and no change, so a repeated call changes nothing; otherwise the call is shown and recorded as pending with its arguments as data and as the last call; a bad cast or missing context is an error with no write |
| CallKitPlugin.PutPlainKeepsRegistry | android/src/main/kotlin/com/connectycube/flutter/connectycube_flutter_call_kit/ConnectycubeFlutterCallKitPlugin.kt:190-193 | a plain string outside the registry's keys keeps the store typed and every call, the last call id and the handlers unchanged |
| CallKitPlugin.ConfigKeysApart | android/src/main/kotlin/com/connectycube/flutter/connectycube_flutter_call_kit/ConnectycubeFlutterCallKitPlugin.kt:190-193 | the four configuration keys lie outside the registry's key families |
| CallKitPlugin.ConfigKeepsRegistry | android/src/main/kotlin/com/connectycube/flutter/connectycube_flutter_call_kit/ConnectycubeFlutterCallKitPlugin.kt:190-193 | the configuration writes leave the registry as it was |
| CallKitPlugin.UpdateConfig | android/src/main/kotlin/com/connectycube/flutter/connectycube_flutter_call_kit/ConnectycubeFlutterCallKitPlugin.kt:181-199 | succeeds exactly when the four values cast and there is a context, then stores or removes each of them; otherwise an error with no write |
| CallKitPlugin.ReportCallAccepted | android/src/main/kotlin/com/connectycube/flutter/connectycube_flutter_call_kit/ConnectycubeFlutterCallKitPlugin.kt:201-214 | with a session id and a context, the notification is cancelled and the call becomes `accepted` from any state; otherwise an error with no change |
| CallKitPlugin.ReportCallEnded | android/src/main/kotlin/com/connectycube/flutter/connectycube_flutter_call_kit/ConnectycubeFlutterCallKitPlugin.kt:216-229 | with a session id the reply is success and, with a context, the call becomes `rejected` with the cancel and end broadcast |
| CallKitPlugin.GetCallStateBranch | android/src/main/kotlin/com/connectycube/flutter/connectycube_flutter_call_kit/ConnectycubeFlutterCallKitPlugin.kt:231-241 | replies with the call's state, or an error without a session id; on a store that keeps the registry invariant |
| CallKitPlugin.SetCallState | android/src/main/kotlin/com/connectycube/flutter/connectycube_flutter_call_kit/ConnectycubeFlutterCallKitPlugin.kt:243-256 | any string is stored as the state, unvalidated; a bad cast is an error with no write |
| CallKitPlugin.GetCallDataBranch | android/src/main/kotlin/com/connectycube/flutter/connectycube_flutter_call_kit/ConnectycubeFlutterCallKitPlugin.kt:258-268 | replies with the stored data or null; on a store that keeps the registry invariant |
| CallKitPlugin.SetOnLockScreenVisibility | android/src/main/kotlin/com/connectycube/flutter/connectycube_flutter_call_kit/ConnectycubeFlutterCallKitPlugin.kt:270-281 | a boolean `is_visible` is applied and succeeds; anything else is an error |
| CallKitPlugin.ClearCallDataBranch | android/src/main/kotlin/com/connectycube/flutter/connectycube_flutter_call_kit/ConnectycubeFlutterCallKitPlugin.kt:283-294 | with a session id the call's keys are removed and the reply is success |
| CallKitPlugin.GetLastCallIdBranch | android/src/main/kotlin/com/connectycube/flutter/connectycube_flutter_call_kit/ConnectycubeFlutterCallKitPlugin.kt:296-302 | null without a context, otherwise the stored id (`""` before any call); on a store that keeps the registry invariant |
| CallKitPlugin.CallbackSlot | android/src/main/kotlin/com/connectycube/flutter/connectycube_flutter_call_kit/ConnectycubeFlutterCallKitPlugin.kt:125-133 | a recognised callback name selects a user handler slot, never the plugin slot |
| CallKitPlugin.IsolateHandlersRecorded | android/src/main/kotlin/com/connectycube/flutter/connectycube_flutter_call_kit/ConnectycubeFlutterCallKitPlugin.kt:123-133 | the plugin handle and the named user handle read back; every other slot and every call are unchanged |
| CallKitPlugin.StartBackgroundIsolate | android/src/main/kotlin/com/connectycube/flutter/connectycube_flutter_call_kit/ConnectycubeFlutterCallKitPlugin.kt:88-138 | a handle of the wrong type throws before any write; otherwise the handles are saved, the isolate started, and no reply is sent |
| CallKitPlugin.OnMethodCall | android/src/main/kotlin/com/connectycube/flutter/connectycube_flutter_call_kit/ConnectycubeFlutterCallKitPlugin.kt:71-336 | an unknown method is not implemented and changes nothing; the read-only and platform branches change nothing |
| CallKitPlugin.CallEventArgs | android/src/main/kotlin/com/connectycube/flutter/connectycube_flutter_call_kit/ConnectycubeFlutterCallKitPlugin.kt:624-632 | the event map carries exactly the seven call keys, with the session id |
| CallKitPlugin.CallStreamHandler.constructor | android/src/main/kotlin/com/connectycube/flutter/connectycube_flutter_call_kit/ConnectycubeFlutterCallKitPlugin.kt:570-574 | no event sink yet |
| CallKitPlugin.CallStreamHandler.OnListen | android/src/main/kotlin/com/connectycube/flutter/connectycube_flutter_call_kit/ConnectycubeFlutterCallKitPlugin.kt:576-580 | the sink is set |
| CallKitPlugin.CallStreamHandler.OnReceive | android/src/main/kotlin/com/connectycube/flutter/connectycube_flutter_call_kit/ConnectycubeFlutterCallKitPlugin.kt:601-670 | reject sets `rejected` and accept `accepted`; incoming, tap, other actions and an empty call id change no state; events reach Dart only with a sink; accept without a context writes nothing (`saveCallState` ignores a null context) and throws at `context!!` after the Dart event |
| FcmPayload.Get | android/src/main/kotlin/com/connectycube/flutter/connectycube_flutter_call_kit/ConnectycubeFCMService.kt:43 | `data[key]` is the value exactly when the key is present |
| FcmPayload.ParseInvite | android/src/main/kotlin/com/connectycube/flutter/connectycube_flutter_call_kit/ConnectycubeFCMService.kt:53-65 | throws exactly when a present number does not parse; complete exactly when the four required fields are present, with at least one opponent and `user_info` defaulting to `"{}"` |
| FcmPayload.ReadInviteFields | android/src/main/kotlin/com/connectycube/flutter/connectycube_flutter_call_kit/ConnectycubeFCMService.kt:53-65 | the step-by-step reads with early returns agree with `ParseInvite` |
| FcmPayload.PushDataRoundTrip | android/src/main/kotlin/com/connectycube/flutter/connectycube_flutter_call_kit/ConnectycubeFCMService.kt:78 | the saved push data reads back unchanged |
| FcmPayload.Dispatch | android/src/main/kotlin/com/connectycube/flutter/connectycube_flutter_call_kit/ConnectycubeFCMService.kt:17-31 | `startCall` is an invite, `endCall` and `rejectCall` an end, anything else or nothing changes nothing |
| FcmPayload.HandleMessage | android/src/main/kotlin/com/connectycube/flutter/connectycube_flutter_call_kit/ConnectycubeFCMService.kt:16-33 | only a `startCall` push can throw, and a throw leaves the store as it was and emits nothing |
| FcmPayload.HandleEnd | android/src/main/kotlin/com/connectycube/flutter/connectycube_flutter_call_kit/ConnectycubeFCMService.kt:35-40 | never throws; without a `session_id` nothing happens; otherwise the call reads `rejected` |
| FcmPayload.HandleInvite | android/src/main/kotlin/com/connectycube/flutter/connectycube_flutter_call_kit/ConnectycubeFCMService.kt:42-80 | nothing is written unless something is emitted, a throw emits nothing and comes from a bad number, and only a new, complete invite emits |
| FcmPayload.InviteEffects | android/src/main/kotlin/com/connectycube/flutter/connectycube_flutter_call_kit/ConnectycubeFCMReceiver.kt:89-115 | the notification comes last, without a photo from the service; only the receiver broadcasts the incoming call before it |
| FcmPayload.EndRejects | android/src/main/kotlin/com/connectycube/flutter/connectycube_flutter_call_kit/ConnectycubeFCMService.kt:35-40 | no `session_id` changes nothing; otherwise the call is `rejected` from any state and other calls are untouched |
| FcmPayload.InviteOutcome | android/src/main/kotlin/com/connectycube/flutter/connectycube_flutter_call_kit/ConnectycubeFCMService.kt:42-80 | no id or a known call: nothing; a bad number: throws with no write; an incomplete push: nothing; otherwise pending, data read back unchanged, last call id, all else untouched |
| FcmPayload.DuplicateInviteIgnored | android/src/main/kotlin/com/connectycube/flutter/connectycube_flutter_call_kit/ConnectycubeFCMReceiver.kt:64-71 | delivering the same invite twice writes and emits nothing the second time |
| FcmPayload.DuplicateEndSameStore | android/src/main/kotlin/com/connectycube/flutter/connectycube_flutter_call_kit/ConnectycubeFCMReceiver.kt:51-58 | a repeated end leaves the store as the first did |
| FcmPayload.HandlersAgreeOnStore | android/src/main/kotlin/com/connectycube/flutter/connectycube_flutter_call_kit/ConnectycubeFCMReceiver.kt:60-120 | the receiver and the service leave the same store and throw alike |
| FcmService.OnMessageReceived | android/src/main/kotlin/com/connectycube/flutter/connectycube_flutter_call_kit/ConnectycubeFCMService.kt:12-33 | the store, effects and throw are those of the dispatched handler; the store stays typed |
| FcmService.ProcessEndCallEvent | android/src/main/kotlin/com/connectycube/flutter/connectycube_flutter_call_kit/ConnectycubeFCMService.kt:35-40 | the end event's store and effects |
| FcmService.ProcessInviteCallEvent | android/src/main/kotlin/com/connectycube/flutter/connectycube_flutter_call_kit/ConnectycubeFCMService.kt:42-80 | the invite's store, effects (a notification without photo) and throw |
| FcmReceiver.OnReceive | android/src/main/kotlin/com/connectycube/flutter/connectycube_flutter_call_kit/ConnectycubeFCMReceiver.kt:17-49 | a null context throws; an intent without extras is ignored; otherwise the dispatched handler's outcome |
| FcmReceiver.ProcessEndCallEvent | android/src/main/kotlin/com/connectycube/flutter/connectycube_flutter_call_kit/ConnectycubeFCMReceiver.kt:51-58 | the end event's store and effects |
| FcmReceiver.ProcessInviteCallEvent | android/src/main/kotlin/com/connectycube/flutter/connectycube_flutter_call_kit/ConnectycubeFCMReceiver.kt:60-120 | the invite's store and throw; an accepted invite broadcasts the incoming call, then shows it with its photo |
| EventReceiver.Rebroadcast | android/src/main/kotlin/com/connectycube/flutter/connectycube_flutter_call_kit/EventReceiver.kt:39-58 | the re-broadcast bundle carries the id, name, photo, user info and opponents over, and the type and caller id as read with default 0 |
| EventReceiver.RebroadcastEvent | android/src/main/kotlin/com/connectycube/flutter/connectycube_flutter_call_kit/EventReceiver.kt:39-58 | Dart sees the same call from the re-broadcast as from the original extras, except that a missing type or caller id arrives as 0 instead of -1 |
| EventReceiver.OnReject | android/src/main/kotlin/com/connectycube/flutter/connectycube_flutter_call_kit/EventReceiver.kt:38-74 | re-broadcast, cancel, then `rejected` from any state with the end broadcast; background work tagged `REJECTED_IN_BACKGROUND` only when not in the foreground; no call id throws after the cancel |
| EventReceiver.OnAccept | android/src/main/kotlin/com/connectycube/flutter/connectycube_flutter_call_kit/EventReceiver.kt:76-116 | re-broadcast, cancel, then `accepted` from any state; background work tagged `ACCEPTED_IN_BACKGROUND` only when not in the foreground; then the launch activity |
| EventReceiver.OnReceive | android/src/main/kotlin/com/connectycube/flutter/connectycube_flutter_call_kit/EventReceiver.kt:17-140 | a null intent, empty or unknown action changes nothing; incoming and cancelled only re-broadcast the id; accept and reject without extras throw with no change |
| Uuid.Upper | ios/Classes/CallKitController.swift:146 | the upper-cased text, character by character |
| Uuid.Lower | ios/Classes/VoIPController.swift:67 | `lowercased()`, character by character |
| Uuid.Parse | ios/Classes/CallKitController.swift:110 | `UUID(uuidString:)` succeeds exactly on 8-4-4-4-12 hex text in either case, and its `uuidString` is that text upper-cased |
| Uuid.ParseCanonical | ios/Classes/CallKitController.swift:146 | a `uuidString` parses back to the same UUID |
| Uuid.ParseLower | ios/Classes/VoIPController.swift:67 | lower-casing a UUID's text does not change the UUID it denotes |
| Uuid.LowerDiffers | ios/Classes/VoIPController.swift:67 | the lower-cased text differs from `uuidString` exactly when the UUID has a hex letter |
| IosCalls.FromRawValue | ios/Classes/CallKitController.swift:30-35 | `CallState(rawValue:)` recognises exactly the four raw values |
| IosCalls.RawValueRoundTrip | ios/Classes/CallKitController.swift:30-35 | every state's raw value maps back to it |
| IosCalls.Reported | ios/Classes/CallKitController.swift:113-118 | the data written at a report is a record of the call, with every other entry of the previous call data kept |
| IosCalls.ReportedReadsBack | ios/Classes/CallKitController.swift:113-121 | the record's fields read back as reported, the opponents text parsing back to the list, and a nil user info leaving no key |
| IosCalls.CallKitController.constructor | ios/Classes/CallKitController.swift:41-51 | no listener, empty dictionaries |
| IosCalls.CallKitController.GetCallState | ios/Classes/CallKitController.swift:150-152 | the stored state, `unknown` for a call with no entry |
| IosCalls.CallKitController.GetCallData | ios/Classes/CallKitController.swift:158-160 | the stored record, `[:]` for a call with no entry |
| IosCalls.CallKitController.ReportIncomingCall | ios/Classes/CallKitController.swift:91-124 | text that is not a UUID traps with no change; otherwise the call is reported, and without a provider error it is pending under the given text with its record as the current data; with an error nothing else changes |
| IosCalls.CallKitController.ReportOutgoingCall | ios/Classes/CallKitController.swift:126-133 | a connecting or connected report; the registry is untouched |
| IosCalls.CallKitController.ReportCallEnded | ios/Classes/CallKitController.swift:135-148 | the call's state becomes `pending`, not rejected; its data stays |
| IosCalls.CallKitController.SetCallState | ios/Classes/CallKitController.swift:154-156 | a recognised raw value is stored; any other text removes the entry so the call reads `unknown`; other calls are unchanged |
| IosCalls.CallKitController.ClearCallData | ios/Classes/CallKitController.swift:162-165 | every call, not only the given one, reads `unknown` with `[:]` |
| IosCalls.CallKitController.End | ios/Classes/CallKitController.swift:171-178 | the call becomes `rejected` and an end transaction is requested |
| IosCalls.CallKitController.SetHeldCall | ios/Classes/CallKitController.swift:190-198 | a hold transaction; no call state or data changes |
| IosCalls.CallKitController.SetMute | ios/Classes/CallKitController.swift:200-205 | a mute transaction; no call state or data changes |
| IosCalls.CallKitController.StartCallRequest | ios/Classes/CallKitController.swift:207-219 | traps exactly when the uuid is nil or not a UUID; otherwise the call is `accepted` under the given text and a start transaction requested |
| IosCalls.CallKitController.Notify | ios/Classes/CallKitController.swift:40 | the listener, when set, receives the event |
| IosCalls.CallKitController.PerformAnswer | ios/Classes/CallKitController.swift:229-234 | the listener gets the current call data and the call becomes `accepted` |
| IosCalls.CallKitController.PerformEnd | ios/Classes/CallKitController.swift:243-248 | the listener gets the current call data and the call becomes `rejected` |
| IosCalls.CallKitController.PerformSetHeld | ios/Classes/CallKitController.swift:250-254 | the listener gets the hold flag; no call state or data changes |
| IosCalls.CallKitController.PerformSetMuted | ios/Classes/CallKitController.swift:256-265 | the listener gets muted or unmuted; no call state or data changes |
| IosCalls.CallKitController.PerformStart | ios/Classes/CallKitController.swift:267-272 | the listener gets the current call data and the call becomes `accepted` |
| IosCalls.AnswerReportsLastCall | ios/Classes/CallKitController.swift:229-234 | after two reports, answering the first hands the listener the second's record |
| IosVoip.AsInt | ios/Classes/VoIPController.swift:59-60 | `as! Int` succeeds exactly on a present integer, with its value |
| IosVoip.ReadPush | ios/Classes/VoIPController.swift:55-65 | malformed exactly when one of the five forced casts fails; otherwise the fields as read, the opponents parsed piece by piece |
| IosVoip.VoIPController.constructor | ios/Classes/VoIPController.swift:16-24 | no listener, no token |
| IosVoip.VoIPController.GetVoIPToken | ios/Classes/VoIPController.swift:26-28 | nil before a token, otherwise hex text that decodes to a non-empty token of half its length |
| IosVoip.VoIPController.DidUpdatePushCredentials | ios/Classes/VoIPController.swift:33-50 | an empty token changes nothing; otherwise `getVoIPToken()` is the hex text, twice as long as the token and decoding back to it, and a set listener receives exactly it |
| IosVoip.VoIPController.DidReceiveIncomingPush | ios/Classes/VoIPController.swift:52-80 | a non-VoIP push completes once and reports nothing; a failed cast traps; otherwise the call is reported under the lower-cased id and completion runs once, unless that id is not a UUID; a report without provider error sets the current call data and records it with `pending`; the listener and its events are untouched |
| IosVoip.PushThenAnswer | ios/Classes/VoIPController.swift:67 | after a push whose id has a hex letter is answered, the reported id still reads `pending` while `uuidString` reads `accepted` |

## Left out

- Background dispatch (`JobIntentService`, the background performing service and executor): enqueueing is the effect `BackgroundWorkEnqueued` and starting the isolate is `BackgroundIsolateStarted`; the concurrency behind them is not modelled.
- Notification and UI code (`NotificationsManager.kt`, the activities, images): showing and cancelling a notification, and the launch activity, are logged effects.
- `isApplicationForeground` is an OS query; it is the `foreground` parameter.
- `getDouble`/`putDouble`: floating point.
- JSON: call data is kept as the map it came from; reading it back turns each value into its text (`CallRegistry.JsonRoundTrip`). Nested arrays and objects never occur in the stored maps and are not modelled; a failing `mapToJsonString` is not modelled.
- `getVoipToken` and `canUseFullScreenIntent` answer from Firebase and Android services; their reply is `FromPlatform`. `provideFullScreenIntentAccess` opens a settings screen; it replies success and changes nothing in the model.
- CallKitPlugin.OnMethodCall: states only what it does itself (unknown names, read-only and platform branches); for every other branch it delegates to the branch method whose contract states the effect.
- CallKitPlugin.SetOnLockScreenVisibility: the request goes through `mainActivity?.`, which does nothing without an activity; `mainActivity` is not modelled, so the `ShowWhenLocked` effect is logged whenever the cast succeeds. The Flutter shell arguments of `startBackgroundIsolate` are not modelled either.
- `ContextHolder.applicationContext` is a global that nothing in the core reads.
- EventReceiver.OnAccept and EventReceiver.OnReject: the intent passed to the background isolate is the broadcast intent mutated after it was sent; the model sends the broadcast as a value and the background work as the tagged copy, without aliasing.
- EventReceiver.OnAccept: a missing launch intent is still started (`startActivity(null)`); the model logs the launch unconditionally.
- CallKitPlugin.CallStreamHandler.OnReceive: likewise, on an accept with a context, `getLaunchIntent` may return null and `startActivity` is still called with it; the model logs `LaunchActivityStarted` whenever there is a context.
- The `NotificationIdCancelled` effect stands for `cancel(callId.hashCode())`; the hash is not modelled.
- Concurrency between push, UI and broadcast threads, and durability across restarts.
- FcmReceiver.OnReceive: a null intent, which throws at `intent!!`, is not modelled; the model receives the intent's extras as the push data map, or `None` when there are none.
- Android constants declared outside `Constants.kt`, in a file this model does not cover, have stand-in values; only their distinctness is used.
- `notifyAboutIncomingCall`, `onNewIntent`, `onAttachedToActivity` and the engine attach/detach callbacks, `CallStreamHandler.onCancel`, and the FCM service's `onNewToken` (a broadcast of the new token) are not part of this model.
- CallKitPlugin.CallStreamHandler.OnReceive: the `voipToken` event's args is a Kotlin lambda in the source; the model logs the token itself.
- `SwiftConnectycubeFlutterCallKitPlugin.swift` (the iOS method channel) is not part of this model.
- iOS `updateConfig` and `providerConfiguration`: CallKit configuration.
- `providerDidReset` and `didActivate` do nothing; `action.fulfill()` is CallKit plumbing.
- StartCallRequest: the random `UUID()` made for a nil uuid is never used, since `uuid!` traps; the model does not generate it.
- The outcome of `requestTransaction` is only printed; transactions are logged requests.
- Uuid.Lower: `lowercased()` is taken on ASCII letters only.
- Decimal.ToInt32: the JVM's `Integer.parseInt` behind Kotlin's `toInt()` also accepts non-ASCII decimal digits (Arabic-Indic or fullwidth digits, say); the model accepts ASCII digits only, so a push or an opponents text with such digits reads as a NumberFormatException in `ParseInvite`, `ParseKotlin` and `NotificationArgs`. Swift's `Int(String)` is ASCII-only, so `Decimal.ToInt64` is exact.
- CallRegistry.CallStateIn, CallRegistry.CallDataIn, CallRegistry.LastCallIdIn, CallRegistry.HandlerIn: a key holding a value of another type reads as the fallback (`unknown`, null, `""`, -1), where SharedPreferences' `getString`/`getLong` would throw ClassCastException. (Non-empty plain text under a data key is not such a drop: `getMapFromJsonString` catches the parse failure and returns null, which is the model's `None`.) Every writer keeps `CallRegistry.Typed`, under which that case does not arise (`CallRegistry.TypedReadsSucceed`), and the plugin's read branches require it.
- IosVoip.AsInt: a JSON boolean, which `as! Int` would bridge on some platforms, is a failed cast.
- PushKit registration in the VoIP controller's initializer.
- IosVoip.VoIPController.DidReceiveIncomingPush and IosCalls.CallKitController.ReportIncomingCall: CallKit runs the `reportNewIncomingCall` completion later, on its own queue; the model runs it at once, and whether it reports an error is the `providerError` input.
