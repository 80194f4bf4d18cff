/** The parts of the Android platform the plugin hands values to: intents and
    their extras bundles, and a log of the outward effects the plugin causes
    (notifications, local broadcasts, events on the Flutter event channel,
    background work, activity starts). */
module AndroidPlatform {

  import opened Values

  /** A value in a bundle of extras. */
  datatype Extra = EStr(s: string) | EInt(i: int32) | EIntList(xs: seq<int32>)

  type Bundle = map<string, Extra>

  /** `bundle.putString(key, value)`. A null value is kept as no entry: every
      getter of a bundle reads the two alike. The value reads back through
      `getString`, and every other key keeps its entry. */
  function PutString(b: Bundle, key: string, value: Option<string>): (r: Bundle)
    ensures GetString(r, key) == value
    ensures value.None? ==> key !in r
    ensures forall k :: k != key ==> (k in r <==> k in b)
    ensures forall k :: k != key && k in r ==> r[k] == b[k]
  {
    if value.Some? then b[key := EStr(value.value)] else b - {key}
  }

  /** `bundle.getString(key)`: null when absent or not a string. */
  function GetString(b: Bundle, key: string): (r: Option<string>)
    ensures r.Some? <==> key in b && b[key].EStr?
    ensures r.Some? ==> b[key] == EStr(r.value)
  {
    if key in b && b[key].EStr? then Some(b[key].s) else None
  }

  /** `bundle.getInt(key, default)`: the default when absent or not an int. */
  function GetInt(b: Bundle, key: string, default: int32): (r: int32)
    ensures key in b && b[key].EInt? ==> r == b[key].i
    ensures !(key in b && b[key].EInt?) ==> r == default
  {
    if key in b && b[key].EInt? then b[key].i else default
  }

  /** `bundle.getIntegerArrayList(key)`: null when absent or not a list. */
  function GetIntList(b: Bundle, key: string): (r: Option<seq<int32>>)
    ensures r.Some? <==> key in b && b[key].EIntList?
    ensures r.Some? ==> b[key] == EIntList(r.value)
  {
    if key in b && b[key].EIntList? then Some(b[key].xs) else None
  }

  /** An intent: its action (`""` stands for a null action) and its extras
      bundle (`None` when the intent carries none). */
  datatype Intent = Intent(action: string, extras: Option<Bundle>)

  /** `intent.getStringExtra(key)` */
  function StringExtra(intent: Intent, key: string): Option<string>
  {
    if intent.extras.Some? then GetString(intent.extras.value, key) else None
  }

  /** `intent.getIntExtra(key, default)` */
  function IntExtra(intent: Intent, key: string, default: int32): int32
  {
    if intent.extras.Some? then GetInt(intent.extras.value, key, default) else default
  }

  /** `intent.getIntegerArrayListExtra(key)` */
  function IntListExtra(intent: Intent, key: string): Option<seq<int32>>
  {
    if intent.extras.Some? then GetIntList(intent.extras.value, key) else None
  }

  /** What an incoming-call notification shows. */
  datatype IncomingCall = IncomingCall(
    callType: int32, callerId: int32, callerName: string,
    opponents: seq<int32>, photo: Option<string>, userInfo: string)

  datatype Effect =
    | NotificationShown(callId: string, call: IncomingCall)
      /** `cancelCallNotification(context, callId)` */
    | NotificationCancelled(callId: string)
      /** `NotificationManagerCompat.cancel(callId.hashCode())` on a possibly null id */
    | NotificationIdCancelled(id: Option<string>)
    | LocalBroadcast(intent: Intent)
      /** `enqueueMessageProcessing`: the intent is handed to the background isolate */
    | BackgroundWorkEnqueued(intent: Intent)
      /** `events.success(...)` with an `event` name and its `args` map */
    | ChannelEvent(event: string, args: map<string, Field>)
      /** the `voipToken` event; its args entry is a Kotlin lambda, kept as the token */
    | TokenEvent(token: Option<string>)
    | LaunchActivityStarted(action: string)
    | BackgroundIsolateStarted(pluginCallbackHandle: int64)
    | ShowWhenLocked(visible: bool)

  /** The sequence of effects, oldest first. */
  class EffectLog {
    var effects: seq<Effect>

    constructor ()
      ensures effects == []
    {
      effects := [];
    }

    method Record(e: Effect)
      modifies this
      ensures effects == old(effects) + [e]
    {
      effects := effects + [e];
    }
  }
}
