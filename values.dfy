/** Value types shared by the Android and iOS halves of the model: fixed-width
    integers, an Option, and the dynamically typed values that cross the
    Flutter method channel or sit in a push payload. */
module Values {

  /** Kotlin `Int` */
  newtype int32 = x: int | -0x8000_0000 <= x < 0x8000_0000

  /** Kotlin `Long`, Swift `Int` on 64-bit devices */
  newtype int64 = x: int | -0x8000_0000_0000_0000 <= x < 0x8000_0000_0000_0000

  const MinInt32: int := -0x8000_0000
  const MaxInt32: int := 0x7FFF_FFFF
  const MinInt64: int := -0x8000_0000_0000_0000
  const MaxInt64: int := 0x7FFF_FFFF_FFFF_FFFF

  datatype Option<+T> = None | Some(value: T) {
    function GetOr(default: T): T {
      match this
      case Some(v) => v
      case None => default
    }
  }

  /** One value of a `Map<String, Any?>` received over the method channel
      (Dart's small integers arrive as `Int`, large ones as `Long`). */
  datatype Field =
    | FStr(s: string)
    | FInt(i: int32)
    | FLong(l: int64)
    | FBool(b: bool)
    | FNull

  /** The call data stored for a call: a string-keyed map. */
  type CallData = map<string, Field>

  /** A push payload of string values (FCM `RemoteMessage.data`) as call data. */
  function FromStrings(data: map<string, string>): (m: CallData)
    ensures m.Keys == data.Keys
    ensures forall k :: k in data ==> m[k] == FStr(data[k])
  {
    map k | k in data :: FStr(data[k])
  }

  /** A string-typed read of a dynamically typed map: Kotlin's
      `arguments[key] as String`, Swift's `as! String` / `as? String`. */
  function AsString(m: map<string, Field>, key: string): (r: Option<string>)
    ensures r.Some? <==> key in m && m[key].FStr?
    ensures r.Some? ==> m[key] == FStr(r.value)
  {
    if key in m && m[key].FStr? then Some(m[key].s) else None
  }
}
