/** The iOS PushKit delegate, `VoIPController`: it keeps the device's VoIP
    token as upper-case hexadecimal text and hands it to the token
    listener, and turns a VoIP push into an incoming call report to the
    `CallKitController`. PushKit registration is outside the model; the
    push's type is an input, as is the provider's answer to the report. */
module IosVoip {

  import opened Values
  import opened Uuid
  import opened IosCalls
  import Hex
  import Opponents

  /** `payload.dictionaryPayload` */
  type Payload = map<string, Field>

  /** `as! Int`: a JSON integer, as Swift's 64-bit `Int`. */
  function AsInt(payload: Payload, key: string): (r: Option<int64>)
    ensures r.Some? <==> key in payload && (payload[key].FInt? || payload[key].FLong?)
    ensures r.Some? && payload[key].FInt? ==> r.value as int == payload[key].i as int
    ensures r.Some? && payload[key].FLong? ==> r.value == payload[key].l
  {
    if key in payload && payload[key].FInt? then Some(payload[key].i as int as int64)
    else if key in payload && payload[key].FLong? then Some(payload[key].l)
    else None
  }

  datatype VoipPush =
      /** one of the five forced casts fails, and the handler traps */
    | Malformed
    | VoipCall(callId: string, callType: int64, callerId: int64, callerName: string,
               opponents: seq<int>, userInfo: Option<string>)

  /** The reads of a VoIP push: `session_id`, `call_type`, `caller_id`,
      `caller_name` and `call_opponents` are forced casts; each opponent
      that is not an integer becomes 0; `user_info` is optional. */
  function ReadPush(payload: Payload): (r: VoipPush)
    ensures r.Malformed? <==>
      AsString(payload, "session_id").None? || AsInt(payload, "call_type").None? ||
      AsInt(payload, "caller_id").None? || AsString(payload, "caller_name").None? ||
      AsString(payload, "call_opponents").None?
    ensures r.VoipCall? ==>
      Some(r.callId) == AsString(payload, "session_id") &&
      Some(r.callType) == AsInt(payload, "call_type") && Some(r.callerId) == AsInt(payload, "caller_id") &&
      Some(r.callerName) == AsString(payload, "caller_name") &&
      r.opponents == Opponents.ParseSwift(AsString(payload, "call_opponents").value) &&
      r.userInfo == AsString(payload, "user_info")
  {
    var callId := AsString(payload, "session_id");
    var callType := AsInt(payload, "call_type");
    var callerId := AsInt(payload, "caller_id");
    var callerName := AsString(payload, "caller_name");
    var opponents := AsString(payload, "call_opponents");
    if callId.None? || callType.None? || callerId.None? || callerName.None? || opponents.None? then Malformed
    else VoipCall(callId.value, callType.value, callerId.value, callerName.value,
                  Opponents.ParseSwift(opponents.value), AsString(payload, "user_info"))
  }

  class VoIPController {
    const callKitController: CallKitController
    /** `tokenListener != nil` */
    var listening: bool
    var voipToken: Option<string>
    /** The tokens handed to the token listener, oldest first. */
    var delivered: seq<string>

    /** A kept token is the text of a non-empty byte token. */
    predicate Valid()
      reads this
    {
      voipToken.Some? ==> |voipToken.value| > 0 && Hex.Decode(voipToken.value).Some?
    }

    constructor (callKitController: CallKitController)
      ensures Valid()
      ensures this.callKitController == callKitController
      ensures !listening && voipToken.None? && delivered == []
    {
      this.callKitController := callKitController;
      listening := false;
      voipToken := None;
      delivered := [];
    }

    /** `getVoIPToken`: nil before the first non-empty token, otherwise
        hexadecimal text that decodes to a non-empty token of half its
        length. */
    function GetVoIPToken(): (r: Option<string>)
      requires Valid()
      reads this
      ensures r.Some? ==> |r.value| > 0 && Hex.Decode(r.value).Some? && 2 * |Hex.Decode(r.value).value| == |r.value|
    {
      if voipToken.Some? then
        Hex.DecodeLength(voipToken.value);
        voipToken
      else None
    }

    /** `pushRegistry(_:didUpdate:for:)`. An empty token changes nothing.
        Otherwise the token is kept as two upper-case hex digits per byte,
        which decode back to the bytes, and a set listener receives exactly
        that text. */
    method DidUpdatePushCredentials(token: seq<Hex.byte>)
      requires Valid()
      modifies this
      ensures Valid()
      ensures |token| == 0 ==> voipToken == old(voipToken) && delivered == old(delivered)
      ensures |token| > 0 ==> GetVoIPToken() == Some(Hex.EncodeToken(token))
      ensures |token| > 0 ==> |GetVoIPToken().value| == 2 * |token| && Hex.Decode(GetVoIPToken().value) == Some(token)
      ensures |token| > 0 ==> delivered == old(delivered) + (if listening then [Hex.EncodeToken(token)] else [])
      ensures listening == old(listening)
    {
      if |token| == 0 {
        return;
      }
      var deviceToken := Hex.EncodeToken(token);
      Hex.EncodeTokenSpec(token);
      Hex.DecodeEncodeToken(token);
      voipToken := Some(deviceToken);
      if listening {
        delivered := delivered + [voipToken.value];
      }
    }

    /** `pushRegistry(_:didReceiveIncomingPushWith:for:completion:)`. A push
        that is not VoIP calls `completion` and reports nothing. A VoIP push
        traps on a failed forced cast, and again (in `reportIncomingCall`)
        when the session id is not a UUID; otherwise the call is reported
        under the lower-cased session id and `completion` runs once, in the
        report's callback. */
    method DidReceiveIncomingPush(payload: Payload, isVoip: bool, providerError: bool)
      returns (completions: nat, crashed: bool)
      requires callKitController.Valid()
      modifies callKitController
      ensures callKitController.Valid()
      ensures callKitController.listening == old(callKitController.listening)
      ensures callKitController.events == old(callKitController.events)
      ensures !isVoip || ReadPush(payload).Malformed? ==> unchanged(callKitController)
      ensures !isVoip ==> completions == 1 && !crashed
      ensures isVoip && ReadPush(payload).Malformed? ==> crashed && completions == 0
      ensures isVoip && ReadPush(payload).VoipCall? ==>
        var call := ReadPush(payload);
        var key := Lower(call.callId);
        crashed == Parse(key).None? && completions == (if crashed then 0 else 1) &&
        (crashed ==> unchanged(callKitController)) &&
        (!crashed ==>
           callKitController.requests == old(callKitController.requests) +
             [IncomingReported(Parse(key).value, call.callerName, key, call.callType == 1)]) &&
        (!crashed && providerError ==>
           callKitController.currentCallData == old(callKitController.currentCallData) &&
           callKitController.callStates == old(callKitController.callStates) &&
           callKitController.callsData == old(callKitController.callsData)) &&
        (!crashed && !providerError ==>
           callKitController.currentCallData ==
             Reported(old(callKitController.currentCallData), key, call.callType, call.callerId,
                      call.callerName, call.opponents, call.userInfo) &&
           callKitController.callStates == old(callKitController.callStates)[key := Pending] &&
           callKitController.callsData == old(callKitController.callsData)[key := callKitController.currentCallData])
    {
      if !isVoip {
        return 1, false;
      }
      var call := ReadPush(payload);
      if call.Malformed? {
        return 0, true;
      }
      crashed := callKitController.ReportIncomingCall(Lower(call.callId), call.callType, call.callerId,
                                                      call.callerName, call.opponents, call.userInfo, providerError);
      completions := if crashed then 0 else 1;
    }
  }

  /** The session id is lower-cased before it is reported, while CallKit's
      callbacks key the registry by the UUID's upper-case text: once a VoIP
      push whose id has a hex letter is answered, the id as reported still
      reads `pending` and the UUID's own text reads `accepted`. */
  method PushThenAnswer(sessionId: Uuid, callerName: string) returns (reportedState: CallState, answeredState: CallState)
    requires exists i :: 0 <= i < |sessionId| && 'A' <= sessionId[i] <= 'F'
    ensures reportedState == Pending && answeredState == Accepted
  {
    var calls := new CallKitController();
    var voip := new VoIPController(calls);
    var payload := map["session_id" := FStr(sessionId), "call_type" := FLong(0), "caller_id" := FLong(1),
                       "caller_name" := FStr(callerName), "call_opponents" := FStr("2")];
    assert ReadPush(payload).callId == sessionId;
    ParseLower(sessionId);
    LowerDiffers(sessionId);
    var completions, crashed := voip.DidReceiveIncomingPush(payload, true, false);
    calls.PerformAnswer(sessionId);
    reportedState := calls.GetCallState(Lower(sessionId));
    answeredState := calls.GetCallState(sessionId);
  }
}
