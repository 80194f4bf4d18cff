/** The iOS call registry, `CallKitController`: three in-memory dictionaries
    (the state of each call, the data of each reported call, and the data of
    the last reported call), the requests it makes of CallKit, and the
    events its delegate callbacks hand to the action listener. The CallKit
    provider and call controller are outside the model: what the controller
    asks of them is kept as a log, and the provider's answer to an incoming
    call report (an error or none) is an input. */
module IosCalls {

  import opened Values
  import opened Uuid
  import Opponents

  /** `enum CallState : String` */
  datatype CallState = Pending | Accepted | Rejected | Unknown

  function RawValue(s: CallState): string
  {
    match s
    case Pending => "pending"
    case Accepted => "accepted"
    case Rejected => "rejected"
    case Unknown => "unknown"
  }

  /** `CallState(rawValue:)`: `nil` for any other text. */
  function FromRawValue(raw: string): (r: Option<CallState>)
    ensures r.Some? <==> raw in {"pending", "accepted", "rejected", "unknown"}
    ensures r.Some? ==> RawValue(r.value) == raw
  {
    if raw == "pending" then Some(Pending)
    else if raw == "accepted" then Some(Accepted)
    else if raw == "rejected" then Some(Rejected)
    else if raw == "unknown" then Some(Unknown)
    else None
  }

  lemma RawValueRoundTrip(s: CallState)
    ensures FromRawValue(RawValue(s)) == Some(s)
  {
  }

  /** `enum CallEvent`: what the delegate callbacks report. */
  datatype CallEvent = AnswerCall | EndCall | SetHeld | Reset | StartCall | SetMuted | SetUnMuted

  /** `enum CallEndedReason`; `reportCallEnded` passes it on to CallKit unchanged. */
  datatype CallEndedReason = Failed | Unanswered | RemoteEnded

  /** One call of `actionListener(event, uuid, args)`. */
  datatype ActionEvent = ActionEvent(event: CallEvent, uuid: Uuid, args: map<string, Field>)

  /** What the controller asks of the CallKit provider and call controller. */
  datatype CxRequest =
    | IncomingReported(uuid: Uuid, callerName: string, handle: string, hasVideo: bool)
    | OutgoingStartedConnecting(uuid: Uuid)
    | OutgoingConnected(uuid: Uuid)
    | EndedReported(uuid: Uuid, reason: CallEndedReason)
    | EndTransaction(uuid: Uuid)
    | HeldTransaction(uuid: Uuid, onHold: bool)
    | MutedTransaction(uuid: Uuid, muted: bool)
    | StartTransaction(uuid: Uuid, handle: string, video: bool)

  /** What every entry of `callsData` holds: the call's own id and the
      five other fields `reportIncomingCall` writes. */
  predicate IsCallRecord(d: map<string, Field>, uuid: string)
  {
    "session_id" in d && d["session_id"] == FStr(uuid) &&
    "call_type" in d && d["call_type"].FLong? && "caller_id" in d && d["caller_id"].FLong? &&
    "caller_name" in d && d["caller_name"].FStr? && "call_opponents" in d && d["call_opponents"].FStr?
  }

  const ReportedKeys: set<string> :=
    {"session_id", "call_type", "caller_id", "caller_name", "call_opponents", "user_info"}

  /** The six entries `reportIncomingCall` writes into `currentCallData`,
      over whatever it held before. Assigning a `nil` user info removes the
      `user_info` entry. The result is a record of the call, and every
      other entry of the previous data is kept. */
  function Reported(current: map<string, Field>, uuid: string, callType: int64, callerId: int64,
                    callerName: string, opponents: seq<int>, userInfo: Option<string>): (r: map<string, Field>)
    ensures IsCallRecord(r, uuid)
    ensures forall k :: k !in ReportedKeys ==> (k in r <==> k in current)
    ensures forall k :: k !in ReportedKeys && k in r ==> r[k] == current[k]
  {
    var d := current["session_id" := FStr(uuid)]["call_type" := FLong(callType)]["caller_id" := FLong(callerId)]
                    ["caller_name" := FStr(callerName)]["call_opponents" := FStr(Opponents.JoinSwift(opponents))];
    if userInfo.Some? then d["user_info" := FStr(userInfo.value)] else d - {"user_info"}
  }

  /** A reported call's data reads back: its id, type, caller, user info,
      and (for opponents in Swift's `Int` range) its opponents. */
  lemma ReportedReadsBack(current: map<string, Field>, uuid: string, callType: int64, callerId: int64,
                          callerName: string, opponents: seq<int>, userInfo: Option<string>)
    requires forall i :: 0 <= i < |opponents| ==> MinInt64 <= opponents[i] <= MaxInt64
    ensures var d := Reported(current, uuid, callType, callerId, callerName, opponents, userInfo);
            IsCallRecord(d, uuid) &&
            d["call_type"] == FLong(callType) && d["caller_id"] == FLong(callerId) &&
            d["caller_name"] == FStr(callerName) &&
            ("user_info" in d <==> userInfo.Some?) &&
            (userInfo.Some? ==> d["user_info"] == FStr(userInfo.value)) &&
            (|opponents| > 0 ==> Opponents.ParseSwift(d["call_opponents"].s) == opponents)
  {
    Opponents.OpponentsRoundTripSwift(opponents);
  }

  class CallKitController {
    /** `actionListener != nil` */
    var listening: bool
    var currentCallData: map<string, Field>
    var callStates: map<string, CallState>
    var callsData: map<string, map<string, Field>>
    var requests: seq<CxRequest>
    var events: seq<ActionEvent>

    /** Every stored call's data is a record of that call. */
    predicate Valid()
      reads this
    {
      forall u :: u in callsData ==> IsCallRecord(callsData[u], u)
    }

    constructor ()
      ensures Valid()
      ensures !listening && currentCallData == map[] && callStates == map[] && callsData == map[]
      ensures requests == [] && events == []
    {
      listening := false;
      currentCallData := map[];
      callStates := map[];
      callsData := map[];
      requests := [];
      events := [];
    }

    /** `getCallState`: `unknown` for a call with no entry. */
    function GetCallState(uuid: string): (s: CallState)
      reads this
      ensures uuid !in callStates ==> s == Unknown
      ensures uuid in callStates ==> s == callStates[uuid]
    {
      if uuid in callStates then callStates[uuid] else Unknown
    }

    /** `getCallData`: an empty dictionary for a call with no entry. */
    function GetCallData(uuid: string): (d: map<string, Field>)
      reads this
      ensures uuid !in callsData ==> d == map[]
      ensures uuid in callsData ==> d == callsData[uuid]
    {
      if uuid in callsData then callsData[uuid] else map[]
    }

    /** `reportIncomingCall`, with the provider's completion run at once.
        `UUID(uuidString: uuid)!` traps on text that is not a UUID, before
        anything happens; otherwise the call is reported, and only when the
        provider reports no error is it recorded, as pending, under the text
        it was given (not under the UUID's canonical text). */
    method ReportIncomingCall(uuid: string, callType: int64, callerId: int64, callerName: string,
                              opponents: seq<int>, userInfo: Option<string>, providerError: bool)
      returns (crashed: bool)
      requires Valid()
      modifies this
      ensures Valid()
      ensures crashed <==> Parse(uuid).None?
      ensures listening == old(listening) && events == old(events)
      ensures crashed ==> unchanged(this)
      ensures !crashed ==>
        requests == old(requests) + [IncomingReported(Parse(uuid).value, callerName, uuid, callType == 1)]
      ensures !crashed && providerError ==>
        currentCallData == old(currentCallData) && callStates == old(callStates) && callsData == old(callsData)
      ensures !crashed && !providerError ==>
        currentCallData == Reported(old(currentCallData), uuid, callType, callerId, callerName, opponents, userInfo) &&
        callStates == old(callStates)[uuid := Pending] &&
        callsData == old(callsData)[uuid := currentCallData]
    {
      var parsed := Parse(uuid);
      if parsed.None? {
        return true;
      }
      crashed := false;
      requests := requests + [IncomingReported(parsed.value, callerName, uuid, callType == 1)];
      if !providerError {
        var record := Reported(currentCallData, uuid, callType, callerId, callerName, opponents, userInfo);
        currentCallData := record;
        callStates := callStates[uuid := Pending];
        callsData := callsData[uuid := record];
      }
    }

    /** `reportOutgoingCall`: a request to CallKit only. */
    method ReportOutgoingCall(uuid: Uuid, finishedConnecting: bool)
      modifies this
      ensures requests == old(requests) + [if finishedConnecting then OutgoingConnected(uuid) else OutgoingStartedConnecting(uuid)]
      ensures listening == old(listening) && events == old(events) && currentCallData == old(currentCallData)
      ensures callStates == old(callStates) && callsData == old(callsData)
    {
      if !finishedConnecting {
        requests := requests + [OutgoingStartedConnecting(uuid)];
      } else {
        requests := requests + [OutgoingConnected(uuid)];
      }
    }

    /** `reportCallEnded`: the call's state becomes `pending`, not
        `rejected`; its data stays. */
    method ReportCallEnded(uuid: Uuid, reason: CallEndedReason)
      requires Valid()
      modifies this
      ensures Valid()
      ensures callStates == old(callStates)[uuid := Pending]
      ensures GetCallState(uuid) == Pending
      ensures requests == old(requests) + [EndedReported(uuid, reason)]
      ensures listening == old(listening) && events == old(events) && currentCallData == old(currentCallData)
      ensures callsData == old(callsData)
    {
      callStates := callStates[uuid := Pending];
      requests := requests + [EndedReported(uuid, reason)];
    }

    /** `setCallState`: a recognised raw value is stored; any other text
        stores `nil`, which removes the entry, so the call reads `unknown`. */
    method SetCallState(uuid: string, callState: string)
      requires Valid()
      modifies this
      ensures Valid()
      ensures FromRawValue(callState).Some? ==> callStates == old(callStates)[uuid := FromRawValue(callState).value]
      ensures FromRawValue(callState).None? ==> callStates == old(callStates) - {uuid}
      ensures GetCallState(uuid) == FromRawValue(callState).GetOr(Unknown)
      ensures forall other :: other != uuid ==> GetCallState(other) == old(GetCallState(other))
      ensures listening == old(listening) && events == old(events) && currentCallData == old(currentCallData)
      ensures callsData == old(callsData) && requests == old(requests)
    {
      var state := FromRawValue(callState);
      if state.Some? {
        callStates := callStates[uuid := state.value];
      } else {
        callStates := callStates - {uuid};
      }
    }

    /** `clearCallData(uuid)`: forgets every call, not only `uuid`. The
        last reported call's data stays. */
    method ClearCallData(uuid: string)
      modifies this
      ensures Valid()
      ensures callStates == map[] && callsData == map[]
      ensures forall u :: GetCallState(u) == Unknown && GetCallData(u) == map[]
      ensures listening == old(listening) && events == old(events) && currentCallData == old(currentCallData)
      ensures requests == old(requests)
    {
      callStates := map[];
      callsData := map[];
    }

    /** `end`: the call is rejected and an end transaction requested. */
    method End(uuid: Uuid)
      requires Valid()
      modifies this
      ensures Valid()
      ensures callStates == old(callStates)[uuid := Rejected]
      ensures requests == old(requests) + [EndTransaction(uuid)]
      ensures listening == old(listening) && events == old(events) && currentCallData == old(currentCallData)
      ensures callsData == old(callsData)
    {
      callStates := callStates[uuid := Rejected];
      requests := requests + [EndTransaction(uuid)];
    }

    /** `setHeld`: a transaction request; no call state or data changes. */
    method SetHeldCall(uuid: Uuid, onHold: bool)
      modifies this
      ensures requests == old(requests) + [HeldTransaction(uuid, onHold)]
      ensures callStates == old(callStates) && callsData == old(callsData)
      ensures listening == old(listening) && events == old(events) && currentCallData == old(currentCallData)
    {
      requests := requests + [HeldTransaction(uuid, onHold)];
    }

    /** `setMute`: a transaction request; no call state or data changes. */
    method SetMute(uuid: Uuid, muted: bool)
      modifies this
      ensures requests == old(requests) + [MutedTransaction(uuid, muted)]
      ensures callStates == old(callStates) && callsData == old(callsData)
      ensures listening == old(listening) && events == old(events) && currentCallData == old(currentCallData)
    {
      requests := requests + [MutedTransaction(uuid, muted)];
    }

    /** `startCall`. With no `uuid` it traps at `uuid!` (the random UUID it
        made is never used); with text that is not a UUID it traps at
        `callUUID!`. Otherwise the call is accepted under the text given and
        a start transaction requested. */
    method StartCallRequest(handle: string, videoEnabled: bool, uuid: Option<string>) returns (crashed: bool)
      requires Valid()
      modifies this
      ensures Valid()
      ensures crashed <==> uuid.None? || Parse(uuid.value).None?
      ensures crashed ==> callStates == old(callStates) && requests == old(requests)
      ensures !crashed ==>
        callStates == old(callStates)[uuid.value := Accepted] &&
        requests == old(requests) + [StartTransaction(Parse(uuid.value).value, handle, videoEnabled)]
      ensures listening == old(listening) && events == old(events) && currentCallData == old(currentCallData)
      ensures callsData == old(callsData)
    {
      if uuid.None? {
        return true;
      }
      var callUuid := Parse(uuid.value);
      if callUuid.None? {
        return true;
      }
      crashed := false;
      callStates := callStates[uuid.value := Accepted];
      requests := requests + [StartTransaction(callUuid.value, handle, videoEnabled)];
    }

    /** Calls the action listener, when one is set. */
    method Notify(event: CallEvent, uuid: Uuid, args: map<string, Field>)
      modifies this
      ensures events == old(events) + (if listening then [ActionEvent(event, uuid, args)] else [])
      ensures listening == old(listening) && currentCallData == old(currentCallData)
      ensures callStates == old(callStates) && callsData == old(callsData) && requests == old(requests)
    {
      if listening {
        events := events + [ActionEvent(event, uuid, args)];
      }
    }

    /** The `CXAnswerCallAction` handler: reports the last reported call's
        data, whichever call is answered, and accepts the call. */
    method PerformAnswer(callUuid: Uuid)
      requires Valid()
      modifies this
      ensures Valid()
      ensures events == old(events) + (if listening then [ActionEvent(AnswerCall, callUuid, currentCallData)] else [])
      ensures callStates == old(callStates)[callUuid := Accepted]
      ensures listening == old(listening) && currentCallData == old(currentCallData)
      ensures callsData == old(callsData) && requests == old(requests)
    {
      Notify(AnswerCall, callUuid, currentCallData);
      callStates := callStates[callUuid := Accepted];
    }

    /** The `CXEndCallAction` handler: reports and rejects the call. */
    method PerformEnd(callUuid: Uuid)
      requires Valid()
      modifies this
      ensures Valid()
      ensures events == old(events) + (if listening then [ActionEvent(EndCall, callUuid, currentCallData)] else [])
      ensures callStates == old(callStates)[callUuid := Rejected]
      ensures listening == old(listening) && currentCallData == old(currentCallData)
      ensures callsData == old(callsData) && requests == old(requests)
    {
      Notify(EndCall, callUuid, currentCallData);
      callStates := callStates[callUuid := Rejected];
    }

    /** The `CXSetHeldCallAction` handler: reports the hold flag only. */
    method PerformSetHeld(callUuid: Uuid, isOnHold: bool)
      modifies this
      ensures events == old(events) +
        (if listening then [ActionEvent(SetHeld, callUuid, map["isOnHold" := FBool(isOnHold)])] else [])
      ensures callStates == old(callStates) && callsData == old(callsData)
      ensures listening == old(listening) && currentCallData == old(currentCallData) && requests == old(requests)
    {
      Notify(SetHeld, callUuid, map["isOnHold" := FBool(isOnHold)]);
    }

    /** The `CXSetMutedCallAction` handler: reports muted or unmuted. */
    method PerformSetMuted(callUuid: Uuid, isMuted: bool)
      modifies this
      ensures events == old(events) +
        (if listening then [ActionEvent(if isMuted then SetMuted else SetUnMuted, callUuid, currentCallData)] else [])
      ensures callStates == old(callStates) && callsData == old(callsData)
      ensures listening == old(listening) && currentCallData == old(currentCallData) && requests == old(requests)
    {
      if isMuted {
        Notify(SetMuted, callUuid, currentCallData);
      } else {
        Notify(SetUnMuted, callUuid, currentCallData);
      }
    }

    /** The `CXStartCallAction` handler: reports and accepts the call. */
    method PerformStart(callUuid: Uuid)
      requires Valid()
      modifies this
      ensures Valid()
      ensures events == old(events) + (if listening then [ActionEvent(StartCall, callUuid, currentCallData)] else [])
      ensures callStates == old(callStates)[callUuid := Accepted]
      ensures listening == old(listening) && currentCallData == old(currentCallData)
      ensures callsData == old(callsData) && requests == old(requests)
    {
      Notify(StartCall, callUuid, currentCallData);
      callStates := callStates[callUuid := Accepted];
    }
  }

  /** Answering a call reports the data of the call reported last, not of
      the answered one: after `first` and then `second` are reported,
      answering `first` hands the listener `second`'s record. */
  method AnswerReportsLastCall(first: Uuid, second: Uuid) returns (answered: ActionEvent)
    requires first != second
    ensures answered.event == AnswerCall && answered.uuid == first
    ensures "session_id" in answered.args && answered.args["session_id"] == FStr(second)
  {
    var calls := new CallKitController();
    calls.listening := true;
    var crashed := calls.ReportIncomingCall(first, 0, 1, "a", [2], None, false);
    crashed := calls.ReportIncomingCall(second, 0, 3, "b", [4], None, false);
    calls.PerformAnswer(first);
    answered := calls.events[|calls.events| - 1];
  }
}
