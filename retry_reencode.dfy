/** sendRetrySms as a function of the tracker it is given: the format the
    retry must use, the check that the tracker's parameter map can be
    re-encoded, the codec request built from it, and the tracker and the
    collaborator calls that result. The controller's method is proved to
    do exactly this (SmsDispatch.SmsDispatchersController.SendRetrySms). */
module RetryReencode {
  import opened SmsCommon
  import opened DispatchTypes

  /** The part of a tracker a retry reads and writes: the parameter map
      (getData()) and mFormat. */
  datatype TrackerState = TrackerState(data: map<string, Value>, format: string)

  /** The tracker afterwards, the calls made, and whether the method
      returned normally (false: a runtime exception escaped it). */
  datatype RetryResult = RetryResult(tracker: TrackerState, effects: seq<Effect>, completed: bool)

  /** The format a retry must use: the format of the dispatcher of the
      current voice technology. IMS registration plays no part here. */
  function RetryFormat(phoneType: int): (f: string)
    ensures f == FORMAT_3GPP2 <==> phoneType == PHONE_TYPE_CDMA
    ensures f == FORMAT_3GPP <==> phoneType != PHONE_TYPE_CDMA
  {
    if PHONE_TYPE_CDMA == phoneType then Format(Cdma) else Format(Gsm)
  }

  /** The parameters a re-encode needs: the service centre and destination,
      and the text, or the data together with its port. */
  predicate HasReencodeFields(m: map<string, Value>) {
    && "scAddr" in m && "destAddr" in m
    && ("text" in m || ("data" in m && "destPort" in m))
  }

  // Java casts of map values: a (String) or (byte[]) cast accepts a value
  // of that type or null; anything else raises ClassCastException.

  predicate IsStringRef(v: Value) { v.Str? || v.Null? }

  function StringRef(v: Value): (r: Option<string>)
    requires IsStringRef(v)
    ensures r.Some? <==> v.Str?
    ensures v.Str? ==> r == Some(v.s)
  {
    if v.Str? then Some(v.s) else None
  }

  predicate IsBytesRef(v: Value) { v.Raw? || v.Null? }

  function BytesRef(v: Value): (r: Option<Bytes>)
    requires IsBytesRef(v)
    ensures r.Some? <==> v.Raw?
    ensures v.Raw? ==> r == Some(v.b)
  {
    if v.Raw? then Some(v.b) else None
  }

  /** A byte array stored into the map: null stays null. */
  function BytesValue(b: Option<Bytes>): (v: Value)
    ensures IsBytesRef(v) && BytesRef(v) == b
  {
    if b.Some? then Raw(b.value) else Null
  }

  /** The codec request a re-encode makes from the parameter map: text if
      the map holds text, data and port otherwise, with a status report
      exactly when the tracker has a delivery intent. None when a cast
      fails or the port is null (Integer.intValue on null). */
  function ReencodeRequest(m: map<string, Value>, hasDeliveryIntent: bool): (r: Option<SubmitRequest>)
    requires HasReencodeFields(m)
    ensures r.Some? ==> r.value.statusReportRequested == hasDeliveryIntent
    ensures r.Some? ==> IsStringRef(m["scAddr"]) && r.value.scAddr == StringRef(m["scAddr"])
    ensures r.Some? ==> IsStringRef(m["destAddr"]) && r.value.destAddr == StringRef(m["destAddr"])
    ensures r.Some? ==> (r.value.payload.TextPayload? <==> "text" in m)
    ensures r.Some? && "text" in m ==>
      IsStringRef(m["text"]) && r.value.payload.text == StringRef(m["text"])
    ensures r.Some? && "text" !in m ==>
      IsBytesRef(m["data"]) && r.value.payload.data == BytesRef(m["data"])
      && m["destPort"] == Int(r.value.payload.destPort)
    ensures r.None? <==>
      || !IsStringRef(m["scAddr"]) || !IsStringRef(m["destAddr"])
      || ("text" in m && !IsStringRef(m["text"]))
      || ("text" !in m && (!IsBytesRef(m["data"]) || !m["destPort"].Int?))
  {
    var scAddr := m["scAddr"];
    var destAddr := m["destAddr"];
    if !IsStringRef(scAddr) || !IsStringRef(destAddr) then None
    else if "text" in m then
      if IsStringRef(m["text"]) then
        Some(SubmitRequest(StringRef(scAddr), StringRef(destAddr),
                           TextPayload(StringRef(m["text"])), hasDeliveryIntent))
      else None
    else if IsBytesRef(m["data"]) && m["destPort"].Int? then
      Some(SubmitRequest(StringRef(scAddr), StringRef(destAddr),
                         DataPayload(m["destPort"].i, BytesRef(m["data"])), hasDeliveryIntent))
    else None
  }

  /** The map after a successful re-encode: "smsc" and "pdu" replaced by
      the codec output, every other entry kept. */
  function WithPdu(m: map<string, Value>, pdu: SubmitPdu): (m': map<string, Value>)
    ensures m'.Keys == m.Keys + {"smsc", "pdu"}
    ensures m'["smsc"] == BytesValue(pdu.encodedScAddress)
    ensures m'["pdu"] == Raw(pdu.encodedMessage)
    ensures forall k | k in m && k != "smsc" && k != "pdu" :: m'[k] == m[k]
  {
    m["smsc" := BytesValue(pdu.encodedScAddress)]["pdu" := Raw(pdu.encodedMessage)]
  }

  /** sendRetrySms on a tracker holding `t`, with the given delivery-intent
      flag, under the given voice phone type and codecs. A retry never
      removes a parameter, only ever moves the tracker to the retry format,
      and leaves it untouched when an exception escapes. */
  function Retry(t: TrackerState, hasDeliveryIntent: bool, phoneType: int, encode: Encoder): (r: RetryResult)
    ensures r.tracker.format == t.format || r.tracker.format == RetryFormat(phoneType)
    ensures t.data.Keys <= r.tracker.data.Keys
    ensures !r.completed ==> r.tracker == t
  {
    var newFormat := RetryFormat(phoneType);
    if t.format == newFormat then
      RetryResult(t, [SendSms(TechOfFormat(newFormat), t.format, t.data)], true)
    else if !HasReencodeFields(t.data) then
      RetryResult(t, [TrackerFailed(RESULT_ERROR_GENERIC_FAILURE, 0)], true)
    else
      Reencode(t, hasDeliveryIntent, TechOfFormat(newFormat), encode)
  }

  /** The re-encoding part of sendRetrySms, once the map holds the
      parameters: the codec encodes them, its output replaces "smsc" and
      "pdu", the tracker takes the codec's format and goes to the
      dispatcher of the same technology. Without a normal return the
      tracker is untouched and the only call made, if any, is the codec's; with one the
      tracker has the codec's format and gained exactly "smsc" and "pdu". */
  function Reencode(t: TrackerState, hasDeliveryIntent: bool, codec: Tech, encode: Encoder): (r: RetryResult)
    requires HasReencodeFields(t.data)
    ensures !r.completed ==> r.tracker == t && |r.effects| <= 1
    ensures !r.completed ==> forall i | 0 <= i < |r.effects| :: r.effects[i].Encode?
    ensures r.completed ==>
      r.tracker.format == Format(codec) && r.tracker.data.Keys == t.data.Keys + {"smsc", "pdu"}
  {
    match ReencodeRequest(t.data, hasDeliveryIntent)
    case None => RetryResult(t, [], false)
    case Some(request) =>
      match encode(codec, request)
      case None => RetryResult(t, [Encode(codec, request)], false)
      case Some(pdu) =>
        var t' := TrackerState(WithPdu(t.data, pdu), Format(codec));
        RetryResult(t', [Encode(codec, request), SendSms(codec, t'.format, t'.data)], true)
  }

  /** Number of dispatcher sendSms calls among some effects. */
  function SendCount(effects: seq<Effect>): nat {
    if effects == [] then 0
    else (if effects[0].SendSms? then 1 else 0) + SendCount(effects[1..])
  }

  lemma SendCountOfPair(a: Effect, b: Effect)
    ensures SendCount([a, b]) == (if a.SendSms? then 1 else 0) + (if b.SendSms? then 1 else 0)
  {
    assert SendCount([b]) == (if b.SendSms? then 1 else 0) by {
      assert [b][1..] == [];
    }
    assert SendCount([a, b]) == (if a.SendSms? then 1 else 0) + SendCount([b]) by {
      assert [a, b][1..] == [b];
    }
  }

  /** Number of codec calls among some effects. */
  function EncodeCount(effects: seq<Effect>): nat {
    if effects == [] then 0
    else (if effects[0].Encode? then 1 else 0) + EncodeCount(effects[1..])
  }

  /** Formats agree: the tracker goes unchanged, once, to the dispatcher of
      the voice technology, and no codec is called. */
  lemma RetrySameFormat(t: TrackerState, hasDeliveryIntent: bool, phoneType: int, encode: Encoder)
    requires t.format == RetryFormat(phoneType)
    ensures var r := Retry(t, hasDeliveryIntent, phoneType, encode);
      && r.completed && r.tracker == t
      && r.effects == [SendSms(VoiceTech(phoneType), t.format, t.data)]
      && EncodeCount(r.effects) == 0 && SendCount(r.effects) == 1
  {
  }

  /** Formats differ and the map cannot be re-encoded: the tracker fails
      once with the generic failure and is handed to no dispatcher. */
  lemma RetryMissingFields(t: TrackerState, hasDeliveryIntent: bool, phoneType: int, encode: Encoder)
    requires t.format != RetryFormat(phoneType)
    requires !HasReencodeFields(t.data)
    ensures var r := Retry(t, hasDeliveryIntent, phoneType, encode);
      && r.completed && r.tracker == t
      && r.effects == [TrackerFailed(RESULT_ERROR_GENERIC_FAILURE, 0)]
      && SendCount(r.effects) == 0 && EncodeCount(r.effects) == 0
  {
  }

  /** Formats differ and the map holds the parameters: the codec of the
      voice technology encodes them once, with a status report exactly when
      there is a delivery intent and the text preferred over the data; the
      tracker then carries that codec's output under the new format and is
      sent once to the matching dispatcher. */
  lemma RetryReencodes(t: TrackerState, hasDeliveryIntent: bool, phoneType: int, encode: Encoder)
    requires t.format != RetryFormat(phoneType)
    requires HasReencodeFields(t.data)
    requires ReencodeRequest(t.data, hasDeliveryIntent).Some?
    requires encode(VoiceTech(phoneType), ReencodeRequest(t.data, hasDeliveryIntent).value).Some?
    ensures var request := ReencodeRequest(t.data, hasDeliveryIntent).value;
      var pdu := encode(VoiceTech(phoneType), request).value;
      var r := Retry(t, hasDeliveryIntent, phoneType, encode);
      && r.completed
      && request.statusReportRequested == hasDeliveryIntent
      && ("text" in t.data <==> request.payload.TextPayload?)
      && r.tracker.format == RetryFormat(phoneType)
      && r.tracker.data["pdu"] == Raw(pdu.encodedMessage)
      && r.tracker.data["smsc"] == BytesValue(pdu.encodedScAddress)
      && (forall k | k in t.data && k != "smsc" && k != "pdu" :: k in r.tracker.data && r.tracker.data[k] == t.data[k])
      && r.effects == [Encode(VoiceTech(phoneType), request),
                       SendSms(VoiceTech(phoneType), RetryFormat(phoneType), r.tracker.data)]
  {
  }

  /** Whatever happens, a retry hands the tracker to at most one
      dispatcher, and only ever in that dispatcher's own format: a PDU is
      never transmitted under a format tag of the other technology. */
  lemma {:induction false} RetrySendsOnlyOwnFormat(
    t: TrackerState, hasDeliveryIntent: bool, phoneType: int, encode: Encoder)
    ensures var r := Retry(t, hasDeliveryIntent, phoneType, encode);
      && SendCount(r.effects) <= 1
      && (SendCount(r.effects) == 1 ==> r.completed && r.tracker.format == RetryFormat(phoneType))
      && forall i | 0 <= i < |r.effects| && r.effects[i].SendSms? ::
           r.effects[i].dispatcher == VoiceTech(phoneType)
           && r.effects[i].format == Format(r.effects[i].dispatcher)
           && r.effects[i].data == r.tracker.data
  {
    var r := Retry(t, hasDeliveryIntent, phoneType, encode);
    var codec := TechOfFormat(RetryFormat(phoneType));
    assert codec == VoiceTech(phoneType);
    if t.format == RetryFormat(phoneType) || !HasReencodeFields(t.data) {
      assert r.effects[1..] == [];
    } else if ReencodeRequest(t.data, hasDeliveryIntent).Some? {
      var request := ReencodeRequest(t.data, hasDeliveryIntent).value;
      if encode(codec, request).None? {
        assert r.effects[1..] == [];
      } else {
        var t' := TrackerState(WithPdu(t.data, encode(codec, request).value), Format(codec));
        assert r.effects == [Encode(codec, request), SendSms(codec, t'.format, t'.data)];
        SendCountOfPair(Encode(codec, request), SendSms(codec, t'.format, t'.data));
      }
    }
  }

  /** A retry that fails on an exception changes nothing in the tracker and
      sends nothing. */
  lemma RetryExceptionLeavesTracker(t: TrackerState, hasDeliveryIntent: bool, phoneType: int, encode: Encoder)
    requires !Retry(t, hasDeliveryIntent, phoneType, encode).completed
    ensures var r := Retry(t, hasDeliveryIntent, phoneType, encode);
      && r.tracker == t && SendCount(r.effects) == 0 && EncodeCount(r.effects) <= 1
      && forall i | 0 <= i < |r.effects| :: r.effects[i].Encode?
  {
  }

  /** After any completed retry that reached a dispatcher, a second retry
      under the same voice technology takes the unchanged path: a tracker
      is re-encoded at most once per change of technology. */
  lemma {:induction false} SecondRetryDoesNotReencode(
    t: TrackerState, hasDeliveryIntent: bool, phoneType: int, encode: Encoder)
    requires SendCount(Retry(t, hasDeliveryIntent, phoneType, encode).effects) == 1
    ensures var t' := Retry(t, hasDeliveryIntent, phoneType, encode).tracker;
      var r := Retry(t', hasDeliveryIntent, phoneType, encode);
      && r.tracker == t' && EncodeCount(r.effects) == 0 && SendCount(r.effects) == 1
  {
    RetrySendsOnlyOwnFormat(t, hasDeliveryIntent, phoneType, encode);
  }

  /** A re-encode keeps the original parameters, so a later re-encode
      (after the technology changes back, say) starts from the same text or
      data, addresses and port. */
  lemma ReencodeKeepsParameters(t: TrackerState, hasDeliveryIntent: bool, phoneType: int, encode: Encoder)
    requires HasReencodeFields(t.data)
    ensures var t' := Retry(t, hasDeliveryIntent, phoneType, encode).tracker;
      && HasReencodeFields(t'.data)
      && ReencodeRequest(t'.data, hasDeliveryIntent) == ReencodeRequest(t.data, hasDeliveryIntent)
  {
  }
}
