/** The dispatch controller itself: the IMS registration fields it updates
    from radio events, the routing of outgoing requests, the retry of a
    tracker that failed, and PDU injection. Collaborators (dispatchers,
    inbound handlers, codecs, the radio interface, pending intents) are not
    modelled; every call the controller makes on one is appended to `log`. */
module SmsDispatch {
  import opened SmsCommon
  import opened DispatchTypes
  import opened ImsRegistration
  import opened RetryReencode
  import opened PduInjection

  /** The mutable record of one outgoing message part (SMSDispatcher's
      SmsTracker), reduced to what a retry reads and writes. */
  class SmsTracker {
    /** The parameter map returned by getData(). */
    var data: map<string, Value>
    /** mFormat: the format the PDU in `data` is encoded in. */
    var format: string
    /** mDeliveryIntent != null */
    const hasDeliveryIntent: bool

    constructor (data: map<string, Value>, format: string, hasDeliveryIntent: bool)
      ensures this.data == data && this.format == format
      ensures this.hasDeliveryIntent == hasDeliveryIntent
    {
      this.data := data;
      this.format := format;
      this.hasDeliveryIntent := hasDeliveryIntent;
    }

    function State(): TrackerState
      reads this
    {
      TrackerState(data, format)
    }
  }

  /** The events handleMessage reacts to itself. */
  datatype ImsEvent =
    | RadioOn
    | ImsStateChanged
    | ImsStateDone(result: QueryResult)

  class SmsDispatchersController {
    /** mIms */
    var ims: bool
    /** mImsSmsFormat */
    var imsSmsFormat: string
    /** The calls made on collaborators, oldest first. */
    var log: seq<Effect>

    function State(): ImsState
      reads this
    {
      ImsState(ims, imsSmsFormat)
    }

    /** Registered implies a known format. */
    ghost predicate Valid()
      reads this
    {
      Consistent(State())
    }

    constructor ()
      ensures Valid()
      ensures State() == INITIAL && log == []
    {
      ims := false;
      imsSmsFormat := FORMAT_UNKNOWN;
      log := [];
    }

    /** handleMessage for the IMS events: radio on and a registration change
        issue a state query; a completed query updates the state when it
        succeeded and leaves it alone when it failed. */
    method HandleMessage(event: ImsEvent)
      requires Valid()
      requires event.ImsStateDone? ==> WellFormed(event.result)
      modifies this
      ensures Valid()
      ensures event.ImsStateDone? ==>
        State() == AfterQuery(old(State()), event.result) && log == old(log)
      ensures !event.ImsStateDone? ==>
        State() == old(State()) && log == old(log) + [QueryImsRegistrationState]
    {
      match event
      case RadioOn =>
        log := log + [QueryImsRegistrationState];
      case ImsStateChanged =>
        log := log + [QueryImsRegistrationState];
      case ImsStateDone(result) =>
        if result.QueryOk? {
          UpdateImsInfo(result.response);
        }
    }

    /** setImsSmsFormat */
    method SetImsSmsFormat(code: int)
      modifies this`imsSmsFormat
      ensures imsSmsFormat == FormatForPhoneType(code)
    {
      if code == PHONE_TYPE_GSM {
        imsSmsFormat := FORMAT_3GPP;
      } else if code == PHONE_TYPE_CDMA {
        imsSmsFormat := FORMAT_3GPP2;
      } else {
        imsSmsFormat := FORMAT_UNKNOWN;
      }
    }

    /** updateImsInfo: the response's format code, then the registered
        flag, which only counts with a known format. */
    method UpdateImsInfo(response: seq<int>)
      requires |response| >= 2
      modifies this`ims, this`imsSmsFormat
      ensures State() == ImsInfo(response)
      ensures Valid()
    {
      SetImsSmsFormat(response[1]);
      ims := response[0] == 1 && FORMAT_UNKNOWN != imsSmsFormat;
    }

    /** sendData: forwarded unchanged to the dispatcher isCdmaMo picks. */
    method SendData(phoneType: int, destAddr: string, scAddr: Option<string>, destPort: int, data: Bytes,
                    sentIntent: Option<PendingIntent>, deliveryIntent: Option<PendingIntent>)
      modifies this`log
      ensures log == old(log) + [Route(MoDispatcher(State(), phoneType),
                                       DataRequest(destAddr, scAddr, destPort, data, sentIntent, deliveryIntent))]
    {
      var request := DataRequest(destAddr, scAddr, destPort, data, sentIntent, deliveryIntent);
      if IsCdmaMo(State(), phoneType) {
        log := log + [Route(Cdma, request)];
      } else {
        log := log + [Route(Gsm, request)];
      }
    }

    /** sendText: forwarded unchanged to the dispatcher isCdmaMo picks. */
    method SendText(phoneType: int, destAddr: string, scAddr: Option<string>, text: string,
                    sentIntent: Option<PendingIntent>, deliveryIntent: Option<PendingIntent>,
                    messageUri: Option<string>, callingPkg: string, persistMessage: bool)
      modifies this`log
      ensures log == old(log) + [Route(MoDispatcher(State(), phoneType),
        TextRequest(destAddr, scAddr, text, sentIntent, deliveryIntent, messageUri, callingPkg, persistMessage))]
    {
      var request := TextRequest(destAddr, scAddr, text, sentIntent, deliveryIntent, messageUri, callingPkg, persistMessage);
      if IsCdmaMo(State(), phoneType) {
        log := log + [Route(Cdma, request)];
      } else {
        log := log + [Route(Gsm, request)];
      }
    }

    /** sendMultipartText: forwarded unchanged to the dispatcher isCdmaMo
        picks. */
    method SendMultipartText(phoneType: int, destAddr: string, scAddr: Option<string>, parts: seq<string>,
                             sentIntents: Option<seq<Option<PendingIntent>>>,
                             deliveryIntents: Option<seq<Option<PendingIntent>>>,
                             messageUri: Option<string>, callingPkg: string, persistMessage: bool)
      modifies this`log
      ensures log == old(log) + [Route(MoDispatcher(State(), phoneType),
        MultipartTextRequest(destAddr, scAddr, parts, sentIntents, deliveryIntents, messageUri, callingPkg, persistMessage))]
    {
      var request := MultipartTextRequest(destAddr, scAddr, parts, sentIntents, deliveryIntents,
                                          messageUri, callingPkg, persistMessage);
      if IsCdmaMo(State(), phoneType) {
        log := log + [Route(Cdma, request)];
      } else {
        log := log + [Route(Gsm, request)];
      }
    }

    /** sendRetrySms. Returns false when a runtime exception escapes (a
        failed cast of a map value, a null port, or a codec that returned
        null or threw); the tracker is then untouched. */
    method SendRetrySms(tracker: SmsTracker, phoneType: int, encode: Encoder) returns (completed: bool)
      modifies this`log, tracker
      ensures var r := Retry(old(tracker.State()), tracker.hasDeliveryIntent, phoneType, encode);
        && tracker.State() == r.tracker
        && log == old(log) + r.effects
        && completed == r.completed
    {
      var oldFormat := tracker.format;
      // the new format follows the voice technology
      var newFormat := RetryFormat(phoneType);

      if oldFormat == newFormat {
        if TechOfFormat(newFormat) == Cdma {
          log := log + [SendSms(Cdma, tracker.format, tracker.data)];
        } else {
          log := log + [SendSms(Gsm, tracker.format, tracker.data)];
        }
        return true;
      }

      var m := tracker.data;
      if !HasReencodeFields(m) {
        log := log + [TrackerFailed(RESULT_ERROR_GENERIC_FAILURE, 0)];
        return true;
      }
      // the codec, and later the dispatcher, of the new format
      var codec := if TechOfFormat(newFormat) == Cdma then Cdma else Gsm;
      completed := ReencodeAndSend(tracker, codec, encode);
    }

    /** The re-encoding part of sendRetrySms: encode with the codec, replace
        the service-centre address and PDU, take on the codec's format and
        send once through the dispatcher of the same technology. */
    method ReencodeAndSend(tracker: SmsTracker, codec: Tech, encode: Encoder) returns (completed: bool)
      requires HasReencodeFields(tracker.data)
      modifies this`log, tracker
      ensures var r := Reencode(old(tracker.State()), tracker.hasDeliveryIntent, codec, encode);
        && tracker.State() == r.tracker
        && log == old(log) + r.effects
        && completed == r.completed
    {
      ghost var before := tracker.State();
      var pdu := EncodeForRetry(codec, tracker.data, tracker.hasDeliveryIntent, encode);
      if pdu.None? {
        return false;
      }
      // replace the old service-centre address and PDU with the new ones
      tracker.data := tracker.data["smsc" := BytesValue(pdu.value.encodedScAddress)];
      tracker.data := tracker.data["pdu" := Raw(pdu.value.encodedMessage)];
      tracker.format := Format(codec);
      log := log + [SendSms(codec, tracker.format, tracker.data)];
      assert tracker.data == WithPdu(before.data, pdu.value);
      return true;
    }

    /** The casts and the codec call of sendRetrySms: the map's parameters
        go to the given codec, text in preference to data. None when a cast
        or the port's intValue throws (no codec is called then) or when the
        codec returns null or throws. */
    method EncodeForRetry(codec: Tech, m: map<string, Value>, hasDeliveryIntent: bool, encode: Encoder)
      returns (pdu: Option<SubmitPdu>)
      requires HasReencodeFields(m)
      modifies this`log
      ensures var request := ReencodeRequest(m, hasDeliveryIntent);
        && (request.None? ==> pdu.None? && log == old(log))
        && (request.Some? ==> pdu == encode(codec, request.value)
                              && log == old(log) + [Encode(codec, request.value)])
    {
      if !IsStringRef(m["scAddr"]) || !IsStringRef(m["destAddr"]) {
        return None;
      }
      var scAddr := StringRef(m["scAddr"]);
      var destAddr := StringRef(m["destAddr"]);
      pdu := None;
      if "text" in m {
        if !IsStringRef(m["text"]) {
          return None;
        }
        var request := SubmitRequest(scAddr, destAddr, TextPayload(StringRef(m["text"])), hasDeliveryIntent);
        log := log + [Encode(codec, request)];
        pdu := encode(codec, request);
      } else if "data" in m {
        if !IsBytesRef(m["data"]) || !m["destPort"].Int? {
          return None;
        }
        var request := SubmitRequest(scAddr, destAddr, DataPayload(m["destPort"].i, BytesRef(m["data"])),
                                     hasDeliveryIntent);
        log := log + [Encode(codec, request)];
        pdu := encode(codec, request);
      }
    }

    /** injectSmsPdu, with the decoder (createFromPdu and getMessageClass)
        passed in. */
    method InjectSmsPdu(pdu: Bytes, format: Option<string>, receivedIntent: Option<PendingIntent>,
                        decode: Decoder)
      modifies this`log
      ensures log == old(log) + InjectEffects(pdu, format, receivedIntent, decode(pdu, format))
    {
      var threw := false;
      var msg := decode(pdu, format);
      if msg.DecodeThrows? {
        threw := true;
      } else if msg.DecodedNull? || msg.messageClass != Class1 {
        // only class 1 messages may be injected
        if receivedIntent.Some? {
          log := log + [IntentSend(Signal(receivedIntent.value, RESULT_SMS_GENERIC_ERROR))];
          threw := receivedIntent.value.canceled;
        }
        if !threw {
          return;
        }
      } else if format.None? {
        threw := true;
      } else if format.value == FORMAT_3GPP {
        log := log + [InjectSms(Gsm, pdu, format.value, receivedIntent)];
      } else if format.value == FORMAT_3GPP2 {
        log := log + [InjectSms(Cdma, pdu, format.value, receivedIntent)];
      } else {
        // invalid PDU format
        if receivedIntent.Some? {
          log := log + [IntentSend(Signal(receivedIntent.value, RESULT_SMS_GENERIC_ERROR))];
          threw := receivedIntent.value.canceled;
        }
      }
      if threw {
        // the catch-all handler; a CanceledException here is swallowed
        if receivedIntent.Some? {
          log := log + [IntentSend(Signal(receivedIntent.value, RESULT_SMS_GENERIC_ERROR))];
        }
      }
    }
  }
}
