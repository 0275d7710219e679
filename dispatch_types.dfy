/** The values the dispatch controller exchanges with its collaborators:
    the tracker's parameter map, codec requests and results, decoded
    inbound messages, outgoing requests, and the record of every call the
    controller makes on a collaborator. */
module DispatchTypes {
  import opened SmsCommon

  /** A value held in the tracker's HashMap<String, Object> parameter map. */
  datatype Value = Str(s: string) | Raw(b: Bytes) | Int(i: int) | Null

  /** The body a codec is asked to encode: text, or data for a port. */
  datatype Payload =
    | TextPayload(text: Option<string>)
    | DataPayload(destPort: int, data: Option<Bytes>)

  /** The arguments of getSubmitPdu: service centre, destination, body and
      the status-report flag. */
  datatype SubmitRequest = SubmitRequest(
    scAddr: Option<string>,
    destAddr: Option<string>,
    payload: Payload,
    statusReportRequested: bool)

  /** SubmitPduBase: the encoded service-centre address (null when none was
      given) and the encoded message. */
  datatype SubmitPdu = SubmitPdu(encodedScAddress: Option<Bytes>, encodedMessage: Bytes)

  /** getSubmitPdu of the CDMA or GSM SmsMessage class. None stands for a
      null result or an exception; either way the caller cannot go on. */
  type Encoder = (Tech, SubmitRequest) -> Option<SubmitPdu>

  /** The message classes of android.telephony.SmsMessage. */
  datatype MessageClass = Unknown | Class0 | Class1 | Class2 | Class3

  /** Outcome of SmsMessage.createFromPdu followed by getMessageClass. */
  datatype Decoded = DecodeThrows | DecodedNull | DecodedMessage(messageClass: MessageClass)

  type Decoder = (Bytes, Option<string>) -> Decoded

  /** A caller's outgoing request, forwarded unchanged to one dispatcher. */
  datatype MoRequest =
    | TextRequest(destAddr: string, scAddr: Option<string>, text: string,
                  sentIntent: Option<PendingIntent>, deliveryIntent: Option<PendingIntent>,
                  messageUri: Option<string>, callingPkg: string, persistMessage: bool)
    | DataRequest(destAddr: string, scAddr: Option<string>, destPort: int, data: Bytes,
                  sentIntent: Option<PendingIntent>, deliveryIntent: Option<PendingIntent>)
    | MultipartTextRequest(destAddr: string, scAddr: Option<string>, parts: seq<string>,
                  sentIntents: Option<seq<Option<PendingIntent>>>,
                  deliveryIntents: Option<seq<Option<PendingIntent>>>,
                  messageUri: Option<string>, callingPkg: string, persistMessage: bool)

  /** One call the controller makes on a collaborator. */
  datatype Effect =
      // getImsRegistrationState issued to the radio interface
    | QueryImsRegistrationState
      // a codec's getSubmitPdu called
    | Encode(codec: Tech, request: SubmitRequest)
      // a dispatcher's sendSms, with the tracker's format and map as handed over
    | SendSms(dispatcher: Tech, format: string, data: map<string, Value>)
      // tracker.onFailed(context, result, errorCode)
    | TrackerFailed(result: int, errorCode: int)
      // a dispatcher's sendText, sendData or sendMultipartText
    | Route(dispatcher: Tech, moRequest: MoRequest)
      // PendingIntent.send(code) attempted
    | IntentSend(signal: Signal)
      // EVENT_INJECT_SMS posted to an inbound handler; the handler receives the
      // message decoded from the PDU, which is a function of the PDU and the
      // format, so the PDU stands for it here
    | InjectSms(handler: Tech, pdu: Bytes, format: string, receivedIntent: Option<PendingIntent>)
}
