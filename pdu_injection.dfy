/** injectSmsPdu as a function of its arguments and of what the decoder
    made of the PDU: which inbound handler, if any, receives the message,
    and which result-code sends are attempted on the received intent. The
    controller's method is proved to do exactly this
    (SmsDispatch.SmsDispatchersController.InjectSmsPdu). */
module PduInjection {
  import opened SmsCommon
  import opened DispatchTypes

  /** The generic error sent through the received intent, if there is one. */
  function ErrorSend(receivedIntent: Option<PendingIntent>): (effects: seq<Effect>)
    ensures |effects| == (if receivedIntent.Some? then 1 else 0)
    ensures forall i | 0 <= i < |effects| ::
      effects[i] == IntentSend(Signal(receivedIntent.value, RESULT_SMS_GENERIC_ERROR))
  {
    if receivedIntent.Some? then [IntentSend(Signal(receivedIntent.value, RESULT_SMS_GENERIC_ERROR))] else []
  }

  /** The generic error sent from inside the try block. A canceled intent
      throws CanceledException there; the catch-all handler then sends once
      more and swallows the second CanceledException. */
  function RejectInTry(receivedIntent: Option<PendingIntent>): (effects: seq<Effect>)
    ensures |effects| == (if receivedIntent.None? then 0 else if receivedIntent.value.canceled then 2 else 1)
    ensures forall i | 0 <= i < |effects| ::
      effects[i] == IntentSend(Signal(receivedIntent.value, RESULT_SMS_GENERIC_ERROR))
  {
    if receivedIntent.Some? && receivedIntent.value.canceled
    then ErrorSend(receivedIntent) + ErrorSend(receivedIntent)
    else ErrorSend(receivedIntent)
  }

  /** Only a decoded class-1 message is admitted. */
  predicate Admitted(decoded: Decoded) {
    decoded.DecodedMessage? && decoded.messageClass == Class1
  }

  /** The handler keyed by a format tag, when the tag names one. */
  function HandlerFor(format: string): (h: Option<Tech>)
    ensures h.Some? <==> format == FORMAT_3GPP || format == FORMAT_3GPP2
    ensures h.Some? ==> Format(h.value) == format
  {
    if format == FORMAT_3GPP then Some(Gsm)
    else if format == FORMAT_3GPP2 then Some(Cdma)
    else None
  }

  /** Everything injectSmsPdu does, given the decoder's outcome: at most
      two calls, each a send on the received intent or the hand-over of the
      PDU, which happens only for an admitted message and only to the
      handler of its own format tag. */
  function InjectEffects(pdu: Bytes, format: Option<string>, receivedIntent: Option<PendingIntent>,
                         decoded: Decoded): (effects: seq<Effect>)
    ensures |effects| <= 2
    ensures forall i | 0 <= i < |effects| :: effects[i].IntentSend? || effects[i].InjectSms?
    ensures forall i | 0 <= i < |effects| && effects[i].InjectSms? ::
      && Admitted(decoded) && format == Some(effects[i].format)
      && HandlerFor(effects[i].format) == Some(effects[i].handler)
      && effects[i].pdu == pdu && effects[i].receivedIntent == receivedIntent
  {
    if decoded.DecodeThrows? then ErrorSend(receivedIntent)
    else if !Admitted(decoded) then RejectInTry(receivedIntent)
    else if format.None? then ErrorSend(receivedIntent)  // format.equals on null
    else match HandlerFor(format.value)
      case Some(handler) => [InjectSms(handler, pdu, format.value, receivedIntent)]
      case None => RejectInTry(receivedIntent)
  }

  /** Number of sends that reached their intent. */
  function Deliveries(effects: seq<Effect>): nat {
    if effects == [] then 0
    else (if effects[0].IntentSend? && Delivered(effects[0].signal) then 1 else 0) + Deliveries(effects[1..])
  }

  lemma {:induction false} DeliveriesAppend(a: seq<Effect>, b: seq<Effect>)
    ensures Deliveries(a + b) == Deliveries(a) + Deliveries(b)
    decreases |a|
  {
    if a == [] {
      assert a + b == b;
    } else {
      assert (a + b)[1..] == a[1..] + b;
      DeliveriesAppend(a[1..], b);
    }
  }

  /** A decoded class-1 message with a known format tag goes, alone and
      with the received intent, to exactly the handler of that format. */
  lemma InjectAccepted(pdu: Bytes, format: string, receivedIntent: Option<PendingIntent>, decoded: Decoded)
    requires Admitted(decoded)
    requires format == FORMAT_3GPP || format == FORMAT_3GPP2
    ensures InjectEffects(pdu, Some(format), receivedIntent, decoded)
      == [InjectSms(if format == FORMAT_3GPP then Gsm else Cdma, pdu, format, receivedIntent)]
  {
  }

  /** Every other case (decode threw or gave null, not class 1, null or
      unknown format tag) reaches no handler; its only effects are sends of
      the generic error to the received intent, and exactly one of them is
      delivered when that intent exists and is not canceled, none
      otherwise. */
  lemma {:induction false} InjectRejected(pdu: Bytes, format: Option<string>, receivedIntent: Option<PendingIntent>,
                        decoded: Decoded)
    requires !(Admitted(decoded) && format.Some? && HandlerFor(format.value).Some?)
    ensures var effects := InjectEffects(pdu, format, receivedIntent, decoded);
      && (forall i | 0 <= i < |effects| ::
            effects[i] == IntentSend(Signal(receivedIntent.value, RESULT_SMS_GENERIC_ERROR)))
      && (receivedIntent.None? ==> effects == [])
      && Deliveries(effects) == (if receivedIntent.Some? && !receivedIntent.value.canceled then 1 else 0)
      && |effects| <= 2
  {
    var effects := InjectEffects(pdu, format, receivedIntent, decoded);
    var once := ErrorSend(receivedIntent);
    assert Deliveries(once) == (if receivedIntent.Some? && !receivedIntent.value.canceled then 1 else 0) by {
      if once != [] { assert once[1..] == []; }
    }
    if effects != once {
      DeliveriesAppend(once, once);
    }
  }

  /** A rejection made inside the try block (the decoder gave null, the
      message is not class 1, or the format tag names no handler) sends to a
      canceled intent twice: once there and once more by the catch-all
      handler (neither attempt is delivered). */
  lemma CanceledIntentAttemptedTwice(pdu: Bytes, format: Option<string>, intent: PendingIntent, decoded: Decoded)
    requires intent.canceled
    requires || decoded.DecodedNull?
             || (decoded.DecodedMessage? && decoded.messageClass != Class1)
             || (Admitted(decoded) && format.Some? && HandlerFor(format.value).None?)
    ensures InjectEffects(pdu, format, Some(intent), decoded)
      == [IntentSend(Signal(intent, RESULT_SMS_GENERIC_ERROR)), IntentSend(Signal(intent, RESULT_SMS_GENERIC_ERROR))]
  {
  }

  /** A rejection that throws before any send in the try block (the decoder
      threw, or a class-1 message came with a null format tag, whose
      format.equals throws) reaches only the catch-all handler: one attempt
      on the received intent, canceled or not. */
  lemma ThrownRejectionAttemptedOnce(pdu: Bytes, format: Option<string>, intent: PendingIntent, decoded: Decoded)
    requires decoded.DecodeThrows? || (Admitted(decoded) && format.None?)
    ensures InjectEffects(pdu, format, Some(intent), decoded)
      == [IntentSend(Signal(intent, RESULT_SMS_GENERIC_ERROR))]
  {
  }
}
