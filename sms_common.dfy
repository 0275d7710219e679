/** Values, constants and result signalling shared by the dispatch controller
    (SmsDispatch and the modules beside it) and the subscription-level
    controller (UiccSms). */
module SmsCommon {

  /** Stands for a Java reference that may be null. */
  datatype Option<+T> = None | Some(value: T)

  type Bytes = seq<bv8>

  // Phone types (PhoneConstants).
  const PHONE_TYPE_GSM: int := 1
  const PHONE_TYPE_CDMA: int := 2

  // Message format tags (SmsConstants).
  const FORMAT_3GPP: string := "3gpp"
  const FORMAT_3GPP2: string := "3gpp2"
  const FORMAT_UNKNOWN: string := "unknown"

  // Result codes: SmsManager's generic send failure and the inbound
  // generic error of Telephony.Sms.Intents.
  const RESULT_ERROR_GENERIC_FAILURE: int := 1
  const RESULT_SMS_GENERIC_ERROR: int := 2

  /** A pending intent. Sending through a canceled one raises
      CanceledException instead of delivering the code. */
  datatype PendingIntent = PendingIntent(id: int, canceled: bool)

  /** One attempt to send a result code through a pending intent. */
  datatype Signal = Signal(intent: PendingIntent, code: int)

  /** An attempt reaches its target unless the intent was canceled. */
  predicate Delivered(s: Signal) {
    !s.intent.canceled
  }

  /** The two radio technologies, each with its own dispatcher, codec and
      inbound handler. */
  datatype Tech = Cdma | Gsm

  /** The format tag a technology's dispatcher reports (getFormat()). */
  function Format(t: Tech): (f: string)
    ensures f == FORMAT_3GPP2 <==> t == Cdma
    ensures f == FORMAT_3GPP <==> t == Gsm
    ensures f != FORMAT_UNKNOWN
  {
    match t
    case Cdma => FORMAT_3GPP2
    case Gsm => FORMAT_3GPP
  }

  /** isCdmaFormat: a format selects the CDMA dispatcher exactly when it
      equals that dispatcher's format; every other tag selects GSM. */
  function TechOfFormat(f: string): (t: Tech)
    ensures t == Cdma <==> f == Format(Cdma)
    ensures f == Format(Gsm) ==> t == Gsm
  {
    if f == Format(Cdma) then Cdma else Gsm
  }

  /** The dispatcher selected by a technology's own format is that
      technology's dispatcher. */
  lemma TechOfFormatRoundTrip(t: Tech)
    ensures TechOfFormat(Format(t)) == t
  {
  }

  /** The voice technology of a phone type: CDMA for the CDMA phone type,
      GSM for every other. */
  function VoiceTech(phoneType: int): (t: Tech)
    ensures t == Cdma <==> phoneType == PHONE_TYPE_CDMA
  {
    if phoneType == PHONE_TYPE_CDMA then Cdma else Gsm
  }
}
