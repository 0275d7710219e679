/** The IMS registration state the dispatch controller keeps (mIms and
    mImsSmsFormat), how a completed registration-state query updates it, and
    the mobile-originated format decision (isCdmaMo) read from it. */
module ImsRegistration {
  import opened SmsCommon

  /** mIms: IMS is registered and supports SMS; mImsSmsFormat: the format
      the network reported. */
  datatype ImsState = ImsState(ims: bool, format: string)

  /** The field initialisers: not registered, format unknown. */
  const INITIAL: ImsState := ImsState(false, FORMAT_UNKNOWN)

  /** Completion of the asynchronous registration-state query: either the
      exception it carried or its integer response array. */
  datatype QueryResult = QueryFailed | QueryOk(response: seq<int>)

  /** The radio interface answers with two integers (registered flag,
      format code); a shorter array would make updateImsInfo throw. */
  predicate WellFormed(q: QueryResult) {
    q.QueryOk? ==> |q.response| >= 2
  }

  /** Registered implies a known format. */
  predicate Consistent(s: ImsState) {
    s.ims ==> s.format == FORMAT_3GPP || s.format == FORMAT_3GPP2
  }

  /** setImsSmsFormat: the phone type reported by the network names the
      format; any code outside the table is UNKNOWN. */
  function FormatForPhoneType(code: int): (f: string)
    ensures f == FORMAT_3GPP <==> code == PHONE_TYPE_GSM
    ensures f == FORMAT_3GPP2 <==> code == PHONE_TYPE_CDMA
    ensures f == FORMAT_UNKNOWN <==> code != PHONE_TYPE_GSM && code != PHONE_TYPE_CDMA
  {
    if code == PHONE_TYPE_GSM then FORMAT_3GPP
    else if code == PHONE_TYPE_CDMA then FORMAT_3GPP2
    else FORMAT_UNKNOWN
  }

  /** updateImsInfo: the state a successful response installs, whatever the
      state was before. */
  function ImsInfo(response: seq<int>): (s: ImsState)
    requires |response| >= 2
    ensures s.format == FormatForPhoneType(response[1])
    ensures s.ims <==> response[0] == 1 && (response[1] == PHONE_TYPE_GSM || response[1] == PHONE_TYPE_CDMA)
    ensures Consistent(s)
  {
    var format := FormatForPhoneType(response[1]);
    ImsState(response[0] == 1 && format != FORMAT_UNKNOWN, format)
  }

  /** The EVENT_IMS_STATE_DONE branch: a failed query leaves the state as it
      was; a successful one replaces it. */
  function AfterQuery(s: ImsState, q: QueryResult): (s': ImsState)
    requires WellFormed(q)
    ensures q.QueryFailed? ==> s' == s
    ensures Consistent(s) ==> Consistent(s')
  {
    match q
    case QueryFailed => s
    case QueryOk(response) => ImsInfo(response)
  }

  /** Query completions applied in the order they arrive. Failures alone
      never change the state. */
  function AfterQueries(s: ImsState, qs: seq<QueryResult>): (s': ImsState)
    requires forall i | 0 <= i < |qs| :: WellFormed(qs[i])
    ensures (forall i | 0 <= i < |qs| :: qs[i].QueryFailed?) ==> s' == s
    decreases |qs|
  {
    if qs == [] then s
    else AfterQuery(AfterQueries(s, qs[..|qs| - 1]), qs[|qs| - 1])
  }

  /** The position of the last successful completion, -1 when every
      completion failed. */
  function LastSuccessIndex(qs: seq<QueryResult>): (k: int)
    ensures -1 <= k < |qs|
    ensures k >= 0 ==> qs[k].QueryOk?
    ensures forall j | k < j < |qs| :: qs[j].QueryFailed?
    decreases |qs|
  {
    if qs == [] then -1
    else if qs[|qs| - 1].QueryOk? then |qs| - 1
    else
      var prefix := qs[..|qs| - 1];
      assert forall i | 0 <= i < |prefix| :: prefix[i] == qs[i];
      LastSuccessIndex(prefix)
  }

  /** Whatever order completions arrive in, the state reflects the last
      successful one that was applied; failures never overwrite it, and with
      no success at all the state is the one before the queries. */
  lemma {:induction false} AfterQueriesReflectsLastSuccess(s: ImsState, qs: seq<QueryResult>)
    requires forall i | 0 <= i < |qs| :: WellFormed(qs[i])
    ensures LastSuccessIndex(qs) == -1 ==> AfterQueries(s, qs) == s
    ensures LastSuccessIndex(qs) >= 0 ==>
      AfterQueries(s, qs) == ImsInfo(qs[LastSuccessIndex(qs)].response)
    decreases |qs|
  {
    if qs != [] {
      var prefix := qs[..|qs| - 1];
      assert forall i | 0 <= i < |prefix| :: prefix[i] == qs[i];
      AfterQueriesReflectsLastSuccess(s, prefix);
    }
  }

  /** "Registered implies a known format" holds after any sequence of
      completions, starting from a state where it holds. */
  lemma {:induction false} QueriesKeepConsistent(s: ImsState, qs: seq<QueryResult>)
    requires forall i | 0 <= i < |qs| :: WellFormed(qs[i])
    requires Consistent(s)
    ensures Consistent(AfterQueries(s, qs))
    decreases |qs|
  {
    if qs != [] {
      var prefix := qs[..|qs| - 1];
      assert forall i | 0 <= i < |prefix| :: prefix[i] == qs[i];
      QueriesKeepConsistent(s, prefix);
    }
  }

  /** isCdmaMo: without IMS the voice technology decides; with IMS the
      registered format decides, compared with the CDMA dispatcher's format. */
  function IsCdmaMo(s: ImsState, phoneType: int): (cdma: bool)
    ensures !s.ims ==> (cdma <==> VoiceTech(phoneType) == Cdma)
    ensures s.ims ==> (cdma <==> s.format == Format(Cdma))
  {
    if !s.ims then PHONE_TYPE_CDMA == phoneType
    else TechOfFormat(s.format) == Cdma
  }

  /** The dispatcher sendText, sendData and sendMultipartText hand a
      request to. */
  function MoDispatcher(s: ImsState, phoneType: int): (t: Tech)
    ensures t == Cdma <==> IsCdmaMo(s, phoneType)
  {
    if IsCdmaMo(s, phoneType) then Cdma else Gsm
  }

  /** Reference definition of the technology in force: the registered
      format while IMS is registered with a known format, the voice
      technology otherwise. */
  function ActiveTechnology(s: ImsState, phoneType: int): Tech {
    if s.ims && s.format == FORMAT_3GPP2 then Cdma
    else if s.ims && s.format == FORMAT_3GPP then Gsm
    else VoiceTech(phoneType)
  }

  /** On a consistent state the dispatcher chosen for outgoing messages is
      the technology in force. */
  lemma MoDispatcherIsActiveTechnology(s: ImsState, phoneType: int)
    requires Consistent(s)
    ensures MoDispatcher(s, phoneType) == ActiveTechnology(s, phoneType)
  {
  }

  /** From the initial state, after any sequence of query completions, the
      dispatcher chosen for outgoing messages is the technology in force. */
  lemma {:induction false} MoDispatcherAfterQueries(qs: seq<QueryResult>, phoneType: int)
    requires forall i | 0 <= i < |qs| :: WellFormed(qs[i])
    ensures MoDispatcher(AfterQueries(INITIAL, qs), phoneType)
      == ActiveTechnology(AfterQueries(INITIAL, qs), phoneType)
  {
    QueriesKeepConsistent(INITIAL, qs);
  }

  /** A format code outside the table never selects a technology by
      itself: the decision falls back to the voice technology. */
  lemma UnmappedCodeFallsBackToVoice(response: seq<int>, phoneType: int)
    requires |response| >= 2
    requires response[1] != PHONE_TYPE_GSM && response[1] != PHONE_TYPE_CDMA
    ensures !ImsInfo(response).ims
    ensures MoDispatcher(ImsInfo(response), phoneType) == VoiceTech(phoneType)
  {
  }
}
