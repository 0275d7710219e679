/** The subscription-level SMS entry point (UiccSmsController): it finds the
    phone of a subscription, falls back to the default phone, and hands each
    request to that phone's ICC SMS interface manager. When the phone has no
    manager it reports an error through the caller's pending intent(s), or
    returns a fixed value, and never calls a manager. The controller keeps
    no state; each operation returns the calls it makes. */
module UiccSms {
  import opened SmsCommon

  /** What an ICC SMS interface manager answers, for the queries whose
      answer the controller passes back. */
  datatype IccSmsInterfaceManager = IccSmsInterfaceManager(
    smsCapacityOnIcc: int,
    enableCellBroadcastRange: (int, int, int) -> bool,
    disableCellBroadcastRange: (int, int, int) -> bool,
    premiumSmsPermission: string -> int)

  datatype Phone = Phone(iccSmsInterfaceManager: Option<IccSmsInterfaceManager>)

  /** PhoneFactory's phones by phone id, its default phone, and
      SubscriptionManager.getPhoneId. */
  datatype Phones = Phones(byPhoneId: map<int, Phone>, defaultPhone: Phone, phoneIdOf: int -> int)

  /** The subscription record of the active-subscription list. */
  datatype SubscriptionInfo = SubscriptionInfo(subscriptionId: int, simSlotIndex: int)

  /** The single-part send operations that take one sent intent. */
  datatype SendOp =
    | SendData | SendDataWithSelfPermissions
    | SendText | SendTextWithSelfPermissions | SendTextWithOptions
    | SendStoredText

  /** The multi-part send operations that take a list of sent intents. */
  datatype MultipartOp = SendMultipartText | SendMultipartTextWithOptions | SendStoredMultipartText

  /** A request handed to a manager (other arguments travel with it
      untouched and are not modelled). */
  datatype ManagerRequest =
    | SinglePart(op: SendOp, sentIntent: Option<PendingIntent>, deliveryIntent: Option<PendingIntent>)
    | MultiPart(mop: MultipartOp, sentIntents: Option<seq<Option<PendingIntent>>>,
                deliveryIntents: Option<seq<Option<PendingIntent>>>)
    | Inject(pdu: Bytes, format: Option<string>, receivedIntent: Option<PendingIntent>)

  /** A call the controller makes: on a manager, or on a pending intent. */
  datatype Call = Delegated(request: ManagerRequest) | Sent(signal: Signal)

  /** getPhone: the phone of the subscription's phone id, or the default
      phone when there is none. */
  function GetPhone(phones: Phones, subId: int): (p: Phone)
    ensures phones.phoneIdOf(subId) in phones.byPhoneId ==> p == phones.byPhoneId[phones.phoneIdOf(subId)]
    ensures phones.phoneIdOf(subId) !in phones.byPhoneId ==> p == phones.defaultPhone
  {
    var phoneId := phones.phoneIdOf(subId);
    if phoneId in phones.byPhoneId then phones.byPhoneId[phoneId] else phones.defaultPhone
  }

  /** getIccSmsInterfaceManager: the manager of the phone getPhone finds,
      which is null when that phone has none. */
  function GetIccSmsInterfaceManager(phones: Phones, subId: int): (manager: Option<IccSmsInterfaceManager>)
    ensures phones.phoneIdOf(subId) in phones.byPhoneId ==>
      manager == phones.byPhoneId[phones.phoneIdOf(subId)].iccSmsInterfaceManager
    ensures phones.phoneIdOf(subId) !in phones.byPhoneId ==>
      manager == phones.defaultPhone.iccSmsInterfaceManager
  {
    GetPhone(phones, subId).iccSmsInterfaceManager
  }

  /** sendErrorInPendingIntent: one send of the code to a non-null intent,
      nothing for a null one. A canceled intent raises CanceledException,
      which is swallowed: the attempt is made and nothing else happens. */
  function SendErrorInPendingIntent(intent: Option<PendingIntent>, errorCode: int): (signals: seq<Signal>)
    ensures |signals| == (if intent.Some? then 1 else 0)
    ensures forall i | 0 <= i < |signals| :: signals[i] == Signal(intent.value, errorCode)
  {
    if intent.Some? then [Signal(intent.value, errorCode)] else []
  }

  /** The sends the loop of sendErrorInPendingIntents makes over a list:
      no more than the list has entries, all carrying the code. */
  function ErrorSignals(intents: seq<Option<PendingIntent>>, errorCode: int): (signals: seq<Signal>)
    ensures |signals| <= |intents|
    ensures forall i | 0 <= i < |signals| :: signals[i].code == errorCode
    decreases |intents|
  {
    if intents == [] then []
    else SendErrorInPendingIntent(intents[0], errorCode) + ErrorSignals(intents[1..], errorCode)
  }

  /** Number of non-null entries of a list of intents. */
  function NonNullCount(intents: seq<Option<PendingIntent>>): nat
    decreases |intents|
  {
    if intents == [] then 0
    else (if intents[0].Some? then 1 else 0) + NonNullCount(intents[1..])
  }

  /** The sends for a list are those for its first part followed by those
      for the rest: the list is signalled in order. */
  lemma {:induction false} ErrorSignalsAppend(a: seq<Option<PendingIntent>>, b: seq<Option<PendingIntent>>,
                                              errorCode: int)
    ensures ErrorSignals(a + b, errorCode) == ErrorSignals(a, errorCode) + ErrorSignals(b, errorCode)
    decreases |a|
  {
    if a == [] {
      assert a + b == b;
    } else {
      assert (a + b)[1..] == a[1..] + b;
      ErrorSignalsAppend(a[1..], b, errorCode);
    }
  }

  /** One send per non-null intent, all with the given code and each to an
      intent of the list: a canceled intent does not cut the list short. */
  lemma {:induction false} ErrorSignalsCount(intents: seq<Option<PendingIntent>>, errorCode: int)
    ensures |ErrorSignals(intents, errorCode)| == NonNullCount(intents)
    ensures forall i | 0 <= i < |ErrorSignals(intents, errorCode)| ::
      ErrorSignals(intents, errorCode)[i].code == errorCode
      && Some(ErrorSignals(intents, errorCode)[i].intent) in intents
    decreases |intents|
  {
    if intents != [] {
      ErrorSignalsCount(intents[1..], errorCode);
      var head := SendErrorInPendingIntent(intents[0], errorCode);
      var signals := ErrorSignals(intents, errorCode);
      forall i | 0 <= i < |signals|
        ensures signals[i].code == errorCode && Some(signals[i].intent) in intents
      {
        if i >= |head| {
          assert signals[i] == ErrorSignals(intents[1..], errorCode)[i - |head|];
          assert Some(signals[i].intent) in intents[1..];
        }
      }
    }
  }

  /** The non-null intent at position j receives the code as the k-th send,
      where k counts the non-null intents before it: each non-null intent is
      signalled once, in list order, whether or not earlier ones were
      canceled. */
  lemma ErrorSignalsAt(intents: seq<Option<PendingIntent>>, errorCode: int, j: nat)
    requires j < |intents| && intents[j].Some?
    ensures NonNullCount(intents[..j]) < |ErrorSignals(intents, errorCode)|
    ensures ErrorSignals(intents, errorCode)[NonNullCount(intents[..j])] == Signal(intents[j].value, errorCode)
  {
    var before, rest := intents[..j], intents[j + 1..];
    assert intents == before + [intents[j]] + rest;
    ErrorSignalsAppend(before + [intents[j]], rest, errorCode);
    ErrorSignalsAppend(before, [intents[j]], errorCode);
    ErrorSignalsCount(before, errorCode);
    assert ErrorSignals([intents[j]], errorCode) == [Signal(intents[j].value, errorCode)] by {
      assert [intents[j]][1..] == [];
    }
  }

  /** sendErrorInPendingIntents: nothing for a null list, otherwise the
      error to each entry in order. */
  method SendErrorInPendingIntents(intents: Option<seq<Option<PendingIntent>>>, errorCode: int)
    returns (signals: seq<Signal>)
    ensures intents.None? ==> signals == []
    ensures intents.Some? ==> signals == ErrorSignals(intents.value, errorCode)
  {
    if intents.None? {
      return [];
    }
    var list := intents.value;
    signals := [];
    for i := 0 to |list|
      invariant signals == ErrorSignals(list[..i], errorCode)
    {
      ErrorSignalsAppend(list[..i], [list[i]], errorCode);
      assert list[..i + 1] == list[..i] + [list[i]];
      assert [list[i]][1..] == [];
      signals := signals + SendErrorInPendingIntent(list[i], errorCode);
    }
    assert list[..|list|] == list;
  }

  /** The calls made by some intent sends. */
  function AsCalls(signals: seq<Signal>): (calls: seq<Call>)
    ensures |calls| == |signals|
    ensures forall i | 0 <= i < |calls| :: calls[i] == Sent(signals[i])
  {
    seq(|signals|, i requires 0 <= i < |signals| => Sent(signals[i]))
  }

  /** No call on a manager among some calls. */
  predicate NoManagerCall(calls: seq<Call>) {
    forall i | 0 <= i < |calls| :: calls[i].Sent?
  }

  /** sendDataForSubscriber, sendDataForSubscriberWithSelfPermissions,
      sendTextForSubscriber, sendTextForSubscriberWithSelfPermissions,
      sendTextForSubscriberWithOptions and sendStoredText: the request goes
      to the manager if there is one; otherwise the generic failure goes to
      the sent intent and no manager is called. */
  method SendForSubscriber(phones: Phones, subId: int, op: SendOp,
                           sentIntent: Option<PendingIntent>, deliveryIntent: Option<PendingIntent>)
    returns (calls: seq<Call>)
    ensures GetIccSmsInterfaceManager(phones, subId).Some? ==>
      calls == [Delegated(SinglePart(op, sentIntent, deliveryIntent))]
    ensures GetIccSmsInterfaceManager(phones, subId).None? ==>
      NoManagerCall(calls)
      && calls == AsCalls(SendErrorInPendingIntent(sentIntent, RESULT_ERROR_GENERIC_FAILURE))
  {
    var manager := GetIccSmsInterfaceManager(phones, subId);
    if manager.Some? {
      calls := [Delegated(SinglePart(op, sentIntent, deliveryIntent))];
    } else {
      calls := AsCalls(SendErrorInPendingIntent(sentIntent, RESULT_ERROR_GENERIC_FAILURE));
    }
  }

  /** sendMultipartTextForSubscriber, sendMultipartTextForSubscriberWithOptions
      and sendStoredMultipartText: the request goes to the manager if there
      is one; otherwise the generic failure goes to every sent intent and no
      manager is called. */
  method SendMultipartForSubscriber(phones: Phones, subId: int, op: MultipartOp,
                                    sentIntents: Option<seq<Option<PendingIntent>>>,
                                    deliveryIntents: Option<seq<Option<PendingIntent>>>)
    returns (calls: seq<Call>)
    ensures GetIccSmsInterfaceManager(phones, subId).Some? ==>
      calls == [Delegated(MultiPart(op, sentIntents, deliveryIntents))]
    ensures GetIccSmsInterfaceManager(phones, subId).None? ==>
      NoManagerCall(calls)
      && calls == AsCalls(if sentIntents.None? then []
                          else ErrorSignals(sentIntents.value, RESULT_ERROR_GENERIC_FAILURE))
  {
    var manager := GetIccSmsInterfaceManager(phones, subId);
    if manager.Some? {
      calls := [Delegated(MultiPart(op, sentIntents, deliveryIntents))];
    } else {
      var signals := SendErrorInPendingIntents(sentIntents, RESULT_ERROR_GENERIC_FAILURE);
      calls := AsCalls(signals);
    }
  }

  /** injectSmsPduForSubscriber: with no manager the received intent gets
      the inbound generic error (the code documented for injection), not
      the send failure. */
  method InjectSmsPduForSubscriber(phones: Phones, subId: int, pdu: Bytes, format: Option<string>,
                                   receivedIntent: Option<PendingIntent>)
    returns (calls: seq<Call>)
    ensures GetIccSmsInterfaceManager(phones, subId).Some? ==>
      calls == [Delegated(Inject(pdu, format, receivedIntent))]
    ensures GetIccSmsInterfaceManager(phones, subId).None? ==>
      NoManagerCall(calls)
      && calls == AsCalls(SendErrorInPendingIntent(receivedIntent, RESULT_SMS_GENERIC_ERROR))
  {
    var manager := GetIccSmsInterfaceManager(phones, subId);
    if manager.Some? {
      calls := [Delegated(Inject(pdu, format, receivedIntent))];
    } else {
      calls := AsCalls(SendErrorInPendingIntent(receivedIntent, RESULT_SMS_GENERIC_ERROR));
    }
  }

  /** getSmsCapacityOnIccForSubscriber: -1 without a manager. */
  function GetSmsCapacityOnIccForSubscriber(phones: Phones, subId: int): (capacity: int)
    ensures GetIccSmsInterfaceManager(phones, subId).None? ==> capacity == -1
    ensures GetIccSmsInterfaceManager(phones, subId).Some? ==>
      capacity == GetIccSmsInterfaceManager(phones, subId).value.smsCapacityOnIcc
  {
    var manager := GetIccSmsInterfaceManager(phones, subId);
    if manager.Some? then manager.value.smsCapacityOnIcc else -1
  }

  /** enableCellBroadcastRangeForSubscriber: false without a manager. */
  function EnableCellBroadcastRangeForSubscriber(phones: Phones, subId: int, startMessageId: int,
                                                 endMessageId: int, ranType: int): (ok: bool)
    ensures GetIccSmsInterfaceManager(phones, subId).None? ==> !ok
    ensures GetIccSmsInterfaceManager(phones, subId).Some? ==>
      ok == GetIccSmsInterfaceManager(phones, subId).value.enableCellBroadcastRange(startMessageId, endMessageId, ranType)
  {
    var manager := GetIccSmsInterfaceManager(phones, subId);
    if manager.Some? then manager.value.enableCellBroadcastRange(startMessageId, endMessageId, ranType)
    else false
  }

  /** enableCellBroadcastForSubscriber: the range of the one identifier. */
  function EnableCellBroadcastForSubscriber(phones: Phones, subId: int, messageIdentifier: int,
                                            ranType: int): (ok: bool)
    ensures ok == EnableCellBroadcastRangeForSubscriber(phones, subId, messageIdentifier, messageIdentifier, ranType)
    ensures GetIccSmsInterfaceManager(phones, subId).None? ==> !ok
  {
    EnableCellBroadcastRangeForSubscriber(phones, subId, messageIdentifier, messageIdentifier, ranType)
  }

  /** disableCellBroadcastRangeForSubscriber: false without a manager. */
  function DisableCellBroadcastRangeForSubscriber(phones: Phones, subId: int, startMessageId: int,
                                                  endMessageId: int, ranType: int): (ok: bool)
    ensures GetIccSmsInterfaceManager(phones, subId).None? ==> !ok
    ensures GetIccSmsInterfaceManager(phones, subId).Some? ==>
      ok == GetIccSmsInterfaceManager(phones, subId).value.disableCellBroadcastRange(startMessageId, endMessageId, ranType)
  {
    var manager := GetIccSmsInterfaceManager(phones, subId);
    if manager.Some? then manager.value.disableCellBroadcastRange(startMessageId, endMessageId, ranType)
    else false
  }

  /** disableCellBroadcastForSubscriber: the range of the one identifier. */
  function DisableCellBroadcastForSubscriber(phones: Phones, subId: int, messageIdentifier: int,
                                             ranType: int): (ok: bool)
    ensures ok == DisableCellBroadcastRangeForSubscriber(phones, subId, messageIdentifier, messageIdentifier, ranType)
    ensures GetIccSmsInterfaceManager(phones, subId).None? ==> !ok
  {
    DisableCellBroadcastRangeForSubscriber(phones, subId, messageIdentifier, messageIdentifier, ranType)
  }

  /** getPremiumSmsPermissionForSubscriber: 0 without a manager. */
  function GetPremiumSmsPermissionForSubscriber(phones: Phones, subId: int, packageName: string): (permission: int)
    ensures GetIccSmsInterfaceManager(phones, subId).None? ==> permission == 0
    ensures GetIccSmsInterfaceManager(phones, subId).Some? ==>
      permission == GetIccSmsInterfaceManager(phones, subId).value.premiumSmsPermission(packageName)
  {
    var manager := GetIccSmsInterfaceManager(phones, subId);
    if manager.Some? then manager.value.premiumSmsPermission(packageName) else 0
  }

  /** The list holds a non-null entry for the subscription. */
  predicate ListsSubscription(subInfoList: seq<Option<SubscriptionInfo>>, subId: int) {
    exists i | 0 <= i < |subInfoList| :: subInfoList[i].Some? && subInfoList[i].value.subscriptionId == subId
  }

  /** isSmsSimPickActivityNeeded, given the active-subscription list and the
      SIM count: the picker is needed exactly when the subscription is not
      among the active ones, there are active ones, and there is more than
      one SIM. A null list never needs it. */
  method IsSmsSimPickActivityNeeded(subInfoList: Option<seq<Option<SubscriptionInfo>>>, simCount: int, subId: int)
    returns (needed: bool)
    ensures subInfoList.Some? && ListsSubscription(subInfoList.value, subId) ==> !needed
    ensures needed <==>
      && subInfoList.Some? && |subInfoList.value| > 0
      && !ListsSubscription(subInfoList.value, subId)
      && simCount > 1
  {
    if subInfoList.Some? {
      var list := subInfoList.value;
      var subInfoLength := |list|;
      for i := 0 to subInfoLength
        invariant forall k | 0 <= k < i :: !(list[k].Some? && list[k].value.subscriptionId == subId)
      {
        var sir := list[i];
        if sir.Some? && sir.value.subscriptionId == subId {
          // the subscription is valid: no picker needed
          return false;
        }
      }
      // multiple SIMs and subscriptions present: the picker is needed
      if subInfoLength > 0 && simCount > 1 {
        return true;
      }
    }
    return false;
  }
}
