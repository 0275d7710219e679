# SMS dispatch controller model

A Dafny model of the SMS routing and retry core of the Android telephony
framework. It covers two files.

`SmsDispatchersController` is the controller that owns the CDMA (3GPP2) and GSM (3GPP) dispatchers. The model covers:

- the IMS registration state (`mIms`, `mImsSmsFormat`), which is updated from radio query results;
- the `isCdmaMo` decision, which routes outgoing text, data and multipart messages to one dispatcher;
- `sendRetrySms`, which re-encodes a failed tracker in the format of the current voice technology;
- `injectSmsPdu`, which admits only decoded class-1 PDUs with a known format tag and hands them to the matching inbound handler.

`UiccSmsController` is the subscription-level entry point. The model covers:

- the phone lookup with its default-phone fallback;
- the null-manager error paths of the send, inject and query methods;
- `sendErrorInPendingIntent(s)`;
- the `isSmsSimPickActivityNeeded` decision.

Layout:

- `sms_common.dfy` (`SmsCommon`): the technologies, the format tags and result codes, and pending intents.
- `ims_registration.dfy` (`ImsRegistration`): the IMS state as a value, the phone-type-to-format table, the effect of query completions, and the outgoing-message decision.
- `dispatch_types.dfy` (`DispatchTypes`): the tracker's parameter map values, codec and decoder interfaces, outgoing requests, and `Effect`, the record of one call on a collaborator.
- `retry_reencode.dfy` (`RetryReencode`): `sendRetrySms` as a function `Retry` of the tracker's state, with its properties.
- `pdu_injection.dfy` (`PduInjection`): `injectSmsPdu` as a function `InjectEffects` of the decoder's outcome, with its properties.
- `sms_dispatch.dfy` (`SmsDispatch`): the controller and the tracker as classes. Their fields are updated in place. Each method is proved equal to the functions above, and every collaborator call is appended to `log`.
- `uicc_sms.dfy` (`UiccSms`): the subscription controller. It is stateless; each operation returns the calls it makes.

Collaborators are not modelled:

- The PDU codecs (`getSubmitPdu`, `createFromPdu`/`getMessageClass`) are passed in as functions.
- The phone type and the SIM count are passed in as parameters.
- The phone registry, the subscription list and the ICC SMS interface managers are passed in as values.

A Java `null` is `None`. A runtime exception that escapes `sendRetrySms` is the outcome `completed == false`. A failed cast of a map value is modelled through the typed `Value` of the map.

The constants come from Android platform classes (`PhoneConstants`, `SmsConstants`, `SmsManager`, `Telephony.Sms.Intents`), which are not part of this model. Their values:

- PHONE_TYPE_GSM = 1 and PHONE_TYPE_CDMA = 2;
- FORMAT_3GPP = "3gpp", FORMAT_3GPP2 = "3gpp2" and FORMAT_UNKNOWN = "unknown";
- RESULT_ERROR_GENERIC_FAILURE = 1 and RESULT_SMS_GENERIC_ERROR = 2.

The CDMA dispatcher's `getFormat()` is "3gpp2" and the GSM dispatcher's is "3gpp"; the dispatcher classes are not part of this model either.

Two behaviours of the code worth knowing:

- **Double send on a canceled intent.** When an injection is rejected inside the `try` block and its received intent is canceled, the generic error is sent twice. The first send is in the `try` block (SmsDispatchersController.java:195-197 for a null decode or a class other than 1, 214-216 for an unknown tag). Its `CanceledException` reaches the catch-all handler, which sends once more (218-223). A rejection that throws before that first send gets one attempt only: the decoder throwing (186-187), or a class-1 message with a null format, whose `format.equals` throws (203). Neither attempt reaches a canceled intent, so at most one error send is ever delivered (`PduInjection.InjectRejected`, `PduInjection.CanceledIntentAttemptedTwice`, `PduInjection.ThrownRejectionAttemptedOnce`).
- **Retry format.** The format of a retry follows the voice phone type (SmsDispatchersController.java:239-241). The IMS registration state plays no part in it.

## Model

| member | source | states |
|---|---|---|
| SmsCommon.Format | src/java/com/android/internal/telephony/SmsDispatchersController.java:347-349 | the CDMA dispatcher's format is "3gpp2" and the GSM dispatcher's "3gpp"; neither is the unknown tag |
| SmsCommon.TechOfFormat | src/java/com/android/internal/telephony/SmsDispatchersController.java:347-349 | isCdmaFormat: CDMA exactly for the CDMA dispatcher's format; the GSM format and any other tag give GSM |
| SmsCommon.TechOfFormatRoundTrip | src/java/com/android/internal/telephony/SmsDispatchersController.java:310-313 | the dispatcher picked for a format reports that format back |
| SmsCommon.VoiceTech | src/java/com/android/internal/telephony/SmsDispatchersController.java:333-336 | the voice technology is CDMA exactly when the phone type is PHONE_TYPE_CDMA |
| ImsRegistration.FormatForPhoneType | src/java/com/android/internal/telephony/SmsDispatchersController.java:148-161 | GSM maps to "3gpp", CDMA to "3gpp2", every other code to "unknown" (each as an if-and-only-if) |
| ImsRegistration.ImsInfo | src/java/com/android/internal/telephony/SmsDispatchersController.java:163-168 | the format is the table's image of response[1]; registered exactly when response[0] == 1 and the code is GSM or CDMA; registered implies a known format |
| ImsRegistration.AfterQuery | src/java/com/android/internal/telephony/SmsDispatchersController.java:128-137 | a failed query leaves the state unchanged; "registered implies known format" is preserved |
| ImsRegistration.AfterQueries | src/java/com/android/internal/telephony/SmsDispatchersController.java:128-137 | completions applied in arrival order; failures alone never change the state. Its other properties are in AfterQueriesReflectsLastSuccess, QueriesKeepConsistent and MoDispatcherAfterQueries |
| ImsRegistration.LastSuccessIndex | src/java/com/android/internal/telephony/SmsDispatchersController.java:128-137 | the position of a successful completion followed only by failures, or -1 when every completion failed |
| ImsRegistration.AfterQueriesReflectsLastSuccess | src/java/com/android/internal/telephony/SmsDispatchersController.java:119-137 | after any sequence of completions the state is the one the last successful response installs, or the initial one when none succeeded |
| ImsRegistration.QueriesKeepConsistent | src/java/com/android/internal/telephony/SmsDispatchersController.java:163-168 | registered implies a known format after any sequence of completions |
| ImsRegistration.IsCdmaMo | src/java/com/android/internal/telephony/SmsDispatchersController.java:332-339 | unregistered: CDMA iff the phone type is CDMA; registered: CDMA iff the IMS format is the CDMA dispatcher's |
| ImsRegistration.MoDispatcher | src/java/com/android/internal/telephony/SmsDispatchersController.java:377-464 | outgoing requests go to the CDMA dispatcher iff isCdmaMo |
| ImsRegistration.MoDispatcherIsActiveTechnology | src/java/com/android/internal/telephony/SmsDispatchersController.java:332-349 | on a consistent state the chosen dispatcher is the registered format's technology, or the voice technology when unregistered |
| ImsRegistration.MoDispatcherAfterQueries | src/java/com/android/internal/telephony/SmsDispatchersController.java:119-168 | from the initial state, after any completions, the chosen dispatcher is the technology in force |
| ImsRegistration.UnmappedCodeFallsBackToVoice | src/java/com/android/internal/telephony/SmsDispatchersController.java:148-168 | a format code outside the table never registers, and routing falls back to the voice technology |
| SmsDispatch.SmsDispatchersController.constructor | src/java/com/android/internal/telephony/SmsDispatchersController.java:66-68 | the controller starts unregistered with the unknown format (INITIAL), which satisfies the invariant, and with nothing logged |
| SmsDispatch.SmsDispatchersController.HandleMessage | src/java/com/android/internal/telephony/SmsDispatchersController.java:119-137 | radio-on and state-changed issue one registration query and change nothing; a completed query updates the state as AfterQuery says; the consistency invariant is kept |
| SmsDispatch.SmsDispatchersController.SetImsSmsFormat | src/java/com/android/internal/telephony/SmsDispatchersController.java:148-161 | the format field becomes the table's image of the code |
| SmsDispatch.SmsDispatchersController.UpdateImsInfo | src/java/com/android/internal/telephony/SmsDispatchersController.java:163-168 | the two fields become ImsInfo(response) and the invariant holds |
| SmsDispatch.SmsDispatchersController.SendData | src/java/com/android/internal/telephony/SmsDispatchersController.java:377-384 | exactly one call, forwarding the unchanged request to the dispatcher isCdmaMo picks |
| SmsDispatch.SmsDispatchersController.SendText | src/java/com/android/internal/telephony/SmsDispatchersController.java:413-423 | exactly one call, forwarding the unchanged request to the dispatcher isCdmaMo picks |
| SmsDispatch.SmsDispatchersController.SendMultipartText | src/java/com/android/internal/telephony/SmsDispatchersController.java:453-464 | exactly one call, forwarding the unchanged request to the dispatcher isCdmaMo picks |
| SmsDispatch.SmsDispatchersController.SendRetrySms | src/java/com/android/internal/telephony/SmsDispatchersController.java:235-315 | the tracker's new map and format, the calls made and the completion flag are those of Retry on the old tracker |
| SmsDispatch.SmsDispatchersController.ReencodeAndSend | src/java/com/android/internal/telephony/SmsDispatchersController.java:270-314 | the tracker's new map and format, the calls made and the completion flag are those of Reencode: one encode, "smsc"/"pdu" replaced, the codec's format taken on, one sendSms on the same technology |
| SmsDispatch.SmsDispatchersController.EncodeForRetry | src/java/com/android/internal/telephony/SmsDispatchersController.java:270-304 | the casts and one codec call on the request ReencodeRequest builds; no call when a cast throws |
| SmsDispatch.SmsDispatchersController.InjectSmsPdu | src/java/com/android/internal/telephony/SmsDispatchersController.java:181-228 | the calls made are InjectEffects of the decoder's outcome, including the catch-all handler's sends |
| RetryReencode.Retry | src/java/com/android/internal/telephony/SmsDispatchersController.java:235-315 | sendRetrySms on a tracker: the format only ever becomes the retry format, no parameter is removed, and an escaping exception leaves the tracker untouched. Its branches are in RetrySameFormat, RetryMissingFields and RetryReencodes; at most one send in its own format is in RetrySendsOnlyOwnFormat |
| RetryReencode.Reencode | src/java/com/android/internal/telephony/SmsDispatchersController.java:270-314 | the re-encode branch: on an exception the tracker is untouched and at most the codec was called; otherwise it has the codec's format and gains exactly "smsc" and "pdu" (full contract in RetryReencodes) |
| RetryReencode.HasReencodeFields | src/java/com/android/internal/telephony/SmsDispatchersController.java:262-264 | the fields a re-encode needs: scAddr, destAddr, and text or data with destPort. Used by RetryMissingFields and RetryReencodes |
| RetryReencode.RetryFormat | src/java/com/android/internal/telephony/SmsDispatchersController.java:239-241 | the new format is "3gpp2" iff the voice phone type is CDMA, "3gpp" otherwise |
| RetryReencode.StringRef | src/java/com/android/internal/telephony/SmsDispatchersController.java:270-271 | a String cast yields a string exactly for a string value, null for null |
| RetryReencode.BytesRef | src/java/com/android/internal/telephony/SmsDispatchersController.java:290 | a byte[] cast yields bytes exactly for a byte-array value, null for null |
| RetryReencode.BytesValue | src/java/com/android/internal/telephony/SmsDispatchersController.java:307 | storing an encoded address and casting it back gives the same (possibly null) bytes |
| RetryReencode.ReencodeRequest | src/java/com/android/internal/telephony/SmsDispatchersController.java:270-304 | the status-report flag is exactly "has a delivery intent"; addresses are the cast map values; text is chosen iff present, otherwise data with the port; none exactly when a cast or the port's unboxing throws |
| RetryReencode.WithPdu | src/java/com/android/internal/telephony/SmsDispatchersController.java:306-308 | "smsc" and "pdu" hold the codec's output; every other entry is unchanged |
| RetryReencode.RetrySameFormat | src/java/com/android/internal/telephony/SmsDispatchersController.java:243-254 | equal formats: no codec call, the tracker is unchanged, one sendSms on the dispatcher of the voice technology |
| RetryReencode.RetryMissingFields | src/java/com/android/internal/telephony/SmsDispatchersController.java:262-269 | missing fields: exactly one onFailed with RESULT_ERROR_GENERIC_FAILURE and error code 0, no codec, no sendSms |
| RetryReencode.RetryReencodes | src/java/com/android/internal/telephony/SmsDispatchersController.java:270-314 | one encode by the voice technology's codec with the delivery flag and text precedence; "smsc"/"pdu" overwritten with its output, other entries kept; the format becomes the new one; one sendSms to the matching dispatcher |
| RetryReencode.RetrySendsOnlyOwnFormat | src/java/com/android/internal/telephony/SmsDispatchersController.java:235-315 | every outcome makes at most one sendSms, always to the voice technology's dispatcher, tagged with that dispatcher's format and carrying the final map |
| RetryReencode.RetryExceptionLeavesTracker | src/java/com/android/internal/telephony/SmsDispatchersController.java:270-308 | a retry that throws has not touched the map or the format and has sent nothing |
| RetryReencode.SecondRetryDoesNotReencode | src/java/com/android/internal/telephony/SmsDispatchersController.java:243-254 | after a retry that reached a dispatcher, a retry under the same technology takes the unchanged path |
| RetryReencode.ReencodeKeepsParameters | src/java/com/android/internal/telephony/SmsDispatchersController.java:306-308 | re-encoding keeps the fields and the request built from them |
| PduInjection.InjectEffects | src/java/com/android/internal/telephony/SmsDispatchersController.java:181-228 | at most two calls, each a send on the received intent or a hand-over; a hand-over happens only for an admitted message, only to its own tag's handler, with the intent and the message decoded from the PDU (recorded as the PDU, since the decoder is a function of the PDU and the format). The cases are in InjectAccepted and InjectRejected |
| PduInjection.RejectInTry | src/java/com/android/internal/telephony/SmsDispatchersController.java:195-198 | an error send inside the try block: none for a null intent, one for a live intent, and two for a canceled one, because the catch-all at 218-226 sends again |
| PduInjection.ErrorSend | src/java/com/android/internal/telephony/SmsDispatchersController.java:218-225 | one RESULT_SMS_GENERIC_ERROR send to a non-null intent, nothing for null |
| PduInjection.HandlerFor | src/java/com/android/internal/telephony/SmsDispatchersController.java:202-210 | a handler exactly for "3gpp" and "3gpp2", and the one whose format is that tag |
| PduInjection.DeliveriesAppend | src/java/com/android/internal/telephony/SmsDispatchersController.java:195-225 | delivered sends of two runs of calls add up |
| PduInjection.Admitted | src/java/com/android/internal/telephony/SmsDispatchersController.java:190-191 | the class-1 test: a decoded, non-null message of class 1. Used by InjectEffects, InjectAccepted and InjectRejected |
| PduInjection.InjectAccepted | src/java/com/android/internal/telephony/SmsDispatchersController.java:200-210 | a class-1 message with a known tag goes alone, with the received intent, to exactly that tag's handler |
| PduInjection.InjectRejected | src/java/com/android/internal/telephony/SmsDispatchersController.java:181-228 | every other case reaches no handler; its only calls are generic-error sends to the received intent, no call at all when the received intent is null, at most two attempts, exactly one delivered when the intent exists and is not canceled |
| PduInjection.CanceledIntentAttemptedTwice | src/java/com/android/internal/telephony/SmsDispatchersController.java:190-223 | a rejection inside the try block (null decode, a class other than 1, or an unknown tag) sends the generic error to a canceled intent twice: once in the try block, once by the catch-all |
| PduInjection.ThrownRejectionAttemptedOnce | src/java/com/android/internal/telephony/SmsDispatchersController.java:186-223 | when the decoder throws, or a class-1 message has a null format tag (format.equals throws at 203), the received intent gets exactly one generic-error send, from the catch-all, canceled or not |
| UiccSms.GetPhone | src/java/com/android/internal/telephony/UiccSmsController.java:60-66 | the phone of the subscription's phone id, the default phone when there is none |
| UiccSms.GetIccSmsInterfaceManager | src/java/com/android/internal/telephony/UiccSmsController.java:476-478 | the manager of the subscription's phone, or of the default phone when the subscription's phone id has none |
| UiccSms.SendErrorInPendingIntent | src/java/com/android/internal/telephony/UiccSmsController.java:453-460 | one send of the code to a non-null intent, none for null; a canceled intent does not propagate |
| UiccSms.ErrorSignals | src/java/com/android/internal/telephony/UiccSmsController.java:467-469 | the sends of the loop: no more than the list has entries, all with the code. The count, order and positions are in ErrorSignalsCount and ErrorSignalsAt |
| UiccSms.ErrorSignalsAppend | src/java/com/android/internal/telephony/UiccSmsController.java:467-469 | the sends for a list are those of its prefix followed by those of the rest |
| UiccSms.ErrorSignalsCount | src/java/com/android/internal/telephony/UiccSmsController.java:453-470 | one send per non-null entry, all with the given code, each to an entry of the list; a canceled entry does not stop the rest |
| UiccSms.ErrorSignalsAt | src/java/com/android/internal/telephony/UiccSmsController.java:462-470 | the j-th non-null entry receives the code as the j-th send: each once, in list order |
| UiccSms.SendErrorInPendingIntents | src/java/com/android/internal/telephony/UiccSmsController.java:462-470 | nothing for a null list; otherwise exactly the per-entry sends in order |
| UiccSms.SendForSubscriber | src/java/com/android/internal/telephony/UiccSmsController.java:107-181 | the five send variants and sendStoredText (UiccSmsController.java:373-383): with a manager, exactly one delegated call; without, no manager call and RESULT_ERROR_GENERIC_FAILURE to the sent intent |
| UiccSms.SendMultipartForSubscriber | src/java/com/android/internal/telephony/UiccSmsController.java:184-213 | the two multipart variants and sendStoredMultipartText (UiccSmsController.java:385-398): with a manager, exactly one delegated call; without, no manager call and RESULT_ERROR_GENERIC_FAILURE to every sent intent |
| UiccSms.InjectSmsPduForSubscriber | src/java/com/android/internal/telephony/UiccSmsController.java:341-352 | with a manager, one delegated injection; without, no manager call and RESULT_SMS_GENERIC_ERROR to the received intent |
| UiccSms.GetSmsCapacityOnIccForSubscriber | src/java/com/android/internal/telephony/UiccSmsController.java:483-493 | the manager's capacity, or -1 without a manager |
| UiccSms.EnableCellBroadcastRangeForSubscriber | src/java/com/android/internal/telephony/UiccSmsController.java:222-232 | the manager's answer for the range, false without a manager |
| UiccSms.EnableCellBroadcastForSubscriber | src/java/com/android/internal/telephony/UiccSmsController.java:216-219 | the range call with start == end == the identifier; false without a manager |
| UiccSms.DisableCellBroadcastRangeForSubscriber | src/java/com/android/internal/telephony/UiccSmsController.java:242-252 | the manager's answer for the range, false without a manager |
| UiccSms.DisableCellBroadcastForSubscriber | src/java/com/android/internal/telephony/UiccSmsController.java:235-239 | the range call with start == end == the identifier; false without a manager |
| UiccSms.GetPremiumSmsPermissionForSubscriber | src/java/com/android/internal/telephony/UiccSmsController.java:260-269 | the manager's answer, 0 without a manager |
| UiccSms.ListsSubscription | src/java/com/android/internal/telephony/UiccSmsController.java:313-318 | the test the loop makes: some non-null entry has the subscription id. Used by IsSmsSimPickActivityNeeded's if-and-only-if |
| UiccSms.IsSmsSimPickActivityNeeded | src/java/com/android/internal/telephony/UiccSmsController.java:310-327 | false whenever a non-null entry has the subscription id; true exactly when the list is non-null and non-empty, lacks the id, and there is more than one SIM |

## Left out

- The Handler default branch (forwarding other events to a dispatcher): event plumbing. The same goes for the asynchronous radio calls; only the issue of the registration query is recorded.
- The constructor's wiring (SmsDispatchersController.java:70-93): creating the dispatchers and inbound handlers and registering for radio events. `updatePhoneObject` and `dispose` are lifecycle wiring too. The field initialisers are modelled by the controller's constructor.
- `isIms` and `getImsSmsFormat`: plain getters of the modelled fields.
- The dispatchers' and inbound handlers' internals, `SmsBroadcastUndelivered` and `PendingIntent` delivery. These calls are recorded, not executed.
- PDU codecs and decoders: passed in as functions. A codec that returns null and one that throws are the same outcome here.
- SmsDispatch.SmsDispatchersController.HandleMessage: it requires a successful response to hold at least two integers. A null or shorter result array, which would throw at `responseArray[1]` (SmsDispatchersController.java:165), is not modelled.
- SmsDispatch.SmsDispatchersController.SendRetrySms: `tracker.mFormat` is taken to be non-null; a null format, which would throw on `equals`, is not modelled.
- SmsDispatch.SmsDispatchersController.SendRetrySms: an exception from a dispatcher's `sendSms` or the tracker's `onFailed` is not modelled.
- PduInjection.InjectEffects: an exception from posting to an inbound handler is not modelled.
- Premium-SMS permission get/set on the dispatch controller, `getUsageMonitor`, `dump`, the app-token and financial-app calls, `getPreferredSmsSubscription` and `isSMSPromptEnabled`: thin wrappers over code that is not part of this model.
- Likewise `getPremiumSmsPermission`, `setPremiumSmsPermission(ForSubscriber)` and the preferred-subscription `sendText`/`sendMultipartText` of the subscription controller.
- `updateMessageOnIccEfForSubscriber`, `copyMessageToIccEfForSubscriber`, `getAllMessagesFromIccEfForSubscriber`, `isImsSmsSupportedForSubscriber` and `getImsSmsFormatForSubscriber`: pass-through to the manager.
- UiccSms.SendForSubscriber and UiccSms.SendMultipartForSubscriber: the arguments other than the intents are passed to the manager untouched and are not recorded.
- UiccSms.GetIccSmsInterfaceManager: a null default phone is not modelled. `getPhone` would return it, and `getIccSmsInterfaceManager` would then throw NullPointerException (UiccSmsController.java:477).
- Logging (`Rlog`) and Binder identity handling: I/O.
