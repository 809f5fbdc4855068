/**
 * What a failed Google pop-up sign-in tells the user: the `error.code` the
 * Firebase SDK reports is mapped to one of five specific messages or to a
 * generic one, and that message heads the alert.
 */
module AuthErrors {
  import opened Wrappers

  const InvalidApiKey: string := "auth/invalid-api-key"
  const AppNotAuthorized: string := "auth/app-not-authorized"
  const OperationNotSupported: string := "auth/operation-not-supported-in-this-environment"
  const PopupClosedByUser: string := "auth/popup-closed-by-user"
  const CancelledPopupRequest: string := "auth/cancelled-popup-request"

  const DefaultMessage: string := "Firebase Sign-in failed"

  /** The error codes that have a message of their own, with those messages. */
  const KnownMessages: map<string, string> := map[
    InvalidApiKey := "\U{26A0}\U{FE0F} Invalid API Key! Check your Firebase config.",
    AppNotAuthorized := "\U{26A0}\U{FE0F} App not authorized. Enable Google signin in Firebase Console.",
    OperationNotSupported := "\U{26A0}\U{FE0F} Pop-ups blocked or not supported.",
    PopupClosedByUser := "\U{26A0}\U{FE0F} You closed the sign-in popup.",
    CancelledPopupRequest := "\U{26A0}\U{FE0F} Sign-in was cancelled."
  ]

  /**
   * The if-chain of the error handler. `code` is `None` when the thrown error
   * carries no `code` property (it is then `undefined`, equal to no string).
   * It agrees with the table: a listed code gets its entry, anything else the
   * default message.
   */
  function UserMessage(code: Option<string>): (m: string)
    ensures code.Some? && code.value in KnownMessages ==> m == KnownMessages[code.value]
    ensures code.None? || code.value !in KnownMessages ==> m == DefaultMessage
  {
    if code == Some(InvalidApiKey) then
      "\U{26A0}\U{FE0F} Invalid API Key! Check your Firebase config."
    else if code == Some(AppNotAuthorized) then
      "\U{26A0}\U{FE0F} App not authorized. Enable Google signin in Firebase Console."
    else if code == Some(OperationNotSupported) then
      "\U{26A0}\U{FE0F} Pop-ups blocked or not supported."
    else if code == Some(PopupClosedByUser) then
      "\U{26A0}\U{FE0F} You closed the sign-in popup."
    else if code == Some(CancelledPopupRequest) then
      "\U{26A0}\U{FE0F} Sign-in was cancelled."
    else
      DefaultMessage
  }

  /** Two different listed codes have different messages, and none of them is the default message. */
  lemma KnownMessagesDistinct(c1: string, c2: string)
    requires c1 in KnownMessages && c2 in KnownMessages
    ensures c1 != c2 ==> KnownMessages[c1] != KnownMessages[c2]
    ensures KnownMessages[c1] != DefaultMessage
  {
    // codes and messages all have different lengths
    assert |InvalidApiKey| == 20 && |AppNotAuthorized| == 23 && |OperationNotSupported| == 48;
    assert |PopupClosedByUser| == 25 && |CancelledPopupRequest| == 28;
    assert |KnownMessages[InvalidApiKey]| == 47 && |KnownMessages[AppNotAuthorized]| == 64;
    assert |KnownMessages[OperationNotSupported]| == 36 && |KnownMessages[PopupClosedByUser]| == 32;
    assert |KnownMessages[CancelledPopupRequest]| == 25 && |DefaultMessage| == 23;
  }

  /**
   * The message is the default one exactly when the code is not one of the
   * five listed codes; on the listed codes the message determines the code.
   */
  lemma UserMessageClassifies(c1: Option<string>, c2: Option<string>)
    ensures UserMessage(c1) == DefaultMessage <==> (c1.None? || c1.value !in KnownMessages)
    ensures UserMessage(c1) == UserMessage(c2) && UserMessage(c1) != DefaultMessage ==> c1 == c2
  {
    if c1.Some? && c1.value in KnownMessages {
      KnownMessagesDistinct(c1.value, c1.value);
      if c2.Some? && c2.value in KnownMessages {
        KnownMessagesDistinct(c1.value, c2.value);
      }
    }
  }

  /** The alert text: the chosen message, the SDK's own error message, and a hint to look in the console. */
  function AlertText(code: Option<string>, errorMessage: string): (text: string)
    ensures |text| == |UserMessage(code)| + |errorMessage| + 45
    ensures UserMessage(code) <= text
    ensures text[|UserMessage(code)| + 9..|text| - 36] == errorMessage
  {
    UserMessage(code) + "\n\nError: " + errorMessage + "\n\nCheck browser console for details."
  }
}
