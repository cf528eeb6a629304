/**
 * The response helpers the admin screens wrap their calls in: the error
 * message picker, and the confirm-then-run, run-and-report and fetch
 * wrappers. The user's answer to a confirmation and the way the wrapped call
 * settles are parameters; the toasts are reduced to the final kind each
 * wrapper leaves on screen.
 */
module ApiHandlers {
  import opened Wrappers
  import opened JsText
  import opened Json

  /** The kind of a toast notification. */
  datatype ToastKind = SuccessToast | ErrorToast | InfoToast

  /** A toast shown to the user: its kind and message. */
  datatype Notice = Notice(kind: ToastKind, message: Json)

  /** What a confirm-then-run wrapper did: whether it ran the call, what it resolved to, and its toasts. */
  datatype ConfirmedRun = ConfirmedRun(invoked: bool, result: bool, loading: Option<string>, toast: Option<ToastKind>)

  /** The confirmation dialog `bulkAction` opens. */
  datatype Prompt = Prompt(title: string, message: string, confirmText: string, cancelText: string)

  /** `error?.response?.data?.message`. */
  function ResponseMessage(error: Json): Json {
    OptGet(OptGet(OptGet(error, "response"), "data"), "message")
  }

  /**
   * `apiHandlers.error(error, defaultMessage)`'s message: the error itself
   * when it is a string, else a truthy `response.data.message`, else a
   * truthy `message`, else the default ("An error occurred").
   */
  function ErrorMessage(error: Json, defaultMessage: Option<string>): (m: Json)
    ensures error.JStr? ==> m == error
    ensures !error.JStr? && Truthy(ResponseMessage(error)) ==> m == ResponseMessage(error)
    ensures !error.JStr? && !Truthy(ResponseMessage(error)) && Truthy(OptGet(error, "message")) ==> m == OptGet(error, "message")
    ensures !error.JStr? && !Truthy(ResponseMessage(error)) && !Truthy(OptGet(error, "message")) ==>
      m == JStr(defaultMessage.GetOr("An error occurred"))
  {
    if TypeOf(error) == "string" then error
    else if Truthy(ResponseMessage(error)) then ResponseMessage(error)
    else if Truthy(OptGet(error, "message")) then OptGet(error, "message")
    else JStr(defaultMessage.GetOr("An error occurred"))
  }

  /** A message is always shown: the picked message is a string or truthy, never a nullish value. */
  lemma ErrorMessageNeverNullish(error: Json, defaultMessage: Option<string>)
    ensures var m := ErrorMessage(error, defaultMessage); m.JStr? || Truthy(m)
  {
  }

  /** The server's message wins over the error's own. */
  lemma ServerMessageFirst(serverMessage: string, ownMessage: string, defaultMessage: Option<string>)
    requires serverMessage != ""
    ensures var data := JObj(map["message" := JStr(serverMessage)]);
      var error := JObj(map["response" := JObj(map["data" := data]), "message" := JStr(ownMessage)]);
      ErrorMessage(error, defaultMessage) == JStr(serverMessage)
  {
    var data := JObj(map["message" := JStr(serverMessage)]);
    var error := JObj(map["response" := JObj(map["data" := data]), "message" := JStr(ownMessage)]);
    assert OptGet(error, "response") == JObj(map["data" := data]);
    assert ResponseMessage(error) == JStr(serverMessage);
  }

  /** Without a server response, the error's own message wins over the default. */
  lemma OwnMessageNext(ownMessage: string, defaultMessage: Option<string>)
    requires ownMessage != ""
    ensures ErrorMessage(JObj(map["message" := JStr(ownMessage)]), defaultMessage) == JStr(ownMessage)
  {
    var error := JObj(map["message" := JStr(ownMessage)]);
    assert "response" !in error.fields;
    assert OptGet(error, "response") == JUndefined;
    assert OptGet(error, "message") == JStr(ownMessage);
  }

  /** A null error falls back to the default, or to the fixed text without one. */
  lemma DefaultMessageLast(defaultMessage: Option<string>)
    ensures ErrorMessage(JNull, defaultMessage) == JStr(defaultMessage.GetOr("An error occurred"))
  {
  }

  /**
   * `deleteWithConfirm(itemName, onConfirm)`: unconfirmed, nothing runs and
   * the result is false; confirmed, the deletion runs under a loading toast
   * and the result says whether it succeeded.
   */
  function DeleteWithConfirm(itemName: string, confirmed: bool, run: Outcome): (r: ConfirmedRun)
    ensures r.invoked <==> confirmed
    ensures r.result <==> confirmed && run.Pass?
    ensures confirmed ==>
      r.loading == Some("Deleting " + itemName + "...")
      && r.toast == Some(if run.Pass? then SuccessToast else ErrorToast)
    ensures !confirmed ==> r.loading.None? && r.toast.None?
  {
    if !confirmed then ConfirmedRun(false, false, None, None)
    else ConfirmedRun(true, run.Pass?, Some("Deleting " + itemName + "..."), Some(if run.Pass? then SuccessToast else ErrorToast))
  }

  /** `apiHandlers.async(operation, messages)`: the operation's value, or null when it rejects; it never rejects itself. */
  function Async<T>(operation: Result<T>): (r: Option<T>)
    ensures r.Some? <==> operation.Ok?
    ensures operation.Ok? ==> r.value == operation.value
  {
    if operation.Ok? then Some(operation.value) else None
  }

  /** How an `await` of a call settles: it passes exactly when the call resolves. */
  function Awaited<T>(call: Result<T>): (o: Outcome)
    ensures o.Pass? <==> call.Ok?
  {
    if call.Ok? then Pass else Fail(call.error)
  }

  /** `formSubmit(onSubmit)`: true exactly when the submission resolves, with the loading toast updated to match. */
  function FormSubmit(run: Outcome): (r: (bool, ToastKind))
    ensures r.0 <==> run.Pass?
    ensures r.1 == (if run.Pass? then SuccessToast else ErrorToast)
  {
    if run.Pass? then (true, SuccessToast) else (false, ErrorToast)
  }

  /** `apiHandlers.fetch(fetchFn)`: the fetched value, or null when the fetch rejects. */
  function Fetch<T>(fetched: Result<T>, loadingMessage: Option<string>): (r: (Option<T>, string))
    ensures r.0.Some? <==> fetched.Ok?
    ensures fetched.Ok? ==> r.0.value == fetched.value
    ensures r.1 == loadingMessage.GetOr("Loading...")
  {
    (if fetched.Ok? then Some(fetched.value) else None, loadingMessage.GetOr("Loading..."))
  }

  /** `async` and `fetch` settle to the same value for the same call. */
  lemma AsyncAgreesWithFetch<T>(call: Result<T>, loadingMessage: Option<string>)
    ensures Async(call) == Fetch(call, loadingMessage).0
  {
  }

  /** The dialog `bulkAction(action, count, ...)` asks. */
  function BulkPrompt(action: string, count: int): Prompt {
    Prompt("Confirm " + action,
           "This will " + ToLower(action) + " " + IntToString(count) + " item(s). Continue?",
           "Yes, Continue", "Cancel")
  }

  /**
   * `bulkAction(action, count, onConfirm)`: the dialog, and then the same
   * confirm-then-run behaviour as a deletion, under the loading text
   * "<action>ing items...".
   */
  function BulkAction(action: string, count: int, confirmed: bool, run: Outcome): (r: (Prompt, ConfirmedRun))
    ensures r.0 == BulkPrompt(action, count)
    ensures r.1.invoked <==> confirmed
    ensures r.1.result <==> confirmed && run.Pass?
    ensures confirmed ==> r.1.loading == Some(action + "ing items...")
    ensures !confirmed ==> r.1.loading.None? && r.1.toast.None?
  {
    (BulkPrompt(action, count),
     if !confirmed then ConfirmedRun(false, false, None, None)
     else ConfirmedRun(true, run.Pass?, Some(action + "ing items..."), Some(if run.Pass? then SuccessToast else ErrorToast)))
  }

  /** The dialog's message starts with "This will " and the action in lower case. */
  lemma BulkPromptMentionsAction(action: string, count: int)
    ensures StartsWith(BulkPrompt(action, count).message, "This will " + ToLower(action) + " ")
  {
    var m := BulkPrompt(action, count).message;
    var head := "This will " + ToLower(action) + " ";
    assert m == head + (IntToString(count) + " item(s). Continue?");
    assert m[..|head|] == head;
  }

  /** A bulk action and a deletion decide the same way for the same answer and outcome. */
  lemma BulkAgreesWithDelete(action: string, count: int, itemName: string, confirmed: bool, run: Outcome)
    ensures BulkAction(action, count, confirmed, run).1.result == DeleteWithConfirm(itemName, confirmed, run).result
    ensures BulkAction(action, count, confirmed, run).1.toast == DeleteWithConfirm(itemName, confirmed, run).toast
  {
  }
}
