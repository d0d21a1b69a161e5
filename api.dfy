/**
 * What the React pages see of the server: an analysis object with the fields
 * the pages read, the `{status, data, message}` reply, and the two ways an
 * awaited call can end (a reply, or a rejected promise).
 */
module Api {

  import opened Optional

  /** One processing step: its key and its description, in the order the server listed them. */
  type Step = (string, string)

  /**
   * An analysis object as a page holds it. A history entry carries only the
   * summary fields, an upload result has no `created_at`, and a result fetched
   * by id carries its steps under another key, so the last four are optional.
   */
  datatype Analysis = Analysis(
    id: nat,
    filename: string,
    diseaseClass: string,
    confidence: real,
    createdAt: Option<string>,
    originalImage: Option<string>,
    processedImage: Option<string>,
    processingSteps: Option<seq<Step>>)

  /** A parsed reply; `data` is only read when `status` is "success". */
  datatype Reply<T> = Reply(status: string, data: T, message: Option<string>)

  /** How an awaited request ends: the promise resolves with a reply, or it rejects. */
  datatype Completion<T> = Replied(reply: Reply<T>) | TransportFailed

  /** `response.message || fallback`: the server's message unless it is missing or empty. */
  function MessageOr(message: Option<string>, fallback: string): (text: string)
    requires fallback != ""
    ensures text != ""
    ensures text == fallback <==> message.None? || message.value == "" || message.value == fallback
    ensures text != fallback ==> message == Some(text)
  {
    if message.Some? && message.value != "" then message.value else fallback
  }
}
