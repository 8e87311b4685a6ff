/** ActiveAgent::GenerationProvider::Response: what a provider hands back. */
module Responses {
  import opened Wrappers

  datatype Response<P, M, R> = Response(prompt: P, message: M, rawResponse: Option<R>)

  /**
   * `Response.new(prompt:, message:, raw_response:)`: the prompt as given,
   * the message (or, when none is given, the prompt's own message, read
   * with `messageOf`) and the raw response as given (nil by default).
   */
  function New<P, M, R>(prompt: P, messageOf: P -> M, message: Option<M>, raw: Option<R>): (r: Response<P, M, R>)
    ensures r.prompt == prompt
    ensures message.Some? ==> r.message == message.value
    ensures message.None? ==> r.message == messageOf(prompt)
    ensures r.rawResponse == raw
  {
    Response(prompt, message.GetOr(messageOf(prompt)), raw)
  }
}
