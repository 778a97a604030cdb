/** `handleError` of `apps/www/app/utils/error.ts`: any error becomes a JSON reply with one field. */
module ErrorHandler {
  import opened Wrappers
  import opened Json

  const InternalServerError: string := "Internal Server Error"

  datatype JsonResponse = JsonResponse(body: Json, status: int)

  /**
   * `message` is the thrown value's `message` property (None when it has none); `status` is the
   * second argument, None when the caller leaves it out.
   */
  function HandleError(message: Option<Json>, status: Option<int>): (r: JsonResponse)
    ensures r.status == status.GetOr(500)
    ensures r.body.JObject? && |r.body.members| == 1 && r.body.members[0].0 == "error"
    ensures message.Some? && message.value.Truthy() ==> r.body.Get("error") == message
    ensures !(message.Some? && message.value.Truthy()) ==> r.body.Get("error") == Some(JString(InternalServerError))
  {
    var text := if message.Some? && message.value.Truthy() then message.value else JString(InternalServerError);
    JsonResponse(JObject([("error", text)]), status.GetOr(500))
  }
}
