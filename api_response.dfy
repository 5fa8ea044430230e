/**
 * `ApiResponse` (src/api_response.rs): a JSON envelope holding data, a
 * message, or per-field errors, with its HTTP status.
 */
module ApiResponses {
  datatype ApiError = ApiError(kind: string, message: string)

  datatype ApiResponse<T> =
    | Data(data: T)
    | Error(message: string)
    | FieldErrors(errors: map<string, ApiError>)

  datatype HttpResponse = HttpResponse(status: nat, contentType: string, body: string)

  /** `Responder::respond_to`: the serialised envelope under a JSON content
      type; 200 for data, 400 for either kind of error. `serialize` stands for
      `serde_json::to_string`, which the source unwraps. */
  function RespondTo<T>(response: ApiResponse<T>, serialize: ApiResponse<T> -> string): (r: HttpResponse)
    ensures r.status == 200 <==> response.Data?
    ensures r.status in {200, 400}
    ensures r.contentType == "application/json"
    ensures r.body == serialize(response)
  {
    var status := match response
      case Data(_) => 200
      case Error(_) => 400
      case FieldErrors(_) => 400;
    HttpResponse(status, "application/json", serialize(response))
  }
}
