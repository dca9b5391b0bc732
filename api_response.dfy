/**
 * The uniform response envelope of the JSON API: `{success, message, data?,
 * errors?}` together with the HTTP status, and the helpers that build it.
 */
module ApiResponse {
  import opened Common

  /** One field-level problem: the path to the field and what is wrong with it. */
  datatype FieldError = FieldError(path: seq<string>, message: string)

  /**
   * The JSON body. A success envelope always carries `data` (which may itself
   * be `null`); an error envelope has no `data` key and carries `errors` only
   * when the caller passed them.
   */
  datatype Envelope<D> = Envelope(
    success: bool,
    message: string,
    data: Option<D>,
    errors: Option<seq<FieldError>>)

  datatype Response<D> = Response(status: int, body: Envelope<D>)

  const DefaultSuccessMessage: string := "処理が正常に完了しました"
  const ValidationMessage: string := "入力データが不正です"
  const DefaultUnauthorizedMessage: string := "認証が必要です"
  const DefaultForbiddenMessage: string := "この操作を実行する権限がありません"
  const DefaultNotFoundMessage: string := "リソースが見つかりません"
  const DefaultServerErrorMessage: string := "サーバーエラーが発生しました"

  function SuccessResponse<D>(data: D, message: string := DefaultSuccessMessage, status: int := 200): (r: Response<D>)
    ensures r.body.success && r.body.data == Some(data) && r.body.errors == None
    ensures r.body.message == message && r.status == status
  {
    Response(status, Envelope(true, message, Some(data), None))
  }

  function ErrorResponse<D>(message: string, status: int := 500, errors: Option<seq<FieldError>> := None): (r: Response<D>)
    ensures !r.body.success && r.body.data == None && r.body.errors == errors
    ensures r.body.message == message && r.status == status
  {
    Response(status, Envelope(false, message, None, errors))
  }

  function ValidationErrorResponse<D>(errors: seq<FieldError>): (r: Response<D>)
    ensures r.status == 400 && !r.body.success && r.body.message == ValidationMessage && r.body.data == None
    ensures r.body.errors == Some(errors)
  {
    ErrorResponse(ValidationMessage, 400, Some(errors))
  }

  function UnauthorizedResponse<D>(message: string := DefaultUnauthorizedMessage): (r: Response<D>)
    ensures r.status == 401 && !r.body.success && r.body.message == message && r.body.errors == None && r.body.data == None
  {
    ErrorResponse(message, 401)
  }

  function ForbiddenResponse<D>(message: string := DefaultForbiddenMessage): (r: Response<D>)
    ensures r.status == 403 && !r.body.success && r.body.message == message && r.body.errors == None && r.body.data == None
  {
    ErrorResponse(message, 403)
  }

  function NotFoundResponse<D>(message: string := DefaultNotFoundMessage): (r: Response<D>)
    ensures r.status == 404 && !r.body.success && r.body.message == message && r.body.errors == None && r.body.data == None
  {
    ErrorResponse(message, 404)
  }

  function ServerErrorResponse<D>(message: string := DefaultServerErrorMessage): (r: Response<D>)
    ensures r.status == 500 && !r.body.success && r.body.message == message && r.body.errors == None && r.body.data == None
  {
    ErrorResponse(message, 500)
  }

  /** A response is well formed when exactly the success envelopes carry data. */
  predicate WellFormed<D>(r: Response<D>) {
    r.body.success <==> r.body.data.Some?
  }

  /** The status of every fixed-status helper agrees with its `success` flag. */
  predicate StatusAgrees<D>(r: Response<D>) {
    r.body.success <==> 200 <= r.status < 300
  }

  /**
   * Every envelope a helper builds is well formed, and the fixed-status helpers
   * (and the success helper with a 2xx status) report `success` exactly when
   * the status is 2xx.
   */
  lemma {:induction false} HelpersAgree<D>(data: D, message: string, status: int, errors: Option<seq<FieldError>>, fieldErrors: seq<FieldError>)
    ensures WellFormed(SuccessResponse(data, message, status)) && WellFormed<D>(ErrorResponse(message, status, errors))
    ensures WellFormed<D>(ValidationErrorResponse(fieldErrors)) && WellFormed<D>(UnauthorizedResponse(message))
    ensures WellFormed<D>(ForbiddenResponse(message)) && WellFormed<D>(NotFoundResponse(message)) && WellFormed<D>(ServerErrorResponse(message))
    ensures 200 <= status < 300 ==> StatusAgrees(SuccessResponse(data, message, status))
    ensures StatusAgrees<D>(ValidationErrorResponse(fieldErrors))
    ensures StatusAgrees<D>(UnauthorizedResponse(message)) && StatusAgrees<D>(ForbiddenResponse(message))
    ensures StatusAgrees<D>(NotFoundResponse(message)) && StatusAgrees<D>(ServerErrorResponse(message))
  {
  }

  /** The default arguments: status 200 after success, status 500 after an error. */
  lemma DefaultStatuses<D>(data: D, message: string)
    ensures SuccessResponse(data).status == 200 && SuccessResponse(data).body.message == DefaultSuccessMessage
    ensures ErrorResponse<D>(message).status == 500 && ErrorResponse<D>(message).body.errors == None
  {
  }
}
