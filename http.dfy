/** The response side of a handler: status, JSON envelope and cookie operations. */
module Http {
  import opened Outcomes
  import opened ApiErrors

  /** The ApiResponse envelope (utils/apiResponse.js is not part of this model; only its three arguments are). */
  datatype ApiResponse<D> = ApiResponse(statusCode: int, data: D, message: string)

  datatype CookieOptions = CookieOptions(httpOnly: bool, secure: bool)

  datatype CookieOp =
    | SetCookie(name: string, value: string, options: CookieOptions)
    | ClearCookie(name: string, options: CookieOptions)

  /** `res.status(status).cookie(...)...json(body)`. */
  datatype Reply<D> = Reply(status: int, body: ApiResponse<D>, cookies: seq<CookieOp>)

  /** A handler either answers or throws to the error-handling middleware. */
  type Handled<D> = Result<Reply<D>, Thrown>

  /** The empty object `{}` some handlers return as data. */
  datatype Empty = Empty

  function Json<D>(status: int, data: D, message: string): Reply<D>
  {
    Reply(status, ApiResponse(status, data, message), [])
  }

  function Throw<D>(code: int, message: string): Handled<D>
  {
    Failure(Api(Err(code, message)))
  }

  /**
   * What `uploadOnCloudinary` resolves to: undefined when the upload failed (the
   * helper swallows the error), or the host's answer with its `url`.
   */
  datatype UploadResult = UploadFailed | Uploaded(url: string)
}
