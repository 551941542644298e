/** The `HTTPException`s the endpoints and services raise. */
module Http {
  import opened Common

  /** An `HTTPException(status_code, detail)`. */
  datatype HttpError = HttpError(status: int, detail: string)

  const NoDocumentsFound: HttpError := HttpError(404, "No relevant documents found.")

  /** `str(e)` of an `HTTPException`: Starlette prints `"<status>: <detail>"`. */
  function Rendered(e: HttpError): string
  {
    IntToString(e.status) + ": " + e.detail
  }

  /** An exception a callee raised: an `HTTPException`, or any other with its `str()`. */
  datatype Raised = HttpRaised(error: HttpError) | OtherRaised(message: string)
}
