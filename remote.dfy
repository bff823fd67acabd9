/**
 * What the forms see of the remote calls they make (`submitAttorneyApplication`,
 * `subscribeToNewsletter`, `getArticles`). Their transport is not modelled: a
 * call either succeeds or fails with an optional HTTP status and an optional
 * JSON body, and the handler only reads those.
 */
module Remote {
  import opened Wrappers

  /** The backend's error body, `{ message?: string; error?: string }`. */
  datatype ErrorBody = ErrorBody(message: Option<string>, error: Option<string>)

  /** How an awaited API call ended: resolved, or rejected with an `ApiError`. */
  datatype CallOutcome =
    | Succeeded
    | Failed(status: Option<int>, body: Option<ErrorBody>)

  /** A transient notification shown with `toast.success` or `toast.error`. */
  datatype Toast = SuccessToast(text: string) | ErrorToast(text: string)
}
