/**
 * What a page does that the model records instead of performing: calls into
 * `api`, router navigation, toasts, changes of a page's loading flag, and file
 * downloads.
 */
module Effects {
  import Api
  import Json

  /** A toast as the page describes it; delivery is not modelled. */
  datatype Toast = Toast(title: string, description: string, destructive: bool)

  datatype Event =
    | Called(endpoint: Api.Endpoint)
    | Navigated(path: string)
    | Toasted(toast: Toast)
    | LoadingSet(on: bool)
    | Exported(data: Json.Json)

  function ErrorToast(description: string): Toast {
    Toast("Error", description, true)
  }
}
