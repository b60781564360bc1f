/** What the sign-in and sign-up pages have in common. */
module Forms {
  import opened Wrappers

  /**
   * The `{error && <div>{error}</div>}` banner: an empty string is falsy, so
   * the banner shows, with the message, exactly when the message is non-empty.
   */
  function ErrorBanner(error: string): (shown: Option<string>)
    ensures shown.Some? <==> error != ""
    ensures shown.Some? ==> shown.value == error
  {
    if error == "" then None else Some(error)
  }
}
