/** How a call to a remote service (authentication, document store, file
    storage) ends, as the view models observe it. */
module Remote {
  import opened Collections

  /** How one remote call ended: normally, or by an exception whose message may be null. */
  datatype Outcome = Ok | Failed(message: Option<string>)

  /** A message spliced into a Kotlin string template: a null one reads "null". */
  function MessageText(m: Option<string>): (text: string)
    ensures m.Some? ==> text == m.value
    ensures m.None? ==> text == "null"
  {
    m.GetOr("null")
  }
}
