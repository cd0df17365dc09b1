/** What can happen to one call of a controller to the API server. */
module ApiCalls {

  /** The call succeeds, fails without effect, or takes effect and reports failure. */
  datatype Call = Clean | Failed | LostAck
}
