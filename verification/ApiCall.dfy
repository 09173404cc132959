/** Calls to the API server, as their caller sees them. */
module ApiCall {
  /** What became of one call: it worked; it took effect but the caller saw an error; or
      it had no effect and failed. */
  datatype Fate = Applied | AppliedButFailed | Failed
}
