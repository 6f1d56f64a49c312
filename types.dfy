/** The normalised outcome of one run of the external `sqlpp` tool (pkg/types/types.go). */
module Types {

  datatype SqlppResult = SqlppResult(success: bool, output: string, error: string)

  /** The data-model invariant: an error text is present exactly when the run failed. */
  predicate WellFormed(r: SqlppResult) {
    r.success <==> r.error == ""
  }
}
