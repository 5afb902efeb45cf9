/** What a remote call hands back to the stores once it settles. The stores
    never see the query itself, only this outcome, so it is an input here. */
module Remote {

  /** A value that may be JavaScript's `null`. */
  datatype Option<+T> = None | Some(value: T)

  /** The error object a failed table query resolves with. */
  datatype DbError = DbError(message: string)

  /** The `{ data, error }` object a table query resolves with. Either part
      may be null, and nothing stops both from being present: the stores
      decide by looking at `error` first. */
  datatype Response<+T> = Response(data: Option<T>, error: Option<DbError>)
}
