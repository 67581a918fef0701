/**
 * The server's database helpers: the `DatabaseError` type and the rule that
 * unwraps a `{ data, error }` query result into a value or a thrown error.
 * The query itself is the database's business and is not modelled.
 */
module Supabase {
  import opened Wrappers

  /** The error object the database client reports (a PostgREST error). */
  datatype PgError = PgError(message: string)

  /** PostgREST's report when `.single()` finds no row (code PGRST116). */
  const NoRowsError := PgError("JSON object requested, multiple (or no) rows returned")

  /** An `Error` subclass: its name, its message and the cause it was built with. */
  datatype DatabaseError = DatabaseError(name: string, message: string, cause: Option<PgError>)

  /** `new DatabaseError(message, cause)`. */
  function NewDatabaseError(message: string, cause: Option<PgError>): (e: DatabaseError)
    ensures e.name == "DatabaseError" && e.message == message && e.cause == cause
  {
    DatabaseError("DatabaseError", message, cause)
  }

  /**
   * `handleSupabaseResponse`: an error wins even when data came back too; then
   * falsy data (as judged by `truthy`) is an error; otherwise the data is returned
   * as it is.
   */
  function HandleSupabaseResponse<T>(data: Option<T>, error: Option<PgError>, truthy: T -> bool): (r: Result<T, DatabaseError>)
    ensures r.Ok? <==> error.None? && data.Some? && truthy(data.value)
    ensures r.Ok? ==> r.value == data.value
    ensures error.Some? ==> r.error == NewDatabaseError("Database operation failed: " + error.value.message, error)
    ensures error.None? && !(data.Some? && truthy(data.value))
      ==> r.error == NewDatabaseError("No data returned from database", None)
  {
    if error.Some? then Err(NewDatabaseError("Database operation failed: " + error.value.message, error))
    else if data.None? || !truthy(data.value) then Err(NewDatabaseError("No data returned from database", None))
    else Ok(data.value)
  }

  /** Every error this rule throws is a `DatabaseError`, and it keeps the database's error as its cause. */
  lemma HandleSupabaseResponseErrors<T>(data: Option<T>, error: Option<PgError>, truthy: T -> bool)
    ensures HandleSupabaseResponse(data, error, truthy).Err? ==>
      HandleSupabaseResponse(data, error, truthy).error.name == "DatabaseError"
      && HandleSupabaseResponse(data, error, truthy).error.cause == error
  {
  }
}
