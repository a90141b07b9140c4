/** The Postgres user service of internal/services/psql/service.go. The
    database handle is an input: the answer it gives to a query or a
    statement. What the service decides around it is modelled as written. */
module Psql {
  import opened Common
  import opened Models

  const NoConnection := "no database connection"
  const MissingQuery := "missing query/statement"
  const NoSuchUsername := "username does not exist in the database"
  const ExecFailedPrefix := "error retrieving data; err: "

  /** What QueryContext gives back: sql.ErrNoRows, another error, or the
      rows, each of which Scan either decodes or fails on. */
  datatype QueryResult = NoRows | QueryFailed(error: string) | Rows(rows: seq<Result<UserParsed>>)

  /** What ExecContext gives back: an error, or a result whose RowsAffected
      yields a count, and possibly an error beside it. */
  datatype ExecResult = ExecFailed(error: string) | Executed(rowsAffected: int, rowsAffectedError: Option<string>)

  /** A *sql.DB: how it answers each query and each statement. */
  datatype Db = Db(query: string -> QueryResult, exec: string -> ExecResult)

  /** The service: its *sql.DB, which may be nil. */
  datatype PsqlService = PsqlService(db: Option<Db>)

  datatype NewUserResponse = NewUserResponse(lastInsertedId: int, rowsAffected: int)

  /** Which the service asks of the database, in order. */
  datatype DbCall = Query(query: string) | Exec(statement: string) | RowsAffected

  /** The list validateDbAction builds: a missing handle and an empty query
      each add an error, the handle's first. */
  function ValidationErrors(s: PsqlService, query: string): seq<string> {
    (if s.db.None? then [NoConnection] else []) + (if query == "" then [MissingQuery] else [])
  }

  /** validateDbAction. */
  method ValidateDbAction(s: PsqlService, query: string) returns (errs: seq<string>)
    ensures errs == ValidationErrors(s, query)
    ensures s.db.None? && query == "" ==> errs == [NoConnection, MissingQuery]
    ensures s.db.None? && query != "" ==> errs == [NoConnection]
    ensures s.db.Some? && query == "" ==> errs == [MissingQuery]
    ensures errs == [] <==> s.db.Some? && query != ""
  {
    errs := [];
    if s.db.None? {
      errs := errs + [NoConnection];
    }
    if query == "" {
      errs := errs + [MissingQuery];
    }
  }

  /** FindUser. A failed validation returns exactly its errors and asks the
      database nothing. ErrNoRows gives one error. Any other query error
      leaves the rows nil, and the loop's first Next dereferences them. Each
      row is scanned over the same record, so the last row wins; a scan
      error panics; no rows at all give the empty record. */
  method FindUser(s: PsqlService, query: string) returns (r: Outcome<(Option<UserParsed>, seq<string>)>, calls: seq<DbCall>)
    ensures (s.db.None? || query == "") <==> calls == []
    ensures s.db.None? || query == "" ==>
              r == Returned((None, ValidationErrors(s, query))) && |r.value.1| > 0
    ensures s.db.Some? && query != "" ==>
              calls == [Query(query)] &&
              match s.db.value.query(query)
              case NoRows => r == Returned((None, [NoSuchUsername]))
              case QueryFailed(_) => r == Panicked(NilDereference)
              case Rows(rows) =>
                if exists i :: 0 <= i < |rows| && rows[i].Err? then
                  r.Panicked? && exists i :: 0 <= i < |rows| && rows[i] == Err(r.reason) && forall j :: 0 <= j < i ==> rows[j].Ok?
                else if rows == [] then r == Returned((Some(EmptyUserParsed), []))
                else r == Returned((Some(rows[|rows| - 1].value), []))
  {
    var user := EmptyUserParsed;
    var errs := ValidateDbAction(s, query);
    if errs != [] {
      return Returned((None, errs)), [];
    }
    calls := [Query(query)];
    var res := s.db.value.query(query);
    match res
    case NoRows =>
      return Returned((None, [NoSuchUsername])), calls;
    case QueryFailed(_) =>
      return Panicked(NilDereference), calls;
    case Rows(rows) =>
      for i := 0 to |rows|
        invariant forall j :: 0 <= j < i ==> rows[j].Ok?
        invariant i == 0 ==> user == EmptyUserParsed
        invariant i > 0 ==> user == rows[i - 1].value
      {
        match rows[i]
        case Err(e) =>
          assert rows[i] == Err(e);
          return Panicked(e), calls;
        case Ok(row) =>
          user := row;
      }
      r := Returned((Some(user), []));
  }

  /** InsertNewUser. A failed validation returns exactly its errors and runs
      nothing; an exec failure gives no result and one wrapped error; after a
      successful exec the affected row count is returned, with its error, if
      any, as the only entry of the list. */
  method InsertNewUser(s: PsqlService, exec: string) returns (r: (Option<NewUserResponse>, seq<string>), calls: seq<DbCall>)
    ensures (s.db.None? || exec == "") <==> calls == []
    ensures s.db.None? || exec == "" ==>
              r == (None, ValidationErrors(s, exec)) && |r.1| > 0
    ensures s.db.Some? && exec != "" ==>
              match s.db.value.exec(exec)
              case ExecFailed(e) => calls == [Exec(exec)] && r == (None, [ExecFailedPrefix + e])
              case Executed(n, rowErr) =>
                calls == [Exec(exec), RowsAffected] &&
                r.0 == Some(NewUserResponse(0, n)) &&
                r.1 == (if rowErr.Some? then [rowErr.value] else [])
  {
    var errs: seq<string> := [];
    var vErrs := ValidateDbAction(s, exec);
    if vErrs != [] {
      return (None, vErrs), [];
    }
    calls := [Exec(exec)];
    var result := s.db.value.exec(exec);
    if result.ExecFailed? {
      return (None, [ExecFailedPrefix + result.error]), calls;
    }
    calls := calls + [RowsAffected];
    var rowsAffected := result.rowsAffected;
    if result.rowsAffectedError.Some? {
      errs := errs + [result.rowsAffectedError.value];
    }
    r := (Some(NewUserResponse(0, rowsAffected)), errs);
  }

  /** InsertOne: the statement is run on whatever handle there is, without
      validation, so a nil handle is dereferenced; the exec error is returned
      as is. */
  function InsertOne(s: PsqlService, exec: string): (r: Outcome<Option<string>>)
    ensures r.Panicked? <==> s.db.None?
    ensures s.db.Some? ==> (r.value.Some? <==> s.db.value.exec(exec).ExecFailed?)
    ensures s.db.Some? && r.value.Some? ==> r.value.value == s.db.value.exec(exec).error
  {
    if s.db.None? then Panicked(NilDereference)
    else match s.db.value.exec(exec)
         case ExecFailed(e) => Returned(Some(e))
         case Executed(_, _) => Returned(None)
  }
}
