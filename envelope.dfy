/** The error envelope: `errorLogs`, defined identically in
    internal/facade/facade.go and internal/routes/handler.go. */
module Envelope {
  import opened Models
  import Strconv

  /** The entries errorLogs builds: one per error, in order. */
  function Entries(errors: seq<string>, rootCause: string, status: int): (logs: seq<ErrorLog>)
    ensures |logs| == |errors|
    ensures forall i :: 0 <= i < |errors| ==>
              logs[i].rootCause == rootCause && logs[i].status == Strconv.Itoa(status) && logs[i].trace == errors[i]
  {
    seq(|errors|, i requires 0 <= i < |errors| => ErrorLog(Strconv.Itoa(status), errors[i], rootCause))
  }

  lemma EntriesAppend(errors: seq<string>, e: string, rootCause: string, status: int)
    ensures Entries(errors + [e], rootCause, status) == Entries(errors, rootCause, status) + [ErrorLog(Strconv.Itoa(status), e, rootCause)]
  {
  }

  /** errorLogs: the append loop over the errors. */
  method ErrorLogs(errors: seq<string>, rootCause: string, status: int) returns (errLogs: seq<ErrorLog>)
    ensures errLogs == Entries(errors, rootCause, status)
  {
    errLogs := [];
    for i := 0 to |errors|
      invariant errLogs == Entries(errors[..i], rootCause, status)
    {
      EntriesAppend(errors[..i], errors[i], rootCause, status);
      assert errors[..i + 1] == errors[..i] + [errors[i]];
      errLogs := errLogs + [ErrorLog(Strconv.Itoa(status), errors[i], rootCause)];
    }
    assert errors[..|errors|] == errors;
  }

  /** The message of every single-error path of the facade: one entry with
      the root cause, the status as text and the error's text, and the same
      status on the message itself. */
  function Failure(rootCause: string, status: int, trace: string): (m: Message)
    ensures m.errorLog == Entries([trace], rootCause, status)
    ensures m.status == Strconv.Itoa(status)
    ensures m.hostName == "" && m.timeTaken == "" && m.count == 0
  {
    EmptyMessage.(errorLog := [ErrorLog(Strconv.Itoa(status), trace, rootCause)], status := Strconv.Itoa(status))
  }
}
