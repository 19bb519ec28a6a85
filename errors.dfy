/**
 * The binding's error channel (Src/XGBoost/XGBoostError.cs) and the
 * exceptions it and the wrappers raise (Src/XGBoost/XGBoostException.cs and
 * the framework exceptions the wrappers throw), folded into one datatype.
 */
module ErrorChannel {
  import opened NativeApi

  /** A managed reference that may be null. */
  datatype Option<T> = None | Some(value: T)

  datatype Error =
    /** Native failure, or a length check of the matrix wrapper. */
    | XGBoostException(message: string)
    | ArgumentNullException(paramName: string)
    /** "`what` length differ `first`/`second`": two parallel arrays disagree. */
    | ArgumentException(what: string, first: nat, second: nat)
    | NotImplementedException
    | IndexOutOfRangeException

  /** Completion of an operation that returns nothing. */
  datatype Outcome = Pass | Fail(error: Error)

  /** Completion of an operation that returns a value. */
  datatype Result<T> = Ok(value: T) | Err(error: Error)

  /** `CheckError` as a total function of the status code and of the text the
      last-error query would return. */
  function Check(exitCode: int, lastError: string): (o: Outcome)
    ensures o.Pass? <==> exitCode == 0
    ensures o.Fail? ==> o.error == XGBoostException(lastError)
  {
    if exitCode != 0 then Fail(XGBoostException(lastError)) else Pass
  }

  /** The calls the channel adds to the log: one last-error query on failure. */
  function ErrorQuery(failed: bool): (calls: seq<Call>)
    ensures calls == [] <==> !failed
    ensures failed ==> calls == [XGBGetLastError]
  {
    if failed then [XGBGetLastError] else []
  }

  /** Translates a status code; asks for the message only when the code is
      non-zero, and never touches the native state. */
  method CheckError(lib: Library, exitCode: int) returns (o: Outcome)
    modifies lib`log
    ensures o == Check(exitCode, lib.lastError)
    ensures lib.log == old(lib.log) + ErrorQuery(exitCode != 0)
  {
    if exitCode != 0 {
      var message := lib.XGBGetLastErrorCall();
      return Fail(XGBoostException(message));
    }
    return Pass;
  }

  /** A sequence of calls that was planned but cut short by a native failure:
      the log grew by a non-empty prefix of `planned` and then by the one
      last-error query, and nothing after it. */
  ghost predicate Aborted(log0: seq<Call>, log1: seq<Call>, planned: seq<Call>)
  {
    var k := |log1| - |log0| - 1;
    0 < k <= |planned| && log1 == log0 + planned[..k] + [XGBGetLastError]
  }

  /** Failing the first planned call is an abort of the plan. */
  lemma AbortedAtFirst(log0: seq<Call>, c: Call, rest: seq<Call>)
    ensures Aborted(log0, log0 + [c] + ErrorQuery(true), [c] + rest)
  {
    assert ([c] + rest)[..1] == [c];
  }

  /** An abort of a plan is an abort of any longer plan it begins. */
  lemma AbortedExtend(log0: seq<Call>, log1: seq<Call>, planned: seq<Call>, more: seq<Call>)
    requires Aborted(log0, log1, planned)
    ensures Aborted(log0, log1, planned + more)
  {
    var k := |log1| - |log0| - 1;
    assert (planned + more)[..k] == planned[..k];
  }

  /** Calls that completed before a plan started belong to the plan. */
  lemma AbortedShift(log0: seq<Call>, done: seq<Call>, log1: seq<Call>, planned: seq<Call>)
    requires Aborted(log0 + done, log1, planned)
    ensures Aborted(log0, log1, done + planned)
  {
    var k := |log1| - |log0 + done| - 1;
    assert (done + planned)[..|done| + k] == done + planned[..k];
  }
}
