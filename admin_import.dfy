/** The sample-product import both admin pages offer: the admin check before it, and the status
    banner it reports. */
module AdminImport {
  import opened Base
  import opened Text
  import opened Js

  datatype StatusKind = InfoStatus | SuccessStatus | ErrorStatus

  /** The banner: whether it shows, its text and its kind. */
  datatype ImportStatus = ImportStatus(show: bool, message: string, kind: StatusKind)

  const NoStatus: ImportStatus := ImportStatus(false, "", InfoStatus)
  const AdminRequired: ImportStatus := ImportStatus(true, "Admin access required to import products", ErrorStatus)

  /** The import's counters as the server reports them. */
  datatype ImportResult = ImportResult(created: Val, skipped: Val, errors: seq<Val>)

  /** What the import call settles to: the results, or a thrown value, which is an `Error` with a
      message or something else. */
  datatype ImportReply = Imported(results: ImportResult) | Threw(message: Option<string>)

  const CompletePrefix: string := "Import complete! Created: "

  /** The banner after a completed import: the counters, then the error count when there are
      errors, which also make the banner an error. */
  function CompleteStatus(res: ImportResult): (r: ImportStatus)
    ensures r.show && r.kind != InfoStatus
    ensures r.kind == ErrorStatus <==> |res.errors| > 0
    ensures |r.message| >= |CompletePrefix| && r.message[..|CompletePrefix|] == CompletePrefix
  {
    var counts := CompletePrefix + ToJsString(res.created) + ", Skipped: " + ToJsString(res.skipped);
    var message := if |res.errors| > 0 then counts + ". Errors: " + NumberToString(Fin(|res.errors| as real)) else counts;
    assert message[..|CompletePrefix|] == CompletePrefix;
    ImportStatus(true, message, if |res.errors| > 0 then ErrorStatus else SuccessStatus)
  }

  /** The counters message ends in the number of errors, in decimal, exactly when there are
      errors. */
  lemma CompleteMessageCountsErrors(res: ImportResult)
    ensures var counts := CompletePrefix + ToJsString(res.created) + ", Skipped: " + ToJsString(res.skipped);
            CompleteStatus(res).message ==
            (if |res.errors| == 0 then counts else counts + ". Errors: " + NatToString(|res.errors|))
  {
    IntegerSpellingChars(|res.errors|);
  }

  const FailureAdvice: string := ". Make sure you're logged in as Admin and the API is running."

  /** The banner after a thrown import: the error's message, or "Unknown error" for a thrown
      value that is not an `Error`. */
  function FailedStatus(message: Option<string>): (r: ImportStatus)
    ensures r.show && r.kind == ErrorStatus
    ensures var cause := if message.Some? then message.value else "Unknown error";
            |r.message| == |FailedPrefix| + |cause| + |FailureAdvice|
            && r.message[..|FailedPrefix|] == FailedPrefix
            && r.message[|FailedPrefix|..|FailedPrefix| + |cause|] == cause
            && r.message[|FailedPrefix| + |cause|..] == FailureAdvice
  {
    ImportStatus(true, FailedPrefix + (if message.Some? then message.value else "Unknown error") + FailureAdvice,
                 ErrorStatus)
  }

  const FailedPrefix: string := "Import failed: "

  /** The failure banner names its cause: two thrown errors with different messages never show
      the same banner. */
  lemma FailedStatusNamesCause(a: string, b: string)
    requires FailedStatus(Some(a)).message == FailedStatus(Some(b)).message
    ensures a == b
  {
    var m := FailedStatus(Some(a)).message;
    assert |a| == |b|;
    assert a == m[|FailedPrefix|..|FailedPrefix| + |a|];
  }

  /** The banner a settled import leaves. */
  function ReportOf(reply: ImportReply): (r: ImportStatus)
    ensures r.show
    ensures r.kind == SuccessStatus <==> reply.Imported? && reply.results.errors == []
  {
    match reply
    case Imported(res) => CompleteStatus(res)
    case Threw(m) => FailedStatus(m)
  }

  /** The timer five seconds after an import hides the banner and keeps its text. */
  function Hidden(s: ImportStatus): (r: ImportStatus)
    ensures !r.show && r.message == s.message && r.kind == s.kind
  {
    s.(show := false)
  }
}
