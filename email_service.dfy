/** The simulated mail back end: serving the fixture, the Gmail connection
    stub and the analysis of one record inside a list. */
module EmailService {
  import opened Outcomes
  import opened MockData
  import AiService

  /** `fetchEmails`: the fixture, served wholesale, so every fetched record
      starts out unanalyzed. */
  function FetchEmails(): (r: seq<Email>)
    ensures |r| == 5
    ensures forall i | 0 <= i < |r| :: r[i].analysis == None
    ensures forall i | 0 <= i < |r| :: r[i].id == ["1", "2", "3", "4", "5"][i]
  {
    FixtureIds();
    MockEmails()
  }

  /** What a connection attempt reports. */
  datatype ConnectionResult = ConnectionResult(success: bool, message: string)

  /** `connectGmail`: every attempt succeeds, whatever the credentials. */
  function ConnectGmail(email: string, password: string): (r: ConnectionResult)
    ensures r.success
    ensures r.message == "Successfully connected to Gmail account"
  {
    ConnectionResult(true, "Successfully connected to Gmail account")
  }

  /** `findIndex`: the first position holding the given id, if any. */
  function FindIndex(emails: seq<Email>, emailId: string): (r: Option<nat>)
    ensures r.None? <==> forall i | 0 <= i < |emails| :: emails[i].id != emailId
    ensures r.Some? ==> r.value < |emails| && emails[r.value].id == emailId
    ensures r.Some? ==> forall i | 0 <= i < r.value :: emails[i].id != emailId
  {
    if |emails| == 0 then None
    else if emails[0].id == emailId then Some(0)
    else match FindIndex(emails[1..], emailId)
      case None => None
      case Some(i) => Some(i + 1)
  }

  /** The list `analyzeEmail` returns: the failure "Email not found" when no
      record has the id, otherwise the list with the first such record
      replaced by its analysed copy and every other position as it was. */
  function Updated(emails: seq<Email>, emailId: string): (r: Result<seq<Email>>)
    ensures r.Err? <==> forall i | 0 <= i < |emails| :: emails[i].id != emailId
    ensures r.Err? ==> r.error == "Email not found"
    ensures r.Ok? ==> |r.value| == |emails|
    ensures r.Ok? ==> forall i | 0 <= i < |emails| ::
      r.value[i] == (if i == FindIndex(emails, emailId).value then AiService.AnalyzeEmail(emails[i]) else emails[i])
  {
    match FindIndex(emails, emailId)
    case None => Err("Email not found")
    case Some(i) => Ok(emails[i := AiService.AnalyzeEmail(emails[i])])
  }

  /** `analyzeEmail`: find the record, analyse it, copy the list and write
      the analysed record into the copy. The caller's list is a value and
      stays as it was. */
  method AnalyzeEmail(emailId: string, emails: seq<Email>) returns (r: Result<seq<Email>>)
    ensures r == Updated(emails, emailId)
  {
    hide AiService.Classify;
    var index := FindIndex(emails, emailId);
    if index.None? {
      return Err("Email not found");
    }
    var i := index.value;
    var analyzed := AiService.AnalyzeEmail(emails[i]);
    var copy := new Email[|emails|](j requires 0 <= j < |emails| => emails[j]);
    copy[i] := analyzed;
    assert copy[..] == emails[i := analyzed];
    return Ok(copy[..]);
  }

  /** Analysis keeps every id where it was, so the same record is found
      again. */
  lemma UpdatedKeepsIds(emails: seq<Email>, emailId: string)
    requires Updated(emails, emailId).Ok?
    ensures forall i | 0 <= i < |emails| :: Updated(emails, emailId).value[i].id == emails[i].id
    ensures FindIndex(Updated(emails, emailId).value, emailId) == FindIndex(emails, emailId)
  {
    hide AiService.Classify, AiService.AnalyzeEmail, Updated;
    var updated := Updated(emails, emailId).value;
    assert forall i | 0 <= i < |emails| :: updated[i].id == emails[i].id;
    SameIdsSameIndex(emails, updated, emailId);
  }

  /** Two lists with the same ids position by position find an id at the
      same position. */
  lemma {:induction false} SameIdsSameIndex(a: seq<Email>, b: seq<Email>, emailId: string)
    requires |a| == |b|
    requires forall i | 0 <= i < |a| :: a[i].id == b[i].id
    ensures FindIndex(a, emailId) == FindIndex(b, emailId)
  {
    if |a| > 0 && a[0].id != emailId {
      SameIdsSameIndex(a[1..], b[1..], emailId);
    }
  }

  /** Analysing the same id a second time changes nothing: the classifier
      ignores the analysis the first pass attached. */
  lemma AnalyzeTwice(emails: seq<Email>, emailId: string)
    requires Updated(emails, emailId).Ok?
    ensures Updated(Updated(emails, emailId).value, emailId) == Updated(emails, emailId)
  {
    hide AiService.Classify, AiService.AnalyzeEmail;
    var once := Updated(emails, emailId).value;
    var i := FindIndex(emails, emailId).value;
    assert once == emails[i := AiService.AnalyzeEmail(emails[i])];
    UpdatedKeepsIds(emails, emailId);
    AiService.AnalyzeEmailIdempotent(emails[i]);
    assert AiService.AnalyzeEmail(once[i]) == once[i];
    assert once[i := AiService.AnalyzeEmail(once[i])] == once;
  }
}
