/** The result document model: the records a finished test is reported as,
    and the wire names of the status enumeration. */
module Models {
  import opened Base

  /** Terminal outcome of a test or a step. */
  datatype Status = Passed | Failed | Broken | Skipped

  /** The lower-case names the status is serialised under. */
  function StatusName(s: Status): string {
    match s
    case Passed => "passed"
    case Failed => "failed"
    case Broken => "broken"
    case Skipped => "skipped"
  }

  /** Reads a status back from its wire name; the inverse of `StatusName`. */
  function StatusFromName(name: string): (r: Option<Status>)
    ensures r.Some? ==> StatusName(r.value) == name
    ensures forall s :: StatusName(s) == name ==> r == Some(s)
  {
    if name == "passed" then Some(Passed)
    else if name == "failed" then Some(Failed)
    else if name == "broken" then Some(Broken)
    else if name == "skipped" then Some(Skipped)
    else None
  }

  /** Distinct statuses are written under distinct names. */
  lemma StatusNameInjective(a: Status, b: Status)
    ensures StatusName(a) == StatusName(b) ==> a == b
  {
    assert StatusFromName(StatusName(a)) == Some(a);
  }

  /** Failure detail; message and trace are independently optional. */
  datatype StatusDetails = StatusDetails(message: Option<string>, trace: Option<string>)

  /** A file attached to a test: `source` is the file name in the results
      directory and `mimeType` its MIME type. */
  datatype Attachment = Attachment(name: string, source: string, mimeType: string)

  /** A named step argument. */
  datatype Parameter = Parameter(name: string, value: string)

  /** A report label such as the suite. */
  datatype Label = Label(name: string, value: string)

  /** An external link; `linkType` is its kind. */
  datatype Link = Link(name: string, url: string, linkType: string)

  /** The two stage texts the tracker writes. The stage is a free text field
      in the document, so it is kept as text here too. */
  const RUNNING: string := "running"
  const FINISHED: string := "finished"

  /** A step of a test. `stop` is 0 while the step runs. Each step owns its
      nested steps, attachments and parameters. */
  datatype Step = Step(
    name: string,
    status: Status,
    details: Option<StatusDetails>,
    stage: string,
    start: int,
    stop: int,
    children: seq<Step>,
    attachments: seq<Attachment>,
    parameters: seq<Parameter>)

  /** The document written once per test. */
  datatype TestResult = TestResult(
    uuid: Uuid,
    historyId: Uuid,
    name: string,
    description: Option<string>,
    status: Status,
    details: Option<StatusDetails>,
    stage: string,
    start: int,
    stop: int,
    labels: seq<Label>,
    parameters: seq<Parameter>,
    links: seq<Link>,
    steps: seq<Step>,
    attachments: seq<Attachment>)
}
