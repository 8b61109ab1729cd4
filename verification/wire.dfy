/** The JSON shape the result document model is serialised to: field names
    in camelCase, the MIME type and the link kind under "type", status as a
    lower-case string, and optional fields left out when absent.

    Each encoder has a decoder that reads the value back; the round-trip
    lemmas show that the written form loses nothing. The decoders belong to
    the model only: the source writes documents and never reads them. */
module Wire {
  import opened Base
  import opened Models

  /** A JSON value. An object maps each field name to its value; the order
      in which the fields are printed is not modelled. */
  datatype Json =
    | JNull
    | JBool(b: bool)
    | JNum(n: int)
    | JStr(s: string)
    | JArr(items: seq<Json>)
    | JObj(fields: map<string, Json>)

  /** The field names of an object; none for any other value. */
  function Keys(j: Json): set<string> {
    if j.JObj? then j.fields.Keys else {}
  }

  // ---- field readers used by the decoders ----

  function TextField(fields: map<string, Json>, key: string): Option<string> {
    if key in fields && fields[key].JStr? then Some(fields[key].s) else None
  }

  function NumField(fields: map<string, Json>, key: string): Option<int> {
    if key in fields && fields[key].JNum? then Some(fields[key].n) else None
  }

  function UuidField(fields: map<string, Json>, key: string): Option<Uuid> {
    if key in fields && fields[key].JStr? && IsUuidText(fields[key].s) then Some(fields[key].s) else None
  }

  /** An optional text field: absence reads as `Some(None)`, a value of the
      wrong kind as `None`. */
  function OptTextField(fields: map<string, Json>, key: string): Option<Option<string>> {
    if key !in fields then Some(None)
    else if fields[key].JStr? then Some(Some(fields[key].s))
    else None
  }

  // ---- arrays ----

  /** A list written as a JSON array, element by element. */
  function Array<T>(xs: seq<T>, enc: T -> Json): (r: Json)
    ensures r.JArr? && |r.items| == |xs|
    ensures forall i | 0 <= i < |xs| :: r.items[i] == enc(xs[i])
  {
    JArr(seq(|xs|, i requires 0 <= i < |xs| => enc(xs[i])))
  }

  /** Reads every element of an array, failing if any element fails. */
  function ArrayOf<T>(items: seq<Json>, dec: Json -> Option<T>): Option<seq<T>> {
    if forall i | 0 <= i < |items| :: dec(items[i]).Some? then
      Some(seq(|items|, i requires 0 <= i < |items| => dec(items[i]).value))
    else None
  }

  function ArrayField<T>(fields: map<string, Json>, key: string, dec: Json -> Option<T>): Option<seq<T>> {
    if key in fields && fields[key].JArr? then ArrayOf(fields[key].items, dec) else None
  }

  lemma ArrayRoundTrip<T>(xs: seq<T>, enc: T -> Json, dec: Json -> Option<T>)
    requires forall x | x in xs :: dec(enc(x)) == Some(x)
    ensures ArrayOf(Array(xs, enc).items, dec) == Some(xs)
  {
    var items := Array(xs, enc).items;
    forall i | 0 <= i < |items|
      ensures dec(items[i]) == Some(xs[i])
    {
      assert xs[i] in xs;
    }
    assert seq(|items|, i requires 0 <= i < |items| => dec(items[i]).value) == xs;
  }

  // ---- status and details ----

  function StatusJson(s: Status): Json {
    JStr(StatusName(s))
  }

  function StatusField(fields: map<string, Json>, key: string): Option<Status> {
    match TextField(fields, key)
    case Some(name) => StatusFromName(name)
    case None => None
  }

  /** An optional text: one entry when present, none when absent. */
  function OptText(key: string, v: Option<string>): map<string, Json> {
    if v.Some? then map[key := JStr(v.value)] else map[]
  }

  /** `message` and `trace`, each written only when present. */
  function DetailsJson(d: StatusDetails): (r: Json)
    ensures r.JObj?
    ensures "message" in Keys(r) <==> d.message.Some?
    ensures "trace" in Keys(r) <==> d.trace.Some?
    ensures Keys(r) <= {"message", "trace"}
  {
    JObj(OptText("message", d.message) + OptText("trace", d.trace))
  }

  function DetailsFromJson(j: Json): Option<StatusDetails> {
    if !j.JObj? then None
    else
      var message := OptTextField(j.fields, "message");
      var trace := OptTextField(j.fields, "trace");
      if message.Some? && trace.Some? then Some(StatusDetails(message.value, trace.value)) else None
  }

  lemma DetailsRoundTrip(d: StatusDetails)
    ensures DetailsFromJson(DetailsJson(d)) == Some(d)
  {
  }

  /** Adds the `statusDetails` entry exactly when there are details. */
  function WithDetails(fields: map<string, Json>, key: string, d: Option<StatusDetails>): map<string, Json> {
    if d.Some? then fields[key := DetailsJson(d.value)] else fields
  }

  /** Adds an optional text entry exactly when the text is present. */
  function WithText(fields: map<string, Json>, key: string, v: Option<string>): map<string, Json> {
    if v.Some? then fields[key := JStr(v.value)] else fields
  }

  function DetailsField(fields: map<string, Json>, key: string): Option<Option<StatusDetails>> {
    if key !in fields then Some(None)
    else
      match DetailsFromJson(fields[key])
      case Some(d) => Some(Some(d))
      case None => None
  }

  // ---- attachment, parameter, label, link ----

  /** The MIME type is written under "type". */
  function AttachmentJson(a: Attachment): (r: Json)
    ensures r.JObj? && Keys(r) == {"name", "source", "type"}
    ensures r.fields["type"] == JStr(a.mimeType)
  {
    JObj(map["name" := JStr(a.name), "source" := JStr(a.source), "type" := JStr(a.mimeType)])
  }

  function AttachmentFromJson(j: Json): Option<Attachment> {
    if !j.JObj? then None
    else
      var name := TextField(j.fields, "name");
      var source := TextField(j.fields, "source");
      var mime := TextField(j.fields, "type");
      if name.Some? && source.Some? && mime.Some? then Some(Attachment(name.value, source.value, mime.value))
      else None
  }

  lemma AttachmentRoundTrip(a: Attachment)
    ensures AttachmentFromJson(AttachmentJson(a)) == Some(a)
  {
  }

  function ParameterJson(p: Parameter): (r: Json)
    ensures r.JObj? && Keys(r) == {"name", "value"}
  {
    JObj(map["name" := JStr(p.name), "value" := JStr(p.value)])
  }

  function ParameterFromJson(j: Json): Option<Parameter> {
    if !j.JObj? then None
    else
      var name := TextField(j.fields, "name");
      var value := TextField(j.fields, "value");
      if name.Some? && value.Some? then Some(Parameter(name.value, value.value)) else None
  }

  lemma ParameterRoundTrip(p: Parameter)
    ensures ParameterFromJson(ParameterJson(p)) == Some(p)
  {
  }

  function LabelJson(l: Label): (r: Json)
    ensures r.JObj? && Keys(r) == {"name", "value"}
  {
    JObj(map["name" := JStr(l.name), "value" := JStr(l.value)])
  }

  function LabelFromJson(j: Json): Option<Label> {
    if !j.JObj? then None
    else
      var name := TextField(j.fields, "name");
      var value := TextField(j.fields, "value");
      if name.Some? && value.Some? then Some(Label(name.value, value.value)) else None
  }

  lemma LabelRoundTrip(l: Label)
    ensures LabelFromJson(LabelJson(l)) == Some(l)
  {
  }

  /** The link kind is written under "type". */
  function LinkJson(l: Link): (r: Json)
    ensures r.JObj? && Keys(r) == {"name", "url", "type"}
    ensures r.fields["type"] == JStr(l.linkType)
  {
    JObj(map["name" := JStr(l.name), "url" := JStr(l.url), "type" := JStr(l.linkType)])
  }

  function LinkFromJson(j: Json): Option<Link> {
    if !j.JObj? then None
    else
      var name := TextField(j.fields, "name");
      var url := TextField(j.fields, "url");
      var kind := TextField(j.fields, "type");
      if name.Some? && url.Some? && kind.Some? then Some(Link(name.value, url.value, kind.value)) else None
  }

  lemma LinkRoundTrip(l: Link)
    ensures LinkFromJson(LinkJson(l)) == Some(l)
  {
  }

  // ---- steps ----

  /** A step and, recursively, its nested steps. `statusDetails` is left out
      when the step has no details. */
  function StepJson(s: Step): (r: Json)
    ensures r.JObj?
    ensures Keys(r) == {"name", "status", "stage", "start", "stop", "steps", "attachments", "parameters"}
                     + (if s.details.Some? then {"statusDetails"} else {})
  {
    JObj(WithDetails(map["name" := JStr(s.name),
             "status" := StatusJson(s.status),
             "stage" := JStr(s.stage),
             "start" := JNum(s.start),
             "stop" := JNum(s.stop),
             "steps" := JArr(seq(|s.children|, i requires 0 <= i < |s.children| => StepJson(s.children[i]))),
             "attachments" := Array(s.attachments, AttachmentJson),
             "parameters" := Array(s.parameters, ParameterJson)],
         "statusDetails", s.details))
  }

  function StepFromJson(j: Json): Option<Step> {
    if !j.JObj? then None
    else
      var f := j.fields;
      var name := TextField(f, "name");
      var status := StatusField(f, "status");
      var details := DetailsField(f, "statusDetails");
      var stage := TextField(f, "stage");
      var start := NumField(f, "start");
      var stop := NumField(f, "stop");
      var attachments := ArrayField(f, "attachments", AttachmentFromJson);
      var parameters := ArrayField(f, "parameters", ParameterFromJson);
      if "steps" in f && f["steps"].JArr? then
        var items := f["steps"].items;
        if && name.Some? && status.Some? && details.Some? && stage.Some?
           && start.Some? && stop.Some? && attachments.Some? && parameters.Some?
           && forall i | 0 <= i < |items| :: StepFromJson(items[i]).Some?
        then
          var children := seq(|items|, i requires 0 <= i < |items| => StepFromJson(items[i]).value);
          Some(Step(name.value, status.value, details.value, stage.value, start.value, stop.value,
                    children, attachments.value, parameters.value))
        else None
      else None
  }

  lemma AttachmentsRoundTrip(xs: seq<Attachment>)
    ensures ArrayOf(Array(xs, AttachmentJson).items, AttachmentFromJson) == Some(xs)
  {
    forall x | x in xs
      ensures AttachmentFromJson(AttachmentJson(x)) == Some(x)
    {
      AttachmentRoundTrip(x);
    }
    ArrayRoundTrip(xs, AttachmentJson, AttachmentFromJson);
  }

  lemma ParametersRoundTrip(xs: seq<Parameter>)
    ensures ArrayOf(Array(xs, ParameterJson).items, ParameterFromJson) == Some(xs)
  {
    forall x | x in xs
      ensures ParameterFromJson(ParameterJson(x)) == Some(x)
    {
      ParameterRoundTrip(x);
    }
    ArrayRoundTrip(xs, ParameterJson, ParameterFromJson);
  }

  /** The scalar fields of a written step read back as the step's own values. */
  lemma StepFieldsReadBack(s: Step)
    ensures var f := StepJson(s).fields;
      && TextField(f, "name") == Some(s.name)
      && TextField(f, "stage") == Some(s.stage)
      && NumField(f, "start") == Some(s.start)
      && NumField(f, "stop") == Some(s.stop)
  {
    var f := StepJson(s).fields;
    assert f["name"] == JStr(s.name);
    assert f["stage"] == JStr(s.stage);
    assert f["start"] == JNum(s.start);
    assert f["stop"] == JNum(s.stop);
  }

  /** The nested steps are written in order under "steps". */
  lemma StepChildrenWritten(s: Step)
    ensures var f := StepJson(s).fields;
      && "steps" in f && f["steps"].JArr?
      && |f["steps"].items| == |s.children|
      && (forall i | 0 <= i < |s.children| :: f["steps"].items[i] == StepJson(s.children[i]))
  {
  }

  /** The attachment and parameter lists of a written step read back. */
  lemma StepListsReadBack(s: Step)
    ensures var f := StepJson(s).fields;
      && ArrayField(f, "attachments", AttachmentFromJson) == Some(s.attachments)
      && ArrayField(f, "parameters", ParameterFromJson) == Some(s.parameters)
  {
    var f := StepJson(s).fields;
    assert f["attachments"] == Array(s.attachments, AttachmentJson);
    AttachmentsRoundTrip(s.attachments);
    assert f["parameters"] == Array(s.parameters, ParameterJson);
    ParametersRoundTrip(s.parameters);
  }

  /** The status and the optional details of a written step read back. */
  lemma StepStatusReadBack(s: Step)
    ensures var f := StepJson(s).fields;
      && StatusField(f, "status") == Some(s.status)
      && DetailsField(f, "statusDetails") == Some(s.details)
  {
    var f := StepJson(s).fields;
    assert f["status"] == StatusJson(s.status);
    if s.details.Some? {
      assert f["statusDetails"] == DetailsJson(s.details.value);
      DetailsRoundTrip(s.details.value);
    } else {
      assert "statusDetails" !in f;
    }
  }

  /** Decoding the written form of a step gives back the step, nested steps
      included. */
  lemma {:induction false} StepRoundTrip(s: Step)
    ensures StepFromJson(StepJson(s)) == Some(s)
    decreases s
  {
    forall i | 0 <= i < |s.children|
      ensures StepFromJson(StepJson(s.children[i])) == Some(s.children[i])
    {
      StepRoundTrip(s.children[i]);
    }
    StepFieldsReadBack(s);
    StepChildrenWritten(s);
    StepListsReadBack(s);
    StepStatusReadBack(s);
    var items := StepJson(s).fields["steps"].items;
    assert seq(|items|, i requires 0 <= i < |items| => StepFromJson(items[i]).value) == s.children;
  }

  // ---- the whole document ----

  /** The test result document. `description` and `statusDetails` are left
      out when absent; the uuids are written as their text. */
  function ResultJson(t: TestResult): (r: Json)
    ensures r.JObj?
  {
    JObj(WithDetails(WithText(map["uuid" := JStr(t.uuid),
             "historyId" := JStr(t.historyId),
             "name" := JStr(t.name),
             "status" := StatusJson(t.status),
             "stage" := JStr(t.stage),
             "start" := JNum(t.start),
             "stop" := JNum(t.stop),
             "labels" := Array(t.labels, LabelJson),
             "parameters" := Array(t.parameters, ParameterJson),
             "links" := Array(t.links, LinkJson),
             "steps" := Array(t.steps, StepJson),
             "attachments" := Array(t.attachments, AttachmentJson)],
         "description", t.description),
         "statusDetails", t.details))
  }

  /** The fields a written document carries: the twelve fixed ones, plus
      `description` and `statusDetails` exactly when they are present. */
  lemma ResultJsonKeys(t: TestResult)
    ensures Keys(ResultJson(t)) == {"uuid", "historyId", "name", "status", "stage", "start", "stop",
                                    "labels", "parameters", "links", "steps", "attachments"}
                                 + (if t.description.Some? then {"description"} else {})
                                 + (if t.details.Some? then {"statusDetails"} else {})
  {
  }

  function ResultFromJson(j: Json): Option<TestResult> {
    if !j.JObj? then None
    else
      var f := j.fields;
      var uuid := UuidField(f, "uuid");
      var historyId := UuidField(f, "historyId");
      var name := TextField(f, "name");
      var description := OptTextField(f, "description");
      var status := StatusField(f, "status");
      var details := DetailsField(f, "statusDetails");
      var stage := TextField(f, "stage");
      var start := NumField(f, "start");
      var stop := NumField(f, "stop");
      var labels := ArrayField(f, "labels", LabelFromJson);
      var parameters := ArrayField(f, "parameters", ParameterFromJson);
      var links := ArrayField(f, "links", LinkFromJson);
      var steps := ArrayField(f, "steps", StepFromJson);
      var attachments := ArrayField(f, "attachments", AttachmentFromJson);
      if && uuid.Some? && historyId.Some? && name.Some? && description.Some? && status.Some?
         && details.Some? && stage.Some? && start.Some? && stop.Some? && labels.Some?
         && parameters.Some? && links.Some? && steps.Some? && attachments.Some?
      then
        Some(TestResult(uuid.value, historyId.value, name.value, description.value, status.value,
                        details.value, stage.value, start.value, stop.value, labels.value,
                        parameters.value, links.value, steps.value, attachments.value))
      else None
  }

  /** The identity fields of a written document read back. */
  lemma ResultIdsReadBack(t: TestResult)
    ensures var f := ResultJson(t).fields;
      && UuidField(f, "uuid") == Some(t.uuid)
      && UuidField(f, "historyId") == Some(t.historyId)
      && TextField(f, "name") == Some(t.name)
  {
    var f := ResultJson(t).fields;
    assert f["uuid"] == JStr(t.uuid);
    assert f["historyId"] == JStr(t.historyId);
    assert f["name"] == JStr(t.name);
  }

  /** The outcome and timing fields of a written document read back. */
  lemma ResultOutcomeReadBack(t: TestResult)
    ensures var f := ResultJson(t).fields;
      && StatusField(f, "status") == Some(t.status)
      && TextField(f, "stage") == Some(t.stage)
      && NumField(f, "start") == Some(t.start)
      && NumField(f, "stop") == Some(t.stop)
  {
    var f := ResultJson(t).fields;
    assert f["status"] == StatusJson(t.status);
    assert f["stage"] == JStr(t.stage);
    assert f["start"] == JNum(t.start);
    assert f["stop"] == JNum(t.stop);
  }

  /** The optional fields of a written document read back, absent ones as
      absent. */
  lemma ResultOptionalsReadBack(t: TestResult)
    ensures var f := ResultJson(t).fields;
      && OptTextField(f, "description") == Some(t.description)
      && DetailsField(f, "statusDetails") == Some(t.details)
  {
    var f := ResultJson(t).fields;
    if t.description.Some? {
      assert f["description"] == JStr(t.description.value);
    } else {
      assert "description" !in f;
    }
    if t.details.Some? {
      assert f["statusDetails"] == DetailsJson(t.details.value);
      DetailsRoundTrip(t.details.value);
    } else {
      assert "statusDetails" !in f;
    }
  }

  /** The list fields of a written document read back. */
  lemma ResultListsReadBack(t: TestResult)
    ensures var f := ResultJson(t).fields;
      && ArrayField(f, "labels", LabelFromJson) == Some(t.labels)
      && ArrayField(f, "parameters", ParameterFromJson) == Some(t.parameters)
      && ArrayField(f, "links", LinkFromJson) == Some(t.links)
      && ArrayField(f, "steps", StepFromJson) == Some(t.steps)
      && ArrayField(f, "attachments", AttachmentFromJson) == Some(t.attachments)
  {
    var f := ResultJson(t).fields;
    assert f["labels"] == Array(t.labels, LabelJson);
    forall x | x in t.labels
      ensures LabelFromJson(LabelJson(x)) == Some(x)
    {
      LabelRoundTrip(x);
    }
    ArrayRoundTrip(t.labels, LabelJson, LabelFromJson);
    assert f["parameters"] == Array(t.parameters, ParameterJson);
    ParametersRoundTrip(t.parameters);
    assert f["links"] == Array(t.links, LinkJson);
    forall x | x in t.links
      ensures LinkFromJson(LinkJson(x)) == Some(x)
    {
      LinkRoundTrip(x);
    }
    ArrayRoundTrip(t.links, LinkJson, LinkFromJson);
    assert f["steps"] == Array(t.steps, StepJson);
    forall x | x in t.steps
      ensures StepFromJson(StepJson(x)) == Some(x)
    {
      StepRoundTrip(x);
    }
    ArrayRoundTrip(t.steps, StepJson, StepFromJson);
    assert f["attachments"] == Array(t.attachments, AttachmentJson);
    AttachmentsRoundTrip(t.attachments);
  }

  /** Decoding the written document gives back the test result. */
  lemma ResultRoundTrip(t: TestResult)
    ensures ResultFromJson(ResultJson(t)) == Some(t)
  {
    ResultIdsReadBack(t);
    ResultOutcomeReadBack(t);
    ResultOptionalsReadBack(t);
    ResultListsReadBack(t);
  }
}
