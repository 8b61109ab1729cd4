/** The execution-context tracker: the live record of one running test and
    the lifecycle operations that change it.

    The per-thread context of the source becomes an explicit `Context` value
    that every operation takes and returns. Clock readings (`now`) and fresh
    uuids are parameters; the file system is the writer's `FileStore`.

    The step list is a double-ended queue, modelled as a sequence whose
    first element is the front and whose last element is the back. Open
    steps sit at the back, one per nesting level; a step that is closed with
    no running step behind it is parked at the front. */
module Tracker {
  import opened Base
  import opened Models
  import opened Attachments
  import Writer
  import Wire

  // ---- outcomes ----

  /** What a caught panic carried: a string literal, an owned string, or
      anything else. */
  datatype Payload = StrPayload(text: string) | StringPayload(text: string) | OtherPayload

  /** The result of running a test or step body. */
  datatype Outcome = Ok | Err(payload: Payload)

  /** The messages used when a panic carries no text. */
  const STEP_FALLBACK: string := "Step panicked"
  const TEST_FALLBACK: string := "Test panicked"

  /** The message recorded for a panic: its text when it has one, otherwise
      the fallback. */
  function PanicMessage(p: Payload, fallback: string): (r: string)
    ensures p.OtherPayload? ==> r == fallback
    ensures !p.OtherPayload? ==> r == p.text
  {
    match p
    case StrPayload(s) => s
    case StringPayload(s) => s
    case OtherPayload => fallback
  }

  /** The failure details for a panic: a message and no trace. */
  function FailureDetails(p: Payload, fallback: string): StatusDetails {
    StatusDetails(Some(PanicMessage(p, fallback)), None)
  }

  /** The text the `allure_step!` macro uses for a panic without text. */
  const STEP_MACRO_FALLBACK: string := "Step failed"

  /** The outcome `allure_step!` hands to `EndStep`: text payloads are passed
      on as they are, any other payload is replaced by "Step failed". */
  function StepMacroOutcome(o: Outcome): (r: Outcome)
    ensures o.Ok? <==> r.Ok?
    ensures r.Err? ==> !r.payload.OtherPayload?
    ensures r.Err? ==> PanicMessage(r.payload, STEP_FALLBACK)
                       == (if o.payload.OtherPayload? then STEP_MACRO_FALLBACK else o.payload.text)
  {
    match o
    case Ok => Ok
    case Err(OtherPayload) => Err(StrPayload(STEP_MACRO_FALLBACK))
    case Err(p) => Err(p)
  }

  // ---- the context ----

  /** The state of the test running on one thread. */
  datatype Context = Context(
    uuid: Uuid,
    steps: seq<Step>,
    attachments: seq<Attachment>,
    suite: Option<string>)

  /** A fresh context: new uuid, no steps, no attachments, no suite. */
  function NewContext(id: Uuid): Context {
    Context(id, [], [], None)
  }

  /** True when `s` has "::" at position `i`. */
  predicate DoubleColonAt(s: string, i: int) {
    0 <= i && i + 1 < |s| && s[i] == ':' && s[i + 1] == ':'
  }

  /** True when `s` contains no "::". */
  predicate NoDoubleColon(s: string) {
    forall i | 0 <= i < |s| :: !DoubleColonAt(s, i)
  }

  /** Replaces every "::" by ".", scanning from the left as Rust's
      `str::replace` does. */
  function ReplaceDoubleColons(path: string): (r: string)
    ensures |r| <= |path|
  {
    if |path| == 0 then []
    else if DoubleColonAt(path, 0) then "." + ReplaceDoubleColons(path[2..])
    else [path[0]] + ReplaceDoubleColons(path[1..])
  }

  /** A ':' at the head of the result comes from a lone ':' at the head of
      the input. */
  lemma ReplaceHead(path: string)
    requires |ReplaceDoubleColons(path)| > 0 && ReplaceDoubleColons(path)[0] == ':'
    ensures |path| > 0 && path[0] == ':' && !DoubleColonAt(path, 0)
  {
  }

  /** No "::" survives the replacement, not even from a run of three or more
      colons. */
  lemma {:induction false} ReplaceLeavesNoDoubleColon(path: string)
    ensures NoDoubleColon(ReplaceDoubleColons(path))
    decreases |path|
  {
    var r := ReplaceDoubleColons(path);
    if |path| == 0 {
    } else if DoubleColonAt(path, 0) {
      var tail := ReplaceDoubleColons(path[2..]);
      ReplaceLeavesNoDoubleColon(path[2..]);
      assert r == "." + tail;
      forall i | 0 <= i < |r|
        ensures !DoubleColonAt(r, i)
      {
        if i > 0 {
          assert !DoubleColonAt(tail, i - 1);
        }
      }
    } else {
      var tail := ReplaceDoubleColons(path[1..]);
      ReplaceLeavesNoDoubleColon(path[1..]);
      assert r == [path[0]] + tail;
      forall i | 0 <= i < |r|
        ensures !DoubleColonAt(r, i)
      {
        if i > 0 {
          assert !DoubleColonAt(tail, i - 1);
        } else if |tail| > 0 && tail[0] == ':' {
          ReplaceHead(path[1..]);
        }
      }
    }
  }

  /** Colon-free text is passed through unchanged, whatever follows it. */
  lemma {:induction false} ReplaceKeepsColonFreePrefix(prefix: string, rest: string)
    requires forall i | 0 <= i < |prefix| :: prefix[i] != ':'
    ensures ReplaceDoubleColons(prefix + rest) == prefix + ReplaceDoubleColons(rest)
    decreases |prefix|
  {
    if |prefix| > 0 {
      assert !DoubleColonAt(prefix + rest, 0);
      assert (prefix + rest)[1..] == prefix[1..] + rest;
      ReplaceKeepsColonFreePrefix(prefix[1..], rest);
      assert prefix == [prefix[0]] + prefix[1..];
    } else {
      assert prefix + rest == rest;
    }
  }

  /** Segments joined by a separator. */
  function Join(segments: seq<string>, separator: string): string {
    if |segments| == 0 then ""
    else if |segments| == 1 then segments[0]
    else segments[0] + separator + Join(segments[1..], separator)
  }

  /** A module path `a::b::c` whose segments contain no colon becomes the
      dotted name `a.b.c`. */
  lemma {:induction false} ModulePathBecomesDotted(segments: seq<string>)
    requires forall k, i | 0 <= k < |segments| && 0 <= i < |segments[k]| :: segments[k][i] != ':'
    ensures ReplaceDoubleColons(Join(segments, "::")) == Join(segments, ".")
  {
    if |segments| == 0 {
    } else if |segments| == 1 {
      ReplaceKeepsColonFreePrefix(segments[0], "");
      assert segments[0] + "" == segments[0];
    } else {
      var tail := Join(segments[1..], "::");
      ReplaceKeepsColonFreePrefix(segments[0], "::" + tail);
      assert segments[0] + "::" + tail == segments[0] + ("::" + tail);
      assert ("::" + tail)[2..] == tail;
      assert DoubleColonAt("::" + tail, 0);
      ModulePathBecomesDotted(segments[1..]);
      assert segments[0] + "." + Join(segments[1..], ".") == segments[0] + ("." + Join(segments[1..], "."));
    }
  }

  /** Starts a test: every earlier step and attachment is discarded. The
      suite is the explicit one if given, else the module path with "::"
      turned into ".", else none. */
  function StartTestWithContext(id: Uuid, name: string, suite: Option<string>, modulePath: Option<string>): (r: Context)
    ensures r.uuid == id && r.steps == [] && r.attachments == []
    ensures suite.Some? ==> r.suite == suite
    ensures suite.None? && modulePath.Some? ==> r.suite == Some(ReplaceDoubleColons(modulePath.value))
    ensures r.suite.None? <==> suite.None? && modulePath.None?
  {
    var reset := NewContext(id);
    if suite.Some? then reset.(suite := suite)
    else if modulePath.Some? then reset.(suite := Some(ReplaceDoubleColons(modulePath.value)))
    else reset
  }

  function StartTest(id: Uuid, name: string): (r: Context)
    ensures r == NewContext(id)
  {
    StartTestWithContext(id, name, None, None)
  }

  function StartTestWithSuite(id: Uuid, name: string, suite: Option<string>): (r: Context)
    ensures r.uuid == id && r.steps == [] && r.attachments == [] && r.suite == suite
  {
    StartTestWithContext(id, name, suite, None)
  }

  // ---- steps ----

  /** Opens a step: one new running step at the back of the queue, with the
      given parameters, start time `now`, stop 0, status passed and nothing
      inside it. Nothing else changes. */
  function StartStepWithParams(ctx: Context, name: string, parameters: seq<Parameter>, now: int): (r: Context)
    ensures |r.steps| == |ctx.steps| + 1 && r.steps[..|ctx.steps|] == ctx.steps
    ensures var s := r.steps[|ctx.steps|];
      && s.name == name && s.parameters == parameters
      && s.stage == RUNNING && s.status == Passed && s.details.None?
      && s.start == now && s.stop == 0
      && s.children == [] && s.attachments == []
    ensures r.uuid == ctx.uuid && r.attachments == ctx.attachments && r.suite == ctx.suite
  {
    var step := Step(name, Passed, None, RUNNING, now, 0, [], [], parameters);
    ctx.(steps := ctx.steps + [step])
  }

  /** Opens a step without parameters. */
  function StartStep(ctx: Context, name: string, now: int): (r: Context)
    ensures |r.steps| == |ctx.steps| + 1 && r.steps[..|ctx.steps|] == ctx.steps
    ensures var s := Last(r.steps);
      && s.name == name && s.parameters == []
      && s.stage == RUNNING && s.status == Passed && s.details.None?
      && s.start == now && s.stop == 0
      && s.children == [] && s.attachments == []
    ensures r.uuid == ctx.uuid && r.attachments == ctx.attachments && r.suite == ctx.suite
  {
    StartStepWithParams(ctx, name, [], now)
  }

  /** Marks a step finished at `now`. A failure sets the status to failed
      with the panic's message; success leaves status and details alone. */
  function CloseStep(s: Step, outcome: Outcome, now: int): (r: Step)
    ensures r.stage == FINISHED && r.stop == now
    ensures outcome.Ok? ==> r.status == s.status && r.details == s.details
    ensures outcome.Err? ==> r.status == Failed && r.details == Some(FailureDetails(outcome.payload, STEP_FALLBACK))
    ensures && r.name == s.name && r.start == s.start && r.children == s.children
            && r.attachments == s.attachments && r.parameters == s.parameters
  {
    var finished := s.(stop := now, stage := FINISHED);
    if outcome.Err? then
      finished.(status := Failed, details := Some(FailureDetails(outcome.payload, STEP_FALLBACK)))
    else finished
  }

  /** The last element of a non-empty sequence: the back of the queue. */
  function Last<T>(s: seq<T>): T
    requires |s| > 0
  {
    s[|s| - 1]
  }

  /** Closes the step at the back of the queue and routes it: into the
      running step now at the back as its last child, or else to the front
      of the queue. With no step at all nothing happens. */
  function EndStep(ctx: Context, outcome: Outcome, now: int): (r: Context)
    ensures r.uuid == ctx.uuid && r.attachments == ctx.attachments && r.suite == ctx.suite
    ensures |ctx.steps| == 0 ==> r == ctx
    ensures |ctx.steps| > 0 ==> |r.steps| == |ctx.steps| || |r.steps| == |ctx.steps| - 1
    ensures var n := |ctx.steps|;
      n > 1 && ctx.steps[n - 2].stage == RUNNING ==>
        && |r.steps| == n - 1
        && r.steps[..n - 2] == ctx.steps[..n - 2]
        && r.steps[n - 2].children == ctx.steps[n - 2].children + [CloseStep(ctx.steps[n - 1], outcome, now)]
        && r.steps[n - 2] == ctx.steps[n - 2].(children := r.steps[n - 2].children)
    ensures var n := |ctx.steps|;
      n > 0 && !(n > 1 && ctx.steps[n - 2].stage == RUNNING) ==>
        && |r.steps| == n
        && r.steps[0] == CloseStep(ctx.steps[n - 1], outcome, now)
        && r.steps[1..] == ctx.steps[..n - 1]
  {
    if |ctx.steps| == 0 then ctx
    else
      var rest := ctx.steps[..|ctx.steps| - 1];
      var closed := CloseStep(Last(ctx.steps), outcome, now);
      if closed.stage == FINISHED && |rest| == 0 then
        ctx.(steps := [closed] + rest)
      else if |rest| > 0 then
        var parent := Last(rest);
        if parent.stage == RUNNING then
          ctx.(steps := rest[..|rest| - 1] + [parent.(children := parent.children + [closed])])
        else
          ctx.(steps := [closed] + rest)
      else
        // the queue cannot be empty here: the closed step is always finished
        assert false;
        ctx.(steps := [closed] + rest)
  }

  // ---- attachments ----

  /** The context and the file store after an attachment was recorded. */
  datatype Recorded = Recorded(ctx: Context, store: Writer.FileStore)

  /** `r` is what recording one attachment of kind `kind` with bytes `data`
      leaves behind. The results directory exists and holds one more file,
      named from `id` and the kind's extension and holding exactly `data`;
      every other file is as it was. The test's list keeps its entries and
      gains one, named `name`, with the kind's MIME type and the file's name
      as its source. Steps, uuid and suite are untouched. */
  predicate AppendsAttachment(ctx: Context, store: Writer.FileStore, env: Writer.Environment, id: Uuid,
                              name: string, data: seq<byte>, kind: AttachmentType, r: Recorded) {
    && r.ctx.steps == ctx.steps && r.ctx.uuid == ctx.uuid && r.ctx.suite == ctx.suite
    && |r.ctx.attachments| == |ctx.attachments| + 1
    && r.ctx.attachments[..|ctx.attachments|] == ctx.attachments
    && var a := Last(r.ctx.attachments);
       var path := Writer.FilePath(Writer.ResultsDir(env), a.source);
       && a.name == name
       && a.mimeType == MimeType(kind)
       && Writer.SplitAttachmentFileName(a.source) == Some((id, Extension(kind)))
       && r.store.dirs == store.dirs + {Writer.ResultsDir(env)}
       && r.store.files.Keys == store.files.Keys + {path}
       && r.store.files[path] == Writer.Bytes(data)
       && forall p | p in store.files && p != path :: r.store.files[p] == store.files[p]
  }

  /** Writes the payload's bytes through the sink under a fresh name with
      the kind's extension, then appends one attachment, with the kind's
      MIME type, to the test's own list. Open steps are not touched. */
  function AttachAs(ctx: Context, store: Writer.FileStore, env: Writer.Environment, id: Uuid,
                    name: string, content: Content, kind: AttachmentType,
                    pretty: Wire.Json -> seq<byte>): (r: Recorded)
    ensures AppendsAttachment(ctx, store, env, id, name, IntoBytes(content, pretty), kind, r)
  {
    var data := IntoBytes(content, pretty);
    var written := Writer.WriteAttachment(store, env, id, data, Extension(kind));
    var attachment := Attachment(name, written.name, MimeType(kind));
    Recorded(ctx.(attachments := ctx.attachments + [attachment]), written.store)
  }

  /** Records an attachment whose kind is the payload's own: plain text for
      text and bytes, JSON for a JSON value, the explicit kind for a typed
      wrapper. */
  function AddAttachment(ctx: Context, store: Writer.FileStore, env: Writer.Environment, id: Uuid,
                         name: string, content: Content, pretty: Wire.Json -> seq<byte>): (r: Recorded)
    ensures AppendsAttachment(ctx, store, env, id, name, IntoBytes(content, pretty), KindOf(content), r)
    ensures IsRaw(content) ==> Last(r.ctx.attachments).mimeType == "text/plain"
    ensures content.JsonValue? ==> Last(r.ctx.attachments).mimeType == "application/json"
    ensures content.Typed? ==> Last(r.ctx.attachments).mimeType == MimeType(content.kind)
  {
    AttachAs(ctx, store, env, id, name, content, KindOf(content), pretty)
  }

  /** Records an attachment with an explicit kind, whatever the payload. */
  function AddAttachmentWithType(ctx: Context, store: Writer.FileStore, env: Writer.Environment, id: Uuid,
                                 name: string, content: Content, kind: AttachmentType,
                                 pretty: Wire.Json -> seq<byte>): (r: Recorded)
    ensures AppendsAttachment(ctx, store, env, id, name, IntoBytes(content, pretty), kind, r)
  {
    AttachAs(ctx, store, env, id, name, content, kind, pretty)
  }

  /** Passing a kind explicitly records exactly what wrapping the payload in
      a typed wrapper of that kind records: same file, same bytes, same
      attachment entry. */
  lemma ExplicitKindIsTypedWrapper(ctx: Context, store: Writer.FileStore, env: Writer.Environment, id: Uuid,
                                   name: string, content: Content, kind: AttachmentType,
                                   pretty: Wire.Json -> seq<byte>)
    ensures AddAttachmentWithType(ctx, store, env, id, name, content, kind, pretty)
         == AddAttachment(ctx, store, env, id, name, Typed(content, kind), pretty)
  {
  }

  /** Whatever the payload, the MIME type recorded for an attachment and the
      extension of the file it was written to name the same kind, the
      payload's own. */
  lemma RecordedTypeMatchesFile(ctx: Context, store: Writer.FileStore, env: Writer.Environment, id: Uuid,
                                name: string, content: Content, pretty: Wire.Json -> seq<byte>)
    ensures var a := Last(AddAttachment(ctx, store, env, id, name, content, pretty).ctx.attachments);
      var split := Writer.SplitAttachmentFileName(a.source);
      && split.Some?
      && KindOfMimeType(a.mimeType) == Some(KindOf(content))
      && KindOfExtension(split.value.1) == Some(KindOf(content))
  {
  }

  // ---- ending the test ----

  /** The result document for the current context: status from the
      outcome, one "suite" label when a suite is set, the queue's steps in
      order (running ones included) and the test's attachments. The start
      time is one millisecond before `now`. */
  function BuildResult(ctx: Context, historyId: Uuid, name: string, outcome: Outcome, now: int): (r: TestResult)
    ensures r.uuid == ctx.uuid && r.historyId == historyId && r.name == name
    ensures r.status == Passed || r.status == Failed
    ensures r.status == Passed <==> outcome.Ok?
    ensures outcome.Ok? ==> r.details.None?
    ensures outcome.Err? ==> r.details == Some(FailureDetails(outcome.payload, TEST_FALLBACK))
    ensures r.stage == FINISHED && r.stop == now && r.stop - r.start == 1
    ensures |r.labels| == 1 <==> ctx.suite.Some?
    ensures |r.labels| <= 1
    ensures ctx.suite.Some? ==> r.labels == [Label("suite", ctx.suite.value)]
    ensures r.description.None? && r.parameters == [] && r.links == []
    ensures r.steps == ctx.steps && r.attachments == ctx.attachments
  {
    var status := if outcome.Ok? then Passed else Failed;
    var details := if outcome.Ok? then None else Some(FailureDetails(outcome.payload, TEST_FALLBACK));
    var labels := if ctx.suite.Some? then [Label("suite", ctx.suite.value)] else [];
    TestResult(ctx.uuid, historyId, name, None, status, details, FINISHED, now - 1, now,
               labels, [], [], ctx.steps, ctx.attachments)
  }

  /** Ends the test: builds the result document and writes it as
      `<uuid>-result.json`. The context itself is left as it was. */
  function EndTest(ctx: Context, store: Writer.FileStore, env: Writer.Environment,
                   historyId: Uuid, name: string, outcome: Outcome, now: int): (r: Writer.FileStore)
    ensures var path := Writer.FilePath(Writer.ResultsDir(env), Writer.ResultFileName(ctx.uuid));
      && path in r.files && r.files[path].Document?
      && Wire.ResultFromJson(r.files[path].json) == Some(BuildResult(ctx, historyId, name, outcome, now))
    ensures r.dirs == store.dirs + {Writer.ResultsDir(env)}
    ensures var path := Writer.FilePath(Writer.ResultsDir(env), Writer.ResultFileName(ctx.uuid));
      && r.files.Keys == store.files.Keys + {path}
      && r.files[path] == Writer.Document(Wire.ResultJson(BuildResult(ctx, historyId, name, outcome, now)))
      && forall p | p in store.files && p != path :: r.files[p] == store.files[p]
  {
    var result := BuildResult(ctx, historyId, name, outcome, now);
    Wire.ResultRoundTrip(result);
    Writer.WriteTestResult(store, env, result)
  }
}
