# allure-rust-core recording model

A Dafny model of the recording core of `allure-rust-core`, the library that
instruments Rust tests and writes Allure result files.

The model has four parts:

- **The execution-context tracker** (`Tracker`, `TrackerProperties`).
  - One running test's context holds a uuid, a double-ended queue of steps,
    the test's attachment list and an optional suite name.
  - The lifecycle operations are start test, start step, end step, add
    attachment and end test.
  - The per-thread `RefCell` becomes an explicit `Context` value that each
    operation takes and returns.
  - Clock readings and fresh uuids are parameters.
- **The attachment classifier** (`Attachments`).
  - Eighteen attachment kinds, each with a fixed MIME type and extension.
  - Each payload kind has a default attachment kind and a byte form.
- **The result document model** (`Models`, `Wire`).
  - The recursive step record, status, failure details, labels, links and
    the test result.
  - Their JSON form: lower-case status names, camelCase field names, the
    MIME type and the link kind under `"type"`, optional fields left out.
- **The sink** (`Writer`).
  - Choosing the results directory: `ALLURE_RESULTS_DIR` or
    `allure-results`.
  - Naming result files `<uuid>-result.json` and attachment files
    `<id>.<extension>`.
  - Files are written into an abstract store that maps a directory and a
    file name to the file's content.

The step queue is a sequence: its first element is the front of the deque
and its last element is the back.
- Open steps sit at the back, one per nesting level.
- A closed step goes into the running step behind it as its last child.
- With no running step behind it, the closed step is pushed to the front.

`TrackerProperties` proves three things about the queue:
- it always has this shape;
- ending a step neither loses nor copies a step;
- steps end up in a particular order.

Nested steps become children in call order. Top-level steps run one after
another appear in the reverse of the order they ran in.

### Behaviour worth knowing

- **Attachments never go to a step.** An attachment is always appended to
  the test's own list, even while steps are open (allure-rust-core/src/lib.rs:216
  and :231). See `TrackerProperties.AttachmentWhileStepOpenGoesToTest`.
- **Only "failed" is produced.** An errored step or test is always marked
  failed, never broken (lib.rs:111, :178).
- **A successful step keeps its status.** It is not set to passed when it
  ends (lib.rs:177-190). It was created passed, so in practice it stays
  passed.
- **Top-level steps are reported in reverse.** A closed step with no
  running step behind it is pushed to the front of the deque (lib.rs:193,
  :198). Steps run one after another at top level therefore appear in
  reverse order (`TrackerProperties.SequentialStepsReversed`).
- **The last branch of `end_step` is unreachable.** The branch at
  lib.rs:200-202 can never run, because the popped step has just been
  marked finished. `Tracker.EndStep` proves this with an `assert false` in
  that branch.
- **Start time and open steps in the result.** The test result's start
  time is always its stop time minus one millisecond (lib.rs:136). Steps
  still running when the test ends are copied into the result as they are.

## Model

| member | source | states |
|---|---|---|
| Models.StatusFromName | allure-rust-core/src/models.rs:4-11 | The four status wire names are "passed", "failed", "broken" and "skipped". Reading a name back gives the status written under it, and every status's name reads back to that status. |
| Models.StatusNameInjective | allure-rust-core/src/models.rs:4-11 | Distinct statuses are written under distinct names. |
| Wire.DetailsJson | allure-rust-core/src/models.rs:13-20 | Failure details are an object with no other fields. "message" is present exactly when there is a message, and "trace" exactly when there is a trace. |
| Wire.DetailsRoundTrip | allure-rust-core/src/models.rs:13-20 | Decoding written details gives them back, so each optional field survives independently. |
| Wire.AttachmentJson | allure-rust-core/src/models.rs:22-29 | An attachment is written with exactly the fields name, source and type. The MIME type goes under "type". |
| Wire.AttachmentRoundTrip | allure-rust-core/src/models.rs:22-29 | Decoding a written attachment gives it back. |
| Wire.ParameterJson | allure-rust-core/src/models.rs:49-53 | A parameter is written with exactly the fields name and value. |
| Wire.ParameterRoundTrip | allure-rust-core/src/models.rs:49-53 | Decoding a written parameter gives it back. |
| Wire.LabelJson | allure-rust-core/src/models.rs:83-87 | A label is written with exactly the fields name and value. |
| Wire.LabelRoundTrip | allure-rust-core/src/models.rs:83-87 | Decoding a written label gives it back. |
| Wire.LinkJson | allure-rust-core/src/models.rs:89-95 | A link is written with exactly the fields name, url and type. The link's kind goes under "type". |
| Wire.LinkRoundTrip | allure-rust-core/src/models.rs:89-95 | Decoding a written link gives it back. |
| Wire.StepJson | allure-rust-core/src/models.rs:31-47 | A step is written with the eight camelCase fields name, status, stage, start, stop, steps, attachments and parameters. "statusDetails" is added exactly when the step has details. |
| Wire.StepRoundTrip | allure-rust-core/src/models.rs:31-47 | Decoding a written step gives back the whole step tree. Every nested step, attachment and parameter survives in order. |
| Wire.ResultJsonKeys | allure-rust-core/src/models.rs:55-81 | A result document has the twelve fixed camelCase fields (uuid, historyId, …). "description" and "statusDetails" are added exactly when present. |
| Wire.ResultRoundTrip | allure-rust-core/src/models.rs:55-81 | Decoding a written result document gives back the test result, so the document loses nothing. |
| Attachments.KindOfMimeType | allure-rust-core/src/attachment.rs:26-47 | The MIME table can be inverted: a MIME type maps back to the one kind that has it, and a string no kind has maps to none. |
| Attachments.KindOfExtension | allure-rust-core/src/attachment.rs:49-70 | The extension table can be inverted: an extension maps back to the one kind that has it, and a string no kind has maps to none. |
| Attachments.TablesInjective | allure-rust-core/src/attachment.rs:26-70 | Distinct kinds have distinct MIME types and distinct extensions. |
| Attachments.OnlyImageDiffExtensionHasDot | allure-rust-core/src/attachment.rs:49-70 | The image-diff extension "diff.png" is the only extension containing a dot. |
| Attachments.RawContentIsPlainText | allure-rust-core/src/attachment.rs:78-116 | A string slice, an owned string, a byte slice or a byte vector classifies as plain text ("text/plain", "txt"). It is written as exactly its own bytes. |
| Attachments.JsonContentIsJson | allure-rust-core/src/attachment.rs:118-128 | A JSON value classifies as JSON ("application/json", "json"). It is written as its pretty-printed text. |
| Attachments.TypedContentKeepsBytes | allure-rust-core/src/attachment.rs:130-143 | A typed wrapper reports its explicit kind, whatever it wraps. Its bytes are those of the wrapped payload. |
| Writer.ParseResultFileName | allure-rust-core/src/writer.rs:20 | A name accepted as a result file name is `<uuid>-result.json` for the uuid it yields. |
| Writer.ResultFileNameRoundTrip | allure-rust-core/src/writer.rs:20 | A result file name gives back the uuid it was made from. |
| Writer.SplitAttachmentFileName | allure-rust-core/src/writer.rs:30 | A name accepted as an attachment file name is `<id>.<extension>` for the parts it yields. |
| Writer.AttachmentFileNameRoundTrip | allure-rust-core/src/writer.rs:30 | An attachment file name gives back its id and its whole extension, even the dotted "diff.png". |
| Writer.AttachmentFileNameEndsWithExtension | allure-rust-core/src/writer.rs:30 | An attachment file name always ends in "." followed by its extension. |
| Writer.DistinctIdsGiveDistinctNames | allure-rust-core/src/writer.rs:30 | Distinct fresh ids give distinct attachment file names, whatever the extensions. |
| Writer.ResultAndAttachmentNamesDiffer | allure-rust-core/src/writer.rs:20-30 | No result file name is ever an attachment file name. |
| Writer.EnsureDir | allure-rust-core/src/writer.rs:16-19 | After the step the directory exists, whether or not it did before, and no file changes. |
| Writer.WriteTestResult | allure-rust-core/src/writer.rs:15-23 | After the write the results directory exists. It is `ALLURE_RESULTS_DIR` when that is set, else "allure-results". Exactly one file is added or replaced, `<uuid>-result.json`, holding the result's document; every other file is unchanged. |
| Writer.WriteAttachment | allure-rust-core/src/writer.rs:25-34 | After the write the results directory exists. The returned name splits into the given id and extension. The file under that name holds exactly the given bytes, and every other file is unchanged. |
| Writer.TwoAttachmentWritesKeepBoth | allure-rust-core/src/writer.rs:25-34 | Two attachment writes with distinct ids return distinct names, and each file keeps its own bytes. |
| Tracker.PanicMessage | allure-rust-core/src/lib.rs:179-185 | A panic carrying a string literal or an owned string is recorded with that text verbatim. Any other payload is recorded with the fallback message. |
| Tracker.StepMacroOutcome | allure-rust-core/src/lib.rs:24-37 | The `allure_step!` macro passes success through as success and failure as failure. A payload without text is replaced by "Step failed". |
| Tracker.ReplaceLeavesNoDoubleColon | allure-rust-core/src/lib.rs:90 | After the module path's "::" are replaced, no "::" is left, even from a run of three or more colons. |
| Tracker.ReplaceKeepsColonFreePrefix | allure-rust-core/src/lib.rs:90 | Text without colons passes through the replacement unchanged, whatever follows it. |
| Tracker.ModulePathBecomesDotted | allure-rust-core/src/lib.rs:89-91 | A module path `a::b::c` whose segments contain no colon becomes the suite name `a.b.c`. |
| Tracker.StartTestWithContext | allure-rust-core/src/lib.rs:78-94 | Starting a test discards every step and attachment and takes the new uuid. The suite is the explicit one if given, else the module path with "::" turned into ".", else none. |
| Tracker.StartTest | allure-rust-core/src/lib.rs:67-69 | Starting a test without suite information gives a fresh context with no suite. |
| Tracker.StartTestWithSuite | allure-rust-core/src/lib.rs:71-76 | Starting a test with a suite records exactly that suite, on a fresh context. |
| Tracker.StartStepWithParams | allure-rust-core/src/lib.rs:153-168 | Exactly one step is appended at the back, with nothing else changed. It is running, passed, has no details, starts at now with stop 0, has no children or attachments, and has the given parameters. |
| Tracker.StartStep | allure-rust-core/src/lib.rs:149-151 | Exactly one step is appended at the back. It is running, passed, has no details, starts at now with stop 0, and has no children, attachments or parameters. Uuid, attachments and suite are unchanged. |
| Tracker.CloseStep | allure-rust-core/src/lib.rs:175-190 | A closed step is finished and stops at now. On failure it is failed with the panic's message, or "Step panicked". On success its status and details are untouched, and nothing else about it changes. |
| Tracker.EndStep | allure-rust-core/src/lib.rs:171-205 | Ending a step does nothing on an empty queue. Otherwise the closed back step becomes the last child of the step behind it when that step is running, and is pushed to the front otherwise. Everything else keeps its place, and the fallback branch is unreachable. |
| Tracker.AttachAs | allure-rust-core/src/lib.rs:207-216 | Recording an attachment keeps the test's earlier entries and appends one, with the given name and the kind's MIME type. Steps, uuid and suite are untouched. The entry's source is a file name that splits into the fresh id and the kind's extension. That file, in the results directory (which now exists), holds exactly the payload's bytes, and every other file is unchanged. |
| Tracker.AddAttachment | allure-rust-core/src/lib.rs:207-217 | Everything `Tracker.AttachAs` states, with the payload's own kind: plain text for text and bytes, JSON for a JSON value, the explicit kind for a typed wrapper. |
| Tracker.AddAttachmentWithType | allure-rust-core/src/lib.rs:219-232 | Everything `Tracker.AttachAs` states, with the explicit kind deciding the MIME type and the extension, whatever the payload. |
| Tracker.RecordedTypeMatchesFile | allure-rust-core/src/lib.rs:207-216 | For any payload, the recorded MIME type and the extension of the written file both map back to the payload's own kind. |
| Tracker.ExplicitKindIsTypedWrapper | allure-rust-core/src/lib.rs:219-232 | Passing a kind explicitly records exactly what wrapping the payload in a typed wrapper of that kind records. |
| Tracker.BuildResult | allure-rust-core/src/lib.rs:96-143 | The result is passed with no details exactly when the outcome is success. Otherwise it is failed with the panic's message or "Test panicked", and never broken or skipped. It is finished, starts one millisecond before it stops, and has one "suite" label exactly when a suite is set. It carries the queue's steps in order and the test's attachments, with no parameters, links or description. |
| Tracker.EndTest | allure-rust-core/src/lib.rs:96-146 | Ending a test adds exactly one file, `<uuid>-result.json` in the results directory (which now exists). It holds the document of the result built from the context, and reading it back gives exactly that result. Every other file is unchanged. |
| TrackerProperties.StartTestIsWellFormed | allure-rust-core/src/lib.rs:83-93 | A freshly started test has a well-formed queue: finished trees first, then running steps. |
| TrackerProperties.StartStepKeepsWellFormed | allure-rust-core/src/lib.rs:153-168 | Starting a step keeps the queue well formed. |
| TrackerProperties.CloseStepIsClosed | allure-rust-core/src/lib.rs:175-190 | Closing a running or finished step gives a finished tree. |
| TrackerProperties.EndStepKeepsWellFormed | allure-rust-core/src/lib.rs:171-205 | Ending a step keeps the queue well formed, whichever way the step is routed. |
| TrackerProperties.AttachmentKeepsWellFormed | allure-rust-core/src/lib.rs:207-232 | Recording an attachment keeps the queue well formed. |
| TrackerProperties.AttachmentWhileStepOpenGoesToTest | allure-rust-core/src/lib.rs:216 | While a step is open, a new attachment goes to the test's list. The open step still has no attachments. |
| TrackerProperties.EndStepKeepsEveryStep | allure-rust-core/src/lib.rs:171-205 | Ending a step neither loses nor duplicates a step: the queue holds as many steps as before, nested ones included. |
| TrackerProperties.RunCallUnderParent | allure-rust-core/src/lib.rs:194-196 | A step call made below a running step becomes that step's last child, as its reported step. |
| TrackerProperties.RunCallsUnderParent | allure-rust-core/src/lib.rs:194-196 | Step calls made in order below a running step become its last children, in call order. |
| TrackerProperties.RunCallAtTopLevel | allure-rust-core/src/lib.rs:192-199 | A step call made while no step is running ends up at the front of the queue. |
| TrackerProperties.RunCallsAtTopLevel | allure-rust-core/src/lib.rs:192-199 | Step calls made one after another at top level are reported in the reverse of the order they were made. |
| TrackerProperties.SequentialStepsReversed | test-suite/tests/integration_tests.rs:15-31 | In a fresh test, steps A then B give the step list [B, A]. |
| TrackerProperties.NestedStepsInOrder | allure-rust-core/src/lib.rs:194-196 | Steps A then B run inside an outer step are its children [A, B], and the outer step is the only top-level step. |
| TrackerProperties.ReportedIsClosed | allure-rust-core/src/lib.rs:175-176 | Every reported step is a finished tree with no attachments at any depth. |
| TrackerProperties.TestOfWellNestedSteps | allure-rust-core/src/lib.rs:96-146 | A whole test of well-nested steps reports the top-level steps in reverse order, all finished. Its status is passed exactly when the test succeeded. Its attachment list is empty, because a step call records no attachment. |

## Left out

- Thread-local storage and `RefCell` borrowing. The context is an explicit value, and there is no concurrency in the core.
- `Uuid::new_v4` and `Utc::now`: fresh ids and clock readings are parameters. No assumption is made that the clock is monotonic, so a step's stop is not proved to be at least its start.
- The 64-bit width of timestamps: they are unbounded integers. `now - 1` at the smallest `i64` is not modelled.
- `catch_unwind`, `resume_unwind` and payload downcasting. A panic payload is a string literal, an owned string, or anything else.
- The procedural macros, and the "Unknown error" text `#[step]` substitutes for a payload without text. The macros crate is not part of this model. The `allure_step!` rule that turns such a payload into "Step failed" is modelled (`Tracker.StepMacroOutcome`).
- JSON rendering: pretty-printing, the order in which fields appear, and uuid formatting. Documents are JSON values. A JSON attachment's text is supplied by a `pretty` function parameter. The `"{}"` fallback for a value that fails to serialise is not modelled.
- File-system failures and directory ancestors. `create_dir_all` and `fs::write` either succeed or end the run with a panic, so only success is modelled. Only the results directory itself is recorded as existing.
- Environment values that are not valid Unicode. `env::var` then fails and the default directory is used. The environment is a map from text to text, so such a value cannot occur.
- JSON numbers: a JSON value holds only integers, so a float such as `1.5` inside a JSON attachment payload cannot be written down. Nothing is lost: the payload's kind does not depend on its numbers, and its bytes come from the `pretty` parameter. Result documents contain only integer timestamps.
- Writer.ResultsDir: no row of its own. Its choice between the variable and the default is stated in `Writer.WriteTestResult`'s and `Writer.WriteAttachment`'s contracts.
- Tracker.ReplaceDoubleColons: its own contract only bounds the length. What it does to "::" is stated by the three lemmas after it.
- Writer.ResultFileName: no row of its own. Its form is stated by `Writer.ParseResultFileName` and `Writer.ResultFileNameRoundTrip`.
- Writer.AttachmentFileName: no row of its own. Its form is stated by `Writer.SplitAttachmentFileName`, `Writer.AttachmentFileNameRoundTrip` and `Writer.AttachmentFileNameEndsWithExtension`.
- Wire.ResultJson: its own contract only says the document is an object. Its fields are stated by `Wire.ResultJsonKeys` and its content by `Wire.ResultRoundTrip`.
- Attachments.MimeType: the table, stated through its inverse `Attachments.KindOfMimeType` and by `Attachments.TablesInjective`.
- Attachments.Extension: the table, stated through its inverse `Attachments.KindOfExtension` and by `Attachments.TablesInjective` and `Attachments.OnlyImageDiffExtensionHasDot`.
- Attachments.KindOf: each payload's kind is stated by `Attachments.RawContentIsPlainText`, `Attachments.JsonContentIsJson` and `Attachments.TypedContentKeepsBytes`, and checked against the tables by `Tracker.RecordedTypeMatchesFile`.
- Attachments.IntoBytes: each payload's bytes are stated by the same three lemmas.
- Models.StatusName: the name table, stated through its inverse `Models.StatusFromName` and by `Models.StatusNameInjective`.
- Tracker.NewContext: the fresh context, stated by `Tracker.StartTestWithContext` and `Tracker.StartTest`.
- Tracker.FailureDetails: a message and no trace, stated by `Tracker.CloseStep` and `Tracker.BuildResult` together with `Tracker.PanicMessage`.
