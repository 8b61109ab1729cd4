/** The sink: where result documents and attachment files are written and
    under which names. The file system is an abstract store mapping a
    directory and a file name to the file's content; the environment is a
    map from variable names to values; fresh uuids are inputs. */
module Writer {
  import opened Base
  import opened Models
  import Wire

  /** The environment variable that overrides the results directory. */
  const RESULTS_DIR_VARIABLE: string := "ALLURE_RESULTS_DIR"

  /** The results directory used when the variable is not set. */
  const DEFAULT_RESULTS_DIR: string := "allure-results"

  /** The suffix of every result document's file name. */
  const RESULT_FILE_SUFFIX: string := "-result.json"

  /** The environment variables visible to the process. */
  type Environment = map<string, string>

  /** The directory every file is written to. */
  function ResultsDir(env: Environment): string {
    if RESULTS_DIR_VARIABLE in env then env[RESULTS_DIR_VARIABLE] else DEFAULT_RESULTS_DIR
  }

  datatype FilePath = FilePath(dir: string, name: string)

  /** A file holds either raw bytes (an attachment) or a JSON document (a
      result; its rendering to text is not modelled). */
  datatype FileContent = Bytes(data: seq<byte>) | Document(json: Wire.Json)

  /** The existing directories and files. */
  datatype FileStore = FileStore(dirs: set<string>, files: map<FilePath, FileContent>)

  /** Creates the directory when it does not exist yet. */
  function EnsureDir(store: FileStore, dir: string): (r: FileStore)
    ensures r.dirs == store.dirs + {dir}
    ensures r.files == store.files
  {
    if dir in store.dirs then store else store.(dirs := store.dirs + {dir})
  }

  // ---- file names ----

  /** `<uuid>-result.json`. */
  function ResultFileName(id: Uuid): string {
    id + RESULT_FILE_SUFFIX
  }

  /** Reads the uuid back out of a result file name. */
  function ParseResultFileName(name: string): (r: Option<Uuid>)
    ensures r.Some? ==> ResultFileName(r.value) == name
  {
    if |name| == 36 + |RESULT_FILE_SUFFIX| && IsUuidText(name[..36]) && name[36..] == RESULT_FILE_SUFFIX
    then
      assert name == name[..36] + name[36..];
      Some(name[..36])
    else None
  }

  lemma ResultFileNameRoundTrip(id: Uuid)
    ensures ParseResultFileName(ResultFileName(id)) == Some(id)
  {
    var n := ResultFileName(id);
    assert n[..36] == id;
    assert n[36..] == RESULT_FILE_SUFFIX;
  }

  /** `<uuid>.<extension>`. */
  function AttachmentFileName(id: Uuid, extension: string): string {
    id + "." + extension
  }

  /** Splits an attachment file name into its uuid and its extension. The
      uuid has a fixed length, so an extension containing a dot (such as
      "diff.png") is recovered whole. */
  function SplitAttachmentFileName(name: string): (r: Option<(Uuid, string)>)
    ensures r.Some? ==> AttachmentFileName(r.value.0, r.value.1) == name
  {
    if |name| >= 37 && IsUuidText(name[..36]) && name[36] == '.' then
      assert name == name[..36] + "." + name[37..];
      Some((name[..36], name[37..]))
    else None
  }

  lemma AttachmentFileNameRoundTrip(id: Uuid, extension: string)
    ensures SplitAttachmentFileName(AttachmentFileName(id, extension)) == Some((id, extension))
  {
    var n := AttachmentFileName(id, extension);
    assert n[..36] == id;
    assert n[36] == '.';
    assert n[37..] == extension;
  }

  /** An attachment file name always ends in "." followed by its extension. */
  lemma AttachmentFileNameEndsWithExtension(id: Uuid, extension: string)
    ensures var n := AttachmentFileName(id, extension);
      |n| > |extension| && n[|n| - |extension| - 1..] == "." + extension
  {
  }

  /** Attachment files written with distinct fresh uuids get distinct names,
      whatever their extensions. */
  lemma DistinctIdsGiveDistinctNames(a: Uuid, b: Uuid, extA: string, extB: string)
    requires a != b
    ensures AttachmentFileName(a, extA) != AttachmentFileName(b, extB)
  {
    AttachmentFileNameRoundTrip(a, extA);
    AttachmentFileNameRoundTrip(b, extB);
  }

  /** A result document's name is never an attachment's name. */
  lemma ResultAndAttachmentNamesDiffer(a: Uuid, b: Uuid, extension: string)
    ensures ResultFileName(a) != AttachmentFileName(b, extension)
  {
    assert ResultFileName(a)[36] == '-';
    assert AttachmentFileName(b, extension)[36] == '.';
  }

  // ---- writes ----

  /** Writes a result document as `<uuid>-result.json` in the results
      directory, creating the directory first if needed. */
  function WriteTestResult(store: FileStore, env: Environment, t: TestResult): (r: FileStore)
    ensures ResultsDir(env) in r.dirs
    ensures r.dirs == store.dirs + {ResultsDir(env)}
    ensures RESULTS_DIR_VARIABLE in env ==> FilePath(env[RESULTS_DIR_VARIABLE], ResultFileName(t.uuid)) in r.files
    ensures RESULTS_DIR_VARIABLE !in env ==> FilePath(DEFAULT_RESULTS_DIR, ResultFileName(t.uuid)) in r.files
    ensures var path := FilePath(ResultsDir(env), ResultFileName(t.uuid));
      && r.files.Keys == store.files.Keys + {path}
      && r.files[path] == Document(Wire.ResultJson(t))
      && forall p | p in store.files && p != path :: r.files[p] == store.files[p]
  {
    var dir := ResultsDir(env);
    var created := EnsureDir(store, dir);
    created.(files := created.files[FilePath(dir, ResultFileName(t.uuid)) := Document(Wire.ResultJson(t))])
  }

  /** The name an attachment was stored under, and the store after it. */
  datatype Written = Written(name: string, store: FileStore)

  /** Writes attachment bytes as `<id>.<extension>` in the results
      directory, creating the directory first if needed, and returns the
      file name. */
  function WriteAttachment(store: FileStore, env: Environment, id: Uuid, data: seq<byte>, extension: string): (r: Written)
    ensures SplitAttachmentFileName(r.name) == Some((id, extension))
    ensures ResultsDir(env) in r.store.dirs
    ensures r.store.dirs == store.dirs + {ResultsDir(env)}
    ensures var path := FilePath(ResultsDir(env), r.name);
      && r.store.files.Keys == store.files.Keys + {path}
      && r.store.files[path] == Bytes(data)
      && forall p | p in store.files && p != path :: r.store.files[p] == store.files[p]
  {
    var dir := ResultsDir(env);
    var created := EnsureDir(store, dir);
    var name := AttachmentFileName(id, extension);
    AttachmentFileNameRoundTrip(id, extension);
    Written(name, created.(files := created.files[FilePath(dir, name) := Bytes(data)]))
  }

  /** Two attachment writes with distinct fresh uuids return distinct names,
      and both files keep their own bytes. */
  lemma TwoAttachmentWritesKeepBoth(store: FileStore, env: Environment, a: Uuid, b: Uuid,
                                    dataA: seq<byte>, dataB: seq<byte>, extA: string, extB: string)
    requires a != b
    ensures var first := WriteAttachment(store, env, a, dataA, extA);
      var second := WriteAttachment(first.store, env, b, dataB, extB);
      && first.name != second.name
      && second.store.files[FilePath(ResultsDir(env), first.name)] == Bytes(dataA)
      && second.store.files[FilePath(ResultsDir(env), second.name)] == Bytes(dataB)
  {
    var first := WriteAttachment(store, env, a, dataA, extA);
    var second := WriteAttachment(first.store, env, b, dataB, extB);
    AttachmentFileNameRoundTrip(a, extA);
    AttachmentFileNameRoundTrip(b, extB);
    assert first.name != second.name;
  }
}
