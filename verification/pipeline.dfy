/** The pieces put together as the upload page uses them: every uploaded
    file goes through `process_single_pdf` with `extract_pdf_data` as its
    extractor, and `parallel_process_pdfs` folds the completions.

    What the outside world does for one upload (the temporary-file write,
    the PDF parser, the unlink) is an environment given per file. */
module Pipeline {
  import opened Wrappers
  import opened Values
  import opened TempFile
  import opened Dispatcher
  import opened Eob

  /** The environment of one upload: whether the temporary file could be
      opened and written, what the parser returned for it (the texts of its
      documents) or raised, and what deleting it did. */
  datatype FileEnv = FileEnv(write: WriteOutcome, parse: Completion<seq<string>>, unlink: UnlinkOutcome)

  /** `extract_pdf_data(path)` including the parser call, which may raise. */
  function Extract(parse: Completion<seq<string>>, p: Patterns): (r: TaskOutcome)
    ensures r.Raised? <==> parse.Raised?
    ensures parse.Raised? ==> r.message == parse.message
    ensures parse.Returned? ==> (Truthy(r.value) <==> parse.value != [])
    ensures parse.Returned? && parse.value != [] ==> Keys(r.value.value) == RecordKeys
  {
    match parse
    case Returned(documents) => Returned(ExtractPdfData(documents, p))
    case Raised(m) => Raised(m)
  }

  /** What `future.result()` gives for one upload. */
  function TaskOf(env: FileEnv, p: Patterns): TaskOutcome {
    ProcessSinglePdf(env.write, Extract(env.parse, p), env.unlink).outcome
  }

  /** Which branch of the completion loop an upload takes. A record is kept
      exactly when the file was written, the parser found at least one
      document and deletion raised nothing unexpected; a warning comes from
      an empty parse; every other case is an error. */
  lemma TaskKind(env: FileEnv, p: Patterns)
    ensures KindOf(TaskOf(env, p)) == Kept <==>
      env.write.Wrote? && env.parse.Returned? && env.parse.value != [] && !env.unlink.UnlinkFailed?
    ensures KindOf(TaskOf(env, p)) == NoData <==>
      env.write.Wrote? && env.parse.Returned? && env.parse.value == [] && !env.unlink.UnlinkFailed?
    ensures KindOf(TaskOf(env, p)) == Failed <==>
      !env.write.Wrote? || env.parse.Raised? || env.unlink.UnlinkFailed?
    ensures KindOf(TaskOf(env, p)) == Kept ==>
      TaskOf(env, p).value.value == ToDict(BuildRecord(env.parse.value[0], p))
  {
  }

  /** The error text of a failed upload: the message of the failed open or
      write, else the unlink's unexpected error, else the parser's exception. */
  lemma TaskError(env: FileEnv, p: Patterns)
    requires KindOf(TaskOf(env, p)) == Failed
    ensures !env.write.Wrote? ==> TaskOf(env, p).message == env.write.message
    ensures env.write.Wrote? && env.unlink.UnlinkFailed? ==> TaskOf(env, p).message == env.unlink.message
    ensures env.write.Wrote? && !env.unlink.UnlinkFailed? ==> TaskOf(env, p).message == env.parse.message
  {
  }

  function Outcomes(envs: seq<FileEnv>, p: Patterns): (r: seq<TaskOutcome>)
    ensures |r| == |envs| && forall j | 0 <= j < |envs| :: r[j] == TaskOf(envs[j], p)
  {
    seq(|envs|, j requires 0 <= j < |envs| => TaskOf(envs[j], p))
  }

  /** One run of the upload page's batch processing. */
  function ProcessBatch(
    files: seq<PdfFile>, envs: seq<FileEnv>, order: seq<nat>,
    maxWorkers: Option<int>, cpuCount: Option<nat>, p: Patterns): Result<Batch, string>
    requires |envs| == |files|
    requires IsCompletionOrder(order, |files|)
  {
    ParallelProcessPdfs(files, Outcomes(envs, p), order, maxWorkers, cpuCount)
  }

  /** No uploads: nothing is returned and nothing is reported. */
  lemma NoUploads(maxWorkers: Option<int>, cpuCount: Option<nat>, p: Patterns)
    requires maxWorkers.Some? || cpuCount.Some?
    ensures ProcessBatch([], [], [], maxWorkers, cpuCount, p) == Success(Batch([], []))
  {
  }

  /** The three environments of the scenario below: a good upload, one the
      parser finds empty, and one the parser fails on. */
  function Scenario(text: string, message: string): seq<FileEnv> {
    [FileEnv(Wrote, Returned([text]), Unlinked),
     FileEnv(Wrote, Returned([]), Unlinked),
     FileEnv(Wrote, Raised(message), NotFound)]
  }

  /** The only index of a kind that exactly one task has. */
  lemma OnlyOne(outcomes: seq<TaskOutcome>, order: seq<nat>, kind: Kind, j: nat)
    requires IsCompletionOrder(order, |outcomes|)
    requires j < |outcomes| && KindOf(outcomes[j]) == kind
    requires CountKind(outcomes, kind) == 1
    ensures Pick(outcomes, order, kind) == [j]
  {
    PickSize(outcomes, order, kind);
    CompletionOrderFacts(order, |outcomes|);
    PickCount(outcomes, order, kind, j);
    var ix := Pick(outcomes, order, kind);
    assert j in multiset(ix);
  }

  /** A written file whose parse has documents gives the first document's record. */
  lemma GoodUpload(documents: seq<string>, unlink: UnlinkOutcome, p: Patterns)
    requires documents != [] && !unlink.UnlinkFailed?
    ensures TaskOf(FileEnv(Wrote, Returned(documents), unlink), p) == Returned(Some(ToDict(BuildRecord(documents[0], p))))
  {
  }

  /** A written file whose parse is empty gives `None`. */
  lemma EmptyUpload(unlink: UnlinkOutcome, p: Patterns)
    requires !unlink.UnlinkFailed?
    ensures TaskOf(FileEnv(Wrote, Returned([]), unlink), p) == Returned(None)
  {
  }

  /** A written file the parser fails on re-raises the parser's exception. */
  lemma FailingUpload(message: string, unlink: UnlinkOutcome, p: Patterns)
    requires !unlink.UnlinkFailed?
    ensures TaskOf(FileEnv(Wrote, Raised(message), unlink), p) == Raised(message)
  {
  }

  /** What each upload of the scenario hands back. */
  lemma ScenarioOutcomes(text: string, message: string, p: Patterns)
    ensures |Outcomes(Scenario(text, message), p)| == 3
    ensures Outcomes(Scenario(text, message), p)[0] == Returned(Some(ToDict(BuildRecord(text, p))))
    ensures Outcomes(Scenario(text, message), p)[1] == Returned(None)
    ensures Outcomes(Scenario(text, message), p)[2] == Raised(message)
    ensures KindOf(Outcomes(Scenario(text, message), p)[0]) == Kept
    ensures KindOf(Outcomes(Scenario(text, message), p)[1]) == NoData
    ensures KindOf(Outcomes(Scenario(text, message), p)[2]) == Failed
  {
    var envs := Scenario(text, message);
    assert envs[0] == FileEnv(Wrote, Returned([text]), Unlinked);
    assert envs[1] == FileEnv(Wrote, Returned([]), Unlinked);
    assert envs[2] == FileEnv(Wrote, Raised(message), NotFound);
    GoodUpload([text], Unlinked, p);
    EmptyUpload(Unlinked, p);
    FailingUpload(message, NotFound, p);
    assert |ToDict(BuildRecord(text, p))| == 15;
  }

  /** Counting the kinds of three outcomes. */
  lemma CountThree(a: TaskOutcome, b: TaskOutcome, c: TaskOutcome, kind: Kind)
    ensures CountKind([a, b, c], kind) ==
      (if KindOf(a) == kind then 1 else 0) + (if KindOf(b) == kind then 1 else 0) + (if KindOf(c) == kind then 1 else 0)
  {
    var s := [a, b, c];
    assert s[..2] == [a, b] && [a, b][..1] == [a] && [a][..0] == [];
    assert CountKind([a], kind) == if KindOf(a) == kind then 1 else 0;
    assert CountKind([a, b], kind) == CountKind([a], kind) + if KindOf(b) == kind then 1 else 0;
  }

  /** Three tasks, one of each kind, completed in any order: the kept
      task's record, a warning for the empty one, an error for the failed
      one, and the status ends at 3/3. */
  lemma OneOfEach(files: seq<PdfFile>, outcomes: seq<TaskOutcome>, order: seq<nat>, cpuCount: nat)
    requires |files| == 3 && |outcomes| == 3 && IsCompletionOrder(order, 3)
    requires KindOf(outcomes[0]) == Kept && KindOf(outcomes[1]) == NoData && KindOf(outcomes[2]) == Failed
    ensures ParallelProcessPdfs(files, outcomes, order, None, Some(cpuCount)).Success?
    ensures var b := ParallelProcessPdfs(files, outcomes, order, None, Some(cpuCount)).value;
      && b.records == [outcomes[0].value.value]
      && Warnings(b.events) == [WarningText(files[1].name)]
      && Errors(b.events) == [ErrorText(files[2].name, outcomes[2].message)]
      && b.events[|b.events| - 1] == Progressed(3, 3, StatusText(3, 3))
  {
    assert outcomes == [outcomes[0], outcomes[1], outcomes[2]];
    CountThree(outcomes[0], outcomes[1], outcomes[2], Kept);
    CountThree(outcomes[0], outcomes[1], outcomes[2], NoData);
    CountThree(outcomes[0], outcomes[1], outcomes[2], Failed);
    OnlyOne(outcomes, order, Kept, 0);
    OnlyOne(outcomes, order, NoData, 1);
    OnlyOne(outcomes, order, Failed, 2);
    CompletionOrderFacts(order, 3);
    var b := CompletionLoop(files, outcomes, order);
    assert ParallelProcessPdfs(files, outcomes, order, None, Some(cpuCount)) == Success(b);
    assert b.records == Gather(RecordOf(outcomes), [0]);
  }

  /** Three uploads, completed in any order: one record (the good file's),
      one warning naming the empty file, one error naming the failing file
      with the parser's message, and the status ends at 3/3. */
  lemma ThreeUploads(files: seq<PdfFile>, text: string, message: string, order: seq<nat>, cpuCount: nat, p: Patterns)
    requires |files| == 3 && IsCompletionOrder(order, 3)
    ensures ProcessBatch(files, Scenario(text, message), order, None, Some(cpuCount), p).Success?
    ensures var b := ProcessBatch(files, Scenario(text, message), order, None, Some(cpuCount), p).value;
      && b.records == [ToDict(BuildRecord(text, p))]
      && Warnings(b.events) == [WarningText(files[1].name)]
      && Errors(b.events) == [ErrorText(files[2].name, message)]
      && b.events[|b.events| - 1] == Progressed(3, 3, StatusText(3, 3))
  {
    var outcomes := Outcomes(Scenario(text, message), p);
    ScenarioOutcomes(text, message, p);
    OneOfEach(files, outcomes, order, cpuCount);
    var r := ParallelProcessPdfs(files, outcomes, order, None, Some(cpuCount));
    assert ProcessBatch(files, Scenario(text, message), order, None, Some(cpuCount), p) == r;
  }
}
