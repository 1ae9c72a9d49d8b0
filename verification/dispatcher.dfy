/** The completion loop of `parallel_process_pdfs`.

    One task is submitted per uploaded file; the pool reports completions in
    an order the model takes as an input (`order`, a permutation of the
    submission indices), and what each task handed back is given as
    `outcomes[j]` for the file submitted j-th. What is left of the
    concurrency is a fold over `order` that collects records and appends
    warnings, errors and progress updates to an event log. */
module Dispatcher {
  import opened Wrappers
  import opened Strings
  import opened Values

  /** An uploaded file, known to the loop by its display name; its bytes
      matter only to the temporary-file write, which the model is told about. */
  datatype PdfFile = PdfFile(name: string)

  /** What `future.result()` gives for one task. */
  type TaskOutcome = Completion<Option<Dict<Field>>>

  /** The three branches of the loop body. */
  datatype Kind = Kept | NoData | Failed

  function KindOf(t: TaskOutcome): Kind {
    match t
    case Returned(data) => if Truthy(data) then Kept else NoData
    case Raised(_) => Failed
  }

  /** The observable side effects of the loop: `st.warning`, `st.error`, and
      the progress bar with its status line, updated together. */
  datatype Event =
    | Warned(text: string)
    | Errored(text: string)
    | Progressed(done: nat, total: nat, status: string)

  const StatusPrefix: string := "Processing PDFs: "

  function WarningText(name: string): string {
    "No data extracted from " + name
  }

  function ErrorText(name: string, message: string): string {
    "Error processing " + name + ": " + message
  }

  function StatusText(done: nat, total: nat): string {
    StatusPrefix + Decimal(done) + "/" + Decimal(total)
  }

  /** Reads a status line back into its two counters. */
  function ParseStatus(s: string): Option<(nat, nat)> {
    if |s| < |StatusPrefix| || s[..|StatusPrefix|] != StatusPrefix then None
    else
      var rest := s[|StatusPrefix|..];
      var slash := IndexOf(rest, '/');
      if slash.None? then None
      else
        var a := rest[..slash.value];
        var b := rest[slash.value + 1..];
        if AllDigits(a) && AllDigits(b) && a != [] && b != [] then Some((ValueOf(a), ValueOf(b)))
        else None
  }

  /** The status line names exactly the counters it was made from. */
  lemma StatusRoundTrip(done: nat, total: nat)
    ensures ParseStatus(StatusText(done, total)) == Some((done, total))
  {
    var s := StatusText(done, total);
    var a := Decimal(done);
    var b := Decimal(total);
    assert s[..|StatusPrefix|] == StatusPrefix;
    var rest := s[|StatusPrefix|..];
    assert rest == a + "/" + b;
    assert rest[|a|] == '/';
    assert '/' !in a by {
      forall i | 0 <= i < |a|
        ensures a[i] != '/'
      {
        assert IsDigit(a[i]);
      }
    }
    IndexOfAfter(a, '/', b);
    assert rest[..|a|] == a;
    assert rest[|a| + 1..] == b;
    DecimalRoundTrip(done);
    DecimalRoundTrip(total);
  }

  /** The records, warnings, errors and progress updates so far. */
  datatype Batch = Batch(records: seq<Dict<Field>>, events: seq<Event>)

  /** The pool size: a supplied `max_workers` is used as given; otherwise
      `max(1, os.cpu_count() - 1)`, which raises when the core count is
      unknown (`os.cpu_count()` returns `None`). */
  function PoolSize(maxWorkers: Option<int>, cpuCount: Option<nat>): (r: Result<int, string>)
    ensures maxWorkers.Some? ==> r == Success(maxWorkers.value)
    ensures maxWorkers.None? ==> (r.Success? <==> cpuCount.Some?)
    ensures maxWorkers.None? && r.Success? ==>
      && r.value >= 1
      && r.value >= cpuCount.value - 1
      && (r.value > 1 ==> r.value == cpuCount.value - 1)
  {
    if maxWorkers.Some? then Success(maxWorkers.value)
    else if cpuCount.None? then Failure("unsupported operand type(s) for -: 'NoneType' and 'int'")
    else if cpuCount.value - 1 > 1 then Success(cpuCount.value - 1)
    else Success(1)
  }

  function Indices(n: nat): (s: seq<nat>)
    ensures |s| == n && forall k | 0 <= k < n :: s[k] == k
  {
    seq(n, k => k)
  }

  /** An order in which the pool can report `n` tasks: every submission
      index exactly once. */
  predicate IsCompletionOrder(order: seq<nat>, n: nat) {
    InRange(order, n) && multiset(order) == multiset(Indices(n))
  }

  predicate InRange(ix: seq<nat>, n: nat) {
    forall k | 0 <= k < |ix| :: ix[k] < n
  }

  lemma {:induction false} IndicesCount(n: nat, j: nat)
    ensures multiset(Indices(n))[j] == if j < n then 1 else 0
  {
    if n > 0 {
      assert Indices(n) == Indices(n - 1) + [n - 1];
      IndicesCount(n - 1, j);
    }
  }

  /** A completion order handles each of the `n` tasks exactly once. */
  lemma CompletionOrderFacts(order: seq<nat>, n: nat)
    requires IsCompletionOrder(order, n)
    ensures |order| == n
    ensures InRange(order, n)
    ensures forall j | 0 <= j < n :: multiset(order)[j] == 1
  {
    assert |order| == |multiset(order)| == |multiset(Indices(n))| == n;
    forall k | 0 <= k < |order|
      ensures order[k] < n
    {
      assert order[k] in multiset(order);
      IndicesCount(n, order[k]);
    }
    forall j | 0 <= j < n
      ensures multiset(order)[j] == 1
    {
      IndicesCount(n, j);
    }
  }

  /** The submission indices, in completion order, of the tasks of one kind. */
  function Pick(outcomes: seq<TaskOutcome>, order: seq<nat>, kind: Kind): (ix: seq<nat>)
    requires InRange(order, |outcomes|)
    ensures |ix| <= |order|
    ensures forall k | 0 <= k < |ix| :: ix[k] < |outcomes| && KindOf(outcomes[ix[k]]) == kind
    decreases |order|
  {
    if order == [] then []
    else
      var last := order[|order| - 1];
      Pick(outcomes, order[..|order| - 1], kind) + (if KindOf(outcomes[last]) == kind then [last] else [])
  }

  /** `f(j)` for each index j of `ix`, in order. */
  function Gather<T>(f: nat -> T, ix: seq<nat>): (r: seq<T>)
    ensures |r| == |ix| && forall k | 0 <= k < |ix| :: r[k] == f(ix[k])
  {
    seq(|ix|, k requires 0 <= k < |ix| => f(ix[k]))
  }

  /** The record task j contributes when it is kept. */
  function RecordOf(outcomes: seq<TaskOutcome>): nat -> Dict<Field> {
    (j: nat) => if j < |outcomes| && outcomes[j].Returned? && outcomes[j].value.Some? then outcomes[j].value.value else []
  }

  /** The warning task j causes when it returns nothing. */
  function WarningOf(files: seq<PdfFile>): nat -> string {
    (j: nat) => if j < |files| then WarningText(files[j].name) else ""
  }

  /** The error task j causes when it raises. */
  function ErrorOf(files: seq<PdfFile>, outcomes: seq<TaskOutcome>): nat -> string {
    (j: nat) => if j < |files| && j < |outcomes| && outcomes[j].Raised? then ErrorText(files[j].name, outcomes[j].message) else ""
  }

  function Warnings(events: seq<Event>): seq<string>
    decreases |events|
  {
    if events == [] then []
    else
      var e := events[|events| - 1];
      Warnings(events[..|events| - 1]) + (if e.Warned? then [e.text] else [])
  }

  function Errors(events: seq<Event>): seq<string>
    decreases |events|
  {
    if events == [] then []
    else
      var e := events[|events| - 1];
      Errors(events[..|events| - 1]) + (if e.Errored? then [e.text] else [])
  }

  function Progress(events: seq<Event>): seq<Event>
    decreases |events|
  {
    if events == [] then []
    else
      var e := events[|events| - 1];
      Progress(events[..|events| - 1]) + (if e.Progressed? then [e] else [])
  }

  /** The progress updates of `done` completions out of `total`. */
  function ProgressUpTo(done: nat, total: nat): (r: seq<Event>)
    ensures |r| == done
    ensures forall k | 0 <= k < done :: r[k] == Progressed(k + 1, total, StatusText(k + 1, total))
  {
    if done == 0 then [] else ProgressUpTo(done - 1, total) + [Progressed(done, total, StatusText(done, total))]
  }

  /** The three event filters distribute over appending to the log. */
  lemma {:induction false} FiltersAppend(a: seq<Event>, b: seq<Event>)
    ensures Warnings(a + b) == Warnings(a) + Warnings(b)
    ensures Errors(a + b) == Errors(a) + Errors(b)
    ensures Progress(a + b) == Progress(a) + Progress(b)
    decreases |b|
  {
    if b == [] {
      assert a + b == a;
    } else {
      var b' := b[..|b| - 1];
      assert (a + b)[..|a + b| - 1] == a + b';
      FiltersAppend(a, b');
    }
  }

  /** The loop body for the task submitted `j`-th, which is the `done`-th to
      complete out of `total`. */
  function Complete(b: Batch, file: PdfFile, outcome: TaskOutcome, done: nat, total: nat): Batch {
    var progress := Progressed(done, total, StatusText(done, total));
    match outcome
    case Returned(data) =>
      if Truthy(data) then Batch(b.records + [data.value], b.events + [progress])
      else Batch(b.records, b.events + [Warned(WarningText(file.name)), progress])
    case Raised(m) =>
      Batch(b.records, b.events + [Errored(ErrorText(file.name, m)), progress])
  }

  /** One pass of the loop body appends exactly one of a record, a warning
      or an error, and then one progress update. */
  lemma CompleteStep(b: Batch, file: PdfFile, outcome: TaskOutcome, done: nat, total: nat)
    ensures var after := Complete(b, file, outcome, done, total);
      && after.records == b.records + (if KindOf(outcome) == Kept then [outcome.value.value] else [])
      && Warnings(after.events) == Warnings(b.events) + (if KindOf(outcome) == NoData then [WarningText(file.name)] else [])
      && Errors(after.events) == Errors(b.events) + (if KindOf(outcome) == Failed then [ErrorText(file.name, outcome.message)] else [])
      && Progress(after.events) == Progress(b.events) + [Progressed(done, total, StatusText(done, total))]
      && after.events != [] && after.events[|after.events| - 1] == Progressed(done, total, StatusText(done, total))
  {
    var progress := Progressed(done, total, StatusText(done, total));
    match outcome {
      case Returned(data) =>
        if Truthy(data) {
          AppendOne(b.events, progress);
        } else {
          AppendTwo(b.events, Warned(WarningText(file.name)), progress);
        }
      case Raised(m) =>
        AppendTwo(b.events, Errored(ErrorText(file.name, m)), progress);
    }
  }

  lemma AppendOne(events: seq<Event>, e: Event)
    ensures Warnings(events + [e]) == Warnings(events) + Warnings([e])
    ensures Errors(events + [e]) == Errors(events) + Errors([e])
    ensures Progress(events + [e]) == Progress(events) + Progress([e])
    ensures Warnings([e]) == if e.Warned? then [e.text] else []
    ensures Errors([e]) == if e.Errored? then [e.text] else []
    ensures Progress([e]) == if e.Progressed? then [e] else []
  {
    SingleFilters(e);
    FiltersAppend(events, [e]);
  }

  lemma AppendTwo(events: seq<Event>, e: Event, p: Event)
    requires p.Progressed? && !e.Progressed?
    ensures Warnings(events + [e, p]) == Warnings(events) + (if e.Warned? then [e.text] else [])
    ensures Errors(events + [e, p]) == Errors(events) + (if e.Errored? then [e.text] else [])
    ensures Progress(events + [e, p]) == Progress(events) + [p]
  {
    AppendOne(events, e);
    AppendOne(events + [e], p);
    assert events + [e] + [p] == events + [e, p];
  }

  lemma SingleFilters(e: Event)
    ensures Warnings([e]) == if e.Warned? then [e.text] else []
    ensures Errors([e]) == if e.Errored? then [e.text] else []
    ensures Progress([e]) == if e.Progressed? then [e] else []
  {
    assert [e][..0] == [];
  }

  lemma GatherAppend<T>(f: nat -> T, ix: seq<nat>, extra: seq<nat>)
    ensures Gather(f, ix + extra) == Gather(f, ix) + Gather(f, extra)
  {
  }

  /** The completion loop run over the completions in `order`: kept records
      in completion order, one warning per task that returned nothing, one
      error per task that raised, one progress update per completion. */
  function CompletionLoop(files: seq<PdfFile>, outcomes: seq<TaskOutcome>, order: seq<nat>): (b: Batch)
    requires |outcomes| == |files|
    requires InRange(order, |files|)
    ensures b.records == Gather(RecordOf(outcomes), Pick(outcomes, order, Kept))
    ensures Warnings(b.events) == Gather(WarningOf(files), Pick(outcomes, order, NoData))
    ensures Errors(b.events) == Gather(ErrorOf(files, outcomes), Pick(outcomes, order, Failed))
    ensures Progress(b.events) == ProgressUpTo(|order|, |files|)
    ensures order != [] ==>
      b.events != [] && b.events[|b.events| - 1] == Progressed(|order|, |files|, StatusText(|order|, |files|))
    decreases |order|
  {
    if order == [] then Batch([], [])
    else
      var before := CompletionLoop(files, outcomes, order[..|order| - 1]);
      LoopStep(files, outcomes, order, before);
      Complete(before, files[order[|order| - 1]], outcomes[order[|order| - 1]], |order|, |files|)
  }

  /** The inductive step of `CompletionLoop`: folding in one more completion
      keeps its description true. */
  lemma LoopStep(files: seq<PdfFile>, outcomes: seq<TaskOutcome>, order: seq<nat>, before: Batch)
    requires |outcomes| == |files|
    requires InRange(order, |files|) && order != []
    requires InRange(order[..|order| - 1], |files|)
    requires before.records == Gather(RecordOf(outcomes), Pick(outcomes, order[..|order| - 1], Kept))
    requires Warnings(before.events) == Gather(WarningOf(files), Pick(outcomes, order[..|order| - 1], NoData))
    requires Errors(before.events) == Gather(ErrorOf(files, outcomes), Pick(outcomes, order[..|order| - 1], Failed))
    requires Progress(before.events) == ProgressUpTo(|order| - 1, |files|)
    ensures var b := Complete(before, files[order[|order| - 1]], outcomes[order[|order| - 1]], |order|, |files|);
      && b.records == Gather(RecordOf(outcomes), Pick(outcomes, order, Kept))
      && Warnings(b.events) == Gather(WarningOf(files), Pick(outcomes, order, NoData))
      && Errors(b.events) == Gather(ErrorOf(files, outcomes), Pick(outcomes, order, Failed))
      && Progress(b.events) == ProgressUpTo(|order|, |files|)
      && b.events != [] && b.events[|b.events| - 1] == Progressed(|order|, |files|, StatusText(|order|, |files|))
  {
    var prior := order[..|order| - 1];
    var j := order[|order| - 1];
    CompleteStep(before, files[j], outcomes[j], |order|, |files|);
    GatherAppend(RecordOf(outcomes), Pick(outcomes, prior, Kept), if KindOf(outcomes[j]) == Kept then [j] else []);
    GatherAppend(WarningOf(files), Pick(outcomes, prior, NoData), if KindOf(outcomes[j]) == NoData then [j] else []);
    GatherAppend(ErrorOf(files, outcomes), Pick(outcomes, prior, Failed), if KindOf(outcomes[j]) == Failed then [j] else []);
  }

  /** The three branches partition the completions: every completion adds
      exactly one record, one warning or one error. */
  lemma {:induction false} PickPartition(outcomes: seq<TaskOutcome>, order: seq<nat>)
    requires InRange(order, |outcomes|)
    ensures |Pick(outcomes, order, Kept)| + |Pick(outcomes, order, NoData)| + |Pick(outcomes, order, Failed)| == |order|
    decreases |order|
  {
    if order != [] {
      PickPartition(outcomes, order[..|order| - 1]);
    }
  }

  /** Task j appears among the picks of its own kind as often as it appears
      in the completion order, and never among the others. */
  lemma {:induction false} PickCount(outcomes: seq<TaskOutcome>, order: seq<nat>, kind: Kind, j: nat)
    requires InRange(order, |outcomes|)
    requires j < |outcomes|
    ensures multiset(Pick(outcomes, order, kind))[j] == if KindOf(outcomes[j]) == kind then multiset(order)[j] else 0
    decreases |order|
  {
    if order != [] {
      var prior := order[..|order| - 1];
      assert order == prior + [order[|order| - 1]];
      PickCount(outcomes, prior, kind, j);
    }
  }

  /** How many of the tasks are of the given kind. */
  function CountKind(outcomes: seq<TaskOutcome>, kind: Kind): nat
    decreases |outcomes|
  {
    if outcomes == [] then 0
    else CountKind(outcomes[..|outcomes| - 1], kind) + (if KindOf(outcomes[|outcomes| - 1]) == kind then 1 else 0)
  }

  /** Completing the first n tasks in submission order picks each task of
      the kind once. */
  lemma {:induction false} PickInSubmissionOrder(outcomes: seq<TaskOutcome>, n: nat, kind: Kind)
    requires n <= |outcomes|
    ensures |Pick(outcomes, Indices(n), kind)| == CountKind(outcomes[..n], kind)
    decreases n
  {
    if n > 0 {
      assert Indices(n)[..n - 1] == Indices(n - 1);
      assert outcomes[..n][..n - 1] == outcomes[..n - 1];
      PickInSubmissionOrder(outcomes, n - 1, kind);
    }
  }

  /** Picks depend only on which tasks completed, not on the order. */
  lemma PickPermutation(outcomes: seq<TaskOutcome>, p: seq<nat>, q: seq<nat>, kind: Kind)
    requires InRange(p, |outcomes|) && InRange(q, |outcomes|)
    requires multiset(p) == multiset(q)
    ensures multiset(Pick(outcomes, p, kind)) == multiset(Pick(outcomes, q, kind))
  {
    var mp := multiset(Pick(outcomes, p, kind));
    var mq := multiset(Pick(outcomes, q, kind));
    forall j: nat
      ensures mp[j] == mq[j]
    {
      if j < |outcomes| {
        PickCount(outcomes, p, kind, j);
        PickCount(outcomes, q, kind, j);
      } else {
        assert j !in mp && j !in mq;
      }
    }
  }

  /** Dropping the last element of `s` and an equal element of `t` keeps
      two sequences with the same elements. */
  lemma RemoveMatching(s: seq<nat>, t: seq<nat>, i: nat)
    requires multiset(s) == multiset(t)
    requires s != [] && i < |t| && t[i] == s[|s| - 1]
    ensures multiset(s[..|s| - 1]) == multiset(t[..i] + t[i + 1..])
  {
    var x := t[i];
    assert s == s[..|s| - 1] + [x];
    assert t == t[..i] + [x] + t[i + 1..];
    assert multiset(s) == multiset(s[..|s| - 1]) + multiset{x};
    assert multiset(t) == multiset(t[..i] + t[i + 1..]) + multiset{x};
    assert multiset(s[..|s| - 1]) == multiset(s) - multiset{x};
    assert multiset(t[..i] + t[i + 1..]) == multiset(t) - multiset{x};
  }

  /** Gathering through two index lists with the same elements gives the
      same elements. */
  lemma {:induction false} GatherPermutation<T>(f: nat -> T, s: seq<nat>, t: seq<nat>)
    requires multiset(s) == multiset(t)
    ensures multiset(Gather(f, s)) == multiset(Gather(f, t))
    decreases |s|
  {
    if s == [] {
      assert |t| == |multiset(t)| == 0;
    } else {
      var x := s[|s| - 1];
      var s' := s[..|s| - 1];
      assert s == s' + [x];
      assert x in multiset(t);
      var i :| 0 <= i < |t| && t[i] == x;
      var front, back := t[..i], t[i + 1..];
      assert t == front + [x] + back;
      RemoveMatching(s, t, i);
      GatherPermutation(f, s', front + back);
      GatherAppend(f, s', [x]);
      GatherAppend(f, front, [x]);
      GatherAppend(f, front + [x], back);
      GatherAppend(f, front, back);
      assert Gather(f, [x]) == [f(x)];
    }
  }

  /** Whatever the completion order, the tasks of a kind are picked exactly
      as many times as there are tasks of that kind. */
  lemma PickSize(outcomes: seq<TaskOutcome>, order: seq<nat>, kind: Kind)
    requires IsCompletionOrder(order, |outcomes|)
    ensures |Pick(outcomes, order, kind)| == CountKind(outcomes, kind)
  {
    var n := |outcomes|;
    var inOrder := Indices(n);
    assert InRange(inOrder, n);
    PickPermutation(outcomes, order, inOrder, kind);
    assert |Pick(outcomes, order, kind)| == |multiset(Pick(outcomes, order, kind))|;
    assert |Pick(outcomes, inOrder, kind)| == |multiset(Pick(outcomes, inOrder, kind))|;
    PickInSubmissionOrder(outcomes, n, kind);
    assert outcomes[..n] == outcomes;
  }

  /** Two runs that complete the same tasks in different orders keep the
      same records, warnings and errors, as multisets. */
  lemma OrderIndependence(files: seq<PdfFile>, outcomes: seq<TaskOutcome>, p: seq<nat>, q: seq<nat>)
    requires |outcomes| == |files|
    requires IsCompletionOrder(p, |files|) && IsCompletionOrder(q, |files|)
    ensures multiset(CompletionLoop(files, outcomes, p).records) == multiset(CompletionLoop(files, outcomes, q).records)
    ensures multiset(Warnings(CompletionLoop(files, outcomes, p).events)) == multiset(Warnings(CompletionLoop(files, outcomes, q).events))
    ensures multiset(Errors(CompletionLoop(files, outcomes, p).events)) == multiset(Errors(CompletionLoop(files, outcomes, q).events))
  {
    CompletionOrderFacts(p, |files|);
    CompletionOrderFacts(q, |files|);
    PickPermutation(outcomes, p, q, Kept);
    PickPermutation(outcomes, p, q, NoData);
    PickPermutation(outcomes, p, q, Failed);
    GatherPermutation(RecordOf(outcomes), Pick(outcomes, p, Kept), Pick(outcomes, q, Kept));
    GatherPermutation(WarningOf(files), Pick(outcomes, p, NoData), Pick(outcomes, q, NoData));
    GatherPermutation(ErrorOf(files, outcomes), Pick(outcomes, p, Failed), Pick(outcomes, q, Failed));
  }

  /** Each task that returned a record contributes it exactly once; each
      task that returned nothing causes exactly one warning naming its file;
      each task that raised causes exactly one error naming its file and the
      exception text. */
  lemma ExactlyOnce(files: seq<PdfFile>, outcomes: seq<TaskOutcome>, order: seq<nat>, j: nat)
    requires |outcomes| == |files|
    requires IsCompletionOrder(order, |files|)
    requires j < |files|
    ensures multiset(Pick(outcomes, order, KindOf(outcomes[j])))[j] == 1
    ensures forall kind | kind != KindOf(outcomes[j]) :: j !in Pick(outcomes, order, kind)
  {
    CompletionOrderFacts(order, |files|);
    PickCount(outcomes, order, KindOf(outcomes[j]), j);
    forall kind | kind != KindOf(outcomes[j])
      ensures j !in Pick(outcomes, order, kind)
    {
      PickCount(outcomes, order, kind, j);
      assert j !in multiset(Pick(outcomes, order, kind));
    }
  }

  /** `parallel_process_pdfs(files, extract, max_workers)` once the pool has
      reported every task: the pool size is computed first (and can raise),
      then every completion is folded in. */
  function ParallelProcessPdfs(
    files: seq<PdfFile>, outcomes: seq<TaskOutcome>, order: seq<nat>,
    maxWorkers: Option<int>, cpuCount: Option<nat>): (r: Result<Batch, string>)
    requires |outcomes| == |files|
    requires IsCompletionOrder(order, |files|)
    ensures r.Failure? <==> maxWorkers.None? && cpuCount.None?
    ensures r.Success? ==>
      |r.value.records| + |Warnings(r.value.events)| + |Errors(r.value.events)| == |files|
    ensures r.Success? ==> |r.value.records| == CountKind(outcomes, Kept)
    ensures r.Success? ==> |Warnings(r.value.events)| == CountKind(outcomes, NoData)
    ensures r.Success? ==> |Errors(r.value.events)| == CountKind(outcomes, Failed)
    ensures r.Success? ==> r.value.records == Gather(RecordOf(outcomes), Pick(outcomes, order, Kept))
    ensures r.Success? ==> Progress(r.value.events) == ProgressUpTo(|files|, |files|)
    ensures r.Success? && |files| == 0 ==> r.value == Batch([], [])
    ensures r.Success? && |files| > 0 ==>
      r.value.events[|r.value.events| - 1] == Progressed(|files|, |files|, StatusText(|files|, |files|))
  {
    var workers := PoolSize(maxWorkers, cpuCount);
    if workers.Failure? then Failure(workers.error)
    else
      CompletionOrderFacts(order, |files|);
      PickPartition(outcomes, order);
      PickSize(outcomes, order, Kept);
      PickSize(outcomes, order, NoData);
      PickSize(outcomes, order, Failed);
      Success(CompletionLoop(files, outcomes, order))
  }
}
