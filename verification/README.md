# EOB batch extractor — a Dafny model

This project models the sequential core of a small Streamlit application.
The application extracts Explanation of Benefits (EOB) data from uploaded PDF
files. Two pieces are modelled.

- **Batch processing** (`parallel_utils.py`).
  - `process_single_pdf` copies an upload into a temporary file, runs the
    extraction function on it, and deletes the file on the way out.
  - `parallel_process_pdfs` picks a pool size and submits one task per file.
    It then folds the completions, in whatever order they arrive, into a list
    of records, warnings, errors and progress updates.
- **Record assembly** (`main.py`, lines 19–97).
  - The `extract_*` helpers turn regular-expression matches into optional
    values.
  - `extract_pdf_data` turns those values into a fifteen-key record, with the
    defaults `"N/A"`, `None`, `"$0.00"` and `0`.

What is abstracted:

- The process pool becomes a completion order: a permutation of the
  submission indices, given as an input. What each task hands back is given
  per task, as a returned value or a raised exception (`Completion`).
- Each regular expression is an oracle from the text to the capture groups of
  all its matches, leftmost first. `re.search` and `re.findall(...)[0]` are
  the head of that list. What a pattern guarantees about its captures is kept
  in types: the grand totals are twelve `$<digits>.<two digits>` tokens.
- The PDF parser is an oracle that returns the texts of the documents it
  found, or raises.
- Money is exact integer cents (`Strings.Cents`), not `float`.
- The filesystem appears only as outcomes the model is told: whether the
  temporary file could be written, and what `os.unlink` did.

Modules:

| module | file | contents |
|---|---|---|
| `Wrappers` | `wrappers.dfy` | `Option`, `Result`, `Completion` |
| `Strings` | `strings.dfy` | digits, decimal text, `str.strip`, `str.replace`, money tokens |
| `Values` | `values.dfy` | record values, insertion-ordered dictionaries, truthiness |
| `TempFile` | `temp_file.dfy` | `process_single_pdf` |
| `Dispatcher` | `dispatcher.dfy` | pool size and the completion loop |
| `Eob` | `eob.dfy` | the extractors and `extract_pdf_data` |
| `Pipeline` | `pipeline.dfy` | the two put together, as the upload page uses them |

Four behaviours of the code are easy to miss, and the model keeps them.

- The temporary file is not removed on every path. It is created and
  written before the `try` at parallel_utils.py:13. If the write raises, the
  extractor is never called, the `finally` block never runs, and the file
  stays behind. If creating the file raises, no file exists
  (`TempFile.ProcessSinglePdf`).
- Not every deletion failure is swallowed. The `finally` block catches only
  `PermissionError` and `FileNotFoundError`. Any other `OSError` from
  `os.unlink` replaces the task's result or exception, so the task lands in
  the error branch (`TempFile.Cleanup`, `TempFile.Finally`).
- The pool size can fail. `os.cpu_count()` may return `None`, and then
  `None - 1` raises a `TypeError` before any task is submitted
  (`Dispatcher.PoolSize`).
- The EFT amount capture matches `[0-9,]+\.[0-9]{2}`. The model keeps that
  shape in the type of the capture (`Eob.EftAmountText`), so an extracted
  amount can never be the text `"N/A"`.

## Model

| member | source | states |
|---|---|---|
| TempFile.Materialize | parallel_utils.py:9-11 | The block raises exactly when creating the file or writing it fails, with that error's message. The file exists afterwards unless creating it failed. |
| TempFile.Cleanup | parallel_utils.py:19-22 | Deletion raises exactly for an `OSError` other than `PermissionError` and `FileNotFoundError`. The file is gone exactly when it was removed or already missing. |
| TempFile.Finally | parallel_utils.py:13-22 | An exception raised in `finally` replaces the body's value or exception; otherwise the body's outcome passes through. |
| TempFile.ProcessSinglePdf | parallel_utils.py:7-22 | The extractor runs, and deletion is tried, exactly when the write succeeded. Its value or exception is handed back unchanged unless deletion raised something unexpected. A failed creation or write re-raises its error. The file is gone afterwards exactly when it was never created, or when it was written and then removed or found missing. |
| Dispatcher.PoolSize | parallel_utils.py:32-34 | A supplied `max_workers` is used unchanged. Otherwise the size is at least 1 and at least the core count minus 1, and it is exactly that when it exceeds 1. An unknown core count is an error. |
| Dispatcher.StatusRoundTrip | parallel_utils.py:59 | The status line `Processing PDFs: i/total` reads back as exactly `i` and `total`. |
| Dispatcher.CompleteStep | parallel_utils.py:47-59 | One pass of the loop body (`Dispatcher.Complete`) adds exactly one of: the record (truthy result), a warning naming the file (falsy result), or an error naming the file and message (exception). It then adds one progress update, which is the last event. |
| Dispatcher.CompletionLoop | parallel_utils.py:45-59 | After any prefix of the completion order: the records are the truthy results of the tasks completed so far, in completion order. The warnings and errors are those of the falsy and failed tasks, in completion order. The progress updates are `1/total` … `k/total`, and the last event is the `k/total` update. |
| Dispatcher.LoopStep | parallel_utils.py:45-59 | Completing one more task extends each of those four facts from k tasks to k+1. |
| Dispatcher.FiltersAppend | parallel_utils.py:50-59 | The warnings, errors and progress updates of a concatenated event log are those of its parts, concatenated. |
| Dispatcher.PickPartition | parallel_utils.py:47-54 | Every completed task falls in exactly one of the three branches: the counts of kept, empty and failed tasks add up to the number of completions. |
| Dispatcher.PickCount | parallel_utils.py:47-54 | A task appears in its own branch as often as it appears in the completion order, and in no other branch. |
| Dispatcher.PickPermutation | parallel_utils.py:45-50 | Two completion orders that are permutations of each other select the same multiset of tasks for each branch. |
| Dispatcher.GatherPermutation | parallel_utils.py:45-54 | Reporting the same multiset of tasks in another order yields the same multiset of records, warnings or errors. |
| Dispatcher.PickInSubmissionOrder | parallel_utils.py:41-50 | Taken in submission order, the tasks of one branch are exactly as many as the tasks of that kind. |
| Dispatcher.PickSize | parallel_utils.py:41-54 | For any completion order, each branch handles exactly as many tasks as there are tasks of its kind. |
| Dispatcher.OrderIndependence | parallel_utils.py:45-54 | As multisets, the returned records, the warnings and the errors do not depend on the completion order. |
| Dispatcher.ExactlyOnce | parallel_utils.py:41-54 | Every submitted task is handled exactly once, in the branch of its own outcome, and appears in no other branch. |
| Dispatcher.ParallelProcessPdfs | parallel_utils.py:24-65 | It fails exactly when no `max_workers` is given and the core count is unknown. Otherwise: records + warnings + errors = number of files. The records are the truthy results in completion order, one per truthy task. There is one warning per falsy result and one error per raised task. Progress reads `1/n` … `n/n` and ends at `n/n`. Zero files give no records and no events. |
| Eob.FirstMatch | main.py:36 | The first match, or `None` exactly when there is none. |
| Eob.ExtractPaymentInfo | main.py:19-31 | Nothing paid gives `"N/A"` three times, whatever the text. Otherwise: no EFT match gives `None` three times. A match gives the stripped number and date. The amount is the stripped capture with every comma removed and every other character kept, in order and with its count. No returned amount contains a comma. |
| Eob.ExtractClaimNumber | main.py:33-36 | The first match's group, or `None` exactly when there is no match. |
| Eob.ExtractGrandTotals | main.py:38-48 | Always the twelve categories in their fixed order. With no match every value is `"$0.00"`; with a match, category k holds capture group k. |
| Eob.ExtractCorrectedPatientName | main.py:50-53 | The first match, or `None` exactly when there is none. |
| Eob.ExtractDateOfService | main.py:55-58 | The first (start, end) match, or `(None, None)` exactly when there is none. |
| Eob.AmountsOf | main.py:73 | The mapped totals keep the keys in order, and each value is its token read as cents. |
| Eob.ToDict | main.py:79-95 | The record's keys are exactly the fifteen listed keys, in order. |
| Eob.ExtractPdfData | main.py:60-97 | `None` exactly when the parser found no document. Otherwise a truthy dictionary with the fifteen keys. |
| Eob.RecordKeysDistinct | main.py:79-95 | The fifteen keys are pairwise distinct. |
| Eob.RecordFields | main.py:79-95 | Looking up each of the fifteen keys finds the field of that name. |
| Eob.GrandTotalsLookup | main.py:42-48 | Looking up category k finds capture group k, or `"$0.00"` without a match; its amount (the conversion at line 73) is that token in cents. |
| Eob.AmountsByName | main.py:73-88 | The seven categories the record reads hold the cents of capture groups 0, 1, 3, 6, 7, 8 and 11. |
| Eob.RecordCharges | main.py:82-88 | In the record `Eob.BuildRecord` assembles, Line Charge, Allowed, Contractual and Paid hold the cents of their own captures. |
| Eob.RecordShares | main.py:74-89 | In the record `Eob.BuildRecord` assembles, Copay, Deductible and Coinsurance hold the cents of their own captures, and Total PTR is copay + coinsurance + deductible. |
| Eob.RecordPayment | main.py:75-93 | In the record `Eob.BuildRecord` assembles, the number and date from `extract_payment_info` pass through, with `None` kept as `None`. The processed date repeats the EFT date. The EFT amount is 0 exactly when the extracted amount is `"N/A"`, and the extracted value otherwise. |
| Eob.RecordText | main.py:76-94 | In the record `Eob.BuildRecord` assembles, the corrected name passes through undefaulted. The service date and the claim number fall back to `"N/A"` when missing or empty. |
| Eob.Entries | main.py:63-95 | Every key of the returned dictionary holds the matching field of the first document's record. |
| Eob.FirstDocumentOnly | main.py:63-64 | Only the first document's text is read: two parses that agree on it give the same result. |
| Eob.MoneyEntries | main.py:73-88 | The money entries hold the cents of their categories' captures. |
| Eob.TotalPtrEntry | main.py:74-89 | The Total PTR entry is the sum of the Copay, Coinsurance and Deductible entries. |
| Eob.TextEntries | main.py:76-94 | The name, service-date and claim-number entries, with their `"N/A"` defaults, read off the first document. |
| Eob.ProcessedIsEftDate | main.py:92-93 | The processed/denial date entry always equals the EFT date entry. |
| Eob.NothingPaid | main.py:90-93 | Through the `else` branch at lines 30-31, a zero Paid amount makes the number and both dates `"N/A"` and the EFT amount 0, whatever the text says. |
| Eob.PaidWithoutEft | main.py:90-93 | Through lines 28-29, a positive Paid amount with no EFT block makes all four payment entries `None`. |
| Eob.PaidWithEft | main.py:90-93 | Through lines 23-27, a positive Paid amount with an EFT block gives the stripped number and date. The EFT amount entry is the string `Strings.RemoveChar` makes of the stripped capture: no comma, every other character kept in order. |
| Eob.EftAmountNoLetter | main.py:21 | The EFT amount capture holds only digits, commas and the decimal point, so no letter such as the `N` of `"N/A"`. |
| Eob.EftAmountZero | main.py:91 | The EFT amount entry is 0 exactly when the Paid amount is 0. |
| Eob.NoTotalsAmounts | main.py:47-48 | Without a grand-totals match, every category the record reads is 0 cents. |
| Eob.RecordNoTotals | main.py:73-89 | Without a grand-totals match, all eight money fields are 0. |
| Eob.NoTotalsUnpaid | main.py:75 | Without a grand-totals match, nothing is paid, so the payment is `"N/A"` three times. |
| Eob.NoTotalsTable | main.py:70-93 | Without a grand-totals match, every money entry is 0, the check number, the EFT date and the processed/denial date are `"N/A"`, and the EFT amount is 0. |
| Strings.Strip | main.py:24-26 | `strip()` leaves neither end in the strip set and leaves a string alone whose ends are already outside it. |
| Strings.StripSlice | main.py:24-26 | `strip()` returns a contiguous piece of the string; everything removed before and after it is in the strip set. |
| Strings.StripLeft | main.py:24-26 | What is removed from the left is all in the strip set; what remains is a suffix and does not start with one. |
| Strings.StripRight | main.py:24-26 | What is removed from the right is all in the strip set; what remains is a prefix and does not end with one. |
| Strings.StripKeeps | main.py:24-26 | Stripping never introduces a character. |
| Strings.RemoveCharCounts | main.py:26 | `replace(',', '')` leaves no comma, and keeps every other character as often as it occurred. |
| Strings.RemoveCharAbsent | main.py:26 | `replace(',', '')` leaves a string without commas unchanged. |
| Strings.RemoveCharSingle | main.py:26 | One character is dropped exactly when it is the comma. |
| Strings.RemoveCharAppend | main.py:26 | Removing commas from a concatenation removes them from each part, so the characters that stay keep their order. |
| Strings.StripDollar | main.py:73 | `strip('$')` of a grand-totals token removes exactly its leading dollar sign. |
| Strings.CentsParts | main.py:73 | Read by `Strings.Cents`, a token is worth its dollar digits × 100 plus its cent digits. |
| Strings.CentsZero | main.py:20 | A token is worth 0 exactly when every digit in it is `0`: the `> 0` test fails exactly then. |
| Strings.MoneyRoundTrip | main.py:73 | Formatting an amount as a token and reading it back with `Strings.Cents` gives the amount. |
| Strings.ZeroToken | main.py:48 | The default `"$0.00"` is worth 0. |
| Strings.DecimalRoundTrip | parallel_utils.py:59 | `str(n)` read back as digits gives `n`. |
| Pipeline.Extract | main.py:60-67 | Running the extractor on a parse: the parser's exception propagates. Otherwise the result is truthy exactly when there was a document, and has the fifteen keys. |
| Pipeline.TaskKind | parallel_utils.py:9-54 | An upload is kept exactly when its temporary file was created and written, parsed to at least one document, and deleted without an unexpected error. It is a warning exactly when such an upload parsed to nothing. Every other case is an error. A kept upload's record is the first document's. |
| Pipeline.TaskError | parallel_utils.py:9-54 | A failed upload's message is the error of creating or writing the file, else the unexpected unlink error, else the parser's exception. |
| Pipeline.NoUploads | parallel_utils.py:36-65 | Through `Pipeline.ProcessBatch` (the call at main.py:124), no uploads return no records and report nothing. |
| Pipeline.ThreeUploads | parallel_utils.py:24-65 | Through `Pipeline.ProcessBatch` (the call at main.py:124), a good, an empty and a failing upload, completed in any order, give the good file's record, one warning naming the empty file, one error naming the failing file with the parser's message, and a final `3/3` status. |

## Left out

- The process pool, `as_completed` and process isolation: the completion order is an input permutation and each task's outcome is given.
- The executor's `ValueError` for a `max_workers` of 0 or less: library behaviour, outside the code shown.
- Streamlit (`st.progress`, `st.empty`, `st.warning`, `st.error` and the page at main.py:108-194): warnings, errors and progress are an event log. The progress fraction `(i + 1) / total` is carried as the two counters of the status line. Clearing the bar at the end is not modelled.
- The LlamaParse PDF-to-text service: an oracle returning document texts or raising.
- Regular-expression semantics: each pattern is an oracle returning its matches.
- Floating point: amounts are exact cents, so the Total PTR sum has no rounding error.
- `float()` on non-ASCII digits: the grand-totals pattern `\d` also matches other Unicode digits, but the model takes ASCII digits only.
- `format_currency`, the dataframe, the date sorting, the Excel export and the download (main.py:99-194): presentation, outside the core.
- The `print` when the parser finds no document: console output only.
- Temporary file names, their `.pdf` suffix and their uniqueness: the model tracks only whether the file exists. The uploaded bytes matter only to the write, whose outcome is an input.
- Exceptions that are not `Exception`s (for example `KeyboardInterrupt`): these would escape the loop; the model has only ordinary exceptions.
