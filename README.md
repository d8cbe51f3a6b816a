# InterProScan plugin core, modelled in Dafny

This project models the sequential core of the InterProScan plugin for
Geneious. The plugin sends a batch of amino-acid sequence documents to the
EBI InterProScan web service and turns the XML results into sequence
annotations. The model has five modules:

- `Common` (common.dfy): an `Option` type standing for Java's nullable
  references, plus the sequence predicates `Distinct` and `IsSubsequence`.
- `Options` (options.dfy): the `InterproscanOptions` class.
  - It holds the default values of the options.
  - It holds the fixed list of 21 member-database applications.
  - `GetSelectedInterProApps` is an order-preserving filter over that list.
- `ResultParser` (result_parser.dfy): the `XmlParser` class and its setters.
  - The parsed XML document is an abstract `Option<Doc>`. A `Doc` has a
    "has a protein element" flag and its matches in document order.
  - `ParseXml` is proved to equal the total function `Annotate`, and the
    shape of that function's output is proved.
- `Admission` (admission.dfy): the process-wide `RUNNERS` list as a
  sequential queue of distinct tickets (`RunnerQueue`). `OthersAct` models
  what other runners may do to the list while this runner waits.
- `Scheduler` (scheduler.dfy): the `Runner` class.
  - It has the `index` counter, the `activeJobs` and `completedJobs` maps
    and the progress messages.
  - `AddNextJobToQueue` fills the window and `CheckForCompletedJobs` sweeps
    it. `WaitMyTurn` is the admission wait.
  - `RunJobs` is the do-while that keeps at most 15 jobs in flight.
  - `ScanSequences` runs the whole scan and assembles the results in input
    order.

The remote service is the value `Scheduler.Service`, whose fields are oracle
functions:

- `submit(k, request)`: the reply to submitting document k.
- `status(round, k)`: the reply to polling job k in sweep `round`.
- `fetch(k)`: the download of job k's result.
- `cancelled(round, k)`: whether the user has cancelled when job k is about
  to be polled.

The invariant of a runner (`Runner.Valid`) says:

- The two maps have disjoint keys, and together they hold exactly the
  indices `0 .. index-1`.
- Every active entry holds the job recorded for its successful submission.
- A completed entry is `None` exactly when its submission failed.
- The number of progress subtasks begun is `1 + 3*index - |activeJobs|`.

`Runner.Parsed` adds that every result held by a completed job is the
annotation list parsed from that job's own download. On a completed scan:

- `|messages| == 3 * |documents| + 1`, which is the constructor's
  `numMessages`.
- The result list has one entry per document, in input order.
- Entry i is empty or the annotations parsed from job i's download. It is
  always empty when document i's submission failed.

The model follows the code in these behaviours:

- A user cancellation raises `DocumentOperationException.Canceled`. The
  catch-all `catch (Exception e)` in `scanSequences`
  (Runner.java:142-144) wraps it, so a cancelled scan ends as the
  "Unexpected error" failure (`UnexpectedError(Canceled)`), not as a
  distinct cancellation outcome.
- The admission ticket is removed as soon as it reaches the head of the list
  (Runner.java:320). It is not held for the whole run. The `finally` block
  (Runner.java:145-147) removes it again, which has no effect after a
  successful wait.
- In "separately" mode each match is followed by its own whole-sequence
  InterPro term annotation, one per match, with no de-duplication by
  InterPro entry. That mode therefore yields exactly 2 annotations per match.
- The default display mode is taken to be "qualifiers" (see the
  `Options.InterproscanOptions.constructor` line under "Left out"). In that
  mode each match yields exactly one annotation, with no extra whole-sequence
  annotations.
- A document that has a `protein` element but no matches yields no
  annotation at all, whatever the extra-features flag: the match loop simply
  runs zero times (XmlParser.java:68-73), and the "No InterProScan Results"
  placeholder is made only when there is no `protein` element
  (XmlParser.java:146-153).
- An empty batch still waits for its turn and runs one empty sweep.

## Model

All source paths are under `src/main/java/com/michaelrthon/geneiousplugins/interproscan/`.

| member | source | states |
|---|---|---|
| Options.DatabaseNamesDistinct | src/main/java/com/michaelrthon/geneiousplugins/interproscan/InterproscanOptions.java:32-40 | the fixed application list has 21 names, pairwise distinct |
| Options.DefaultDatabases | src/main/java/com/michaelrthon/geneiousplugins/interproscan/InterproscanOptions.java:109-116 | every listed application has a switch, and it is on by default |
| Options.Selected | src/main/java/com/michaelrthon/geneiousplugins/interproscan/InterproscanOptions.java:207-215 | a name is selected iff it is listed and its switch is on; the selection is no longer than the list |
| Options.SelectedIsSubsequence | src/main/java/com/michaelrthon/geneiousplugins/interproscan/InterproscanOptions.java:209-213 | the selection keeps the list's order (it is a subsequence of the list) |
| Options.SelectedDistinct | src/main/java/com/michaelrthon/geneiousplugins/interproscan/InterproscanOptions.java:207-215 | selecting from distinct names gives distinct names |
| Options.AllSelected | src/main/java/com/michaelrthon/geneiousplugins/interproscan/InterproscanOptions.java:207-215 | when every switch is on, the selection is the whole list |
| Options.DefaultSelectionIsFullList | src/main/java/com/michaelrthon/geneiousplugins/interproscan/InterproscanOptions.java:109-116 | with the default switches all 21 applications run, in display order |
| Options.SelectionShape | src/main/java/com/michaelrthon/geneiousplugins/interproscan/InterproscanOptions.java:207-215 | for any switches: an order-preserving choice of at most 21 distinct names |
| Options.InterproscanOptions.constructor | src/main/java/com/michaelrthon/geneiousplugins/interproscan/InterproscanOptions.java:50-116 | defaults: empty email, goterms, pathways and extra features off, mode "qualifiers", every application on |
| Options.InterproscanOptions.GetSelectedInterProApps | src/main/java/com/michaelrthon/geneiousplugins/interproscan/InterproscanOptions.java:207-215 | the loop returns exactly the selection of the switches that are on |
| ResultParser.PrettyDbName | src/main/java/com/michaelrthon/geneiousplugins/interproscan/XmlParser.java:158-181 | the six table names map to their mixed-case forms; every other name is unchanged |
| ResultParser.LocationIntervals | src/main/java/com/michaelrthon/geneiousplugins/interproscan/XmlParser.java:126-134 | one interval per location, in order, with start and end copied |
| ResultParser.AnnotateMatches | src/main/java/com/michaelrthon/geneiousplugins/interproscan/XmlParser.java:72-145 | the matches yield exactly Width(mode) annotations each: 2 in "separately" mode, 1 otherwise |
| ResultParser.Annotate | src/main/java/com/michaelrthon/geneiousplugins/interproscan/XmlParser.java:52-156 | absent document: one "InterProScan Error" placeholder iff extra features are on; no protein: one "No InterProScan Results" placeholder iff on; otherwise Width(mode) per match |
| ResultParser.ProteinWithoutMatches | src/main/java/com/michaelrthon/geneiousplugins/interproscan/XmlParser.java:68-73 | a document with a protein element and no matches yields no annotation, even with extra features on |
| ResultParser.AnnotateMatchesAt | src/main/java/com/michaelrthon/geneiousplugins/interproscan/XmlParser.java:135-143 | match i's annotation sits at position Width(mode)*i, and in "separately" mode its InterPro term follows it directly |
| ResultParser.MatchAnnotationShape | src/main/java/com/michaelrthon/geneiousplugins/interproscan/XmlParser.java:78-134 | the name is the signature name or "unknown"; the type is the pretty library name; qualifiers Database, Id, Name come first; the InterPro ID/Name/Type qualifiers appear exactly in "qualifiers" mode, with the Unintegrated defaults when there is no entry; one interval per location |
| ResultParser.DefaultModeOnePerMatch | src/main/java/com/michaelrthon/geneiousplugins/interproscan/XmlParser.java:120-143 | in the default "qualifiers" mode there is exactly one annotation per match, each with six qualifiers |
| ResultParser.MapMatch | src/main/java/com/michaelrthon/geneiousplugins/interproscan/XmlParser.java:74-143 | the loop body for one match adds exactly that match's annotations |
| ResultParser.XmlParser.constructor | src/main/java/com/michaelrthon/geneiousplugins/interproscan/XmlParser.java:22-50 | the initial fields: mode unset (null), extra features on, length 0 |
| ResultParser.XmlParser.SetFeatType | src/main/java/com/michaelrthon/geneiousplugins/interproscan/XmlParser.java:208-211 | sets the mode and nothing else |
| ResultParser.XmlParser.SetMakeExtraFeats | src/main/java/com/michaelrthon/geneiousplugins/interproscan/XmlParser.java:216-219 | sets the extra-features flag and nothing else |
| ResultParser.XmlParser.SetSeqLength | src/main/java/com/michaelrthon/geneiousplugins/interproscan/XmlParser.java:224-227 | sets the sequence length and nothing else |
| ResultParser.XmlParser.ParseXml | src/main/java/com/michaelrthon/geneiousplugins/interproscan/XmlParser.java:52-156 | the nested loops produce exactly `Annotate` of the document, mode, flag and length |
| Admission.IndexOf | src/main/java/com/michaelrthon/geneiousplugins/interproscan/Runner.java:316 | -1 iff the ticket is absent; otherwise the position of its first occurrence |
| Admission.Without | src/main/java/com/michaelrthon/geneiousplugins/interproscan/Runner.java:320 | removing an absent ticket leaves the list unchanged |
| Admission.WithoutCutsFirst | src/main/java/com/michaelrthon/geneiousplugins/interproscan/Runner.java:320 | removal cuts out exactly the first occurrence |
| Admission.WithoutDistinct | src/main/java/com/michaelrthon/geneiousplugins/interproscan/Runner.java:145-147 | removal from a distinct list drops exactly that ticket and keeps the list distinct |
| Admission.WithoutConcatLeft | src/main/java/com/michaelrthon/geneiousplugins/interproscan/Runner.java:320 | a ticket in the left part is removed there |
| Admission.WithoutConcatRight | src/main/java/com/michaelrthon/geneiousplugins/interproscan/Runner.java:320 | a ticket not in the left part is removed from the right part |
| Admission.WithoutShrinks | src/main/java/com/michaelrthon/geneiousplugins/interproscan/Runner.java:320 | removal never adds a ticket |
| Admission.LeaveKeepsSplit | src/main/java/com/michaelrthon/geneiousplugins/interproscan/Runner.java:145-147 | another runner leaving does not move this runner's ticket relative to the others |
| Admission.RunnerQueue.constructor | src/main/java/com/michaelrthon/geneiousplugins/interproscan/Runner.java:41 | the list starts empty |
| Admission.RunnerQueue.Add | src/main/java/com/michaelrthon/geneiousplugins/interproscan/Runner.java:315 | a fresh ticket is appended at the tail |
| Admission.RunnerQueue.Remove | src/main/java/com/michaelrthon/geneiousplugins/interproscan/Runner.java:320 | the ticket is gone afterwards, the others keep their order, and the result says whether it was listed |
| Admission.OthersAct | src/main/java/com/michaelrthon/geneiousplugins/interproscan/Runner.java:314-321 | other runners arriving and leaving keep this runner's ticket in place: everything ahead of it was listed before it arrived, and nothing new overtakes it |
| Scheduler.TrimTerminator | src/main/java/com/michaelrthon/geneiousplugins/interproscan/Runner.java:228-230 | exactly one trailing `*` is removed when present; otherwise the string is unchanged |
| Scheduler.Classify | src/main/java/com/michaelrthon/geneiousplugins/interproscan/Runner.java:162-186 | QUEUED and RUNNING (only) stay active; only FINISHED fetches results; everything else fails |
| Scheduler.ResultOf | src/main/java/com/michaelrthon/geneiousplugins/interproscan/Runner.java:132-137 | an empty result for a null job or a null result, else the job's result |
| Scheduler.Runner.constructor | src/main/java/com/michaelrthon/geneiousplugins/interproscan/Runner.java:71-88 | copies the options, the selected applications, and numMessages = 3n+1 |
| Scheduler.Runner.CompletedEntryAgrees | src/main/java/com/michaelrthon/geneiousplugins/interproscan/Runner.java:132-137 | the result of a valid completed entry is empty, or the annotations of its own download |
| Scheduler.Runner.SkipKeepsResultsParsed | src/main/java/com/michaelrthon/geneiousplugins/interproscan/Runner.java:213 | recording a null completed entry keeps every held result parsed |
| Scheduler.Runner.ShapeAfterActivate | src/main/java/com/michaelrthon/geneiousplugins/interproscan/Runner.java:208-211 | activating a submission keeps the key partition and the message count |
| Scheduler.Runner.ShapeAfterSkip | src/main/java/com/michaelrthon/geneiousplugins/interproscan/Runner.java:212-217 | skipping a submission keeps the key partition and the message count |
| Scheduler.Runner.ActivateKeepsEntries | src/main/java/com/michaelrthon/geneiousplugins/interproscan/Runner.java:208-209 | the new active job is the one recorded for that submission |
| Scheduler.Runner.SkipKeepsEntries | src/main/java/com/michaelrthon/geneiousplugins/interproscan/Runner.java:212-213 | the null entry of a failed submission is a valid completed entry |
| Scheduler.Runner.AddNextJobToQueue | src/main/java/com/michaelrthon/geneiousplugins/interproscan/Runner.java:201-219 | the next document gets key `index`, and index rises by 1; a job id makes it active with two subtasks; a null or empty id completes it as null with three subtasks and takes no slot; the invariant is kept |
| Scheduler.Runner.PostProcessResults | src/main/java/com/michaelrthon/geneiousplugins/interproscan/Runner.java:284-303 | the result is the annotations parsed from the job's download with the runner's mode and flag, or empty when the temporary file fails |
| Scheduler.Runner.SweptStep | src/main/java/com/michaelrthon/geneiousplugins/interproscan/Runner.java:158-188 | visiting key k adds k to the swept entries exactly when it is active and terminal |
| Scheduler.Runner.SweepKeepsShape | src/main/java/com/michaelrthon/geneiousplugins/interproscan/Runner.java:156-191 | after a sweep the maps still partition 0..index-1, and each completed job has begun its third subtask |
| Scheduler.Runner.SweepKeepsActiveEntries | src/main/java/com/michaelrthon/geneiousplugins/interproscan/Runner.java:163-165 | the jobs left active are unchanged valid entries |
| Scheduler.Runner.SweepKeepsCompletedEntries | src/main/java/com/michaelrthon/geneiousplugins/interproscan/Runner.java:167-186 | the jobs completed by a sweep keep the same key and job |
| Scheduler.Runner.SweepKeepsResultsParsed | src/main/java/com/michaelrthon/geneiousplugins/interproscan/Runner.java:167-175 | a FINISHED job completes with the annotations of its own download |
| Scheduler.Runner.DroppedStep | src/main/java/com/michaelrthon/geneiousplugins/interproscan/Runner.java:190 | removing one more key drops exactly that key |
| Scheduler.Runner.DroppedTerminal | src/main/java/com/michaelrthon/geneiousplugins/interproscan/Runner.java:189-190 | removing the collected keys leaves exactly the QUEUED/RUNNING jobs |
| Scheduler.Runner.CheckJob | src/main/java/com/michaelrthon/geneiousplugins/interproscan/Runner.java:159-187 | a cancellation stops before the poll; a pending job is untouched; FINISHED completes it with its parsed results and a "Getting results" subtask; any other status completes it as is, with an error subtask carrying name, job id and status |
| Scheduler.Runner.RemoveJobs | src/main/java/com/michaelrthon/geneiousplugins/interproscan/Runner.java:190 | exactly the given keys leave the active map |
| Scheduler.Runner.SweepActive | src/main/java/com/michaelrthon/geneiousplugins/interproscan/Runner.java:157-188 | without cancellation the terminal keys are collected once each, each completed under its key, with one subtask per completed job |
| Scheduler.Runner.SweepKey | src/main/java/com/michaelrthon/geneiousplugins/interproscan/Runner.java:158-187 | one iteration of the sweep: an active key with a terminal status is completed under its key and recorded once for removal, with one subtask; any other key changes nothing |
| Scheduler.Runner.CheckForCompletedJobs | src/main/java/com/michaelrthon/geneiousplugins/interproscan/Runner.java:156-191 | the active map becomes exactly the QUEUED/RUNNING jobs, the terminal ones move to the completed map under the same key, and the invariant is kept; a cancellation leaves the active map untouched |
| Scheduler.Runner.WaitMyTurn | src/main/java/com/michaelrthon/geneiousplugins/interproscan/Runner.java:314-321 | the ticket is appended, and when admitted it was first, every runner that was waiting before has left, and it is removed with the others kept in order; a cancellation leaves it listed |
| Scheduler.Runner.RunJobs | src/main/java/com/michaelrthon/geneiousplugins/interproscan/Runner.java:114-129 | the window never holds more than 15 jobs; the loop ends normally only with no active job and every document submitted |
| Scheduler.AssembleResults | src/main/java/com/michaelrthon/geneiousplugins/interproscan/Runner.java:132-137 | one result per submission index, and entry i is the result of completed entry i (empty for a null job or result) |
| Scheduler.Runner.ScanSequences | src/main/java/com/michaelrthon/geneiousplugins/interproscan/Runner.java:99-150 | the ticket is never left listed; a completed scan has 3n+1 subtasks, every index completed, and n results in input order, each empty or parsed from its own job's download (empty for a failed submission) |

## Left out

- HTTP traffic is not modelled. `submitNewJob`, `Job.checkStatus` and `Job.downloadResults` (Runner.java:232-262, 338-376) are the oracle fields of `Service`. An exception in `checkStatus` is modelled as the status reply "ERROR", and a failed download as an unparsable document.
- The form body posts only the sequence, email, goterms and pathways (Runner.java:240-243), not `appl` or `featType`. The model passes the whole request to the oracle and does not model the request string.
- `addNextJobToQueue` submits through a helper `new Runner(documents, null, progress)` (Runner.java:206), whose constructor dereferences the null options (Runner.java:82). The model submits from the runner itself and does not model that helper construction.
- Thread sleeps, the thread safety of the synchronized `RUNNERS` list, and `InterruptedException` are not modelled. The admission list is a sequential queue. What other runners do while this one waits is an explicit sequence of `GateEvent`s.
- Scheduler.Runner.RunJobs: termination is not claimed, because it depends on the service eventually reporting a terminal status. The do-while runs on a fuel bound `maxSweeps` and ends with `OutOfPolls` when the bound is exhausted.
- Scheduler.Runner.WaitMyTurn: the wait loop is driven by a finite list of polls and ends with `WaitExhausted` when the list runs out.
- `HashMap` iteration order is modelled as ascending key order, both in the sweep and in the result assembly. Hash-table internals are not modelled.
- XML parsing itself (`DocumentBuilder`, XPath, UTF-8 decoding; XmlParser.java:29-50, 183-203) is replaced by the abstract `Doc`.
- Malformed matches are outside the `Doc` datatype:
  - a missing signature, library or `ac` attribute;
  - a non-numeric start or end.
  In the source these throw an uncaught exception that becomes the batch's "Unexpected error".
- ResultParser.XmlParser.ParseXml: requires the display mode to be set whenever a match is mapped. With a null mode and at least one match, the source throws a `NullPointerException`; this path is excluded rather than modelled.
- Options.InterproscanOptions.constructor: the default display mode is taken to be the chosen option value's name, "qualifiers". `getFeatureType` returns `featureType.getValue().toString()` (InterproscanOptions.java:141), and `OptionValue.toString` belongs to the host API, which is not part of this model. If it returned the label ("As Qualifiers", InterproscanOptions.java:97), neither mode test in `parseXml` (XmlParser.java:120, 137) would hold, and each match would get only its three base qualifiers.
- Scheduler.Runner.constructor: requires every listed application to have a switch, as `getSelectedInterProApps` dereferences the switch of every listed name.
- Temporary files, file reading, logging and the progress bar are not modelled. The progress listener is the list of subtasks begun, `messages`.
- Job objects are values in the model. Java shares one `Job` object between the two maps, which the model does not capture.
- The Swing options panel, email validation, and the plugin wiring classes are not part of this model.
- Integer widths are not modelled. Indices, lengths and interval bounds are unbounded integers; a batch of more than 2^31 documents is not considered.
