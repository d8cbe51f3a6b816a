/** The batch scheduler of InterProScan runs. A runner waits for its turn in
    the admission list, then keeps a window of at most 15 remote jobs filled,
    sweeps the window for jobs that reached a terminal status, and finally
    puts the per-document results back in input order.

    The remote service is an oracle (`Service`): the reply to each
    submission, each status poll and each result download, and the
    cancellation flag at each check, are given in advance as functions of
    where in the run the call happens. */
module Scheduler {
  import opened Common
  import opened Options
  import opened ResultParser
  import opened Admission

  /** At most this many jobs are in flight (half of the service's per-user limit). */
  const MaxConcurrentJobs: nat := 15

  /** An amino-acid sequence document: its name and its residues. */
  datatype SequenceDocument = SequenceDocument(name: string, residues: string)

  /** The residues without a trailing stop symbol: exactly one `*` is removed
      when the string ends with one, otherwise the string is unchanged. */
  function TrimTerminator(s: string): (t: string)
    ensures t == s || t + "*" == s
    ensures t == s <==> |s| == 0 || s[|s| - 1] != '*'
  {
    if |s| > 0 && s[|s| - 1] == '*' then s[..|s| - 1] else s
  }

  /** What a status reply means for the sweep. */
  datatype StatusClass = Pending | Finished | Failed

  /** The sweep's reading of a status reply: QUEUED and RUNNING keep the job
      active, FINISHED has its results fetched, and every other reply (ERROR,
      NOT_FOUND, FAILURE, an unrecognised string, or the ERROR reported when
      the status request itself fails) ends the job as failed. */
  function Classify(status: string): (c: StatusClass)
    ensures c == Pending <==> status == "QUEUED" || status == "RUNNING"
    ensures c == Finished <==> status == "FINISHED"
  {
    if status == "QUEUED" || status == "RUNNING" then Pending
    else if status == "FINISHED" then Finished
    else Failed
  }

  /** The arguments of one submission request. */
  datatype Submission = Submission(
    sequence: string,
    email: string,
    appl: seq<string>,
    featType: string,
    goterms: bool,
    pathways: bool)

  /** The outcome of fetching one job's result: the temporary file could not
      be made or read, or the downloaded text parsed to a document (or not). */
  datatype Download = TempFileError | Downloaded(doc: Option<Doc>)

  /** The remote service and the user, seen as oracles.
      submit(k, request): the reply to submitting document k (`None` for null).
      status(r, k): the reply to polling job k in sweep r.
      fetch(k): the download of job k's result.
      cancelled(r, k): whether the user has cancelled when job k is about to be polled in sweep r. */
  datatype Service = Service(
    submit: (nat, Submission) -> Option<string>,
    status: (nat, nat) -> string,
    fetch: nat -> Download,
    cancelled: (nat, nat) -> bool)

  /** A submission succeeded when it returned a non-null, non-empty job id. */
  predicate SubmissionOk(reply: Option<string>) {
    reply.Some? && reply.value != ""
  }

  /** The bookkeeping of one submitted job; `result` is null until its results are processed. */
  datatype Job = Job(jobid: string, name: string, sequenceLength: nat, result: Option<seq<Annotation>>)

  /** The subtask labels shown on the progress bar. */
  datatype Progress =
    | WaitingToExecute
    | SubmittingJob(name: string)
    | AwaitingResults(name: string)
    | SubmissionError(name: string)
    | Skipped(name: string)
    | GettingResults(name: string)
    | ErrorOccurred(name: string, jobid: string, status: string)

  /** The result reported for a completed entry: the job's annotations, or
      an empty result when the submission failed or no result was made. */
  function ResultOf(entry: Option<Job>): (r: seq<Annotation>)
    ensures entry.None? || entry.value.result.None? ==> r == []
    ensures entry.Some? && entry.value.result.Some? ==> r == entry.value.result.value
  {
    if entry.Some? && entry.value.result.Some? then entry.value.result.value else []
  }

  /** One poll of the waiting loop: what other runners do to the admission
      list during the pause, then whether the user has cancelled. */
  datatype WaitStep = WaitStep(others: seq<GateEvent>, cancelled: bool)

  datatype WaitOutcome = Admitted | WaitCanceled | WaitExhausted

  /** The only exception a modelled run raises. */
  datatype Interruption = Canceled

  /** How a scan ends: with one result per document; with the "Unexpected
      error" failure that wraps the cancellation; or, in the model only,
      because the given number of polls ran out. */
  datatype ScanOutcome =
    | Completed(results: seq<seq<Annotation>>)
    | UnexpectedError(cause: Interruption)
    | OutOfPolls

  ghost predicate FreshWaitArrivals(steps: seq<WaitStep>, seen: set<Ticket>, me: Ticket) {
    forall i :: 0 <= i < |steps| ==> FreshArrivals(steps[i].others, seen, me)
  }

  /** Puts each completed entry's result at its submission index, visiting
      the indices in ascending order: one result per index below `count`. */
  method AssembleResults(completed: map<nat, Option<Job>>, count: nat) returns (results: seq<seq<Annotation>>)
    requires forall k: nat :: k < count ==> k in completed
    ensures |results| == count
    ensures forall i :: 0 <= i < count ==> results[i] == ResultOf(completed[i])
  {
    results := [];
    for pos := 0 to count
      invariant |results| == pos
      invariant forall i :: 0 <= i < pos ==> results[i] == ResultOf(completed[i])
    {
      results := results[..pos] + [ResultOf(completed[pos])] + results[pos..];
    }
  }

  class Runner {
    const documents: seq<SequenceDocument>
    const service: Service
    /** This runner's admission ticket. */
    const myKey: Ticket
    /** The number of progress subtasks announced up front: submitting,
        awaiting and getting results per document, plus the start. */
    const numMessages: nat := |documents| * 3 + 1
    const goterms: bool
    const pathways: bool
    const email: string
    const appl: seq<string>
    const featType: string
    const extraFeatures: bool

    /** The submission index of the next document. */
    var index: nat
    /** Submitted jobs not yet in a terminal status, by submission index. */
    var activeJobs: map<nat, Job>
    /** Finished, failed and never-submitted (`None`) jobs, by submission index. */
    var completedJobs: map<nat, Option<Job>>
    /** The progress subtasks begun so far. */
    var messages: seq<Progress>

    constructor (documents: seq<SequenceDocument>, options: InterproscanOptions, service: Service, myKey: Ticket)
      requires options.Valid()
      ensures this.documents == documents && this.service == service && this.myKey == myKey
      ensures numMessages == |documents| * 3 + 1
      ensures goterms == options.goTerms && pathways == options.pathways && email == options.emailAddress
      ensures appl == Selected(DatabaseNames, options.databases)
      ensures featType == options.featureType && extraFeatures == options.extraFeature
      ensures index == 0 && activeJobs == map[] && completedJobs == map[] && messages == []
    {
      this.documents := documents;
      this.service := service;
      this.myKey := myKey;
      goterms := options.goTerms;
      pathways := options.pathways;
      email := options.emailAddress;
      var selected := options.GetSelectedInterProApps();
      appl := selected;
      featType := options.featureType;
      extraFeatures := options.extraFeature;
      index := 0;
      activeJobs := map[];
      completedJobs := map[];
      messages := [];
    }

    /** The request sent for document k. */
    function Request(k: nat): Submission
      requires k < |documents|
    {
      Submission(TrimTerminator(documents[k].residues), email, appl, featType, goterms, pathways)
    }

    function Reply(k: nat): Option<string>
      requires k < |documents|
    {
      service.submit(k, Request(k))
    }

    /** The job recorded for document k when its submission succeeded. */
    function SubmittedJob(k: nat): Job
      requires k < |documents| && SubmissionOk(Reply(k))
    {
      Job(Reply(k).value, documents[k].name, |TrimTerminator(documents[k].residues)|, None)
    }

    /** The annotations made from job k's download. */
    function Retrieved(k: nat, sequenceLength: nat): seq<Annotation> {
      match service.fetch(k)
      case TempFileError => []
      case Downloaded(doc) => Annotate(doc, featType, extraFeatures, sequenceLength)
    }

    function Verdict(round: nat, k: nat): StatusClass {
      Classify(service.status(round, k))
    }

    /** An active entry holds the job recorded by a successful submission. */
    ghost predicate ActiveOk(k: nat, job: Job) {
      k < |documents| && SubmissionOk(Reply(k)) && job == SubmittedJob(k)
    }

    /** A completed entry is `None` exactly when the submission failed, and
        otherwise holds the submitted job (with or without results). */
    ghost predicate EntryOk(k: nat, entry: Option<Job>) {
      && k < |documents|
      && match entry
         case None => !SubmissionOk(Reply(k))
         case Some(job) =>
           && SubmissionOk(Reply(k))
           && job.(result := None) == SubmittedJob(k)
    }

    /** Every result held by a completed job is the annotations parsed from
        that job's download. */
    ghost predicate ResultsParsed(completed: map<nat, Option<Job>>) {
      forall k :: k in completed && completed[k].Some? && completed[k].value.result.Some? ==>
        completed[k].value.result.value == Retrieved(k, completed[k].value.sequenceLength)
    }

    ghost predicate Parsed()
      reads this
    {
      ResultsParsed(completedJobs)
    }

    /** What the result reported for document i may be: empty when its
        submission failed; otherwise empty (the job did not finish, or no
        result was made) or the annotations parsed from its download. */
    ghost predicate ResultAgrees(i: nat, r: seq<Annotation>)
      requires i < |documents|
    {
      if SubmissionOk(Reply(i)) then r == [] || r == Retrieved(i, |TrimTerminator(documents[i].residues)|)
      else r == []
    }

    /** The result of a valid completed entry agrees with its document. */
    lemma CompletedEntryAgrees(completed: map<nat, Option<Job>>, i: nat)
      requires CompletedEntriesOk(completed) && ResultsParsed(completed) && i in completed
      ensures i < |documents| && ResultAgrees(i, ResultOf(completed[i]))
    {
      assert EntryOk(i, completed[i]);
      if completed[i].Some? {
        var job := completed[i].value;
        assert job.sequenceLength == SubmittedJob(i).sequenceLength by {
          assert job.(result := None) == SubmittedJob(i);
        }
      }
    }

    /** Recording a skipped submission keeps every held result parsed. */
    lemma SkipKeepsResultsParsed(completed: map<nat, Option<Job>>, k: nat)
      requires ResultsParsed(completed)
      ensures ResultsParsed(completed[k := None])
    {
    }

    /** Every submitted index is in exactly one of the two maps, and each
        submitted document has begun three progress subtasks once completed
        and two while active (the start is the one more). */
    ghost predicate Shape(next: nat, active: map<nat, Job>, completed: map<nat, Option<Job>>, messageCount: nat) {
      && next <= |documents|
      && active.Keys !! completed.Keys
      && (forall k: nat :: k in active || k in completed <==> k < next)
      && messageCount + |active| == 1 + 3 * next
    }

    ghost predicate ActiveEntriesOk(active: map<nat, Job>) {
      forall k :: k in active ==> ActiveOk(k, active[k])
    }

    ghost predicate CompletedEntriesOk(completed: map<nat, Option<Job>>) {
      forall k :: k in completed ==> EntryOk(k, completed[k])
    }

    /** The scheduler's invariant over a state: its shape, and every entry
        agreeing with the service's replies. */
    ghost predicate ValidState(next: nat, active: map<nat, Job>, completed: map<nat, Option<Job>>, messageCount: nat) {
      && Shape(next, active, completed, messageCount)
      && ActiveEntriesOk(active)
      && CompletedEntriesOk(completed)
    }

    /** The invariant of a running scan. It holds from the moment the scan
        begins its first subtask ("Waiting to execute"), which the counting
        in `Shape` includes; a freshly constructed runner has begun none. */
    ghost predicate Valid()
      reads this
    {
      ValidState(index, activeJobs, completedJobs, |messages|)
    }

    /** A submission that becomes active keeps the shape: one more index,
        one more active job, two more subtasks. */
    lemma ShapeAfterActivate(next: nat, active: map<nat, Job>, completed: map<nat, Option<Job>>, messageCount: nat, job: Job)
      requires Shape(next, active, completed, messageCount) && next < |documents|
      ensures Shape(next + 1, active[next := job], completed, messageCount + 2)
    {
      assert next !in active && next !in completed;
      assert |active[next := job]| == |active| + 1;
    }

    /** A submission that is skipped keeps the shape: one more index, one
        more completed entry, three more subtasks. */
    lemma ShapeAfterSkip(next: nat, active: map<nat, Job>, completed: map<nat, Option<Job>>, messageCount: nat)
      requires Shape(next, active, completed, messageCount) && next < |documents|
      ensures Shape(next + 1, active, completed[next := None], messageCount + 3)
    {
      assert next !in active && next !in completed;
    }

    /** The job recorded for a successful submission is a valid active entry. */
    lemma ActivateKeepsEntries(next: nat, active: map<nat, Job>)
      requires ActiveEntriesOk(active) && next < |documents| && SubmissionOk(Reply(next))
      ensures ActiveEntriesOk(active[next := SubmittedJob(next)])
    {
      var a := active[next := SubmittedJob(next)];
      forall k | k in a ensures ActiveOk(k, a[k]) {
        if k != next {
          assert a[k] == active[k];
        }
      }
    }

    /** The `None` recorded for a failed submission is a valid completed entry. */
    lemma SkipKeepsEntries(next: nat, completed: map<nat, Option<Job>>)
      requires CompletedEntriesOk(completed) && next < |documents| && !SubmissionOk(Reply(next))
      ensures CompletedEntriesOk(completed[next := None])
    {
      var c := completed[next := None];
      forall k | k in c ensures EntryOk(k, c[k]) {
        if k != next {
          assert c[k] == completed[k];
        }
      }
    }

    /** Submits the next document. A job id makes it active; a null or empty
        id completes it at once as `None`, taking no window slot. */
    method AddNextJobToQueue()
      requires Valid() && index < |documents|
      modifies this
      ensures Valid() && index == old(index) + 1
      ensures SubmissionOk(Reply(old(index))) ==>
        && activeJobs == old(activeJobs)[old(index) := SubmittedJob(old(index))]
        && completedJobs == old(completedJobs)
        && messages == old(messages)
             + [SubmittingJob(documents[old(index)].name), AwaitingResults(documents[old(index)].name)]
      ensures !SubmissionOk(Reply(old(index))) ==>
        && activeJobs == old(activeJobs)
        && completedJobs == old(completedJobs)[old(index) := None]
        && messages == old(messages)
             + [SubmittingJob(documents[old(index)].name),
                SubmissionError(documents[old(index)].name),
                Skipped(documents[old(index)].name)]
    {
      var document := documents[index];
      var sequence := TrimTerminator(document.residues);
      var name := document.name;
      var request := Submission(sequence, email, appl, featType, goterms, pathways);
      assert request == Request(index);
      var jobid := service.submit(index, request);
      if jobid.Some? && jobid.value != "" {
        var job := Job(jobid.value, name, |sequence|, None);
        assert job == SubmittedJob(index);
        ShapeAfterActivate(index, activeJobs, completedJobs, |messages|, job);
        ActivateKeepsEntries(index, activeJobs);
        activeJobs, messages, index :=
          activeJobs[index := job], messages + [SubmittingJob(name), AwaitingResults(name)], index + 1;
      } else {
        ShapeAfterSkip(index, activeJobs, completedJobs, |messages|);
        SkipKeepsEntries(index, completedJobs);
        completedJobs, messages, index :=
          completedJobs[index := None], messages + [SubmittingJob(name), SubmissionError(name), Skipped(name)], index + 1;
      }
    }

    /** Fetches and parses job k's results. */
    method PostProcessResults(k: nat, job: Job) returns (r: seq<Annotation>)
      ensures r == Retrieved(k, job.sequenceLength)
    {
      match service.fetch(k)
      case TempFileError =>
        r := [];
      case Downloaded(parsed) =>
        var parser := new XmlParser(parsed);
        parser.SetSeqLength(job.sequenceLength);
        parser.SetFeatType(featType);
        parser.SetMakeExtraFeats(extraFeatures);
        r := parser.ParseXml();
    }

    /** The active jobs a sweep leaves active: those whose status is QUEUED or RUNNING. */
    ghost function StillActive(active: map<nat, Job>, round: nat): map<nat, Job> {
      map k | k in active && Verdict(round, k) == Pending :: active[k]
    }

    /** The job a sweep completes: with its processed results when FINISHED,
        as it was otherwise. */
    function Completion(round: nat, k: nat, job: Job): Job {
      if Verdict(round, k) == Finished then job.(result := Some(Retrieved(k, job.sequenceLength)))
      else job
    }

    /** The entries a sweep adds to the completed map, among active keys below `bound`. */
    ghost function Swept(active: map<nat, Job>, round: nat, bound: nat): map<nat, Option<Job>> {
      map k | k in active && k < bound && Verdict(round, k) != Pending :: Some(Completion(round, k, active[k]))
    }

    /** Visiting key k extends the swept entries by k exactly when k is active and terminal. */
    lemma SweptStep(active: map<nat, Job>, round: nat, k: nat)
      ensures k in active && Verdict(round, k) != Pending ==>
        Swept(active, round, k + 1) == Swept(active, round, k)[k := Some(Completion(round, k, active[k]))]
      ensures !(k in active && Verdict(round, k) != Pending) ==>
        Swept(active, round, k + 1) == Swept(active, round, k)
    {
    }

    /** A sweep keeps the shape: the terminal jobs move from the active map to
        the completed map, each having begun its third subtask. */
    lemma SweepKeepsShape(next: nat, active: map<nat, Job>, completed: map<nat, Option<Job>>,
                          messageCount: nat, round: nat, newCount: nat)
      requires Shape(next, active, completed, messageCount)
      requires newCount + |StillActive(active, round)| == messageCount + |active|
      ensures Shape(next, StillActive(active, round), completed + Swept(active, round, next), newCount)
    {
      var still, swept := StillActive(active, round), Swept(active, round, next);
      var done := completed + swept;
      forall k: nat ensures k in still || k in done <==> k < next {
        if k in active {
          assert k in still || k in swept;
        }
      }
    }

    /** The jobs a sweep leaves active are still valid active entries. */
    lemma SweepKeepsActiveEntries(active: map<nat, Job>, round: nat)
      requires ActiveEntriesOk(active)
      ensures ActiveEntriesOk(StillActive(active, round))
    {
      var still := StillActive(active, round);
      forall k | k in still ensures ActiveOk(k, still[k]) {
        assert still[k] == active[k];
      }
    }

    /** The jobs a sweep completes are valid completed entries: FINISHED ones
        carry the annotations parsed from their download. */
    lemma SweepKeepsCompletedEntries(next: nat, active: map<nat, Job>, completed: map<nat, Option<Job>>, round: nat)
      requires ActiveEntriesOk(active) && CompletedEntriesOk(completed)
      ensures CompletedEntriesOk(completed + Swept(active, round, next))
    {
      var swept := Swept(active, round, next);
      var done := completed + swept;
      forall k | k in done ensures EntryOk(k, done[k]) {
        if k in swept {
          assert ActiveOk(k, active[k]);
          assert done[k] == Some(Completion(round, k, active[k]));
        } else {
          assert done[k] == completed[k];
        }
      }
    }

    /** A sweep keeps every held result parsed: the FINISHED jobs it
        completes carry the annotations of their own download. */
    lemma SweepKeepsResultsParsed(next: nat, active: map<nat, Job>, completed: map<nat, Option<Job>>, round: nat)
      requires ResultsParsed(completed)
      requires forall k :: k in active ==> active[k].result.None?
      ensures ResultsParsed(completed + Swept(active, round, next))
    {
      var swept := Swept(active, round, next);
      var done := completed + swept;
      forall k | k in done && done[k].Some? && done[k].value.result.Some?
        ensures done[k].value.result.value == Retrieved(k, done[k].value.sequenceLength)
      {
        if k in swept {
          assert done[k] == Some(Completion(round, k, active[k]));
        } else {
          assert done[k] == completed[k];
        }
      }
    }

    /** Drops `keys` from `m` (the removal of the terminal jobs after a sweep). */
    ghost function Dropped(m: map<nat, Job>, keys: seq<nat>): map<nat, Job> {
      map j | j in m && j !in keys :: m[j]
    }

    lemma DroppedStep(m: map<nat, Job>, keys: seq<nat>, i: nat)
      requires i < |keys|
      ensures Dropped(m, keys[..i + 1]) == Dropped(m, keys[..i]) - {keys[i]}
    {
      assert keys[..i + 1] == keys[..i] + [keys[i]];
    }

    /** Dropping exactly the terminal keys leaves the jobs still active. */
    lemma DroppedTerminal(active: map<nat, Job>, keys: seq<nat>, round: nat, bound: nat)
      requires forall j :: j in active ==> j < bound
      requires forall j :: j in keys <==> j < bound && j in active && Verdict(round, j) != Pending
      ensures Dropped(active, keys) == StillActive(active, round)
    {
    }

    /** Polls one active job: a cancellation stops before the poll; QUEUED
        and RUNNING leave it as it is; FINISHED fetches and parses its results
        and completes it; any other status completes it as failed. */
    method CheckJob(round: nat, k: nat) returns (canceled: bool, terminal: bool)
      requires k in activeJobs
      modifies this
      ensures activeJobs == old(activeJobs) && index == old(index)
      ensures canceled == service.cancelled(round, k)
      ensures canceled ==> completedJobs == old(completedJobs) && messages == old(messages)
      ensures !canceled ==> terminal == (Verdict(round, k) != Pending)
      ensures !canceled && terminal ==> completedJobs == old(completedJobs)[k := Some(Completion(round, k, activeJobs[k]))]
      ensures !canceled && !terminal ==> completedJobs == old(completedJobs)
      ensures !canceled && Verdict(round, k) == Pending ==> messages == old(messages)
      ensures !canceled && Verdict(round, k) == Finished ==>
        messages == old(messages) + [GettingResults(activeJobs[k].name)]
      ensures !canceled && Verdict(round, k) == Failed ==>
        messages == old(messages) + [ErrorOccurred(activeJobs[k].name, activeJobs[k].jobid, service.status(round, k))]
    {
      var job := activeJobs[k];
      canceled := service.cancelled(round, k);
      if canceled {
        return canceled, false;
      }
      var status := service.status(round, k);
      var verdict := Classify(status);
      terminal := verdict != Pending;
      if verdict == Finished {
        messages := messages + [GettingResults(job.name)];
        var res := PostProcessResults(k, job);
        completedJobs := completedJobs[k := Some(job.(result := Some(res)))];
      } else if verdict == Failed {
        completedJobs := completedJobs[k := Some(job)];
        messages := messages + [ErrorOccurred(job.name, job.jobid, status)];
      }
    }

    /** Removes the given active jobs, one key at a time. */
    method RemoveJobs(keys: seq<nat>)
      requires Distinct(keys) && forall j :: j in keys ==> j in activeJobs
      modifies this
      ensures activeJobs == Dropped(old(activeJobs), keys)
      ensures |activeJobs| == |old(activeJobs)| - |keys|
      ensures completedJobs == old(completedJobs) && messages == old(messages) && index == old(index)
    {
      for i := 0 to |keys|
        invariant activeJobs == Dropped(old(activeJobs), keys[..i])
        invariant |activeJobs| == |old(activeJobs)| - i
        invariant completedJobs == old(completedJobs) && messages == old(messages) && index == old(index)
      {
        DroppedStep(old(activeJobs), keys, i);
        assert keys[i] !in keys[..i];
        activeJobs := activeJobs - {keys[i]};
      }
      assert keys[..|keys|] == keys;
    }

    /** One step of the sweep loop: polls key k when it is active and, when
        its status is terminal, records k for removal. `before` is the
        completed map as the sweep found it. */
    method SweepKey(round: nat, k: nat, ghost before: map<nat, Option<Job>>, toRemove: seq<nat>)
      returns (canceled: bool, toRemove': seq<nat>)
      requires forall j :: j in toRemove <==> j < k && j in activeJobs && Verdict(round, j) != Pending
      requires Distinct(toRemove)
      requires completedJobs == before + Swept(activeJobs, round, k)
      modifies this
      ensures activeJobs == old(activeJobs) && index == old(index)
      ensures old(messages) <= messages
      ensures !canceled ==> forall j :: j in toRemove' <==> j < k + 1 && j in activeJobs && Verdict(round, j) != Pending
      ensures !canceled ==> Distinct(toRemove')
      ensures !canceled ==> completedJobs == before + Swept(activeJobs, round, k + 1)
      ensures !canceled ==> |messages| - |old(messages)| == |toRemove'| - |toRemove|
    {
      SweptStep(activeJobs, round, k);
      toRemove' := toRemove;
      canceled := false;
      if k in activeJobs {
        ghost var sweptSoFar := Swept(activeJobs, round, k);
        var terminal;
        canceled, terminal := CheckJob(round, k);
        if !canceled && terminal {
          UpdateUnion(before, sweptSoFar, k, Some(Completion(round, k, activeJobs[k])));
          toRemove' := toRemove + [k];
        }
      }
    }

    /** The loop of a sweep: polls the active jobs in ascending index order,
        completing the terminal ones, and returns their keys. */
    method SweepActive(round: nat) returns (canceled: bool, toRemove: seq<nat>)
      requires forall j :: j in activeJobs ==> j < index
      modifies this
      ensures activeJobs == old(activeJobs) && index == old(index)
      ensures old(messages) <= messages
      ensures !canceled ==> Distinct(toRemove)
      ensures !canceled ==> forall j :: j in toRemove <==> j in activeJobs && Verdict(round, j) != Pending
      ensures !canceled ==> completedJobs == old(completedJobs) + Swept(activeJobs, round, index)
      ensures !canceled ==> |messages| == |old(messages)| + |toRemove|
    {
      toRemove := [];
      for k := 0 to index
        invariant activeJobs == old(activeJobs) && index == old(index)
        invariant forall j :: j in toRemove <==> j < k && j in activeJobs && Verdict(round, j) != Pending
        invariant Distinct(toRemove)
        invariant completedJobs == old(completedJobs) + Swept(activeJobs, round, k)
        invariant |messages| == |old(messages)| + |toRemove| && old(messages) <= messages
      {
        var stop;
        stop, toRemove := SweepKey(round, k, old(completedJobs), toRemove);
        if stop {
          return true, toRemove;
        }
      }
      canceled := false;
    }

    /** One sweep over the active jobs in ascending index order. Jobs with a
        terminal status are put into the completed map under the same index
        and removed from the active map only after the sweep. A cancellation
        ends the sweep early with the active map untouched. */
    method CheckForCompletedJobs(round: nat) returns (canceled: bool)
      requires Valid() && Parsed()
      modifies this
      ensures index == old(index)
      ensures old(messages) <= messages
      ensures canceled ==> activeJobs == old(activeJobs)
      ensures !canceled ==> Valid() && Parsed()
      ensures !canceled ==> activeJobs == StillActive(old(activeJobs), round)
      ensures !canceled ==> completedJobs == old(completedJobs) + Swept(old(activeJobs), round, old(index))
    {
      var toRemove;
      canceled, toRemove := SweepActive(round);
      if canceled {
        return;
      }
      ghost var before := activeJobs;
      RemoveJobs(toRemove);
      DroppedTerminal(before, toRemove, round, index);
      SweepKeepsShape(index, before, old(completedJobs), |old(messages)|, round, |messages|);
      SweepKeepsActiveEntries(before, round);
      SweepKeepsCompletedEntries(index, before, old(completedJobs), round);
      assert forall k :: k in before ==> before[k].result.None? by {
        forall k | k in before ensures before[k].result.None? {
          assert ActiveOk(k, before[k]);
        }
      }
      SweepKeepsResultsParsed(index, before, old(completedJobs), round);
    }

    /** Appends this runner's ticket, polls until it is first, then removes
        it. Every runner listed before this one has left by the time it is
        admitted, and other tickets keep their order. A cancellation (or the
        end of the given polls) leaves the ticket listed. */
    method WaitMyTurn(gate: RunnerQueue, steps: seq<WaitStep>) returns (outcome: WaitOutcome, ghost admittedFrom: seq<Ticket>)
      requires gate.Valid() && myKey !in gate.tickets
      requires FreshWaitArrivals(steps, (set t | t in gate.tickets), myKey)
      modifies gate
      ensures gate.Valid()
      ensures outcome == Admitted ==>
        && |admittedFrom| > 0 && admittedFrom[0] == myKey
        && gate.tickets == admittedFrom[1..] && myKey !in gate.tickets
        && (forall t :: t in old(gate.tickets) ==> t !in admittedFrom)
      ensures outcome != Admitted ==> myKey in gate.tickets
    {
      ghost var earlier := set t | t in gate.tickets;
      ghost var ahead, behind := gate.tickets, [];
      gate.Add(myKey);
      var i := 0;
      while IndexOf(gate.tickets, myKey) != 0
        invariant 0 <= i <= |steps|
        invariant gate.Valid() && gate.tickets == ahead + [myKey] + behind
        invariant forall x :: x in ahead ==> x in earlier
        invariant forall x :: x in behind ==> x !in earlier
        invariant myKey !in earlier
        decreases |steps| - i
      {
        if i == |steps| {
          return WaitExhausted, [];
        }
        ahead, behind := OthersAct(gate, myKey, steps[i].others, earlier, ahead, behind);
        if steps[i].cancelled {
          return WaitCanceled, [];
        }
        i := i + 1;
      }
      assert ahead == [];
      admittedFrom := gate.tickets;
      assert admittedFrom == [myKey] + behind;
      var _ := gate.Remove(myKey);
      outcome := Admitted;
    }

    /** The do-while of the scan: fill the window up to 15 active jobs while
        documents remain, sweep it, and repeat until no job is active and no
        document is left. At most `maxSweeps` sweeps are made. */
    method RunJobs(maxSweeps: nat) returns (stopped: Option<ScanOutcome>)
      requires Valid() && Parsed() && |activeJobs| <= MaxConcurrentJobs
      modifies this
      ensures |activeJobs| <= MaxConcurrentJobs
      ensures stopped.Some? ==> !stopped.value.Completed?
      ensures stopped.None? ==> Valid() && Parsed() && activeJobs == map[] && index == |documents|
    {
      var round := 0;
      var more := true;
      while more
        invariant round <= maxSweeps
        invariant Valid() && Parsed() && |activeJobs| <= MaxConcurrentJobs
        invariant !more ==> activeJobs == map[] && index == |documents|
        decreases maxSweeps - round, more
      {
        if round == maxSweeps {
          return Some(OutOfPolls);
        }
        while |activeJobs| < MaxConcurrentJobs && index < |documents|
          invariant Valid() && Parsed() && |activeJobs| <= MaxConcurrentJobs
          decreases |documents| - index
        {
          SkipKeepsResultsParsed(completedJobs, index);
          AddNextJobToQueue();
        }
        ghost var window := activeJobs;
        var canceled := CheckForCompletedJobs(round);
        if canceled {
          return Some(UnexpectedError(Canceled));
        }
        assert |activeJobs| <= MaxConcurrentJobs by {
          assert activeJobs.Keys <= window.Keys;
          assert |activeJobs.Keys| <= |window.Keys|;
        }
        round := round + 1;
        more := |activeJobs| > 0 || index < |documents|;
      }
      stopped := None;
    }

    /** The whole run: wait for a turn, run the jobs, then assemble one result
        per document in input order. The ticket is removed from the admission
        list on every exit. */
    method ScanSequences(gate: RunnerQueue, waitSteps: seq<WaitStep>, maxSweeps: nat) returns (outcome: ScanOutcome)
      requires activeJobs == map[] && completedJobs == map[] && messages == []
      requires gate.Valid() && myKey !in gate.tickets
      requires FreshWaitArrivals(waitSteps, (set t | t in gate.tickets), myKey)
      modifies this, gate
      ensures gate.Valid() && myKey !in gate.tickets
      ensures outcome.Completed? ==>
        && Valid() && Parsed()
        && index == |documents| && activeJobs == map[]
        && (forall k: nat :: k in completedJobs <==> k < |documents|)
        && |messages| == numMessages
        && |outcome.results| == |documents|
        && (forall i :: 0 <= i < |documents| ==> outcome.results[i] == ResultOf(completedJobs[i]))
        && (forall i :: 0 <= i < |documents| ==> ResultAgrees(i, outcome.results[i]))
    {
      index := 0;
      messages := messages + [WaitingToExecute];
      var waited;
      ghost var admittedFrom;
      waited, admittedFrom := WaitMyTurn(gate, waitSteps);
      if waited != Admitted {
        var _ := gate.Remove(myKey);
        return if waited == WaitCanceled then UnexpectedError(Canceled) else OutOfPolls;
      }
      var stopped := RunJobs(maxSweeps);
      if stopped.Some? {
        var _ := gate.Remove(myKey);
        return stopped.value;
      }
      var results := AssembleResults(completedJobs, |documents|);
      forall i | 0 <= i < |documents| ensures ResultAgrees(i, results[i]) {
        CompletedEntryAgrees(completedJobs, i);
      }
      var _ := gate.Remove(myKey);
      outcome := Completed(results);
    }
  }
}
