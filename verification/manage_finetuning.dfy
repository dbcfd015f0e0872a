/** `OpenAIFineTuningManager` of `scripts/manage-openai-finetuning.py`: picks
    the training file, keeps the local list of created jobs, waits for a job to
    reach a final status and records the fine-tuned model id in `.env.local`.
    The OpenAI client is outside the model: what it answers (file ids, job ids,
    status reports, errors) is passed in. The two local files are fields of the
    manager; `None` stands for a file that does not exist. */
module ManageFinetuning {
  import opened Wrappers
  import opened Text

  const CombinedFile := "global-training-data/openai_training_data_combined.jsonl"
  const RealImagesFile := "global-training-data/openai_training_data_with_real_images.jsonl"
  const OriginalFile := "global-training-data/openai_training_data.jsonl"

  /** The base model used when none is given. */
  const DefaultModel := "gpt-4o-2024-08-06"

  /** The prefix of the `.env.local` line that carries the fine-tuned model id. */
  const ModelKey := "OPENAI_FINETUNED_MODEL_ID="

  /** Why an operation stopped: the exceptions the script raises or re-raises. */
  datatype Failure =
    | MissingApiKey                      // ValueError: OPENAI_API_KEY unset or empty
    | NoTrainingData                     // FileNotFoundError: none of the three files
    | TrainingFileMissing(path: string)  // FileNotFoundError at upload time
    | ApiError(message: string)          // an error raised by the OpenAI client

  /** One entry of `fine_tuning_jobs.json`; `createdAt` is the clock reading. */
  datatype JobInfo = JobInfo(jobId: string, trainingFileId: string, baseModel: string,
                             createdAt: int, status: string)

  /** What `check_job_status` reports about a job. */
  datatype StatusInfo = StatusInfo(id: string, status: string, model: Option<string>, error: Option<string>)

  /** A job as the list endpoint returns it. */
  datatype RemoteJob = RemoteJob(id: string, status: string, fineTunedModel: Option<string>,
                                 createdAt: int, finishedAt: Option<int>, model: string)

  /** An entry of `list_all_jobs`. */
  datatype JobSummary = JobSummary(id: string, status: string, model: Option<string>,
                                   createdAt: int, finishedAt: Option<int>, baseModel: string)

  // ---------------------------------------------------------------------------
  // Choosing the training file

  /** The training file, by priority combined, then real images, then original. */
  function TrainingDataPath(combinedExists: bool, realImagesExists: bool, originalExists: bool): (r: Result<string, Failure>)
    ensures r.Success? <==> combinedExists || realImagesExists || originalExists
    ensures r.Failure? ==> r.error == NoTrainingData
    ensures combinedExists ==> r == Success(CombinedFile)
    ensures !combinedExists && realImagesExists ==> r == Success(RealImagesFile)
    ensures r == Success(OriginalFile) <==> !combinedExists && !realImagesExists && originalExists
  {
    if combinedExists then Success(CombinedFile)
    else if realImagesExists then Success(RealImagesFile)
    else if originalExists then Success(OriginalFile)
    else Failure(NoTrainingData)
  }

  // ---------------------------------------------------------------------------
  // The job list

  /** The job list after `save_job_info`: a missing file counts as an empty list. */
  function AppendJob(jobs: Option<seq<JobInfo>>, info: JobInfo): (r: seq<JobInfo>)
    ensures |r| == |jobs.GetOr([])| + 1
    ensures r[..|r| - 1] == jobs.GetOr([]) && r[|r| - 1] == info
  {
    jobs.GetOr([]) + [info]
  }

  /** Saving twice keeps both entries, oldest first. */
  lemma AppendJobTwice(jobs: Option<seq<JobInfo>>, a: JobInfo, b: JobInfo)
    ensures AppendJob(Some(AppendJob(jobs, a)), b) == jobs.GetOr([]) + [a, b]
  {
  }

  // ---------------------------------------------------------------------------
  // Waiting for a job

  /** The statuses on which `wait_for_completion` returns. */
  predicate Terminal(status: string) {
    status == "succeeded" || status == "failed" || status in ["cancelled", "invalid_training_file"]
  }

  /** A poll ends the wait: the status check raised, or the status is final. */
  predicate Stops(poll: Result<StatusInfo, string>) {
    poll.Failure? || Terminal(poll.value.status)
  }

  /** The statuses of a job still in progress keep the loop polling. */
  lemma InProgressKeepsPolling()
    ensures !Terminal("validating_files") && !Terminal("queued") && !Terminal("running")
  {
  }

  /** The index of the first poll that ends the wait, if any. */
  function FirstStop(polls: seq<Result<StatusInfo, string>>): (r: Option<nat>)
    ensures r.Some? ==> r.value < |polls| && Stops(polls[r.value])
    ensures r.Some? ==> forall j :: 0 <= j < r.value ==> !Stops(polls[j])
    ensures r.None? ==> forall j :: 0 <= j < |polls| ==> !Stops(polls[j])
  {
    if polls == [] then None
    else if Stops(polls[0]) then Some(0)
    else match FirstStop(polls[1..]) {
      case None => None
      case Some(k) => Some(k + 1)
    }
  }

  /** What the wait ends with after the first stopping poll. */
  function Outcome(poll: Result<StatusInfo, string>): Result<StatusInfo, Failure> {
    match poll
    case Success(info) => Success(info)
    case Failure(e) => Failure(ApiError(e))
  }

  /** `wait_for_completion` over the successive answers of `check_job_status`.
      The script polls without end; here `None` means that every answer given
      was still in progress, so the script would still be waiting. */
  method WaitForCompletion(polls: seq<Result<StatusInfo, string>>)
    returns (outcome: Option<Result<StatusInfo, Failure>>, checks: nat)
    ensures FirstStop(polls).None? ==> outcome.None? && checks == |polls|
    ensures FirstStop(polls).Some? ==> outcome == Some(Outcome(polls[FirstStop(polls).value]))
                                       && checks == FirstStop(polls).value + 1
    ensures outcome.Some? && outcome.value.Success? ==> Terminal(outcome.value.value.status)
  {
    checks := 0;
    while checks < |polls|
      invariant checks <= |polls|
      invariant forall j :: 0 <= j < checks ==> !Stops(polls[j])
    {
      var poll := polls[checks];
      checks := checks + 1;
      if poll.Failure? {
        return Some(Failure(ApiError(poll.error))), checks;
      }
      var status := poll.value.status;
      if status == "succeeded" {
        return Some(Success(poll.value)), checks;
      } else if status == "failed" {
        return Some(Success(poll.value)), checks;
      } else if status in ["cancelled", "invalid_training_file"] {
        return Some(Success(poll.value)), checks;
      }
    }
    return None, checks;
  }

  /** The model id to record after a wait: only a succeeded job with a
      non-empty model id. */
  function ModelToRecord(result: StatusInfo): (r: Option<string>)
    ensures r.Some? <==> result.status == "succeeded" && result.model.Some? && result.model.value != ""
    ensures r.Some? ==> r == result.model
  {
    if result.status == "succeeded" && result.model.Some? && result.model.value != "" then result.model else None
  }

  // ---------------------------------------------------------------------------
  // The `.env.local` update

  /** The first line starting with `key`. */
  function FirstLineStarting(lines: seq<string>, key: string): (r: Option<nat>)
    ensures r.Some? ==> r.value < |lines| && StartsWith(lines[r.value], key)
    ensures r.Some? ==> forall j :: 0 <= j < r.value ==> !StartsWith(lines[j], key)
    ensures r.None? ==> forall j :: 0 <= j < |lines| ==> !StartsWith(lines[j], key)
  {
    if lines == [] then None
    else if StartsWith(lines[0], key) then Some(0)
    else match FirstLineStarting(lines[1..], key) {
      case None => None
      case Some(k) => Some(k + 1)
    }
  }

  /** The line that records `modelId`. */
  function ModelLine(modelId: string): string {
    ModelKey + modelId
  }

  /** The content `create_env_file` writes back, given the old content. */
  function UpdatedEnv(content: string, modelId: string): string {
    if Contains(content, ModelKey) then
      var lines := Split(content, '\n');
      match FirstLineStarting(lines, ModelKey) {
        case Some(i) => Join(lines[i := ModelLine(modelId)], '\n')
        case None => Join(lines, '\n')
      }
    else content + "\n" + ModelLine(modelId) + "\n"
  }

  lemma ModelLineHasNoBreak(modelId: string)
    requires '\n' !in modelId
    ensures '\n' !in ModelLine(modelId)
  {
  }

  /** When a line starts with the key, that first such line becomes the model
      line and every other line is kept. */
  lemma EnvReplacesFirstKeyLine(content: string, modelId: string)
    requires '\n' !in modelId
    requires Contains(content, ModelKey)
    requires FirstLineStarting(Split(content, '\n'), ModelKey).Some?
    ensures var i := FirstLineStarting(Split(content, '\n'), ModelKey).value;
      Split(UpdatedEnv(content, modelId), '\n') == Split(content, '\n')[i := ModelLine(modelId)]
  {
    var lines := Split(content, '\n');
    var i := FirstLineStarting(lines, ModelKey).value;
    var updated := lines[i := ModelLine(modelId)];
    ModelLineHasNoBreak(modelId);
    assert forall k :: 0 <= k < |updated| ==> '\n' !in updated[k];
    SplitJoin(updated, '\n');
  }

  /** When the key occurs but no line starts with it, the content is written
      back as it was. */
  lemma EnvUnchangedWithoutKeyLine(content: string, modelId: string)
    requires Contains(content, ModelKey)
    requires FirstLineStarting(Split(content, '\n'), ModelKey).None?
    ensures UpdatedEnv(content, modelId) == content
  {
    JoinSplit(content, '\n');
  }

  /** Without the key, the old lines are kept and the model line and an empty
      last line follow them. */
  lemma EnvAppendsModelLine(content: string, modelId: string)
    requires '\n' !in modelId
    requires !Contains(content, ModelKey)
    ensures Split(UpdatedEnv(content, modelId), '\n') == Split(content, '\n') + [ModelLine(modelId), ""]
  {
    var lines := Split(content, '\n');
    var parts := lines + [ModelLine(modelId), ""];
    JoinAppend(lines, [ModelLine(modelId), ""], '\n');
    JoinSplit(content, '\n');
    assert Join([ModelLine(modelId), ""], '\n') == ModelLine(modelId) + "\n";
    assert Join(parts, '\n') == UpdatedEnv(content, modelId);
    ModelLineHasNoBreak(modelId);
    assert forall k :: 0 <= k < |parts| ==> '\n' !in parts[k];
    SplitJoin(parts, '\n');
  }

  /** A line of the content that starts with the key means the key occurs. */
  lemma KeyLineMeansKey(content: string, j: nat)
    requires j < |Split(content, '\n')| && StartsWith(Split(content, '\n')[j], ModelKey)
    ensures Contains(content, ModelKey)
  {
    var lines := Split(content, '\n');
    JoinSplit(content, '\n');
    JoinContains(lines, '\n', j);
    StartsWithContains(lines[j], ModelKey);
    ContainsTransitive(content, lines[j], ModelKey);
  }

  /** Replacing the first key line by another key line keeps it the first. */
  lemma FirstKeyLineAfterReplace(lines: seq<string>, i: nat, line: string)
    requires FirstLineStarting(lines, ModelKey) == Some(i)
    requires StartsWith(line, ModelKey)
    ensures FirstLineStarting(lines[i := line], ModelKey) == Some(i)
  {
    var updated := lines[i := line];
    assert forall j :: 0 <= j < i ==> updated[j] == lines[j];
    assert StartsWith(updated[i], ModelKey);
  }

  /** For a model id without line breaks, updating twice with the same id
      writes what updating once wrote. */
  lemma EnvUpdateIdempotent(content: string, modelId: string)
    requires '\n' !in modelId
    ensures UpdatedEnv(UpdatedEnv(content, modelId), modelId) == UpdatedEnv(content, modelId)
  {
    var once := UpdatedEnv(content, modelId);
    var line := ModelLine(modelId);
    var lines := Split(content, '\n');
    assert StartsWith(line, ModelKey);
    StartsWithContains(line, ModelKey);
    if Contains(content, ModelKey) {
      match FirstLineStarting(lines, ModelKey) {
        case Some(i) =>
          EnvReplacesFirstKeyLine(content, modelId);
          var updated := lines[i := line];
          assert Split(once, '\n') == updated;
          JoinContains(updated, '\n', i);
          ContainsTransitive(once, line, ModelKey);
          FirstKeyLineAfterReplace(lines, i, line);
          assert updated[i := line] == updated;
        case None =>
          EnvUnchangedWithoutKeyLine(content, modelId);
      }
    } else {
      EnvAppendsModelLine(content, modelId);
      var parts := lines + [line, ""];
      assert Split(once, '\n') == parts;
      JoinSplit(once, '\n');
      JoinContains(parts, '\n', |lines|);
      ContainsTransitive(once, line, ModelKey);
      forall j | 0 <= j < |lines| ensures !StartsWith(parts[j], ModelKey) {
        if StartsWith(lines[j], ModelKey) {
          KeyLineMeansKey(content, j);
        }
      }
      assert FirstLineStarting(parts, ModelKey) == Some(|lines|);
      assert parts[|lines| := line] == parts;
    }
  }

  // ---------------------------------------------------------------------------
  // The command line

  /** The job id the `status` command queries; without a non-empty `--job-id`
      it queries nothing and returns normally. */
  function StatusJobId(jobId: Option<string>): (r: Option<string>)
    ensures r.None? <==> jobId.None? || jobId.value == ""
    ensures r.Some? ==> r == jobId
  {
    if jobId.None? || jobId.value == "" then None else jobId
  }

  // ---------------------------------------------------------------------------
  // The manager

  class FineTuningManager {
    /** The training file chosen at construction. */
    var trainingDataPath: string
    /** The contents of `fine_tuning_jobs.json`. */
    var jobsFile: Option<seq<JobInfo>>
    /** The contents of `.env.local`. */
    var envFile: Option<string>

    constructor(trainingDataPath: string, jobsFile: Option<seq<JobInfo>>, envFile: Option<string>)
      ensures this.trainingDataPath == trainingDataPath
      ensures this.jobsFile == jobsFile && this.envFile == envFile
    {
      this.trainingDataPath := trainingDataPath;
      this.jobsFile := jobsFile;
      this.envFile := envFile;
    }

    /** `upload_training_file`: fails when the chosen file has gone missing,
        otherwise passes on what the upload answered. */
    function UploadTrainingFile(fileExists: bool, uploaded: Result<string, string>): (r: Result<string, Failure>)
      reads this
      ensures !fileExists ==> r == Failure(TrainingFileMissing(trainingDataPath))
      ensures fileExists && uploaded.Success? ==> r == Success(uploaded.value)
      ensures fileExists && uploaded.Failure? ==> r == Failure(ApiError(uploaded.error))
    {
      if !fileExists then Failure(TrainingFileMissing(trainingDataPath))
      else match uploaded {
        case Success(id) => Success(id)
        case Failure(e) => Failure(ApiError(e))
      }
    }

    /** `save_job_info`: appends one entry with status "created". */
    method SaveJobInfo(jobId: string, trainingFileId: string, model: string, now: int)
      modifies this
      ensures jobsFile == Some(AppendJob(old(jobsFile), JobInfo(jobId, trainingFileId, model, now, "created")))
      ensures trainingDataPath == old(trainingDataPath) && envFile == old(envFile)
    {
      var jobs := if jobsFile.Some? then jobsFile.value else [];
      jobs := jobs + [JobInfo(jobId, trainingFileId, model, now, "created")];
      jobsFile := Some(jobs);
    }

    /** `create_fine_tuning_job`: a created job is saved; a refused one
        leaves the job list alone. */
    method CreateFineTuningJob(trainingFileId: string, model: string, created: Result<string, string>, now: int)
      returns (r: Result<string, Failure>)
      modifies this
      ensures created.Success? ==>
                && r == Success(created.value)
                && jobsFile == Some(AppendJob(old(jobsFile), JobInfo(created.value, trainingFileId, model, now, "created")))
      ensures created.Failure? ==> r == Failure(ApiError(created.error)) && jobsFile == old(jobsFile)
      ensures trainingDataPath == old(trainingDataPath) && envFile == old(envFile)
    {
      if created.Failure? {
        return Failure(ApiError(created.error));
      }
      SaveJobInfo(created.value, trainingFileId, model, now);
      r := Success(created.value);
    }

    /** `create_env_file`: records `modelId` in `.env.local`. */
    method CreateEnvFile(modelId: string)
      modifies this
      ensures envFile == Some(UpdatedEnv(old(envFile).GetOr(""), modelId))
      ensures trainingDataPath == old(trainingDataPath) && jobsFile == old(jobsFile)
    {
      var content := if envFile.Some? then envFile.value else "";
      ghost var original := content;
      if Contains(content, ModelKey) {
        var lines := Split(content, '\n');
        ghost var before := lines;
        var i := 0;
        while i < |lines|
          invariant i <= |lines| && lines == before
          invariant forall j :: 0 <= j < i ==> !StartsWith(lines[j], ModelKey)
        {
          if StartsWith(lines[i], ModelKey) {
            assert FirstLineStarting(before, ModelKey) == Some(i);
            lines := lines[i := ModelLine(modelId)];
            break;
          }
          i := i + 1;
        }
        content := Join(lines, '\n');
      } else {
        content := content + "\n" + ModelLine(modelId) + "\n";
      }
      envFile := Some(content);
    }

    /** The `complete-flow` command: upload, create the job, wait for it, and
        record the model id when the job succeeded with one. */
    method CompleteFlow(model: string, fileExists: bool, uploaded: Result<string, string>,
                        created: Result<string, string>, now: int, polls: seq<Result<StatusInfo, string>>)
      returns (r: Result<Option<StatusInfo>, Failure>)
      modifies this
      ensures UploadTrainingFile(fileExists, uploaded).Failure? ==>
        r == Failure(old(UploadTrainingFile(fileExists, uploaded)).error) && jobsFile == old(jobsFile)
      ensures old(UploadTrainingFile(fileExists, uploaded)).Success? && created.Failure? ==>
                r == Failure(ApiError(created.error)) && jobsFile == old(jobsFile)
      ensures old(UploadTrainingFile(fileExists, uploaded)).Success? && created.Success? && FirstStop(polls).None? ==>
                r == Success(None)
      ensures old(UploadTrainingFile(fileExists, uploaded)).Success? && created.Success? && FirstStop(polls).Some? ==>
                match Outcome(polls[FirstStop(polls).value])
                case Success(info) => r == Success(Some(info))
                case Failure(e) => r == Failure(e)
      ensures created.Failure? || UploadTrainingFile(fileExists, uploaded).Failure? ==> envFile == old(envFile)
      ensures UploadTrainingFile(fileExists, uploaded).Success? && created.Success? ==>
        jobsFile == Some(AppendJob(old(jobsFile), JobInfo(created.value, uploaded.value, model, now, "created")))
      ensures r.Success? && r.value.Some? && ModelToRecord(r.value.value).Some? ==>
        envFile == Some(UpdatedEnv(old(envFile).GetOr(""), ModelToRecord(r.value.value).value))
      ensures !(r.Success? && r.value.Some? && ModelToRecord(r.value.value).Some?) ==> envFile == old(envFile)
      ensures trainingDataPath == old(trainingDataPath)
    {
      var fileId := UploadTrainingFile(fileExists, uploaded);
      if fileId.Failure? {
        return Failure(fileId.error);
      }
      var jobId := CreateFineTuningJob(fileId.value, model, created, now);
      if jobId.Failure? {
        return Failure(jobId.error);
      }
      var outcome, _ := WaitForCompletion(polls);
      if outcome.None? {
        return Success(None);
      }
      if outcome.value.Failure? {
        return Failure(outcome.value.error);
      }
      var result := outcome.value.value;
      var recorded := ModelToRecord(result);
      if recorded.Some? {
        CreateEnvFile(recorded.value);
      }
      r := Success(Some(result));
    }
  }

  /** Building the manager: the API key must be set and non-empty, then a
      training file must exist. */
  method Open(apiKey: Option<string>, combinedExists: bool, realImagesExists: bool, originalExists: bool,
              jobsFile: Option<seq<JobInfo>>, envFile: Option<string>)
    returns (r: Result<FineTuningManager, Failure>)
    ensures apiKey.None? || apiKey.value == "" ==> r == Failure(MissingApiKey)
    ensures apiKey.Some? && apiKey.value != "" ==>
      match TrainingDataPath(combinedExists, realImagesExists, originalExists)
      case Failure(e) => r == Failure(e)
      case Success(path) => r.Success? && fresh(r.value) && r.value.trainingDataPath == path
                            && r.value.jobsFile == jobsFile && r.value.envFile == envFile
  {
    if apiKey.None? || apiKey.value == "" {
      return Failure(MissingApiKey);
    }
    var path := TrainingDataPath(combinedExists, realImagesExists, originalExists);
    if path.Failure? {
      return Failure(path.error);
    }
    var manager := new FineTuningManager(path.value, jobsFile, envFile);
    r := Success(manager);
  }

  /** `list_all_jobs`: one summary per job of the answer, in order. */
  method ListAllJobs(answer: Result<seq<RemoteJob>, string>) returns (r: Result<seq<JobSummary>, Failure>)
    ensures answer.Failure? ==> r == Failure(ApiError(answer.error))
    ensures answer.Success? ==> r.Success? && |r.value| == |answer.value|
    ensures answer.Success? ==> forall i :: 0 <= i < |answer.value| ==>
      (var job := answer.value[i];
       r.value[i] == JobSummary(job.id, job.status, job.fineTunedModel, job.createdAt, job.finishedAt, job.model))
  {
    if answer.Failure? {
      return Failure(ApiError(answer.error));
    }
    var data := answer.value;
    var jobs: seq<JobSummary> := [];
    for i := 0 to |data|
      invariant |jobs| == i
      invariant forall k :: 0 <= k < i ==>
        jobs[k] == JobSummary(data[k].id, data[k].status, data[k].fineTunedModel, data[k].createdAt, data[k].finishedAt, data[k].model)
    {
      var job := data[i];
      jobs := jobs + [JobSummary(job.id, job.status, job.fineTunedModel, job.createdAt, job.finishedAt, job.model)];
    }
    r := Success(jobs);
  }
}
