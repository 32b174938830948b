/**
 * The pipeline orchestrator: one job that turns a video URL into a dubbed
 * video. Today a run sets up a temporary directory, reports success or
 * failure, and removes the directory again; the download, extraction,
 * transcription, translation, synthesis and merge stages are not written
 * yet, so the model has none of them.
 */
module Pipeline {
  import opened Shared
  import opened FileSystem

  datatype PipelineStatus =
    | Idle | Downloading | Extracting | Transcribing | Translating | Synthesizing | Merging | Completed | Failed

  /** A thrown value: an `Error` object with its message, or any other value with its `String(value)` text. */
  datatype Thrown = ErrorObject(message: string) | OtherValue(text: string)

  /** `error instanceof Error ? error.message : String(error)`. */
  function ErrorMessageOf(t: Thrown): (m: string)
    ensures t.ErrorObject? ==> m == t.message
    ensures t.OtherValue? ==> m == t.text
  {
    match t
    case ErrorObject(message) => message
    case OtherValue(text) => text
  }

  const TempDirName := "videonova-job-"
  const CleanupStep := "Cleaning up temporary files"

  /** The prefix `mkdtemp` is given: `videonova-job-` in the system's temporary directory. */
  function TempDirPrefix(tmpdir: string): (p: string)
    ensures p != []
    ensures tmpdir != "" ==> p == tmpdir + "/videonova-job-"
    ensures tmpdir == "" ==> p == "videonova-job-"
  {
    Join(tmpdir, TempDirName)
  }

  class PipelineOrchestrator {
    const videoUrl: string
    const sourceLanguage: string
    const targetLanguage: string
    const outputFolderPath: string
    const apiKey: string

    var status: PipelineStatus
    var currentStep: string
    var errorMessage: Option<string>
    var resultPath: Option<string>
    var tempDir: Option<string>

    /** A job with its parameters, idle, with no error, no result and no temporary directory. */
    constructor (videoUrl: string, sourceLanguage: string, targetLanguage: string,
                 outputFolderPath: string, apiKey: string)
      ensures this.videoUrl == videoUrl && this.sourceLanguage == sourceLanguage
      ensures this.targetLanguage == targetLanguage && this.outputFolderPath == outputFolderPath
      ensures this.apiKey == apiKey
      ensures status == Idle && currentStep == "idle"
      ensures errorMessage.None? && resultPath.None? && tempDir.None?
    {
      this.videoUrl := videoUrl;
      this.sourceLanguage := sourceLanguage;
      this.targetLanguage := targetLanguage;
      this.outputFolderPath := outputFolderPath;
      this.apiKey := apiKey;
      status := Idle;
      currentStep := "idle";
      errorMessage := None;
      resultPath := None;
      tempDir := None;
    }

    /**
     * `new PipelineOrchestrator(...)`: the URL, the output folder and the
     * key must be non-empty, checked in that order; the languages are not
     * checked. A valid job starts idle.
     */
    static method Create(videoUrl: string, sourceLanguage: string, targetLanguage: string,
                         outputFolderPath: string, apiKey: string)
      returns (r: Result<PipelineOrchestrator, string>)
      ensures r.Failure? <==> videoUrl == "" || outputFolderPath == "" || apiKey == ""
      ensures videoUrl == "" ==> r == Failure("Video URL is required.")
      ensures videoUrl != "" && outputFolderPath == "" ==> r == Failure("Output folder path is required.")
      ensures videoUrl != "" && outputFolderPath != "" && apiKey == "" ==> r == Failure("API key is required.")
      ensures r.Success? ==>
        && fresh(r.value)
        && r.value.videoUrl == videoUrl && r.value.sourceLanguage == sourceLanguage
        && r.value.targetLanguage == targetLanguage && r.value.outputFolderPath == outputFolderPath
        && r.value.apiKey == apiKey
        && r.value.status == Idle && r.value.currentStep == "idle"
        && r.value.errorMessage.None? && r.value.resultPath.None? && r.value.tempDir.None?
    {
      if videoUrl == "" {
        return Failure("Video URL is required.");
      }
      if outputFolderPath == "" {
        return Failure("Output folder path is required.");
      }
      if apiKey == "" {
        return Failure("API key is required.");
      }
      var job := new PipelineOrchestrator(videoUrl, sourceLanguage, targetLanguage, outputFolderPath, apiKey);
      return Success(job);
    }

    /**
     * `run`: resets the job, creates the temporary directory (`mkdtemp`
     * answers with the random suffix it appended, or throws), and ends
     * `completed` when that worked and `failed` with the thrown message when
     * it did not. Nothing escapes: whatever happens, the step ends at
     * cleaning up and the cleanup runs. The result path stays unset.
     */
    method Run(disk: Disk, tmpdir: string, mkdtemp: Result<string, Thrown>, removal: Option<Thrown>)
      modifies this, disk
      ensures status == Completed <==> mkdtemp.Success?
      ensures status == Failed <==> mkdtemp.Failure?
      ensures currentStep == CleanupStep
      ensures resultPath.None?
      ensures mkdtemp.Success? ==> errorMessage.None?
      ensures mkdtemp.Failure? ==> errorMessage == Some(ErrorMessageOf(mkdtemp.error))
      ensures mkdtemp.Failure? ==> tempDir.None? && disk.paths == old(disk.paths)
      ensures mkdtemp.Success? && removal.None? ==>
        var dir := TempDirPrefix(tmpdir) + mkdtemp.value;
        tempDir.None? && disk.paths == set q | q in old(disk.paths) + {dir} && !Under(q, dir)
      ensures mkdtemp.Success? && removal.Some? ==>
        var dir := TempDirPrefix(tmpdir) + mkdtemp.value;
        tempDir == Some(dir) && disk.paths == old(disk.paths) + {dir}
      ensures disk.unwritable == old(disk.unwritable)
    {
      Start(disk, tmpdir, mkdtemp);
      currentStep := CleanupStep;
      Cleanup(disk, removal);
    }

    /**
     * The body of `run` up to its `finally`: resets the job and creates the
     * temporary directory, ending `completed` with the directory remembered,
     * or `failed` with the thrown message and nothing created.
     */
    method Start(disk: Disk, tmpdir: string, mkdtemp: Result<string, Thrown>)
      modifies this, disk
      ensures status == (if mkdtemp.Success? then Completed else Failed)
      ensures resultPath.None?
      ensures errorMessage == (if mkdtemp.Success? then None else Some(ErrorMessageOf(mkdtemp.error)))
      ensures mkdtemp.Failure? ==> tempDir.None? && disk.paths == old(disk.paths)
      ensures mkdtemp.Success? ==>
        var dir := TempDirPrefix(tmpdir) + mkdtemp.value;
        tempDir == Some(dir) && Truthy(tempDir) && disk.paths == old(disk.paths) + {dir}
      ensures disk.unwritable == old(disk.unwritable)
    {
      status := Idle;
      currentStep := "Starting pipeline...";
      errorMessage := None;
      resultPath := None;
      tempDir := None;

      currentStep := "Initializing temporary directory";
      match mkdtemp {
        case Success(suffix) =>
          var dir := TempDirPrefix(tmpdir) + suffix;
          disk.AddFiles({dir});
          tempDir := Some(dir);
          status := Completed;
          currentStep := "Pipeline finished successfully";
        case Failure(thrown) =>
          status := Failed;
          errorMessage := Some(ErrorMessageOf(thrown));
          currentStep := "Pipeline failed";
      }
    }

    /**
     * `cleanup`: with a temporary directory set, removes it recursively and
     * forgets it; when the removal fails the error is swallowed and the
     * directory is remembered. Without one nothing happens. The outcome of
     * the job (status, step, error, result) is never touched.
     */
    method Cleanup(disk: Disk, removal: Option<Thrown>)
      modifies this, disk
      ensures status == old(status) && currentStep == old(currentStep)
      ensures errorMessage == old(errorMessage) && resultPath == old(resultPath)
      ensures !Truthy(old(tempDir)) ==> tempDir == old(tempDir) && disk.paths == old(disk.paths)
      ensures Truthy(old(tempDir)) && removal.None? ==>
        tempDir.None? && disk.paths == set q | q in old(disk.paths) && !Under(q, old(tempDir).value)
      ensures Truthy(old(tempDir)) && removal.Some? ==> tempDir == old(tempDir) && disk.paths == old(disk.paths)
      ensures disk.unwritable == old(disk.unwritable)
    {
      if Truthy(tempDir) {
        if removal.None? {
          disk.RemoveTree(tempDir.value);
          tempDir := None;
        }
      }
    }
  }
}
