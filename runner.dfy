/**
 * The test stage: write the Dockerfile, build an image, run it once,
 * classify the outcome, and remove the image on every way out.
 */
module Runner {
  import opened Wrappers
  import opened Errors
  import opened Env

  /** What the test stage reports for one run. */
  datatype TestResult = TestResult(passed: bool, exitCode: int, stdout: string, stderr: string, duration: int)

  /** The environment's answer to each of the stage's four calls. */
  datatype Backend = Backend(write: Step, build: Step, run: RunOutcome, remove: Step)

  /** The image tag, from a clock reading taken when the stage starts. */
  function ImageName(stamp: string): string
  {
    "skill-test-" + stamp
  }

  function DockerfilePath(skillDir: string): string
  {
    skillDir + "/Dockerfile.test"
  }

  /**
   * The result of the run: a failed run is absorbed into the result, its
   * exit code being the error's status unless that is missing or zero, in
   * which case it is 1.
   */
  function Classify(run: RunOutcome, duration: int): (r: TestResult)
    ensures r.passed <==> r.exitCode == 0
    ensures r.passed <==> run.Ran?
    ensures run.Ran? ==> r.stdout == run.output && r.stderr == ""
    ensures run.RunFailed? && run.status.Some? && run.status.value != 0 ==> r.exitCode == run.status.value
    ensures run.RunFailed? && (run.status.None? || run.status.value == 0) ==> r.exitCode == 1
    ensures run.RunFailed? && run.capturedErr.Some? && run.capturedErr.value != "" ==> r.stderr == run.capturedErr.value
    ensures run.RunFailed? && (run.capturedErr.None? || run.capturedErr.value == "") ==> r.stderr == run.message
    ensures run.RunFailed? ==> r.stdout == (if run.capturedOut.Some? then run.capturedOut.value else "")
    ensures r.duration == duration
  {
    match run
    case Ran(output) => TestResult(true, 0, output, "", duration)
    case RunFailed(status, out, err, message) =>
      var exitCode := if status.Some? && status.value != 0 then status.value else 1;
      TestResult(false, exitCode,
        if out.Some? then out.value else "",
        if err.Some? && err.value != "" then err.value else message,
        duration)
  }

  /**
   * What the stage returns or raises: a write or build failure escapes,
   * a run failure does not, and the removal outcome plays no part.
   */
  function TestRun(b: Backend, duration: int): Result<TestResult, Error>
  {
    if b.write.Failed? then Failure(WriteFailed(b.write.message))
    else if b.build.Failed? then Failure(BuildFailed(b.build.message))
    else Success(Classify(b.run, duration))
  }

  /** The calls the stage makes, in order. */
  function TestCalls(skillDir: string, image: string, dockerfile: string, b: Backend): seq<Call>
  {
    [WriteFile(DockerfilePath(skillDir), dockerfile)]
    + (if b.write.Done? then [Build(image)] + (if b.build.Done? then [Run(image)] else []) else [])
    + [RemoveImage(image)]
  }

  /**
   * The images after the stage: the build adds the tag, and a successful
   * removal takes it away again, whatever else happened.
   */
  function ImagesAfter(images: set<string>, image: string, b: Backend): set<string>
  {
    var built := if b.write.Done? && b.build.Done? then images + {image} else images;
    if b.remove.Done? then built - {image} else built
  }

  /** The stage touches no image but its own, and leaves its own behind only when removal fails. */
  lemma ImagesAfterOnlyOwn(images: set<string>, image: string, b: Backend)
    ensures ImagesAfter(images, image, b) - {image} == images - {image}
    ensures image in ImagesAfter(images, image, b) <==>
      b.remove.Failed? && (image in images || (b.write.Done? && b.build.Done?))
  {
  }

  /** Only a write or build failure makes the stage fail, and then with that step's message. */
  lemma TestRunFailures(b: Backend, duration: int)
    ensures TestRun(b, duration).Failure? <==> b.write.Failed? || b.build.Failed?
    ensures b.write.Failed? ==> TestRun(b, duration) == Failure(WriteFailed(b.write.message))
    ensures b.write.Done? && b.build.Failed? ==> TestRun(b, duration) == Failure(BuildFailed(b.build.message))
  {
  }

  /** A failed run still yields a result, and that result did not pass. */
  lemma RunFailureAbsorbed(b: Backend, duration: int)
    requires b.write.Done? && b.build.Done? && b.run.RunFailed?
    ensures TestRun(b, duration).Success?
    ensures !TestRun(b, duration).value.passed && TestRun(b, duration).value.exitCode != 0
  {
  }

  /** Whether removing the image succeeds changes neither the result nor the error. */
  lemma RemovalIgnored(b: Backend, duration: int, removal: Step)
    ensures TestRun(b.(remove := removal), duration) == TestRun(b, duration)
  {
  }

  /** The image is removed exactly once, as the last call, on every path. */
  lemma {:induction false} ImageRemovedOnce(skillDir: string, image: string, dockerfile: string, b: Backend)
    ensures var calls := TestCalls(skillDir, image, dockerfile, b);
      Count(calls, RemoveImage(image)) == 1 && calls[|calls| - 1] == RemoveImage(image)
  {
    var first := [WriteFile(DockerfilePath(skillDir), dockerfile)];
    var middle := if b.write.Done? then [Build(image)] + (if b.build.Done? then [Run(image)] else []) else [];
    var calls := TestCalls(skillDir, image, dockerfile, b);
    assert calls == first + middle + [RemoveImage(image)];
    CountAbsent(first + middle, RemoveImage(image));
    CountAppend(first + middle, [RemoveImage(image)], RemoveImage(image));
  }

  /** The container runs only when the Dockerfile was written and the image built. */
  lemma RunOnlyWhenBuilt(skillDir: string, image: string, dockerfile: string, b: Backend)
    ensures Run(image) in TestCalls(skillDir, image, dockerfile, b) <==> b.write.Done? && b.build.Done?
    ensures Build(image) in TestCalls(skillDir, image, dockerfile, b) <==> b.write.Done?
  {
    var calls := TestCalls(skillDir, image, dockerfile, b);
    if b.write.Done? && b.build.Done? {
      assert calls[2] == Run(image);
    }
    if b.write.Done? {
      assert calls[1] == Build(image);
    }
  }
}
