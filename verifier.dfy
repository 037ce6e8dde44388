/**
 * `SkillVerifier`: the pipeline that extracts a package, loads its
 * manifest, runs its tests in a container, attests the result and
 * assembles the verification record, removing the extraction directory
 * on the way out.
 */
module Verifier {
  import opened Wrappers
  import opened Text
  import opened Errors
  import opened Manifest
  import opened Dockerfile
  import opened Env
  import opened Runner
  import opened Attestation

  /** The part of the manifest the record exposes. */
  datatype ManifestView = ManifestView(name: string, version: string, description: Option<string>)

  datatype VerificationRecord = VerificationRecord(
    skillId: string,
    timestamp: string,
    duration: int,
    result: TestResult,
    attestation: Attestation,
    manifest: ManifestView)

  /** Clock readings: the start of `verify`, around the test run, and when the record is made. */
  datatype Clock = Clock(start: int, runStart: int, runEnd: int, finish: int)

  /**
   * Everything the environment decides during one run: how extraction,
   * each container call and the final `rm -rf` turn out, the content of
   * SKILL.md (None when it is absent), the hash and quote capabilities,
   * the container-name stamp, the ISO timestamp and the clock.
   */
  datatype World = World(
    extraction: Extraction,
    skillFile: Option<string>,
    backend: Backend,
    sha256: string -> seq<byte>,
    getQuote: seq<byte> -> QuoteOutcome,
    cleanup: Step,
    stamp: string,
    timestamp: string,
    clock: Clock)

  function ExtractDir(workDir: string, packageName: string): string
  {
    workDir + "/" + packageName
  }

  function ViewOf(m: Entries): ManifestView
    requires "name" in m && "version" in m
  {
    ManifestView(m["name"], m["version"], Lookup(m, "description"))
  }

  /** What the `try` block returns or throws. */
  function Attempt(packageName: string, w: World): Result<VerificationRecord, Error>
  {
    if w.extraction.NotExtracted? then Failure(ExtractFailed(w.extraction.message))
    else
      var m :- ManifestOf(w.skillFile);
      Conclude(packageName, m, w)
  }

  /** The rest of the `try` block once the manifest is loaded: test, attest, assemble. */
  function Conclude(packageName: string, m: Entries, w: World): Result<VerificationRecord, Error>
    requires "name" in m && "version" in m
  {
    var t :- TestRun(w.backend, w.clock.runEnd - w.clock.runStart);
    Success(Record(m, t, GenerateAttestation(packageName, t, w.sha256, w.getQuote), w))
  }

  /** The record `verify` returns for a manifest, a test result and its attestation. */
  function Record(m: Entries, t: TestResult, a: Attestation, w: World): VerificationRecord
    requires "name" in m && "version" in m
  {
    VerificationRecord(m["name"] + "@" + m["version"], w.timestamp, w.clock.finish - w.clock.start, t, a, ViewOf(m))
  }

  /** Whether the extraction directory exists when the `finally` block checks. */
  predicate Present(dirs: set<string>, dir: string, e: Extraction)
  {
    dir in dirs || e.Extracted? || e.leftBehind
  }

  /**
   * The `finally` block: when the directory exists it is removed, and a
   * failed removal throws, replacing whatever the `try` block produced.
   */
  function Finish(attempt: Result<VerificationRecord, Error>, present: bool, cleanup: Step): Result<VerificationRecord, Error>
  {
    if present && cleanup.Failed? then Failure(CleanupFailed(cleanup.message)) else attempt
  }

  /** What `verify` returns or throws, given the directories that existed before. */
  function Outcome(workDir: string, dirs: set<string>, packageName: string, w: World): Result<VerificationRecord, Error>
  {
    Finish(Attempt(packageName, w), Present(dirs, ExtractDir(workDir, packageName), w.extraction), w.cleanup)
  }

  /** The run reaches the test stage: extraction worked and the manifest loaded. */
  predicate ReachesTests(w: World)
  {
    w.extraction.Extracted? && ManifestOf(w.skillFile).Success?
  }

  /** The calls the `try` block of `verify` makes, in order. */
  function PipelineCalls(dir: string, w: World): seq<Call>
  {
    [Unpack(dir)] + TestStageCalls(dir, w)
  }

  /** The calls of the test stage, which is reached only with a loaded manifest. */
  function TestStageCalls(dir: string, w: World): seq<Call>
  {
    if ReachesTests(w) then TestCalls(dir, ImageName(w.stamp), GenerateDockerfile(ManifestOf(w.skillFile).value), w.backend) else []
  }

  /** The images after a run: only the test stage touches them. */
  function ImagesAfterRun(images: set<string>, w: World): set<string>
  {
    if ReachesTests(w) then ImagesAfter(images, ImageName(w.stamp), w.backend) else images
  }

  /** The calls `verify` makes, in order. */
  function VerifyCalls(dir: string, dirs: set<string>, w: World): seq<Call>
  {
    PipelineCalls(dir, w) + (if Present(dirs, dir, w.extraction) then [RemoveDir(dir)] else [])
  }

  /** A record comes back exactly when every fatal step and the final removal succeed. */
  lemma VerifySucceeds(workDir: string, dirs: set<string>, packageName: string, w: World)
    ensures Outcome(workDir, dirs, packageName, w).Success? <==>
      w.extraction.Extracted? && ManifestOf(w.skillFile).Success?
      && w.backend.write.Done? && w.backend.build.Done? && w.cleanup.Done?
  {
  }

  /**
   * The record names the skill `name@version` from the manifest, exposes
   * three of its fields, carries the classified test result, and attests
   * a summary keyed by the package name rather than by that identifier.
   */
  lemma RecordContents(workDir: string, dirs: set<string>, packageName: string, w: World)
    requires Outcome(workDir, dirs, packageName, w).Success?
    ensures var rec := Outcome(workDir, dirs, packageName, w).value;
      var m := ManifestOf(w.skillFile).value;
      && ManifestOf(w.skillFile).Success?
      && rec.skillId == m["name"] + "@" + m["version"]
      && rec.manifest == ManifestView(m["name"], m["version"], Lookup(m, "description"))
      && rec.result == Classify(w.backend.run, w.clock.runEnd - w.clock.runStart)
      && (rec.result.passed <==> w.backend.run.Ran?)
      && ReadHex(rec.attestation.resultHash) == Some(w.sha256(SummaryJson(Summary(
           packageName, rec.result.passed, rec.result.exitCode, rec.result.duration))))
      && rec.duration == w.clock.finish - w.clock.start
      && rec.timestamp == w.timestamp
      && rec.attestation == GenerateAttestation(packageName, rec.result, w.sha256, w.getQuote)
  {
    var rec := Outcome(workDir, dirs, packageName, w).value;
    AttestationBindsSummary(packageName, rec.result, w.sha256, w.getQuote);
  }

  /**
   * When the final removal does not throw, the first failing step's
   * error comes out unchanged.
   */
  lemma ErrorsPropagate(workDir: string, dirs: set<string>, packageName: string, w: World)
    requires w.cleanup.Done? || !Present(dirs, ExtractDir(workDir, packageName), w.extraction)
    ensures var r := Outcome(workDir, dirs, packageName, w);
      && (w.extraction.NotExtracted? ==> r == Failure(ExtractFailed(w.extraction.message)))
      && (w.extraction.Extracted? && ManifestOf(w.skillFile).Failure? ==> r == Failure(ManifestOf(w.skillFile).error))
      && (ReachesTests(w) && w.backend.write.Failed? ==> r == Failure(WriteFailed(w.backend.write.message)))
      && (ReachesTests(w) && w.backend.write.Done? && w.backend.build.Failed? ==> r == Failure(BuildFailed(w.backend.build.message)))
  {
  }

  /** A failed removal of an existing directory throws, even after a successful run. */
  lemma CleanupFailureWins(workDir: string, dirs: set<string>, packageName: string, w: World)
    requires Present(dirs, ExtractDir(workDir, packageName), w.extraction) && w.cleanup.Failed?
    ensures Outcome(workDir, dirs, packageName, w) == Failure(CleanupFailed(w.cleanup.message))
  {
  }

  /**
   * The extraction directory is removed exactly once, as the last call,
   * whenever it exists, and never otherwise.
   */
  lemma {:induction false} CleanupExactlyOnce(dir: string, dirs: set<string>, w: World)
    ensures var calls := VerifyCalls(dir, dirs, w);
      && (Present(dirs, dir, w.extraction) ==> Count(calls, RemoveDir(dir)) == 1 && calls[|calls| - 1] == RemoveDir(dir))
      && (!Present(dirs, dir, w.extraction) ==> Count(calls, RemoveDir(dir)) == 0)
  {
    var head := PipelineCalls(dir, w);
    var tail := if Present(dirs, dir, w.extraction) then [RemoveDir(dir)] else [];
    assert forall c :: c in TestStageCalls(dir, w) ==> !c.RemoveDir?;
    assert forall c :: c in head ==> !c.RemoveDir?;
    CountAbsent(head, RemoveDir(dir));
    CountAppend(head, tail, RemoveDir(dir));
  }

  /** Without an extracted package and a valid manifest, no container work happens. */
  lemma NoContainerWorkWithoutManifest(dir: string, dirs: set<string>, w: World)
    requires !ReachesTests(w)
    ensures forall c :: c in VerifyCalls(dir, dirs, w) ==> c.Unpack? || c.RemoveDir?
  {
  }

  /** Once the test stage is reached, its image is removed exactly once. */
  lemma {:induction false} ImageRemovedOnceTestsReached(dir: string, dirs: set<string>, w: World)
    requires ReachesTests(w)
    ensures Count(VerifyCalls(dir, dirs, w), RemoveImage(ImageName(w.stamp))) == 1
  {
    var image := ImageName(w.stamp);
    var tests := TestCalls(dir, image, GenerateDockerfile(ManifestOf(w.skillFile).value), w.backend);
    var tail := if Present(dirs, dir, w.extraction) then [RemoveDir(dir)] else [];
    assert VerifyCalls(dir, dirs, w) == [Unpack(dir)] + tests + tail;
    ImageRemovedOnce(dir, image, GenerateDockerfile(ManifestOf(w.skillFile).value), w.backend);
    CountAppend([Unpack(dir)], tests, RemoveImage(image));
    CountAppend([Unpack(dir)] + tests, tail, RemoveImage(image));
    CountAbsent([Unpack(dir)], RemoveImage(image));
    CountAbsent(tail, RemoveImage(image));
  }

  class SkillVerifier {
    /** Where packages are extracted, one directory per package name. */
    const workDir: string

    constructor (workDir: string)
      ensures this.workDir == workDir
    {
      this.workDir := workDir;
    }

    /**
     * `loadManifest`: finds the header, reads it into a map, then checks
     * the two required fields.
     */
    method LoadManifest(skillFile: Option<string>) returns (r: Result<Entries, Error>)
      ensures r == ManifestOf(skillFile)
      ensures skillFile.None? ==> r == Failure(ManifestNotFound)
      ensures skillFile.Some? && Frontmatter(skillFile.value).None? ==> r == Failure(NoFrontmatter)
      ensures r.Success? ==> HasValue(r.value, "name") && HasValue(r.value, "version")
      ensures r.Success? <==> (skillFile.Some? && Frontmatter(skillFile.value).Some?
        && HasValue(Fields(Split(Frontmatter(skillFile.value).value, '\n')), "name")
        && HasValue(Fields(Split(Frontmatter(skillFile.value).value, '\n')), "version"))
      ensures r.Success? ==> r.value == Fields(Split(Frontmatter(skillFile.value).value, '\n'))
      ensures skillFile.Some? && Frontmatter(skillFile.value).Some? && r.Failure? ==> r.error == MissingFields
      ensures r.Failure? ==>
                Message(r.error) == (if skillFile.None? then "No SKILL.md found in package"
                  else if Frontmatter(skillFile.value).None? then "Invalid SKILL.md: no frontmatter found"
                  else "Manifest missing required fields: name, version")
    {
      if skillFile.None? {
        return Failure(ManifestNotFound);
      }
      var header := Frontmatter(skillFile.value);
      if header.None? {
        return Failure(NoFrontmatter);
      }
      var manifest := ReadHeader(Split(header.value, '\n'));
      if !HasValue(manifest, "name") || !HasValue(manifest, "version") {
        return Failure(MissingFields);
      }
      return Success(manifest);
    }

    /**
     * The `forEach` over the header lines: each line with a colon after a
     * non-empty raw key sets its trimmed key to its trimmed value.
     */
    method ReadHeader(lines: seq<string>) returns (manifest: Entries)
      ensures manifest == Fields(lines)
    {
      manifest := map[];
      var i := 0;
      while i < |lines|
        invariant 0 <= i <= |lines|
        invariant manifest == Fields(lines[..i])
      {
        manifest := VisitLine(manifest, lines[i]);
        assert manifest == Fields(lines[..i + 1]) by {
          FieldsSnoc(lines[..i], lines[i]);
          assert lines[..i + 1] == lines[..i] + [lines[i]];
        }
        i := i + 1;
      }
      assert lines[..i] == lines;
    }

    /** The `forEach` callback: stores the line's trimmed pair when it has one. */
    method VisitLine(manifest: Entries, line: string) returns (updated: Entries)
      ensures updated == Store(manifest, ParseLine(line))
    {
      var parts := Split(line, ':');
      updated := manifest;
      if parts[0] != "" && |parts| > 1 {
        updated := manifest[Trim(parts[0]) := Trim(Join(parts[1..], ':'))];
      }
    }

    /**
     * `runTests`: writes the Dockerfile, builds and runs the image, folds
     * a failed run into the result, and always tries to remove the image,
     * ignoring whether that works.
     */
    method RunTests(host: Host, skillDir: string, manifest: Entries, stamp: string,
                    b: Backend, runStart: int, runEnd: int) returns (r: Result<TestResult, Error>)
      modifies host
      ensures r == TestRun(b, runEnd - runStart)
      ensures host.journal == old(host.journal) + TestCalls(skillDir, ImageName(stamp), GenerateDockerfile(manifest), b)
      ensures host.images == ImagesAfter(old(host.images), ImageName(stamp), b)
      ensures host.dirs == old(host.dirs)
    {
      var image := ImageName(stamp);
      var dockerfile := GenerateDockerfile(manifest);
      var written := host.WriteFile(DockerfilePath(skillDir), dockerfile, b.write);
      if written.Failed? {
        r := Failure(WriteFailed(written.message));
      } else {
        var built := host.Build(image, b.build);
        if built.Failed? {
          r := Failure(BuildFailed(built.message));
        } else {
          var stdout, stderr, exitCode := "", "", 0;
          var outcome := host.Run(image, b.run);
          match outcome {
            case Ran(output) =>
              stdout := output;
            case RunFailed(status, out, err, message) =>
              exitCode := if status.Some? && status.value != 0 then status.value else 1;
              stdout := if out.Some? then out.value else "";
              stderr := if err.Some? && err.value != "" then err.value else message;
          }
          var duration := runEnd - runStart;
          r := Success(TestResult(exitCode == 0, exitCode, stdout, stderr, duration));
        }
      }
      var _ := host.RemoveImage(image, b.remove);
    }

    /**
     * `verify`: the pipeline, then the removal of the extraction directory
     * if it exists. `packageName` is the package path's base name without
     * its extension.
     */
    method Verify(host: Host, packageName: string, w: World) returns (r: Result<VerificationRecord, Error>)
      modifies host
      ensures r == Outcome(workDir, old(host.dirs), packageName, w)
      ensures host.journal == old(host.journal) + VerifyCalls(ExtractDir(workDir, packageName), old(host.dirs), w)
      ensures var dir := ExtractDir(workDir, packageName);
        && host.dirs - {dir} == old(host.dirs) - {dir}
        && (dir in host.dirs <==> Present(old(host.dirs), dir, w.extraction) && w.cleanup.Failed?)
      ensures host.images == ImagesAfterRun(old(host.images), w)
    {
      var dir := ExtractDir(workDir, packageName);
      r := Pipeline(host, dir, packageName, w);
      if dir in host.dirs {
        var removed := host.RemoveDir(dir, w.cleanup);
        if removed.Failed? {
          r := Failure(CleanupFailed(removed.message));
        }
      }
    }

    /** The `try` block of `verify`: extract, then the rest. */
    method Pipeline(host: Host, dir: string, packageName: string, w: World) returns (r: Result<VerificationRecord, Error>)
      modifies host
      ensures r == Attempt(packageName, w)
      ensures host.journal == old(host.journal) + PipelineCalls(dir, w)
      ensures host.dirs == if w.extraction.Extracted? || w.extraction.leftBehind then old(host.dirs) + {dir} else old(host.dirs)
      ensures host.images == ImagesAfterRun(old(host.images), w)
    {
      var unpacked := host.Unpack(dir, w.extraction);
      AppendAssoc(old(host.journal), [Unpack(dir)], TestStageCalls(dir, w));
      if unpacked.Failed? {
        assert TestStageCalls(dir, w) == [];
        assert host.journal == old(host.journal) + [Unpack(dir)] + [];
        return Failure(ExtractFailed(unpacked.message));
      }
      r := LoadAndTest(host, dir, packageName, w);
    }

    /** After extraction: load the manifest, then test, attest and assemble. */
    method LoadAndTest(host: Host, dir: string, packageName: string, w: World) returns (r: Result<VerificationRecord, Error>)
      requires w.extraction.Extracted?
      modifies host
      ensures r == Attempt(packageName, w)
      ensures host.journal == old(host.journal) + TestStageCalls(dir, w)
      ensures host.dirs == old(host.dirs)
      ensures host.images == ImagesAfterRun(old(host.images), w)
    {
      var manifest := LoadManifest(w.skillFile);
      if manifest.Failure? {
        assert host.journal == old(host.journal) + [];
        return Failure(manifest.error);
      }
      r := TestAndRecord(host, dir, packageName, manifest.value, w);
    }

    /** Runs the tests, attests the result and assembles the record. */
    method TestAndRecord(host: Host, dir: string, packageName: string, m: Entries, w: World)
      returns (r: Result<VerificationRecord, Error>)
      requires "name" in m && "version" in m
      modifies host
      ensures r == Conclude(packageName, m, w)
      ensures host.journal == old(host.journal) + TestCalls(dir, ImageName(w.stamp), GenerateDockerfile(m), w.backend)
      ensures host.dirs == old(host.dirs)
      ensures host.images == ImagesAfter(old(host.images), ImageName(w.stamp), w.backend)
    {
      var testResult := RunTests(host, dir, m, w.stamp, w.backend, w.clock.runStart, w.clock.runEnd);
      if testResult.Failure? {
        return Failure(testResult.error);
      }
      var t := testResult.value;
      var attestation := GenerateAttestation(packageName, t, w.sha256, w.getQuote);
      return Success(Record(m, t, attestation, w));
    }
  }
}
