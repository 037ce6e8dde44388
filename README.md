# Skill verifier, modelled in Dafny

This project models `SkillVerifier` from `verifier.js`. It verifies a skill
package in five steps:

1. It extracts the package into a work directory, one sub-directory per package name.
2. It loads the `SKILL.md` manifest from the `---` header block at the top of the file, and demands a non-empty `name` and `version`.
3. It renders a `Dockerfile.test` from the manifest, then builds an image and runs it once.
   - A failed run becomes a failing test result; it is not an error.
   - The image is removed on every way out, and a failed removal is ignored.
4. It attests the result. It computes the SHA-256 digest of a JSON summary `{skillId, passed, exitCode, duration}` and sends the raw digest to a quote service. The record keeps the digest in lower-case hex. If the quote fails, the attestation is unquoted.
5. It assembles the verification record named `name@version`. In its `finally` block it removes the extraction directory if that directory exists.

The modules follow the program's structure:

| module | file | what it holds |
|---|---|---|
| `Text` | `text.dfy` | JavaScript `indexOf`, `split`, `join` and `trim`, with the ECMAScript white-space set |
| `Manifest` | `manifest.dfy` | the lazy header pattern `^---\n([\s\S]*?)\n---`, the line parser (first colon, trimmed key and value, empty key dropped, later key wins) and `ManifestOf`, the specification of `loadManifest` |
| `Dockerfile` | `dockerfile.dfy` | the 13-line template and what it says line by line |
| `Json` | `json.dfy` | `JSON.stringify` for strings and integers, with a reader proving it can be read back |
| `Attestation` | `attestation.dfy` | the summary, its hash and the quote fallback |
| `Env` | `env.dfy` | class `Host`: the directories, the images, and a journal of every external call |
| `Runner` | `runner.dfy` | the specification of `runTests` |
| `Verifier` | `verifier.dfy` | the specification of `verify`, and class `SkillVerifier`, whose methods follow the JavaScript methods statement by statement |

How the environment is handled:

- Each outcome of the environment is an input. This covers extraction, each container command, the final `rm -rf`, the contents of `SKILL.md`, the clock readings, the container-name stamp and the ISO timestamp.
- SHA-256 and the quote service are function parameters.
- Every method of `SkillVerifier` is proved against a specification function, and the properties are proved about those functions.

`runTests` swallows a failed `docker rmi` (verifier.js:183-185). The `rm -rf` in `verify`'s `finally` block (verifier.js:75-77) is not guarded, so when it throws, its error replaces both the record and any earlier error. The model follows the code (`Verifier.Finish`, `Verifier.CleanupFailureWins`).

## Model

| member | source | states |
|---|---|---|
| Text.IndexOf | verifier.js:114 | the result is absent exactly when the character does not occur; otherwise it is the first occurrence |
| Text.Split | verifier.js:113-114 | `split` always returns at least one piece |
| Text.SplitPiecesFree | verifier.js:113-114 | no piece contains the separator |
| Text.JoinSplit | verifier.js:114-116 | joining the pieces of a split with the same separator gives back the original text |
| Text.SplitJoin | verifier.js:113 | splitting a join of separator-free pieces gives back the pieces |
| Text.Trim | verifier.js:116 | the result is the slice left after white space is removed from both ends, and it neither starts nor ends with white space |
| Manifest.Frontmatter | verifier.js:107 | a header exists exactly when the text starts with `---` and a line feed and a closing `\n---` follows; the header is the text up to the first such closing |
| Manifest.FrontmatterOfBlock | verifier.js:107 | a header block that holds no closing marker is read back exactly |
| Manifest.ParseLineAtFirstColon | verifier.js:114-116 | a line without a colon, or with a colon first, defines nothing; otherwise the key is the trimmed text before the first colon and the value is the trimmed rest, later colons included |
| Manifest.BlankKeyIsKept | verifier.js:115-116 | a key made only of white space is tested before trimming, so it is stored as the empty key |
| Manifest.EmptyKeyIsDropped | verifier.js:115 | a line that starts with a colon is skipped |
| Manifest.FieldsSnoc | verifier.js:113-118 | each further line updates the map as one `forEach` step |
| Manifest.FieldsLookup | verifier.js:112-118 | a key is in the map exactly when some line defines it, and its value comes from the last line that does |
| Manifest.FieldsSkipDropped | verifier.js:115 | a line that defines nothing changes nothing |
| Manifest.FieldsLastWins | verifier.js:116 | a later definition of a key overrides earlier ones |
| Manifest.FieldsSingleLine | verifier.js:113-116 | no key or value parsed from the header lines contains a line feed |
| Manifest.ManifestOf | verifier.js:98-126 | a loaded manifest has a non-empty name and version |
| Manifest.ManifestSingleLine | verifier.js:113 | every key and value of a loaded manifest fits on one line |
| Dockerfile.RenderIsJoin | verifier.js:196-208 | the template is its 13 lines joined with line feeds |
| Dockerfile.DockerfileLines | verifier.js:192-209 | for a loaded manifest, the rendered file splits into exactly the 13 template lines with the base image, install step and command substituted |
| Dockerfile.DockerfileInstallStep | verifier.js:203-204 | the file has a `RUN ` step exactly when `test_deps` is non-empty |
| Dockerfile.DockerfileBaseAndCommand | verifier.js:194-207 | line 1 is `FROM` with the runtime or `alpine:latest`; line 9 is the install step or blank; the last step is `CMD` with the test command or the placeholder; the file ends with a line feed |
| Json.NatString | verifier.js:219-220 | a number is written as a non-empty run of digits |
| Json.ReadQuotedString | verifier.js:216-221 | a string written by `JSON.stringify`, with its escapes, reads back as the same string followed by the same rest |
| Json.ReadIntString | verifier.js:219-220 | an integer written as JSON reads back as the same integer when no digit follows |
| Attestation.SummaryRoundTrip | verifier.js:216-221 | the serialised summary reads back as the same four fields |
| Attestation.SummaryJsonInjective | verifier.js:216-223 | distinct summaries serialise differently, so they are hashed from different texts |
| Attestation.HexRoundTrip | verifier.js:233 | the hex text gives back the digest bytes |
| Attestation.AttestationBindsSummary | verifier.js:216-241 | the recorded hash decodes to the SHA-256 of the summary; the quote is requested over that digest and recorded exactly when the request succeeds |
| Attestation.AttestationIgnoresOutput | verifier.js:216-233 | results that agree on passed, exit code and duration get the same recorded hash, whatever their output and whatever the quote service answers; for the same answer of the quote service they get the same attestation |
| Attestation.QuoteFallback | verifier.js:237-244 | a failed quote request gives no quote, verifier `none` and the note `No TEE available: ` followed by the message |
| Attestation.QuoteObtained | verifier.js:228-236 | a successful quote request gives that quote, verifier `dstack-simulator` and the simulator note |
| Runner.Classify | verifier.js:150-174 | passed exactly when the exit code is 0, exactly when the run succeeded; a failed run's exit code is its status, or 1 when that is missing or 0; stdout is the captured stdout, or empty when none was captured; stderr is the captured stderr, or the error message when that is missing or empty |
| Runner.TestRunFailures | verifier.js:134-144 | the stage fails exactly when the write or the build fails, with that step's message |
| Runner.RunFailureAbsorbed | verifier.js:154-174 | a failed run still returns a result, which did not pass and has a non-zero exit code |
| Runner.RemovalIgnored | verifier.js:176-186 | the outcome of removing the image changes neither the result nor the error |
| Runner.ImageRemovedOnce | verifier.js:176-186 | on every path, the image is removed exactly once, as the last call |
| Runner.RunOnlyWhenBuilt | verifier.js:137-159 | the build happens exactly when the write succeeded, and the run exactly when the build succeeded too |
| Runner.ImagesAfterOnlyOwn | verifier.js:141-144 | the stage touches no image but its own, and leaves that one behind only when removal fails |
| Env.Host.Unpack | verifier.js:84-93 | extraction adds the directory when it succeeds or fails part-way, and is logged |
| Env.Host.WriteFile | verifier.js:137 | writing the Dockerfile is logged and changes no directory or image |
| Env.Host.Build | verifier.js:141-144 | a successful build adds the image |
| Env.Host.Run | verifier.js:155-159 | running the container changes no directory or image |
| Env.Host.RemoveImage | verifier.js:179-182 | a successful `rmi` removes the image |
| Env.Host.RemoveDir | verifier.js:75-77 | a successful `rm -rf` removes the directory |
| Verifier.VerifySucceeds | verifier.js:36-79 | a record comes back exactly when extraction, the manifest, the write, the build and the final removal all succeed |
| Verifier.RecordContents | verifier.js:47-65 | the record is named `name@version`; it exposes name, version and description, carries the classified result and the given timestamp, and its attestation is exactly the one generated for the summary keyed by the package name, so a failed quote request still yields a record with no quote and verifier `none` |
| Verifier.ErrorsPropagate | verifier.js:36-72 | when the final removal does not throw, the first failing step's error comes out unchanged |
| Verifier.CleanupFailureWins | verifier.js:73-78 | a failed removal of an existing directory replaces the outcome, even a successful one |
| Verifier.CleanupExactlyOnce | verifier.js:73-78 | the extraction directory is removed exactly once, as the last call, when it exists, and never otherwise |
| Verifier.NoContainerWorkWithoutManifest | verifier.js:39-47 | without extraction and a valid manifest, nothing is written, built, run or removed in the container engine |
| Verifier.ImageRemovedOnceTestsReached | verifier.js:47 | once the test stage is reached, its image is removed exactly once during the whole run |
| Verifier.SkillVerifier.constructor | verifier.js:17-22 | the verifier keeps the given work directory |
| Verifier.SkillVerifier.LoadManifest | verifier.js:98-126 | returns `ManifestOf`: a missing file or header raises its error; otherwise it succeeds exactly when the parsed header has a non-empty name and version, returns that parsed map, and otherwise raises the missing-fields error; each error carries its message text |
| Verifier.SkillVerifier.ReadHeader | verifier.js:112-118 | the loop over the header lines builds exactly `Fields` of those lines |
| Verifier.SkillVerifier.VisitLine | verifier.js:113-117 | one `forEach` step stores what the line defines |
| Verifier.SkillVerifier.RunTests | verifier.js:131-187 | returns `TestRun`, makes the calls of `TestCalls` in order, and leaves the images as `ImagesAfter` says |
| Verifier.SkillVerifier.Verify | verifier.js:29-79 | returns `Outcome`, makes the calls of `VerifyCalls`, leaves the extraction directory behind only when it existed and its removal failed, and touches no other directory (for package names the shell reads as one word) |
| Verifier.SkillVerifier.Pipeline | verifier.js:36-69 | the `try` block: returns `Attempt` and makes the calls of `PipelineCalls` |
| Verifier.SkillVerifier.LoadAndTest | verifier.js:42-65 | after extraction: returns `Attempt` and makes only the test-stage calls |
| Verifier.SkillVerifier.TestAndRecord | verifier.js:45-65 | with a loaded manifest: returns `Conclude` and makes the calls of `TestCalls` |

## Left out

- `extractSkill`'s internals (`statSync`, `cp -r`, `mkdir`, `tar -xzf`) are not modelled. Extraction is an input outcome: it succeeded, or it failed and may have left the directory behind.
- The contents of the package are not modelled. `SKILL.md` is an optional text input.
- SHA-256 and the UTF-8 encoding are not modelled. They are the `sha256` function parameter.
- `getQuote`'s mock returns random bytes and never fails. It is the `getQuote` function parameter, whose failure case stands for a real enclave call that throws.
- `Date.now` and `toISOString` are not modelled. The clock readings, the container-name stamp and the timestamp are inputs.
- The 30-second timeout of `docker run` is not modelled apart. A run that times out is a failed run outcome.
- Console logging, the `DOCKER_HOST` environment variable, the unused simulator socket path, and the command-line entry point that prints and saves the record are not modelled.
- `Verifier.SkillVerifier.constructor`: the work directory is a parameter. Creating it with `mkdirSync` is not modelled.
- `path.basename` and `path.extname` are not modelled. The package name is an input.
- `path.join` is modelled as concatenation with `/`, with no normalisation.
- The manifest is a plain map. JavaScript's special handling of a `__proto__` key is not modelled.
- Dafny characters are Unicode scalar values, so text holding lone UTF-16 surrogates cannot be represented.
- `Json` covers only the JSON that the summary needs: strings, integers and booleans.
- `Env.Host.RemoveDir` tracks directories only, not the files inside them.
- `Env.Host.Run` does not model the container itself, which `--rm` discards.
- Reading `SKILL.md` when it exists but cannot be read, for example because it is a directory or not readable, throws in the source. It is not modelled, because `SKILL.md` is either present with its text or absent.
- `Json.IntString` writes every digit of an unbounded integer. JavaScript numbers are doubles, and `JSON.stringify` writes those of 1e21 and above in exponent form. That form, and non-integral numbers, are not modelled. Exit codes and durations stay far below that bound.
- `Env.Host.RemoveDir` removes exactly the directory it names. The source puts paths into shell commands unquoted (verifier.js:76, 87, 91 and 141), so the shell splits a name with white space or shell metacharacters into other words. The command strings are not modelled, so the removal properties hold only for names the shell reads as one word.
- `Verifier.SkillVerifier.Verify` (and `Verifier.CleanupExactlyOnce`) leaves only the extraction directory changed. That holds only for package names the shell reads as one word: for `my skill.tgz`, `rm -rf …/work/my skill` removes `…/work/my` and `./skill` and leaves the extraction directory in place.
