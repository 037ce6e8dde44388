/**
 * The machine the verifier drives: the file system holding extracted
 * packages, the container engine holding built images, and a journal of
 * the calls made to them. Each call's outcome is decided by the
 * environment and handed in as a value.
 */
module Env {
  import opened Wrappers

  /** What one shell or file-system call did. */
  datatype Step = Done | Failed(message: string)

  /**
   * Unpacking a package. A failure may leave a partly filled target
   * directory behind (the tarball path creates it before `tar` runs).
   */
  datatype Extraction = Extracted | NotExtracted(message: string, leftBehind: bool)

  /**
   * Running the test container. A failed run carries what the
   * child-process error object does: an exit status, captured output
   * and a message, each of the first three possibly absent.
   */
  datatype RunOutcome =
    | Ran(output: string)
    | RunFailed(status: Option<int>, capturedOut: Option<string>, capturedErr: Option<string>, message: string)

  /** One call into the environment, as recorded in the journal. */
  datatype Call =
    | Unpack(dir: string)
    | WriteFile(path: string, content: string)
    | Build(image: string)
    | Run(image: string)
    | RemoveImage(image: string)
    | RemoveDir(dir: string)

  /** How many times `c` occurs in `calls`. */
  function Count(calls: seq<Call>, c: Call): nat
  {
    if calls == [] then 0
    else (if calls[0] == c then 1 else 0) + Count(calls[1..], c)
  }

  lemma {:induction false} CountAppend(a: seq<Call>, b: seq<Call>, c: Call)
    ensures Count(a + b, c) == Count(a, c) + Count(b, c)
    decreases |a|
  {
    if a == [] {
      assert a + b == b;
    } else {
      assert (a + b)[1..] == a[1..] + b;
      CountAppend(a[1..], b, c);
    }
  }

  lemma AppendAssoc(a: seq<Call>, b: seq<Call>, c: seq<Call>)
    ensures a + (b + c) == a + b + c
  {
  }

  lemma {:induction false} CountAbsent(calls: seq<Call>, c: Call)
    ensures Count(calls, c) == 0 <==> c !in calls
    decreases |calls|
  {
    if calls != [] {
      CountAbsent(calls[1..], c);
      assert calls == [calls[0]] + calls[1..];
    }
  }

  class Host {
    /** Directories that exist. */
    var dirs: set<string>
    /** Container images that exist. */
    var images: set<string>
    /** Every call made so far, oldest first. */
    var journal: seq<Call>

    constructor (dirs: set<string>, images: set<string>)
      ensures this.dirs == dirs && this.images == images && journal == []
    {
      this.dirs := dirs;
      this.images := images;
      journal := [];
    }

    /** Copies or untars a package into `dir`. */
    method Unpack(dir: string, e: Extraction) returns (s: Step)
      modifies this
      ensures s == if e.Extracted? then Done else Failed(e.message)
      ensures dirs == if e.Extracted? || e.leftBehind then old(dirs) + {dir} else old(dirs)
      ensures images == old(images)
      ensures journal == old(journal) + [Call.Unpack(dir)]
    {
      if e.Extracted? || e.leftBehind {
        dirs := dirs + {dir};
      }
      journal := journal + [Call.Unpack(dir)];
      s := if e.Extracted? then Done else Failed(e.message);
    }

    method WriteFile(path: string, content: string, outcome: Step) returns (s: Step)
      modifies this
      ensures s == outcome
      ensures dirs == old(dirs) && images == old(images)
      ensures journal == old(journal) + [Call.WriteFile(path, content)]
    {
      journal := journal + [Call.WriteFile(path, content)];
      s := outcome;
    }

    /** `docker build`: the image exists afterwards when the build succeeds. */
    method Build(image: string, outcome: Step) returns (s: Step)
      modifies this
      ensures s == outcome
      ensures images == if outcome.Done? then old(images) + {image} else old(images)
      ensures dirs == old(dirs)
      ensures journal == old(journal) + [Call.Build(image)]
    {
      if outcome.Done? {
        images := images + {image};
      }
      journal := journal + [Call.Build(image)];
      s := outcome;
    }

    /** `docker run --rm`: the container goes away with the run; the image stays. */
    method Run(image: string, outcome: RunOutcome) returns (r: RunOutcome)
      modifies this
      ensures r == outcome
      ensures dirs == old(dirs) && images == old(images)
      ensures journal == old(journal) + [Call.Run(image)]
    {
      journal := journal + [Call.Run(image)];
      r := outcome;
    }

    /** `docker rmi`. */
    method RemoveImage(image: string, outcome: Step) returns (s: Step)
      modifies this
      ensures s == outcome
      ensures images == if outcome.Done? then old(images) - {image} else old(images)
      ensures dirs == old(dirs)
      ensures journal == old(journal) + [Call.RemoveImage(image)]
    {
      if outcome.Done? {
        images := images - {image};
      }
      journal := journal + [Call.RemoveImage(image)];
      s := outcome;
    }

    /** `rm -rf`. */
    method RemoveDir(dir: string, outcome: Step) returns (s: Step)
      modifies this
      ensures s == outcome
      ensures dirs == if outcome.Done? then old(dirs) - {dir} else old(dirs)
      ensures images == old(images)
      ensures journal == old(journal) + [Call.RemoveDir(dir)]
    {
      if outcome.Done? {
        dirs := dirs - {dir};
      }
      journal := journal + [Call.RemoveDir(dir)];
      s := outcome;
    }
  }
}
