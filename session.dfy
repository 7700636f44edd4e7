/** Values shared by both versions of the movie export session. */
module Session {
  import opened FrameNames

  /** A caller-supplied raster frame; only its size matters to the session. */
  datatype Image = Image(width: int, height: int)

  /**
   * How the external encoder run ended: the process completed with some exit
   * status, having written the movie file or not, or starting it, reading its
   * output or waiting for it failed.
   */
  datatype ProcessOutcome = Completed(exitStatus: int, movieWritten: bool) | IOFailed | Interrupted

  /**
   * How `ImageIO.write` of a frame ended: it wrote the file and returned
   * true, it found no PNG writer for the image and returned false without
   * writing anything, or it threw an IOException.
   */
  datatype PngWrite = Written | NoWriter | WriteFailed

  /** The checked exception that `save` wraps in a RuntimeException. */
  datatype ProcessFailure = IOFailure | InterruptedWait

  /** The errors a session raises. */
  datatype MovieError =
    | DimensionMismatch           // the frame is not the size of the movie
    | FrameWriteFailed            // the PNG could not be written
    | EncodeFailed(cause: ProcessFailure)
    | NullCommandElement          // the encoder command holds a null argument

  datatype Outcome = Pass | Fail(error: MovieError)

  /** A naming of frame indices that gives distinct indices distinct paths. */
  ghost predicate Injective(name: nat -> string) {
    forall i: nat, j: nat :: name(i) == name(j) ==> i == j
  }

  /** The naming of a session's frames: index i is staged at FramePath(base, i). */
  ghost function FrameNaming(base: string): (name: nat -> string)
    ensures Injective(name)
    ensures forall i: nat :: name(i) == FramePath(base, i)
  {
    FramePathsInjective(base);
    (i: nat) => FramePath(base, i)
  }

  lemma FramePathsInjective(base: string)
    ensures forall i: nat, j: nat :: FramePath(base, i) == FramePath(base, j) ==> i == j
  {
    forall i: nat, j: nat
      ensures FramePath(base, i) == FramePath(base, j) ==> i == j
    {
      FramePathInjective(base, i, j);
    }
  }

  /** The paths of frames 0 .. n-1. */
  ghost function StagedPaths(name: nat -> string, n: nat): set<string>
    decreases n
  {
    if n == 0 then {} else StagedPaths(name, n - 1) + {name(n - 1)}
  }

  /** The path of frame i is among the first n exactly when i < n. */
  lemma {:induction false} StagedPathsMember(name: nat -> string, n: nat, i: nat)
    requires Injective(name)
    ensures name(i) in StagedPaths(name, n) <==> i < n
    decreases n
  {
    if n > 0 {
      StagedPathsMember(name, n - 1, i);
    }
  }

  /** Every staged path is the path of some frame below n. */
  lemma {:induction false} StagedPathsAreFrames(name: nat -> string, n: nat, p: string)
    requires p in StagedPaths(name, n)
    ensures exists i: nat :: i < n && p == name(i)
    decreases n
  {
    if p != name(n - 1) {
      StagedPathsAreFrames(name, n - 1, p);
    }
  }

  /** No frame file with an index at or beyond n exists in paths. */
  ghost predicate NoneBeyond(name: nat -> string, paths: set<string>, n: nat) {
    forall i: nat :: name(i) in paths ==> i < n
  }

  /** The frame file of every index below n exists in paths. */
  ghost predicate AllBelow(name: nat -> string, paths: set<string>, n: nat) {
    forall i: nat :: i < n ==> name(i) in paths
  }

  /** No frame file exists in paths. */
  ghost predicate NoFrameFiles(name: nat -> string, paths: set<string>) {
    forall i: nat :: name(i) !in paths
  }

  /** A path that names no frame is outside the staged paths. */
  lemma OtherNotStaged(name: nat -> string, n: nat, p: string)
    requires forall i: nat :: name(i) != p
    ensures p !in StagedPaths(name, n)
  {
    if p in StagedPaths(name, n) {
      StagedPathsAreFrames(name, n, p);
    }
  }

  /** Creating a file that names no frame keeps every frame file below n. */
  lemma AddOtherFile(name: nat -> string, paths: set<string>, n: nat, p: string)
    requires NoneBeyond(name, paths, n)
    requires forall i: nat :: name(i) != p
    ensures NoneBeyond(name, paths + {p}, n)
  {
  }

  /**
   * Writing frame n of a session with n frames: the file is new, nothing
   * beyond n + 1 appears, and if frames 0 .. n-1 were all present then
   * frames 0 .. n are.
   */
  lemma StageFrame(name: nat -> string, paths: set<string>, n: nat)
    requires Injective(name)
    requires NoneBeyond(name, paths, n)
    ensures name(n) !in paths
    ensures NoneBeyond(name, paths + {name(n)}, n + 1)
    ensures AllBelow(name, paths, n) ==> AllBelow(name, paths + {name(n)}, n + 1)
  {
  }

  /**
   * Deleting the frame files 0 .. n-1 of a session whose files all lie
   * below n leaves no frame file of it, and changes nothing if none was there.
   */
  lemma RemoveStaged(name: nat -> string, paths: set<string>, n: nat)
    requires Injective(name)
    requires NoneBeyond(name, paths, n)
    ensures NoFrameFiles(name, paths - StagedPaths(name, n))
    ensures NoFrameFiles(name, paths) ==> paths - StagedPaths(name, n) == paths
  {
    forall i: nat
      ensures name(i) !in paths - StagedPaths(name, n)
    {
      StagedPathsMember(name, n, i);
    }
    if NoFrameFiles(name, paths) {
      forall p | p in StagedPaths(name, n)
        ensures p !in paths
      {
        StagedPathsAreFrames(name, n, p);
      }
    }
  }

  /**
   * Starting from a file system without frame files, the paths after
   * staging frames 0 .. n-1 are those of the start plus exactly the
   * staged ones, and they satisfy both staging predicates.
   */
  lemma {:induction false} StagedFromFresh(name: nat -> string, start: set<string>, n: nat)
    requires Injective(name)
    requires NoFrameFiles(name, start)
    ensures NoneBeyond(name, start + StagedPaths(name, n), n)
    ensures AllBelow(name, start + StagedPaths(name, n), n)
    decreases n
  {
    if n == 0 {
      assert start + StagedPaths(name, 0) == start;
    } else {
      StagedFromFresh(name, start, n - 1);
      StageFrame(name, start + StagedPaths(name, n - 1), n - 1);
      assert start + StagedPaths(name, n) == start + StagedPaths(name, n - 1) + {name(n - 1)};
    }
  }

  /** The files an encoder run leaves behind: the movie file, when the run completed and wrote it. */
  function MovieOutput(launch: ProcessOutcome, movieFilename: string): set<string> {
    if launch.Completed? && launch.movieWritten then {movieFilename} else {}
  }

  /**
   * What `save` reports once the command is launched: success whenever the
   * process ran to completion, whatever its exit status, and the wrapped
   * exception otherwise.
   */
  function EncodeResult(launch: ProcessOutcome): (r: Outcome)
    ensures r.Pass? <==> launch.Completed?
    ensures launch.IOFailed? ==> r == Fail(EncodeFailed(IOFailure))
    ensures launch.Interrupted? ==> r == Fail(EncodeFailed(InterruptedWait))
  {
    match launch
    case Completed(_, _) => Pass
    case IOFailed => Fail(EncodeFailed(IOFailure))
    case Interrupted => Fail(EncodeFailed(InterruptedWait))
  }

  /** The encoder's exit status, and whether it wrote the movie file, never affect the outcome of `save`. */
  lemma ExitStatusIgnored(s1: int, w1: bool, s2: int, w2: bool)
    ensures EncodeResult(Completed(s1, w1)) == EncodeResult(Completed(s2, w2)) == Pass
  {
  }
}
