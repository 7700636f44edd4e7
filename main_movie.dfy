/**
 * The movie export session of src/main/java/simovex/Movie.java: frames are
 * staged as numbered temporary PNG files exactly as in the other version,
 * but `save` runs ffmpeg with a fixed argument list that ignores the codec
 * and quality settings, and removes the staged files afterwards.
 */
module MainMovie {
  import opened FrameNames
  import opened Files
  import opened Encoder
  import opened Session

  class Movie {
    const movieFilename: string
    const width: int
    const height: int
    const codecType: CodecType
    const compressionQuality: CompressionQuality
    const verbose: bool
    var frameCount: nat
    const temporaryFileTemplate: string
    /** The unique temporary path the template was derived from. */
    ghost const tempBase: string
    /** The file system the staged frames are written to. */
    const fs: FileSystem

    /**
     * The template is `<tempBase>-%05d.png`, formatting it yields exactly one
     * conversion, and the movie file is not named like a frame of it.
     */
    ghost predicate NamesValid() {
      '%' !in tempBase && temporaryFileTemplate == FrameTemplate(tempBase)
      && ParseFramePath(tempBase, movieFilename).None?
    }

    /** The session invariant: no staged file of this session exists at or beyond the frame counter. */
    ghost predicate Valid()
      reads this, fs
    {
      NamesValid() && NoneBeyond(FrameNaming(tempBase), fs.paths, frameCount)
    }

    /** Every frame below the counter is on disk; with Valid, the session's files are exactly frames 0 .. frameCount-1. */
    ghost predicate AllStaged()
      reads this, fs
    {
      AllBelow(FrameNaming(tempBase), fs.paths, frameCount)
    }

    /** No staged file of this session exists. */
    ghost predicate NoneStaged()
      reads fs
    {
      NoFrameFiles(FrameNaming(tempBase), fs.paths)
    }

    /**
     * The full constructor. tempBase stands for the path of the temporary
     * file the source creates and deletes again; it is unique, so no frame
     * file of it exists yet and the movie file is not named like one.
     */
    constructor (movieFilename: string, width: int, height: int, codecType: CodecType,
                 compressionQuality: CompressionQuality, verbose: bool, tempBase: string, fs: FileSystem)
      requires '%' !in tempBase && ParseFramePath(tempBase, movieFilename).None?
      requires NoFrameFiles(FrameNaming(tempBase), fs.paths)
      ensures Valid() && AllStaged() && NoneStaged()
      ensures this.movieFilename == movieFilename && this.width == width && this.height == height
      ensures this.codecType == codecType && this.compressionQuality == compressionQuality
      ensures this.verbose == verbose && frameCount == 0
      ensures temporaryFileTemplate == tempBase + "-%05d.png" && this.tempBase == tempBase && this.fs == fs
    {
      this.movieFilename := movieFilename;
      this.width := width;
      this.height := height;
      this.codecType := codecType;
      this.compressionQuality := compressionQuality;
      this.verbose := verbose;
      this.frameCount := 0;
      this.temporaryFileTemplate := tempBase + "-%05d.png";
      this.tempBase := tempBase;
      this.fs := fs;
    }

    /** The three-argument constructor: H264 at BEST quality, not verbose. */
    constructor Default(movieFilename: string, width: int, height: int, tempBase: string, fs: FileSystem)
      requires '%' !in tempBase && ParseFramePath(tempBase, movieFilename).None?
      requires NoFrameFiles(FrameNaming(tempBase), fs.paths)
      ensures Valid() && AllStaged() && NoneStaged()
      ensures this.movieFilename == movieFilename && this.width == width && this.height == height
      ensures codecType == H264 && compressionQuality == BEST
      ensures !verbose && frameCount == 0
      ensures temporaryFileTemplate == tempBase + "-%05d.png" && this.tempBase == tempBase && this.fs == fs
    {
      this.movieFilename := movieFilename;
      this.width := width;
      this.height := height;
      this.codecType := H264;
      this.compressionQuality := BEST;
      this.verbose := false;
      this.frameCount := 0;
      this.temporaryFileTemplate := tempBase + "-%05d.png";
      this.tempBase := tempBase;
      this.fs := fs;
    }

    /** The movie file is no frame path of the session, so it is never among the staged paths. */
    lemma MovieIsNoFrame(n: nat)
      requires NamesValid()
      ensures forall i: nat :: FrameNaming(tempBase)(i) != movieFilename
      ensures movieFilename !in StagedPaths(FrameNaming(tempBase), n)
    {
      NotFramePath(tempBase, movieFilename);
      OtherNotStaged(FrameNaming(tempBase), n, movieFilename);
    }

    /** `String.format(temporaryFileTemplate, frame)`: the path of the staged file for a frame index. */
    function TemporaryFileForFrame(frame: nat): (path: string)
      requires NamesValid()
      ensures path == FramePath(tempBase, frame)
    {
      FormatFrameTemplate(tempBase, frame);
      FormatFrame(temporaryFileTemplate, FormatFrameNumber(frame)).value
    }

    /**
     * Deletes the staged file of every index below the counter. Nothing
     * else is touched, the counter is kept, and on a session with nothing
     * staged it changes nothing, so a second call is a no-op.
     */
    method Cleanup()
      requires Valid()
      modifies fs
      ensures Valid() && NoneStaged()
      ensures fs.paths == old(fs.paths) - StagedPaths(FrameNaming(tempBase), frameCount)
      ensures old(NoneStaged()) ==> fs.paths == old(fs.paths)
      ensures fs.Exists(movieFilename) <==> old(fs.Exists(movieFilename))
    {
      for i := 0 to frameCount
        invariant fs.paths == old(fs.paths) - StagedPaths(FrameNaming(tempBase), i)
      {
        fs.Delete(TemporaryFileForFrame(i));
      }
      RemoveStaged(FrameNaming(tempBase), old(fs.paths), frameCount);
      MovieIsNoFrame(frameCount);
    }

    /** Runs the cleanup, then raises e. */
    method CleanupAndThrowException(e: MovieError) returns (r: Outcome)
      requires Valid()
      modifies fs
      ensures r == Fail(e)
      ensures Valid() && NoneStaged()
      ensures fs.paths == old(fs.paths) - StagedPaths(FrameNaming(tempBase), frameCount)
      ensures fs.Exists(movieFilename) <==> old(fs.Exists(movieFilename))
    {
      Cleanup();
      r := Fail(e);
    }

    /**
     * Stages img as frame number frameCount; write is how the PNG encoder
     * ended. A frame of the wrong size is rejected and changes nothing. An
     * IOException removes every staged file and keeps the counter. Otherwise
     * the counter advances by one, and the frame's path is added when the
     * file was written: the result of `ImageIO.write` is ignored, so with
     * no PNG writer the counter advances and no file appears.
     */
    method AddFrame(img: Image, write: PngWrite) returns (r: Outcome)
      requires Valid()
      modifies this`frameCount, fs
      ensures Valid()
      ensures r == Fail(DimensionMismatch) <==> img.width != width || img.height != height
      ensures r == Fail(DimensionMismatch) ==> frameCount == old(frameCount) && fs.paths == old(fs.paths)
      ensures r == Pass <==> img.width == width && img.height == height && write != WriteFailed
      ensures r == Pass ==> frameCount == old(frameCount) + 1
      ensures r == Pass && write == Written ==> fs.paths == old(fs.paths) + {TemporaryFileForFrame(old(frameCount))}
      ensures r == Pass && write == Written && old(AllStaged()) ==> AllStaged()
      ensures r == Pass && write == NoWriter ==> (fs.paths == old(fs.paths) &&
                                                  !fs.Exists(TemporaryFileForFrame(old(frameCount))))
      ensures r == Fail(FrameWriteFailed) <==> img.width == width && img.height == height && write == WriteFailed
      ensures r == Fail(FrameWriteFailed) ==> (frameCount == old(frameCount) && NoneStaged() &&
                                               fs.paths == old(fs.paths) - StagedPaths(FrameNaming(tempBase), frameCount))
    {
      if img.width != width || img.height != height {
        return Fail(DimensionMismatch);
      }
      ghost var name := FrameNaming(tempBase);
      var path := TemporaryFileForFrame(frameCount);
      assert path == name(frameCount);
      StageFrame(name, fs.paths, frameCount);
      fs.Write(path, write == Written);
      if write != WriteFailed {
        frameCount := frameCount + 1;
        r := Pass;
      } else {
        r := CleanupAndThrowException(FrameWriteFailed);
      }
    }

    /**
     * ffmpeg writing the movie file, when it does (`written`). The movie file
     * is never named like a staged frame, so the session invariant holds.
     */
    method WriteMovie(written: bool)
      requires Valid()
      modifies fs
      ensures Valid()
      ensures fs.paths == if written then old(fs.paths) + {movieFilename} else old(fs.paths)
    {
      MovieIsNoFrame(frameCount);
      AddOtherFile(FrameNaming(tempBase), fs.paths, frameCount, movieFilename);
      fs.Write(movieFilename, written);
    }

    /**
     * Starting the encoder, reading its output and waiting for it, then the
     * cleanup; launch is how the run ended. A completed run may have written
     * the movie file and is a success whatever its exit status. A failed
     * start, read or wait removes the staged files and raises the wrapped
     * exception.
     */
    method RunEncoder(launch: ProcessOutcome) returns (r: Outcome)
      requires Valid()
      modifies fs
      ensures Valid() && NoneStaged()
      ensures fs.paths == (old(fs.paths) + MovieOutput(launch, movieFilename))
                          - StagedPaths(FrameNaming(tempBase), frameCount)
      ensures fs.Exists(movieFilename) <==> old(fs.Exists(movieFilename)) || (launch.Completed? && launch.movieWritten)
      ensures r == EncodeResult(launch)
    {
      match launch
      case Completed(_, movieWritten) =>
        WriteMovie(movieWritten);
        Cleanup();
        r := Pass;
      case IOFailed =>
        r := CleanupAndThrowException(EncodeFailed(IOFailure));
      case Interrupted =>
        r := CleanupAndThrowException(EncodeFailed(InterruptedWait));
    }

    /**
     * `save`. binary is the resolved encoder path and launch the outcome of
     * running it. The command is the fixed list of the source whatever the
     * codec and quality; the counter never changes, no staged file remains
     * on any exit path, the movie file exists afterwards when it existed or
     * the encoder wrote it, the error is raised after the cleanup, and the
     * encoder's exit status is ignored.
     */
    method Save(binary: string, launch: ProcessOutcome) returns (command: seq<string>, r: Outcome)
      requires Valid()
      modifies fs
      ensures Valid() && NoneStaged()
      ensures command == [binary, "-i", temporaryFileTemplate, "-b", "1000k", "-y", movieFilename]
      ensures fs.paths == (old(fs.paths) + MovieOutput(launch, movieFilename)) - StagedPaths(FrameNaming(tempBase), frameCount)
      ensures fs.Exists(movieFilename) <==> old(fs.Exists(movieFilename)) || (launch.Completed? && launch.movieWritten)
      ensures r == EncodeResult(launch)
    {
      command := FixedCommandList(binary, temporaryFileTemplate, movieFilename);
      r := RunEncoder(launch);
    }
  }
}
