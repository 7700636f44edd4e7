/**
 * The scenarios of src/test/java/simovex/MovieTest.java, stated for every
 * outcome of the encoder run, a rejected wrong-size frame, and the THEORA
 * run that shows the missing cleanup of src/simovex/Movie.java.
 */
module MovieScenarios {
  import opened FrameNames
  import opened Files
  import opened Encoder
  import opened Session
  import SimovexMovie
  import MainMovie

  /**
   * MovieTest.createMovie: a new 100x100 session on fs with k frames
   * staged; right after each add the frame's file exists. Afterwards the
   * files are those fs had plus exactly the frames 0 .. k-1.
   */
  method CreateMovie(fs: FileSystem, movieFilename: string, tempBase: string, k: nat)
    returns (m: MainMovie.Movie)
    requires '%' !in tempBase && ParseFramePath(tempBase, movieFilename).None?
    requires NoFrameFiles(FrameNaming(tempBase), fs.paths)
    modifies fs
    ensures fresh(m) && m.fs == fs && m.tempBase == tempBase && m.movieFilename == movieFilename
    ensures m.width == 100 && m.height == 100
    ensures m.Valid() && m.AllStaged() && m.frameCount == k
    ensures fs.paths == old(fs.paths) + StagedPaths(FrameNaming(tempBase), k)
  {
    var size := 100;
    var img := Image(size, size);
    ghost var name := FrameNaming(tempBase);
    m := new MainMovie.Movie.Default(movieFilename, size, size, tempBase, fs);
    assert old(fs.paths) + StagedPaths(name, 0) == old(fs.paths);
    for i := 0 to k
      invariant m.NamesValid() && m.frameCount == i
      invariant fs.paths == old(fs.paths) + StagedPaths(name, i)
    {
      StagedFromFresh(name, old(fs.paths), i);
      var staged := AddWrittenFrame(m, img);
      assert StagedPaths(name, i + 1) == StagedPaths(name, i) + {name(i)};
    }
    StagedFromFresh(name, old(fs.paths), k);
  }

  /** One add of a frame of the movie's size whose PNG is written: the frame's file exists right after it. */
  method AddWrittenFrame(m: MainMovie.Movie, img: Image) returns (staged: bool)
    requires m.Valid() && img.width == m.width && img.height == m.height
    modifies m`frameCount, m.fs
    ensures m.NamesValid() && m.frameCount == old(m.frameCount) + 1 && staged
    ensures m.fs.paths == old(m.fs.paths) + {FrameNaming(m.tempBase)(old(m.frameCount))}
  {
    var index := m.frameCount;
    var r := m.AddFrame(img, Written);
    staged := m.fs.Exists(m.TemporaryFileForFrame(index));
  }

  /**
   * MovieTest.testSave: after `save` on two staged frames neither frame
   * file exists, whether the encoder completed or failed, and the movie
   * file exists exactly when the encoder completed and wrote it.
   */
  method SaveRemovesFrames(launch: ProcessOutcome) returns (frame0: bool, frame1: bool, movie: bool)
    ensures !frame0 && !frame1
    ensures movie <==> launch.Completed? && launch.movieWritten
  {
    var fs := new FileSystem({});
    var m := CreateMovie(fs, "test.mp4", "/tmp/sme1", 2);
    var command, r := m.Save("/usr/bin/ffmpeg", launch);
    frame0 := fs.Exists(m.TemporaryFileForFrame(0));
    frame1 := fs.Exists(m.TemporaryFileForFrame(1));
    movie := fs.Exists(m.movieFilename);
  }

  /**
   * MovieTest.testCleanup: after `cleanup` on two staged frames neither
   * frame file exists and no movie file was created.
   */
  method CleanupRemovesFrames() returns (frame0: bool, frame1: bool, movie: bool)
    ensures !frame0 && !frame1 && !movie
  {
    var fs := new FileSystem({});
    var m := CreateMovie(fs, "test.mp4", "/tmp/sme1", 2);
    m.Cleanup();
    assert fs.paths == {};
    frame0 := fs.Exists(m.TemporaryFileForFrame(0));
    frame1 := fs.Exists(m.TemporaryFileForFrame(1));
    movie := fs.Exists(m.movieFilename);
  }

  /**
   * A 100x100 session with one frame staged refuses a 50x50 frame and
   * still counts one frame.
   */
  method MismatchKeepsCount() returns (r: Outcome, count: nat)
    ensures r == Fail(DimensionMismatch) && count == 1
  {
    var fs := new FileSystem({});
    var m := CreateMovie(fs, "out.mp4", "/tmp/sme1", 1);
    r := m.AddFrame(Image(50, 50), Written);
    count := m.frameCount;
  }

  /**
   * A THEORA session with one staged frame: `save` as written fails with
   * the null argument and leaves the frame file on disk, whatever the
   * encoder would have done.
   */
  method TheoraSaveLeavesFrame(launch: ProcessOutcome) returns (r: Outcome, frame0: bool)
    ensures r == Fail(NullCommandElement) && frame0
  {
    var fs := new FileSystem({});
    var m := new SimovexMovie.Movie("out.ogg", 100, 100, THEORA, BEST, false, "/tmp/sme1", fs);
    var added := m.AddFrame(Image(100, 100), Written);
    var command;
    command, r := m.SaveAsWritten("/usr/bin/ffmpeg", launch);
    frame0 := fs.Exists(m.TemporaryFileForFrame(0));
  }

  /** The same session under the corrected `save`: the error is raised after the frame file is gone. */
  method TheoraSaveCleansUp(launch: ProcessOutcome) returns (r: Outcome, frame0: bool)
    ensures r == Fail(NullCommandElement) && !frame0
  {
    var fs := new FileSystem({});
    var m := new SimovexMovie.Movie("out.ogg", 100, 100, THEORA, BEST, false, "/tmp/sme1", fs);
    var added := m.AddFrame(Image(100, 100), Written);
    var command;
    command, r := m.Save("/usr/bin/ffmpeg", launch);
    frame0 := fs.Exists(m.TemporaryFileForFrame(0));
  }
}
