# Movie export session (simovex), modelled in Dafny

simovex exports a movie from a sequence of raster frames. A `Movie` session
checks each frame's size and writes the frame as a numbered temporary PNG
file named from one template, `<unique temp path>-%05d.png`. It counts the
staged frames in `frameCount`. `save` then runs the external ffmpeg encoder
over the staged files and deletes them afterwards. The repository has two
versions of the class:

- `src/simovex/Movie.java` builds the ffmpeg command from the codec and the
  quality through two lookup tables (module `SimovexMovie`).
- `src/main/java/simovex/Movie.java` runs ffmpeg with a fixed argument list
  that ignores codec and quality (module `MainMovie`).

The model keeps the bookkeeping and leaves out the I/O. The file system is a
`FileSystem` object whose `paths: set<string>` holds the paths that exist.
Writing a PNG and running the encoder are outcome parameters. The write gives a
`PngWrite`: `Written`, `NoWriter` (`ImageIO.write` returned false and wrote
nothing) or `WriteFailed` (an IOException). The encoder run gives a
`ProcessOutcome`: `Completed(exitStatus, movieWritten)`, `IOFailed` or
`Interrupted`. `movieWritten` says whether the completed run wrote the movie file. The Java exceptions become an `Outcome`
value (`Pass` or `Fail(MovieError)`).

Modules:

- `Optional`: `Option`, which stands for Java's null.
- `FrameNames`: the decimal and `%05d` renderings and `String.format` of the
  template. It also defines the frame path and a parser that recovers the
  index from a path, so distinct indices name distinct files.
- `Files`: the `FileSystem` class, with `Exists`, `Delete` and `Write`.
- `Session`: the frame, the errors and the outcome, shared by both versions.
  It also holds the staging predicates and their lemmas. These are stated for
  any injective naming of frame indices; `FrameNaming(base)` is the naming by
  frame path.
- `Encoder`: the codec and quality enums and their tables, the preset path,
  the bit-rate placeholder and the command list with its properties.
- `SimovexMovie`, `MainMovie`: the class `Movie` of each version.
- `MovieScenarios`: the scenarios of `MovieTest.java`, stated for every
  encoder outcome, a rejected wrong-size frame, and the THEORA run described
  under Findings.

The session invariant `Valid()` says four things:

- The template is `<tempBase>-%05d.png`.
- `tempBase` holds no `%`.
- The movie file is not named like a frame of `tempBase`.
- No frame file at or beyond `frameCount` exists.

`AllStaged()` adds that every frame below the counter exists, so the
session's files are exactly frames `0 .. frameCount-1`. `NoneStaged()` says
that no frame file of the session exists. `cleanup` ends in `NoneStaged()`,
and so does every exit path of `MainMovie.Movie.Save` and of the corrected
`SimovexMovie.Movie.Save`. `SimovexMovie.Movie.SaveAsWritten` with THEORA
keeps every file (see Findings). `Valid()` still holds afterwards,
so staging again after a terminal operation is allowed, as in the source.
The counter is never reset, so new frames continue at the old counter.

Three facts about `src/simovex/Movie.java` shape the model:

- Its command has nine arguments (lines 171-184).
- Nothing prevents a session with THEORA, which has no codec-table entry
  (lines 67-74, 176). With it, `save` skips the cleanup (see Findings).
- `addFrame` ignores the result of `ImageIO.write` (line 151, and line 114
  of `src/main/java/simovex/Movie.java`). When no PNG
  writer accepts the image, the counter still advances and no file is
  written, so the staged frames can have a gap.

## Model

| member | source | states |
|---|---|---|
| `FrameNames.Decimal` | src/simovex/Movie.java:182 | Java's decimal rendering of a non-negative int: a non-empty digit string that denotes n and, when longer than one digit, has no leading zero |
| `FrameNames.FormatFrameNumber` | src/simovex/Movie.java:105 | the `%05d` field of an index: at least five digits, denotes the index, and wider than five only without a leading zero |
| `FrameNames.FormatFrame` | src/simovex/Movie.java:133 | `String.format` of a template holding at most one `%`, which starts `%05d`: the conversion becomes the rendered index and every other character is copied; any other template gives None (its properties: `FormatFrameTemplate`) |
| `FrameNames.FrameTemplate` | src/simovex/Movie.java:105 | the template `<base>-%05d.png` the constructor builds from the temporary path |
| `FrameNames.FramePath` | src/simovex/Movie.java:105 | the path `<base>-<index as %05d>.png` that the session's template names for a frame (its properties: `FramePathRoundTrip`, `FramePathInjective`) |
| `FrameNames.FormatFrameTemplate` | src/simovex/Movie.java:132-134 | formatting `<base>-%05d.png` with index i gives `<base>-<i zero-padded to 5>.png` when base holds no `%` |
| `FrameNames.FramePathRoundTrip` | src/main/java/simovex/Movie.java:95-97 | parsing the path of frame i gives back i |
| `FrameNames.FramePathInjective` | src/simovex/Movie.java:132-134 | two frame paths of one base are equal exactly when their indices are |
| `FrameNames.NotFramePath` | src/simovex/Movie.java:105 | a path that does not parse as `<base>-<digits>.png` equals no frame path of base |
| `Files.FileSystem.Delete` | src/simovex/Movie.java:229 | after `File.delete` the path does not exist and no other path changes |
| `Files.FileSystem.Exists` | src/test/java/simovex/MovieTest.java:47-49 | `File.exists`: whether the path is in the file set |
| `Files.FileSystem.Write` | src/simovex/Movie.java:151 | a write that happens adds exactly the path; one that does not changes nothing |
| `Session.StagedPathsMember` | src/simovex/Movie.java:228-229 | the path of frame i is among the paths cleanup deletes exactly when i < frameCount |
| `Session.StageFrame` | src/simovex/Movie.java:150-152 | the file written for index frameCount is new; afterwards no file lies beyond frameCount + 1, and if all earlier frames were present, all frames up to the new one are |
| `Session.RemoveStaged` | src/simovex/Movie.java:227-231 | deleting frames 0 .. frameCount-1 leaves no frame file of the session, and changes nothing when none was present |
| `Session.StagedFromFresh` | src/test/java/simovex/MovieTest.java:63-73 | a file system without frame files, plus the paths of frames 0 .. k-1, has every frame below k and none at or beyond k; `CreateMovie` uses it for its loop |
| `Session.EncodeResult` | src/simovex/Movie.java:194-211 | save succeeds exactly when the process completed; an IO failure or an interrupted wait is raised wrapped |
| `Session.ExitStatusIgnored` | src/simovex/Movie.java:202 | neither the encoder's exit status nor whether it wrote the movie changes the outcome |
| `Session.MovieOutput` | src/simovex/Movie.java:196-202 | the files the encoder run leaves: the movie file when the run completed and wrote it, nothing otherwise |
| `Session.OtherNotStaged` | src/simovex/Movie.java:227-231 | a path that names no frame is never among the paths cleanup deletes |
| `Session.AddOtherFile` | src/simovex/Movie.java:196-202 | creating a file that names no frame adds no frame file at or beyond the counter |
| `Encoder.CodecName` | src/simovex/Movie.java:67-74 | the codec table: ffmpeg's name of each codec, and no entry (None) for THEORA (its properties: `CodecTable`) |
| `Encoder.QualityPreset` | src/simovex/Movie.java:75-79 | the quality table: the x264 preset name of each quality (its properties: `QualityTable`) |
| `Encoder.PresetPath` | src/simovex/Movie.java:179 | the preset file `res/ffpresets/libx264-<preset>.ffpreset`, the format of line 53 applied to a preset name |
| `Encoder.BitRateForSize` | src/simovex/Movie.java:214-216 | the bit rate, 1000 for every size (its property: `CommandListIgnoresSize`) |
| `Encoder.CommandList` | src/simovex/Movie.java:170-184 | the argument list `save` builds, a null argument being None (its properties: `CommandListShape`, `CommandListNullFree`, `QualityOnlyForH264`) |
| `Encoder.RateArguments` | src/simovex/Movie.java:177-183 | the pair `-fpre <preset file>` for H264 and `-b <rate>k` for every other codec |
| `Encoder.FixedCommandList` | src/main/java/simovex/Movie.java:127 | the fixed seven-argument command of the version that ignores codec and quality (stated by `MainMovie.Movie.Save`) |
| `Encoder.CodecTable` | src/simovex/Movie.java:67-74 | the codec table has no entry exactly for THEORA, and distinct codecs get distinct encoder names |
| `Encoder.QualityTable` | src/simovex/Movie.java:75-79 | the quality table is total, and distinct qualities give distinct preset files |
| `Encoder.CommandListShape` | src/simovex/Movie.java:170-184 | the command is nine arguments: binary, `-y`, `-i`, template, `-vcodec`, codec name, then `-fpre res/ffpresets/libx264-<preset>.ffpreset` for H264 or `-b 1000k` otherwise, then the movie file |
| `Encoder.CommandListNullFree` | src/simovex/Movie.java:165-176 | the command holds a null argument exactly when the codec is THEORA |
| `Encoder.QualityOnlyForH264` | src/simovex/Movie.java:177-183 | changing the quality changes the command exactly when the codec is H264 |
| `Encoder.CommandListIgnoresSize` | src/simovex/Movie.java:214-216 | the bit-rate placeholder makes the command independent of width and height |
| `SimovexMovie.Movie.constructor` | src/simovex/Movie.java:94-110 | stores the settings, the counter starts at 0, the template is `<tempBase>-%05d.png`, nothing is staged and the invariant holds |
| `SimovexMovie.Movie.Default` | src/simovex/Movie.java:90-92 | the three-argument constructor selects H264, BEST and not verbose |
| `SimovexMovie.Movie.TemporaryFileForFrame` | src/simovex/Movie.java:132-134 | formatting the template with an index gives that frame's path |
| `SimovexMovie.Movie.MovieIsNoFrame` | src/simovex/Movie.java:105 | the movie file is no frame path of the session, so it is never among the staged paths |
| `SimovexMovie.Movie.Cleanup` | src/simovex/Movie.java:227-231 | removes exactly frames 0 .. frameCount-1, keeps the counter and every other path (the movie file included), leaves no staged file, and is a no-op when nothing is staged |
| `SimovexMovie.Movie.CleanupAndThrowException` | src/simovex/Movie.java:233-236 | the cleanup runs, then the given error is raised |
| `SimovexMovie.Movie.AddFrame` | src/simovex/Movie.java:146-156 | a wrong-size frame is rejected and changes nothing; an IOException cleans up, raises, and keeps the counter; otherwise the counter goes up by one, a written PNG adds exactly path(frameCount) and keeps all frames below it staged, and a write that found no PNG writer adds no file |
| `SimovexMovie.Movie.BuildCommandList` | src/simovex/Movie.java:165-184 | the successive adds build the command list with the shape proved in Encoder |
| `SimovexMovie.Movie.WriteMovie` | src/simovex/Movie.java:196-202 | ffmpeg writing the movie file adds exactly that path and keeps the session invariant |
| `SimovexMovie.Movie.RunEncoder` | src/simovex/Movie.java:194-211 | the run and the cleanup: the files become the old ones plus the movie file a completed run wrote, minus frames 0 .. frameCount-1; the movie file exists afterwards exactly when it did before or the run wrote it; the outcome is `EncodeResult(launch)` |
| `SimovexMovie.Movie.SaveAsWritten` | src/simovex/Movie.java:161-212 | save as written: for THEORA it raises the null-argument error and leaves every file in place; otherwise it cleans up on every exit path and raises only IO and interrupt failures |
| `SimovexMovie.Movie.Save` | src/simovex/Movie.java:161-212 | corrected save: the counter is unchanged and frames 0 .. frameCount-1 are removed on every exit path; the movie file written by a completed run is added, except for THEORA, which never runs; the error is raised after the cleanup and ignores the exit status |
| `MainMovie.Movie.constructor` | src/main/java/simovex/Movie.java:69-85 | stores the settings, the counter starts at 0, the template is `<tempBase>-%05d.png`, nothing is staged and the invariant holds |
| `MainMovie.Movie.Default` | src/main/java/simovex/Movie.java:65-67 | the three-argument constructor selects H264, BEST and not verbose |
| `MainMovie.Movie.TemporaryFileForFrame` | src/main/java/simovex/Movie.java:95-97 | formatting the template with an index gives that frame's path |
| `MainMovie.Movie.MovieIsNoFrame` | src/main/java/simovex/Movie.java:80 | the movie file is no frame path of the session, so it is never among the staged paths |
| `MainMovie.Movie.Cleanup` | src/main/java/simovex/Movie.java:158-162 | removes exactly the staged frames, keeps the counter and every other path (the movie file included), and is a no-op a second time |
| `MainMovie.Movie.CleanupAndThrowException` | src/main/java/simovex/Movie.java:164-167 | the cleanup runs, then the given error is raised |
| `MainMovie.Movie.AddFrame` | src/main/java/simovex/Movie.java:109-119 | a wrong-size frame changes nothing; an IOException cleans up before raising; otherwise the counter goes up by one, and path(frameCount) is added exactly when the PNG was written |
| `MainMovie.Movie.WriteMovie` | src/main/java/simovex/Movie.java:131-137 | ffmpeg writing the movie file adds exactly that path and keeps the session invariant |
| `MainMovie.Movie.RunEncoder` | src/main/java/simovex/Movie.java:130-146 | the run and the cleanup: the files become the old ones plus the movie file a completed run wrote, minus the staged frames; the movie file exists afterwards exactly when it did before or the run wrote it; the outcome is `EncodeResult(launch)` |
| `MainMovie.Movie.Save` | src/main/java/simovex/Movie.java:124-147 | the command is exactly [binary, `-i`, template, `-b`, `1000k`, `-y`, movie file] for every codec and quality; no staged file remains on any exit path, the movie file exists afterwards when it did before or the encoder wrote it, and the counter is unchanged |
| `MovieScenarios.CreateMovie` | src/test/java/simovex/MovieTest.java:63-73 | after k adds to a new 100x100 session, each frame's file exists right after its add, the counter is k and the files are exactly frames 0 .. k-1 |
| `MovieScenarios.AddWrittenFrame` | src/test/java/simovex/MovieTest.java:69-70 | one add of a right-size frame whose PNG is written: the counter goes up by one, exactly that frame's path is added, and its file exists |
| `MovieScenarios.SaveRemovesFrames` | src/test/java/simovex/MovieTest.java:44-49 | after save on two frames neither frame file exists, for every encoder outcome, and the movie file exists exactly when the encoder completed and wrote it |
| `MovieScenarios.CleanupRemovesFrames` | src/test/java/simovex/MovieTest.java:55-61 | after cleanup on two frames neither frame file nor the movie file exists |
| `MovieScenarios.MismatchKeepsCount` | src/main/java/simovex/Movie.java:110-112 | a 50x50 frame offered to a 100x100 session holding one frame is rejected, and the count stays 1 |
| `MovieScenarios.TheoraSaveLeavesFrame` | src/simovex/Movie.java:196-211 | with THEORA, save as written raises the null-argument error and frame 0 is still on disk |
| `MovieScenarios.TheoraSaveCleansUp` | src/simovex/Movie.java:196-211 | with THEORA, the corrected save raises the same error and frame 0 is gone |

## Left out

- Encoder binary resolution (the static initialisers) reads OS properties and checks that a file exists. `Save` takes the resolved path as its `binary` parameter.
- Temporary base generation (`File.createTempFile` and its delete) is real I/O. The constructors take the base path as `tempBase`. They require that the path holds no `%`, that no frame file of it exists yet, and that the movie file is not named `<tempBase>-<digits>.png`. This stands for the uniqueness of a fresh temporary file. The `RuntimeException` raised when `createTempFile` fails is not modelled.
- PNG encoding by `ImageIO.write` is a foreign library. It appears only as the `PngWrite` outcome, and a write that throws is assumed to leave no file. The source does not delete a partial file at index frameCount after a failed write; the model cannot show that.
- Process handling is process I/O: starting the process, closing its input, merging and reading its output, and `waitFor`. It appears only as the `ProcessOutcome` parameter.
- The verbose printing of the command and of the captured output is console output, so it is not modelled.
- Whether ffmpeg writes the movie file is the `movieWritten` flag of a completed run; what it writes is not modelled. A run that fails after starting is modelled as writing no file, so a partial movie file left by it is not captured.
- The `main` demos draw with AWT and Random. They are rendering code, not core logic.
- The trivial accessors are read as fields: `isVerbose`, `setVerbose`, `getFrameCount`, `getMovieFilename` and `getMovieFile` of `src/simovex/Movie.java`, and `getMovieFilename` and `getMovieFile` of `src/main/java/simovex/Movie.java`. That version has no setter, so `verbose` is a `const` there.
- Java's null arguments are excluded by the types: `movieFilename`, `codecType` and `compressionQuality` are never null in the model. In Java, a null `movieFilename` makes `ProcessBuilder.start` throw a NullPointerException in both versions, and neither catch clause takes it, so the cleanup is skipped; `MainMovie.Movie.Save`'s cleanup guarantee holds only for a non-null name. A null `codecType` fails like THEORA, and a null `compressionQuality` with H264 names the preset file `res/ffpresets/libx264-null.ffpreset`.
- `File.delete` can fail on a single file, and the source ignores that failure. `FileSystem.Delete` always removes the path.
- `frameCount` is a `nat`, so the model does not capture Java's 32-bit wrap-around after 2^31 - 1 frames.
- `TemporaryFileForFrame` takes a `nat`, so the `%05d` rendering of a negative index (such as `-0001`) is not modelled. The source only ever passes indices from 0 to frameCount.
- `FrameNames.FormatFrame` models `String.format` only for templates with at most one `%`, starting `%05d`. Every other template gives None, including a second conversion (which Java rejects for want of an argument) and `%%` or `%n` (which Java renders). The sessions never produce such a template.
- `FrameNames.FormatFrameNumber` renders `%05d` with the ASCII digits. Java's `Formatter` uses the zero digit of the default locale, so under a locale with other digits the frame names differ from the model; `save` still points the encoder at the same template.
- Concurrent use of a session, and several sessions sharing one file system, are not modelled.

## Findings

| source | as written | input that shows it | evidently intended | confidence | as-written member | corrected member |
|---|---|---|---|---|---|---|
| src/simovex/Movie.java:176 | THEORA has no entry in `codecTypeMap`, so `null` is added to the command. `ProcessBuilder.start` then throws `NullPointerException`, which neither catch clause handles, so `cleanup()` never runs. | a session with codec THEORA and at least one staged frame, then `save()` | the cleanup runs on every exit path of save, and the error is raised after it | high, not executed | `SimovexMovie.Movie.SaveAsWritten`, exhibited by `MovieScenarios.TheoraSaveLeavesFrame` | `SimovexMovie.Movie.Save`, exhibited by `MovieScenarios.TheoraSaveCleansUp` |
