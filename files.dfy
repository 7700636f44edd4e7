/**
 * The part of the file system a movie session touches, seen as the set of
 * paths that currently exist.
 */
module Files {

  class FileSystem {
    var paths: set<string>

    constructor (paths: set<string>)
      ensures this.paths == paths
    {
      this.paths := paths;
    }

    /** Whether a file exists at path (`File.exists`). */
    predicate Exists(path: string)
      reads this
    {
      path in paths
    }

    /** `File.delete`: the path no longer exists afterwards; deleting a missing file is not an error. */
    method Delete(path: string)
      modifies this
      ensures paths == old(paths) - {path}
    {
      paths := paths - {path};
    }

    /**
     * A foreign writer creating the file at path: `ImageIO.write` of a PNG,
     * or ffmpeg writing the movie. Whether it does is the parameter
     * `written`; a write that does not happen leaves no file behind.
     */
    method Write(path: string, written: bool)
      modifies this
      ensures paths == if written then old(paths) + {path} else old(paths)
    {
      if written {
        paths := paths + {path};
      }
    }
  }
}
