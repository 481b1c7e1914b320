/** Shared wrappers: an optional value and the exceptions the tool can raise. */
module Common {

  datatype Option<T> = None | Some(value: T)

  /** The operating-system errors that pathlib operations raise (subclasses of OSError). */
  datatype FsError =
    | FileNotFound       // ENOENT: the path, or its parent directory, does not exist
    | FileExists         // EEXIST: mkdir on a path that exists and is not a directory
    | IsADirectory       // EISDIR: opening or unlinking a directory as a file
    | NotADirectory      // ENOTDIR: rmdir on a file, or a file where a directory was needed
    | DirectoryNotEmpty  // ENOTEMPTY: rmdir on a directory that still has entries
    | ResourceBusy       // EBUSY: rmdir on the filesystem root

  /** The exceptions that end a command: ValueError from a validator, OSError from pathlib. */
  datatype Error = ValueError(message: string) | OSError(kind: FsError)

  datatype Result<T> = Ok(value: T) | Err(error: Error)
}
