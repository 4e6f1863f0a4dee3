/** The spool directory in which WAL files wait to be archived or have been prefetched
    for a restore. Its implementation (pkg/spool) is not part of this model: the spool
    is modelled by the set of file names it holds, and each filesystem call may fail,
    the failure being an input of the call. */
module Spool {
  import opened Common

  /** `path.Join(dir, name)` for a non-empty directory and a plain file name. */
  function JoinPath(dir: string, name: string): string {
    dir + "/" + name
  }

  class WalSpool {
    const directory: string
    var files: set<string>

    constructor (directory: string, files: set<string>)
      ensures this.directory == directory && this.files == files
    {
      this.directory := directory;
      this.files := files;
    }

    /** Where a WAL file of the spool lives. */
    function FileName(walName: string): string {
      JoinPath(directory, walName)
    }

    /** Whether the spool holds a file; a failing stat is reported as is. */
    method Contains(walName: string, fault: Option<Error>) returns (contained: bool, err: Option<Error>)
      ensures err == fault
      ensures contained <==> fault.None? && walName in files
    {
      if fault.Some? {
        return false, fault;
      }
      return walName in files, None;
    }

    /** Removes a file from the spool. */
    method Remove(walName: string, fault: Option<Error>) returns (err: Option<Error>)
      modifies this
      ensures err == fault
      ensures files == if fault.None? then old(files) - {walName} else old(files)
    {
      if fault.Some? {
        return fault;
      }
      files := files - {walName};
      return None;
    }

    /** Creates an empty file in the spool. */
    method Touch(walName: string, fault: Option<Error>) returns (err: Option<Error>)
      modifies this
      ensures err == fault
      ensures files == if fault.None? then old(files) + {walName} else old(files)
    {
      if fault.Some? {
        return fault;
      }
      files := files + {walName};
      return None;
    }

    /** Moves a file out of the spool; a file the spool does not hold is reported as
        NonExistentFile. */
    method MoveOut(walName: string, fault: Option<Error>) returns (err: Option<Error>)
      modifies this
      ensures err == MoveOutError(old(files), walName, fault)
      ensures files == if err.None? then old(files) - {walName} else old(files)
    {
      if fault.Some? {
        return fault;
      }
      if walName !in files {
        return Some(NonExistentFile);
      }
      files := files - {walName};
      return None;
    }
  }

  /** What MoveOut reports for a spool holding `files`. */
  function MoveOutError(files: set<string>, walName: string, fault: Option<Error>): (r: Option<Error>)
    ensures r.None? <==> fault.None? && walName in files
    ensures fault.None? && walName !in files ==> r == Some(NonExistentFile)
    ensures fault.Some? ==> r == fault
  {
    if fault.Some? then fault else if walName !in files then Some(NonExistentFile) else None
  }
}
