/** The version marker of an installation: a file holding
    `<commit hash>-<build time>` that tells whether the installed resources
    belong to the running build. The file system is a fake over a map from
    path to content, with configurable read and write failures. */
module VersionFile {
  import opened Errors

  /** Name of the marker file; declared in another file of the install
      package, so its value is left open here. */
  const VersionFilename: string

  const ReadFailed: string := "reading version file failed"
  const WriteFailed: string := "writing static resource failed"

  /** The error the file system reports for a path that holds no file. */
  const FileNotFound: Error := Cause(NotExist, "no such file or directory")

  /** `filepath.Join(dir, name)`, kept as the pair it is built from. */
  datatype Path = Path(dir: string, name: string)

  /** `buildVersionFile`: the marker is the commit hash, a dash, then the
      build time. */
  function BuildVersionFile(commitHash: string, buildTime: string): (marker: string)
    ensures |marker| == |commitHash| + 1 + |buildTime|
    ensures marker[..|commitHash|] == commitHash
    ensures marker[|commitHash|] == '-'
    ensures marker[|commitHash| + 1..] == buildTime
  {
    commitHash + "-" + buildTime
  }

  /** The marker of the worked example. */
  lemma BuildVersionFileExample()
    ensures BuildVersionFile("abc123", "2024-01-01T00:00:00Z") == "abc123-2024-01-01T00:00:00Z"
  {
  }

  /** Two builds with commit hashes of the same length share a marker only
      when both their hashes and their build times agree. */
  lemma BuildVersionFileInjective(c1: string, b1: string, c2: string, b2: string)
    requires |c1| == |c2|
    ensures BuildVersionFile(c1, b1) == BuildVersionFile(c2, b2) <==> c1 == c2 && b1 == b2
  {
  }

  /** A fake file system. A path in `readFaults` or `writeFaults` fails to
      be read or written with the error given there. */
  class FileSystem {
    var files: map<Path, string>
    const readFaults: map<Path, Error>
    const writeFaults: map<Path, Error>

    constructor (files: map<Path, string>, readFaults: map<Path, Error>, writeFaults: map<Path, Error>)
      ensures this.files == files && this.readFaults == readFaults && this.writeFaults == writeFaults
    {
      this.files := files;
      this.readFaults := readFaults;
      this.writeFaults := writeFaults;
    }

    /** What reading `p` yields in the current state. */
    ghost function ReadResult(p: Path): Result<string>
      reads this
    {
      if p in readFaults then Failure(readFaults[p])
      else if p in files then Success(files[p])
      else Failure(FileNotFound)
    }

    /** `ioutil.ReadFile`. */
    method ReadFile(p: Path) returns (content: string, err: Option<Error>)
      ensures ReadResult(p).Failure? ==> err == Some(ReadResult(p).error)
      ensures ReadResult(p).Success? ==> err.None? && content == ReadResult(p).value
    {
      if p in readFaults {
        return "", Some(readFaults[p]);
      } else if p in files {
        return files[p], None;
      }
      return "", Some(FileNotFound);
    }

    /** Writes `content` to `p`, replacing what was there. */
    method WriteFile(p: Path, content: string) returns (err: Option<Error>)
      modifies this`files
      ensures p in writeFaults ==> err == Some(writeFaults[p]) && files == old(files)
      ensures p !in writeFaults ==> err.None? && files == old(files)[p := content]
    {
      if p in writeFaults {
        return Some(writeFaults[p]);
      }
      files := files[p := content];
      return None;
    }
  }

  /** `checkIfLatestVersionInstalled`, as written: a read error that
      `os.IsExist` recognises means "not the latest"; every other read
      error, a missing file included, is returned wrapped; a file that
      was read is compared as a whole with the marker of this build. */
  method CheckIfLatestVersionInstalled(fs: FileSystem, elasticPackagePath: string, commitHash: string, buildTime: string)
    returns (latest: bool, err: Option<Error>)
    ensures var r := fs.ReadResult(Path(elasticPackagePath, VersionFilename));
      && (r.Failure? && IsExist(r.error) ==> !latest && err.None?)
      && (r.Failure? && !IsExist(r.error) ==> !latest && err == Some(Wrapped(ReadFailed, r.error)))
      && (r.Success? ==> err.None? && (latest <==> r.value == BuildVersionFile(commitHash, buildTime)))
    ensures var p := Path(elasticPackagePath, VersionFilename);
      p !in fs.readFaults && p !in fs.files ==> !latest && err == Some(Wrapped(ReadFailed, FileNotFound))
  {
    var versionFile, readErr := fs.ReadFile(Path(elasticPackagePath, VersionFilename));
    if readErr.Some? && IsExist(readErr.value) {
      return false, None; // the source's comment reads "old version, no version file"
    }
    if readErr.Some? {
      return false, Some(Wrapped(ReadFailed, readErr.value));
    }
    return BuildVersionFile(commitHash, buildTime) == versionFile, None;
  }

  /** `checkIfLatestVersionInstalled` as its comment intends: a missing
      marker file means "not the latest", not an error. */
  method CheckIfLatestVersionInstalledIntended(fs: FileSystem, elasticPackagePath: string, commitHash: string, buildTime: string)
    returns (latest: bool, err: Option<Error>)
    ensures var r := fs.ReadResult(Path(elasticPackagePath, VersionFilename));
      && (r.Failure? && IsNotExist(r.error) ==> !latest && err.None?)
      && (r.Failure? && !IsNotExist(r.error) ==> !latest && err == Some(Wrapped(ReadFailed, r.error)))
      && (r.Success? ==> err.None? && (latest <==> r.value == BuildVersionFile(commitHash, buildTime)))
    ensures var p := Path(elasticPackagePath, VersionFilename);
      p !in fs.readFaults && p !in fs.files ==> !latest && err.None?
    ensures err.Some? ==> !latest && Path(elasticPackagePath, VersionFilename) in fs.readFaults
  {
    var versionFile, readErr := fs.ReadFile(Path(elasticPackagePath, VersionFilename));
    if readErr.Some? && IsNotExist(readErr.value) {
      return false, None;
    }
    if readErr.Some? {
      return false, Some(Wrapped(ReadFailed, readErr.value));
    }
    return BuildVersionFile(commitHash, buildTime) == versionFile, None;
  }

  /** An installation directory without a marker file: the check as written
      reports an error. */
  method MissingMarkerAsWritten(elasticPackagePath: string, commitHash: string, buildTime: string)
    returns (latest: bool, err: Option<Error>)
    ensures !latest && err == Some(Wrapped(ReadFailed, FileNotFound))
  {
    var fs := new FileSystem(map[], map[], map[]);
    latest, err := CheckIfLatestVersionInstalled(fs, elasticPackagePath, commitHash, buildTime);
  }

  /** The same directory under the intended check: "not the latest" and no error. */
  method MissingMarkerIntended(elasticPackagePath: string, commitHash: string, buildTime: string)
    returns (latest: bool, err: Option<Error>)
    ensures !latest && err.None?
  {
    var fs := new FileSystem(map[], map[], map[]);
    latest, err := CheckIfLatestVersionInstalledIntended(fs, elasticPackagePath, commitHash, buildTime);
  }

  /** `writeVersionFile`: stores the marker of this build under the root
      directory of the installation, wrapping a failed write. */
  method WriteVersionFile(fs: FileSystem, rootDir: string, commitHash: string, buildTime: string) returns (err: Option<Error>)
    modifies fs`files
    ensures var p := Path(rootDir, VersionFilename);
      && (p in fs.writeFaults ==> err == Some(Wrapped(WriteFailed, fs.writeFaults[p])) && fs.files == old(fs.files))
      && (p !in fs.writeFaults ==> err.None? && fs.files == old(fs.files)[p := BuildVersionFile(commitHash, buildTime)])
  {
    var writeErr := fs.WriteFile(Path(rootDir, VersionFilename), BuildVersionFile(commitHash, buildTime));
    if writeErr.Some? {
      return Some(Wrapped(WriteFailed, writeErr.value));
    }
    return None;
  }

  /** Writing the marker and then checking the same directory with the same
      build reports "latest" without error, unless the write failed or the
      file cannot be read back. */
  method WriteThenCheck(fs: FileSystem, rootDir: string, commitHash: string, buildTime: string)
    returns (writeErr: Option<Error>, latest: bool, checkErr: Option<Error>)
    modifies fs`files
    ensures writeErr.None? <==> Path(rootDir, VersionFilename) !in fs.writeFaults
    ensures writeErr.None? && Path(rootDir, VersionFilename) !in fs.readFaults ==> latest && checkErr.None?
  {
    writeErr := WriteVersionFile(fs, rootDir, commitHash, buildTime);
    latest, checkErr := CheckIfLatestVersionInstalled(fs, rootDir, commitHash, buildTime);
  }

  /** Checking a freshly written marker with any build compares the two
      markers: "latest" exactly when they are equal, never an error. Another
      build whose commit hash has the same length therefore reads as
      "not the latest". */
  method WriteThenCheckOtherBuild(fs: FileSystem, rootDir: string, commitHash: string, buildTime: string,
                                  otherHash: string, otherTime: string)
    returns (writeErr: Option<Error>, latest: bool, checkErr: Option<Error>)
    modifies fs`files
    ensures writeErr.None? && Path(rootDir, VersionFilename) !in fs.readFaults ==>
      checkErr.None? && (latest <==> BuildVersionFile(commitHash, buildTime) == BuildVersionFile(otherHash, otherTime))
    ensures (writeErr.None? && Path(rootDir, VersionFilename) !in fs.readFaults && |otherHash| == |commitHash| &&
             (otherHash != commitHash || otherTime != buildTime)) ==> !latest
  {
    writeErr := WriteVersionFile(fs, rootDir, commitHash, buildTime);
    if |otherHash| == |commitHash| {
      BuildVersionFileInjective(commitHash, buildTime, otherHash, otherTime);
    }
    latest, checkErr := CheckIfLatestVersionInstalled(fs, rootDir, otherHash, otherTime);
  }
}
