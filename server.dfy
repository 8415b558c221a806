/** The server start-up checks and the sweep of old request directories in
    go-service/cmd/server/main.go. */
module Server {
  import opened Wrappers
  import opened GoStrings
  import opened Types

  const MaxPort := 65535

  /** `validateConfig`: the first failing check's message, `None` for Go's
      nil. `executableMissing` is whether `os.Stat` of the engine path fails
      with a does-not-exist error; any other outcome of `Stat` passes. */
  function ValidateConfig(config: ServerConfig, executableMissing: bool): (r: Option<string>)
    ensures r.None? <==>
      0 < config.port <= MaxPort && config.workDir != "" && config.dftbPath != ""
      && config.maxRequests > 0 && config.timeout > 0 && !executableMissing
  {
    if config.port <= 0 || config.port > MaxPort then Some("invalid port number: " + IntToDecimal(config.port))
    else if config.workDir == "" then Some("working directory cannot be empty")
    else if config.dftbPath == "" then Some("DFTB+ executable path cannot be empty")
    else if config.maxRequests <= 0 then Some("max requests must be positive")
    else if config.timeout <= 0 then Some("timeout must be positive")
    else if executableMissing then Some("DFTB+ executable not found at: " + config.dftbPath)
    else None
  }

  /** Each message is reported exactly when its own check fails and every
      earlier one passes: the port first, then the two paths. */
  lemma ValidateConfigOrder(config: ServerConfig, executableMissing: bool)
    ensures var r := ValidateConfig(config, executableMissing);
      var portOk := 0 < config.port <= MaxPort;
      (r == Some("invalid port number: " + IntToDecimal(config.port)) <==> !portOk)
      && (r == Some("working directory cannot be empty") <==> portOk && config.workDir == "")
      && (r == Some("DFTB+ executable path cannot be empty") <==> portOk && config.workDir != "" && config.dftbPath == "")
  {
    var port := "invalid port number: " + IntToDecimal(config.port);
    var missing := "DFTB+ executable not found at: " + config.dftbPath;
    assert port[0] == 'i';
    assert missing[0] == 'D' && missing[17] == 'n';
  }

  /** Then the two counts, and the executable lookup last. */
  lemma ValidateConfigOrderLimits(config: ServerConfig, executableMissing: bool)
    requires 0 < config.port <= MaxPort && config.workDir != "" && config.dftbPath != ""
    ensures var r := ValidateConfig(config, executableMissing);
      (r == Some("max requests must be positive") <==> config.maxRequests <= 0)
      && (r == Some("timeout must be positive") <==> config.maxRequests > 0 && config.timeout <= 0)
      && (r == Some("DFTB+ executable not found at: " + config.dftbPath) <==>
            config.maxRequests > 0 && config.timeout > 0 && executableMissing)
  {
    var missing := "DFTB+ executable not found at: " + config.dftbPath;
    assert missing[0] == 'D';
  }

  /** The command-line defaults pass every check but the executable lookup. */
  lemma DefaultConfigValid()
    ensures ValidateConfig(ServerConfig(8080, "./work", "dftb+", 10, 300), false).None?
    ensures ValidateConfig(ServerConfig(8080, "./work", "dftb+", 10, 300), true) == Some("DFTB+ executable not found at: dftb+")
  {
    assert "DFTB+ executable not found at: " + "dftb+" == "DFTB+ executable not found at: dftb+";
  }

  // ---------------------------------------------------------------------------
  // cleanupOldFiles
  // ---------------------------------------------------------------------------

  /** An entry of the working directory: its name, whether it is a
      directory, and its modification time, `None` when `entry.Info()`
      fails. Times and ages are in nanoseconds. */
  datatype Entry = Entry(name: string, isDir: bool, modTime: Option<int>)

  /** A directory whose age is strictly greater than `maxAge`. */
  predicate Expired(e: Entry, now: int, maxAge: int) {
    e.isDir && e.modTime.Some? && now - e.modTime.value > maxAge
  }

  /** The names removed, in listing order: the expired directories whose
      `os.RemoveAll` succeeds. */
  function Removed(entries: seq<Entry>, now: int, maxAge: int, removeError: string -> Option<string>): (names: seq<string>)
    ensures |names| <= |entries|
  {
    if entries == [] then []
    else
      var e := entries[|entries| - 1];
      var rest := Removed(entries[..|entries| - 1], now, maxAge, removeError);
      if Expired(e, now, maxAge) && removeError(e.name).None? then rest + [e.name] else rest
  }

  /** A name is removed exactly when some entry of that name is an expired
      directory whose removal succeeds. */
  lemma {:induction false} RemovedExactly(entries: seq<Entry>, now: int, maxAge: int, removeError: string -> Option<string>)
    ensures forall n :: n in Removed(entries, now, maxAge, removeError) <==>
      exists e :: e in entries && e.name == n && Expired(e, now, maxAge) && removeError(n).None?
  {
    if entries != [] {
      var init := entries[..|entries| - 1];
      RemovedExactly(init, now, maxAge, removeError);
      assert entries == init + [entries[|entries| - 1]];
    }
  }

  /** Only directories are removed, and a directory exactly `maxAge` old, or
      one whose modification time cannot be read, stays. */
  lemma RemovedOnlyExpired(entries: seq<Entry>, now: int, maxAge: int, removeError: string -> Option<string>, e: Entry)
    requires e in entries
    requires !e.isDir || e.modTime.None? || now - e.modTime.value == maxAge
    requires forall f :: f in entries && f.name == e.name ==> f == e
    ensures e.name !in Removed(entries, now, maxAge, removeError)
  {
    RemovedExactly(entries, now, maxAge, removeError);
  }

  /** `cleanupOldFiles`: a listing failure is the only error; otherwise the
      sweep goes on past entries it cannot read or remove, and the count it
      logs is that of successful removals. The listing is `Ok` or the read
      error. */
  method CleanupOldFiles(listing: Result<seq<Entry>>, now: int, maxAge: int, removeError: string -> Option<string>)
    returns (err: Option<string>, removed: seq<string>, cleanedCount: nat)
    ensures listing.Err? ==> err == Some("failed to read working directory: " + listing.message) && removed == [] && cleanedCount == 0
    ensures listing.Ok? ==> err.None? && removed == Removed(listing.value, now, maxAge, removeError)
    ensures cleanedCount == |removed|
  {
    if listing.Err? {
      return Some("failed to read working directory: " + listing.message), [], 0;
    }
    var entries := listing.value;
    removed := [];
    cleanedCount := 0;
    var i := 0;
    while i < |entries|
      invariant 0 <= i <= |entries|
      invariant removed == Removed(entries[..i], now, maxAge, removeError)
      invariant cleanedCount == |removed|
    {
      var entry := entries[i];
      if entry.isDir {
        if entry.modTime.Some? {
          if now - entry.modTime.value > maxAge {
            if removeError(entry.name).None? {
              removed := removed + [entry.name];
              cleanedCount := cleanedCount + 1;
            }
          }
        }
      }
      assert entries[..i + 1][..i] == entries[..i];
      i := i + 1;
    }
    assert entries[..i] == entries;
    return None, removed, cleanedCount;
  }

  /** The number of directory entries. */
  function DirectoryCount(entries: seq<Entry>): nat {
    if entries == [] then 0
    else DirectoryCount(entries[..|entries| - 1]) + (if entries[|entries| - 1].isDir then 1 else 0)
  }

  /** At most one removal per directory entry. */
  lemma {:induction false} CountBoundedByDirectories(entries: seq<Entry>, now: int, maxAge: int, removeError: string -> Option<string>)
    ensures |Removed(entries, now, maxAge, removeError)| <= DirectoryCount(entries)
  {
    if entries != [] {
      CountBoundedByDirectories(entries[..|entries| - 1], now, maxAge, removeError);
    }
  }
}
