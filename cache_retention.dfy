/**
 * `remove_stale_temp_files`, in its two variants: the server's, run by the
 * cache-cleaner thread, and the clipboard tool's. Both walk the audio cache
 * directory, delete every file last modified before `now - days * 86400`,
 * and hand the deleted file names to `clear_history`.
 *
 * The directory walk is an input: the directories `os.walk` yields, in
 * order, each with its files. For each file the input records what
 * `os.path.getmtime` returns (`None` when it raises) and whether
 * `os.remove` succeeds. Times are whole seconds. `days` is the result of
 * `int(config.get('appCache', 'threshold'))`; `None` stands for that call
 * raising, which ends the operation before the walk.
 */
module CacheRetention {
  import opened Common
  import opened Text

  /** One file of the walk. */
  datatype CacheFile = CacheFile(name: string, mtime: Option<int>, removable: bool)

  /** One `(root, dirs, files)` triple of `os.walk`. */
  datatype WalkDir = WalkDir(root: string, files: seq<CacheFile>)

  /** The two variants differ in their skip test and in where a `getmtime` error lands. */
  datatype Variant = Server | Pb

  const SecondsPerDay: int := 24 * 60 * 60

  /** `current_time - day * 24 * 60 * 60`. */
  function Threshold(now: int, days: int): int {
    now - days * SecondsPerDay
  }

  /** The files of the walk, directory after directory. */
  function Flatten(walk: seq<WalkDir>): seq<CacheFile>
    decreases |walk|
  {
    if |walk| == 0 then [] else Flatten(walk[..|walk| - 1]) + walk[|walk| - 1].files
  }

  /**
   * The skip test. The server skips a name only when it ends with both the
   * ignore pattern and `.db-journal`; the clipboard tool skips every name
   * ending with the pattern. An empty pattern skips nothing.
   */
  predicate Skips(v: Variant, name: string, ignore: string) {
    match v
    case Server => ignore != "" && EndsWith(name, ignore) && EndsWith(name, ".db-journal")
    case Pb => ignore != "" && EndsWith(name, ignore)
  }

  /** Strictly older than the threshold. */
  predicate Stale(f: CacheFile, threshold: int) {
    f.mtime.Some? && f.mtime.value < threshold
  }

  /** The file is deleted and its name recorded. */
  predicate Deletes(v: Variant, f: CacheFile, ignore: string, threshold: int) {
    !Skips(v, f.name, ignore) && Stale(f, threshold) && f.removable
  }

  /** The names recorded in `file_list` over a run of files, in walk order. */
  function Removed(v: Variant, files: seq<CacheFile>, ignore: string, threshold: int): seq<string>
    decreases |files|
  {
    if |files| == 0 then []
    else
      var f := files[|files| - 1];
      Removed(v, files[..|files| - 1], ignore, threshold) + (if Deletes(v, f, ignore, threshold) then [f.name] else [])
  }

  /** The files at index `k` is deleted. */
  predicate DeletedAt(v: Variant, files: seq<CacheFile>, k: int, ignore: string, threshold: int) {
    0 <= k < |files| && Deletes(v, files[k], ignore, threshold)
  }

  /** A name is recorded exactly when some file of that name was deleted. */
  lemma {:induction false} RemovedMembers(v: Variant, files: seq<CacheFile>, ignore: string, threshold: int, n: string)
    ensures n in Removed(v, files, ignore, threshold) <==>
      exists k :: DeletedAt(v, files, k, ignore, threshold) && files[k].name == n
    decreases |files|
  {
    if |files| > 0 {
      var init := files[..|files| - 1];
      RemovedMembers(v, init, ignore, threshold, n);
      if exists k :: DeletedAt(v, init, k, ignore, threshold) && init[k].name == n {
        var k :| DeletedAt(v, init, k, ignore, threshold) && init[k].name == n;
        assert DeletedAt(v, files, k, ignore, threshold) && files[k].name == n;
      }
      if exists k :: DeletedAt(v, files, k, ignore, threshold) && files[k].name == n {
        var k :| DeletedAt(v, files, k, ignore, threshold) && files[k].name == n;
        if k < |init| {
          assert DeletedAt(v, init, k, ignore, threshold) && init[k].name == n;
        }
      }
    }
  }


  /** Flattening distributes over concatenation of walks. */
  lemma {:induction false} FlattenAppend(a: seq<WalkDir>, b: seq<WalkDir>)
    ensures Flatten(a + b) == Flatten(a) + Flatten(b)
    decreases |b|
  {
    if |b| == 0 {
      assert a + b == a;
    } else {
      var b' := b[..|b| - 1];
      assert (a + b)[..|a + b| - 1] == a + b';
      FlattenAppend(a, b');
    }
  }

  /** One more directory of the walk appends its files. */
  lemma FlattenStep(walk: seq<WalkDir>, i: int)
    requires 0 <= i < |walk|
    ensures Flatten(walk[..i + 1]) == Flatten(walk[..i]) + walk[i].files
  {
    assert walk[..i + 1][..i] == walk[..i];
  }

  /** One more file of directory `files` extends the run walked so far. */
  lemma PrefixStep(prefix: seq<CacheFile>, files: seq<CacheFile>, j: int)
    requires 0 <= j < |files|
    ensures prefix + files[..j + 1] == (prefix + files[..j]) + [files[j]]
    ensures ((prefix + files[..j]) + [files[j]])[..|prefix + files[..j]|] == prefix + files[..j]
  {
    assert files[..j + 1] == files[..j] + [files[j]];
  }

  /** One more file of the run appends its name when it is deleted. */
  lemma RemovedSnoc(v: Variant, run: seq<CacheFile>, f: CacheFile, ignore: string, threshold: int)
    ensures Removed(v, run + [f], ignore, threshold) ==
      Removed(v, run, ignore, threshold) + (if Deletes(v, f, ignore, threshold) then [f.name] else [])
  {
    assert (run + [f])[..|run|] == run;
  }

  // ---------------------------------------------------------------------------
  // The server's variant

  /**
   * The server's `remove_stale_temp_files(directory_path, ignore_pattern)`:
   * `None` when the threshold cannot be read, otherwise the list passed to
   * `clear_history`. A `getmtime` or `remove` error is logged and the walk
   * goes on with the next file.
   */
  method RemoveStaleServer(walk: seq<WalkDir>, ignore: string, now: int, days: Option<int>)
    returns (cleared: Option<seq<string>>)
    ensures days.None? ==> cleared.None?
    ensures days.Some? ==> cleared == Some(Removed(Server, Flatten(walk), ignore, Threshold(now, days.value)))
  {
    if days.None? {
      return None;
    }
    var threshold := now - days.value * SecondsPerDay;
    var fileList: seq<string> := [];
    var i := 0;
    while i < |walk|
      invariant 0 <= i <= |walk|
      invariant fileList == Removed(Server, Flatten(walk[..i]), ignore, threshold)
    {
      var files := walk[i].files;
      var j := 0;
      assert Flatten(walk[..i]) + files[..0] == Flatten(walk[..i]);
      while j < |files|
        invariant 0 <= j <= |files|
        invariant fileList == Removed(Server, Flatten(walk[..i]) + files[..j], ignore, threshold)
      {
        var file := files[j];
        PrefixStep(Flatten(walk[..i]), files, j);
        RemovedSnoc(Server, Flatten(walk[..i]) + files[..j], file, ignore, threshold);
        if ignore != "" && EndsWith(file.name, ignore) && EndsWith(file.name, ".db-journal") {
          j := j + 1;
          continue;
        }
        if file.mtime.Some? && file.mtime.value < threshold && file.removable {
          fileList := fileList + [file.name];
        }
        j := j + 1;
      }
      assert files[..|files|] == files;
      FlattenStep(walk, i);
      i := i + 1;
    }
    assert walk[..|walk|] == walk;
    return Some(fileList);
  }

  /** With the default pattern `.db` the server skips nothing: no name ends with both `.db` and `.db-journal`. */
  lemma ServerDefaultSkipsNothing(name: string)
    ensures !Skips(Server, name, ".db")
  {
    if EndsWith(name, ".db-journal") {
      var n := |name|;
      assert name[n - 1] == ".db-journal"[10] == 'l';
      assert name[n - 1] != ".db"[2];
    }
  }

  /** With the default pattern, the server deletes exactly the stale files it can remove. */
  lemma ServerDefaultRemovesStale(files: seq<CacheFile>, threshold: int, n: string)
    ensures n in Removed(Server, files, ".db", threshold) <==>
      exists k :: 0 <= k < |files| && files[k].name == n && Stale(files[k], threshold) && files[k].removable
  {
    RemovedMembers(Server, files, ".db", threshold, n);
    if exists k :: 0 <= k < |files| && files[k].name == n && Stale(files[k], threshold) && files[k].removable {
      var k :| 0 <= k < |files| && files[k].name == n && Stale(files[k], threshold) && files[k].removable;
      ServerDefaultSkipsNothing(n);
      assert DeletedAt(Server, files, k, ".db", threshold);
    }
  }

  /**
   * With a 30-day threshold, of files 40, 10 and exactly 30 days old and one
   * whose age cannot be read, only the 40-day file is deleted: the
   * comparison is strict.
   */
  lemma ThirtyDayExample(now: int)
    ensures Removed(Server, [CacheFile("a.wav", Some(now - 40 * 86400), true),
                             CacheFile("b.wav", Some(now - 10 * 86400), true),
                             CacheFile("c.wav", Some(now - 30 * 86400), true),
                             CacheFile("d.wav", None, true)], ".db", Threshold(now, 30)) == ["a.wav"]
  {
    var files := [CacheFile("a.wav", Some(now - 40 * 86400), true),
                  CacheFile("b.wav", Some(now - 10 * 86400), true),
                  CacheFile("c.wav", Some(now - 30 * 86400), true),
                  CacheFile("d.wav", None, true)];
    ServerDefaultSkipsNothing("a.wav");
    var t := Threshold(now, 30);
    assert files[..1][..0] == [];
    assert Removed(Server, files[..1], ".db", t) == ["a.wav"];
    assert files[..2][..1] == files[..1];
    assert Removed(Server, files[..2], ".db", t) == ["a.wav"];
    assert files[..3][..2] == files[..2];
    assert Removed(Server, files[..3], ".db", t) == ["a.wav"];
    assert files[..4] == files;
  }

  // ---------------------------------------------------------------------------
  // The clipboard tool's variant

  /**
   * How the clipboard tool's walk ends: it reaches `clear_history` with the
   * recorded names, or a `getmtime` error escapes and ends it with files
   * already deleted but `clear_history` never called.
   */
  datatype PbRun = Cleared(removed: seq<string>) | Aborted(removed: seq<string>)

  /** The clipboard tool's walk over a run of files, file by file. */
  function PbWalk(files: seq<CacheFile>, ignore: string, threshold: int): PbRun
    decreases |files|
  {
    if |files| == 0 then Cleared([])
    else
      var prev := PbWalk(files[..|files| - 1], ignore, threshold);
      var f := files[|files| - 1];
      if prev.Aborted? || Skips(Pb, f.name, ignore) then prev
      else if f.mtime.None? then Aborted(prev.removed)
      else if f.mtime.value < threshold && f.removable then Cleared(prev.removed + [f.name])
      else prev
  }

  /** The file at index `k` is not skipped and its `getmtime` raises. */
  predicate AbortsAt(files: seq<CacheFile>, k: int, ignore: string) {
    0 <= k < |files| && !Skips(Pb, files[k].name, ignore) && files[k].mtime.None?
  }

  /**
   * The walk is aborted exactly when some unskipped file's age cannot be
   * read; it then holds the names recorded before the first such file, and
   * otherwise the names `Removed` records over the whole run.
   */
  lemma {:induction false} PbWalkCharacterised(files: seq<CacheFile>, ignore: string, threshold: int)
    ensures PbWalk(files, ignore, threshold).Aborted? <==> exists k :: AbortsAt(files, k, ignore)
    ensures PbWalk(files, ignore, threshold).Cleared? ==>
      PbWalk(files, ignore, threshold).removed == Removed(Pb, files, ignore, threshold)
    ensures PbWalk(files, ignore, threshold).Aborted? ==>
      exists k :: && AbortsAt(files, k, ignore)
                  && (forall j :: 0 <= j < k ==> !AbortsAt(files, j, ignore))
                  && PbWalk(files, ignore, threshold).removed == Removed(Pb, files[..k], ignore, threshold)
    decreases |files|
  {
    if |files| > 0 {
      var init := files[..|files| - 1];
      var last := |files| - 1;
      PbWalkCharacterised(init, ignore, threshold);
      forall k | 0 <= k < last
        ensures AbortsAt(files, k, ignore) <==> AbortsAt(init, k, ignore)
      {
        assert files[k] == init[k];
      }
      var prev := PbWalk(init, ignore, threshold);
      if prev.Aborted? {
        var k :| && AbortsAt(init, k, ignore)
                 && (forall j :: 0 <= j < k ==> !AbortsAt(init, j, ignore))
                 && prev.removed == Removed(Pb, init[..k], ignore, threshold);
        assert init[..k] == files[..k];
        assert AbortsAt(files, k, ignore);
      } else if AbortsAt(files, last, ignore) {
        assert files[..last] == init;
        assert forall j :: 0 <= j < last ==> !AbortsAt(files, j, ignore);
      }
    }
  }

  /** An aborted walk stays aborted whatever files follow. */
  lemma {:induction false} PbAbortSticks(a: seq<CacheFile>, b: seq<CacheFile>, ignore: string, threshold: int)
    requires PbWalk(a, ignore, threshold).Aborted?
    ensures PbWalk(a + b, ignore, threshold) == PbWalk(a, ignore, threshold)
    decreases |b|
  {
    if |b| == 0 {
      assert a + b == a;
    } else {
      var b' := b[..|b| - 1];
      assert (a + b)[..|a + b| - 1] == a + b';
      PbAbortSticks(a, b', ignore, threshold);
    }
  }

  /** One step of the clipboard tool's walk. */
  lemma PbStep(done: seq<CacheFile>, f: CacheFile, ignore: string, threshold: int)
    ensures PbWalk(done + [f], ignore, threshold) ==
      var prev := PbWalk(done, ignore, threshold);
      if prev.Aborted? || Skips(Pb, f.name, ignore) then prev
      else if f.mtime.None? then Aborted(prev.removed)
      else if f.mtime.value < threshold && f.removable then Cleared(prev.removed + [f.name])
      else prev
  {
    assert (done + [f])[..|done|] == done;
  }

  /** Once the walk aborts within directory `i`, the directories after it change nothing. */
  lemma PbAbortEndsWalk(walk: seq<WalkDir>, i: int, ignore: string, threshold: int)
    requires 0 <= i < |walk|
    requires PbWalk(Flatten(walk[..i + 1]), ignore, threshold).Aborted?
    ensures PbWalk(Flatten(walk), ignore, threshold) == PbWalk(Flatten(walk[..i + 1]), ignore, threshold)
  {
    assert walk == walk[..i + 1] + walk[i + 1..];
    FlattenAppend(walk[..i + 1], walk[i + 1..]);
    PbAbortSticks(Flatten(walk[..i + 1]), Flatten(walk[i + 1..]), ignore, threshold);
  }

  /**
   * The clipboard tool's `for file in files` over one directory, continuing
   * a walk that has recorded `removed` so far: how the walk stands after it.
   */
  method PbWalkFiles(done: seq<CacheFile>, files: seq<CacheFile>, ignore: string, threshold: int, removed: seq<string>)
    returns (run: PbRun)
    requires PbWalk(done, ignore, threshold) == Cleared(removed)
    ensures run == PbWalk(done + files, ignore, threshold)
  {
    var fileList := removed;
    var j := 0;
    assert done + files[..0] == done;
    while j < |files|
      invariant 0 <= j <= |files|
      invariant PbWalk(done + files[..j], ignore, threshold) == Cleared(fileList)
    {
      var file := files[j];
      PrefixStep(done, files, j);
      PbStep(done + files[..j], file, ignore, threshold);
      if ignore != "" && EndsWith(file.name, ignore) {
        j := j + 1;
        continue;
      }
      if file.mtime.None? {
        assert done + files == (done + files[..j + 1]) + files[j + 1..];
        PbAbortSticks(done + files[..j + 1], files[j + 1..], ignore, threshold);
        return Aborted(fileList);
      }
      if file.mtime.value < threshold {
        if file.removable {
          fileList := fileList + [file.name];
        }
      }
      j := j + 1;
    }
    assert files[..|files|] == files;
    return Cleared(fileList);
  }

  /**
   * The clipboard tool's `remove_stale_temp_files(directory_path,
   * ignore_pattern)`: `None` when the threshold cannot be read, otherwise
   * how the walk ends. A failed `os.remove` is logged and its name not
   * recorded; a failed `getmtime` is outside the `try` and ends the walk.
   */
  method RemoveStalePb(walk: seq<WalkDir>, ignore: string, now: int, days: Option<int>)
    returns (run: Option<PbRun>)
    ensures days.None? ==> run.None?
    ensures days.Some? ==> run == Some(PbWalk(Flatten(walk), ignore, Threshold(now, days.value)))
  {
    if days.None? {
      return None;
    }
    var threshold := now - days.value * SecondsPerDay;
    var fileList: seq<string> := [];
    var i := 0;
    while i < |walk|
      invariant 0 <= i <= |walk|
      invariant PbWalk(Flatten(walk[..i]), ignore, threshold) == Cleared(fileList)
    {
      var dirRun := PbWalkFiles(Flatten(walk[..i]), walk[i].files, ignore, threshold, fileList);
      FlattenStep(walk, i);
      if dirRun.Aborted? {
        PbAbortEndsWalk(walk, i, ignore, threshold);
        return Some(dirRun);
      }
      fileList := dirRun.removed;
      i := i + 1;
    }
    assert walk[..|walk|] == walk;
    return Some(Cleared(fileList));
  }

  /** The clipboard tool never deletes a file whose name ends with a non-empty ignore pattern. */
  lemma PbNeverRemovesIgnored(files: seq<CacheFile>, ignore: string, threshold: int, n: string)
    requires ignore != "" && EndsWith(n, ignore)
    ensures n !in PbWalk(files, ignore, threshold).removed
  {
    PbWalkCharacterised(files, ignore, threshold);
    var run := PbWalk(files, ignore, threshold);
    if run.Cleared? {
      RemovedMembers(Pb, files, ignore, threshold, n);
    } else {
      var k :| && AbortsAt(files, k, ignore)
               && (forall j :: 0 <= j < k ==> !AbortsAt(files, j, ignore))
               && run.removed == Removed(Pb, files[..k], ignore, threshold);
      RemovedMembers(Pb, files[..k], ignore, threshold, n);
    }
  }
}
