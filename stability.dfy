/**
 * DataManager::isFileStable: the two-sample write-stabilisation check, as a
 * function of the sample maps and the filesystem, and what repeated checks of
 * one pending path (the retry loop driven by the delay timer) can conclude.
 */
module Stability {
  import opened Wrappers
  import opened Files

  /** A (size, modification time) sample of one file. */
  datatype Sample = Sample(size: int, mtime: int)

  /** The sample a stat() of the path gives now, or None when it is missing. */
  function SampleOf(fs: FileSystem, path: string): Option<Sample>
  {
    if path in fs then Some(Sample(fs[path].size, fs[path].mtime)) else None
  }

  /** m_fileSizes and m_fileModificationTimes. The two hashes are only ever
      written and removed together, so one map from a path to its (size,
      modification time) pair holds exactly what they hold. */
  type SampleStore = map<string, Sample>

  /** The sample remembered for a path. */
  function StoredAt(store: SampleStore, path: string): Option<Sample>
  {
    if path in store then Some(store[path]) else None
  }

  const EmptyStore: SampleStore := map[]

  datatype Check = Check(stable: bool, store: SampleStore)

  /** One stability check of `path`. A missing file is not stable and leaves the
      maps alone; a sample equal to the remembered one confirms the file and
      forgets the sample; otherwise the new sample replaces the old one. Entries
      of other paths are never touched. */
  function IsFileStable(store: SampleStore, fs: FileSystem, path: string): (r: Check)
    ensures r.stable <==> SampleOf(fs, path).Some? && StoredAt(store, path) == SampleOf(fs, path)
    ensures path !in fs ==> r.store == store
    ensures path in fs ==> StoredAt(r.store, path) == if r.stable then None else SampleOf(fs, path)
    ensures forall q :: q != path ==> StoredAt(r.store, q) == StoredAt(store, q)
  {
    if path !in fs then Check(false, store)
    else
      var size, mtime := fs[path].size, fs[path].mtime;
      if path in store && store[path].size == size && store[path].mtime == mtime then
        Check(true, store - {path})
      else
        Check(false, store[path := Sample(size, mtime)])
  }

  /** Two checks of an existing file that has not changed in between: the first
      only records the sample, the second confirms it and leaves the maps as
      they were before the first. */
  lemma SecondIdenticalSampleConfirms(store: SampleStore, fs: FileSystem, path: string)
    requires StoredAt(store, path) == None
    requires path in fs
    ensures !IsFileStable(store, fs, path).stable
    ensures var second := IsFileStable(IsFileStable(store, fs, path).store, fs, path);
            second.stable && second.store == store
  {
    var first := IsFileStable(store, fs, path);
    var second := IsFileStable(first.store, fs, path);
    assert second.store == store;
  }

  // ---------------------------------------------------------------------------
  // The retry loop: the pending path is checked again each time the timer fires.

  datatype Run = Run(results: seq<bool>, store: SampleStore)

  /** The outcomes of checking `path` against each filesystem state in turn. */
  function RunChecks(store: SampleStore, states: seq<FileSystem>, path: string): (r: Run)
    ensures |r.results| == |states|
    decreases |states|
  {
    if states == [] then Run([], store)
    else
      var before := RunChecks(store, states[..|states| - 1], path);
      var c := IsFileStable(before.store, states[|states| - 1], path);
      Run(before.results + [c.stable], c.store)
  }

  /** The sample of the last state in which the file existed, or `initial`. */
  function LastSeen(initial: Option<Sample>, states: seq<FileSystem>, path: string): Option<Sample>
    decreases |states|
  {
    if states == [] then initial
    else if path in states[|states| - 1] then SampleOf(states[|states| - 1], path)
    else LastSeen(initial, states[..|states| - 1], path)
  }

  predicate NoneStable(r: Run)
  {
    forall k :: 0 <= k < |r.results| ==> !r.results[k]
  }

  /** While no check has succeeded, the remembered sample is the one taken the
      last time the file existed: missing ticks keep it. */
  lemma {:induction false} RunRemembersLastSample(store: SampleStore, states: seq<FileSystem>, path: string)
    requires NoneStable(RunChecks(store, states, path))
    ensures StoredAt(RunChecks(store, states, path).store, path)
            == LastSeen(StoredAt(store, path), states, path)
    decreases |states|
  {
    if states != [] {
      var prefix := states[..|states| - 1];
      var before := RunChecks(store, prefix, path);
      assert RunChecks(store, states, path).results[..|prefix|] == before.results;
      assert NoneStable(before) by {
        forall k | 0 <= k < |before.results| ensures !before.results[k] {
          assert before.results[k] == RunChecks(store, states, path).results[k];
        }
      }
      RunRemembersLastSample(store, prefix, path);
      var last := IsFileStable(before.store, states[|states| - 1], path);
      assert !RunChecks(store, states, path).results[|prefix|];
      assert !last.stable && RunChecks(store, states, path).store == last.store;
    }
  }

  /** A pending path is confirmed exactly when it exists and its sample equals
      the last sample taken while it existed: the gate dispatches only after two
      identical samples with no differing one in between. */
  lemma StableExactlyOnRepeatedSample(store: SampleStore, states: seq<FileSystem>, fs: FileSystem, path: string)
    requires NoneStable(RunChecks(store, states, path))
    ensures IsFileStable(RunChecks(store, states, path).store, fs, path).stable
            <==> path in fs && LastSeen(StoredAt(store, path), states, path) == SampleOf(fs, path)
  {
    RunRemembersLastSample(store, states, path);
  }

  /** A file that changes size or modification time between every two ticks,
      starting from a sample different from the remembered one, is never
      confirmed, however long the retries go on. */
  lemma {:induction false} GrowingFileNeverStable(store: SampleStore, states: seq<FileSystem>, path: string)
    requires forall k :: 0 <= k < |states| ==> path in states[k]
    requires forall k :: 0 < k < |states| ==> SampleOf(states[k - 1], path) != SampleOf(states[k], path)
    requires states != [] ==> StoredAt(store, path) != SampleOf(states[0], path)
    ensures NoneStable(RunChecks(store, states, path))
    decreases |states|
  {
    if states != [] {
      var n := |states|;
      var prefix := states[..n - 1];
      GrowingFileNeverStable(store, prefix, path);
      RunRemembersLastSample(store, prefix, path);
      var before := RunChecks(store, prefix, path);
      if n > 1 {
        assert LastSeen(StoredAt(store, path), prefix, path) == SampleOf(states[n - 2], path);
      }
      assert !IsFileStable(before.store, states[n - 1], path).stable;
      var all := RunChecks(store, states, path);
      forall k | 0 <= k < n ensures !all.results[k] {
        if k < n - 1 {
          assert all.results[k] == before.results[k];
        }
      }
    }
  }

  /** A missing file is never confirmed and its checks store nothing. */
  lemma {:induction false} MissingFileNeverStable(store: SampleStore, states: seq<FileSystem>, path: string)
    requires forall k :: 0 <= k < |states| ==> path !in states[k]
    ensures NoneStable(RunChecks(store, states, path))
    ensures RunChecks(store, states, path).store == store
    decreases |states|
  {
    if states != [] {
      var prefix := states[..|states| - 1];
      MissingFileNeverStable(store, prefix, path);
      var all := RunChecks(store, states, path);
      forall k | 0 <= k < |states| ensures !all.results[k] {
        if k < |states| - 1 {
          assert all.results[k] == RunChecks(store, prefix, path).results[k];
        }
      }
    }
  }
}
