/**
 * FileIOHelper's watch bookkeeping: the list of paths the application wants
 * watched, the set the OS watcher actually holds, and the poll tick that
 * promotes a wanted path once its file has appeared.
 */
module FileIO {
  import opened Files

  datatype FileEvent = FileChanged(path: string) | FileAppeared(path: string)

  predicate NoDuplicates(s: seq<string>)
  {
    forall i, j :: 0 <= i < j < |s| ==> s[i] != s[j]
  }

  function Elements(s: seq<string>): set<string>
  {
    set x | x in s
  }

  /** QStringList::removeAll: every occurrence of x goes, the rest keeps its
      order. */
  function RemoveAll(s: seq<string>, x: string): (r: seq<string>)
    ensures forall y :: y in r <==> y in s && y != x
    ensures multiset(r) == multiset(s)[x := 0]
    ensures x !in s ==> r == s
    ensures |r| <= |s|
  {
    if s == [] then []
    else
      assert s == [s[0]] + s[1..];
      (if s[0] == x then [] else [s[0]]) + RemoveAll(s[1..], x)
  }

  /** Removal works piece by piece: the kept elements of a + b are the kept
      elements of a followed by the kept elements of b, so their order is the
      order they had. */
  lemma {:induction false} RemoveAllAppend(a: seq<string>, b: seq<string>, x: string)
    ensures RemoveAll(a + b, x) == RemoveAll(a, x) + RemoveAll(b, x)
    decreases |a|
  {
    if a != [] {
      assert (a + b)[1..] == a[1..] + b;
      RemoveAllAppend(a[1..], b, x);
    } else {
      assert a + b == b;
    }
  }

  /** Removing from a list without duplicates leaves a list without duplicates. */
  lemma {:induction false} RemoveAllNoDuplicates(s: seq<string>, x: string)
    requires NoDuplicates(s)
    ensures NoDuplicates(RemoveAll(s, x))
  {
    if s != [] {
      RemoveAllNoDuplicates(s[1..], x);
      var rest := RemoveAll(s[1..], x);
      assert forall j :: 0 <= j < |s| - 1 ==> s[1..][j] != s[0];
      assert s[0] !in rest;
    }
  }

  // ---------------------------------------------------------------------------
  // checkForNewFiles as a function

  datatype Tick = Tick(registered: set<string>, events: seq<FileEvent>)

  /** The poll over `paths` in order, from the registered set `reg`: each path
      that is not registered (by then) and exists is registered, with
      fileAppeared and then fileChanged. */
  function PollTick(paths: seq<string>, reg: set<string>, fs: FileSystem): Tick
  {
    if paths == [] then Tick(reg, [])
    else
      var before := PollTick(paths[..|paths| - 1], reg, fs);
      var p := paths[|paths| - 1];
      if p !in before.registered && p in fs then
        Tick(before.registered + {p}, before.events + [FileAppeared(p), FileChanged(p)])
      else before
  }

  /** Events come in pairs: fileAppeared(p) immediately followed by
      fileChanged(p). */
  predicate Paired(events: seq<FileEvent>)
  {
    |events| % 2 == 0
    && forall k :: 0 <= k < |events| / 2 ==>
         events[2 * k].FileAppeared? && events[2 * k + 1] == FileChanged(events[2 * k].path)
  }

  /** After a tick, a path is registered exactly when it was before or it is
      wanted and exists; a path gets events exactly when it is wanted, exists
      and was not registered, and they come as fileAppeared then fileChanged. */
  lemma {:induction false} PollTickSpec(paths: seq<string>, reg: set<string>, fs: FileSystem)
    ensures var t := PollTick(paths, reg, fs);
            && (forall p :: p in t.registered <==> p in reg || (p in paths && p in fs))
            && Paired(t.events)
            && (forall p :: FileAppeared(p) in t.events <==> p in paths && p in fs && p !in reg)
            && (forall p :: FileChanged(p) in t.events <==> p in paths && p in fs && p !in reg)
  {
    if paths != [] {
      var prefix := paths[..|paths| - 1];
      var p := paths[|paths| - 1];
      assert paths == prefix + [p];
      PollTickSpec(prefix, reg, fs);
      var before := PollTick(prefix, reg, fs);
      var t := PollTick(paths, reg, fs);
      if p !in before.registered && p in fs {
        var n := |before.events| / 2;
        assert t.events[2 * n] == FileAppeared(p);
        assert forall k :: 0 <= k < n ==> t.events[2 * k] == before.events[2 * k] && t.events[2 * k + 1] == before.events[2 * k + 1];
      }
    }
  }

  /** A second tick over an unchanged filesystem registers nothing new and emits
      nothing. */
  lemma SecondTickQuiet(paths: seq<string>, reg: set<string>, fs: FileSystem)
    ensures var first := PollTick(paths, reg, fs);
            var second := PollTick(paths, first.registered, fs);
            second.registered == first.registered && second.events == []
  {
    var first := PollTick(paths, reg, fs);
    PollTickSpec(paths, reg, fs);
    PollTickSpec(paths, first.registered, fs);
  }

  /** A tick keeps every registered path among the wanted ones. */
  lemma TickKeepsRegisteredWanted(paths: seq<string>, reg: set<string>, fs: FileSystem)
    requires reg <= Elements(paths)
    ensures PollTick(paths, reg, fs).registered <= Elements(paths)
  {
    PollTickSpec(paths, reg, fs);
  }

  // ---------------------------------------------------------------------------
  // The helper object

  class FileIOHelper {
    /** m_watchedFiles: the paths the application asked to watch, in order. */
    var watched: seq<string>
    /** m_watcher->files(): the paths the OS watcher holds. */
    var registered: set<string>
    /** Every fileChanged and fileAppeared emitted so far. */
    var events: seq<FileEvent>

    /** The wanted list has no duplicates, and only wanted paths are registered. */
    predicate Valid()
      reads this`watched, this`registered
    {
      NoDuplicates(watched) && registered <= Elements(watched)
    }

    constructor ()
      ensures watched == [] && registered == {} && events == []
      ensures Valid()
    {
      watched, registered, events := [], {}, [];
    }

    /** watchFile: a path already wanted changes nothing; otherwise it is
        appended to the wanted list and registered if, and only if, the file
        exists now. */
    method WatchFile(fs: FileSystem, path: string)
      modifies this`watched, this`registered
      ensures path in old(watched) ==> watched == old(watched) && registered == old(registered)
      ensures path !in old(watched) ==>
                watched == old(watched) + [path] && registered == AddPath(old(registered), fs, path)
      ensures old(Valid()) ==> Valid()
    {
      if path in watched {
        return;
      }
      watched := watched + [path];
      if path in fs {
        if path !in registered {
          registered := AddPath(registered, fs, path);
        }
      }
    }

    /** unwatchFile: the path leaves the wanted list and the registered set;
        other paths keep their place in both. */
    method UnwatchFile(path: string)
      modifies this`watched, this`registered
      ensures watched == RemoveAll(old(watched), path)
      ensures registered == old(registered) - {path}
      ensures old(Valid()) ==> Valid()
    {
      if NoDuplicates(watched) {
        RemoveAllNoDuplicates(watched, path);
      }
      watched := RemoveAll(watched, path);
      if path in registered {
        registered := registered - {path};
      }
    }

    /** onFileChanged: the path is registered again when the watcher dropped it
        and the file exists, and exactly one fileChanged(path) is emitted. */
    method OnFileChanged(fs: FileSystem, path: string)
      modifies this`registered, this`events
      ensures registered == AddPath(old(registered), fs, path)
      ensures events == old(events) + [FileChanged(path)]
      ensures old(Valid()) && path in watched ==> Valid()
    {
      if path !in registered && path in fs {
        registered := AddPath(registered, fs, path);
      }
      events := events + [FileChanged(path)];
    }

    /** checkForNewFiles: the poll tick over the wanted list. */
    method CheckForNewFiles(fs: FileSystem)
      modifies this`registered, this`events
      ensures registered == PollTick(watched, old(registered), fs).registered
      ensures events == old(events) + PollTick(watched, old(registered), fs).events
      ensures old(Valid()) ==> Valid()
    {
      for i := 0 to |watched|
        invariant registered == PollTick(watched[..i], old(registered), fs).registered
        invariant events == old(events) + PollTick(watched[..i], old(registered), fs).events
      {
        var p := watched[i];
        assert watched[..i + 1][..i] == watched[..i];
        if p !in registered && p in fs {
          registered := AddPath(registered, fs, p);
          events := events + [FileAppeared(p), FileChanged(p)];
        }
      }
      assert watched[..|watched|] == watched;
      if old(Valid()) {
        TickKeepsRegisteredWanted(watched, old(registered), fs);
      }
    }
  }
}
