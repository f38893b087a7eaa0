/** Moving a configuration directory to its new place: a recursive copy that never
    replaces a file, keeps a journal of what it creates, and removes that again when any
    file operation fails. Paths are relative to the two directories, which are disjoint;
    the destination holds no symbolic links. Which operations fail, and what a failed
    copy leaves behind, is arbitrary. */
module Migration {

  type Path = seq<string>

  /** What a directory of the source holds, in the order in which it is listed. */
  datatype Entry =
    | File(name: string, data: string)
    | Directory(name: string, entries: seq<Entry>)
    | Link(name: string)
    | Other(name: string)

  /** `e` is what the source tree `t` has at path `p`. */
  ghost predicate HasEntry(t: Entry, p: Path, e: Entry)
    decreases |p|
  {
    if p == [] then t == e
    else t.Directory? && exists i ::
           0 <= i < |t.entries| && t.entries[i].name == p[0] && HasEntry(t.entries[i], p[1..], e)
  }

  /** No directory lists a name twice. */
  ghost predicate WellFormed(t: Entry) {
    t.Directory? ==>
      && (forall i, j :: 0 <= i < j < |t.entries| ==> t.entries[i].name != t.entries[j].name)
      && (forall i :: 0 <= i < |t.entries| ==> WellFormed(t.entries[i]))
  }

  lemma {:induction false} EntryIsUnique(t: Entry, p: Path, a: Entry, b: Entry)
    requires WellFormed(t) && HasEntry(t, p, a) && HasEntry(t, p, b)
    ensures a == b
    decreases |p|
  {
    if p != [] {
      var i :| 0 <= i < |t.entries| && t.entries[i].name == p[0] && HasEntry(t.entries[i], p[1..], a);
      var j :| 0 <= j < |t.entries| && t.entries[j].name == p[0] && HasEntry(t.entries[j], p[1..], b);
      assert i == j;
      EntryIsUnique(t.entries[i], p[1..], a, b);
    }
  }

  ghost predicate IsFile(t: Entry, p: Path) {
    exists e :: HasEntry(t, p, e) && e.File?
  }

  ghost predicate IsDirectory(t: Entry, p: Path) {
    exists e :: HasEntry(t, p, e) && e.Directory?
  }

  lemma {:induction false} ChildEntry(t: Entry, p: Path, d: Entry, i: nat)
    requires HasEntry(t, p, d) && d.Directory? && i < |d.entries|
    ensures HasEntry(t, p + [d.entries[i].name], d.entries[i])
    decreases |p|
  {
    var q := p + [d.entries[i].name];
    if p == [] {
      assert q[0] == d.entries[i].name && q[1..] == [];
      assert HasEntry(d.entries[i], q[1..], d.entries[i]);
    } else {
      var j :| 0 <= j < |t.entries| && t.entries[j].name == p[0] && HasEntry(t.entries[j], p[1..], d);
      ChildEntry(t.entries[j], p[1..], d, i);
      assert q[0] == p[0] && q[1..] == p[1..] + [d.entries[i].name];
    }
  }

  /** An entry that the copy cannot take: a symbolic link, or a directory in whose place
      the destination has one of the files `blocked`. */
  predicate Stops(blocked: set<Path>, p: Path, e: Entry) {
    e.Link? || (e.Directory? && p in blocked)
  }

  /** Something below `e`, which lies at path `at`, stops the copy. */
  ghost predicate Obstructed(blocked: set<Path>, e: Entry, at: Path, skipped: Path) {
    exists r, f :: HasEntry(e, r, f) && !(skipped <= at + r) && Stops(blocked, at + r, f)
  }

  /** Nothing below `e` stopped the copy, and every file is at one of the paths `present`. */
  ghost predicate Arrived(present: set<Path>, blocked: set<Path>, e: Entry, at: Path, skipped: Path) {
    forall r, f :: HasEntry(e, r, f) && !(skipped <= at + r) ==>
      !Stops(blocked, at + r, f) && (f.File? ==> at + r in present)
  }

  lemma ObstructedBelow(blocked: set<Path>, d: Entry, i: nat, at: Path, skipped: Path)
    requires d.Directory? && i < |d.entries| && Obstructed(blocked, d.entries[i], at + [d.entries[i].name], skipped)
    ensures Obstructed(blocked, d, at, skipped)
  {
    var e := d.entries[i];
    var r, f :| HasEntry(e, r, f) && !(skipped <= at + [e.name] + r) && Stops(blocked, at + [e.name] + r, f);
    var r' := [e.name] + r;
    assert r'[1..] == r && at + r' == at + [e.name] + r;
    assert HasEntry(d, r', f);
  }

  lemma ObstructedHere(blocked: set<Path>, e: Entry, at: Path, skipped: Path)
    requires Stops(blocked, at, e) && !(skipped <= at)
    ensures Obstructed(blocked, e, at, skipped)
  {
    assert HasEntry(e, [], e) && at + [] == at;
  }

  /** An entry without entries of its own. */
  lemma ArrivedAlone(present: set<Path>, blocked: set<Path>, e: Entry, p: Path, skipped: Path)
    requires !e.Directory? && !e.Link? && (e.File? ==> p in present)
    ensures Arrived(present, blocked, e, p, skipped)
  {
    forall r, f | HasEntry(e, r, f) ensures f == e && p + r == p {}
  }

  /** The first `n` entries of a directory that are not skipped. */
  ghost predicate SomeArrived(present: set<Path>, blocked: set<Path>, d: Entry, n: nat, at: Path, skipped: Path)
    requires d.Directory? && n <= |d.entries|
  {
    forall j :: 0 <= j < n && !(skipped <= at + [d.entries[j].name]) ==>
      Arrived(present, blocked, d.entries[j], at + [d.entries[j].name], skipped)
  }

  lemma NextArrived(present: set<Path>, present': set<Path>, blocked: set<Path>, d: Entry, n: nat, at: Path,
                    skipped: Path)
    requires d.Directory? && n < |d.entries| && present <= present' && SomeArrived(present, blocked, d, n, at, skipped)
    requires !(skipped <= at + [d.entries[n].name]) ==>
               Arrived(present', blocked, d.entries[n], at + [d.entries[n].name], skipped)
    ensures SomeArrived(present', blocked, d, n + 1, at, skipped)
  {
    forall j | 0 <= j < n && !(skipped <= at + [d.entries[j].name])
      ensures Arrived(present', blocked, d.entries[j], at + [d.entries[j].name], skipped)
    {
      assert Arrived(present, blocked, d.entries[j], at + [d.entries[j].name], skipped);
    }
  }

  lemma AllArrived(present: set<Path>, blocked: set<Path>, d: Entry, at: Path, skipped: Path)
    requires d.Directory? && SomeArrived(present, blocked, d, |d.entries|, at, skipped) && at !in blocked
    ensures Arrived(present, blocked, d, at, skipped)
  {
    forall r, f | HasEntry(d, r, f) && !(skipped <= at + r)
      ensures !Stops(blocked, at + r, f) && (f.File? ==> at + r in present)
    {
      if r == [] {
        assert f == d && at + r == at;
      } else {
        var i :| 0 <= i < |d.entries| && d.entries[i].name == r[0] && HasEntry(d.entries[i], r[1..], f);
        var p := at + [d.entries[i].name];
        assert p + r[1..] == at + r;
        assert Arrived(present, blocked, d.entries[i], p, skipped);
      }
    }
  }

  /** A path below one that is not skipped is skipped only itself. */
  lemma SkippedAlone(at: Path, name: string, skipped: Path)
    requires !(skipped <= at)
    ensures skipped <= at + [name] <==> skipped == at + [name]
  {
    if |skipped| <= |at| {
      assert (at + [name])[..|skipped|] == at[..|skipped|];
    }
  }

  datatype Outcome = Done | Failed(rollbackIncomplete: bool)

  /** The destination's file system. It is `calm` if every operation that can work does;
      otherwise any of them may fail. */
  class Destination {
    const calm: bool
    var files: map<Path, string>
    var dirs: set<Path>
    var createdFiles: seq<Path>
    /** The destination before the migration, and where its configuration goes. */
    ghost var files0: map<Path, string>
    ghost var dirs0: set<Path>
    ghost var config: Path

    constructor (calm: bool, files: map<Path, string>, dirs: set<Path>)
      ensures this.calm == calm && this.files == files && this.dirs == dirs
    {
      this.calm, this.files, this.dirs := calm, files, dirs;
      createdFiles, files0, dirs0, config := [], files, dirs, [];
    }

    predicate Exists(p: Path)
      reads this
    {
      p in files || p in dirs
    }

    /** Whether an operation works. */
    method Works() returns (ok: bool)
      ensures calm ==> ok
    {
      ok := *;
      ok := ok || calm;
    }

    /** Nothing that was there is changed or gone; what is new is in the journal, and what
        is in the journal took a free place. */
    ghost predicate Journaled()
      reads this
    {
      && (forall p :: p in files0 ==> p in files && files[p] == files0[p])
      && (forall p :: p in files && p !in files0 ==> p in createdFiles)
      && (forall p :: p in createdFiles ==> p !in files0 && p !in dirs0)
      && dirs0 <= dirs
    }

    /** The files of the destination that a directory may run into. */
    ghost function Blocked(): set<Path>
      reads this
    {
      files0.Keys + {config}
    }

    /** The new directories are directories of the source, and the journal holds files of
        the source and the configuration. */
    ghost predicate PathsOK(t: Entry)
      reads this
    {
      && (forall p :: p in dirs && p !in dirs0 ==> IsDirectory(t, p))
      && (forall p :: p in createdFiles && p != config ==> IsFile(t, p))
      && config in files
    }

    /** The new files, except for the configuration, are files of the source, complete. */
    ghost predicate FilesOK(t: Entry)
      reads this
    {
      forall p :: p in files && p !in files0 && p != config ==> HasFile(t, p, files[p])
    }

    static ghost predicate HasFile(t: Entry, p: Path, data: string) {
      exists e :: HasEntry(t, p, e) && e.File? && e.data == data
    }

    method MakeDirectory(p: Path) returns (ok: bool)
      modifies this`dirs
      ensures !ok ==> !calm || p in files
      ensures dirs == old(dirs) || dirs == old(dirs) + {p}
      ensures ok ==> p in dirs && p !in files
    {
      ok := Works();
      ok := ok && p !in files;
      if ok {
        dirs := dirs + {p};
      }
    }

    /** A copy that fails may leave any part of the file, or none. */
    method CopyFile(p: Path, data: string) returns (ok: bool)
      modifies this`files
      ensures calm ==> ok
      ensures ok ==> files == old(files)[p := data]
      ensures old(files).Keys <= files.Keys <= old(files).Keys + {p}
      ensures forall q :: q in old(files) && q != p ==> files[q] == old(files)[q]
    {
      ok := Works();
      var written: bool, partial: string := *, *;
      if ok {
        files := files[p := data];
      } else if written {
        files := files[p := partial];
      }
    }

    /** One source file: skipped if something is in its place, otherwise journaled and
        then copied. */
    method CopyOne(e: Entry, p: Path, ghost t: Entry) returns (ok: bool)
      requires Journaled() && PathsOK(t) && e.File? && HasEntry(t, p, e)
      modifies this`files, this`createdFiles
      ensures calm ==> ok
      ensures Journaled() && PathsOK(t)
      ensures forall q :: q in old(files) ==> q in files && files[q] == old(files)[q]
      ensures ok && old(FilesOK(t)) ==> FilesOK(t)
      ensures ok ==> Exists(p)
    {
      if Exists(p) {
        return true;
      }
      assert IsFile(t, p);
      createdFiles := createdFiles + [p];
      ok := CopyFile(p, e.data);
    }

    ghost function Present(): set<Path>
      reads this
    {
      files.Keys + dirs
    }

    /** A directory that runs into a file ran into one that was there or into the
        configuration: the copy does not obstruct itself. */
    lemma RanInto(t: Entry, p: Path, d: Entry)
      requires WellFormed(t) && Journaled() && PathsOK(t) && HasEntry(t, p, d) && d.Directory? && p in files
      ensures p in Blocked()
    {
      if p !in files0 && p != config {
        assert IsFile(t, p);
        var e :| HasEntry(t, p, e) && e.File?;
        EntryIsUnique(t, p, e, d);
      }
    }

    /** One listed entry of a source directory; a symbolic link is refused. */
    method CopyEntry(e: Entry, p: Path, skipped: Path, ghost t: Entry) returns (ok: bool)
      requires Journaled() && PathsOK(t) && WellFormed(t) && HasEntry(t, p, e)
      requires skipped <= p ==> skipped == p
      modifies this`files, this`dirs, this`createdFiles
      ensures !ok ==> !calm || Obstructed(Blocked(), e, p, skipped)
      ensures Journaled() && PathsOK(t) && old(Present()) <= Present()
      ensures forall p :: p in old(files) ==> p in files && files[p] == old(files)[p]
      ensures ok && old(FilesOK(t)) ==> FilesOK(t)
      ensures ok && !(skipped <= p) ==> Arrived(Present(), Blocked(), e, p, skipped)
      decreases e, 2
    {
      if p == skipped {
        return true;
      }
      match e
      case Directory(_, _) => ok := CopyDirectory(e, p, skipped, t);
      case File(_, _) =>
        ok := CopyOne(e, p, t);
        if ok {
          ArrivedAlone(Present(), Blocked(), e, p, skipped);
        }
      case Link(_) =>
        ok := false;
        ObstructedHere(Blocked(), e, p, skipped);
      case Other(_) =>
        ok := true;
        ArrivedAlone(Present(), Blocked(), e, p, skipped);
    }

    /** The next entry of a listing. */
    method CopyNext(d: Entry, i: nat, at: Path, skipped: Path, ghost t: Entry) returns (ok: bool)
      requires Journaled() && PathsOK(t) && WellFormed(t) && d.Directory? && HasEntry(t, at, d) && !(skipped <= at)
      requires i < |d.entries| && SomeArrived(Present(), Blocked(), d, i, at, skipped)
      modifies this`files, this`dirs, this`createdFiles
      ensures !ok ==> !calm || Obstructed(Blocked(), d, at, skipped)
      ensures Journaled() && PathsOK(t) && old(Present()) <= Present()
      ensures forall p :: p in old(files) ==> p in files && files[p] == old(files)[p]
      ensures ok && old(FilesOK(t)) ==> FilesOK(t)
      ensures ok ==> SomeArrived(Present(), Blocked(), d, i + 1, at, skipped)
      decreases d, 0
    {
      ok := Works();
      if !ok {
        return;
      }
      ghost var before := Present();
      ChildEntry(t, at, d, i);
      SkippedAlone(at, d.entries[i].name, skipped);
      ok := CopyEntry(d.entries[i], at + [d.entries[i].name], skipped, t);
      if ok {
        NextArrived(before, Present(), Blocked(), d, i, at, skipped);
      } else if calm {
        ObstructedBelow(Blocked(), d, i, at, skipped);
      }
    }

    /** Makes the directory's place and opens its listing. */
    method EnterDirectory(d: Entry, at: Path, skipped: Path, ghost t: Entry) returns (ok: bool)
      requires Journaled() && PathsOK(t) && WellFormed(t) && d.Directory? && HasEntry(t, at, d) && !(skipped <= at)
      modifies this`dirs
      ensures !ok ==> !calm || Obstructed(Blocked(), d, at, skipped)
      ensures Journaled() && PathsOK(t) && old(dirs) <= dirs
      ensures ok ==> at !in files
    {
      assert IsDirectory(t, at);
      ok := MakeDirectory(at);
      if ok {
        ok := Works();
      } else if calm {
        RanInto(t, at, d);
        ObstructedHere(Blocked(), d, at, skipped);
      }
    }

    /** The recursive copy: on success, everything below `d` that is not the skipped
        configuration has arrived. In a calm file system it fails only where a link or a
        file is in its way. */
    method CopyDirectory(d: Entry, at: Path, skipped: Path, ghost t: Entry) returns (ok: bool)
      requires Journaled() && PathsOK(t) && WellFormed(t) && d.Directory? && HasEntry(t, at, d) && !(skipped <= at)
      modifies this`files, this`dirs, this`createdFiles
      ensures !ok ==> !calm || Obstructed(Blocked(), d, at, skipped)
      ensures Journaled() && PathsOK(t) && old(Present()) <= Present()
      ensures forall p :: p in old(files) ==> p in files && files[p] == old(files)[p]
      ensures ok && old(FilesOK(t)) ==> FilesOK(t)
      ensures ok ==> Arrived(Present(), Blocked(), d, at, skipped)
      decreases d, 1
    {
      ok := EnterDirectory(d, at, skipped, t);
      if !ok {
        return;
      }
      for i := 0 to |d.entries|
        invariant ok && Journaled() && PathsOK(t) && old(Present()) <= Present()
        invariant forall p :: p in old(files) ==> p in files && files[p] == old(files)[p]
        invariant old(FilesOK(t)) ==> FilesOK(t)
        invariant SomeArrived(Present(), Blocked(), d, i, at, skipped)
      {
        ok := CopyNext(d, i, at, skipped, t);
        if !ok {
          return;
        }
      }
      AllArrived(Present(), Blocked(), d, at, skipped);
    }

    /** Removes what was created, newest first; reports whether something could not be
        removed. */
    method RollbackCreatedFiles() returns (incomplete: bool)
      requires Journaled()
      modifies this`files
      ensures calm ==> !incomplete
      ensures forall p :: p in files0 ==> p in files && files[p] == files0[p]
      ensures !incomplete ==> files == files0
    {
      incomplete := false;
      var i := |createdFiles|;
      while i > 0
        invariant 0 <= i <= |createdFiles| && Journaled() && (calm ==> !incomplete)
        invariant !incomplete ==> forall p :: p in files && p !in files0 ==> p in createdFiles[..i]
      {
        i := i - 1;
        var p := createdFiles[i];
        assert createdFiles[..i + 1] == createdFiles[..i] + [p];
        if p in files {
          var removed := Works();
          if removed {
            files := files - {p};
          } else {
            incomplete := true;
          }
        }
      }
    }

    /** `install_file` without replacing: the contents appear at once or not at all. */
    method InstallFile(p: Path, data: string) returns (ok: bool, created: bool)
      requires Journaled() && p !in dirs0
      modifies this`files, this`dirs, this`createdFiles
      ensures !ok ==> !calm || [] in files
      ensures ok ==> [] !in old(files)
      ensures Journaled() && old(dirs) <= dirs <= old(dirs) + {[]}
      ensures ok && created ==>
        p !in old(files) && files == old(files)[p := data] && createdFiles == old(createdFiles) + [p]
      ensures !(ok && created) ==> files == old(files) && createdFiles == old(createdFiles)
      ensures ok ==> (created <==> !old(Exists(p)) && p != [])
    {
      created := false;
      ok := MakeDirectory([]);
      if !ok || Exists(p) {
        return;
      }
      ok := Works();
      if ok {
        files, createdFiles, created := files[p := data], createdFiles + [p], true;
      }
    }

    /** A source file that arrived is a file and complete, unless something was in its
        place before; where that was a directory, the file stays away. */
    lemma Settled(t: Entry, skipped: Path)
      requires WellFormed(t) && Journaled() && PathsOK(t) && FilesOK(t) && Arrived(Present(), Blocked(), t, [], skipped)
      ensures !Obstructed(Blocked(), t, [], skipped)
      ensures forall p, f :: HasEntry(t, p, f) && f.File? && !(skipped <= p) ==>
                (p in files <==> p in files0 || p !in dirs0)
      ensures forall p, f :: HasEntry(t, p, f) && f.File? && !(skipped <= p) ==>
                (p !in files0 && p !in dirs0 && p != config ==> files[p] == f.data)
    {
      forall p, f | HasEntry(t, p, f) && f.File? && !(skipped <= p)
        ensures p in files <==> p in files0 || p !in dirs0
        ensures p !in files0 && p !in dirs0 && p != config ==> p in files && files[p] == f.data
      {
        assert [] + p == p;
        assert p in Present();
        if p in dirs && p !in dirs0 {
          assert IsDirectory(t, p);
          var e :| HasEntry(t, p, e) && e.Directory?;
          EntryIsUnique(t, p, e, f);
        }
        if p in files && p !in files0 && p != config {
          var e :| HasEntry(t, p, e) && e.File? && e.data == files[p];
          EntryIsUnique(t, p, e, f);
        }
      }
    }

    /** The migration. An existing configuration is left alone with everything beside
        it. Otherwise:
        - if it fails, the files are as before unless it reports that it could not undo
          what it did; the files that were there always are;
        - it succeeds only if no link and no file is in its way, and in a calm file
          system always then;
        - if it succeeds, a source file is a file of the destination if and only if it
          was one already or no directory was in its place; what arrived is complete,
          and nothing else was added but the configuration. */
    method MigrateSalmonConfig(t: Entry, skipped: Path, target: Path, migrated: string) returns (r: Outcome)
      requires WellFormed(t) && t.Directory? && skipped != [] && target != []
      modifies this
      ensures old(Exists(target)) ==> r.Done? && files == old(files)
      ensures r.Failed? && !r.rollbackIncomplete ==> files == old(files)
      ensures calm && r.Failed? ==> !r.rollbackIncomplete
      ensures forall p :: p in old(files) ==> p in files && files[p] == old(files)[p]
      ensures !old(Exists(target)) && Obstructed(old(files).Keys + {target}, t, [], skipped) ==> r.Failed?
      ensures calm && !Obstructed(old(files).Keys + {target}, t, [], skipped) ==> r.Done?
      ensures r.Done? && !old(Exists(target)) ==>
        && target in files && files[target] == migrated
        && (forall p, f :: HasEntry(t, p, f) && f.File? && !(skipped <= p) ==>
              (p in files <==> p in old(files) || p !in old(dirs)))
        && (forall p, f :: HasEntry(t, p, f) && f.File? && !(skipped <= p) && !old(Exists(p)) && p != target ==>
              files[p] == f.data)
        && (forall p :: p in files && p !in old(files) && p != target ==> HasFile(t, p, files[p]))
    {
      if Exists(target) {
        return Done;
      }
      var readable := Works();
      if !readable {
        return Failed(false);
      }
      createdFiles := [];
      files0, dirs0, config := files, dirs, target;
      var ok, created := InstallFile(target, migrated);
      if !ok {
        if calm {
          ObstructedHere(Blocked(), t, [], skipped);
        }
        return Failed(false);
      }
      ok := CopyDirectory(t, [], skipped, t);
      if !ok {
        var incomplete := RollbackCreatedFiles();
        return Failed(incomplete);
      }
      Settled(t, skipped);
      r := Done;
    }
  }

  /** A success without one of the source's files: a directory is in its place. */
  method FileMayStayAway() returns (source: Entry, destination: Destination, r: Outcome)
    ensures r.Done? && HasEntry(source, ["a"], File("a", "data")) && ["a"] !in destination.files
  {
    source := Directory("", [File("a", "data"), File("config", "text")]);
    destination := new Destination(true, map[], {[], ["a"]});
    var skipped, target := ["config"], ["new"];
    assert source.entries[0] == File("a", "data") && ["a"][1..] == [];
    assert HasEntry(source.entries[0], ["a"][1..], File("a", "data"));
    FlatIsClear(source, {target}, skipped);
    r := destination.MigrateSalmonConfig(source, skipped, target, "text");
    assert |skipped[0]| != |["a"][0]|;
  }

  /** A directory of files obstructs nothing but its own place. */
  lemma FlatIsClear(d: Entry, blocked: set<Path>, skipped: Path)
    requires d.Directory? && [] !in blocked && forall i :: 0 <= i < |d.entries| ==> d.entries[i].File?
    ensures !Obstructed(blocked, d, [], skipped)
  {
    forall r, f | HasEntry(d, r, f) && !(skipped <= [] + r)
      ensures !Stops(blocked, [] + r, f)
    {
      assert [] + r == r;
      if r == [] {
        assert f == d;
      } else {
        var i :| 0 <= i < |d.entries| && d.entries[i].name == r[0] && HasEntry(d.entries[i], r[1..], f);
        assert d.entries[i].File?;
      }
    }
  }
}
