/**
 * The component installer: payload files, the install marker, the shortcut and the registry values change step by
 * step, and whatever step fails, two nested compensations put everything back.
 */
module Installer {
  import opened Values

  /** Equal bytes stand for an equal size and digest. */
  datatype Content = Bytes(data: string) | Marked(record: Record)

  datatype Fact = Fact(path: string, bytes: string)

  datatype Record = Record(files: seq<Fact>, retained: bool)

  type Disk = map<string, Content>
  type Keys = Option<map<string, string>> // the registry key, if it exists

  const MARKER: string := ".component-install.json"
  const UNINSTALLER: string := "Uninstall.exe"

  /** What one step does: it works, or it raises and leaves its own target in some state. */
  datatype Fault = Works | Raises(file: Option<Content>, link: Option<string>, keys: Keys)

  datatype Outcome =
    | Done
    | Refused                                                  // before anything was changed
    | Failed(payloadRestored: bool, integrationRestored: bool)

  predicate Matches(disk: Disk, row: Fact) {
    row.path in disk && disk[row.path] == Bytes(row.bytes)
  }

  predicate Names(rows: seq<Fact>, path: string) {
    exists row | row in rows :: row.path == path
  }

  predicate DistinctPaths(rows: seq<Fact>) {
    forall i, j | 0 <= i < j < |rows| :: rows[i].path != rows[j].path
  }

  predicate Owned(disk: Disk, owned: seq<Fact>, path: string) {
    exists row | row in owned :: row.path == path && Matches(disk, row)
  }

  /** Old files that the new payload drops and nobody modified. */
  predicate Obsolete(disk: Disk, owned: seq<Fact>, rows: seq<Fact>, path: string) {
    Owned(disk, owned, path) && !Names(rows, path)
  }

  /** Payload files may only replace what the installer itself put there. */
  predicate Overwrites(disk: Disk, owned: seq<Fact>, rows: seq<Fact>) {
    exists row | row in rows :: row.path in disk && !Owned(disk, owned, row.path)
  }

  /** A file that is unknown, or that somebody modified after the installer put it there. */
  predicate Foreign(disk: Disk, files: seq<Fact>, path: string) {
    path in disk && forall row | row in files && row.path == path :: disk[path] != Bytes(row.bytes)
  }

  lemma ForeignMeans(disk: Disk, files: seq<Fact>)
    ensures forall p {:trigger Owned(disk, files, p)} {:trigger Foreign(disk, files, p)} ::
      Foreign(disk, files, p) <==> p in disk && !Owned(disk, files, p)
  {
  }

  ghost predicate SameBut(a: Disk, b: Disk, paths: set<string>) {
    forall p | p !in paths :: (p in a <==> p in b) && (p in a ==> a[p] == b[p])
  }

  ghost predicate Outside(a: Disk, b: Disk, paths: seq<string>) {
    forall p | p !in paths :: (p in a <==> p in b) && (p in a ==> a[p] == b[p])
  }

  /** Copies exist of all that may change and was there. */
  ghost predicate BackedUp(disk: Disk, backups: Disk, paths: set<string>) {
    && (forall p | p in paths && p in disk :: p in backups)
    && forall p | p in backups :: p in disk && backups[p] == disk[p]
  }

  function PathsOf(rows: seq<Fact>): (paths: seq<string>)
    ensures forall p :: p in paths <==> Names(rows, p)
  {
    if rows == [] then [] else [rows[0].path] + PathsOf(rows[1..])
  }

  function Matching(disk: Disk, rows: seq<Fact>): (r: seq<Fact>)
    ensures forall row :: row in r <==> row in rows && Matches(disk, row)
  {
    if rows == [] then [] else (if Matches(disk, rows[0]) then [rows[0]] else []) + Matching(disk, rows[1..])
  }

  function Without(rows: seq<Fact>, other: seq<Fact>): (r: seq<Fact>)
    ensures forall row :: row in r <==> row in rows && !Names(other, row.path)
  {
    if rows == [] then [] else (if Names(other, rows[0].path) then [] else [rows[0]]) + Without(rows[1..], other)
  }

  /** Everything an installation may write: the payload, the obsolete files, the marker. */
  function ChangedPaths(disk: Disk, owned: seq<Fact>, rows: seq<Fact>): (paths: seq<string>)
    ensures forall p :: p in paths <==> Names(rows, p) || Obsolete(disk, owned, rows, p) || p == MARKER
  {
    PathsOf(rows) + PathsOf(Matching(disk, Without(owned, rows))) + [MARKER]
  }

  /** The root holds something that the uninstaller leaves alone. */
  predicate KeepsContent(disk: Disk, record: Record) {
    exists p | p in disk :: p != MARKER && p != UNINSTALLER && !Owned(disk, record.files, p)
  }

  /** The recorded, unmodified files, without the uninstaller while content remains. */
  function Removable(disk: Disk, files: seq<Fact>, retained: bool): (r: seq<Fact>)
    ensures forall row :: row in r <==> row in files && Matches(disk, row) && !(retained && row.path == UNINSTALLER)
  {
    if files == [] then []
    else (if Matches(disk, files[0]) && !(retained && files[0].path == UNINSTALLER) then [files[0]] else [])
         + Removable(disk, files[1..], retained)
  }

  /** The payload is there under its marker, unmodified obsolete files are gone, and nothing else changed. */
  ghost predicate Installed(a: Disk, b: Disk, owned: seq<Fact>, rows: seq<Fact>) {
    && (forall row | row in rows :: row.path in b && b[row.path] == Bytes(row.bytes))
    && MARKER in b && b[MARKER] == Marked(Record(rows, false))
    && forall p | p != MARKER && !Names(rows, p) :: (p in b <==> Foreign(a, owned, p)) && (p in b ==> b[p] == a[p])
  }

  /** Recorded unmodified files are gone, all else is as before; the marker stays while content remains. */
  ghost predicate Uninstalled(a: Disk, b: Disk, record: Record) {
    var retained := exists p :: p != MARKER && p != UNINSTALLER && Foreign(a, record.files, p);
    && (forall p | p != MARKER ::
      && (p in b <==> Foreign(a, record.files, p) || (retained && p == UNINSTALLER && p in a))
      && (p in b ==> b[p] == a[p]))
    && if retained then MARKER in b && b[MARKER] == Marked(Record(record.files, true)) else MARKER !in b
  }

  lemma SameButItself(a: Disk, paths: set<string>)
    ensures SameBut(a, a, paths)
  {
  }

  lemma BackupsAreThere(was: Disk, backups: Disk, paths: seq<string>)
    requires exists s :: BackedUp(was, backups, s)
    ensures forall p | p in backups :: p in was && backups[p] == was[p]
  {
  }

  lemma RemovedIsBackedUp(was: Disk, now: Disk, removable: seq<Fact>, paths: seq<string>, backups: Disk)
    requires SameBut(was, now, (set row | row in removable :: row.path) + {MARKER})
    requires paths == PathsOf(removable) + [MARKER] && BackedUp(was, backups, set p | p in paths) && MARKER in was
    requires forall row | row in removable :: Matches(was, row)
    ensures SameBut(was, now, set p | p in paths && p in backups)
  {
    hide SameBut;
    forall row | row in removable ensures row.path in paths && row.path in backups {
      assert Names(removable, row.path);
      assert Matches(was, row);
    }
    SameButWider(was, now, (set row | row in removable :: row.path) + {MARKER}, set p | p in paths && p in backups);
  }

  lemma SameButWider(a: Disk, b: Disk, paths: set<string>, wider: set<string>)
    requires SameBut(a, b, paths) && paths <= wider
    ensures SameBut(a, b, wider)
  {
  }

  /** Unknown and user-modified files are as before. */
  ghost predicate UnownedKept(was: Disk, now: Disk, files: seq<Fact>) {
    forall p | p != MARKER && Foreign(was, files, p) :: p in now && now[p] == was[p]
  }

  lemma RemovableIsOwned(was: Disk, now: Disk, files: seq<Fact>, removable: seq<Fact>, retained: bool)
    requires removable == Removable(was, files, retained)
    requires SameBut(was, now, (set row | row in removable :: row.path) + {MARKER})
    ensures UnownedKept(was, now, files)
  {
    ForeignMeans(was, files);
    hide Foreign;
  }

  lemma CopiesAreOwned(was: Disk, now: Disk, files: seq<Fact>, removable: seq<Fact>, retained: bool,
                       paths: seq<string>, backups: Disk)
    requires removable == Removable(was, files, retained) && paths == PathsOf(removable) + [MARKER]
    requires SameBut(was, now, set p | p in paths && p in backups)
    ensures UnownedKept(was, now, files)
  {
    ForeignMeans(was, files);
    hide Foreign;
    forall p | p in paths && p != MARKER ensures Owned(was, files, p) {
      assert Names(removable, p);
    }
  }

  lemma KeepsMeans(disk: Disk, record: Record)
    ensures KeepsContent(disk, record) <==>
      exists p :: p != MARKER && p != UNINSTALLER && Foreign(disk, record.files, p)
  {
    ForeignMeans(disk, record.files);
    hide Owned, Foreign;
  }

  lemma RemovedIsUninstalled(was: Disk, now: Disk, record: Record, removable: seq<Fact>)
    requires SameBut(was, now, (set row | row in removable :: row.path) + {MARKER})
    requires removable == Removable(was, record.files, KeepsContent(was, record)) && !Names(record.files, MARKER)
    requires forall row | row in removable :: row.path !in now
    requires if KeepsContent(was, record)
      then MARKER in now && now[MARKER] == Marked(Record(record.files, true)) else MARKER !in now
    ensures Uninstalled(was, now, record)
  {
    ForeignMeans(was, record.files);
    KeepsMeans(was, record);
    hide KeepsContent, Foreign, Matches;
  }

  /** At most the last step of the script raises. */
  ghost predicate AtMostLast(script: seq<Fault>) {
    forall i | 0 <= i < |script| - 1 :: script[i].Works?
  }

  /** Without faults left a step works; and the one step that raises uses up a script with a single fault. */
  ghost predicate Settles(before: seq<Fault>, ok: bool, after: seq<Fault>) {
    && (before == [] ==> ok && after == [])
    && (AtMostLast(before) ==> AtMostLast(after) && (ok || after == []))
  }

  lemma SettlesAtFirst(script: seq<Fault>)
    ensures Settles(script, true, script)
  {
  }

  lemma SettlesOn(start: seq<Fault>, before: seq<Fault>, ok: bool, after: seq<Fault>)
    requires Settles(start, true, before) && Settles(before, ok, after)
    ensures Settles(start, ok, after)
  {
  }

  lemma OutsideItself(a: Disk)
    ensures Outside(a, a, [])
  {
  }

  /** Writing one more row leaves the rows before it alone. */
  lemma RowWritten(was: Disk, a: Disk, b: Disk, rows: seq<Fact>, i: nat, written: seq<string>)
    requires DistinctPaths(rows) && i < |rows| && Outside(was, a, written) && SameBut(a, b, {rows[i].path})
    ensures Outside(was, b, written + [rows[i].path])
    ensures forall k | 0 <= k < i :: Matches(a, rows[k]) <==> Matches(b, rows[k])
  {
  }

  class ComponentInstaller {
    var disk: Disk
    var shortcut: Option<string>
    var registry: Keys
    var faults: seq<Fault>

    constructor (disk: Disk, shortcut: Option<string>, registry: Keys, faults: seq<Fault>)
      ensures this.disk == disk && this.shortcut == shortcut && this.registry == registry && this.faults == faults
    {
      this.disk, this.shortcut, this.registry, this.faults := disk, shortcut, registry, faults;
    }

    method NextFault() returns (fault: Fault)
      modifies `faults
      ensures Settles(old(faults), fault.Works?, faults)
    {
      if faults == [] {
        return Works;
      }
      fault, faults := faults[0], faults[1..];
    }

    // ---------------------------------------------------------------- single steps

    method Copy(path: string, content: Content) returns (ok: bool)
      modifies `disk, `faults
      ensures ok ==> disk == old(disk)[path := content]
      ensures SameBut(old(disk), disk, {path})
      ensures Settles(old(faults), ok, faults)
    {
      var fault := NextFault();
      ok := fault.Works?;
      if ok {
        disk := disk[path := content];
      } else if fault.file.Some? {
        disk := disk[path := fault.file.value];
      }
    }

    method Delete(path: string) returns (ok: bool)
      modifies `disk, `faults
      ensures disk == if ok then old(disk) - {path} else old(disk)
      ensures Settles(old(faults), ok, faults)
    {
      var fault := NextFault();
      ok := fault.Works?;
      if ok {
        disk := disk - {path};
      }
    }

    method ChangeShortcut(link: Option<string>) returns (ok: bool)
      modifies `shortcut, `faults
      ensures ok ==> shortcut == link
      ensures Settles(old(faults), ok, faults)
    {
      var fault := NextFault();
      ok := fault.Works?;
      shortcut := if ok then link else fault.link;
    }

    method ChangeRegistry(keys: Keys) returns (ok: bool)
      modifies `registry, `faults
      ensures ok ==> registry == keys
      ensures Settles(old(faults), ok, faults)
    {
      var fault := NextFault();
      ok := fault.Works?;
      registry := if ok then keys else fault.keys;
    }

    // ---------------------------------------------------------------- `Integration`

    /** `RestoreRegistry`: drop the values that were not there, then set the captured ones again. */
    method RestoreRegistry(snapshot: Keys) returns (ok: bool)
      modifies `registry, `faults
      ensures ok ==> registry == snapshot
      ensures Settles(old(faults), ok, faults)
    {
      if snapshot == None {
        ok := ChangeRegistry(None);
        return;
      }
      if registry == None {
        registry := Some(map[]);
      }
      ok := DropValues(snapshot.value.Keys);
      if ok {
        ok := SetValues(snapshot.value);
      }
    }

    method DropValues(kept: set<string>) returns (ok: bool)
      requires registry.Some?
      modifies `registry, `faults
      ensures registry.Some? && (ok ==> registry.value.Keys <= kept)
      ensures Settles(old(faults), ok, faults)
    {
      var extra := registry.value.Keys - kept;
      ok := true;
      while extra != {}
        invariant registry.Some? && registry.value.Keys <= kept + extra
        invariant Settles(old(faults), true, faults)
        decreases |extra|
      {
        var name :| name in extra;
        var fault := NextFault();
        if fault.Raises? {
          return false;
        }
        registry, extra := Some(registry.value - {name}), extra - {name};
      }
    }

    method SetValues(values: map<string, string>) returns (ok: bool)
      requires registry.Some? && registry.value.Keys <= values.Keys
      modifies `registry, `faults
      ensures ok ==> registry == Some(values)
      ensures Settles(old(faults), ok, faults)
    {
      var rest := values.Keys;
      ok := true;
      while rest != {}
        invariant rest <= values.Keys
        invariant registry.Some? && registry.value.Keys <= values.Keys
        invariant forall n | n in values && n !in rest :: n in registry.value && registry.value[n] == values[n]
        invariant Settles(old(faults), true, faults)
        decreases |rest|
      {
        var name :| name in rest;
        var fault := NextFault();
        if fault.Raises? {
          return false;
        }
        registry, rest := Some(registry.value[name := values[name]]), rest - {name};
      }
      assert registry.value == values;
    }

    /** Shortcut and registry change together, or are put back; each restore is tried whatever the other did. */
    method Integration(link: Option<string>, keys: Keys) returns (done: bool, restored: bool)
      modifies `shortcut, `registry, `faults
      ensures done ==> shortcut == link && registry == keys
      ensures !done && restored ==> shortcut == old(shortcut) && registry == old(registry)
      ensures Settles(old(faults), done, faults)
      ensures AtMostLast(old(faults)) ==> restored
    {
      var linkBefore, keysBefore := shortcut, registry;
      done := ChangeShortcut(link);
      if done {
        done := ChangeRegistry(keys);
      }
      restored := true;
      if !done {
        var linkRestored := ChangeShortcut(linkBefore);
        var keysRestored := RestoreRegistry(keysBefore);
        restored := linkRestored && keysRestored;
      }
    }

    // ---------------------------------------------------------------- payload compensation

    /** Copies of what is there; the disk is only read. */
    method BackUp(paths: seq<string>) returns (ok: bool, backups: Disk)
      modifies `faults
      ensures BackedUp(disk, backups, if ok then set p | p in paths else {})
      ensures Settles(old(faults), ok, faults)
    {
      backups, ok := map[], true;
      for i := 0 to |paths|
        invariant BackedUp(disk, backups, set p | p in paths[..i])
        invariant Settles(old(faults), true, faults)
      {
        if paths[i] in disk {
          var fault := NextFault();
          if fault.Raises? {
            return false, backups;
          }
          backups := backups[paths[i] := disk[paths[i]]];
        }
        assert paths[..i + 1] == paths[..i] + [paths[i]];
      }
      assert paths[..|paths|] == paths;
    }

    /** Every written target gets its copy back, or is removed; a failed restore does not stop the others. */
    method RestoreWritten(written: seq<string>, backups: Disk, ghost was: Disk) returns (ok: bool)
      requires Outside(was, disk, written)
      requires forall p | p in written :: (p in backups <==> p in was) && (p in backups ==> backups[p] == was[p])
      modifies `disk, `faults
      ensures ok ==> disk == was
      ensures Outside(was, disk, written)
      ensures old(faults) == [] ==> ok
    {
      ok := true;
      var i := |written|;
      while i > 0
        invariant 0 <= i <= |written|
        invariant Outside(was, disk, written)
        invariant ok ==> Outside(was, disk, written[..i])
        invariant old(faults) == [] ==> ok && faults == []
      {
        i := i - 1;
        var path := written[i];
        assert written[..i + 1] == written[..i] + [path];
        if path in backups {
          var copied := Copy(path, backups[path]);
          ok := ok && copied;
        } else if path in disk {
          var deleted := Delete(path);
          ok := ok && deleted;
        }
      }
      if ok {
        assert disk == was;
      }
    }

    // ---------------------------------------------------------------- install

    method WriteRows(rows: seq<Fact>, ghost was: Disk) returns (ok: bool, written: seq<string>)
      requires disk == was && DistinctPaths(rows)
      modifies `disk, `faults
      ensures Outside(was, disk, written) && (forall p | p in written :: Names(rows, p))
      ensures ok ==> (forall row | row in rows :: Matches(disk, row)) && forall p | Names(rows, p) :: p in written
      ensures Settles(old(faults), ok, faults)
    {
      hide Outside, SameBut, Settles, DistinctPaths;
      OutsideItself(was);
      SettlesAtFirst(faults);
      written, ok := [], true;
      for i := 0 to |rows|
        invariant Outside(was, disk, written)
        invariant forall p | p in written :: Names(rows[..i], p)
        invariant forall k | 0 <= k < i :: Matches(disk, rows[k]) && rows[k].path in written
        invariant Settles(old(faults), true, faults)
      {
        ghost var before, script, noted := disk, faults, written;
        written := written + [rows[i].path];
        assert Names(rows[..i + 1], rows[i].path) by { assert rows[..i + 1][i] == rows[i]; }
        var copied := Copy(rows[i].path, Bytes(rows[i].bytes));
        RowWritten(was, before, disk, rows, i, noted);
        SettlesOn(old(faults), script, copied, faults);
        if !copied {
          return false, written;
        }
      }
    }

    /** Obsolete files go; a file is noted only after it is gone. */
    method DropObsolete(owned: seq<Fact>, rows: seq<Fact>, before: seq<string>, ghost was: Disk)
      returns (ok: bool, written: seq<string>)
      requires Outside(was, disk, before) && forall p | p in before :: Names(rows, p)
      modifies `disk, `faults
      ensures before <= written && Outside(was, disk, written)
      ensures forall p | p in written :: Names(rows, p) || Obsolete(was, owned, rows, p)
      ensures forall p | Names(rows, p) :: (p in disk <==> p in old(disk)) && (p in disk ==> disk[p] == old(disk)[p])
      ensures ok ==> forall p | Obsolete(was, owned, rows, p) :: p in written && p !in disk
      ensures Settles(old(faults), ok, faults)
    {
      written, ok := before, true;
      for i := 0 to |owned|
        invariant before <= written && Outside(was, disk, written)
        invariant forall p | p in written :: Names(rows, p) || (Obsolete(was, owned, rows, p) && p !in disk)
        invariant forall p | Names(rows, p) ::
          (p in disk <==> p in old(disk)) && (p in disk ==> disk[p] == old(disk)[p])
        invariant forall k | 0 <= k < i ::
          Matches(was, owned[k]) && !Names(rows, owned[k].path) ==> owned[k].path in written
        invariant Settles(old(faults), true, faults)
      {
        var row := owned[i];
        if !Names(rows, row.path) && Matches(disk, row) {
          var deleted := Delete(row.path);
          if !deleted {
            return false, written;
          }
          written := written + [row.path];
          assert row in owned;
        }
      }
    }

    /**
     * `InstallUnlocked`, without its checks of paths and processes: it is done, and then nothing but the payload,
     * obsolete unmodified files and the marker changed; or it failed, and whatever could be restored is as before.
     */
    method Install(owned: seq<Fact>, rows: seq<Fact>, link: Option<string>, keys: Keys) returns (outcome: Outcome)
      requires DistinctPaths(rows) && !Names(rows, MARKER) && !Names(owned, MARKER)
      modifies this
      ensures outcome.Refused? <==> exists row :: row in rows && Foreign(old(disk), owned, row.path)
      ensures outcome.Refused? || (outcome.Failed? && outcome.payloadRestored) ==> disk == old(disk)
      ensures outcome.Refused? || (outcome.Failed? && outcome.integrationRestored) ==>
        shortcut == old(shortcut) && registry == old(registry)
      ensures outcome.Done? ==> Installed(old(disk), disk, owned, rows) && shortcut == link && registry == keys
      ensures UnownedKept(old(disk), disk, owned)
      ensures old(faults) == [] ==> outcome in {Done, Refused}
      ensures AtMostLast(old(faults)) ==> outcome in {Done, Refused, Failed(true, true)}
    {
      ForeignMeans(disk, owned);
      hide Foreign, Matches;
      if Overwrites(disk, owned, rows) {
        return Refused;
      }
      ghost var was := disk;
      var paths := ChangedPaths(disk, owned, rows);
      var ok, backups := BackUp(paths);
      if !ok {
        return Failed(true, true);
      }
      var written;
      ok, written := WritePayload(owned, rows, was);
      var restored := true;
      if ok {
        ok, restored := Integration(link, keys);
      }
      if ok {
        return Done;
      }
      var payloadRestored := RestoreWritten(written, backups, was);
      outcome := Failed(payloadRestored, restored);
    }

    method WritePayload(owned: seq<Fact>, rows: seq<Fact>, ghost was: Disk) returns (ok: bool, written: seq<string>)
      requires disk == was && DistinctPaths(rows) && !Names(rows, MARKER) && !Names(owned, MARKER)
      modifies `disk, `faults
      ensures Outside(was, disk, written)
      ensures forall p | p in written :: Names(rows, p) || Obsolete(was, owned, rows, p) || p == MARKER
      ensures ok ==> Installed(was, disk, owned, rows)
      ensures Settles(old(faults), ok, faults)
    {
      ok, written := WriteRows(rows, was);
      if !ok {
        return;
      }
      label copied:
      ok, written := DropObsolete(owned, rows, written, was);
      if !ok {
        return;
      }
      forall row | row in rows ensures Matches(disk, row) {
        assert Names(rows, row.path);
      }
      written := written + [MARKER];
      ok := Copy(MARKER, Marked(Record(rows, false)));
      ForeignMeans(was, owned);
    }

    // ---------------------------------------------------------------- uninstall

    method DeleteRows(removable: seq<Fact>, ghost was: Disk) returns (ok: bool)
      requires disk == was
      modifies `disk, `faults
      ensures SameBut(was, disk, set row | row in removable && Matches(was, row) :: row.path)
      ensures forall p | p in disk :: p in was && disk[p] == was[p]
      ensures ok ==> forall row | row in removable :: !Matches(disk, row)
      ensures Settles(old(faults), ok, faults)
    {
      ok := true;
      for i := 0 to |removable|
        invariant SameBut(was, disk, set row | row in removable && Matches(was, row) :: row.path)
        invariant forall p | p in disk :: p in was && disk[p] == was[p]
        invariant forall k | 0 <= k < i :: !Matches(disk, removable[k])
        invariant Settles(old(faults), true, faults)
      {
        var row := removable[i];
        if Matches(disk, row) {
          assert row in removable && Matches(was, row);
          var deleted := Delete(row.path);
          if !deleted {
            return false;
          }
        }
      }
    }

    /** Every copy goes back. */
    method RestoreAll(paths: seq<string>, backups: Disk, ghost was: Disk) returns (ok: bool)
      requires forall p | p in backups :: p in was && backups[p] == was[p]
      requires SameBut(was, disk, set p | p in paths && p in backups)
      modifies `disk, `faults
      ensures ok ==> disk == was
      ensures SameBut(was, disk, set p | p in paths && p in backups)
      ensures old(faults) == [] ==> ok
    {
      ok := true;
      for i := 0 to |paths|
        invariant SameBut(was, disk, set p | p in paths && p in backups)
        invariant ok ==> SameBut(was, disk, set p | p in paths[i..] && p in backups)
        invariant old(faults) == [] ==> ok && faults == []
      {
        assert paths[i..] == [paths[i]] + paths[i + 1..];
        if paths[i] in backups {
          var copied := Copy(paths[i], backups[paths[i]]);
          ok := ok && copied;
        }
      }
      if ok {
        assert disk == was;
      }
    }

    /** `UninstallUnlocked`: only recorded, unmodified files are deleted. */
    method Uninstall(record: Record) returns (outcome: Outcome)
      requires MARKER in disk && DistinctPaths(record.files) && !Names(record.files, MARKER)
      modifies this
      ensures !outcome.Refused?
      ensures outcome.Failed? && outcome.payloadRestored ==> disk == old(disk)
      ensures outcome.Failed? && outcome.integrationRestored ==> shortcut == old(shortcut) && registry == old(registry)
      ensures outcome.Done? ==> Uninstalled(old(disk), disk, record) && shortcut == None && registry == None
      ensures UnownedKept(old(disk), disk, record.files)
      ensures old(faults) == [] ==> outcome == Done
      ensures AtMostLast(old(faults)) ==> outcome in {Done, Failed(true, true)}
    {
      hide Uninstalled, KeepsContent, SameBut, Owned, BackedUp, Matches, UnownedKept, Foreign;
      ghost var was := disk;
      SameButItself(was, {});
      var retained := KeepsContent(disk, record);
      var removable := Removable(disk, record.files, retained);
      var paths := PathsOf(removable) + [MARKER];
      var ok, backups := BackUp(paths);
      var restored := true;
      if ok {
        ok := RemovePayload(removable, record, retained, was);
        RemovedIsBackedUp(was, disk, removable, paths, backups);
        RemovableIsOwned(was, disk, record.files, removable, retained);
        if ok {
          RemovedIsUninstalled(was, disk, record, removable);
          ok, restored := Integration(None, None);
        }
      } else {
        SameButItself(was, set p | p in paths && p in backups);
      }
      if ok {
        return Done;
      }
      BackupsAreThere(was, backups, paths);
      var payloadRestored := RestoreAll(paths, backups, was);
      CopiesAreOwned(was, disk, record.files, removable, retained, paths, backups);
      outcome := Failed(payloadRestored, restored);
    }

    method RemovePayload(removable: seq<Fact>, record: Record, retained: bool, ghost was: Disk) returns (ok: bool)
      requires disk == was && MARKER in was && !Names(removable, MARKER)
      requires forall row | row in removable :: Matches(was, row)
      modifies `disk, `faults
      ensures SameBut(was, disk, (set row | row in removable :: row.path) + {MARKER})
      ensures ok ==> forall row | row in removable :: row.path !in disk
      ensures ok ==>
        if retained then MARKER in disk && disk[MARKER] == Marked(Record(record.files, true)) else MARKER !in disk
      ensures Settles(old(faults), ok, faults)
    {
      ok := DeleteRows(removable, was);
      if !ok {
        return;
      }
      if retained {
        ok := Copy(MARKER, Marked(Record(record.files, true)));
      } else {
        ok := Delete(MARKER);
      }
    }
  }
}
