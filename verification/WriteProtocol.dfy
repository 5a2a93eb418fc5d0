/** The crash-stepped write protocol of the document store.

    A directory entry changed since the last directory sync may be found in its old or
    its new form after a power loss; a file that was not synced may then hold anything.
    Every system call may succeed, raise, or be the point where everything stops. */
module WriteProtocol {
  import opened Common

  /** The document, its backup, and the temporary names `mkstemp` makes. */
  datatype Name = Main | Backup | Temporary(suffix: string)

  const CHUNK: nat := 1048576

  datatype Inode = Inode(text: string, synced: bool)

  /** Directory entries point to inodes below `next`; `unsynced` holds, for every entry
      changed since the last directory sync, all the forms that may survive. */
  datatype Files = Files(
    inodes: map<nat, Inode>, next: nat, dir: map<Name, nat>, unsynced: map<Name, set<Option<nat>>>)
  {
    function Entry(name: Name): Option<nat> {
      if name in dir then Some(dir[name]) else None
    }

    function Survivors(name: Name): set<Option<nat>> {
      if name in unsynced then unsynced[name] else {Entry(name)}
    }

    ghost predicate Valid() {
      && (forall i :: i < next <==> i in inodes)
      && (forall name :: name in dir ==> dir[name] < next)
      && (forall name, i :: name in unsynced && Some(i) in unsynced[name] ==> i < next)
      && (forall name :: name in unsynced ==> Entry(name) in unsynced[name])
    }

    /** What a process reads now. */
    function Read(name: Name): Option<string> {
      if name in dir && dir[name] in inodes then Some(inodes[dir[name]].text) else None
    }

    predicate CouldHold(e: Option<nat>, r: Option<string>) {
      if e.None? then r == None
      else e.value in inodes && r.Some? && (inodes[e.value].synced ==> r.value == inodes[e.value].text)
    }

    /** What may be read after a power loss at this moment. */
    ghost predicate MayRead(name: Name, r: Option<string>) {
      exists e :: e in Survivors(name) && CouldHold(e, r)
    }

    function SetInode(i: nat, inode: Inode): Files {
      this.(inodes := inodes[i := inode])
    }

    function SetEntry(name: Name, e: Option<nat>): Files {
      this.(dir := if e.Some? then dir[name := e.value] else dir - {name},
            unsynced := unsynced[name := Survivors(name) + {e}])
    }

    function Created(name: Name): Files {
      this.(inodes := inodes[next := Inode("", false)], next := next + 1).SetEntry(name, Some(next))
    }

    function Replaced(from: Name, to: Name): Files
      requires from in dir
    {
      SetEntry(to, Some(dir[from])).SetEntry(from, None)
    }
  }

  datatype Io = Done | Raised | Stopped

  class Disk {
    var files: Files

    /** `mkstemp` */
    method Create(name: Name) returns (io: Io)
      modifies this
      ensures files == if io == Done then old(files).Created(name) else old(files)
    {
      io := *;
      if io == Done {
        files := files.Created(name);
      }
    }

    /** Appends some of `text`, all of it if the call returns. */
    method Write(i: nat, text: string) returns (io: Io, n: nat)
      requires i in files.inodes
      modifies this
      ensures n <= |text| && (io == Done ==> n == |text|)
      ensures files == old(files).SetInode(i, Inode(old(files).inodes[i].text + text[..n], false))
    {
      io := *;
      var some: int := *;
      n := if io == Done || some < 0 || some > |text| then |text| else some;
      files := files.SetInode(i, Inode(files.inodes[i].text + text[..n], false));
    }

    method Sync(i: nat) returns (io: Io)
      requires i in files.inodes
      modifies this
      ensures files == if io == Done then old(files).SetInode(i, old(files).inodes[i].(synced := true)) else old(files)
    {
      io := *;
      if io == Done {
        files := files.SetInode(i, files.inodes[i].(synced := true));
      }
    }

    /** `os.replace`: atomic, and without effect when it raises. */
    method Replace(from: Name, to: Name) returns (io: Io)
      requires from in files.dir
      modifies this
      ensures files == old(files).Replaced(from, to) || (files == old(files) && io != Done)
    {
      io := *;
      var done: bool := *;
      if io == Done || (io == Stopped && done) {
        files := files.Replaced(from, to);
      }
    }

    /** `fsync` of the directory. */
    method SyncDir() returns (io: Io)
      modifies this
      ensures files == if io == Done then old(files).(unsynced := map[]) else old(files)
    {
      io := *;
      if io == Done {
        files := files.(unsynced := map[]);
      }
    }

    /** `os.unlink`, a missing file being ignored. */
    method Unlink(name: Name) returns (io: Io)
      modifies this
      ensures files == old(files).SetEntry(name, None) || files == old(files)
      ensures io == Done ==> name !in files.dir
    {
      io := *;
      var done: bool := *;
      if name in files.dir && (io == Done || (io == Stopped && done)) {
        files := files.SetEntry(name, None);
      }
    }

    /** Copying a file's text, chunk by chunk, into a new file. */
    method CopyInto(source: nat, target: nat) returns (io: Io)
      requires files.Valid() && source in files.inodes && target in files.inodes && source != target
      requires files.inodes[target].text == ""
      modifies this
      ensures OnlyInode(old(files), files, target)
      ensures io == Done ==> files.inodes[target].text == old(files).inodes[source].text
    {
      var text := files.inodes[source].text;
      var at := 0;
      while at < |text|
        invariant 0 <= at <= |text|
        invariant OnlyInode(old(files), files, target)
        invariant files.inodes[target].text == text[..at]
      {
        var end := if at + CHUNK < |text| then at + CHUNK else |text|;
        var n: nat;
        io, n := Write(target, text[at..end]);
        if io != Done {
          return;
        }
        assert text[..at] + text[at..end] == text[..end];
        at := end;
      }
      io := Done;
    }

    method WriteAndSync(i: nat, data: string) returns (io: Io)
      requires files.Valid() && i in files.inodes && files.inodes[i].text == ""
      modifies this
      ensures OnlyInode(old(files), files, i)
      ensures io == Done ==> files.inodes[i] == Inode(data, true)
    {
      var n: nat;
      io, n := Write(i, data);
      if io == Done {
        assert data[..n] == data;
        io := Sync(i);
      }
    }

    /** The last document's text goes into a new file, which is then synced. */
    method FillCopy(b: nat, ghost start: Files, ghost data: string) returns (io: Io)
      requires Safe(start, files, data) && start.next <= b < files.next && Unlinked(files, b)
      requires files.inodes[b].text == "" && Main in files.dir && files.Entry(Main) == start.Entry(Main)
      modifies this
      ensures Safe(start, files, data) && OnlyInode(old(files), files, b)
      ensures io == Done ==> Holds(files, Some(b), start.Read(Main))
    {
      ghost var made := files;
      io := CopyInto(files.dir[Main], b);
      InodeKeepsSafe(start, made, files, b, data);
      if io == Done {
        io := Sync(b);
        InodeKeepsSafe(start, made, files, b, data);
      }
    }

    /** The last document is copied into a synced temporary file. */
    method CopyAside(backupTmp: Name, ghost start: Files, ghost data: string) returns (io: Io, pending: bool)
      requires Safe(start, files, data) && backupTmp.Temporary? && backupTmp !in files.dir
      requires Main in files.dir && files.Entry(Main) == start.Entry(Main)
      modifies this
      ensures Safe(start, files, data)
      ensures io == Done ==>
                && pending && Aside(old(files), files, backupTmp)
                && Holds(files, files.Entry(backupTmp), start.Read(Main))
      ensures !pending ==> backupTmp !in files.dir
    {
      pending := false;
      ghost var before := files;
      io := Create(backupTmp);
      if io != Done {
        return;
      }
      pending := true;
      CreateKeepsSafe(start, before, backupTmp, data);
      assert files.dir[backupTmp] == before.next && before.next !in before.inodes;
      io := FillCopy(files.dir[backupTmp], start, data);
    }

    /** The copy of the last document replaces the backup; `pending` tells whether it still
        has its temporary name. */
    method KeepBackup(backupTmp: Name, tmp: Name, i: nat, ghost start: Files, ghost data: string)
      returns (io: Io, pending: bool)
      requires Safe(start, files, data) && backupTmp.Temporary? && backupTmp !in files.dir && tmp.Temporary?
      requires Main in files.dir && files.Entry(Main) == start.Entry(Main) && Waiting(files, tmp, i, data)
      modifies this
      ensures Safe(start, files, data)
      ensures io == Done ==> Waiting(files, tmp, i, data) && Holds(files, files.Entry(Backup), start.Read(Main))
      ensures io != Stopped && !pending ==> backupTmp !in files.dir
      ensures io == Done ==> !pending
    {
      io, pending := CopyAside(backupTmp, start, data);
      if io != Done {
        return;
      }
      ghost var copied := files;
      io := Replace(backupTmp, Backup);
      if files != copied {
        ReplaceKeepsSafe(start, copied, backupTmp, Backup, data, start.Read(Main));
        ReplaceLeavesOthers(copied, backupTmp, Backup, tmp);
      }
      pending := io != Done;
    }

    /** The waiting document replaces the stored one, and the directory is synced. */
    method Publish(tmp: Name, i: nat, ghost start: Files, ghost data: string) returns (io: Io)
      requires Safe(start, files, data) && Waiting(files, tmp, i, data) && tmp.Temporary?
      modifies this
      ensures Safe(start, files, data)
      ensures io == Done ==> files.unsynced == map[] && Holds(files, files.Entry(Main), Some(data))
      ensures io == Done && Holds(old(files), old(files).Entry(Backup), start.Read(Main))
              ==> Holds(files, files.Entry(Backup), start.Read(Main))
      ensures io == Done ==> tmp !in files.dir
      ensures forall name: Name :: name.Temporary? && name !in old(files).dir ==> name !in files.dir
    {
      ghost var ready := files;
      io := Replace(tmp, Main);
      if files != ready {
        ReplaceKeepsSafe(start, ready, tmp, Main, data, Some(data));
      }
      if io == Done {
        ghost var replaced := files;
        io := SyncDir();
        SyncKeepsSafe(start, replaced, data);
      }
    }

    /** The new document is written to its temporary file and synced. */
    method WriteNew(data: string, tmp: Name, ghost start: Files) returns (io: Io, i: nat)
      requires start.Valid() && tmp.Temporary? && tmp !in start.dir && files == start.Created(tmp)
      modifies this
      ensures Safe(start, files, data) && files.dir == old(files).dir
      ensures io == Done ==> Waiting(files, tmp, i, data)
    {
      StartIsSafe(start, data);
      CreateKeepsSafe(start, start, tmp, data);
      i := files.dir[tmp];
      ghost var made := files;
      io := WriteAndSync(i, data);
      InodeKeepsSafe(start, made, files, i, data);
    }

    /** The part of the write inside `try`. */
    method Attempt(data: string, tmp: Name, backupTmp: Name, ghost start: Files) returns (io: Io, pending: bool)
      requires start.Valid() && FreeNames(start, tmp, backupTmp) && files == start.Created(tmp)
      modifies this
      ensures Safe(start, files, data)
      ensures io == Done ==>
                && files.unsynced == map[] && Holds(files, files.Entry(Main), Some(data))
                && (Main in start.dir ==> Holds(files, files.Entry(Backup), start.Read(Main)))
      ensures io == Done ==> tmp !in files.dir && !pending
      ensures io != Stopped && !pending ==> backupTmp !in files.dir
    {
      pending := false;
      var i: nat;
      io, i := WriteNew(data, tmp, start);
      if io == Done && Main in files.dir {
        io, pending := KeepBackup(backupTmp, tmp, i, start, data);
      }
      if io == Done {
        io := Publish(tmp, i, start, data);
      }
    }

    /** The temporary files of a failed write are removed before the failure is passed on. */
    method CleanUp(tmp: Name, backupTmp: Name, pending: bool, ghost start: Files, ghost data: string)
      returns (io: Io, clean: bool)
      requires Safe(start, files, data) && FreeNames(start, tmp, backupTmp)
      requires pending || backupTmp !in files.dir
      modifies this
      ensures Safe(start, files, data) && io != Done
      ensures clean ==> tmp !in files.dir && backupTmp !in files.dir
    {
      ghost var before := files;
      io := Unlink(tmp);
      UnlinkKeepsSafe(start, before, tmp, data);
      if io == Done && pending {
        ghost var between := files;
        io := Unlink(backupTmp);
        UnlinkKeepsSafe(start, between, backupTmp, data);
      }
      clean := io == Done;
      io := if io == Stopped then Stopped else Raised;
    }

    /** `_write_locked`, for an already validated and serialised document.  `tmp` and
        `backupTmp` are the names `mkstemp` finds free; `clean` means that no removal of a
        temporary file failed. */
    method WriteLocked(data: string, tmp: Name, backupTmp: Name) returns (io: Io, clean: bool)
      requires files.Valid() && FreeNames(files, tmp, backupTmp)
      modifies this
      ensures files.Valid()
      ensures forall r :: files.MayRead(Main, r) ==> old(files).MayRead(Main, r) || r == Some(data)
      ensures forall r :: files.MayRead(Backup, r) ==> old(files).MayRead(Backup, r) || r == old(files).Read(Main)
      ensures files.Read(Main) == old(files).Read(Main) || files.Read(Main) == Some(data)
      ensures files.Read(Backup) == old(files).Read(Backup) || files.Read(Backup) == old(files).Read(Main)
      ensures io != Stopped && clean ==> tmp !in files.dir && backupTmp !in files.dir
      ensures io == Done ==>
                && clean && files.Read(Main) == Some(data)
                && (forall r :: files.MayRead(Main, r) ==> r == Some(data))
                && (Main in old(files).dir ==>
                      files.Read(Backup) == old(files).Read(Main)
                      && forall r :: files.MayRead(Backup, r) ==> r == old(files).Read(Main))
    {
      ghost var start := files;
      StartIsSafe(start, data);
      clean := true;
      io := Create(tmp);
      if io == Done {
        var pending: bool;
        io, pending := Attempt(data, tmp, backupTmp, start);
        if io == Raised {
          io, clean := CleanUp(tmp, backupTmp, pending, start, data);
        }
      }
      SafeIsReadable(start, files, data);
    }
  }

  /** Only the contents of one inode differ. */
  predicate OnlyInode(was: Files, now: Files, i: nat) {
    i in now.inodes && now == was.(inodes := was.inodes[i := now.inodes[i]])
  }

  predicate FreeNames(files: Files, tmp: Name, backupTmp: Name) {
    tmp.Temporary? && backupTmp.Temporary? && tmp !in files.dir && backupTmp !in files.dir && tmp != backupTmp
  }

  // ---- crash safety, step by step ---------------------------------------------------

  predicate Holds(files: Files, e: Option<nat>, text: Option<string>) {
    e.Some? && text.Some? && e.value in files.inodes && files.inodes[e.value] == Inode(text.value, true)
  }

  /** Every form of the entry that is new since `start` is a synced file with that text. */
  ghost predicate NewFormsHold(start: Files, now: Files, name: Name, text: Option<string>) {
    && (forall e :: e in now.Survivors(name) ==> e in start.Survivors(name) || Holds(now, e, text))
    && (now.Entry(name) == start.Entry(name) || Holds(now, now.Entry(name), text))
  }

  ghost predicate Safe(start: Files, now: Files, data: string) {
    && start.Valid() && now.Valid() && start.next <= now.next
    && (forall i :: i in start.inodes ==> now.inodes[i] == start.inodes[i])
    && NewFormsHold(start, now, Main, Some(data))
    && NewFormsHold(start, now, Backup, start.Read(Main))
  }

  /** Only a new file under a new temporary name was added. */
  predicate Aside(was: Files, now: Files, name: Name) {
    && (forall n :: n in was.dir && n != name ==> n in now.dir && now.dir[n] == was.dir[n])
    && (forall i :: i in was.inodes ==> i in now.inodes && now.inodes[i] == was.inodes[i])
  }

  /** The synced new document waits under its temporary name. */
  predicate Waiting(files: Files, tmp: Name, i: nat, data: string) {
    tmp in files.dir && files.dir[tmp] == i && Holds(files, Some(i), Some(data))
  }

  predicate Unlinked(files: Files, i: nat) {
    Some(i) !in files.Survivors(Main) && Some(i) !in files.Survivors(Backup)
  }

  /** The forms of an entry stay good while they and their files stay as they are. */
  lemma FormsKept(start: Files, was: Files, now: Files, name: Name, text: Option<string>)
    requires NewFormsHold(start, was, name, text) && was.Entry(name) in was.Survivors(name)
    requires now.Survivors(name) <= was.Survivors(name) && now.Entry(name) == was.Entry(name)
    requires forall i :: Some(i) in was.Survivors(name) && i in was.inodes ==>
               i in now.inodes && now.inodes[i] == was.inodes[i]
    ensures NewFormsHold(start, now, name, text)
  {
  }

  lemma EntriesSurvive(files: Files, name: Name)
    requires files.Valid()
    ensures files.Entry(name) in files.Survivors(name)
    ensures forall i :: Some(i) in files.Survivors(name) ==> i < files.next
  {
  }

  /** Steps that leave both document entries, and the files they point to, alone. */
  lemma ElsewhereKeepsSafe(start: Files, was: Files, now: Files, data: string)
    requires Safe(start, was, data) && now.Valid() && was.next <= now.next
    requires now.Entry(Main) == was.Entry(Main) && now.Entry(Backup) == was.Entry(Backup)
    requires now.Survivors(Main) <= was.Survivors(Main) && now.Survivors(Backup) <= was.Survivors(Backup)
    requires forall i :: i in start.inodes ==> now.inodes[i] == was.inodes[i]
    requires forall i :: (Some(i) in was.Survivors(Main) || Some(i) in was.Survivors(Backup)) && i in was.inodes
                         ==> i in now.inodes && now.inodes[i] == was.inodes[i]
    ensures Safe(start, now, data)
  {
    EntriesSurvive(was, Main);
    EntriesSurvive(was, Backup);
    FormsKept(start, was, now, Main, Some(data));
    FormsKept(start, was, now, Backup, start.Read(Main));
  }

  lemma StartIsSafe(start: Files, data: string)
    requires start.Valid()
    ensures Safe(start, start, data)
  {
  }

  lemma CreatedIsValid(was: Files, name: Name)
    requires was.Valid()
    ensures was.Created(name).Valid()
  {
    var now := was.Created(name);
    EntriesSurvive(was, name);
    forall n, i | n in now.unsynced && Some(i) in now.unsynced[n]
      ensures i < now.next
    {
      if n != name {
        assert n in was.unsynced;
      }
    }
  }

  lemma CreateKeepsSafe(start: Files, was: Files, name: Name, data: string)
    requires Safe(start, was, data) && name.Temporary?
    ensures Safe(start, was.Created(name), data) && Unlinked(was.Created(name), was.next)
  {
    var now := was.Created(name);
    CreatedIsValid(was, name);
    EntriesSurvive(was, Main);
    EntriesSurvive(was, Backup);
    ElsewhereKeepsSafe(start, was, now, data);
  }

  /** Writing to a file no document entry points to is harmless. */
  lemma InodeKeepsSafe(start: Files, was: Files, now: Files, i: nat, data: string)
    requires Safe(start, was, data) && OnlyInode(was, now, i) && start.next <= i < was.next && Unlinked(was, i)
    ensures Safe(start, now, data) && Unlinked(now, i)
  {
    ElsewhereKeepsSafe(start, was, now, data);
  }

  lemma SetEntryIsValid(was: Files, name: Name, e: Option<nat>)
    requires was.Valid() && (e.Some? ==> e.value < was.next)
    ensures was.SetEntry(name, e).Valid()
  {
    EntriesSurvive(was, name);
  }

  lemma ReplaceKeepsSafe(start: Files, was: Files, from: Name, to: Name, data: string, text: Option<string>)
    requires Safe(start, was, data) && from in was.dir && from.Temporary?
    requires (to == Main && text == Some(data)) || (to == Backup && text == start.Read(Main))
    requires Holds(was, Some(was.dir[from]), text)
    ensures Safe(start, was.Replaced(from, to), data)
    ensures Holds(was.Replaced(from, to), was.Replaced(from, to).Entry(to), text)
  {
    var mid := was.SetEntry(to, Some(was.dir[from]));
    SetEntryIsValid(was, to, Some(was.dir[from]));
    var other := if to == Main then Backup else Main;
    EntriesSurvive(was, other);
    FormsKept(start, was, mid, other, if to == Main then start.Read(Main) else Some(data));
    assert mid.Survivors(to) == was.Survivors(to) + {Some(was.dir[from])};
    assert Safe(start, mid, data);
    UnlinkKeepsSafe(start, mid, from, data);
  }

  lemma ReplaceLeavesOthers(was: Files, from: Name, to: Name, name: Name)
    requires from in was.dir && name != from && name != to && from != to
    ensures var now := was.Replaced(from, to);
            && now.Entry(name) == was.Entry(name) && now.inodes == was.inodes
            && from !in now.dir && now.Entry(to) == was.Entry(from)
  {
  }

  lemma UnlinkKeepsSafe(start: Files, was: Files, name: Name, data: string)
    requires Safe(start, was, data) && name.Temporary?
    ensures Safe(start, was.SetEntry(name, None), data)
  {
    SetEntryIsValid(was, name, None);
    ElsewhereKeepsSafe(start, was, was.SetEntry(name, None), data);
  }

  lemma SyncKeepsSafe(start: Files, was: Files, data: string)
    requires Safe(start, was, data)
    ensures Safe(start, was.(unsynced := map[]), data)
  {
    EntriesSurvive(was, Main);
    EntriesSurvive(was, Backup);
    ElsewhereKeepsSafe(start, was, was.(unsynced := map[]), data);
  }

  lemma SafeIsReadable(start: Files, now: Files, data: string)
    requires Safe(start, now, data)
    ensures forall r :: now.MayRead(Main, r) ==> start.MayRead(Main, r) || r == Some(data)
    ensures forall r :: now.MayRead(Backup, r) ==> start.MayRead(Backup, r) || r == start.Read(Main)
    ensures now.Read(Main) == start.Read(Main) || now.Read(Main) == Some(data)
    ensures now.Read(Backup) == start.Read(Backup) || now.Read(Backup) == start.Read(Main)
  {
    ReadableForms(start, now, Main, Some(data));
    ReadableForms(start, now, Backup, start.Read(Main));
  }

  lemma ReadableForms(start: Files, now: Files, name: Name, text: Option<string>)
    requires start.Valid() && now.Valid() && NewFormsHold(start, now, name, text)
    requires forall i :: i in start.inodes ==> i in now.inodes && now.inodes[i] == start.inodes[i]
    ensures forall r :: now.MayRead(name, r) ==> start.MayRead(name, r) || r == text
    ensures now.Read(name) == start.Read(name) || now.Read(name) == text
  {
    forall r | now.MayRead(name, r)
      ensures start.MayRead(name, r) || r == text
    {
      var e :| e in now.Survivors(name) && now.CouldHold(e, r);
      if e in start.Survivors(name) {
        assert e.Some? ==> e.value < start.next;
        assert start.CouldHold(e, r);
      }
    }
  }
}
