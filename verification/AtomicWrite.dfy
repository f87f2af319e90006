/** mc_write_atomic of src/util/fs.c over a file system whose cached and durable states differ. */
module AtomicWrite {
  import opened Base
  import opened Numerals

  /** Directory entries and file contents, as processes see them (`entries`, `content`) and as a
      power loss would leave them (`durable`, `stored`). A file in `synced` has been flushed since
      it was last written. Files are numbered below `next`. */
  datatype Disk = Disk(entries: map<string, nat>, content: map<nat, seq<Byte>>,
                       durable: map<string, nat>, stored: map<nat, seq<Byte>>,
                       synced: set<nat>, next: nat)

  function Entry(directory: map<string, nat>, name: string): Option<nat> {
    if name in directory then Some(directory[name]) else None
  }

  ghost predicate Coherent(d: Disk) {
    && (forall i :: i in d.content ==> i < d.next) && (forall i :: i in d.stored ==> i < d.next)
    && (forall i :: i in d.synced ==> i in d.content && i in d.stored && d.stored[i] == d.content[i])
  }

  /** The file, if any, is flushed: its durable content is complete. */
  predicate Flushed(d: Disk, file: Option<nat>) {
    file.Some? ==> file.value in d.synced && file.value in d.content && file.value in d.stored
  }

  /** Both what processes and what a power loss would find under the name is flushed. */
  predicate Whole(d: Disk, name: string) {
    Flushed(d, Entry(d.entries, name)) && Flushed(d, Entry(d.durable, name))
  }

  function View(d: Disk, name: string): Option<seq<Byte>>
    requires Flushed(d, Entry(d.entries, name))
  {
    if name in d.entries then Some(d.content[d.entries[name]]) else None
  }

  /** What is found under the name after a power loss; a file of which nothing was written back
      is empty. */
  function Recovered(d: Disk, name: string): Option<seq<Byte>> {
    if name !in d.durable then None
    else if d.durable[name] in d.stored then Some(d.stored[d.durable[name]])
    else Some([])
  }

  /** What the system may do on its own: write back any entries, and any part of the content of
      files that are not flushed, in any order. */
  ghost predicate Background(d: Disk, e: Disk) {
    && e.entries == d.entries && e.content == d.content && e.synced == d.synced && e.next == d.next
    && (forall name :: Entry(e.durable, name) == Entry(d.durable, name) ||
                       Entry(e.durable, name) == Entry(d.entries, name))
    && (forall i :: i in d.synced && i in d.stored ==> i in e.stored && e.stored[i] == d.stored[i])
    && (forall i :: i in e.stored ==> i in d.stored || i in d.content)
  }

  function Created(d: Disk, name: string): Disk {
    d.(entries := d.entries[name := d.next], content := d.content[d.next := []],
       synced := d.synced - {d.next}, next := d.next + 1)
  }

  function Appended(d: Disk, file: nat, bytes: seq<Byte>): Disk
    requires file in d.content
  {
    d.(content := d.content[file := d.content[file] + bytes], synced := d.synced - {file})
  }

  function Synced(d: Disk, file: nat): Disk
    requires file in d.content
  {
    d.(stored := d.stored[file := d.content[file]], synced := d.synced + {file})
  }

  function Removed(d: Disk, name: string): Disk {
    d.(entries := d.entries - {name})
  }

  function Renamed(d: Disk, from: string, to: string): Disk
    requires from in d.entries
  {
    d.(entries := (d.entries - {from})[to := d.entries[from]])
  }

  /** The disk as seen by the process that runs mc_write_atomic. Each call may be followed by any
      write-back, and may fail as its contract says. */
  class FileSystem {
    var disk: Disk

    method Create(name: string) returns (file: Option<nat>)
      requires Coherent(disk)
      modifies this
      ensures Coherent(disk)
      ensures name in old(disk.entries) ==> file == None
      ensures file == None ==> Background(old(disk), disk)
      ensures file.Some? ==> file.value == old(disk.next) && Background(Created(old(disk), name), disk)
    {
      if name in disk.entries {
        return None;
      }
      file := Some(disk.next);
      disk := Created(disk, name);
    }

    /** write(2): some of the bytes, or an error. */
    method Write(file: nat, bytes: seq<Byte>) returns (count: int)
      requires Coherent(disk) && file in disk.content && bytes != []
      modifies this
      ensures Coherent(disk)
      ensures count < 0 ==> Background(old(disk), disk)
      ensures count >= 0 ==> 0 < count <= |bytes| && Background(Appended(old(disk), file, bytes[..count]), disk)
    {
      count := |bytes|;
      disk := Appended(disk, file, bytes[..count]);
    }

    method Sync(file: nat) returns (ok: bool)
      requires Coherent(disk) && file in disk.content
      modifies this
      ensures Coherent(disk)
      ensures Background(if ok then Synced(old(disk), file) else old(disk), disk)
    {
      ok := true;
      disk := Synced(disk, file);
    }

    method Close() returns (ok: bool)
      requires Coherent(disk)
      modifies this
      ensures Coherent(disk) && Background(old(disk), disk)
    {
      ok := true;
    }

    method Unlink(name: string) returns (ok: bool)
      requires Coherent(disk)
      modifies this
      ensures Coherent(disk) && Background(if ok then Removed(old(disk), name) else old(disk), disk)
    {
      ok := true;
      disk := Removed(disk, name);
    }

    method Rename(from: string, to: string) returns (ok: bool)
      requires Coherent(disk)
      modifies this
      ensures Coherent(disk)
      ensures ok ==> from in old(disk.entries) && |to| < PATH_MAX
      ensures Background(if ok then Renamed(old(disk), from, to) else old(disk), disk)
    {
      ok := from in disk.entries && |to| < PATH_MAX;
      if ok {
        disk := Renamed(disk, from, to);
      }
    }

    /** open, fsync and close of the directory that holds the name. */
    method SyncDirectory(name: string) returns (ok: bool)
      requires Coherent(disk)
      modifies this
      ensures Coherent(disk) && Background(old(disk), disk)
      ensures ok ==> Entry(disk.durable, name) == Entry(disk.entries, name)
    {
      ok := true;
      disk := disk.(durable := disk.entries);
    }

    /** The write loop. */
    method WriteAll(ghost job: Job, ghost start: Disk, file: nat, data: seq<Byte>, ghost before: seq<Point>)
      returns (ok: bool, ghost points: seq<Point>)
      requires Reaches(job, start, before, disk, Open(file, 0)) && data == job.data && file in disk.content
      modifies this
      ensures Reaches(job, start, points, disk, if ok then Open(file, |data|) else Abandoned(file))
      ensures ok ==> file in disk.content
    {
      var written := 0;
      points := before;
      while written < |data|
        invariant written <= |data| && file in disk.content && Reaches(job, start, points, disk, Open(file, written))
      {
        var count := Write(file, data[written..]);
        if count < 0 {
          points := Extend(job, start, points, disk, Abandoned(file));
          return false, points;
        }
        assert data[written..][..count] == data[written..written + count];
        written := written + count;
        points := Extend(job, start, points, disk, Open(file, written));
      }
      ok := true;
    }

    /** fsync and close. */
    method Flush(ghost job: Job, ghost start: Disk, file: nat, ghost before: seq<Point>)
      returns (ok: bool, ghost points: seq<Point>)
      requires Reaches(job, start, before, disk, Open(file, |job.data|)) && file in disk.content
      modifies this
      ensures Reaches(job, start, points, disk, if ok then Ready(file) else Abandoned(file))
    {
      ok := Sync(file);
      points := Extend(job, start, before, disk, if ok then Ready(file) else Abandoned(file));
      if ok {
        ok := Close();
        points := Extend(job, start, points, disk, if ok then Ready(file) else Abandoned(file));
      }
    }

    /** rename, and the flush of the directory. */
    method Publish(ghost start: Disk, job: Job, file: nat, ghost before: seq<Point>)
      returns (renamed: bool, ok: bool, ghost points: seq<Point>)
      requires Reaches(job, start, before, disk, Ready(file))
      modifies this
      ensures Reaches(job, start, points, disk,
                      if ok then Durable(file) else if renamed then Visible(file) else Abandoned(file))
    {
      renamed := Rename(job.temporary, job.path);
      ok := false;
      points := Extend(job, start, before, disk, if renamed then Visible(file) else Abandoned(file));
      if renamed {
        ok := SyncDirectory(job.path);
        points := Extend(job, start, points, disk, if ok then Durable(file) else Visible(file));
      }
    }

    /** mc_write_atomic: every execution is an attempt, and succeeds exactly if it ends durable. */
    method WriteAtomic(path: string, pid: nat, data: seq<Byte>) returns (ok: bool, ghost points: seq<Point>)
      requires Coherent(disk)
      modifies this
      ensures IsAttempt(JobOf(path, pid, data), old(disk), points) && points[|points| - 1].disk == disk
      ensures Ended(points[|points| - 1].stage) && (ok <==> points[|points| - 1].stage.Durable?)
    {
      ghost var start := disk;
      var job := JobOf(path, pid, data);
      points := [Point(disk, Begun)];
      var file := Create(job.temporary);
      if file == None {
        points := Extend(job, start, points, disk, Cleared);
        return false, points;
      }
      points := Extend(job, start, points, disk, Open(file.value, 0));
      ok, points := WriteAll(job, start, file.value, data, points);
      if ok {
        ok, points := Flush(job, start, file.value, points);
      }
      var renamed := false;
      if ok {
        renamed, ok, points := Publish(start, job, file.value, points);
      }
      if !ok && !renamed {
        var removed := Unlink(job.temporary);
        points := Extend(job, start, points, disk, if removed then Cleared else Leftover(file.value));
      }
    }
  }

  // ---------------------------------------------------------------- attempts

  datatype Job = Job(path: string, temporary: string, data: seq<Byte>)

  /** How far an attempt has come; the last four are where it can end. */
  datatype Stage =
    | Begun
    | Open(file: nat, count: nat) // this many bytes are written
    | Ready(file: nat)            // and flushed
    | Abandoned(file: nat)        // about to unlink the temporary file
    | Cleared
    | Leftover(file: nat)         // the unlink failed, too
    | Visible(file: nat)          // renamed
    | Durable(file: nat)          // and the directory flushed

  datatype Point = Point(disk: Disk, stage: Stage)

  predicate Ended(stage: Stage) {
    stage.Cleared? || stage.Leftover? || stage.Visible? || stage.Durable?
  }

  /** One call with any outcome, and any write-back after it. */
  ghost predicate Moves(job: Job, p: Point, q: Point) {
    && Coherent(q.disk)
    && match q.stage
       case Begun => false
       case Open(file, count) =>
         if p.stage == Begun
         then count == 0 && job.temporary !in p.disk.entries && file == p.disk.next &&
              Background(Created(p.disk, job.temporary), q.disk)
         else p.stage.Open? && p.stage.file == file && p.stage.count < count <= |job.data| && file in p.disk.content &&
              Background(Appended(p.disk, file, job.data[p.stage.count..count]), q.disk)
       case Ready(file) =>
         || (p.stage == Open(file, |job.data|) && file in p.disk.content && Background(Synced(p.disk, file), q.disk))
         || (p.stage == Ready(file) && Background(p.disk, q.disk))
       case Abandoned(file) =>
         (p.stage == Ready(file) || (p.stage.Open? && p.stage.file == file)) && Background(p.disk, q.disk)
       case Cleared =>
         || (p.stage == Begun && Background(p.disk, q.disk))
         || (p.stage.Abandoned? && Background(Removed(p.disk, job.temporary), q.disk))
       case Leftover(file) => p.stage == Abandoned(file) && Background(p.disk, q.disk)
       case Visible(file) =>
         || (p.stage == Ready(file) && job.temporary in p.disk.entries && |job.path| < PATH_MAX &&
             Background(Renamed(p.disk, job.temporary, job.path), q.disk))
         || (p.stage == Visible(file) && Background(p.disk, q.disk))
       case Durable(file) =>
         && p.stage == Visible(file) && Background(p.disk, q.disk)
         && Entry(q.disk.durable, job.path) == Entry(q.disk.entries, job.path)
  }

  ghost predicate IsAttempt(job: Job, start: Disk, points: seq<Point>) {
    && points != [] && points[0] == Point(start, Begun)
    && forall k, l :: 0 <= k < |points| - 1 && l == k + 1 ==> Moves(job, points[k], points[l])
  }

  ghost predicate Reaches(job: Job, start: Disk, points: seq<Point>, disk: Disk, stage: Stage) {
    IsAttempt(job, start, points) && points[|points| - 1] == Point(disk, stage) && Coherent(disk)
  }

  ghost function Extend(job: Job, start: Disk, points: seq<Point>, disk: Disk, stage: Stage): (longer: seq<Point>)
    requires IsAttempt(job, start, points) && Moves(job, points[|points| - 1], Point(disk, stage))
    ensures Reaches(job, start, longer, disk, stage)
  {
    points + [Point(disk, stage)]
  }

  // ---------------------------------------------------------------- what an attempt keeps

  /** Flushed files of `d` are as they were, and the name still leads to one of the two. */
  ghost predicate Quiet(d: Disk, e: Disk, name: string) {
    && Coherent(e)
    && (forall i :: i in d.synced ==> i in d.content && i in e.synced && i in e.content && e.content[i] == d.content[i])
    && Entry(e.entries, name) == Entry(d.entries, name)
    && (Entry(e.durable, name) == Entry(d.durable, name) || Entry(e.durable, name) == Entry(d.entries, name))
  }

  /** The name leads to the new file, on the medium to that or to one of the old ones. */
  ghost predicate Published(d: Disk, e: Disk, name: string, file: nat, data: seq<Byte>) {
    && Coherent(e)
    && (forall i :: i in d.synced ==> i in d.content && i in e.synced && i in e.content && e.content[i] == d.content[i])
    && Entry(e.entries, name) == Some(file) && Holds(e, file, data)
    && (Entry(e.durable, name) == Entry(d.durable, name) || Entry(e.durable, name) == Entry(d.entries, name) ||
        Entry(e.durable, name) == Some(file))
  }

  /** What a power loss at `e` leaves under the name: a complete content, the durable or the
      visible one of before or the new one. */
  ghost predicate Safe(d: Disk, e: Disk, name: string, data: seq<Byte>)
    requires Whole(d, name)
  {
    && Coherent(e) && Flushed(e, Entry(e.durable, name))
    && (Recovered(e, name) == Recovered(d, name) || Recovered(e, name) == View(d, name) ||
        Recovered(e, name) == Some(data))
  }

  predicate Holds(d: Disk, file: nat, data: seq<Byte>) {
    file in d.synced && file in d.content && d.content[file] == data
  }

  lemma QuietBackground(start: Disk, d: Disk, e: Disk, name: string)
    requires Quiet(start, d, name) && Coherent(e) && Background(d, e)
    ensures Quiet(start, e, name)
  {
  }

  lemma QuietCreated(d: Disk, e: Disk, name: string, other: string)
    requires Coherent(d) && Coherent(e) && other != name && Background(Created(d, other), e)
    ensures Quiet(d, e, name) && d.next !in d.synced && d.next in e.content && e.content[d.next] == []
  {
  }

  lemma QuietAppended(start: Disk, d: Disk, e: Disk, name: string, file: nat, bytes: seq<Byte>)
    requires Quiet(start, d, name) && Coherent(e) && file in d.content && file !in start.synced
    requires Background(Appended(d, file, bytes), e)
    ensures Quiet(start, e, name) && e.entries == d.entries
    ensures file in e.content && e.content[file] == d.content[file] + bytes
  {
  }

  lemma QuietSynced(start: Disk, d: Disk, e: Disk, name: string, file: nat)
    requires Quiet(start, d, name) && Coherent(e) && file in d.content && Background(Synced(d, file), e)
    ensures Quiet(start, e, name) && e.entries == d.entries && e.content == d.content && file in e.synced
  {
  }

  lemma QuietRemoved(start: Disk, d: Disk, e: Disk, name: string, other: string)
    requires Quiet(start, d, name) && Coherent(e) && other != name && Background(Removed(d, other), e)
    ensures Quiet(start, e, name) && e.entries == d.entries - {other}
  {
  }

  lemma QuietIsSafe(d: Disk, e: Disk, name: string, data: seq<Byte>)
    requires Coherent(d) && Whole(d, name) && Quiet(d, e, name)
    ensures Safe(d, e, name, data) && Whole(e, name)
  {
  }

  lemma RenamePublishes(start: Disk, d: Disk, e: Disk, name: string, other: string, file: nat, data: seq<Byte>)
    requires Quiet(start, d, name) && Coherent(e) && Holds(d, file, data)
    requires other != name && other !in start.entries && d.entries == start.entries[other := file]
    requires Background(Renamed(d, other, name), e)
    ensures Published(start, e, name, file, data) && e.entries == start.entries[name := file]
  {
  }

  lemma PublishedStays(start: Disk, d: Disk, e: Disk, name: string, file: nat, data: seq<Byte>)
    requires Published(start, d, name, file, data) && Coherent(e) && Background(d, e)
    ensures Published(start, e, name, file, data)
  {
  }

  lemma PublishedIsSafe(d: Disk, e: Disk, name: string, file: nat, data: seq<Byte>)
    requires Coherent(d) && Whole(d, name) && Published(d, e, name, file, data)
    ensures Safe(d, e, name, data) && Whole(e, name) && View(e, name) == Some(data)
    ensures Entry(e.durable, name) == Some(file) ==> Recovered(e, name) == Some(data)
  {
  }

  /** The target is undisturbed and the temporary file is in the directory. */
  ghost predicate Pending(job: Job, start: Disk, d: Disk, file: nat) {
    && Quiet(start, d, job.path) && job.temporary != job.path && job.temporary !in start.entries
    && d.entries == start.entries[job.temporary := file]
  }

  ghost predicate PointOk(job: Job, start: Disk, p: Point) {
    match p.stage
    case Begun => p.disk == start
    case Open(file, count) =>
      && Pending(job, start, p.disk, file) && file !in start.synced && count <= |job.data|
      && file in p.disk.content && p.disk.content[file] == job.data[..count]
    case Ready(file) => Pending(job, start, p.disk, file) && Holds(p.disk, file, job.data)
    case Abandoned(file) => Pending(job, start, p.disk, file)
    case Cleared => Quiet(start, p.disk, job.path) && p.disk.entries == start.entries
    case Leftover(file) => Pending(job, start, p.disk, file)
    case Visible(file) =>
      Published(start, p.disk, job.path, file, job.data) && p.disk.entries == start.entries[job.path := file]
    case Durable(file) =>
      && Published(start, p.disk, job.path, file, job.data) && p.disk.entries == start.entries[job.path := file]
      && Entry(p.disk.durable, job.path) == Some(file)
  }

  /** The new file does not take the target's own name, because another name is used or because
      the target exists and O_EXCL refuses it. */
  predicate Separate(job: Job, start: Disk) {
    job.temporary != job.path || job.path in start.entries
  }

  lemma OpenKeepsOk(job: Job, start: Disk, p: Point, q: Point)
    requires Coherent(start) && Separate(job, start) && PointOk(job, start, p) && Moves(job, p, q) && q.stage.Open?
    ensures PointOk(job, start, q)
  {
    if p.stage == Begun {
      QuietCreated(start, q.disk, job.path, job.temporary);
    } else {
      var from, to := p.stage.count, q.stage.count;
      QuietAppended(start, p.disk, q.disk, job.path, q.stage.file, job.data[from..to]);
      assert job.data[..from] + job.data[from..to] == job.data[..to];
    }
  }

  lemma ReadyKeepsOk(job: Job, start: Disk, p: Point, q: Point)
    requires PointOk(job, start, p) && Moves(job, p, q) && q.stage.Ready?
    ensures PointOk(job, start, q)
  {
    if p.stage.Open? {
      QuietSynced(start, p.disk, q.disk, job.path, q.stage.file);
      assert job.data[..|job.data|] == job.data;
    } else {
      QuietBackground(start, p.disk, q.disk, job.path);
    }
  }

  lemma FailureKeepsOk(job: Job, start: Disk, p: Point, q: Point)
    requires Coherent(start) && PointOk(job, start, p) && Moves(job, p, q)
    requires q.stage.Abandoned? || q.stage.Leftover? || q.stage.Cleared?
    ensures PointOk(job, start, q)
  {
    if p.stage == Begun {
      assert Quiet(start, start, job.path);
      QuietBackground(start, start, q.disk, job.path);
    } else if q.stage.Cleared? {
      QuietRemoved(start, p.disk, q.disk, job.path, job.temporary);
    } else {
      QuietBackground(start, p.disk, q.disk, job.path);
    }
  }

  lemma RenameKeepsOk(job: Job, start: Disk, p: Point, q: Point)
    requires PointOk(job, start, p) && Moves(job, p, q) && (q.stage.Visible? || q.stage.Durable?)
    ensures PointOk(job, start, q)
  {
    if p.stage.Ready? {
      RenamePublishes(start, p.disk, q.disk, job.path, job.temporary, q.stage.file, job.data);
    } else {
      PublishedStays(start, p.disk, q.disk, job.path, q.stage.file, job.data);
    }
  }

  lemma MoveKeepsOk(job: Job, start: Disk, p: Point, q: Point)
    requires Coherent(start) && Separate(job, start) && PointOk(job, start, p) && Moves(job, p, q)
    ensures PointOk(job, start, q)
  {
    match q.stage
    case Begun =>
    case Open(_, _) => OpenKeepsOk(job, start, p, q);
    case Ready(_) => ReadyKeepsOk(job, start, p, q);
    case Visible(_) => RenameKeepsOk(job, start, p, q);
    case Durable(_) => RenameKeepsOk(job, start, p, q);
    case _ => FailureKeepsOk(job, start, p, q);
  }

  lemma {:induction false} AttemptKeepsOk(job: Job, start: Disk, points: seq<Point>, k: nat)
    requires Coherent(start) && Separate(job, start) && IsAttempt(job, start, points) && k < |points|
    ensures PointOk(job, start, points[k])
  {
    if k > 0 {
      AttemptKeepsOk(job, start, points, k - 1);
      assert Moves(job, points[k - 1], points[k]);
      MoveKeepsOk(job, start, points[k - 1], points[k]);
    }
  }

  /** At every point of every attempt a power loss finds a complete content, old or new. Once
      durable, the new content is found; once renamed, it is seen; a failure before the rename
      leaves the directory as it was, but for the temporary file if its unlink failed, too. */
  lemma AttemptIsSafe(job: Job, start: Disk, points: seq<Point>, k: nat)
    requires Coherent(start) && Whole(start, job.path) && Separate(job, start)
    requires IsAttempt(job, start, points) && k < |points|
    ensures Safe(start, points[k].disk, job.path, job.data)
    ensures Ended(points[k].stage) ==> Whole(points[k].disk, job.path)
    ensures points[k].stage.Durable? ==> Recovered(points[k].disk, job.path) == Some(job.data)
    ensures points[k].stage.Visible? || points[k].stage.Durable? ==>
      && Flushed(points[k].disk, Entry(points[k].disk.entries, job.path))
      && View(points[k].disk, job.path) == Some(job.data)
      && points[k].disk.entries == start.entries[job.path := points[k].stage.file]
    ensures points[k].stage.Cleared? ==> points[k].disk.entries == start.entries
    ensures points[k].stage.Leftover? ==> points[k].disk.entries == start.entries[job.temporary := points[k].stage.file]
  {
    AttemptKeepsOk(job, start, points, k);
    var p := points[k];
    if p.stage.Visible? || p.stage.Durable? {
      PublishedIsSafe(start, p.disk, job.path, p.stage.file, job.data);
    } else if p.stage != Begun {
      QuietIsSafe(start, p.disk, job.path, job.data);
    }
  }

  /** A power loss: the medium is all that is left, and all of it is durable. */
  function Crash(d: Disk): Disk {
    d.(entries := d.durable, content := d.stored, synced := d.stored.Keys)
  }

  /** After a power loss at any point of an atomic write, the next one can start. */
  lemma CrashLeavesWhole(d: Disk, e: Disk, name: string, data: seq<Byte>)
    requires Whole(d, name) && Safe(d, e, name, data)
    ensures Coherent(Crash(e)) && Whole(Crash(e), name) && View(Crash(e), name) == Recovered(e, name)
  {
  }

  // ---------------------------------------------------------------- the temporary name

  function JobOf(path: string, pid: nat, data: seq<Byte>): Job {
    Job(path, Temporary(path, pid), data)
  }

  /** What snprintf leaves of "<path>.tmp.<pid>" in a buffer of PATH_MAX bytes. */
  function Temporary(path: string, pid: nat): string {
    Truncate(path + ".tmp." + Decimal(pid), PATH_MAX - 1)
  }

  /** The check on the length of the name never fires, and the name is the path itself exactly
      when that fills the buffer. */
  lemma TemporaryDiffers(path: string, pid: nat)
    ensures |Temporary(path, pid)| < PATH_MAX
    ensures Temporary(path, pid) == path <==> |path| == PATH_MAX - 1
  {
    assert (path + ".tmp." + Decimal(pid))[..|path|] == path;
  }

  /** Processes that write the same path use different temporary names, as long as these fit. */
  lemma TemporariesDiffer(path: string, pid: nat, other: nat)
    requires pid != other && |path| + 5 + |Decimal(pid)| < PATH_MAX && |path| + 5 + |Decimal(other)| < PATH_MAX
    ensures Temporary(path, pid) != Temporary(path, other)
  {
    var prefix := path + ".tmp.";
    if Temporary(path, pid) == Temporary(path, other) {
      assert (prefix + Decimal(pid))[|prefix|..] == Decimal(pid);
      assert (prefix + Decimal(other))[|prefix|..] == Decimal(other);
      ValueOfDecimal(pid);
      ValueOfDecimal(other);
    }
  }

  /** Every point of every attempt is safe. */
  ghost predicate AlwaysSafe(job: Job, start: Disk)
    requires Whole(start, job.path)
  {
    forall points: seq<Point>, k :: IsAttempt(job, start, points) && 0 <= k < |points| ==>
                          Safe(start, points[k].disk, job.path, job.data)
  }

  /** For a path of that length whose file does not exist yet, the new content is written in
      place: a power loss can leave any beginning of it. */
  lemma LongestPathIsWrittenInPlace(d: Disk, path: string, pid: nat, data: seq<Byte>, part: nat)
    returns (points: seq<Point>)
    requires Coherent(d) && Whole(d, path) && path !in d.entries && |path| == PATH_MAX - 1 && part < |data|
    ensures IsAttempt(JobOf(path, pid, data), d, points) && |points| == 3
    ensures Recovered(points[2].disk, path) == Some(data[..part]) && !Safe(d, points[2].disk, path, data)
  {
    TemporaryDiffers(path, pid);
    var created := Created(d, path);
    var written := Appended(created, d.next, data);
    var torn := written.(durable := written.entries, stored := written.stored[d.next := data[..part]]);
    points := [Point(d, Begun), Point(created, Open(d.next, 0)), Point(torn, Open(d.next, |data|))];
    assert data[0..|data|] == data;
    assert Moves(JobOf(path, pid, data), points[0], points[1]);
    assert Moves(JobOf(path, pid, data), points[1], points[2]);
  }

  /** Atomic writes of a nonempty content are safe at every point if and only if the path is not
      of that length or the file exists already. */
  lemma AtomicExactly(d: Disk, path: string, pid: nat, data: seq<Byte>)
    requires Coherent(d) && Whole(d, path) && data != []
    ensures AlwaysSafe(JobOf(path, pid, data), d) <==> |path| != PATH_MAX - 1 || path in d.entries
  {
    var job := JobOf(path, pid, data);
    TemporaryDiffers(path, pid);
    if |path| != PATH_MAX - 1 || path in d.entries {
      forall points: seq<Point>, k | IsAttempt(job, d, points) && 0 <= k < |points|
        ensures Safe(d, points[k].disk, job.path, job.data)
      {
        AttemptIsSafe(job, d, points, k);
      }
    } else {
      var points := LongestPathIsWrittenInPlace(d, path, pid, data, 0);
      assert IsAttempt(job, d, points) && 0 <= 2 < |points|;
    }
  }
}
