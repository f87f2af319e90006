/** What an import does when nothing disturbs it, from every state, whatever is left over there from
    imports that were cut short. */
module ImportProgress {
  import opened Base
  import opened ImageImport

  ghost predicate Calls(s: State, pid: Pid, t: State) {
    pid in s.importers && t == Advanced(s, pid)
  }

  /** The states between successive calls of the importer. */
  ghost predicate IsTrace(trace: seq<State>, pid: Pid) {
    forall k, l :: 0 <= k < |trace| - 1 && l == k + 1 ==> Calls(trace[k], pid, trace[l])
  }

  ghost predicate Spans(trace: seq<State>, pid: Pid, n: nat, s: State, t: State) {
    |trace| == n + 1 && trace[0] == s && trace[n] == t && IsTrace(trace, pid)
  }

  /** `n` calls of the importer, and nothing else, take `s` to `t`. */
  ghost predicate Works(s: State, pid: Pid, n: nat, t: State) {
    exists trace :: Spans(trace, pid, n, s, t)
  }

  lemma WorksOn(s: State, pid: Pid, m: nat, t: State, n: nat, u: State)
    requires Works(s, pid, m, t) && Works(t, pid, n, u)
    ensures Works(s, pid, m + n, u)
  {
    var a :| Spans(a, pid, m, s, t);
    var b :| Spans(b, pid, n, t, u);
    var trace := a[..m] + b;
    forall k, l | 0 <= k < |trace| - 1 && l == k + 1 ensures Calls(trace[k], pid, trace[l]) {
      if k < m {
        assert trace[k] == a[k] && trace[l] == a[l];
      } else {
        assert trace[k] == b[k - m] && trace[l] == b[l - m];
      }
    }
    assert Spans(trace, pid, m + n, s, u);
  }

  lemma WorksThrough(s: State, pid: Pid, a: nat, s1: State, b: nat, s2: State, c: nat, t: State)
    requires Works(s, pid, a, s1) && Works(s1, pid, b, s2) && Works(s2, pid, c, t)
    ensures Works(s, pid, a + b + c, t)
  {
    WorksOn(s, pid, a, s1, b, s2);
    WorksOn(s, pid, a + b, s2, c, t);
  }

  lemma NoCall(s: State, pid: Pid)
    ensures Works(s, pid, 0, s)
  {
    assert Spans([s], pid, 0, s, s);
  }

  lemma OneCall(s: State, pid: Pid, t: State)
    requires Calls(s, pid, t)
    ensures Works(s, pid, 1, t)
  {
    assert Spans([s, t], pid, 1, s, t);
  }

  lemma TwoCalls(s: State, pid: Pid, t: State, u: State)
    requires Calls(s, pid, t) && Calls(t, pid, u)
    ensures Works(s, pid, 2, u)
  {
    assert Spans([s, t, u], pid, 2, s, u);
  }

  /** The importer at `pc`, with `staged` in its staging directory. */
  function At(s: State, pid: Pid, me: Importer, staged: Directory): State {
    s.(importers := s.importers[pid := me], staging := s.staging[(me.digest, pid) := staged])
  }

  /** A call that leaves images and names alone. */
  lemma CallInPlace(s: State, pid: Pid, me: Importer, staged: Directory, pc: Pc, after: Directory)
    requires me.pc.Stage? || me.pc.Extract? || me.pc.Extracting? || me.pc.Mark?
    requires NextPc(At(s, pid, me, staged), me) == Some(pc)
    requires var kept := NextStaged(At(s, pid, me, staged), me, staged);
             after == if kept.Some? then kept.value else staged
    ensures Works(At(s, pid, me, staged), pid, 1, At(s, pid, me.(pc := pc), after))
  {
    var here, there := At(s, pid, me, staged), At(s, pid, me.(pc := pc), after);
    assert here.staging[(me.digest, pid) := after] == there.staging && here.staging[(me.digest, pid)] == staged;
    assert here.importers[pid := me.(pc := pc)] == there.importers;
    OneCall(here, pid, there);
  }

  /** One archive entry: two calls, whether or not it was there before. */
  lemma EntryIsExtracted(s: State, pid: Pid, me: Importer, staged: Directory, entry: nat)
    requires me.pc == Extract(entry) && me.digest in s.archives && entry < s.archives[me.digest]
    ensures Works(At(s, pid, me, staged), pid, 2,
                  At(s, pid, me.(pc := Extract(entry + 1)), staged.(files := staged.files + {entry})))
  {
    var without := staged.(files := staged.files - {entry});
    CallInPlace(s, pid, me, staged, Extracting(entry), without);
    assert staged.files - {entry} + {entry} == staged.files + {entry};
    var writing := me.(pc := Extracting(entry));
    CallInPlace(s, pid, writing, without, Extract(entry + 1), staged.(files := staged.files + {entry}));
    WorksOn(At(s, pid, me, staged), pid, 1, At(s, pid, writing, without), 1,
            At(s, pid, me.(pc := Extract(entry + 1)), staged.(files := staged.files + {entry})));
  }

  lemma {:induction false} RestIsExtracted(s: State, pid: Pid, me: Importer, staged: Directory, entry: nat)
    returns (files: set<nat>)
    requires me.pc == Extract(entry) && me.digest in s.archives && entry <= s.archives[me.digest]
    requires HasFirst(staged.files, entry)
    ensures var count := s.archives[me.digest];
            && HasFirst(files, count)
            && Works(At(s, pid, me, staged), pid, 2 * (count - entry),
                     At(s, pid, me.(pc := Extract(count)), staged.(files := files)))
    decreases s.archives[me.digest] - entry
  {
    var count := s.archives[me.digest];
    if entry == count {
      files := staged.files;
      NoCall(At(s, pid, me, staged), pid);
    } else {
      var next, more := me.(pc := Extract(entry + 1)), staged.(files := staged.files + {entry});
      EntryIsExtracted(s, pid, me, staged, entry);
      files := RestIsExtracted(s, pid, next, more, entry + 1);
      WorksOn(At(s, pid, me, staged), pid, 2, At(s, pid, next, more), 2 * (count - entry - 1),
              At(s, pid, me.(pc := Extract(count)), staged.(files := files)));
    }
  }

  /** Once all is extracted, five calls mark, rename, publish and flush. */
  function Settled(s: State, pid: Pid, name: Name, digest: Digest, staged: Directory): State {
    s.(importers := s.importers - {pid}, staging := s.staging - {(digest, pid)},
       images := s.images[digest := staged.(marker := true, storedMarker := true)],
       names := s.names[name := digest], flushedNames := s.names[name := digest])
  }

  lemma RenamedIsSettled(s: State, pid: Pid, name: Name, digest: Digest, staged: Directory)
    requires digest !in s.images
    ensures Works(At(s, pid, Importer(Rename, name, digest), staged), pid, 3,
                  s.(importers := s.importers - {pid}, staging := s.staging - {(digest, pid)},
                     images := s.images[digest := staged], names := s.names[name := digest],
                     flushedNames := s.names[name := digest]))
  {
    var key, s0 := (digest, pid), At(s, pid, Importer(Rename, name, digest), staged);
    var s1 := Advanced(s0, pid);
    assert s0.staging - {key} == s.staging - {key};
    assert s1 == s.(importers := s.importers[pid := Importer(Publish, name, digest)], staging := s.staging - {key},
                    images := s.images[digest := staged]);
    OneCall(s0, pid, s1);
    PublishedIsSettled(s1, pid, name, digest);
    assert s1.importers - {pid} == s.importers - {pid};
    WorksOn(s0, pid, 1, s1, 2, s1.(importers := s.importers - {pid}, names := s.names[name := digest],
                                   flushedNames := s.names[name := digest]));
  }

  lemma PublishedIsSettled(s: State, pid: Pid, name: Name, digest: Digest)
    requires pid in s.importers && s.importers[pid] == Importer(Publish, name, digest)
    ensures Works(s, pid, 2, s.(importers := s.importers - {pid}, names := s.names[name := digest],
                                flushedNames := s.names[name := digest]))
  {
    var s1 := Advanced(s, pid);
    var s2 := Advanced(s1, pid);
    assert s1.importers - {pid} == s.importers - {pid};
    TwoCalls(s, pid, s1, s2);
  }

  lemma ExtractedIsSettled(s: State, pid: Pid, me: Importer, staged: Directory)
    requires me.digest !in s.images && me.digest in s.archives && me.pc == Extract(s.archives[me.digest])
    ensures Works(At(s, pid, me, staged), pid, 5, Settled(s, pid, me.name, me.digest, staged))
  {
    var marked := staged.(marker := true, storedMarker := true);
    var marking, renaming := me.(pc := Mark), me.(pc := Rename);
    CallInPlace(s, pid, me, staged, Mark, staged);
    CallInPlace(s, pid, marking, staged, Rename, marked);
    RenamedIsSettled(s, pid, me.name, me.digest, marked);
    WorksOn(At(s, pid, marking, staged), pid, 1, At(s, pid, renaming, marked), 3,
            Settled(s, pid, me.name, me.digest, staged));
    WorksOn(At(s, pid, me, staged), pid, 1, At(s, pid, marking, staged), 4,
            Settled(s, pid, me.name, me.digest, staged));
  }

  lemma BegunIsStaged(s: State, pid: Pid, name: Name, digest: Digest)
    requires Enabled(s, Begin(pid, name, digest)) && digest !in s.images
    ensures var begun := Next(s, Begin(pid, name, digest));
            Works(begun, pid, 3, At(begun, pid, Importer(Extract(0), name, digest), Staged(s, (digest, pid))))
  {
    var begun := Next(s, Begin(pid, name, digest));
    var s1 := Advanced(begun, pid);
    var s2 := Advanced(s1, pid);
    var s3 := Advanced(s2, pid);
    assert s1 == begun.(importers := begun.importers[pid := Importer(CheckBase, name, digest)]);
    assert s2 == begun.(importers := begun.importers[pid := Importer(Stage, name, digest)]);
    assert s3 == At(begun, pid, Importer(Extract(0), name, digest), Staged(s, (digest, pid)));
    TwoCalls(begun, pid, s1, s2);
    OneCall(s2, pid, s3);
    WorksOn(begun, pid, 2, s2, 1, s3);
  }

  /** An undisturbed import of an archive with n entries takes 2n + 8 calls. It leaves its name
      published and flushed, leading to a marked directory with every entry, no staging directory,
      and everything else as it was. */
  lemma ImportCompletes(s: State, pid: Pid, name: Name, digest: Digest) returns (directory: Directory, t: State)
    requires Enabled(s, Begin(pid, name, digest)) && digest !in s.images
    ensures Works(Next(s, Begin(pid, name, digest)), pid, 2 * s.archives[digest] + 8, t)
    ensures HasFirst(directory.files, s.archives[digest]) && directory.marker && directory.storedMarker
    ensures t == s.(staging := s.staging - {(digest, pid)}, images := s.images[digest := directory],
                    names := s.names[name := digest], flushedNames := s.names[name := digest],
                    requested := s.requested + {(name, digest)})
  {
    var begun, staged := Next(s, Begin(pid, name, digest)), Staged(s, (digest, pid));
    var me, count := Importer(Extract(0), name, digest), s.archives[digest];
    BegunIsStaged(s, pid, name, digest);
    var files := RestIsExtracted(begun, pid, me, staged, 0);
    var done := me.(pc := Extract(count));
    ExtractedIsSettled(begun, pid, done, staged.(files := files));
    directory := staged.(files := files, marker := true, storedMarker := true);
    t := Settled(begun, pid, name, digest, staged.(files := files));
    WorksThrough(begun, pid, 3, At(begun, pid, me, staged), 2 * count,
                 At(begun, pid, done, staged.(files := files)), 5, t);
    assert t.importers == s.importers;
  }

  /** If a marked directory of the archive is there, three calls publish the name for it. */
  lemma RepeatedImportCompletes(s: State, pid: Pid, name: Name, digest: Digest)
    requires Enabled(s, Begin(pid, name, digest)) && digest in s.images && s.images[digest].marker
    ensures Works(Next(s, Begin(pid, name, digest)), pid, 3,
                  s.(names := s.names[name := digest], flushedNames := s.names[name := digest],
                     requested := s.requested + {(name, digest)}))
  {
    var begun := Next(s, Begin(pid, name, digest));
    var s1 := Advanced(begun, pid);
    OneCall(begun, pid, s1);
    PublishedIsSettled(s1, pid, name, digest);
    assert s1.importers - {pid} == s.importers;
    WorksOn(begun, pid, 1, s1, 2, s.(names := s.names[name := digest], flushedNames := s.names[name := digest],
                                     requested := s.requested + {(name, digest)}));
  }

  /** A directory without its marker makes the import give up, with nothing changed. */
  lemma UnmarkedDirectoryRefuses(s: State, pid: Pid, name: Name, digest: Digest)
    requires Enabled(s, Begin(pid, name, digest)) && digest in s.images && !s.images[digest].marker
    ensures Works(Next(s, Begin(pid, name, digest)), pid, 2, s.(requested := s.requested + {(name, digest)}))
  {
    var begun := Next(s, Begin(pid, name, digest));
    var s1 := Advanced(begun, pid);
    var s2 := Advanced(s1, pid);
    assert s2.importers == s.importers;
    TwoCalls(begun, pid, s1, s2);
  }

  /** An import that finds at its rename that another has come first gives up and leaves its staging
      directory behind. */
  lemma LateImportGivesUp(s: State, pid: Pid, name: Name, digest: Digest)
    requires pid in s.importers && s.importers[pid] == Importer(Rename, name, digest) && digest in s.images
    ensures Advanced(s, pid) == s.(importers := s.importers - {pid})
  {
  }

  // ---------------------------------------------------------------- what it takes to survive

  /** The first `n` files of the image are written back, one after the other. */
  function Flushed(s: State, digest: Digest, n: nat): State
    requires digest in s.images
    ensures digest in Flushed(s, digest, n).images
  {
    if n == 0 then s else Next(Flushed(s, digest, n - 1), FlushImageFile(digest, n - 1))
  }

  lemma {:induction false} FlushedIsStored(s: State, digest: Digest, n: nat)
    requires digest in s.images && HasFirst(s.images[digest].files, n)
    ensures var d, e := s.images[digest], Flushed(s, digest, n).images[digest];
            && HasFirst(e.stored, n) && e == d.(stored := e.stored)
            && Flushed(s, digest, n) == s.(images := s.images[digest := e])
  {
    if n == 0 {
      assert s.images[digest := s.images[digest]] == s.images;
    } else {
      FlushedIsStored(s, digest, n - 1);
      var before, after := Flushed(s, digest, n - 1), Flushed(s, digest, n);
      assert after.images[digest].stored == before.images[digest].stored + {n - 1};
      assert before.images[digest := after.images[digest]] == s.images[digest := after.images[digest]];
    }
  }

  /** A published image survives a power loss, complete, once its name, all its files and its rename
      have been written back. */
  lemma WrittenBackImageSurvives(s: State, name: Name, digest: Digest)
    requires Inv(s) && digest in s.images && Complete(s, digest, s.images[digest])
    requires name in s.flushedNames && s.flushedNames[name] == digest
    ensures var t := AfterPowerLoss(Next(Flushed(s, digest, s.archives[digest]), FlushRename(digest)));
            Resolve(t, name).Some? && Complete(t, digest, Resolve(t, name).value)
  {
    FlushedIsStored(s, digest, s.archives[digest]);
  }

  /** A power loss that undoes a rename brings the directory back under the name it was staged under,
      with the files that had been written back. */
  lemma LostRenameReappears(s: State, digest: Digest)
    requires digest in s.images && digest !in s.flushedImages
    requires (digest, s.images[digest].owner) in s.flushedStaging && (digest, s.images[digest].owner) !in s.staging
    ensures var key, t := (digest, s.images[digest].owner), AfterPowerLoss(s);
            && digest !in t.images && key in t.staging && t.staging[key].files == s.images[digest].stored
            && t.staging[key].marker == s.images[digest].storedMarker
  {
  }

  /** A staging directory that has reached the medium survives with the files written back; one that
      has not is gone. */
  lemma StagingAfterPowerLoss(s: State, key: Key)
    requires key in s.staging
    ensures var t := AfterPowerLoss(s);
            && (key in t.staging <==> key in s.flushedStaging)
            && (key in t.staging ==> t.staging[key].files == s.staging[key].stored)
  {
  }

  /** Writing a rename back settles it: the directory has its final name on the medium, and that name
      only. */
  lemma FlushedRenameIsFinal(s: State, digest: Digest)
    requires digest in s.images && (digest, s.images[digest].owner) !in s.staging
    ensures var key, flushed := (digest, s.images[digest].owner), Next(s, FlushRename(digest));
            var t := AfterPowerLoss(flushed);
            && digest in t.images && t.images[digest].files == s.images[digest].stored
            && key !in t.staging && key !in flushed.flushedStaging
  {
  }

  /** A name or a staging directory that is written back survives a power loss. */
  lemma WrittenBackEntriesSurvive(s: State, name: Name, key: Key)
    requires name in s.names && key in s.staging
    ensures AfterPowerLoss(Next(s, FlushName(name))).names == s.flushedNames[name := s.names[name]]
    ensures key in AfterPowerLoss(Next(s, FlushStaging(key))).staging
  {
  }

  /** A name whose record leads to a directory without its marker does not resolve. */
  lemma UnmarkedDoesNotResolve(s: State, name: Name)
    ensures Resolve(s, name).Some? ==> name in s.names && s.names[name] in s.images && Resolve(s, name).value.marker
    ensures name in s.names && s.names[name] in s.images && s.images[s.names[name]].marker ==>
              Resolve(s, name) == Some(s.images[s.names[name]])
  {
  }
}
