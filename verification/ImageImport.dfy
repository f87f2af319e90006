/** Publication of images by concurrent importers: the steps of mc_image_import and the lookup of
    mc_image_resolve in src/image/import.c. Any process may stop at any step, the system writes
    back what it likes when it likes, and the power may fail; runs go on after that. */
module ImageImport {
  import opened Base

  type Pid = nat
  type Digest = string
  type Name = string
  type Key = (Digest, Pid)

  /** An image directory: the archive entries extracted in full and the completion marker, as
      processes see them (`files`, `marker`) and as a power loss would leave them (`stored`,
      `storedMarker`). `owner` is the pid in the name it was staged under. */
  datatype Directory = Directory(owner: Pid, files: set<nat>, marker: bool, stored: set<nat>, storedMarker: bool)

  datatype Pc =
    | CheckMarker
    | CheckBase
    | Stage
    | Extract(entry: nat)    // entries before this one are done
    | Extracting(entry: nat) // this one is being written
    | Mark
    | Rename
    | Publish
    | Settle                 // the name is visible; its directory is still to be flushed

  datatype Importer = Importer(pc: Pc, name: Name, digest: Digest)

  /** `archives` gives the number of entries of each archive. A staging directory is named after
      the digest and the importer's pid, and outlives an importer that stops. `requested` keeps
      the imports ever asked for. The flushed fields tell which directory entries would survive a
      power loss. */
  datatype State = State(
    archives: map<Digest, nat>, importers: map<Pid, Importer>, requested: set<(Name, Digest)>,
    staging: map<Key, Directory>, images: map<Digest, Directory>, names: map<Name, Digest>,
    flushedStaging: set<Key>, flushedImages: set<Digest>, flushedNames: map<Name, Digest>)

  datatype Step =
    | Begin(pid: Pid, name: Name, digest: Digest)
    | Advance(pid: Pid)
    | Stop(pid: Pid) // a failing call, or a crash
    | FlushStagedFile(key: Key, entry: nat)
    | FlushImageFile(digest: Digest, entry: nat)
    | FlushStaging(key: Key)
    | FlushRename(digest: Digest)
    | FlushName(name: Name)
    | PowerLoss

  function Staged(s: State, key: Key): Directory {
    if key in s.staging then s.staging[key] else Directory(key.1, {}, false, {}, false)
  }

  function Gone(s: State, pid: Pid): State {
    s.(importers := s.importers - {pid})
  }

  /** Where the next file system call takes an importer; None when it gives up or is done.
      rename(2) refuses to replace a directory that is not empty. */
  function NextPc(s: State, me: Importer): Option<Pc> {
    var present := me.digest in s.images;
    match me.pc
    case CheckMarker => Some(if present && s.images[me.digest].marker then Publish else CheckBase)
    case CheckBase => if present then None else Some(Stage)
    case Stage => Some(Extract(0))
    case Extract(entry) =>
      Some(if me.digest in s.archives && entry < s.archives[me.digest] then Extracting(entry) else Mark)
    case Extracting(entry) => Some(Extract(entry + 1))
    case Mark => Some(Rename)
    case Rename => if present then None else Some(Publish)
    case Publish => Some(Settle)
    case Settle => None
  }

  /** What the call leaves in the importer's staging directory, if it works there. The marker is
      written atomically and flushed; extracted files are not. */
  function NextStaged(s: State, me: Importer, staged: Directory): Option<Directory> {
    match me.pc
    case Stage => Some(staged)
    case Extract(entry) =>
      if NextPc(s, me) == Some(Mark) then None else Some(staged.(files := staged.files - {entry}))
    case Extracting(entry) => Some(staged.(files := staged.files + {entry}))
    case Mark => Some(staged.(marker := true, storedMarker := true))
    case _ => None
  }

  function Advanced(s: State, pid: Pid): State
    requires pid in s.importers
  {
    var me := s.importers[pid];
    var key := (me.digest, pid);
    var moves := me.pc == Rename && me.digest !in s.images;
    var pc, staged := NextPc(s, me), NextStaged(s, me, Staged(s, key));
    s.(importers := if pc.Some? then s.importers[pid := me.(pc := pc.value)] else s.importers - {pid},
       staging :=
         if moves then s.staging - {key} else if staged.Some? then s.staging[key := staged.value] else s.staging,
       images := if moves then s.images[me.digest := Staged(s, key)] else s.images,
       names := if me.pc == Publish then s.names[me.name := me.digest] else s.names,
       flushedNames := if me.pc == Settle then s.names else s.flushedNames)
  }

  /** Writing back one file: the medium then has it exactly if the directory has. */
  function WrittenBack(directory: Directory, entry: nat): Directory {
    directory.(stored := if entry in directory.files then directory.stored + {entry} else directory.stored - {entry})
  }

  function Recovered(directory: Directory): Directory {
    directory.(files := directory.stored, marker := directory.storedMarker)
  }

  /** The directory that the medium has under a staging name, be it that its rename is lost. */
  function Survivor(s: State, key: Key): Option<Directory> {
    if key !in s.flushedStaging then None
    else if key in s.staging then Some(s.staging[key])
    else if key.0 in s.images && key.0 !in s.flushedImages && s.images[key.0].owner == key.1 then Some(s.images[key.0])
    else None
  }

  function AfterPowerLoss(s: State): State {
    var staging := map key | key in s.flushedStaging && Survivor(s, key).Some? :: Recovered(Survivor(s, key).value);
    var images := map digest | digest in s.images && digest in s.flushedImages :: Recovered(s.images[digest]);
    s.(importers := map[], staging := staging, images := images, names := s.flushedNames,
       flushedStaging := staging.Keys, flushedImages := images.Keys)
  }

  predicate Enabled(s: State, step: Step) {
    match step
    case Begin(pid, _, digest) => pid !in s.importers && digest in s.archives
    case Advance(pid) => pid in s.importers
    case Stop(pid) => pid in s.importers
    case FlushStagedFile(key, _) => key in s.staging
    case FlushImageFile(digest, _) => digest in s.images
    case FlushStaging(key) => key in s.staging
    case FlushRename(digest) => digest in s.images
    case FlushName(name) => name in s.names
    case PowerLoss => true
  }

  function Next(s: State, step: Step): State
    requires Enabled(s, step)
  {
    match step
    case Begin(pid, name, digest) =>
      s.(importers := s.importers[pid := Importer(CheckMarker, name, digest)],
         requested := s.requested + {(name, digest)})
    case Advance(pid) => Advanced(s, pid)
    case Stop(pid) => Gone(s, pid)
    case FlushStagedFile(key, entry) => s.(staging := s.staging[key := WrittenBack(s.staging[key], entry)])
    case FlushImageFile(digest, entry) => s.(images := s.images[digest := WrittenBack(s.images[digest], entry)])
    case FlushStaging(key) => s.(flushedStaging := s.flushedStaging + {key})
    case FlushRename(digest) =>
      s.(flushedImages := s.flushedImages + {digest},
         flushedStaging := s.flushedStaging - {(digest, s.images[digest].owner)})
    case FlushName(name) => s.(flushedNames := s.flushedNames[name := s.names[name]])
    case PowerLoss => AfterPowerLoss(s)
  }

  predicate Initially(s: State) {
    && s.importers == map[] && s.requested == {} && s.staging == map[] && s.images == map[] && s.names == map[]
    && s.flushedStaging == {} && s.flushedImages == {} && s.flushedNames == map[]
  }

  ghost predicate IsRun(states: seq<State>, steps: seq<Step>) {
    && |states| == |steps| + 1 && Initially(states[0])
    && forall k, l :: 0 <= k < |steps| && l == k + 1 ==> Follows(states[k], steps[k], states[l])
  }

  predicate Follows(s: State, step: Step, t: State) {
    Enabled(s, step) && t == Next(s, step)
  }

  /** The first `count` steps contain no power loss. */
  predicate Calm(steps: seq<Step>, count: nat)
    requires count <= |steps|
  {
    forall k :: 0 <= k < count ==> steps[k] != PowerLoss
  }

  // ---------------------------------------------------------------- invariant

  predicate HasFirst(files: set<nat>, count: nat) {
    forall k :: 0 <= k < count ==> k in files
  }

  predicate Within(files: set<nat>, count: nat) {
    forall k :: k in files ==> k < count
  }

  /** Every entry of the archive is there, and the marker says so. */
  predicate Complete(s: State, digest: Digest, directory: Directory) {
    digest in s.archives && HasFirst(directory.files, s.archives[digest]) && directory.marker
  }

  predicate StagingOk(s: State, key: Key, directory: Directory) {
    && key.0 in s.archives && directory.owner == key.1
    && Within(directory.files, s.archives[key.0]) && Within(directory.stored, s.archives[key.0])
  }

  predicate ImageOk(s: State, digest: Digest, directory: Directory) {
    && digest in s.archives && directory.marker && directory.storedMarker && directory.stored <= directory.files
    && Within(directory.files, s.archives[digest])
  }

  predicate ImporterOk(s: State, pid: Pid)
    requires pid in s.importers
  {
    var me := s.importers[pid];
    var staged := Staged(s, (me.digest, pid));
    && me.digest in s.archives && (me.name, me.digest) in s.requested
    && match me.pc
       case CheckMarker => true
       case CheckBase => true
       case Stage => true
       case Extract(entry) => entry <= s.archives[me.digest] && HasFirst(staged.files, entry)
       case Extracting(entry) => entry < s.archives[me.digest] && HasFirst(staged.files, entry)
       case Mark => HasFirst(staged.files, s.archives[me.digest])
       case Rename => Complete(s, me.digest, staged) && staged.storedMarker
       case Publish => me.digest in s.images
       case Settle => me.name in s.names
  }

  ghost predicate Inv(s: State) {
    && (forall key :: key in s.staging ==> StagingOk(s, key, s.staging[key]))
    && (forall digest :: digest in s.images ==> ImageOk(s, digest, s.images[digest]))
    && s.flushedImages <= s.images.Keys && s.flushedNames.Keys <= s.names.Keys
    && (forall name :: name in s.names ==> (name, s.names[name]) in s.requested)
    && (forall name :: name in s.flushedNames ==> (name, s.flushedNames[name]) in s.requested)
    && (forall pid :: pid in s.importers ==> ImporterOk(s, pid))
  }

  lemma AdvanceKeepsOwn(s: State, pid: Pid)
    requires Inv(s) && pid in s.importers
    ensures var t := Advanced(s, pid); pid in t.importers ==> ImporterOk(t, pid)
  {
  }

  lemma AdvanceKeepsDirectories(s: State, pid: Pid)
    requires Inv(s) && pid in s.importers
    ensures var t := Advanced(s, pid);
            && (forall key :: key in t.staging ==> StagingOk(t, key, t.staging[key]))
            && (forall digest :: digest in t.images ==> ImageOk(t, digest, t.images[digest]))
            && t.flushedImages <= t.images.Keys
  {
  }

  lemma AdvanceKeepsOthers(s: State, pid: Pid, other: Pid)
    requires Inv(s) && pid in s.importers && other in Advanced(s, pid).importers && other != pid
    ensures ImporterOk(Advanced(s, pid), other)
  {
  }

  lemma AdvanceKeepsInv(s: State, pid: Pid)
    requires Inv(s) && pid in s.importers
    ensures Inv(Advanced(s, pid))
  {
    var t := Advanced(s, pid);
    AdvanceKeepsOwn(s, pid);
    AdvanceKeepsDirectories(s, pid);
    forall other | other in t.importers && other != pid ensures ImporterOk(t, other) {
      AdvanceKeepsOthers(s, pid, other);
    }
  }

  lemma FlushKeepsInv(s: State, step: Step)
    requires Inv(s) && Enabled(s, step) && (step.FlushStagedFile? || step.FlushImageFile?)
    ensures Inv(Next(s, step))
  {
    var t := Next(s, step);
    forall pid | pid in t.importers ensures ImporterOk(t, pid) {
      assert ImporterOk(s, pid);
    }
  }

  lemma PowerLossKeepsInv(s: State)
    requires Inv(s)
    ensures Inv(AfterPowerLoss(s))
  {
  }

  lemma OtherKeepsInv(s: State, step: Step)
    requires Inv(s) && Enabled(s, step)
    requires !step.Advance? && !step.FlushStagedFile? && !step.FlushImageFile? && !step.PowerLoss?
    ensures Inv(Next(s, step))
  {
  }

  lemma StepKeepsInv(s: State, step: Step)
    requires Inv(s) && Enabled(s, step)
    ensures Inv(Next(s, step))
  {
    match step
    case Advance(pid) => AdvanceKeepsInv(s, pid);
    case FlushStagedFile(_, _) => FlushKeepsInv(s, step);
    case FlushImageFile(_, _) => FlushKeepsInv(s, step);
    case PowerLoss => PowerLossKeepsInv(s);
    case _ => OtherKeepsInv(s, step);
  }

  lemma InitialInv(s: State)
    requires Initially(s)
    ensures Inv(s)
  {
  }

  lemma {:induction false} RunKeepsInv(states: seq<State>, steps: seq<Step>, k: nat)
    requires IsRun(states, steps) && k < |states|
    ensures Inv(states[k])
  {
    if k == 0 {
      InitialInv(states[0]);
    } else {
      RunKeepsInv(states, steps, k - 1);
      assert Follows(states[k - 1], steps[k - 1], states[k]);
      StepKeepsInv(states[k - 1], steps[k - 1]);
    }
  }

  // ---------------------------------------------------------------- when a name resolves

  /** mc_image_resolve: the directory that a name leads to, if its marker is there. */
  function Resolve(s: State, name: Name): Option<Directory> {
    if name in s.names && s.names[name] in s.images && s.images[s.names[name]].marker
    then Some(s.images[s.names[name]]) else None
  }

  /** In every run, power losses included, a name resolves exactly when it is published and its
      directory is there: no directory is ever without its marker. It was asked for under that name. */
  lemma NameResolvesExactly(states: seq<State>, steps: seq<Step>, k: nat, name: Name)
    requires IsRun(states, steps) && k < |states|
    ensures var s := states[k];
            && (Resolve(s, name).Some? <==> name in s.names && s.names[name] in s.images)
            && (name in s.names ==> (name, s.names[name]) in s.requested)
  {
    RunKeepsInv(states, steps, k);
  }

  /** What survives a power loss: the names that were flushed resolve exactly if the renames of
      their directories were, and lead to complete directories exactly if every file was, too. */
  lemma PowerLossLeaves(s: State, name: Name)
    requires Inv(s)
    ensures var t := AfterPowerLoss(s);
            && (Resolve(t, name).Some? <==> name in s.flushedNames && s.flushedNames[name] in s.flushedImages)
            && (Resolve(t, name).Some? ==>
                  (Complete(t, t.names[name], Resolve(t, name).value) <==>
                   HasFirst(s.images[t.names[name]].stored, s.archives[t.names[name]])))
  {
  }

  /** An import that ends well has flushed its name: whatever digest the name has then, it still has
      after a power loss, and it resolves exactly if that digest's rename was flushed. */
  lemma CompletedImportIsDurable(states: seq<State>, steps: seq<Step>, k: nat, pid: Pid)
    requires IsRun(states, steps) && k < |steps| && steps[k] == Advance(pid)
    requires pid in states[k].importers && states[k].importers[pid].pc == Settle
    ensures var name, s := states[k].importers[pid].name, states[k + 1];
            var t := AfterPowerLoss(s);
            && pid !in s.importers && name in s.names && name in t.names && t.names[name] == s.names[name]
            && (Resolve(t, name).Some? <==> s.names[name] in s.flushedImages)
  {
    RunKeepsInv(states, steps, k);
    RunKeepsInv(states, steps, k + 1);
    assert Follows(states[k], steps[k], states[k + 1]);
    PowerLossLeaves(states[k + 1], states[k].importers[pid].name);
  }

  lemma FlushedNameStays(s: State, step: Step, name: Name)
    requires Inv(s) && Enabled(s, step) && name in s.flushedNames
    ensures name in Next(s, step).flushedNames
  {
  }

  /** A name that has reached the medium stays published for good. */
  lemma {:induction false} FlushedNameStaysPublished(states: seq<State>, steps: seq<Step>, k: nat, later: nat,
                                                     name: Name)
    requires IsRun(states, steps) && k <= later < |states| && name in states[k].flushedNames
    ensures name in states[later].flushedNames && name in states[later].names
    decreases later
  {
    RunKeepsInv(states, steps, later);
    if k < later {
      FlushedNameStaysPublished(states, steps, k, later - 1, name);
      RunKeepsInv(states, steps, later - 1);
      assert Follows(states[later - 1], steps[later - 1], states[later]);
      FlushedNameStays(states[later - 1], steps[later - 1], name);
    }
  }

  /** Whatever happens after an import has ended well, power losses included, its name stays
      published. */
  lemma CompletedImportStaysPublished(states: seq<State>, steps: seq<Step>, k: nat, pid: Pid, later: nat)
    requires IsRun(states, steps) && k < |steps| && steps[k] == Advance(pid) && k < later < |states|
    requires pid in states[k].importers && states[k].importers[pid].pc == Settle
    ensures states[k].importers[pid].name in states[later].names
  {
    var name := states[k].importers[pid].name;
    RunKeepsInv(states, steps, k);
    assert Follows(states[k], steps[k], states[k + 1]);
    assert name in states[k + 1].flushedNames;
    FlushedNameStaysPublished(states, steps, k + 1, later, name);
  }

  /** An import ends by itself in two ways: its name is published, or another process has published
      the directory of the archive meanwhile. */
  lemma ImportEnds(states: seq<State>, steps: seq<Step>, k: nat, pid: Pid)
    requires IsRun(states, steps) && k < |steps| && steps[k] == Advance(pid)
    requires pid in states[k].importers && pid !in states[k + 1].importers
    ensures var me := states[k].importers[pid];
            if me.pc == Settle then me.name in states[k + 1].names
            else me.digest in states[k].images && states[k + 1].names == states[k].names
  {
    RunKeepsInv(states, steps, k);
    assert Follows(states[k], steps[k], states[k + 1]);
  }

  // ---------------------------------------------------------------- when a directory is complete

  /** A power loss that keeps the directory of a digest but not all of its files. */
  predicate Damages(s: State, step: Step, digest: Digest) {
    && step == PowerLoss && digest in s.flushedImages && digest in s.images && digest in s.archives
    && !HasFirst(s.images[digest].stored, s.archives[digest])
  }

  ghost predicate DamagedBefore(states: seq<State>, steps: seq<Step>, k: nat, digest: Digest)
    requires k <= |steps| < |states|
  {
    exists j :: 0 <= j < k && Damages(states[j], steps[j], digest)
  }

  lemma StepKeepsImages(s: State, step: Step, digest: Digest)
    requires Inv(s) && Enabled(s, step) && digest in s.images && step != PowerLoss
    ensures var t := Next(s, step);
            && digest in t.images && t.archives == s.archives && t.images[digest].files == s.images[digest].files
            && t.images[digest].marker == s.images[digest].marker
            && s.flushedImages <= t.flushedImages
  {
  }

  lemma StepCreatesCompleteImages(s: State, step: Step, digest: Digest)
    requires Inv(s) && Enabled(s, step) && digest !in s.images && digest in Next(s, step).images
    ensures Complete(Next(s, step), digest, Next(s, step).images[digest])
  {
  }

  /** A directory that has reached the medium under its final name stays there for good. */
  lemma {:induction false} FlushedImageStays(states: seq<State>, steps: seq<Step>, k: nat, later: nat, digest: Digest)
    requires IsRun(states, steps) && k <= later < |states| && digest in states[k].flushedImages
    ensures digest in states[later].flushedImages && digest in states[later].images
    decreases later
  {
    RunKeepsInv(states, steps, later);
    if k < later {
      FlushedImageStays(states, steps, k, later - 1, digest);
      RunKeepsInv(states, steps, later - 1);
      assert Follows(states[later - 1], steps[later - 1], states[later]);
      if steps[later - 1] != PowerLoss {
        StepKeepsImages(states[later - 1], steps[later - 1], digest);
      }
    }
  }

  lemma DamagedImageWasThere(states: seq<State>, steps: seq<Step>, k: nat, digest: Digest)
    requires IsRun(states, steps) && k <= |steps| && DamagedBefore(states, steps, k, digest)
    ensures digest in states[k].images
  {
    var j :| 0 <= j < k && Damages(states[j], steps[j], digest);
    FlushedImageStays(states, steps, j, k, digest);
  }

  lemma DamageSpreads(states: seq<State>, steps: seq<Step>, k: nat, digest: Digest)
    requires IsRun(states, steps) && k < |steps|
    ensures DamagedBefore(states, steps, k + 1, digest) <==>
            DamagedBefore(states, steps, k, digest) || Damages(states[k], steps[k], digest)
  {
  }

  /** In every run, an image directory lacks an entry exactly if some power loss kept the directory
      and not the entry. */
  lemma {:induction false} ImageIsIncompleteExactly(states: seq<State>, steps: seq<Step>, k: nat, digest: Digest)
    requires IsRun(states, steps) && k < |states| && digest in states[k].images
    ensures !Complete(states[k], digest, states[k].images[digest]) <==> DamagedBefore(states, steps, k, digest)
  {
    if k > 0 {
      var s, step := states[k - 1], steps[k - 1];
      RunKeepsInv(states, steps, k - 1);
      assert Follows(s, step, states[k]);
      DamageSpreads(states, steps, k - 1, digest);
      if digest in s.images {
        ImageIsIncompleteExactly(states, steps, k - 1, digest);
        if step != PowerLoss {
          StepKeepsImages(s, step, digest);
        }
      } else {
        StepCreatesCompleteImages(s, step, digest);
        if DamagedBefore(states, steps, k - 1, digest) {
          DamagedImageWasThere(states, steps, k - 1, digest);
        }
      }
    }
  }

  /** No later import repairs a damaged image: it stays, marked and incomplete. */
  lemma DamageIsPermanent(states: seq<State>, steps: seq<Step>, k: nat, later: nat, digest: Digest)
    requires IsRun(states, steps) && k <= later < |states| && digest in states[k].images
    requires !Complete(states[k], digest, states[k].images[digest])
    ensures digest in states[later].images && states[later].images[digest].marker
    ensures !Complete(states[later], digest, states[later].images[digest])
  {
    ImageIsIncompleteExactly(states, steps, k, digest);
    var j :| 0 <= j < k && Damages(states[j], steps[j], digest);
    FlushedImageStays(states, steps, j, later, digest);
    ImageIsIncompleteExactly(states, steps, later, digest);
    RunKeepsInv(states, steps, later);
  }

  // ---------------------------------------------------------------- without a power loss

  ghost predicate NamesLead(s: State) {
    && (forall name :: name in s.names ==> s.names[name] in s.images)
    && (forall name :: name in s.flushedNames ==> s.flushedNames[name] in s.images)
  }

  lemma StepKeepsNames(s: State, step: Step)
    requires Inv(s) && NamesLead(s) && Enabled(s, step) && step != PowerLoss
    ensures NamesLead(Next(s, step))
  {
    forall digest | digest in s.images ensures digest in Next(s, step).images {
      StepKeepsImages(s, step, digest);
    }
  }

  lemma CalmStep(states: seq<State>, steps: seq<Step>, k: nat, l: nat)
    requires IsRun(states, steps) && k < |steps| && l == k + 1 && NamesLead(states[k]) && steps[k] != PowerLoss
    ensures NamesLead(states[l])
  {
    RunKeepsInv(states, steps, k);
    assert Follows(states[k], steps[k], states[l]);
    StepKeepsNames(states[k], steps[k]);
  }

  lemma {:induction false} CalmNamesLead(states: seq<State>, steps: seq<Step>, k: nat)
    requires IsRun(states, steps) && k <= |steps| && Calm(steps, k)
    ensures NamesLead(states[k])
  {
    if k > 0 {
      CalmNamesLead(states, steps, k - 1);
      CalmStep(states, steps, k - 1, k);
    }
  }

  /** As long as the power has not failed, exactly the published names resolve, each to a directory
      that holds its marker and every entry of the archive. */
  lemma PublishedNamesAreComplete(states: seq<State>, steps: seq<Step>, k: nat, name: Name)
    requires IsRun(states, steps) && k <= |steps| && Calm(steps, k)
    ensures Resolve(states[k], name).Some? <==> name in states[k].names
    ensures name in states[k].names ==> Complete(states[k], states[k].names[name], Resolve(states[k], name).value)
  {
    CalmNamesLead(states, steps, k);
    NameResolvesExactly(states, steps, k, name);
    if name in states[k].names {
      ImageIsIncompleteExactly(states, steps, k, states[k].names[name]);
    }
  }

  /** Between power losses no import replaces or changes an image directory. */
  lemma {:induction false} PublishedDirectoriesAreFinal(states: seq<State>, steps: seq<Step>, k: nat, later: nat,
                                                        digest: Digest)
    requires IsRun(states, steps) && k <= later < |states| && digest in states[k].images
    requires forall i :: k <= i < later ==> steps[i] != PowerLoss
    ensures digest in states[later].images && states[later].images[digest].files == states[k].images[digest].files
    ensures states[later].images[digest].marker
    decreases later
  {
    RunKeepsInv(states, steps, later);
    if k < later {
      PublishedDirectoriesAreFinal(states, steps, k, later - 1, digest);
      RunKeepsInv(states, steps, later - 1);
      assert Follows(states[later - 1], steps[later - 1], states[later]);
      StepKeepsImages(states[later - 1], steps[later - 1], digest);
    }
  }

  // ---------------------------------------------------------------- with one

  /** A power loss that undoes the rename of a directory. */
  predicate Loses(s: State, step: Step, digest: Digest) {
    step == PowerLoss && digest in s.images && digest !in s.flushedImages
  }

  ghost predicate LostBefore(states: seq<State>, steps: seq<Step>, k: nat, digest: Digest)
    requires k <= |steps| < |states|
  {
    exists j :: 0 <= j < k && Loses(states[j], steps[j], digest)
  }

  /** Names lead to a directory, or to one that was lost. */
  ghost predicate NamesLeadOrLost(states: seq<State>, steps: seq<Step>, k: nat)
    requires k <= |steps| < |states|
  {
    && (forall name :: name in states[k].names ==>
          states[k].names[name] in states[k].images || LostBefore(states, steps, k, states[k].names[name]))
    && (forall name :: name in states[k].flushedNames ==>
          states[k].flushedNames[name] in states[k].images ||
          LostBefore(states, steps, k, states[k].flushedNames[name]))
  }

  lemma LossSpreads(states: seq<State>, steps: seq<Step>, k: nat, digest: Digest)
    requires IsRun(states, steps) && k < |steps| && Inv(states[k])
    requires digest in states[k].images || LostBefore(states, steps, k, digest)
    ensures digest in states[k + 1].images || LostBefore(states, steps, k + 1, digest)
  {
    assert Follows(states[k], steps[k], states[k + 1]);
    if j :| 0 <= j < k && Loses(states[j], steps[j], digest) {
      assert LostBefore(states, steps, k + 1, digest);
    } else if steps[k] == PowerLoss {
      assert digest in states[k].flushedImages || Loses(states[k], steps[k], digest);
    } else {
      StepKeepsImages(states[k], steps[k], digest);
    }
  }

  lemma NamesComeFrom(s: State, step: Step, name: Name)
    requires Inv(s) && Enabled(s, step)
    ensures var t := Next(s, step);
            && (name in t.names ==> Known(s, name, t.names[name]))
            && (name in t.flushedNames ==> Known(s, name, t.flushedNames[name]))
  {
  }

  /** The digest was visible or flushed under the name, or its directory is there. */
  predicate Known(s: State, name: Name, digest: Digest) {
    || (name in s.names && s.names[name] == digest)
    || (name in s.flushedNames && s.flushedNames[name] == digest)
    || digest in s.images
  }

  lemma {:induction false} RunNamesLeadOrLost(states: seq<State>, steps: seq<Step>, k: nat)
    requires IsRun(states, steps) && k <= |steps|
    ensures NamesLeadOrLost(states, steps, k)
  {
    if k > 0 {
      RunNamesLeadOrLost(states, steps, k - 1);
      RunKeepsInv(states, steps, k - 1);
      var s, t := states[k - 1], states[k];
      assert Follows(s, steps[k - 1], t);
      forall name | name in t.names ensures t.names[name] in t.images || LostBefore(states, steps, k, t.names[name]) {
        NamesComeFrom(s, steps[k - 1], name);
        LossSpreads(states, steps, k - 1, t.names[name]);
      }
      forall name | name in t.flushedNames
        ensures t.flushedNames[name] in t.images || LostBefore(states, steps, k, t.flushedNames[name])
      {
        NamesComeFrom(s, steps[k - 1], name);
        LossSpreads(states, steps, k - 1, t.flushedNames[name]);
      }
    }
  }

  /** In every run, a published name that does not resolve is one whose directory's rename was
      undone by a power loss and has not been made again since. */
  lemma UnresolvedNameWasLost(states: seq<State>, steps: seq<Step>, k: nat, name: Name)
    requires IsRun(states, steps) && k <= |steps| && name in states[k].names && Resolve(states[k], name) == None
    ensures LostBefore(states, steps, k, states[k].names[name]) && states[k].names[name] !in states[k].images
  {
    RunNamesLeadOrLost(states, steps, k);
    NameResolvesExactly(states, steps, k, name);
  }

  /** Wherever a file of a published image is not on the medium yet, a power loss right after the
      rename gets there leaves a name that resolves to a marked but incomplete directory, and the
      next import of the archive publishes it again under another name. */
  lemma UnflushedFileEndangers(s: State, digest: Digest, name: Name, entry: nat, pid: Pid, again: Name)
    requires Inv(s) && digest in s.images && entry < s.archives[digest] && entry !in s.images[digest].stored
    requires name in s.flushedNames && s.flushedNames[name] == digest
    ensures var t := AfterPowerLoss(Next(s, FlushRename(digest)));
            && Resolve(t, name).Some? && !Complete(t, digest, Resolve(t, name).value)
            && var begun := Next(t, Begin(pid, again, digest));
               var u := Next(Next(begun, Advance(pid)), Advance(pid));
               u.names[again] == digest && Resolve(u, again) == Resolve(t, name)
  {
    StepKeepsInv(s, FlushRename(digest));
    PowerLossLeaves(Next(s, FlushRename(digest)), name);
    PowerLossKeepsInv(Next(s, FlushRename(digest)));
  }

  // ---------------------------------------------------------------- a witness

  ghost predicate Reachable(s: State) {
    exists states, steps :: IsRun(states, steps) && states[|steps|] == s
  }

  lemma Take(s: State, step: Step) returns (next: State)
    requires Reachable(s) && Enabled(s, step)
    ensures next == Next(s, step) && Reachable(next)
  {
    next := Next(s, step);
    var states, steps :| IsRun(states, steps) && states[|steps|] == s;
    var longer := states + [next];
    assert Follows(s, step, next);
    assert IsRun(longer, steps + [step]) && longer[|steps + [step]|] == next;
  }

  const ARCHIVE := "0123"
  const EXTRACTED := Directory(7, {0}, true, {}, true)

  /** Process 7 imports an archive with one entry as "web". */
  function Importing(pc: Pc, staging: map<Key, Directory>, images: map<Digest, Directory>,
                     names: map<Name, Digest>): State
  {
    State(map[ARCHIVE := 1], map[7 := Importer(pc, "web", ARCHIVE)], {("web", ARCHIVE)}, staging, images, names, {}, {},
          map[])
  }

  lemma BegunImport() returns (s: State)
    ensures Reachable(s) && s == Importing(CheckMarker, map[], map[], map[])
  {
    var first := State(map[ARCHIVE := 1], map[], {}, map[], map[], map[], {}, {}, map[]);
    assert IsRun([first], []);
    s := Take(first, Begin(7, "web", ARCHIVE));
  }

  lemma CheckedImport() returns (s: State)
    ensures Reachable(s) && s == Importing(Stage, map[], map[], map[])
  {
    s := BegunImport();
    s := Take(s, Advance(7));
    assert s == Importing(CheckBase, map[], map[], map[]);
    s := Take(s, Advance(7));
  }

  const EMPTY := Directory(7, {}, false, {}, false)

  lemma StagedImport() returns (s: State)
    ensures Reachable(s) && s == Importing(Extracting(0), map[(ARCHIVE, 7) := EMPTY], map[], map[])
  {
    s := CheckedImport();
    s := Take(s, Advance(7));
    assert s == Importing(Extract(0), map[(ARCHIVE, 7) := EMPTY], map[], map[]);
    assert EMPTY.files - {0} == EMPTY.files;
    s := Take(s, Advance(7));
  }

  lemma ExtractedImport() returns (s: State)
    ensures Reachable(s) && s == Importing(Mark, map[(ARCHIVE, 7) := EMPTY.(files := {0})], map[], map[])
  {
    s := StagedImport();
    assert EMPTY.files + {0} == {0};
    s := Take(s, Advance(7));
    assert s == Importing(Extract(1), map[(ARCHIVE, 7) := EMPTY.(files := {0})], map[], map[]);
    s := Take(s, Advance(7));
  }

  lemma PublishedImport() returns (s: State)
    ensures Reachable(s) && s == Importing(Settle, map[], map[ARCHIVE := EXTRACTED], map["web" := ARCHIVE])
  {
    s := ExtractedImport();
    s := Take(s, Advance(7));
    assert s == Importing(Rename, map[(ARCHIVE, 7) := EXTRACTED], map[], map[]);
    s := Take(s, Advance(7));
    assert s == Importing(Publish, map[], map[ARCHIVE := EXTRACTED], map[]);
    s := Take(s, Advance(7));
  }

  /** A run that ends with a published name, its marker present and an entry missing. */
  lemma MarkedIncompleteImageIsReachable() returns (s: State)
    ensures Reachable(s) && Resolve(s, "web").Some? && !Complete(s, ARCHIVE, Resolve(s, "web").value)
  {
    s := PublishedImport();
    s := Take(s, Advance(7));
    assert s.flushedNames == map["web" := ARCHIVE] && s.images == map[ARCHIVE := EXTRACTED];
    var states, steps :| IsRun(states, steps) && states[|steps|] == s;
    RunKeepsInv(states, steps, |steps|);
    UnflushedFileEndangers(s, ARCHIVE, "web", 0, 8, "web2");
    s := Take(s, FlushRename(ARCHIVE));
    s := Take(s, PowerLoss);
  }
}
