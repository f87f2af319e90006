/** The rotating log of a detached container: write_all, rotate_log and log_pump of
    src/runtime/shim_main.c. */
module LogPump {
  import opened Base

  const MAX_SIZE := 0x10_0000 // 1 MiB per file
  const CHUNK := 0x4000       // the read buffer, 16 KiB

  /** container.log at index 0 and container.log.k at index k; None when there is no such file. */
  type Files = f: seq<Option<seq<Byte>>> | |f| == 4 witness [None, None, None, None]

  function Flatten(chunks: seq<seq<Byte>>): seq<Byte> {
    if chunks == [] then [] else Flatten(chunks[..|chunks| - 1]) + chunks[|chunks| - 1]
  }

  lemma FlattenNext(before: seq<Byte>, chunks: seq<seq<Byte>>, index: nat)
    requires index < |chunks|
    ensures before + Flatten(chunks[..index + 1]) == before + Flatten(chunks[..index]) + chunks[index]
  {
    assert chunks[..index + 1][..index] == chunks[..index];
  }

  function Content(file: Option<seq<Byte>>): seq<Byte> {
    if file.Some? then file.value else []
  }

  /** The files read oldest first. */
  function Text(files: Files): seq<Byte> {
    Content(files[3]) + Content(files[2]) + Content(files[1]) + Content(files[0])
  }

  predicate IsSuffix(part: seq<Byte>, all: seq<Byte>) {
    |part| <= |all| && all[|all| - |part|..] == part
  }

  predicate Bounded(files: Files) {
    forall k :: 0 <= k < 4 ==> |Content(files[k])| <= MAX_SIZE
  }

  /** What holds even after a failed rotation or write: no gap, no file over 1 MiB. */
  ghost predicate Sound(files: Files, history: seq<Byte>) {
    Bounded(files) && IsSuffix(Text(files), history)
  }

  predicate Full(file: Option<seq<Byte>>) {
    file.Some? ==> |file.value| > MAX_SIZE - CHUNK
  }

  /** What every completed step keeps: files are numbered without holes, rotated files are
      nearly full, and bytes have been dropped only if all three rotated files exist. */
  ghost predicate Settled(files: Files, history: seq<Byte>) {
    && Sound(files, history)
    && files[0].Some? && (files[2].Some? ==> files[1].Some?) && (files[3].Some? ==> files[2].Some?)
    && Full(files[1]) && Full(files[2]) && Full(files[3])
    && (Text(files) == history || files[3].Some?)
  }

  /** The retention bound: all of the history, or at least 3 * (2^20 - 2^14 + 1) bytes of it. */
  lemma SettledRetains(files: Files, history: seq<Byte>)
    requires Settled(files, history)
    ensures IsSuffix(Text(files), history)
    ensures Text(files) == history || |Text(files)| >= 3 * (1024 * 1024 - 16 * 1024 + 1)
    ensures forall k :: 0 <= k < 4 ==> |Content(files[k])| <= 1024 * 1024
    ensures |Text(files)| <= 4 * 1024 * 1024
  {
    assert |Text(files)| ==
           |Content(files[3])| + |Content(files[2])| + |Content(files[1])| + |Content(files[0])|;
    assert |Content(files[0])| <= MAX_SIZE && |Content(files[1])| <= MAX_SIZE;
    assert |Content(files[2])| <= MAX_SIZE && |Content(files[3])| <= MAX_SIZE;
  }

  // ---------------------------------------------------------------- rotation

  /** The files after container.log.3 is gone and `moves` of the three renames are made. */
  function Rotating(files: Files, moves: nat): Files
    requires moves <= 3
  {
    match moves
    case 0 => [files[0], files[1], files[2], None]
    case 1 => [files[0], files[1], None, files[2]]
    case 2 => [files[0], None, files[1], files[2]]
    case _ => [None, files[0], files[1], files[2]]
  }

  function Rotated(files: Files): Files {
    Rotating(files, 3)[0 := Some([])]
  }

  lemma SuffixOfSuffix(part: seq<Byte>, dropped: seq<Byte>, all: seq<Byte>)
    requires IsSuffix(dropped + part, all)
    ensures IsSuffix(part, all)
  {
    assert (dropped + part)[|dropped|..] == part;
    assert all[|all| - |part|..] == all[|all| - |dropped + part|..][|dropped|..];
  }

  /** What is kept while rotating, oldest first. */
  function Kept(files: Files): seq<Byte> {
    Content(files[2]) + Content(files[1]) + Content(files[0])
  }

  lemma RotatingText(files: Files, moves: nat)
    requires moves <= 3
    ensures Text(Rotating(files, moves)) == Kept(files)
  {
    var a, b, c := Content(files[2]), Content(files[1]), Content(files[0]);
    if moves == 0 { assert [] + a + b + c == a + b + c; }
    else if moves == 1 { assert a + [] + b + c == a + b + c; }
    else if moves == 2 { assert a + b + [] + c == a + b + c; }
    else { assert a + b + c + [] == a + b + c; }
  }

  /** Whichever rename fails, what is left is a suffix of the history: nothing is lost but the
      oldest file, and nothing is out of order. */
  lemma RotatingIsSound(files: Files, moves: nat, history: seq<Byte>)
    requires Bounded(files) && IsSuffix(Kept(files), history) && moves <= 3
    ensures Sound(Rotating(files, moves), history)
  {
    RotatingText(files, moves);
    RotatingIsBounded(files, moves);
  }

  lemma DroppedIsSound(before: Files, after: Files, history: seq<Byte>)
    requires Sound(before, history) && (after == before || after == before[3 := None])
    ensures Sound(after, history)
  {
    KeptIsSuffix(before, history);
    assert |Content(before[0])| <= MAX_SIZE && |Content(before[1])| <= MAX_SIZE && |Content(before[2])| <= MAX_SIZE;
    if after != before {
      assert Text(after) == Kept(before);
    }
  }

  /** What is being rotated, when the unlink of file 3 may have failed: if there is no file 2 to
      replace it, file 3 stays in its place. */
  function Basis(files: Files, dropped: bool): Files {
    if dropped || files[2].Some? then files else files[2 := files[3]]
  }

  lemma BasisIsSound(files: Files, dropped: bool, history: seq<Byte>)
    requires Sound(files, history)
    ensures Bounded(Basis(files, dropped)) && IsSuffix(Kept(Basis(files, dropped)), history)
  {
    KeptIsSuffix(files, history);
    var basis := Basis(files, dropped);
    assert |Content(files[3])| <= MAX_SIZE && |Content(files[2])| <= MAX_SIZE;
    if basis != files {
      assert Kept(basis) == Text(files);
    }
  }

  lemma RotatingIsBounded(files: Files, moves: nat)
    requires Bounded(files) && moves <= 3
    ensures Bounded(Rotating(files, moves))
  {
    assert |Content(files[0])| <= MAX_SIZE && |Content(files[1])| <= MAX_SIZE && |Content(files[2])| <= MAX_SIZE;
  }

  lemma KeptIsSuffix(files: Files, history: seq<Byte>)
    requires IsSuffix(Text(files), history)
    ensures IsSuffix(Kept(files), history)
  {
    assert Text(files) == Content(files[3]) + Kept(files);
    SuffixOfSuffix(Kept(files), Content(files[3]), history);
  }

  /** The rename of file 2 - moves to the next number. */
  lemma RenameAdvances(files: Files, moves: nat)
    requires moves < 3
    ensures var now, from := Rotating(files, moves), 2 - moves;
            && now[from + 1 := now[from]][from := None] == Rotating(files, moves + 1)
            && (now[from].None? ==> now == Rotating(files, moves + 1))
  {}

  /** The first rename, when file 3 is still there. */
  lemma RenameOverFile3(files: Files)
    ensures files[2].Some? ==> files[3 := files[2]][2 := None] == Rotating(Basis(files, false), 1)
    ensures files[2].None? ==> files == Rotating(Basis(files, false), 1)
  {}

  lemma EmptyFileIsSound(files: Files, history: seq<Byte>)
    requires Sound(files, history) && files[0].None?
    ensures Sound(files[0 := Some([])], history)
  {
    assert |Content(files[1])| <= MAX_SIZE && |Content(files[2])| <= MAX_SIZE && |Content(files[3])| <= MAX_SIZE;
    assert Text(files[0 := Some([])]) == Text(files);
  }

  /** A settled log has no hole that a failed unlink could leave file 3 behind. */
  lemma SettledBasis(before: Files, after: Files, history: seq<Byte>)
    requires after == before || after == before[3 := None]
    ensures Settled(before, history) ==> Rotating(Basis(after, after[3].None?), 3) == Rotating(before, 3)
  {}

  lemma RotatedIsSettled(files: Files, history: seq<Byte>)
    requires Settled(files, history) && Full(files[0])
    ensures Settled(Rotated(files), history)
  {
    KeptIsSuffix(files, history);
    RotatingIsSound(files, 3, history);
    RotatingText(files, 3);
    assert Text(Rotated(files)) == Text(Rotating(files, 3));
    assert files[3].None? ==> Text(files) == Kept(files);
  }

  lemma AppendKeepsSuffix(part: seq<Byte>, all: seq<Byte>, more: seq<Byte>)
    requires IsSuffix(part, all)
    ensures IsSuffix(part + more, all + more)
  {}

  lemma AppendKeepsSound(files: Files, history: seq<Byte>, more: seq<Byte>)
    requires Sound(files, history) && files[0].Some? && |files[0].value| + |more| <= MAX_SIZE
    ensures Sound(files[0 := Some(files[0].value + more)], history + more)
    ensures Text(files[0 := Some(files[0].value + more)]) == Text(files) + more
  {
    var older := Content(files[3]) + Content(files[2]) + Content(files[1]);
    assert older + (files[0].value + more) == older + files[0].value + more;
    AppendKeepsSuffix(Text(files), history, more);
  }

  lemma SettledAppends(files: Files, history: seq<Byte>, more: seq<Byte>)
    requires files[0].Some? && |files[0].value| + |more| <= MAX_SIZE
    ensures Settled(files, history) ==> Settled(files[0 := Some(files[0].value + more)], history + more)
  {
    if Settled(files, history) {
      AppendKeepsSound(files, history, more);
    }
  }

  datatype Renaming = Renamed | Absent | Refused

  class Log {
    var files: Files
    ghost var history: seq<Byte> // everything ever written to the log

    constructor ()
      ensures Settled(files, history) && history == []
    {
      files := [Some([]), None, None, None];
      history := [];
    }

    // System calls: each may fail whenever the contract says so.

    method Unlink(k: nat)
      requires k < 4
      modifies this`files
      ensures files == old(files)[k := None] || files == old(files)
    {
      files := files[k := None];
    }

    method Rename(from: nat, to: nat) returns (r: Renaming)
      requires from < 4 && to < 4 && from != to
      modifies this`files
      ensures r == Renamed ==> old(files)[from].Some? && files == old(files)[to := old(files)[from]][from := None]
      ensures r == Absent ==> old(files)[from].None? && files == old(files)
      ensures r == Refused ==> files == old(files)
    {
      if files[from].None? { return Absent; }
      files := files[to := files[from]][from := None];
      return Renamed;
    }

    method Open() returns (ok: bool)
      modifies this`files
      ensures files == if ok then old(files)[0 := Some(Content(old(files)[0]))] else old(files)
    {
      files := files[0 := Some(Content(files[0]))];
      return true;
    }

    /** write(2): some of the bytes, or an error. */
    method WriteSome(bytes: seq<Byte>) returns (count: int)
      requires bytes != [] && files[0].Some?
      modifies this
      ensures count < 0 ==> files == old(files) && history == old(history)
      ensures count >= 0 ==> 0 < count <= |bytes|
      ensures count >= 0 ==> files == old(files)[0 := Some(old(files)[0].value + bytes[..count])]
      ensures count >= 0 ==> history == old(history) + bytes[..count]
    {
      files := files[0 := Some(files[0].value + bytes)];
      history := history + bytes;
      count := |bytes|;
      assert bytes[..count] == bytes;
    }

    method WriteAll(bytes: seq<Byte>) returns (ok: bool, ghost offset: nat)
      requires files[0].Some?
      modifies this
      ensures offset <= |bytes| && (ok ==> offset == |bytes|)
      ensures files == old(files)[0 := Some(old(files)[0].value + bytes[..offset])]
      ensures history == old(history) + bytes[..offset]
    {
      var written := 0;
      offset := 0;
      assert old(files)[0].value + bytes[..0] == old(files)[0].value;
      while written < |bytes|
        invariant 0 <= written == offset <= |bytes|
        invariant files == old(files)[0 := Some(old(files)[0].value + bytes[..offset])]
        invariant history == old(history) + bytes[..offset]
      {
        var count := WriteSome(bytes[written..]);
        if count < 0 { return false, offset; }
        var sofar := old(files)[0].value;
        assert sofar + bytes[..offset] + bytes[written..][..count] == sofar + bytes[..offset + count];
        written, offset := written + count, offset + count;
      }
      ok := true;
    }

    /** The unlink and the loop over the numbered files. */
    method ShiftFiles(ghost basis: Files, ghost dropped: bool) returns (ok: bool)
      requires Sound(files, history) && basis == Basis(files, dropped)
      requires dropped ==> files[3].None?
      modifies this`files
      ensures Sound(files, history) && (ok ==> files == Rotating(basis, 2))
    {
      ghost var before := files;
      BasisIsSound(before, dropped, history);
      assert dropped ==> files == Rotating(basis, 0);
      for index := 3 downto 1
        invariant files == Rotating(basis, 3 - index) || (index == 3 && !dropped && files == before)
      {
        var moved := Rename(index, index + 1);
        RenameAdvances(basis, 2 - index);
        RenameOverFile3(before);
        RotatingIsSound(basis, 2 - index, history);
        if moved == Refused { return false; }
      }
      RotatingIsSound(basis, 2, history);
      ok := true;
    }

    /** The last rename and the new file. */
    method Reopen(ghost basis: Files) returns (ok: bool)
      requires files == Rotating(basis, 2) && Bounded(basis) && IsSuffix(Kept(basis), history)
      modifies this`files
      ensures Sound(files, history)
      ensures ok ==> files == Rotating(basis, 3)[0 := Some([])]
    {
      var moved := Rename(0, 1);
      RenameAdvances(basis, 2);
      RotatingIsSound(basis, 2, history);
      if moved == Refused { return false; }
      RotatingIsSound(basis, 3, history);
      ok := Open();
      EmptyFileIsSound(Rotating(basis, 3), history);
    }

    /** rotate_log: drop .3, move .2 and .1 up, move the open file to .1, open a new one. */
    method RotateLog() returns (ok: bool)
      requires Sound(files, history)
      modifies this`files
      ensures Sound(files, history)
      ensures ok ==> files[0] == Some([])
      ensures ok && Settled(old(files), history) ==> files == Rotated(old(files))
    {
      ghost var before := files;
      Unlink(3);
      ghost var dropped := files[3].None?;
      ghost var basis := Basis(files, dropped);
      DroppedIsSound(before, files, history);
      BasisIsSound(files, dropped, history);
      SettledBasis(before, files, history);
      ok := ShiftFiles(basis, dropped);
      if ok {
        ok := Reopen(basis);
      }
    }

    /** Rotates if a chunk of this length would not fit. */
    method MakeRoom(length: nat, size: nat) returns (ok: bool, newSize: nat)
      requires Sound(files, history) && files[0].Some? && size == |files[0].value| && 0 < length <= CHUNK
      modifies this`files
      ensures Sound(files, history)
      ensures ok ==> files[0].Some? && newSize == |files[0].value| && newSize + length <= MAX_SIZE
      ensures ok && Settled(old(files), history) ==> Settled(files, history)
    {
      ok, newSize := true, size;
      if size > 0 && size + length > MAX_SIZE {
        if Settled(files, history) { RotatedIsSettled(files, history); }
        ok := RotateLog();
        newSize := 0;
      }
    }

    /** One turn of the pump: make room, then write. */
    method Deliver(chunk: seq<Byte>, size: nat) returns (ok: bool, newSize: nat)
      requires Sound(files, history) && files[0].Some? && size == |files[0].value| && 0 < |chunk| <= CHUNK
      modifies this
      ensures Sound(files, history)
      ensures ok ==> history == old(history) + chunk && files[0].Some? && newSize == |files[0].value|
      ensures ok && Settled(old(files), old(history)) ==> Settled(files, history)
    {
      ok, newSize := MakeRoom(|chunk|, size);
      if !ok { return; }
      ghost var before := files;
      ghost var offset;
      ok, offset := WriteAll(chunk);
      AppendKeepsSound(before, old(history), chunk[..offset]);
      newSize := newSize + |chunk|;
      if ok {
        assert chunk[..offset] == chunk;
        SettledAppends(before, old(history), chunk);
      }
    }

    /** log_pump on whatever log there is, even one that an earlier pump left in the middle of a
        rotation. Rotation and writing may fail and end the pump; what is on disk stays a suffix of
        what was written, and a settled log stays settled. */
    method Pump(input: seq<seq<Byte>>) returns (ok: bool)
      requires Sound(files, history) && files[0].Some?
      requires forall k :: 0 <= k < |input| ==> 0 < |input[k]| <= CHUNK
      modifies this
      ensures Sound(files, history)
      ensures ok ==> history == old(history) + Flatten(input)
      ensures ok && Settled(old(files), old(history)) ==> Settled(files, history)
    {
      var size := |files[0].value|;
      for index := 0 to |input|
        invariant Sound(files, history) && files[0].Some? && size == |files[0].value|
        invariant history == old(history) + Flatten(input[..index])
        invariant Settled(old(files), old(history)) ==> Settled(files, history)
      {
        FlattenNext(old(history), input, index);
        ok, size := Deliver(input[index], size);
        if !ok { return; }
      }
      assert input[..|input|] == input;
      ok := true;
    }
  }
}
