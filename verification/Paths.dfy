/** The character-level path scanners of src/util/validate.c, against specifications on the
    list of components between slashes. */
module Paths {
  import opened Base
  import opened Numerals

  /** strchr as an index; |text| when the character does not occur. */
  function IndexOf(text: string, c: char): (i: nat)
    ensures i <= |text|
    ensures c !in text[..i]
    ensures i < |text| ==> text[i] == c
  {
    |Before(text, c)|
  }

  function Split(path: string): (components: seq<string>)
    ensures components != []
  {
    var i := IndexOf(path, '/');
    if i == |path| then [path] else [path[..i]] + Split(path[i + 1..])
  }

  /** Text before the last slash, empty without one: what strrchr and memcpy leave in `parent`. */
  function Parent(path: string): string {
    if path == [] then []
    else if path[|path| - 1] == '/' then path[..|path| - 1]
    else Parent(path[..|path| - 1])
  }

  /** The components with a slash between each two. */
  function Join(components: seq<string>): string
    requires components != []
  {
    if |components| == 1 then components[0] else components[0] + ['/'] + Join(components[1..])
  }

  predicate NoSlash(components: seq<string>) {
    forall k :: 0 <= k < |components| ==> '/' !in components[k]
  }

  lemma JoinStep(head: string, rest: seq<string>)
    requires rest != [] && '/' !in head && NoSlash(rest)
    ensures Join([head] + rest) == head + ['/'] + Join(rest) && NoSlash([head] + rest)
  {
    assert ([head] + rest)[1..] == rest;
  }

  /** The components of a path hold no slash and join back to it. */
  lemma {:induction false} JoinOfSplit(path: string)
    ensures NoSlash(Split(path)) && Join(Split(path)) == path
    decreases |path|
  {
    var i := IndexOf(path, '/');
    if i == |path| {
      assert path[..i] == path;
    } else {
      var head, tail := path[..i], path[i + 1..];
      JoinOfSplit(tail);
      JoinStep(head, Split(tail));
      assert path == head + ['/'] + tail;
    }
  }

  lemma SplitBehindSlash(head: string, tail: string)
    requires '/' !in head
    ensures Split(head + ['/'] + tail) == [head] + Split(tail)
  {
    var path := head + ['/'] + tail;
    CutAt(head, '/', tail);
    assert IndexOf(path, '/') == |head| && path[..|head|] == head && path[|head| + 1..] == tail;
  }

  /** So they are the only such list. */
  lemma {:induction false} SplitOfJoin(components: seq<string>)
    requires components != [] && NoSlash(components)
    ensures Split(Join(components)) == components
  {
    if |components| == 1 {
      NoCut(components[0], '/');
      assert components == [components[0]];
    } else {
      SplitOfJoin(components[1..]);
      SplitBehindSlash(components[0], Join(components[1..]));
    }
  }

  /** A path is its directory, a slash and a name, or a bare name. */
  lemma {:induction false} ParentOfName(name: string)
    requires '/' !in name
    ensures Parent(name) == ""
  {
    if name != [] {
      ParentOfName(name[..|name| - 1]);
    }
  }

  lemma {:induction false} ParentOfEntry(directory: string, name: string)
    requires '/' !in name
    ensures Parent(directory + ['/'] + name) == directory
    decreases |name|
  {
    var path := directory + ['/'] + name;
    if name == [] {
      assert path[..|path| - 1] == directory;
    } else {
      assert path[..|path| - 1] == directory + ['/'] + name[..|name| - 1];
      ParentOfEntry(directory, name[..|name| - 1]);
    }
  }

  // ---------------------------------------------------------------- reference semantics

  datatype Move = Up | Stay | Down

  function MoveOf(component: string): Move {
    if component == ".." then Up else if component == "" || component == "." then Stay else Down
  }

  /** One component applied to the stack of directories below the root; None leaves the root. */
  function Push(stack: seq<string>, component: string): Option<seq<string>> {
    match MoveOf(component)
    case Up => if stack == [] then None else Some(stack[..|stack| - 1])
    case Stay => Some(stack)
    case Down => Some(stack + [component])
  }

  function Normalise(stack: seq<string>, components: seq<string>): Option<seq<string>>
    decreases |components|
  {
    if components == [] then Some(stack)
    else match Push(stack, components[0])
      case None => None
      case Some(next) => Normalise(next, components[1..])
  }

  /** What the scanner keeps of the stack: its height. */
  function Depth(depth: nat, components: seq<string>): Option<nat>
    decreases |components|
  {
    if components == [] then Some(depth)
    else match MoveOf(components[0])
      case Up => if depth == 0 then None else Depth(depth - 1, components[1..])
      case Stay => Depth(depth, components[1..])
      case Down => Depth(depth + 1, components[1..])
  }

  lemma {:induction false} DepthIsStackHeight(stack: seq<string>, components: seq<string>)
    ensures Normalise(stack, components).Some? <==> Depth(|stack|, components).Some?
    ensures Normalise(stack, components).Some? ==>
              |Normalise(stack, components).value| == Depth(|stack|, components).value
    decreases |components|
  {
    if components != [] {
      match Push(stack, components[0])
      case None =>
      case Some(next) => DepthIsStackHeight(next, components[1..]);
    }
  }

  lemma {:induction false} NormaliseConcat(stack: seq<string>, a: seq<string>, b: seq<string>)
    ensures Normalise(stack, a + b) ==
            match Normalise(stack, a) case None => None case Some(middle) => Normalise(middle, b)
    decreases |a|
  {
    if a == [] {
      assert a + b == b;
    } else {
      assert (a + b)[1..] == a[1..] + b;
      match Push(stack, a[0])
      case None =>
      case Some(next) => NormaliseConcat(next, a[1..], b);
    }
  }

  /** Names entered minus names left: a count that needs no stack. */
  function Level(components: seq<string>): int {
    if components == [] then 0
    else (match MoveOf(components[0]) case Up => -1 case Stay => 0 case Down => 1) + Level(components[1..])
  }

  ghost predicate NeverLeavesRoot(depth: nat, components: seq<string>) {
    forall k :: 0 <= k <= |components| ==> depth + Level(components[..k]) >= 0
  }

  lemma LevelStep(components: seq<string>, k: nat)
    requires 0 < k <= |components|
    ensures Level(components[..k]) == Level(components[..1]) + Level(components[1..][..k - 1])
  {
    assert components[..k][1..] == components[1..][..k - 1];
    assert components[..1][1..] == [];
  }

  /** The normaliser succeeds exactly when no prefix of the walk climbs above the root. */
  lemma {:induction false} NormaliseSucceedsIffBeneath(depth: nat, components: seq<string>)
    ensures Depth(depth, components).Some? <==> NeverLeavesRoot(depth, components)
    decreases |components|
  {
    if components == [] {
      assert components[..0] == [];
    } else {
      var after := depth + Level(components[..1]);
      assert components[..1][1..] == [];
      forall k | 0 < k <= |components|
        ensures depth + Level(components[..k]) == after + Level(components[1..][..k - 1])
      {
        LevelStep(components, k);
      }
      if after >= 0 {
        NormaliseSucceedsIffBeneath(after, components[1..]);
        BeneathTail(depth, after, components);
      } else {
        assert !NeverLeavesRoot(depth, components);
      }
    }
  }

  lemma BeneathTail(depth: nat, after: nat, components: seq<string>)
    requires components != []
    requires forall k :: 0 < k <= |components| ==>
                           depth + Level(components[..k]) == after + Level(components[1..][..k - 1])
    ensures NeverLeavesRoot(depth, components) <==> NeverLeavesRoot(after, components[1..])
  {
    var tail := components[1..];
    assert components[..0] == [];
    if NeverLeavesRoot(depth, components) {
      forall k | 0 <= k <= |tail| ensures after + Level(tail[..k]) >= 0 {
        assert depth + Level(components[..k + 1]) >= 0;
      }
    }
    if NeverLeavesRoot(after, tail) {
      forall k | 0 <= k <= |components| ensures depth + Level(components[..k]) >= 0 {
        if k > 0 { assert after + Level(tail[..k - 1]) >= 0; }
      }
    }
  }

  // ---------------------------------------------------------------- apply_components

  /** The length and character tests on the component at the start of `rest`. */
  function ScanMove(rest: string, length: nat): (move: Move)
    requires length <= |rest|
    ensures move == MoveOf(rest[..length])
  {
    if length == 2 && rest[0] == '.' && rest[1] == '.' then assert rest[..length] == ".."; Up
    else if length != 0 && !(length == 1 && rest[0] == '.') then Down
    else assert rest[..length] == "" || rest[..length] == "."; Stay
  }

  lemma SplitHead(rest: string)
    ensures var i := IndexOf(rest, '/');
            && Split(rest)[0] == rest[..i]
            && Split(rest)[1..] == if i == |rest| then [] else Split(rest[i + 1..])
  {
    var i := IndexOf(rest, '/');
    if i < |rest| {
      var tail := Split(rest[i + 1..]);
      assert ([rest[..i]] + tail)[1..] == tail;
    }
  }

  lemma SplitEmpty()
    ensures Split("") == [""]
  {
  }

  /** The component at the cursor: what it does, and the text behind its slash, if any. */
  method ScanComponent(rest: string) returns (move: Move, next: Option<string>)
    ensures move == MoveOf(Split(rest)[0])
    ensures next.None? ==> Split(rest)[1..] == []
    ensures next.Some? ==> |next.value| < |rest| && Split(rest)[1..] == Split(next.value)
  {
    SplitHead(rest);
    var length := IndexOf(rest, '/');
    move := ScanMove(rest, length);
    next := if length == |rest| then None else Some(rest[length + 1..]);
  }

  /** The cursor loop; `rest` is the text from the cursor on. None stands for the early return
      of 0. */
  method ApplyComponents(path: string, start: nat) returns (depth: Option<nat>)
    ensures depth == Depth(start, Split(path))
  {
    var rest, height := path, start;
    while rest != []
      invariant Depth(start, Split(path)) == Depth(height, Split(rest))
      decreases |rest|
    {
      var move, next := ScanComponent(rest);
      match move {
        case Up =>
          if height == 0 { return None; }
          height := height - 1;
        case Down => height := height + 1;
        case Stay =>
      }
      if next.None? { return Some(height); }
      rest := next.value;
    }
    SplitEmpty();
    return Some(height);
  }

  /** What mc_link_stays_beneath accepts, on components. */
  ghost predicate StaysBeneath(entry: string, target: string) {
    && target != [] && '\\' !in target
    && if target[0] == '/' then Normalise([], Split(target[1..])).Some?
       else |Parent(entry)| < PATH_MAX && Normalise([], Split(Parent(entry)) + Split(target)).Some?
  }

  /** Acceptance, said without a stack: no prefix of the walk from the root through the link's
      directory and target leaves more directories than it has entered. */
  lemma LinkInDirectory(directory: string, name: string, target: string)
    requires '/' !in name && target != [] && target[0] != '/' && '\\' !in target
    ensures StaysBeneath(directory + ['/'] + name, target) <==>
            |directory| < PATH_MAX && NeverLeavesRoot(0, Split(directory) + Split(target))
  {
    var walk := Split(directory) + Split(target);
    ParentOfEntry(directory, name);
    DepthIsStackHeight([], walk);
    NormaliseSucceedsIffBeneath(0, walk);
  }

  /** A link at the top starts at the root itself. */
  lemma LinkAtTop(name: string, target: string)
    requires '/' !in name && target != [] && target[0] != '/' && '\\' !in target
    ensures StaysBeneath(name, target) <==> NeverLeavesRoot(0, Split(target))
  {
    ParentOfName(name);
    SplitEmpty();
    assert ([""] + Split(target))[1..] == Split(target);
    DepthIsStackHeight([], [""] + Split(target));
    DepthIsStackHeight([], Split(target));
    NormaliseSucceedsIffBeneath(0, Split(target));
  }

  /** An absolute target starts there too, wherever the link is; without a target, or with a
      backslash in it, there is no link. */
  lemma AbsoluteLink(entry: string, target: string)
    requires target == [] || target[0] == '/' || '\\' in target
    ensures StaysBeneath(entry, target) <==>
            target != [] && '\\' !in target && NeverLeavesRoot(0, Split(target[1..]))
  {
    if target != [] {
      DepthIsStackHeight([], Split(target[1..]));
      NormaliseSucceedsIffBeneath(0, Split(target[1..]));
    }
  }

  method LinkStaysBeneath(entry: string, target: string) returns (ok: bool)
    ensures ok <==> StaysBeneath(entry, target)
  {
    if target == [] || '\\' in target { return false; }
    if target[0] == '/' {
      var depth := ApplyComponents(target[1..], 0);
      DepthIsStackHeight([], Split(target[1..]));
      return depth.Some?;
    }
    var parent := Parent(entry);
    if |parent| >= PATH_MAX { return false; }
    NormaliseConcat([], Split(parent), Split(target));
    DepthIsStackHeight([], Split(parent));
    var depth := ApplyComponents(parent, 0);
    if depth.None? { return false; }
    DepthIsStackHeight(Normalise([], Split(parent)).value, Split(target));
    depth := ApplyComponents(target, depth.value);
    return depth.Some?;
  }

  // ---------------------------------------------------------------- mc_safe_archive_path

  /** Every component is a name, except that the path may end in one slash. */
  predicate Names(components: seq<string>) {
    if |components| <= 1 then components == [] || components[0] == "" || MoveOf(components[0]) == Down
    else MoveOf(components[0]) == Down && Names(components[1..])
  }

  predicate SafeArchivePath(path: string) {
    path != [] && path[0] != '/' && '\\' !in path && Names(Split(path))
  }

  method IsSafeArchivePath(path: string) returns (ok: bool)
    ensures ok <==> SafeArchivePath(path)
  {
    if path == [] || path[0] == '/' || '\\' in path { return false; }
    var rest := path;
    while rest != []
      invariant Names(Split(path)) <==> Names(Split(rest))
      decreases |rest|
    {
      var move, next := ScanComponent(rest);
      if move != Down { return false; }
      if next.None? { return true; }
      rest := next.value;
    }
    SplitEmpty();
    return true;
  }
}
