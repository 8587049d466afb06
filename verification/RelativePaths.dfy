/** Paths of the remote file system, relative to an authorized root (firebox.rs of client and server). */
module RelativePaths {
  import opened Wrappers
  import opened Text
  import opened FileNames

  const MAX_PATH_BYTES: nat := 4096
  const MAX_NAME_BYTES: nat := 1024
  const SLASH: set<char> := {'/'}

  predicate HasControl(s: string) {
    exists c :: c in s && IsControl(c)
  }

  /** validate_file_name. */
  predicate ValidName(name: string) {
    && name != "" && name != "." && name != ".."
    && ByteLength(name) <= MAX_NAME_BYTES
    && '/' !in name && '\\' !in name
    && !HasControl(name)
  }

  predicate IsLetter(c: char) {
    'a' <= c <= 'z' || 'A' <= c <= 'Z'
  }

  /** is_windows_absolute: a drive letter and a colon. */
  predicate IsDriveLike(path: string) {
    |path| >= 2 && IsLetter(path[0]) && path[1] == ':'
  }

  /** validate_relative_path; the empty path is the root itself. */
  predicate ValidPath(path: string) {
    path == "" ||
    (&& ByteLength(path) <= MAX_PATH_BYTES
     && path[0] != '/' && path[|path| - 1] != '/'
     && '\\' !in path
     && !HasControl(path)
     && !IsDriveLike(path)
     && AllUsable(Split(path, SLASH)))
  }

  predicate AllUsable(components: seq<string>) {
    forall i :: 0 <= i < |components| ==> Usable(components[i])
  }

  /** rsplit_once('/'). */
  function RsplitOnce(path: string): (r: Option<(string, string)>)
    ensures r.None? ==> '/' !in path
    ensures r.Some? ==> path == r.value.0 + "/" + r.value.1 && '/' !in r.value.1
  {
    if path == "" then None
    else
      var n := |path| - 1;
      if path[n] == '/' then Some((path[..n], ""))
      else
        match RsplitOnce(path[..n])
        case None => None
        case Some((parent, name)) => Some((parent, name + [path[n]]))
  }

  function ParentPath(path: string): string {
    match RsplitOnce(path)
    case None => ""
    case Some((parent, _)) => parent
  }

  /** rsplit('/').next(). */
  function LastName(path: string): string {
    match RsplitOnce(path)
    case None => path
    case Some((_, name)) => name
  }

  function ChildPath(parent: string, name: string): string {
    if parent == "" then name else parent + "/" + name
  }

  datatype Entry = Entry(name: string, path: string)

  /** The checks of validate_entry on names and paths. */
  predicate ValidEntry(entry: Entry, parent: Option<string>) {
    && ValidName(entry.name) && ValidPath(entry.path)
    && match parent
       case Some(p) => entry.path == ChildPath(p, entry.name)
       case None => LastName(entry.path) == entry.name
  }

  // Component lists

  function Components(path: string): seq<string> {
    if path == "" then [] else Split(path, SLASH)
  }

  function Join(components: seq<string>): string {
    if components == [] then "" else ChildPath(Join(components[..|components| - 1]), components[|components| - 1])
  }

  predicate ValidComponent(component: string) {
    Usable(component) && '/' !in component && '\\' !in component && !HasControl(component)
  }

  predicate AllPlain(components: seq<string>) {
    forall i :: 0 <= i < |components| ==> ValidComponent(components[i])
  }

  /** A list that names a place below the root: plain components, short enough, no drive in front. */
  predicate ValidComponents(components: seq<string>) {
    && AllPlain(components)
    && ByteLength(Join(components)) <= MAX_PATH_BYTES
    && (components != [] ==> !IsDriveLike(components[0]))
  }

  lemma {:induction false} RsplitIsUnique(parent: string, name: string)
    requires '/' !in name
    ensures RsplitOnce(parent + "/" + name) == Some((parent, name))
  {
    var path := parent + "/" + name;
    var r := RsplitOnce(path);
    assert path[|parent|] == '/';
    var (a, b) := r.value;
    assert path[|a|] == '/';
    assert |a| == |parent|;
    assert a == path[..|a|] && parent == path[..|parent|];
    assert b == path[|a| + 1..] && name == path[|parent| + 1..];
  }

  lemma {:induction false} JoinNonempty(components: seq<string>)
    requires components != [] && forall i :: 0 <= i < |components| ==> components[i] != ""
    ensures Join(components) != ""
  {
  }

  lemma {:induction false} SplitJoined(components: seq<string>)
    requires components != [] && AllPlain(components)
    ensures Split(Join(components), SLASH) == components
    decreases |components|
  {
    var before, last := components[..|components| - 1], components[|components| - 1];
    SplitWithout(last, SLASH);
    if before == [] {
      assert Join(components) == last;
    } else {
      JoinNonempty(before);
      SplitJoined(before);
      SplitAtSeparator(Join(before), '/', last, SLASH);
    }
  }

  /** Splitting and joining again gives the path back, if no component is empty. */
  lemma {:induction false} JoinSplit(path: string)
    requires path != "" && forall i :: 0 <= i < |Split(path, SLASH)| ==> Split(path, SLASH)[i] != ""
    ensures Join(Split(path, SLASH)) == path
    decreases |path|
  {
    match RsplitOnce(path) {
      case None =>
        SplitWithout(path, SLASH);
        assert [path][..0] == [];
      case Some((parent, name)) =>
        SplitAtSeparator(parent, '/', name, SLASH);
        SplitWithout(name, SLASH);
        var before := Split(parent, SLASH);
        assert (before + [name])[..|before|] == before;
        assert forall i :: 0 <= i < |before| ==> before[i] == Split(path, SLASH)[i];
        if parent != "" {
          JoinSplit(parent);
        }
    }
  }

  lemma {:induction false} JoinedContents(components: seq<string>)
    requires AllPlain(components)
    ensures '\\' !in Join(components) && !HasControl(Join(components))
    decreases |components|
  {
    if components != [] {
      JoinedContents(components[..|components| - 1]);
    }
  }

  lemma {:induction false} JoinedEnds(components: seq<string>)
    requires components != [] && AllPlain(components)
    ensures var path := Join(components);
      && path != "" && path[0] != '/' && path[|path| - 1] != '/'
      && (IsDriveLike(path) <==> IsDriveLike(components[0]))
      && components[0] <= path && (|components[0]| < |path| ==> path[|components[0]|] == '/')
    decreases |components|
  {
    var before, last := components[..|components| - 1], components[|components| - 1];
    assert last[0] in last && last[|last| - 1] in last;
    if before == [] {
      assert Join(components) == last;
    } else {
      JoinedEnds(before);
    }
  }

  lemma {:induction false} ComponentsOfValid(path: string)
    requires ValidPath(path) && path != ""
    ensures AllPlain(Split(path, SLASH)) && Join(Split(path, SLASH)) == path
  {
    SplitHasNoSeparators(path, SLASH);
    JoinSplit(path);
  }

  /** Valid paths are exactly the joined valid component lists, and splitting recovers the list. */
  lemma {:induction false} PathsAreComponentLists(path: string)
    ensures ValidPath(path) <==> ValidComponents(Components(path)) && Join(Components(path)) == path
  {
    if path != "" {
      if ValidPath(path) {
        ComponentsOfValid(path);
        JoinedEnds(Components(path));
      } else if ValidComponents(Components(path)) && Join(Components(path)) == path {
        JoinedEnds(Components(path));
        JoinedContents(Components(path));
      }
    }
  }

  lemma {:induction false} ComponentListsArePaths(components: seq<string>)
    requires ValidComponents(components)
    ensures ValidPath(Join(components)) && Components(Join(components)) == components
  {
    if components != [] {
      SplitJoined(components);
      JoinedEnds(components);
      JoinedContents(components);
    }
  }

  // Character by character

  /** The slashes cut out the part from `i` to `j`. */
  predicate SegmentAt(path: string, i: nat, j: nat) {
    && i <= j <= |path| && '/' !in path[i..j]
    && (i == 0 || path[i - 1] == '/') && (j == |path| || path[j] == '/')
  }

  ghost predicate NoSegmentUnusable(path: string) {
    forall i: nat, j: nat :: SegmentAt(path, i, j) ==> path[i..j] != "" && path[i..j] != "." && path[i..j] != ".."
  }

  lemma LonelySegment(path: string, i: nat, j: nat)
    requires '/' !in path
    ensures SegmentAt(path, i, j) <==> i == 0 && j == |path|
  {
    assert path[0..|path|] == path;
  }

  /** The segments of a joined path are those before the slash and the one after it. */
  lemma SegmentOfJoined(parent: string, name: string, i: nat, j: nat)
    requires '/' !in name
    ensures var path := parent + "/" + name;
      SegmentAt(path, i, j) <==> SegmentAt(parent, i, j) || (i == |parent| + 1 && j == |path|)
  {
    var path, n := parent + "/" + name, |parent|;
    assert path[n] == '/';
    assert path[n + 1..|path|] == name;
    assert forall k :: n < k < |path| ==> path[k] != '/' by {
      assert forall k :: n < k < |path| ==> path[k] == name[k - (n + 1)];
    }
    if i <= j <= n {
      assert path[i..j] == parent[i..j];
    }
    assert i <= n < j <= |path| ==> '/' in path[i..j] by {
      if i <= n < j <= |path| {
        assert path[i..j][n - i] == '/';
      }
    }
  }

  lemma LonelyUsable(path: string)
    requires '/' !in path
    ensures NoSegmentUnusable(path) <==> Usable(path)
  {
    forall i: nat, j: nat ensures SegmentAt(path, i, j) <==> i == 0 && j == |path| {
      LonelySegment(path, i, j);
    }
    assert SegmentAt(path, 0, |path|) && path[0..|path|] == path;
  }

  lemma {:induction false} SegmentsAreSplit(path: string)
    ensures AllUsable(Split(path, SLASH)) <==> NoSegmentUnusable(path)
    decreases |path|
  {
    match RsplitOnce(path) {
      case None =>
        SplitWithout(path, SLASH);
        LonelyUsable(path);
        assert Split(path, SLASH)[0] == path;
      case Some((parent, name)) =>
        SplitAtSeparator(parent, '/', name, SLASH);
        SplitWithout(name, SLASH);
        hide Split;
        SegmentsAreSplit(parent);
        JoinedSegments(parent, name);
        var before, parts := Split(parent, SLASH), Split(path, SLASH);
        assert forall i :: 0 <= i < |before| ==> parts[i] == before[i];
        assert parts[|before|] == name;
    }
  }

  lemma {:induction false} JoinedSegments(parent: string, name: string)
    requires '/' !in name
    ensures NoSegmentUnusable(parent + "/" + name) <==> NoSegmentUnusable(parent) && Usable(name)
  {
    var path := parent + "/" + name;
    forall i: nat, j: nat
      ensures SegmentAt(path, i, j) <==> SegmentAt(parent, i, j) || (i == |parent| + 1 && j == |path|)
    {
      SegmentOfJoined(parent, name, i, j);
    }
    assert path[|parent| + 1..|path|] == name;
    assert SegmentAt(path, |parent| + 1, |path|);
    forall i: nat, j: nat | SegmentAt(parent, i, j) ensures path[i..j] == parent[i..j] {
    }
    hide SegmentAt;
  }

  /** Every character is no control character and no backslash. */
  predicate PlainCharacters(s: string) {
    forall k :: 0 <= k < |s| ==> s[k] != '\\' && s[k] as int >= 0x20 && !(0x7f <= s[k] as int < 0xa0)
  }

  lemma PlainIff(s: string)
    ensures PlainCharacters(s) <==> '\\' !in s && !HasControl(s)
  {
    if !HasControl(s) && '\\' !in s {
      forall k | 0 <= k < |s| ensures s[k] != '\\' && !IsControl(s[k]) {
        assert s[k] in s;
      }
    }
    if c :| c in s && IsControl(c) {
      var k :| 0 <= k < |s| && s[k] == c;
    }
  }

  lemma SlashAtEnd(path: string)
    requires path != ""
    ensures path[0] == '/' || path[|path| - 1] == '/' ==> !NoSegmentUnusable(path)
  {
    if path[0] == '/' {
      assert SegmentAt(path, 0, 0);
    }
    if path[|path| - 1] == '/' {
      assert SegmentAt(path, |path|, |path|);
    }
  }

  /**
   * A path is valid exactly if it is short enough, has no backslash and no
   * control character, does not begin with a drive, and no two slashes or ends
   * next to each other enclose nothing, a dot or two dots.
   */
  lemma {:induction false} ValidPathIff(path: string)
    ensures ValidPath(path) <==>
      || path == ""
      || (&& ByteLength(path) <= 4096 && PlainCharacters(path) && NoSegmentUnusable(path)
          && !(|path| >= 2 && ('a' <= path[0] <= 'z' || 'A' <= path[0] <= 'Z') && path[1] == ':'))
  {
    if path != "" {
      SegmentsAreSplit(path);
      PlainIff(path);
      SlashAtEnd(path);
    }
    hide ByteLength, HasControl, PlainCharacters, NoSegmentUnusable, AllUsable;
  }

  /** A name is valid exactly if it is short enough and a usable segment of its own. */
  lemma {:induction false} ValidNameIff(name: string)
    ensures ValidName(name) <==>
      ByteLength(name) <= 1024 && PlainCharacters(name) && '/' !in name && name != "" && name != "." && name != ".."
    ensures ValidName(name) ==> NoSegmentUnusable(name)
  {
    hide ByteLength, HasControl, PlainCharacters, NoSegmentUnusable;
    PlainIff(name);
    if '/' !in name {
      LonelyUsable(name);
    }
  }

  // Resolving

  /** How an operating system walks one component from an absolute place. */
  function Walk(place: seq<string>, component: string): seq<string> {
    if component == "" || component == "." then place
    else if component == ".." then (if place == [] then [] else place[..|place| - 1])
    else place + [component]
  }

  function Resolve(root: seq<string>, components: seq<string>): seq<string> {
    if components == [] then root else Walk(Resolve(root, components[..|components| - 1]), components[|components| - 1])
  }

  /** No part of the way along a valid path leaves the root. */
  lemma {:induction false} ResolvesBelowRoot(root: seq<string>, path: string, n: nat)
    requires ValidPath(path) && n <= |Split(path, SLASH)|
    ensures Resolve(root, Split(path, SLASH)[..n]) == root + (if path == "" then [] else Split(path, SLASH)[..n])
    decreases n
  {
    var parts := Split(path, SLASH);
    if n == 0 {
      assert parts[..0] == [] && root + [] == root;
    } else {
      ResolvesBelowRoot(root, path, n - 1);
      assert parts[..n][..n - 1] == parts[..n - 1];
      if path == "" {
        assert parts == [""] && n == 1;
      } else {
        assert Usable(parts[n - 1]);
        assert parts[..n] == parts[..n - 1] + [parts[n - 1]];
      }
    }
  }

  // Parents and children

  lemma {:induction false} SplitOffLast(path: string)
    requires ValidPath(path) && path != ""
    ensures var parts := Split(path, SLASH);
      && ParentPath(path) == Join(parts[..|parts| - 1]) && LastName(path) == parts[|parts| - 1]
      && path == ChildPath(ParentPath(path), LastName(path))
      && AllPlain(parts)
  {
    hide ValidPath, HasControl, ByteLength, Split;
    var parts := Split(path, SLASH);
    ComponentsOfValid(path);
    var before, last := parts[..|parts| - 1], parts[|parts| - 1];
    if before != [] {
      JoinNonempty(before);
      RsplitIsUnique(Join(before), last);
    }
  }

  lemma {:induction false} ShorterIsValid(components: seq<string>)
    requires components != [] && ValidComponents(components)
    ensures ValidComponents(components[..|components| - 1])
  {
    var before, last := components[..|components| - 1], components[|components| - 1];
    if before != [] {
      ByteLengthConcat(Join(before) + "/", last);
      ByteLengthConcat(Join(before), "/");
    }
  }

  /** A valid path is the child of its parent, which is valid too. */
  lemma {:induction false} ChildOfParent(path: string)
    requires ValidPath(path) && path != ""
    ensures ChildPath(ParentPath(path), LastName(path)) == path
    ensures ValidPath(ParentPath(path))
    ensures ValidName(LastName(path)) <==> ByteLength(LastName(path)) <= MAX_NAME_BYTES
  {
    SplitOffLast(path);
    PathsAreComponentLists(path);
    hide ValidPath, ValidComponents, ByteLength, Split, Join, ParentPath, LastName;
    var parts := Split(path, SLASH);
    ShorterIsValid(parts);
    ComponentListsArePaths(parts[..|parts| - 1]);
    assert ValidComponent(LastName(path));
  }

  /**
   * A valid parent and a valid name make a valid path, except when it gets too
   * long or the name looks like a drive at the root.
   */
  lemma {:induction false} ChildIsValidIff(parent: string, name: string)
    requires ValidPath(parent) && ValidName(name)
    ensures var child := ChildPath(parent, name);
      && (ValidPath(child) <==> ByteLength(child) <= MAX_PATH_BYTES && !(parent == "" && IsDriveLike(name)))
      && ParentPath(child) == parent && LastName(child) == name
  {
    var child := ChildPath(parent, name);
    var before := Components(parent);
    var parts := before + [name];
    assert parts[..|before|] == before;
    if parent != "" {
      ComponentsOfValid(parent);
      RsplitIsUnique(parent, name);
    }
    assert Join(parts) == child;
    assert AllPlain(parts);
    JoinedEnds(parts);
    if parent != "" {
      JoinedEnds(before);
    }
    SplitJoined(parts);
    if ByteLength(child) <= MAX_PATH_BYTES && !(parent == "" && IsDriveLike(name)) {
      ComponentListsArePaths(parts);
    }
  }

  /** Checking an entry on its own agrees with checking it against the parent its path names. */
  lemma {:induction false} EntryChecksAgree(entry: Entry)
    ensures ValidEntry(entry, None) <==> entry.path != "" && ValidEntry(entry, Some(ParentPath(entry.path)))
  {
    if ValidName(entry.name) && ValidPath(entry.path) && entry.path != "" {
      ChildOfParent(entry.path);
      var parent := ParentPath(entry.path);
      if entry.path == ChildPath(parent, entry.name) {
        ChildIsValidIff(parent, entry.name);
      }
    }
  }
}
