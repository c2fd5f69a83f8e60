/** The path of a file, built by following the parents of its directory. */
module Paths {
  import opened Common

  datatype Directory = Directory(directoryId: uint64, parentId: uint64, name: string)

  const NAME_LIMIT: nat := 256

  /** The first directory with the id, as the linear search finds it; |dirs| if there is none. */
  function Find(dirs: seq<Directory>, id: uint64, from: nat): (j: nat)
    requires from <= |dirs|
    ensures from <= j <= |dirs|
    ensures j < |dirs| ==> dirs[j].directoryId == id
    ensures forall k :: from <= k < j ==> dirs[k].directoryId != id
    decreases |dirs| - from
  {
    if from == |dirs| || dirs[from].directoryId == id then from else Find(dirs, id, from + 1)
  }

  /** The directories from the file's own one up to the root, by position. */
  ghost predicate IsChain(dirs: seq<Directory>, id: uint64, chain: seq<nat>)
    decreases |chain|
  {
    if id == 0 then chain == []
    else chain != [] && chain[0] == Find(dirs, id, 0) < |dirs| && IsChain(dirs, dirs[chain[0]].parentId, chain[1..])
  }

  /** There is at most one such chain. */
  lemma {:induction false} ChainUnique(dirs: seq<Directory>, id: uint64, a: seq<nat>, b: seq<nat>)
    requires IsChain(dirs, id, a) && IsChain(dirs, id, b)
    ensures a == b
    decreases |a|
  {
    if id != 0 {
      ChainUnique(dirs, dirs[a[0]].parentId, a[1..], b[1..]);
      assert a == [a[0]] + a[1..] && b == [b[0]] + b[1..];
    }
  }

  /** Names from the root to the leaf. */
  ghost function Names(dirs: seq<Directory>, chain: seq<nat>, leaf: string): seq<string>
    requires forall k :: 0 <= k < |chain| ==> chain[k] < |dirs|
  {
    if chain == [] then [leaf] else Names(dirs, chain[1..], dirs[chain[0]].name) + [leaf]
  }

  function Join(names: seq<string>): string {
    if names == [] then "" else if |names| == 1 then names[0] else names[0] + "/" + Join(names[1..])
  }

  function FirstSlash(s: string, from: nat): (i: nat)
    requires from <= |s|
    ensures from <= i <= |s| && (i < |s| ==> s[i] == '/')
    ensures forall k :: from <= k < i ==> s[k] != '/'
    decreases |s| - from
  {
    if from == |s| || s[from] == '/' then from else FirstSlash(s, from + 1)
  }

  /** The names in a path. */
  function Split(path: string): seq<string>
    decreases |path|
  {
    var i := FirstSlash(path, 0);
    if i == |path| then [path] else [path[..i]] + Split(path[i + 1..])
  }

  /** A path determines its names, provided that none of them contains a slash. */
  lemma {:induction false} NamesReadBack(names: seq<string>)
    requires names != [] && forall n :: n in names ==> '/' !in n
    ensures Split(Join(names)) == names
  {
    hide Split;
    var first := names[0];
    assert first in names;
    if |names| == 1 {
      SplitLast(first);
      assert names == [first];
    } else {
      NamesReadBack(names[1..]);
      SplitFirst(first, Join(names[1..]));
      assert names == [first] + names[1..];
    }
  }

  lemma SplitLast(name: string)
    requires '/' !in name
    ensures Split(name) == [name]
  {
  }

  lemma SplitFirst(first: string, rest: string)
    requires '/' !in first
    ensures Split(first + "/" + rest) == [first] + Split(rest)
  {
    var path := first + "/" + rest;
    assert path[..|first|] == first && path[|first|] == '/' && path[|first| + 1..] == rest;
    assert forall k :: 0 <= k < |first| ==> path[k] == first[k];
    assert FirstSlash(path, 0) == |first|;
  }

  lemma {:induction false} JoinSnoc(names: seq<string>, a: string, b: string)
    ensures Join(names + [a] + [b]) == Join(names + [a + "/" + b])
  {
    if names == [] {
      assert [] + [a] + [b] == [a, b] && [] + [a + "/" + b] == [a + "/" + b];
      assert [a, b][1..] == [b];
    } else {
      JoinSnoc(names[1..], a, b);
      assert (names + [a] + [b])[1..] == names[1..] + [a] + [b];
      assert (names + [a + "/" + b])[1..] == names[1..] + [a + "/" + b];
    }
  }

  lemma {:induction false} ChainInside(dirs: seq<Directory>, id: uint64, chain: seq<nat>)
    requires IsChain(dirs, id, chain)
    ensures forall k :: 0 <= k < |chain| ==> chain[k] < |dirs|
    decreases |chain|
  {
    if id != 0 {
      ChainInside(dirs, dirs[chain[0]].parentId, chain[1..]);
      forall k | 0 <= k < |chain| ensures chain[k] < |dirs| {
        if k > 0 {
          assert chain[k] == chain[1..][k - 1];
        }
      }
    }
  }

  /** The text that the loop has when it has gone up the whole chain. */
  ghost function PathText(dirs: seq<Directory>, chain: seq<nat>, text: string): string
    requires forall k :: 0 <= k < |chain| ==> chain[k] < |dirs|
  {
    if chain == [] then text else PathText(dirs, chain[1..], dirs[chain[0]].name + "/" + text)
  }

  /** The names from the root to the leaf, joined by slashes. */
  lemma {:induction false} PathIsJoin(dirs: seq<Directory>, chain: seq<nat>, leaf: string)
    requires forall k :: 0 <= k < |chain| ==> chain[k] < |dirs|
    ensures PathText(dirs, chain, leaf) == Join(Names(dirs, chain, leaf))
    decreases |chain|
  {
    if chain != [] {
      var up := dirs[chain[0]].name;
      PathIsJoin(dirs, chain[1..], up + "/" + leaf);
      NamesSplit(dirs, chain[1..], up, leaf);
    }
  }

  lemma NamesSplit(dirs: seq<Directory>, chain: seq<nat>, up: string, leaf: string)
    requires forall k :: 0 <= k < |chain| ==> chain[k] < |dirs|
    ensures Join(Names(dirs, chain, up + "/" + leaf)) == Join(Names(dirs, chain, up) + [leaf])
  {
    var above := if chain == [] then [] else Names(dirs, chain[1..], dirs[chain[0]].name);
    assert Names(dirs, chain, up + "/" + leaf) == above + [up + "/" + leaf];
    assert Names(dirs, chain, up) + [leaf] == above + [up] + [leaf];
    JoinSnoc(above, up, leaf);
  }

  lemma {:induction false} PathGrows(dirs: seq<Directory>, chain: seq<nat>, text: string)
    requires forall k :: 0 <= k < |chain| ==> chain[k] < |dirs|
    ensures |PathText(dirs, chain, text)| >= |text| + |chain|
    decreases |chain|
  {
    if chain != [] {
      PathGrows(dirs, chain[1..], dirs[chain[0]].name + "/" + text);
    }
  }

  /** A path can be built: the parents lead to the root, and the result is short enough for its buffer. */
  ghost predicate Buildable(dirs: seq<Directory>, id: uint64, leaf: string, chain: seq<nat>) {
    && IsChain(dirs, id, chain)
    && (forall k :: 0 <= k < |chain| ==> chain[k] < |dirs|)
    && (chain == [] || |PathText(dirs, chain, leaf)| < NAME_LIMIT)
  }

  /** The parents lead to the root, and the joined names have at most 255 characters. */
  ghost predicate FitsBuffer(dirs: seq<Directory>, id: uint64, leaf: string, chain: seq<nat>) {
    && IsChain(dirs, id, chain)
    && (forall k :: 0 <= k < |chain| ==> chain[k] < |dirs|)
    && |Join(Names(dirs, chain, leaf))| <= 255
  }

  lemma FittingIsBuildable(dirs: seq<Directory>, id: uint64, leaf: string)
    ensures (exists chain :: FitsBuffer(dirs, id, leaf, chain)) ==> exists chain :: Buildable(dirs, id, leaf, chain)
    ensures forall chain :: Buildable(dirs, id, leaf, chain) && id != 0 ==> |Join(Names(dirs, chain, leaf))| <= 255
  {
    forall chain | FitsBuffer(dirs, id, leaf, chain) ensures Buildable(dirs, id, leaf, chain) {
      PathIsJoin(dirs, chain, leaf);
    }
    forall chain | Buildable(dirs, id, leaf, chain) && id != 0 ensures |Join(Names(dirs, chain, leaf))| <= 255 {
      PathIsJoin(dirs, chain, leaf);
    }
  }

  /** Where the loop stands: the chains from the file's directory are those from the current one, behind the
      directories already passed, and they make the same text. */
  ghost predicate Climbed(dirs: seq<Directory>, id: uint64, leaf: string, below: seq<nat>, current: uint64,
                          text: string) {
    && (forall rest :: IsChain(dirs, current, rest) ==> Joins(dirs, id, leaf, below, rest, text))
    && (forall chain :: IsChain(dirs, id, chain) ==>
         |below| <= |chain| && chain[..|below|] == below && IsChain(dirs, current, chain[|below|..]))
  }

  ghost predicate Joins(dirs: seq<Directory>, id: uint64, leaf: string, below: seq<nat>, rest: seq<nat>, text: string) {
    && IsChain(dirs, id, below + rest)
    && (forall k :: 0 <= k < |below + rest| ==> (below + rest)[k] < |dirs|)
    && (forall k :: 0 <= k < |rest| ==> rest[k] < |dirs|)
    && PathText(dirs, below + rest, leaf) == PathText(dirs, rest, text)
  }

  lemma ClimbStart(dirs: seq<Directory>, id: uint64, leaf: string)
    ensures Climbed(dirs, id, leaf, [], id, leaf)
  {
    forall rest | IsChain(dirs, id, rest) ensures Joins(dirs, id, leaf, [], rest, leaf) {
      ChainInside(dirs, id, rest);
      assert [] + rest == rest;
    }
    forall chain | IsChain(dirs, id, chain) ensures IsChain(dirs, id, chain[0..]) {
      assert chain[0..] == chain;
    }
  }

  lemma ClimbStep(dirs: seq<Directory>, id: uint64, leaf: string, below: seq<nat>, current: uint64, text: string,
                  j: nat)
    requires Climbed(dirs, id, leaf, below, current, text) && current != 0 && j == Find(dirs, current, 0) < |dirs|
    ensures Climbed(dirs, id, leaf, below + [j], dirs[j].parentId, dirs[j].name + "/" + text)
  {
    hide Joins, IsChain;
    forall rest | IsChain(dirs, dirs[j].parentId, rest)
      ensures Joins(dirs, id, leaf, below + [j], rest, dirs[j].name + "/" + text)
    {
      ChainCons(dirs, current, j, rest);
      JoinsStep(dirs, id, leaf, below, j, rest, text);
    }
    forall chain | IsChain(dirs, id, chain)
      ensures |below| + 1 <= |chain| && chain[..|below| + 1] == below + [j] &&
              IsChain(dirs, dirs[j].parentId, chain[|below| + 1..])
    {
      ChainStep(dirs, below, current, chain, j);
    }
  }

  lemma ChainStep(dirs: seq<Directory>, below: seq<nat>, current: uint64, chain: seq<nat>, j: nat)
    requires current != 0 && j == Find(dirs, current, 0) < |dirs|
    requires |below| <= |chain| && chain[..|below|] == below && IsChain(dirs, current, chain[|below|..])
    ensures |below| + 1 <= |chain| && chain[..|below| + 1] == below + [j] &&
            IsChain(dirs, dirs[j].parentId, chain[|below| + 1..])
  {
    var more := chain[|below|..];
    assert more[1..] == chain[|below| + 1..] && more[0] == chain[|below|];
    assert chain[..|below| + 1] == chain[..|below|] + [chain[|below|]];
  }

  lemma ChainCons(dirs: seq<Directory>, current: uint64, j: nat, rest: seq<nat>)
    requires current != 0 && j == Find(dirs, current, 0) < |dirs| && IsChain(dirs, dirs[j].parentId, rest)
    ensures IsChain(dirs, current, [j] + rest)
  {
    assert ([j] + rest)[1..] == rest;
  }

  lemma JoinsStep(dirs: seq<Directory>, id: uint64, leaf: string, below: seq<nat>, j: nat, rest: seq<nat>, text: string)
    requires j < |dirs| && Joins(dirs, id, leaf, below, [j] + rest, text)
    ensures Joins(dirs, id, leaf, below + [j], rest, dirs[j].name + "/" + text)
  {
    var more := [j] + rest;
    assert more[1..] == rest && more[0] == j;
    assert below + more == below + [j] + rest;
    assert forall k :: 0 <= k < |rest| ==> rest[k] == more[k + 1];
  }

  lemma ClimbStuck(dirs: seq<Directory>, id: uint64, leaf: string, below: seq<nat>, current: uint64, text: string)
    requires Climbed(dirs, id, leaf, below, current, text) && current != 0 && Find(dirs, current, 0) == |dirs|
    ensures forall chain :: !IsChain(dirs, id, chain)
  {
    forall chain ensures !IsChain(dirs, id, chain) {
      assert |below| <= |chain| ==> !IsChain(dirs, current, chain[|below|..]);
    }
  }

  lemma ClimbTooLong(dirs: seq<Directory>, id: uint64, leaf: string, below: seq<nat>, current: uint64, text: string)
    requires Climbed(dirs, id, leaf, below, current, text) && below != [] && |text| >= NAME_LIMIT
    ensures forall chain :: !Buildable(dirs, id, leaf, chain)
  {
    forall chain ensures !Buildable(dirs, id, leaf, chain) {
      if IsChain(dirs, id, chain) {
        var rest := chain[|below|..];
        assert IsChain(dirs, current, rest);
        assert Joins(dirs, id, leaf, below, rest, text) && below + rest == chain;
        PathGrows(dirs, rest, text);
      }
    }
  }

  lemma ClimbEnd(dirs: seq<Directory>, id: uint64, leaf: string, below: seq<nat>, text: string)
    requires Climbed(dirs, id, leaf, below, 0, text) && (below != [] ==> |text| < NAME_LIMIT)
    ensures Buildable(dirs, id, leaf, below) && text == Join(Names(dirs, below, leaf))
  {
    assert IsChain(dirs, 0, []);
    assert Joins(dirs, id, leaf, below, [], text) && below + [] == below;
    PathIsJoin(dirs, below, leaf);
  }

  /** The path loop. None stands for a failed assertion: a missing directory, or a name that gets too long. The
      second one also stops it on a directory that is its own ancestor. */
  method BuildPath(dirs: seq<Directory>, id: uint64, leaf: string) returns (path: Option<string>)
    ensures path.Some? ==>
              exists chain :: Buildable(dirs, id, leaf, chain) && path.value == Join(Names(dirs, chain, leaf))
    ensures path == None ==> forall chain :: !Buildable(dirs, id, leaf, chain)
    ensures (exists chain :: FitsBuffer(dirs, id, leaf, chain)) ==> path.Some?
    ensures path.Some? && id != 0 ==> |path.value| <= 255
  {
    FittingIsBuildable(dirs, id, leaf);
    hide Climbed, Buildable, IsChain, FitsBuffer;
    var directoryId := id;
    var tempName := leaf;
    ghost var below: seq<nat> := [];
    ClimbStart(dirs, id, leaf);
    while directoryId != 0
      invariant Climbed(dirs, id, leaf, below, directoryId, tempName) && (below != [] ==> |tempName| < NAME_LIMIT)
      decreases if below != [] then NAME_LIMIT - |tempName| else NAME_LIMIT + 1
    {
      var j: nat := 0;
      while j < |dirs| && dirs[j].directoryId != directoryId
        invariant j <= |dirs| && Find(dirs, directoryId, 0) == Find(dirs, directoryId, j)
      {
        j := j + 1;
      }
      if j == |dirs| {
        ClimbStuck(dirs, id, leaf, below, directoryId, tempName);
        NoChain(dirs, id, leaf);
        return None;
      }
      ClimbStep(dirs, id, leaf, below, directoryId, tempName, j);
      directoryId := dirs[j].parentId;
      var backupName := tempName;
      tempName := dirs[j].name + "/" + backupName;
      below := below + [j];
      if |tempName| >= NAME_LIMIT {
        ClimbTooLong(dirs, id, leaf, below, directoryId, tempName);
        return None;
      }
    }
    ClimbEnd(dirs, id, leaf, below, tempName);
    path := Some(tempName);
  }

  lemma NoChain(dirs: seq<Directory>, id: uint64, leaf: string)
    requires forall chain :: !IsChain(dirs, id, chain)
    ensures forall chain :: !Buildable(dirs, id, leaf, chain)
  {
  }

  // When the loop comes to an end by itself.

  /** A walk from directory to parent directory. */
  ghost predicate IsWalk(dirs: seq<Directory>, walk: seq<nat>) {
    && (forall k :: 0 <= k < |walk| ==> walk[k] < |dirs|)
    && (forall k :: 0 <= k < |walk| ==> LedTo(dirs, walk, k))
  }

  /** The k-th directory of the walk is the parent of the one before it. */
  ghost predicate LedTo(dirs: seq<Directory>, walk: seq<nat>, k: nat) {
    0 < k < |walk| && walk[k - 1] < |dirs| ==>
      dirs[walk[k - 1]].parentId != 0 && Find(dirs, dirs[walk[k - 1]].parentId, 0) == walk[k]
  }

  ghost predicate NoOwnAncestor(dirs: seq<Directory>) {
    forall walk :: IsWalk(dirs, walk) && |walk| >= 2 ==> walk[0] != walk[|walk| - 1]
  }

  ghost predicate ParentsExist(dirs: seq<Directory>) {
    forall d :: 0 <= d < |dirs| && dirs[d].parentId != 0 ==> Find(dirs, dirs[d].parentId, 0) < |dirs|
  }

  function Below(n: nat): (s: set<nat>)
    ensures |s| == n && forall k: nat :: k in s <==> k < n
  {
    if n == 0 then {} else Below(n - 1) + {n - 1}
  }

  lemma SubsetSize(a: set<nat>, b: set<nat>)
    requires a <= b
    ensures |a| <= |b|
  {
    assert b == a + (b - a);
  }

  ghost function Elements(walk: seq<nat>): set<nat> {
    set k | k in walk
  }

  lemma {:induction false} DistinctSize(walk: seq<nat>)
    requires forall i, j :: 0 <= i < j < |walk| ==> walk[i] != walk[j]
    ensures |Elements(walk)| == |walk|
  {
    if walk != [] {
      var n := |walk| - 1;
      DistinctSize(walk[..n]);
      assert walk == walk[..n] + [walk[n]];
      assert Elements(walk) == Elements(walk[..n]) + {walk[n]};
      assert walk[n] !in Elements(walk[..n]);
    } else {
      assert Elements(walk) == {};
    }
  }

  /** A walk that never returns is no longer than the directory list. */
  lemma WalkIsShort(dirs: seq<Directory>, walk: seq<nat>)
    requires NoOwnAncestor(dirs) && IsWalk(dirs, walk)
    ensures |walk| <= |dirs|
  {
    forall i, j | 0 <= i < j < |walk| ensures walk[i] != walk[j] {
      var part := walk[i..j + 1];
      assert IsWalk(dirs, part) by {
        forall k | 0 <= k < |part| ensures LedTo(dirs, part, k) {
          assert LedTo(dirs, walk, i + k);
        }
      }
      assert part[0] == walk[i] && part[|part| - 1] == walk[j];
    }
    DistinctSize(walk);
    assert forall x :: x in walk ==> x in Below(|dirs|);
    SubsetSize(Elements(walk), Below(|dirs|));
  }

  /** If all parents exist and no directory is its own ancestor, every chain ends, within the number of directories. */
  lemma {:induction false} ChainExists(dirs: seq<Directory>, id: uint64, walk: seq<nat>) returns (chain: seq<nat>)
    requires ParentsExist(dirs) && NoOwnAncestor(dirs) && IsWalk(dirs, walk)
    requires if walk == [] then id == 0 || Find(dirs, id, 0) < |dirs| else id == dirs[walk[|walk| - 1]].parentId
    ensures IsChain(dirs, id, chain) && |walk| + |chain| <= |dirs|
    decreases |dirs| - |walk|
  {
    WalkIsShort(dirs, walk);
    if id == 0 {
      chain := [];
    } else {
      var j := Find(dirs, id, 0);
      if walk != [] {
        assert Find(dirs, dirs[walk[|walk| - 1]].parentId, 0) < |dirs|;
      }
      var longer := walk + [j];
      assert IsWalk(dirs, longer) by {
        forall k | 0 <= k < |longer| ensures LedTo(dirs, longer, k) {
          assert k < |walk| ==> LedTo(dirs, walk, k);
        }
      }
      WalkIsShort(dirs, longer);
      var rest := ChainExists(dirs, dirs[j].parentId, longer);
      chain := [j] + rest;
      assert chain[1..] == rest;
    }
  }

  ghost predicate HasChain(dirs: seq<Directory>, id: uint64) {
    exists chain :: IsChain(dirs, id, chain)
  }

  lemma {:induction false} ChainAlong(dirs: seq<Directory>, walk: seq<nat>, chain: seq<nat>)
    requires IsWalk(dirs, walk) && walk != [] && IsChain(dirs, dirs[walk[0]].parentId, chain)
    ensures |chain| >= |walk| - 1 && IsChain(dirs, dirs[walk[|walk| - 1]].parentId, chain[|walk| - 1..])
    decreases |walk|
  {
    if |walk| == 1 {
      assert chain[0..] == chain;
    } else {
      assert LedTo(dirs, walk, 1);
      forall k | 0 <= k < |walk| - 1 ensures LedTo(dirs, walk[1..], k) {
        assert LedTo(dirs, walk, k + 1);
      }
      ChainAlong(dirs, walk[1..], chain[1..]);
      assert chain[1..][|walk| - 2..] == chain[|walk| - 1..];
    }
  }

  /** The loop comes to an end from every directory exactly if all parents exist and no directory is its own
      ancestor. */
  lemma EveryChainEnds(dirs: seq<Directory>)
    ensures (forall d :: 0 <= d < |dirs| ==>
              HasChain(dirs, dirs[d].parentId)) <==> ParentsExist(dirs) && NoOwnAncestor(dirs)
  {
    if ParentsExist(dirs) && NoOwnAncestor(dirs) {
      forall d | 0 <= d < |dirs| ensures HasChain(dirs, dirs[d].parentId) {
        var chain := ChainExists(dirs, dirs[d].parentId, [d]);
      }
    }
    if forall d :: 0 <= d < |dirs| ==> HasChain(dirs, dirs[d].parentId) {
      forall d | 0 <= d < |dirs| && dirs[d].parentId != 0 ensures Find(dirs, dirs[d].parentId, 0) < |dirs| {
        assert HasChain(dirs, dirs[d].parentId);
      }
      forall walk | IsWalk(dirs, walk) && |walk| >= 2 ensures walk[0] != walk[|walk| - 1] {
        assert HasChain(dirs, dirs[walk[0]].parentId);
        var chain :| IsChain(dirs, dirs[walk[0]].parentId, chain);
        ChainAlong(dirs, walk, chain);
        if dirs[walk[0]].parentId == dirs[walk[|walk| - 1]].parentId {
          ChainUnique(dirs, dirs[walk[0]].parentId, chain, chain[|walk| - 1..]);
          assert false;
        }
      }
    }
  }

  /** Then the only way for a path to fail is a name that does not fit its buffer. */
  lemma PathFailsOnlyByLength(dirs: seq<Directory>, id: uint64, leaf: string) returns (chain: seq<nat>)
    requires ParentsExist(dirs) && NoOwnAncestor(dirs) && (id == 0 || Find(dirs, id, 0) < |dirs|)
    ensures |chain| <= |dirs| && IsChain(dirs, id, chain) && (forall k :: 0 <= k < |chain| ==> chain[k] < |dirs|)
    ensures (exists c :: Buildable(dirs, id, leaf, c)) <==> (chain == [] || |Join(Names(dirs, chain, leaf))| <= 255)
  {
    chain := ChainExists(dirs, id, []);
    ChainInside(dirs, id, chain);
    PathIsJoin(dirs, chain, leaf);
    if c :| Buildable(dirs, id, leaf, c) {
      ChainUnique(dirs, id, c, chain);
    } else if chain == [] || |Join(Names(dirs, chain, leaf))| < NAME_LIMIT {
      assert Buildable(dirs, id, leaf, chain);
    }
  }
}
