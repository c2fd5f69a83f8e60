/** `group_by_bundles`: the chunks of one file, sorted into one list per bundle. */
module Grouping {
  import opened Common
  import opened Ordering
  import opened Lists

  /** A bundle entry holds its own chunk list. (An unused slot of the bundle array holds none.) */
  datatype Bundle = Bundle(bundleId: uint64, chunks: List?<Chunk>)

  function BundleIdOf(c: Chunk): int { c.bundleId }

  function OffsetOf(c: Chunk): int { c.bundleOffset }

  function IdOf(b: Bundle): int { b.bundleId }

  /** What the finished bundle list says, without its memory. */
  datatype Group = Group(bundleId: uint64, chunks: seq<Chunk>)

  ghost predicate IsGroup(g: Group, input: seq<Chunk>) {
    && g.chunks != []
    && Sorted(g.chunks, OffsetOf)
    && multiset(g.chunks) == multiset(WithKey(input, BundleIdOf, g.bundleId))
  }

  /** The groups have strictly increasing bundle ids, and each holds the chunks of its bundle, in bundle order. */
  ghost predicate Grouped(groups: seq<Group>, input: seq<Chunk>) {
    && (forall i, j :: 0 <= i < j < |groups| ==> groups[i].bundleId < groups[j].bundleId)
    && (forall i :: 0 <= i < |groups| ==> IsGroup(groups[i], input))
    && (forall c :: c in input ==> exists i :: 0 <= i < |groups| && groups[i].bundleId == c.bundleId)
  }

  /** The bundles own their chunk lists, and no two of them share memory. */
  ghost predicate Separate(s: seq<Bundle>)
    reads set b | b in s :: b.chunks
  {
    && (forall i :: 0 <= i < |s| ==> s[i].chunks != null && s[i].chunks.Valid() && s[i].chunks.allocatedLength >= 16)
    && (forall i, j :: 0 <= i < j < |s| ==> s[i].chunks != s[j].chunks && s[i].chunks.objects != s[j].chunks.objects)
  }

  /** The bundles show these groups, once their memory is forgotten. */
  ghost predicate Shows(s: seq<Bundle>, groups: seq<Group>)
    requires Separate(s)
    reads set b | b in s :: b.chunks
    reads set b | b in s && b.chunks != null :: b.chunks.objects
  {
    && |groups| == |s|
    && forall i :: 0 <= i < |s| ==> groups[i].bundleId == s[i].bundleId && groups[i].chunks == s[i].chunks.Contents()
  }

  lemma WithKeySnoc(input: seq<Chunk>, c: Chunk, k: int)
    ensures WithKey(input + [c], BundleIdOf, k) == WithKey(input, BundleIdOf, k) + (if c.bundleId == k then [c] else [])
  {
    WithKeyConcat(input, [c], BundleIdOf, k);
  }

  lemma OtherGroup(g: Group, input: seq<Chunk>, c: Chunk)
    requires IsGroup(g, input) && g.bundleId != c.bundleId
    ensures IsGroup(g, input + [c])
  {
    WithKeySnoc(input, c, g.bundleId);
  }

  lemma FirstOfGroup(input: seq<Chunk>, c: Chunk)
    requires forall x :: x in input ==> x.bundleId != c.bundleId
    ensures IsGroup(Group(c.bundleId, [c]), input + [c])
  {
    forall k | 0 <= k < |input| ensures BundleIdOf(input[k]) != c.bundleId {
      assert input[k] in input;
    }
    WithKeyNone(input, BundleIdOf, c.bundleId);
    WithKeySnoc(input, c, c.bundleId);
  }

  lemma LaterOfGroup(g: Group, input: seq<Chunk>, c: Chunk, at: nat)
    requires IsGroup(g, input) && g.bundleId == c.bundleId && at <= |g.chunks|
    requires Sorted(g.chunks[..at] + [c] + g.chunks[at..], OffsetOf)
    ensures IsGroup(Group(c.bundleId, g.chunks[..at] + [c] + g.chunks[at..]), input + [c])
  {
    hide Sorted;
    WithKeySnoc(input, c, c.bundleId);
    assert g.chunks == g.chunks[..at] + g.chunks[at..];
  }

  /** A chunk of a bundle not met before starts a group. */
  lemma NewGroup(groups: seq<Group>, input: seq<Chunk>, c: Chunk, at: nat)
    requires Grouped(groups, input) && at <= |groups|
    requires forall i :: 0 <= i < at ==> groups[i].bundleId < c.bundleId
    requires forall i :: at <= i < |groups| ==> c.bundleId < groups[i].bundleId
    ensures Grouped(groups[..at] + [Group(c.bundleId, [c])] + groups[at..], input + [c])
  {
    hide IsGroup;
    var r := groups[..at] + [Group(c.bundleId, [c])] + groups[at..];
    forall x | x in input ensures exists i :: 0 <= i < |r| && r[i].bundleId == x.bundleId {
      var i :| 0 <= i < |groups| && groups[i].bundleId == x.bundleId;
      assert r[if i < at then i else i + 1].bundleId == x.bundleId;
    }
    assert r[at].bundleId == c.bundleId;
    forall i | 0 <= i < |r| ensures IsGroup(r[i], input + [c]) {
      if i == at {
        FirstOfGroup(input, c);
      } else {
        OtherGroup(r[i], input, c);
      }
    }
  }

  /** A chunk of a bundle already met joins its group. */
  lemma OldGroup(groups: seq<Group>, input: seq<Chunk>, c: Chunk, i: nat, at: nat)
    requires Grouped(groups, input) && i < |groups| && groups[i].bundleId == c.bundleId
    requires at <= |groups[i].chunks|
    requires Sorted(groups[i].chunks[..at] + [c] + groups[i].chunks[at..], OffsetOf)
    ensures Grouped(groups[i := Group(c.bundleId, groups[i].chunks[..at] + [c] + groups[i].chunks[at..])], input + [c])
  {
    hide IsGroup, Sorted;
    var r := groups[i := Group(c.bundleId, groups[i].chunks[..at] + [c] + groups[i].chunks[at..])];
    forall x | x in input + [c] ensures exists k :: 0 <= k < |r| && r[k].bundleId == x.bundleId {
      if x in input {
        var k :| 0 <= k < |groups| && groups[k].bundleId == x.bundleId;
        assert r[k].bundleId == x.bundleId;
      } else {
        assert r[i].bundleId == x.bundleId;
      }
    }
    forall k | 0 <= k < |r| ensures IsGroup(r[k], input + [c]) {
      if k == i {
        LaterOfGroup(groups[i], input, c, at);
      } else {
        OtherGroup(r[k], input, c);
      }
    }
  }

  lemma IdsInOrder(s: seq<Bundle>, groups: seq<Group>, input: seq<Chunk>)
    requires Separate(s) && Shows(s, groups) && Grouped(groups, input)
    ensures Sorted(s, IdOf)
  {
  }

  lemma StrictlyBetween(s: seq<Bundle>, at: nat, x: Bundle)
    requires at <= |s| && Sorted(s[..at] + [x] + s[at..], IdOf) && !HasKey(s, IdOf, x.bundleId)
    ensures forall i :: 0 <= i < at ==> s[i].bundleId < x.bundleId
    ensures forall i :: at <= i < |s| ==> x.bundleId < s[i].bundleId
  {
    var r := s[..at] + [x] + s[at..];
    forall i | 0 <= i < |s| ensures s[i].bundleId != x.bundleId {
      assert IdOf(s[i]) != x.bundleId;
    }
    forall i | 0 <= i < at ensures s[i].bundleId < x.bundleId {
      assert IdOf(r[i]) <= IdOf(r[at]);
    }
    forall i | at <= i < |s| ensures x.bundleId < s[i].bundleId {
      assert IdOf(r[at]) <= IdOf(r[i + 1]);
    }
  }

  /** All memory of the bundles' chunk lists lies in the footprint. */
  ghost predicate Within(s: seq<Bundle>, footprint: set<object>)
    requires Separate(s)
    reads set b | b in s :: b.chunks
  {
    forall i :: 0 <= i < |s| ==> s[i].chunks in footprint && s[i].chunks.objects in footprint
  }

  lemma InsertBundle(s: seq<Bundle>, groups: seq<Group>, footprint: set<object>, at: nat, x: Bundle, r: seq<Bundle>)
    requires Separate(s) && Shows(s, groups) && Within(s, footprint) && at <= |s|
    requires x.chunks != null && x.chunks.Valid() && x.chunks.allocatedLength >= 16
    requires x.chunks !in footprint && x.chunks.objects !in footprint
    requires r == s[..at] + [x] + s[at..]
    ensures Separate(r) && Within(r, footprint + {x.chunks, x.chunks.objects})
    ensures Shows(r, groups[..at] + [Group(x.bundleId, x.chunks.Contents())] + groups[at..])
  {
    StillSeparate(s, footprint, at, x, r);
    var t := groups[..at] + [Group(x.bundleId, x.chunks.Contents())] + groups[at..];
    forall i | 0 <= i < |r| ensures t[i].bundleId == r[i].bundleId && t[i].chunks == r[i].chunks.Contents() {
      if i > at {
        assert r[i] == s[i - 1] && t[i] == groups[i - 1];
      }
    }
  }

  lemma StillSeparate(s: seq<Bundle>, footprint: set<object>, at: nat, x: Bundle, r: seq<Bundle>)
    requires Separate(s) && Within(s, footprint) && at <= |s|
    requires x.chunks != null && x.chunks.Valid() && x.chunks.allocatedLength >= 16
    requires x.chunks !in footprint && x.chunks.objects !in footprint
    requires r == s[..at] + [x] + s[at..]
    ensures Separate(r) && Within(r, footprint + {x.chunks, x.chunks.objects})
  {
    forall i | 0 <= i < |r| ensures r[i] == (if i < at then s[i] else if i == at then x else s[i - 1]) {
    }
  }

  /** The first branch of the loop body: a chunk list for a bundle not met before. */
  method AddBundle(list: List<Bundle>, c: Chunk, ghost groups: seq<Group>, ghost input: seq<Chunk>,
                   ghost footprint: set<object>)
    returns (ghost groups': seq<Group>, ghost footprint': set<object>)
    requires list.Valid() && list.allocatedLength >= 16
    requires Separate(list.Contents()) && Shows(list.Contents(), groups) && Within(list.Contents(), footprint)
    requires Grouped(groups, input) && !HasKey(list.Contents(), IdOf, c.bundleId) && list.objects !in footprint
    modifies list, list.objects
    ensures list.objects !in footprint'
    ensures list.Valid() && list.allocatedLength >= 16 && (list.objects == old(list.objects) || fresh(list.objects))
    ensures Separate(list.Contents()) && Shows(list.Contents(), groups') && Within(list.Contents(), footprint')
    ensures Grouped(groups', input + [c]) && footprint <= footprint' && fresh(footprint' - footprint)
  {
    hide Grouped, IsGroup, Sorted, HasKey;
    ghost var s := list.Contents();
    IdsInOrder(s, groups, input);
    var chunks := NewChunkList(c);
    var toAdd := Bundle(c.bundleId, chunks);
    ghost var memory: set<object> := {chunks, chunks.objects};
    assert memory !! footprint && fresh(memory);
    ghost var at := list.AddSorted(toAdd, IdOf);
    groups' := groups[..at] + [Group(c.bundleId, [c])] + groups[at..];
    footprint' := footprint + memory;
    assert footprint' - footprint == memory && fresh(memory);
    assert list.objects !in footprint && list.objects !in memory;
    InsertGroup(s, groups, input, footprint, at, toAdd, c, list.Contents());
  }

  lemma InsertGroup(s: seq<Bundle>, groups: seq<Group>, input: seq<Chunk>, footprint: set<object>, at: nat, x: Bundle,
                    c: Chunk, r: seq<Bundle>)
    requires Separate(s) && Shows(s, groups) && Within(s, footprint) && Grouped(groups, input) && at <= |s|
    requires x.bundleId == c.bundleId && x.chunks != null && x.chunks.Valid() && x.chunks.allocatedLength >= 16
    requires x.chunks.Contents() == [c] && x.chunks !in footprint && x.chunks.objects !in footprint
    requires r == s[..at] + [x] + s[at..] && Sorted(r, IdOf) && !HasKey(s, IdOf, c.bundleId)
    ensures Separate(r) && Within(r, footprint + {x.chunks, x.chunks.objects})
    ensures Shows(r, groups[..at] + [Group(c.bundleId, [c])] + groups[at..])
    ensures Grouped(groups[..at] + [Group(c.bundleId, [c])] + groups[at..], input + [c])
  {
    InsertBundle(s, groups, footprint, at, x, r);
    StrictlyBetween(s, at, x);
    hide Grouped, IsGroup, Sorted, HasKey, Separate, Within;
    NewGroup(groups, input, c, at);
  }

  method NewChunkList(c: Chunk) returns (chunks: List<Chunk>)
    ensures fresh(chunks) && fresh(chunks.objects) && chunks.Valid() && chunks.allocatedLength >= 16
    ensures chunks.Contents() == [c]
  {
    chunks := new List<Chunk>(16);
    ghost var at := chunks.AddSorted(c, OffsetOf);
  }

  /** The second branch of the loop body: the chunk joins the list of its bundle. */
  method AddToBundle(ghost s: seq<Bundle>, i: nat, toFind: Bundle, c: Chunk,
                     ghost groups: seq<Group>, ghost input: seq<Chunk>, ghost footprint: set<object>)
    returns (ghost groups': seq<Group>, ghost footprint': set<object>)
    requires Separate(s) && Shows(s, groups) && Within(s, footprint) && Grouped(groups, input)
    requires i < |s| && s[i] == toFind && toFind.bundleId == c.bundleId
    modifies toFind.chunks, toFind.chunks.objects
    ensures Separate(s) && Shows(s, groups') && Within(s, footprint')
    ensures Grouped(groups', input + [c]) && footprint <= footprint' && fresh(footprint' - footprint)
  {
    hide Grouped, Sorted;
    GroupInOrder(groups, input, i);
    ghost var at := toFind.chunks.AddSorted(c, OffsetOf);
    footprint' := footprint + {toFind.chunks.objects};
    groups' := groups[i := Group(c.bundleId, groups[i].chunks[..at] + [c] + groups[i].chunks[at..])];
    OldGroup(groups, input, c, i, at);
  }

  lemma GroupInOrder(groups: seq<Group>, input: seq<Chunk>, i: nat)
    requires Grouped(groups, input) && i < |groups|
    ensures Sorted(groups[i].chunks, OffsetOf)
  {
    assert IsGroup(groups[i], input);
  }

  /** The loop body of `group_by_bundles`. */
  method GroupOne(list: List<Bundle>, c: Chunk, ghost groups: seq<Group>, ghost input: seq<Chunk>,
                  ghost footprint: set<object>)
    returns (ghost groups': seq<Group>, ghost footprint': set<object>)
    requires list.Valid() && list.allocatedLength >= 16
    requires Separate(list.Contents()) && Shows(list.Contents(), groups) && Within(list.Contents(), footprint)
    requires Grouped(groups, input) && list !in footprint && list.objects !in footprint
    modifies list, list.objects, footprint
    ensures list.Valid() && list.allocatedLength >= 16 && (list.objects == old(list.objects) || fresh(list.objects))
    ensures Separate(list.Contents()) && Shows(list.Contents(), groups') && Within(list.Contents(), footprint')
    ensures Grouped(groups', input + [c]) && footprint <= footprint' && fresh(footprint' - footprint)
    ensures list !in footprint' && list.objects !in footprint'
  {
    hide Grouped, Sorted;
    ghost var s := list.Contents();
    IdsInOrder(s, groups, input);
    var toFind := list.FindSorted(IdOf, c.bundleId);
    if toFind == None {
      groups', footprint' := AddBundle(list, c, groups, input, footprint);
    } else {
      assert s[toFind.value] == list.objects[toFind.value];
      groups', footprint' := AddToBundle(s, toFind.value, list.objects[toFind.value], c, groups, input, footprint);
      assert list.Contents() == s;
    }
  }

  /** `group_by_bundles` */
  method GroupByBundles(chunks: seq<Chunk>) returns (uniqueBundles: List<Bundle>, ghost groups: seq<Group>)
    ensures fresh(uniqueBundles) && fresh(uniqueBundles.objects) && uniqueBundles.Valid()
    ensures Separate(uniqueBundles.Contents()) && Shows(uniqueBundles.Contents(), groups)
    ensures Grouped(groups, chunks)
  {
    hide Grouped, IsGroup;
    uniqueBundles := new List<Bundle>(16);
    groups := [];
    NoGroups();
    ghost var footprint: set<object> := {};
    NoBundles(uniqueBundles.Contents());
    hide Separate, Shows, Within;
    for i := 0 to |chunks|
      invariant fresh(uniqueBundles) && fresh(uniqueBundles.objects) && fresh(footprint)
      invariant uniqueBundles.Valid() && uniqueBundles.allocatedLength >= 16
      invariant Separate(uniqueBundles.Contents()) && Shows(uniqueBundles.Contents(), groups)
      invariant Within(uniqueBundles.Contents(), footprint)
      invariant uniqueBundles !in footprint && uniqueBundles.objects !in footprint
      invariant Grouped(groups, chunks[..i])
    {
      groups, footprint := GroupOne(uniqueBundles, chunks[i], groups, chunks[..i], footprint);
      OneMore(chunks, i);
    }
    assert chunks[..|chunks|] == chunks;
  }

  lemma OneMore(chunks: seq<Chunk>, i: nat)
    requires i < |chunks|
    ensures chunks[..i + 1] == chunks[..i] + [chunks[i]]
  {
  }

  lemma NoBundles(s: seq<Bundle>)
    requires s == []
    ensures Separate(s) && Shows(s, []) && Within(s, {})
  {
  }

  lemma NoGroups()
    ensures Grouped([], [])
  {
  }

  // What the partition means for the chunks as a whole.

  ghost function AllChunks(groups: seq<Group>): seq<Chunk> {
    if groups == [] then [] else groups[0].chunks + AllChunks(groups[1..])
  }

  lemma {:induction false} CountInGroups(groups: seq<Group>, input: seq<Chunk>, c: Chunk)
    requires forall i, j :: 0 <= i < j < |groups| ==> groups[i].bundleId < groups[j].bundleId
    requires forall i :: 0 <= i < |groups| ==> IsGroup(groups[i], input)
    ensures multiset(AllChunks(groups))[c]
         == if exists i :: 0 <= i < |groups| && groups[i].bundleId == c.bundleId then multiset(input)[c] else 0
  {
    if groups != [] {
      assert IsGroup(groups[0], input);
      Occurs(input, BundleIdOf, groups[0].bundleId, c);
      CountInGroups(groups[1..], input, c);
      if exists i :: 0 <= i < |groups| && groups[i].bundleId == c.bundleId {
        var i :| 0 <= i < |groups| && groups[i].bundleId == c.bundleId;
        if i > 0 {
          assert groups[1..][i - 1].bundleId == c.bundleId;
        }
      }
    }
  }

  /** Grouping moves chunks about but neither loses nor invents one. */
  lemma GroupsArePermutation(groups: seq<Group>, input: seq<Chunk>)
    requires Grouped(groups, input)
    ensures multiset(AllChunks(groups)) == multiset(input)
  {
    var all := AllChunks(groups);
    forall c ensures multiset(all)[c] == multiset(input)[c] {
      CountInGroups(groups, input, c);
      if c !in input {
        assert multiset(input)[c] == 0;
      }
    }
  }

  /** A group holds only its own bundle's chunks. */
  lemma GroupMembers(g: Group, input: seq<Chunk>, c: Chunk)
    requires IsGroup(g, input)
    ensures c in g.chunks <==> c in input && c.bundleId == g.bundleId
  {
    Occurs(input, BundleIdOf, g.bundleId, c);
    assert c in g.chunks <==> multiset(g.chunks)[c] > 0;
    assert c in input <==> multiset(input)[c] > 0;
  }
}
