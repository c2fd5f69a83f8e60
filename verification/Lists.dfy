/** What it means for a sequence to be ordered by a key, and facts about such sequences. */
module Ordering {

  ghost predicate Sorted<T>(s: seq<T>, key: T -> int) {
    forall i, j :: 0 <= i < j < |s| ==> key(s[i]) <= key(s[j])
  }

  ghost predicate HasKey<T>(s: seq<T>, key: T -> int, value: int) {
    exists i :: 0 <= i < |s| && key(s[i]) == value
  }

  /** The elements with one key, in the order in which they occur. */
  ghost function WithKey<T>(s: seq<T>, key: T -> int, k: int): seq<T> {
    if s == [] then []
    else (if key(s[0]) == k then [s[0]] else []) + WithKey(s[1..], key, k)
  }

  lemma {:induction false} WithKeyConcat<T>(a: seq<T>, b: seq<T>, key: T -> int, k: int)
    ensures WithKey(a + b, key, k) == WithKey(a, key, k) + WithKey(b, key, k)
  {
    if a == [] {
      assert a + b == b;
    } else {
      WithKeyConcat(a[1..], b, key, k);
      assert (a + b)[1..] == a[1..] + b && (a + b)[0] == a[0];
      var head := if key(a[0]) == k then [a[0]] else [];
      assert WithKey(a + b, key, k) == head + WithKey(a[1..] + b, key, k);
      Reassociate(head, WithKey(a[1..], key, k), WithKey(b, key, k));
    }
  }

  lemma Reassociate<T>(a: seq<T>, b: seq<T>, c: seq<T>)
    ensures a + (b + c) == (a + b) + c
  {
  }

  lemma {:induction false} WithKeyNone<T>(s: seq<T>, key: T -> int, k: int)
    requires forall i :: 0 <= i < |s| ==> key(s[i]) != k
    ensures WithKey(s, key, k) == []
  {
    if s != [] {
      WithKeyNone(s[1..], key, k);
    }
  }

  /** r is s put in order without exchanging any two elements that have the same key. */
  ghost predicate StableSort<T>(s: seq<T>, r: seq<T>, key: T -> int) {
    && Sorted(r, key)
    && forall k: int :: WithKey(r, key, k) == WithKey(s, key, k)
  }

  lemma {:induction false} Occurs<T>(s: seq<T>, key: T -> int, k: int, x: T)
    ensures multiset(WithKey(s, key, k))[x] == if key(x) == k then multiset(s)[x] else 0
  {
    if s != [] {
      Occurs(s[1..], key, k, x);
      assert s == [s[0]] + s[1..];
    }
  }

  /** A stable sort is a permutation. */
  lemma StableSortPermutes<T>(s: seq<T>, r: seq<T>, key: T -> int)
    requires StableSort(s, r, key)
    ensures multiset(r) == multiset(s)
  {
    forall x | x in multiset(r) + multiset(s) ensures multiset(r)[x] == multiset(s)[x] {
      Occurs(r, key, key(x), x);
      Occurs(s, key, key(x), x);
    }
    assert multiset(r) <= multiset(s) by {
      forall x | x in multiset(r) ensures multiset(r)[x] <= multiset(s)[x] { assert x in multiset(r) + multiset(s); }
    }
    assert multiset(s) <= multiset(r) by {
      forall x | x in multiset(s) ensures multiset(s)[x] <= multiset(r)[x] { assert x in multiset(r) + multiset(s); }
    }
  }

  lemma HeadIsLeast<T>(a: seq<T>, b: seq<T>, key: T -> int)
    requires a != [] && Sorted(b, key)
    requires forall k: int :: WithKey(a, key, k) == WithKey(b, key, k)
    ensures b != [] && key(b[0]) <= key(a[0])
  {
    if b == [] || key(b[0]) > key(a[0]) {
      WithKeyNone(b, key, key(a[0]));
      assert false;
    }
  }

  /** A stable sort is determined by its input: there is only one. */
  lemma {:induction false} StableSortUnique<T>(a: seq<T>, b: seq<T>, key: T -> int)
    requires Sorted(a, key) && Sorted(b, key)
    requires forall k: int :: WithKey(a, key, k) == WithKey(b, key, k)
    ensures a == b
  {
    if a == [] {
      if b != [] {
        HeadIsLeast(b, a, key);
        assert false;
      }
    } else {
      HeadIsLeast(a, b, key);
      HeadIsLeast(b, a, key);
      var ka := key(a[0]);
      assert a[0] == WithKey(a, key, ka)[0] == WithKey(b, key, ka)[0] == b[0];
      forall k: int ensures WithKey(a[1..], key, k) == WithKey(b[1..], key, k) {
        if k == ka {
          assert WithKey(a[1..], key, k) == WithKey(a, key, k)[1..];
          assert WithKey(b[1..], key, k) == WithKey(b, key, k)[1..];
        } else {
          assert WithKey(a[1..], key, k) == WithKey(a, key, k) && WithKey(b[1..], key, k) == WithKey(b, key, k);
        }
      }
      StableSortUnique(a[1..], b[1..], key);
    }
  }

  lemma InsertKeepsOrder<T>(s: seq<T>, at: nat, x: T, key: T -> int)
    requires Sorted(s, key) && at <= |s|
    requires at > 0 ==> key(s[at - 1]) <= key(x)
    requires at < |s| ==> key(x) <= key(s[at])
    ensures Sorted(s[..at] + [x] + s[at..], key)
  {
  }
}

/** The growable arrays of list.h. A list owns its backing array and may replace it. */
module Lists {
  import opened Common
  import opened Ordering

  class List<T(0)> {
    var length: nat
    var allocatedLength: nat
    var objects: array<T>

    ghost predicate Valid()
      reads this
    {
      allocatedLength == objects.Length && length <= allocatedLength
    }

    ghost function Contents(): seq<T>
      requires Valid()
      reads this, objects
    {
      objects[..length]
    }

    /** Growing by half only makes room when half is at least one. */
    ghost predicate CanGrow()
      reads this
    {
      length < allocatedLength || 2 <= allocatedLength
    }

    /** `initialize_list_size`; `initialize_list` is the case size == 16. */
    constructor (size: nat)
      ensures Valid() && length == 0 && allocatedLength == size && fresh(objects)
    {
      length, allocatedLength := 0, size;
      objects := new T[size];
    }

    method Reallocate(size: nat)
      requires Valid() && length <= size
      modifies `allocatedLength, `objects
      ensures Valid() && allocatedLength == size && fresh(objects)
      ensures Contents() == old(Contents())
    {
      var fresh' := new T[size];
      forall i | 0 <= i < length {
        fresh'[i] := objects[i];
      }
      objects, allocatedLength := fresh', size;
    }

    /** `add_object` */
    method Add(item: T)
      requires Valid() && CanGrow()
      modifies this, objects
      ensures Valid() && (objects == old(objects) || fresh(objects))
      ensures allocatedLength >= old(allocatedLength)
      ensures old(length < allocatedLength) ==> allocatedLength == old(allocatedLength)
      ensures Contents() == old(Contents()) + [item]
    {
      if length == allocatedLength {
        Reallocate(allocatedLength + allocatedLength / 2);
      }
      objects[length] := item;
      length := length + 1;
    }

    /** `add_objects` */
    method AddAll(source: seq<T>)
      requires Valid()
      modifies this, objects
      ensures Valid() && (objects == old(objects) || fresh(objects))
      ensures old(allocatedLength - length) >= |source| ==> allocatedLength == old(allocatedLength)
      ensures Contents() == old(Contents()) + source
    {
      if allocatedLength - length < |source| {
        Reallocate(length + |source|);
      }
      forall i | 0 <= i < |source| {
        objects[length + i] := source[i];
      }
      length := length + |source|;
    }

    /** The halving jump with which both sorted operations begin. It only has to stay inside the list. */
    method Jump(key: T -> int, value: int) returns (position: nat)
      requires Valid() && length > 0
      ensures position < length
    {
      position := length / 2;
      var step := position / 2;
      ghost var middle := position;
      while step > 2
        invariant position + 2 * step <= 2 * middle
        invariant middle <= position + middle - 2 * step
        invariant length > 1 ==> 0 < position < 2 * middle || step <= 2
        invariant position < length
      {
        if key(objects[position]) > value {
          position := position - step;
        } else {
          position := position + step;
        }
        step := step / 2;
      }
    }

    /** `find_object_s`: some element with the key, exactly when there is one. */
    method FindSorted(key: T -> int, value: int) returns (found: Option<nat>)
      requires Valid() && Sorted(Contents(), key)
      ensures found.Some? <==> HasKey(Contents(), key, value)
      ensures found.Some? ==> found.value < length && key(Contents()[found.value]) == value
    {
      ghost var s := Contents();
      found := None;
      if length != 0 {
        var position: nat := Jump(key, value);
        while position > 0 && key(objects[position]) > value
          invariant position < length
        {
          position := position - 1;
        }
        assert key(s[position]) > value ==> position == 0;
        while position < length - 1 && key(objects[position]) < value
          invariant position < length
          invariant key(s[position]) > value ==> position == 0 || key(s[position - 1]) < value
        {
          position := position + 1;
        }
        assert key(objects[position]) == key(s[position]);
        if key(objects[position]) == value {
          found := Some(position);
        } else {
          forall i | 0 <= i < length ensures key(s[i]) != value {
            if i < position {
              assert key(s[i]) <= key(s[position]);
            }
          }
        }
      }
    }

    /** `add_object_s`: one element more, in order, and none of the others moved past another. */
    method AddSorted(item: T, key: T -> int) returns (ghost at: nat)
      requires Valid() && CanGrow() && Sorted(Contents(), key)
      requires length == 0 ==> allocatedLength > 0
      modifies this, objects
      ensures Valid() && (objects == old(objects) || fresh(objects))
      ensures allocatedLength >= old(allocatedLength)
      ensures at <= old(length) && Contents() == old(Contents())[..at] + [item] + old(Contents())[at..]
      ensures Sorted(Contents(), key)
    {
      if length == 0 {
        objects[0] := item;
        length := 1;
        at := 0;
      } else {
        if length == allocatedLength {
          Reallocate(allocatedLength + allocatedLength / 2);
        }
        ghost var s := Contents();
        var position: nat := Jump(key, key(item));
        while position > 0 && key(objects[position]) > key(item)
          invariant position < length
        {
          position := position - 1;
        }
        while position < length && key(objects[position]) < key(item)
          invariant position <= length
          invariant position > 0 ==> key(s[position - 1]) <= key(item)
        {
          position := position + 1;
        }
        InsertKeepsOrder(s, position, item, key);
        InsertAt(position, item);
        at := position;
      }
    }

    /** The memmove that opens a gap, and the store into it. */
    method InsertAt(position: nat, item: T)
      requires Valid() && position <= length < allocatedLength
      modifies objects, `length
      ensures Valid() && Contents() == old(Contents())[..position] + [item] + old(Contents())[position..]
    {
      if position < length {
        ShiftUp(position);
      }
      objects[position] := item;
      assert objects[..length + 1] == objects[..position] + [item] + objects[position + 1..length + 1];
      length := length + 1;
    }

    method ShiftUp(position: nat)
      requires Valid() && position <= length < allocatedLength
      modifies objects
      ensures objects[..position] == old(Contents())[..position]
      ensures objects[position + 1..length + 1] == old(Contents())[position..]
    {
      forall i | position < i <= length {
        objects[i] := objects[i - 1];
      }
    }
  }
}
