/** The Go slice `nonceOrder []nonceEntry`: a window on a backing array. */
module EntrySlices {
  import opened NonceCache

  class EntrySlice {
    /** What the slice holds, oldest first. */
    ghost var contents: seq<Entry>
    ghost var Repr: set<object>

    /** The slice is `backing[head..tail]`; its capacity is `backing.Length - head`. */
    var backing: array<Entry>
    var head: nat
    var tail: nat

    ghost predicate Valid()
      reads this, Repr
      ensures Valid() ==> this in Repr
    {
      && this in Repr && backing in Repr
      && head <= tail <= backing.Length
      && contents == backing[head..tail]
    }

    constructor ()
      ensures Valid() && fresh(Repr) && contents == []
    {
      backing, head, tail := new Entry[1024], 0, 0;
      contents, Repr := [], {this, backing};
    }

    function Length(): (n: nat)
      reads this, Repr
      requires Valid()
      ensures n == |contents|
    {
      tail - head
    }

    function At(i: nat): (e: Entry)
      reads this, Repr
      requires Valid() && i < Length()
      ensures e == contents[i]
    {
      backing[head + i]
    }

    /** `s[k:]`: the window shrinks, nothing is copied. */
    method DropFirst(k: nat)
      requires Valid() && k <= |contents|
      modifies this
      ensures Valid() && Repr == old(Repr) && contents == old(contents)[k..]
    {
      head := head + k;
      contents := contents[k..];
    }

    /** Moves the live entries to a smaller array once more than half of a large one is unused. */
    method CompactIfSparse()
      requires Valid()
      modifies Repr
      ensures Valid() && fresh(Repr - old(Repr)) && contents == old(contents)
    {
      var capacity, n := backing.Length - head, tail - head;
      if capacity > 20000 && n < capacity / 2 {
        var compact := new Entry[n + 1024];
        forall i | 0 <= i < n {
          compact[i] := backing[head + i];
        }
        backing, head, tail := compact, 0, n;
        Repr := {this, backing};
      }
    }

    /** `append`: in place while there is room, else into a larger array. */
    method Append(entry: Entry)
      requires Valid()
      modifies Repr
      ensures Valid() && fresh(Repr - old(Repr)) && contents == old(contents) + [entry]
    {
      if tail == backing.Length {
        var n := tail - head;
        var larger := new Entry[2 * n + 1];
        forall i | 0 <= i < n {
          larger[i] := backing[head + i];
        }
        backing, head, tail := larger, 0, n;
        Repr := {this, backing};
        assert contents == backing[head..tail];
      }
      backing[tail] := entry;
      tail := tail + 1;
      contents := contents + [entry];
      assert backing[head..tail - 1] == old(contents);
    }
  }
}
