// A list as the source keeps it: a slice header over a backing array, with the
// source's idioms for it. It appends into spare capacity, filters into the same
// backing array, updates in place and copies.
module Slices {
  import opened Prelude

  class List<T> {
    var data: array<T>
    var len: nat
    ghost var view: seq<T>

    ghost predicate Valid()
      reads this, data
    {
      len <= data.Length && view == data[..len]
    }

    constructor (data: array<T>, len: nat)
      requires len <= data.Length
      ensures Valid() && this.data == data && this.len == len && view == data[..len]
    {
      this.data, this.len, this.view := data, len, data[..len];
    }

    method Append(x: T)
      requires Valid()
      modifies this, data
      ensures Valid() && view == old(view) + [x]
      ensures data == old(data) || fresh(data)
    {
      if len == data.Length {
        var n, was := len, data;
        data := new T[2 * n + 1](i requires 0 <= i reads was => if i < n <= was.Length then was[i] else x);
        assert data[..n] == was[..n];
      }
      data[len] := x;
      len := len + 1;
      view := view + [x];
    }

    method Set(i: nat, x: T)
      requires Valid() && i < len
      modifies this`view, data
      ensures Valid() && view == old(view)[i := x]
    {
      data[i] := x;
      view := view[i := x];
    }

    // kept := s[:0]; for each element kept is appended to while it stays.
    method Keep(keep: T -> bool)
      requires Valid()
      modifies this`len, this`view, data
      ensures Valid() && view == Filter(keep, old(view))
    {
      var m, n := 0, len;
      ghost var was := data[..n];
      for i := 0 to n
        invariant m <= i
        invariant data[..m] == Filter(keep, was[..i])
        invariant forall k :: i <= k < n ==> data[k] == was[k]
      {
        ghost var kept := data[..m];
        assert was[..i + 1] == was[..i] + [was[i]];
        FilterAppend(keep, was[..i], was[i]);
        if keep(data[i]) {
          data[m] := data[i];
          m := m + 1;
          assert data[..m] == kept + [was[i]];
        }
      }
      assert was[..n] == was;
      len := m;
      view := data[..m];
    }

    method Update(f: T -> T)
      requires Valid()
      modifies this`view, data
      ensures Valid() && view == MapSeq(f, old(view))
    {
      for i := 0 to len
        invariant len == old(len) && data == old(data)
        invariant forall k :: 0 <= k < i ==> data[k] == f(old(data[k]))
        invariant forall k :: i <= k < len ==> data[k] == old(data[k])
      {
        data[i] := f(data[i]);
      }
      view := data[..len];
    }

    method Copy() returns (c: List<T>)
      requires Valid()
      ensures fresh(c) && fresh(c.data) && c.Valid() && c.view == view
    {
      var d := new T[len](i requires 0 <= i < data.Length reads this, data => data[i]);
      c := new List(d, len);
    }
  }
}
