/** The selector: four slots for futures, polled in order. */
module Selectors {
  import opened Prelude

  datatype Selected<+A, +B, +C, +D> = SelectedA(a: A) | SelectedB(b: B) | SelectedC(c: C) | SelectedD(d: D) | Pending

  class Selector<A, B, C, D> {
    var a: Option<A>
    var b: Option<B>
    var c: Option<C>
    var d: Option<D>

    constructor ()
      ensures a.None? && b.None? && c.None? && d.None?
    {
      a, b, c, d := None, None, None, None;
    }

    // A slot must be empty when a future is put into it: the source asserts so.

    method InsertA(x: A)
      requires a.None?
      modifies this`a
      ensures a == Some(x)
    {
      a := Some(x);
    }

    method InsertB(x: B)
      requires b.None?
      modifies this`b
      ensures b == Some(x)
    {
      b := Some(x);
    }

    method InsertC(x: C)
      requires c.None?
      modifies this`c
      ensures c == Some(x)
    {
      c := Some(x);
    }

    method InsertD(x: D)
      requires d.None?
      modifies this`d
      ensures d == Some(x)
    {
      d := Some(x);
    }

    /** `readyX` says whether the future in slot x has finished. The first finished one in the order a, b, c, d
        is taken out of its slot; the other slots keep theirs. */
    method Poll(readyA: bool, readyB: bool, readyC: bool, readyD: bool) returns (r: Selected<A, B, C, D>)
      modifies this
      ensures r.SelectedA? <==> old(a).Some? && readyA
      ensures r.SelectedB? <==> !r.SelectedA? && old(b).Some? && readyB
      ensures r.SelectedC? <==> !r.SelectedA? && !r.SelectedB? && old(c).Some? && readyC
      ensures r.SelectedD? <==> !r.SelectedA? && !r.SelectedB? && !r.SelectedC? && old(d).Some? && readyD
      ensures if r.SelectedA? then old(a) == Some(r.a) && a.None? else a == old(a)
      ensures if r.SelectedB? then old(b) == Some(r.b) && b.None? else b == old(b)
      ensures if r.SelectedC? then old(c) == Some(r.c) && c.None? else c == old(c)
      ensures if r.SelectedD? then old(d) == Some(r.d) && d.None? else d == old(d)
    {
      if a.Some? && readyA {
        r := SelectedA(a.value);
        a := None;
        return;
      }
      if b.Some? && readyB {
        r := SelectedB(b.value);
        b := None;
        return;
      }
      if c.Some? && readyC {
        r := SelectedC(c.value);
        c := None;
        return;
      }
      if d.Some? && readyD {
        r := SelectedD(d.value);
        d := None;
        return;
      }
      r := Pending;
    }
  }
}
