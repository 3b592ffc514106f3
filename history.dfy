/** The order history: a last-in-first-out stack of ordered items that only
    ever grows. It is held by value inside its user, so it is modelled as a
    value; the top of the stack is the last element of `elems`. */
module History {
  import opened Wrappers

  datatype Stack<T> = Stack(elems: seq<T>) {

    /** Number of items ever pushed. */
    function Size(): (n: nat)
      ensures n == 0 <==> elems == []
    {
      |elems|
    }

    /** The most recently pushed item, or None when nothing was pushed. */
    function Top(): (r: Option<T>)
      ensures r == None <==> Size() == 0
      ensures r.Some? ==> r.value in elems
    {
      if elems == [] then None else Some(elems[|elems| - 1])
    }

    /** Pushes one item; it becomes the top and nothing below it moves. */
    function Push(x: T): (s: Stack<T>)
      ensures s.Size() == Size() + 1
      ensures s.Top() == Some(x)
      ensures s.elems[..Size()] == elems
    {
      Stack(elems + [x])
    }

    /** Pushes every item of `xs`, first to last: the history grows by the
        batch size and a non-empty batch's last item becomes the top. */
    function PushAll(xs: seq<T>): (s: Stack<T>)
      ensures s.Size() == Size() + |xs|
      ensures xs != [] ==> s.Top() == Some(xs[|xs| - 1])
      ensures xs == [] ==> s == this
      decreases |xs|
    {
      if xs == [] then this else PushAll(xs[..|xs| - 1]).Push(xs[|xs| - 1])
    }
  }

  /** A fresh user's history. */
  function Empty<T>(): (s: Stack<T>)
    ensures s.Size() == 0 && s.Top() == None
  {
    Stack([])
  }

  /** Pushing a batch lays it on top of the old contents, in batch order. */
  lemma {:induction false} PushAllAppends<T>(s: Stack<T>, xs: seq<T>)
    ensures s.PushAll(xs).elems == s.elems + xs
    decreases |xs|
  {
    if xs != [] {
      var init := xs[..|xs| - 1];
      PushAllAppends(s, init);
      assert xs == init + [xs[|xs| - 1]];
    }
  }
}
