/** The sliding-window link extractor: turns a token stream into (window of N tokens -> next token)
    links, in encounter order. */
module LinkStream {
  import opened Types
  import Slices

  /** Reference definition: the links of `s` for window size `n`, first window first. */
  function LinksOf<T>(n: nat, s: seq<T>): seq<Link<T>>
    decreases |s|
  {
    if n == 0 || |s| <= n then [] else [Link(s[..n], s[n])] + LinksOf(n, s[1..])
  }

  /** An input of length L > N gives exactly L - N links; otherwise (including N = 0, the empty
      input and a window longer than the input) it gives none. */
  lemma {:induction false} LinksCount<T>(n: nat, s: seq<T>)
    ensures |LinksOf(n, s)| == if n > 0 && |s| > n then |s| - n else 0
    decreases |s|
  {
    if n > 0 && |s| > n {
      LinksCount(n, s[1..]);
    }
  }

  /** The k-th link is the window starting at k followed by the token right after it. */
  lemma {:induction false} LinksAt<T>(n: nat, s: seq<T>, k: nat)
    requires k < |LinksOf(n, s)|
    ensures n > 0 && k + n < |s|
    ensures LinksOf(n, s)[k] == Link(s[k..k + n], s[k + n])
    decreases |s|
  {
    assert n > 0 && |s| > n;
    var rest := LinksOf(n, s[1..]);
    assert LinksOf(n, s) == [Link(s[..n], s[n])] + rest;
    if k == 0 {
      assert s[k..k + n] == s[..n];
    } else {
      LinksAt(n, s[1..], k - 1);
      ShiftedWindow(s, k, n);
    }
  }

  lemma ShiftedWindow<T>(s: seq<T>, k: nat, n: nat)
    requires 0 < k && k + n < |s|
    ensures s[1..][k - 1..k - 1 + n] == s[k..k + n] && s[1..][k - 1 + n] == s[k + n]
  {
  }

  /** Every link carries a window of exactly n tokens. */
  lemma {:induction false} LinksWindowSize<T>(n: nat, s: seq<T>)
    ensures forall l :: l in LinksOf(n, s) ==> |l.from| == n
    decreases |s|
  {
    if n > 0 && |s| > n {
      LinksWindowSize(n, s[1..]);
    }
  }

  /** The extractor state: the rest of the input (`iter`), the buffer of the most recent tokens
      (`from`, capacity n, `len` of them filled) and the look-ahead token `to`. */
  class Links<T(0)> {
    const n: nat
    var iter: seq<T>
    const from: array<T>
    var len: nat
    var to: Option<T>

    ghost predicate Valid()
      reads this
    {
      && from.Length == n
      && len <= n
      && (to.Some? ==> len == n)
      && (to.None? ==> iter == [])
    }

    /** Links still to be emitted. */
    ghost function Pending(): seq<Link<T>>
      reads this, from
      requires Valid()
    {
      if n == 0 || to.None? then [] else LinksOf(n, from[..] + [to.value] + iter)
    }

    /** Fills the buffer with the first n tokens (fewer if the input is shorter) and reads one
        token ahead. */
    constructor (n: nat, input: seq<T>)
      ensures Valid() && fresh(from)
      ensures this.n == n
      ensures Pending() == LinksOf(n, input)
    {
      this.n := n;
      var buffer := new T[n];
      var rest := input;
      var filled := 0;
      while filled < n
        invariant 0 <= filled <= n
        invariant filled <= |input| && rest == input[filled..]
        invariant buffer[..filled] == input[..filled]
      {
        if rest == [] {
          break;
        }
        buffer[filled] := rest[0];
        rest := rest[1..];
        filled := filled + 1;
      }
      from := buffer;
      len := filled;
      if rest == [] {
        to := None;
        iter := [];
      } else {
        to := Some(rest[0]);
        iter := rest[1..];
      }
      new;
      if n > 0 && to.Some? {
        assert from[..] == input[..n];
        assert from[..] + [to.value] + iter == input;
      }
    }

    /** Emits a copy of the full buffer with the look-ahead token, then rotates the buffer,
        overwrites its last slot with that token and reads the next one. */
    method Next() returns (r: Option<Link<T>>)
      requires Valid()
      modifies this, from
      ensures Valid()
      ensures r.None? <==> old(Pending()) == []
      ensures r.Some? ==> [r.value] + Pending() == old(Pending())
      ensures r.Some? ==> r.value == Link(old(from[..]), old(to).value) && |r.value.from| == n
      ensures r.Some? ==> from[..] == old(from[..])[1..] + [old(to).value]
      ensures r.Some? ==> iter == (if old(iter) == [] then [] else old(iter)[1..])
      ensures r.Some? ==> to == (if old(iter) == [] then None else Some(old(iter)[0]))
      ensures r.None? ==> from[..] == old(from[..]) && iter == old(iter) && to == old(to) && len == old(len)
    {
      if n == 0 {
        return None;
      }
      if to.None? {
        return None;
      }
      var next := to.value;
      var snapshot := from[..];
      Slices.RotateLeft(from);
      from[n - 1] := next;
      if iter == [] {
        to := None;
      } else {
        to := Some(iter[0]);
        iter := iter[1..];
      }
      r := Some(Link(snapshot, next));
      ghost var whole := snapshot + [next] + old(iter);
      assert whole[..n] == snapshot && whole[n] == next;
      assert old(Pending()) == [Link(snapshot, next)] + LinksOf(n, whole[1..]);
      assert from[..] == snapshot[1..] + [next];
      assert whole[1..] == snapshot[1..] + [next] + old(iter);
      assert whole[1..] == from[..] + old(iter);
      if to.Some? {
        assert from[..] + [to.value] + iter == whole[1..];
      } else {
        assert |whole[1..]| == n;
      }
    }
  }

  /** Window 3 over 0..5 gives ([0,1,2],3), ([1,2,3],4), ([2,3,4],5). */
  lemma SixTokens()
    ensures LinksOf(3, [0, 1, 2, 3, 4, 5]) == [Link([0, 1, 2], 3), Link([1, 2, 3], 4), Link([2, 3, 4], 5)]
  {
    var input := [0, 1, 2, 3, 4, 5];
    assert LinksOf(3, [3, 4, 5]) == [];
    assert [2, 3, 4, 5][1..] == [3, 4, 5] && [2, 3, 4, 5][..3] == [2, 3, 4];
    assert LinksOf(3, [2, 3, 4, 5]) == [Link([2, 3, 4], 5)];
    assert [1, 2, 3, 4, 5][1..] == [2, 3, 4, 5] && [1, 2, 3, 4, 5][..3] == [1, 2, 3];
    assert LinksOf(3, [1, 2, 3, 4, 5]) == [Link([1, 2, 3], 4), Link([2, 3, 4], 5)];
    assert input[1..] == [1, 2, 3, 4, 5] && input[..3] == [0, 1, 2];
  }

  /** Window 3 over 0..5: three links, then nothing. */
  method IteratorExample() returns (a: Option<Link<int>>, b: Option<Link<int>>, c: Option<Link<int>>,
                                    d: Option<Link<int>>)
    ensures a == Some(Link([0, 1, 2], 3)) && b == Some(Link([1, 2, 3], 4))
    ensures c == Some(Link([2, 3, 4], 5)) && d == None
  {
    SixTokens();
    var links := new Links(3, [0, 1, 2, 3, 4, 5]);
    ghost var pending := links.Pending();
    a := links.Next();
    PeelHead(a.value, links.Pending(), pending);
    pending := links.Pending();
    b := links.Next();
    PeelHead(b.value, links.Pending(), pending);
    pending := links.Pending();
    c := links.Next();
    PeelHead(c.value, links.Pending(), pending);
    d := links.Next();
  }

  lemma PeelHead<X>(x: X, rest: seq<X>, whole: seq<X>)
    requires [x] + rest == whole
    ensures whole != [] && x == whole[0] && rest == whole[1..]
  {
    assert whole[0] == ([x] + rest)[0];
  }

  /** An empty input, a window of 0 and a window longer than the input give nothing. */
  method NoLinkExamples() returns (empty: Option<Link<int>>, zero: Option<Link<int>>, long: Option<Link<int>>)
    ensures empty == None && zero == None && long == None
  {
    var none := new Links<int>(3, []);
    empty := none.Next();
    var zeroWindow := new Links(0, [0, 1, 2, 3, 4]);
    zero := zeroWindow.Next();
    var longWindow := new Links(10, [0, 1, 2, 3, 4]);
    long := longWindow.Next();
  }
}
