/** The string-list helpers of the controllers, with the slice semantics that the in-place removal relies on. */
module Lists {
  import opened Wrappers

  method ListContainsStr(s: seq<string>, e: string) returns (found: bool)
    ensures found <==> e in s
  {
    for i := 0 to |s|
      invariant e !in s[..i]
    {
      if s[i] == e {
        return true;
      }
    }
    assert s[..|s|] == s;
    return false;
  }

  function Without(l: seq<string>, s: string): (r: seq<string>)
    ensures s !in r
  {
    if l == [] then [] else if l[0] == s then Without(l[1..], s) else [l[0]] + Without(l[1..], s)
  }

  /** What a removal that shifts the rest left while it ranges forward leaves behind: the element that
      slides into the place of a removed one is never looked at. */
  function Sweep(l: seq<string>, s: string): seq<string> {
    if l == [] then []
    else if l[0] != s then [l[0]] + Sweep(l[1..], s)
    else if |l| == 1 then []
    else [l[1]] + Sweep(l[2..], s)
  }

  predicate HasAdjacent(l: seq<string>, s: string) {
    exists k :: 0 <= k < |l| - 1 && l[k] == s && l[k + 1] == s
  }

  function Count(l: seq<string>, s: string): nat {
    multiset(l)[s]
  }

  /** The slots the shrinking slice leaves behind keep the last element; finding the item there slices
      past the end of the list. */
  predicate SlicesOutOfRange(l: seq<string>, s: string) {
    |l| > 1 && l[|l| - 1] == s && s in l[..|l| - 1]
  }

  /** The result of ListRemoveStr, or None where the slice expression is out of range. */
  function ListRemove(l: seq<string>, s: string): Option<seq<string>> {
    if SlicesOutOfRange(l, s) then None else Some(Sweep(l, s))
  }

  /** Half-way through the removal, before index `i` of the original range: `b` is the backing array and its
      first `len` elements are the list. */
  ghost predicate Sweeping(b: seq<string>, l: seq<string>, s: string, i: nat, len: nat) {
    && i <= |b| == |l| && len <= |l|
    && (len == |l| <==> s !in l[..i])
    && (if i < len
        then b[i..len] == l[i + |l| - len..] && Sweep(l, s) == b[..i] + Sweep(l[i + |l| - len..], s)
        else Sweep(l, s) == b[..len])
    && forall k :: len <= k < |l| ==> b[k] == l[|l| - 1]
  }

  lemma SweepPast(b: seq<string>, l: seq<string>, s: string, i: nat, len: nat)
    requires Sweeping(b, l, s, i, len) && i < |l| && b[i] != s
    ensures Sweeping(b, l, s, i + 1, len)
  {
  }

  lemma SweepOut(b: seq<string>, c: seq<string>, l: seq<string>, s: string, i: nat, len: nat)
    requires Sweeping(b, l, s, i, len) && i < len && b[i] == s
    requires c == b[..i] + b[i + 1..len] + b[len - 1..]
    ensures Sweeping(c, l, s, i + 1, len - 1)
  {
  }

  lemma SweepRunsOut(b: seq<string>, l: seq<string>, s: string, i: nat, len: nat)
    requires Sweeping(b, l, s, i, len) && len <= i < |l|
    ensures s in l[..|l| - 1] && b[i] == l[|l| - 1]
  {
  }

  /** Where the range ends without a panic, the list did not slice past its end. */
  lemma SweepEnds(b: seq<string>, l: seq<string>, s: string, i: nat, len: nat)
    requires Sweeping(b, l, s, i, len) && i < |l| && (b[i] == s ==> i < len)
    ensures i == |l| - 1 ==> !SlicesOutOfRange(l, s)
  {
  }

  /** One turn of the range: the item at `i` is taken out, or passed. */
  lemma SweepTurn(b: seq<string>, c: seq<string>, l: seq<string>, s: string, i: nat, len: nat)
    requires Sweeping(b, l, s, i, len) && i < |l| && (b[i] == s ==> i < len)
    requires c == if b[i] == s then b[..i] + b[i + 1..len] + b[len - 1..] else b
    ensures Sweeping(c, l, s, i + 1, if b[i] == s then len - 1 else len)
  {
    if b[i] == s {
      SweepOut(b, c, l, s, i, len);
    } else {
      SweepPast(b, l, s, i, len);
    }
  }

  /** append(list[:i], list[i+1:]...) over the shared backing array. */
  method AppendInPlace(a: array<string>, i: nat, len: nat)
    requires i < len <= a.Length
    modifies a
    ensures a[..] == old(a[..i]) + old(a[i + 1..len]) + old(a[len - 1..])
  {
    ghost var was := a[..];
    forall k | i <= k < len - 1 {
      a[k] := a[k + 1];
    }
    assert a[..i] == was[..i];
    assert a[i..len - 1] == was[i + 1..len];
    assert a[len - 1..] == was[len - 1..];
    assert a[..] == a[..i] + a[i..len - 1] + a[len - 1..];
  }

  /** The removal over the backing array. The range expression is evaluated once, so the loop runs over the
      original length and reads the array, while the list is the prefix of the array of length `len`. */
  method ListRemoveStr(a: array<string>, s: string) returns (panics: bool, len: nat)
    modifies a
    ensures panics == SlicesOutOfRange(old(a[..]), s)
    ensures len <= a.Length
    ensures !panics ==> a[..len] == Sweep(old(a[..]), s)
  {
    len := a.Length;
    ghost var l := a[..];
    assert l[0..] == l;
    for i := 0 to a.Length
      invariant Sweeping(a[..], l, s, i, len)
      invariant i == a.Length ==> !SlicesOutOfRange(l, s)
    {
      ghost var b, n := a[..], len;
      if a[i] == s {
        if len < i + 1 {
          // list[i+1:] starts past the end of the list
          SweepRunsOut(b, l, s, i, len);
          return true, len;
        }
        AppendInPlace(a, i, len);
        len := len - 1;
      }
      SweepTurn(b, a[..], l, s, i, n);
      SweepEnds(b, l, s, i, n);
    }
    return false, len;
  }

  /** The removal is the order-preserving filter, without a panic, exactly when the item occurs at most once or
      never next to itself and not in last place. */
  lemma RemovesExactly(l: seq<string>, s: string)
    ensures ListRemove(l, s) == Some(Without(l, s))
       <==> Count(l, s) <= 1 || (l[|l| - 1] != s && !HasAdjacent(l, s))
  {
    SweepFilters(l, s);
    if !SlicesOutOfRange(l, s) && |l| > 0 && l[|l| - 1] == s {
      assert l == l[..|l| - 1] + [s];
      assert Count(l, s) == 1;
      AdjacentCounts(l, s);
    } else if SlicesOutOfRange(l, s) {
      assert l == l[..|l| - 1] + [s];
    } else if Count(l, s) <= 1 {
      AdjacentCounts(l, s);
    }
  }

  lemma AdjacentCounts(l: seq<string>, s: string)
    ensures HasAdjacent(l, s) ==> Count(l, s) >= 2
  {
    if HasAdjacent(l, s) {
      var k :| 0 <= k < |l| - 1 && l[k] == s && l[k + 1] == s;
      assert l == l[..k] + [s, s] + l[k + 2..];
    }
  }

  lemma AdjacentTail(l: seq<string>, s: string)
    requires |l| > 1
    ensures HasAdjacent(l, s) <==> (l[0] == s && l[1] == s) || HasAdjacent(l[1..], s)
  {
  }

  lemma {:induction false} SweepFilters(l: seq<string>, s: string)
    ensures Sweep(l, s) == Without(l, s) <==> !HasAdjacent(l, s)
  {
    if |l| > 1 {
      AdjacentTail(l, s);
      assert l[1..][1..] == l[2..];
      if l[0] != s {
        SweepFilters(l[1..], s);
        assert Sweep(l, s)[1..] == Sweep(l[1..], s) && Without(l, s)[1..] == Without(l[1..], s);
      } else if l[1] == s {
        assert Sweep(l, s)[0] == s;
      } else {
        SweepFilters(l[2..], s);
        assert Without(l, s) == [l[1]] + Without(l[2..], s);
        assert Sweep(l, s)[1..] == Sweep(l[2..], s) && Without(l, s)[1..] == Without(l[2..], s);
        if |l| > 2 {
          AdjacentTail(l[1..], s);
        }
      }
    }
  }
}
