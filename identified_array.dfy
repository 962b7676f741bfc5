/** The id-keyed ordered collection that holds the character list (`IdentifiedArrayOf<Character>`):
    an ordered sequence whose ids are pairwise distinct. Appending an element whose id is already
    present leaves the collection as it is. */
module IdentifiedArrays {
  import opened Models

  /** The ids present in `s`. */
  function IdSet(s: seq<Character>): set<int>
  {
    set c | c in s :: c.id
  }

  /** No two elements of `s` share an id. */
  predicate DistinctIds(s: seq<Character>)
  {
    forall i, j :: 0 <= i < j < |s| ==> s[i].id != s[j].id
  }

  lemma IdSetAppend(s: seq<Character>, x: Character)
    ensures IdSet(s + [x]) == IdSet(s) + {x.id}
  {
    assert forall c :: c in s + [x] <==> c in s || c == x;
  }

  /** Appends `x` at the end unless an element with its id is already present. */
  function Append(s: seq<Character>, x: Character): (r: seq<Character>)
    ensures |s| <= |r| <= |s| + 1
    ensures r[..|s|] == s
    ensures x.id in IdSet(r)
    ensures IdSet(r) == IdSet(s) + {x.id}
    ensures x.id in IdSet(s) ==> r == s
    ensures x.id !in IdSet(s) ==> r == s + [x]
    ensures DistinctIds(s) ==> DistinctIds(r)
  {
    IdSetAppend(s, x);
    if x.id in IdSet(s) then s else s + [x]
  }

  /** Appends every element of `xs` in order, one `Append` at a time. */
  function AppendAll(s: seq<Character>, xs: seq<Character>): seq<Character>
    decreases |xs|
  {
    if xs == [] then s else Append(AppendAll(s, xs[..|xs| - 1]), xs[|xs| - 1])
  }

  /** Appending the first `i + 1` elements is appending the first `i`, then element `i`. */
  lemma AppendAllStep(s: seq<Character>, xs: seq<Character>, i: nat)
    requires i < |xs|
    ensures AppendAll(s, xs[..i + 1]) == Append(AppendAll(s, xs[..i]), xs[i])
  {
    var loaded := xs[..i + 1];
    assert loaded[..i] == xs[..i] && loaded[i] == xs[i];
  }

  /** What appending a batch keeps: the existing elements stay first and in order, the ids become
      those of both, nothing appears that was in neither, and ids stay distinct. */
  lemma {:induction false} AppendAllKeeps(s: seq<Character>, xs: seq<Character>)
    ensures var r := AppendAll(s, xs);
      && |s| <= |r| <= |s| + |xs|
      && r[..|s|] == s
      && IdSet(r) == IdSet(s) + IdSet(xs)
      && (forall c :: c in r ==> c in s || c in xs)
      && (DistinctIds(s) ==> DistinctIds(r))
    decreases |xs|
  {
    if xs != [] {
      var init := xs[..|xs| - 1];
      var last := xs[|xs| - 1];
      assert xs == init + [last];
      IdSetAppend(init, last);
      AppendAllKeeps(s, init);
    }
  }

  /** Appending pages one after the other is appending their concatenation. */
  lemma {:induction false} AppendAllConcat(s: seq<Character>, xs: seq<Character>, ys: seq<Character>)
    ensures AppendAll(AppendAll(s, xs), ys) == AppendAll(s, xs + ys)
    decreases |ys|
  {
    if ys == [] {
      assert xs + ys == xs;
    } else {
      var init := ys[..|ys| - 1];
      assert (xs + ys)[..|xs + ys| - 1] == xs + init;
      assert (xs + ys)[|xs + ys| - 1] == ys[|ys| - 1];
      AppendAllConcat(s, xs, init);
    }
  }

  /** When no id repeats across the existing elements and the new ones, the result is exactly the
      concatenation: order kept, nothing dropped. */
  lemma {:induction false} AppendAllFresh(s: seq<Character>, xs: seq<Character>)
    requires DistinctIds(s + xs)
    ensures AppendAll(s, xs) == s + xs
    decreases |xs|
  {
    if xs != [] {
      var init := xs[..|xs| - 1];
      var last := xs[|xs| - 1];
      assert s + xs == (s + init) + [last];
      assert DistinctIds(s + init) by {
        forall i, j | 0 <= i < j < |s + init| ensures (s + init)[i].id != (s + init)[j].id {
          assert (s + init)[i] == (s + xs)[i] && (s + init)[j] == (s + xs)[j];
        }
      }
      AppendAllFresh(s, init);
      assert last.id !in IdSet(s + init) by {
        forall c | c in s + init ensures c.id != last.id {
          var k :| 0 <= k < |s + init| && (s + init)[k] == c;
          assert (s + xs)[k] == c && (s + xs)[|s + xs| - 1] == last;
        }
      }
    }
  }

  /** Loading characters that are all already listed changes nothing. */
  lemma {:induction false} AppendAllKnown(s: seq<Character>, xs: seq<Character>)
    requires IdSet(xs) <= IdSet(s)
    ensures AppendAll(s, xs) == s
    decreases |xs|
  {
    if xs != [] {
      var init := xs[..|xs| - 1];
      var last := xs[|xs| - 1];
      assert xs == init + [last];
      IdSetAppend(init, last);
      AppendAllKnown(s, init);
    }
  }
}
