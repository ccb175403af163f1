/**
 * The checkbox toggles of the home page (`handleCategoryChange`,
 * `handleBrandChange`): a selected value is removed, any other is appended.
 */
module Selection {
  import opened Seqs

  /** `prev.filter((x) => x !== value)`. */
  function RemoveAll(prev: seq<string>, value: string): (r: seq<string>)
    ensures forall v :: v in r <==> v in prev && v != value
    ensures forall v :: v != value ==> multiset(r)[v] == multiset(prev)[v]
    ensures |r| <= |prev| && (value in prev ==> |r| < |prev|)
    ensures IsSubsequence(r, prev)
    decreases |prev|
  {
    if prev == [] then []
    else
      var rest := RemoveAll(prev[1..], value);
      assert prev == [prev[0]] + prev[1..];
      if prev[0] == value then
        SubsequenceOfTail(rest, prev);
        rest
      else
        assert ([prev[0]] + rest)[1..] == rest;
        [prev[0]] + rest
  }

  lemma SubsequenceOfTail(a: seq<string>, b: seq<string>)
    requires b != [] && IsSubsequence(a, b[1..])
    ensures IsSubsequence(a, b)
  {
  }

  /** The new selection after clicking the checkbox of `value`. */
  function Toggle(prev: seq<string>, value: string): (r: seq<string>)
    ensures value in r <==> value !in prev
    ensures forall v :: v != value ==> (v in r <==> v in prev)
    ensures forall v :: v != value ==> multiset(r)[v] == multiset(prev)[v]
    ensures value !in prev ==> r == prev + [value]
    ensures value in prev ==> IsSubsequence(r, prev) && |r| < |prev|
  {
    if value in prev then
      RemoveAll(prev, value)
    else prev + [value]
  }

  /** Removing a value that was just appended gives back the original list. */
  lemma {:induction false} RemoveAppended(prev: seq<string>, value: string)
    requires value !in prev
    ensures RemoveAll(prev + [value], value) == prev
    decreases |prev|
  {
    if prev == [] {
      assert RemoveAll([value], value) == RemoveAll([], value);
    } else {
      assert (prev + [value])[1..] == prev[1..] + [value];
      RemoveAppended(prev[1..], value);
      assert [prev[0]] + prev[1..] == prev;
    }
  }

  /** Clicking the same unchecked box twice restores the selection. */
  lemma ToggleTwiceRestores(prev: seq<string>, value: string)
    requires value !in prev
    ensures Toggle(Toggle(prev, value), value) == prev
  {
    RemoveAppended(prev, value);
  }
}
