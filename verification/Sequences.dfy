// Sequences without repetitions, and values stored under names.
module Sequences {
  ghost predicate Distinct<T>(s: seq<T>) {
    forall i, j :: 0 <= i < j < |s| ==> s[i] != s[j]
  }

  predicate NoRepeats(names: seq<string>) {
    names == [] || (names[|names| - 1] !in names[..|names| - 1] && NoRepeats(names[..|names| - 1]))
  }

  lemma {:induction false} NoRepeatsIsDistinct(names: seq<string>)
    ensures NoRepeats(names) <==> Distinct(names)
  {
    if names != [] {
      var init, last := names[..|names| - 1], names[|names| - 1];
      NoRepeatsIsDistinct(init);
      assert names == init + [last];
      if last in init {
        var i :| 0 <= i < |init| && init[i] == last;
        assert names[i] == names[|init|];
      }
    }
  }

  // Each value under the name at the same place.
  function Zip<T>(names: seq<string>, values: seq<T>): map<string, T>
    requires |names| == |values|
  {
    if names == [] then map[]
    else
      var n := |names| - 1;
      Zip(names[..n], values[..n])[names[n] := values[n]]
  }

  lemma {:induction false} ZipAt<T>(names: seq<string>, values: seq<T>)
    requires |names| == |values| && Distinct(names)
    ensures forall name :: name in Zip(names, values) <==> name in names
    ensures forall i :: 0 <= i < |names| ==> Zip(names, values)[names[i]] == values[i]
  {
    if names != [] {
      var n := |names| - 1;
      ZipAt(names[..n], values[..n]);
      assert names == names[..n] + [names[n]];
      forall i | 0 <= i < |names|
        ensures Zip(names, values)[names[i]] == values[i]
      {
        if i < n { assert names[..n][i] == names[i] && values[..n][i] == values[i]; }
      }
    }
  }

  function Mapped<T, U>(f: T -> U, s: seq<T>): seq<U> {
    seq(|s|, i requires 0 <= i < |s| => f(s[i]))
  }

  lemma MappedAppend<T, U>(f: T -> U, a: seq<T>, b: seq<T>)
    ensures Mapped(f, a + b) == Mapped(f, a) + Mapped(f, b)
  {
  }
}
