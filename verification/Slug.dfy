// slugify, copied verbatim into repository.go, event_gateway.go and service.go.
module Slug {
  import opened Text

  predicate IsSlugChar(c: char) {
    'a' <= c <= 'z' || '0' <= c <= '9'
  }

  predicate AllSlugChars(s: string) {
    forall i :: 0 <= i < |s| ==> IsSlugChar(s[i])
  }

  // unicode.ToLower as far as slugs can see it: the capitals A-Z, and the two characters outside
  // ASCII whose lower case is ASCII (I with dot above, and the Kelvin sign). Every other character
  // has a lower case outside a-z and 0-9, so leaving it alone changes no slug.
  function LowerChar(c: char): char {
    if 'A' <= c <= 'Z' then "abcdefghijklmnopqrstuvwxyz"[c as int - 'A' as int]
    else if c == '\U{130}' then 'i'
    else if c == '\U{212A}' then 'k'
    else c
  }

  lemma CapitalsLowered(c: char)
    requires 'A' <= c <= 'Z'
    ensures LowerChar(c) as int == c as int - 'A' as int + 'a' as int
  {
    var letters := "abcdefghijklmnopqrstuvwxyz";
    assert forall i :: 0 <= i < 26 ==> letters[i] as int == 'a' as int + i;
  }

  function Lower(s: string): (r: string)
    ensures |r| == |s| && forall i :: 0 <= i < |s| ==> r[i] == LowerChar(s[i])
  {
    seq(|s|, i requires 0 <= i < |s| => LowerChar(s[i]))
  }

  ghost predicate ValidRuns(runs: seq<string>) {
    forall i :: 0 <= i < |runs| ==> runs[i] != "" && AllSlugChars(runs[i])
  }

  predicate EndsInRun(s: string) {
    s != "" && IsSlugChar(s[|s| - 1])
  }

  function Extend(runs: seq<string>, c: char): (r: seq<string>)
    requires runs != []
  {
    runs[..|runs| - 1] + [runs[|runs| - 1] + [c]]
  }

  // Reference definition: the maximal runs of slug characters, left to right ...
  function Runs(s: string): (runs: seq<string>)
    ensures ValidRuns(runs)
    ensures EndsInRun(s) ==> runs != []
  {
    if s == "" then []
    else
      var init, c := s[..|s| - 1], s[|s| - 1];
      if !IsSlugChar(c) then Runs(init)
      else if EndsInRun(init) then Extend(Runs(init), c)
      else Runs(init) + [[c]]
  }

  lemma RunsSnoc(s: string, c: char)
    ensures !IsSlugChar(c) ==> Runs(s + [c]) == Runs(s)
    ensures IsSlugChar(c) && !EndsInRun(s) ==> Runs(s + [c]) == Runs(s) + [[c]]
    ensures IsSlugChar(c) && EndsInRun(s) ==> Runs(s + [c]) == Extend(Runs(s), c)
  {
    assert (s + [c])[..|s + [c]| - 1] == s;
  }

  // ... joined by single hyphens.
  function Join(runs: seq<string>): string {
    if runs == [] then ""
    else if |runs| == 1 then runs[0]
    else Join(runs[..|runs| - 1]) + "-" + runs[|runs| - 1]
  }

  lemma JoinSnoc(runs: seq<string>, run: string)
    ensures Join(runs + [run]) == if runs == [] then run else Join(runs) + "-" + run
  {
    assert (runs + [run])[..|runs|] == runs;
  }

  function SlugOf(s: string): string {
    Join(Runs(Lower(s)))
  }

  // The shape of a slug: no hyphen at either end, no two in a row.
  ghost predicate IsSlug(s: string) {
    && (forall i :: 0 <= i < |s| ==> IsSlugChar(s[i]) || s[i] == '-')
    && (s != "" ==> s[0] != '-' && s[|s| - 1] != '-')
    && (forall i :: 0 <= i < |s| - 1 ==> !(s[i] == '-' && s[i + 1] == '-'))
  }

  // strings.Trim(s, "-")
  function TrimHyphens(s: string): string {
    if s != "" && s[0] == '-' then TrimHyphens(s[1..])
    else if s != "" && s[|s| - 1] == '-' then TrimHyphens(s[..|s| - 1])
    else s
  }

  method Slugify(input: string) returns (slug: string)
    ensures slug == SlugOf(input)
  {
    var builder := Build(Lower(TrimSpace(input)));
    FramedGivesSlug(input);
    slug := TrimHyphens(builder);
  }

  // The loop of slugify over the lowercased, trimmed value.
  method Build(value: string) returns (builder: string)
    ensures builder == Framed(value)
  {
    builder := "";
    var lastHyphen := false;
    for i := 0 to |value|
      invariant lastHyphen <==> i > 0 && !EndsInRun(value[..i])
      invariant builder == Built(value[..i])
    {
      var c := value[i];
      assert value[..i + 1][..i] == value[..i];
      if IsSlugChar(c) {
        builder := builder + [c];
        lastHyphen := false;
      } else if !lastHyphen {
        builder := builder + "-";
        lastHyphen := true;
      }
    }
    assert value[..|value|] == value;
    BuiltIsFramed(value);
  }

  // What the builder holds after a prefix.
  ghost function Built(s: string): string {
    if s == "" then ""
    else
      var init, c := s[..|s| - 1], s[|s| - 1];
      if IsSlugChar(c) then Built(init) + [c]
      else if init == "" || EndsInRun(init) then Built(init) + "-"
      else Built(init)
  }

  // The joined runs, with a hyphen for a separator before the first run and one for a separator
  // after the last.
  ghost function Framed(s: string): string {
    Lead(s) + Join(Runs(s)) + Trail(s)
  }

  ghost function Lead(s: string): string {
    if s == "" || IsSlugChar(s[0]) then "" else "-"
  }

  ghost function Trail(s: string): string {
    if EndsInRun(s) || Runs(s) == [] then "" else "-"
  }

  lemma {:induction false} NoRuns(s: string)
    requires Runs(s) == []
    ensures forall i :: 0 <= i < |s| ==> !IsSlugChar(s[i])
  {
    if s != "" {
      NoRuns(s[..|s| - 1]);
    }
  }

  lemma FrameAppends(lead: string, joined: string, run: string)
    ensures lead + (joined + run) + "" == lead + joined + "" + run
    ensures lead + (joined + "-" + run) + "" == lead + joined + "-" + run
    ensures lead + run + "" == lead + "" + "" + run
  {
  }

  lemma FramedRunChar(s: string, c: char)
    requires IsSlugChar(c)
    ensures Framed(s + [c]) == Framed(s) + [c]
  {
    RunsSnoc(s, c);
    var runs := Runs(s);
    FrameAppends(Lead(s), Join(runs), [c]);
    if EndsInRun(s) {
      JoinExtend(runs, c);
    } else {
      JoinSnoc(runs, [c]);
      if runs == [] {
        NoRuns(s);
      }
    }
  }

  lemma FramedSeparator(s: string, c: char)
    requires !IsSlugChar(c)
    ensures Framed(s + [c]) == if s == "" || EndsInRun(s) then Framed(s) + "-" else Framed(s)
  {
    RunsSnoc(s, c);
    var joined := Join(Runs(s));
    if s == "" {
      assert "-" + "" + "" == "" + "" + "" + "-";
    } else if EndsInRun(s) {
      assert Lead(s) + joined + "-" == Lead(s) + joined + "" + "-";
    }
  }

  lemma {:induction false} BuiltIsFramed(s: string)
    ensures Built(s) == Framed(s)
  {
    if s != "" {
      var init, c := s[..|s| - 1], s[|s| - 1];
      assert s == init + [c];
      BuiltIsFramed(init);
      if IsSlugChar(c) {
        FramedRunChar(init, c);
      } else {
        FramedSeparator(init, c);
      }
    }
  }

  lemma JoinExtend(runs: seq<string>, c: char)
    requires runs != []
    ensures Join(Extend(runs, c)) == Join(runs) + [c]
  {
    JoinSnoc(runs[..|runs| - 1], runs[|runs| - 1]);
    JoinSnoc(runs[..|runs| - 1], runs[|runs| - 1] + [c]);
    assert runs == runs[..|runs| - 1] + [runs[|runs| - 1]];
  }

  lemma {:induction false} JoinIsSlug(runs: seq<string>)
    requires ValidRuns(runs)
    ensures IsSlug(Join(runs))
    ensures Join(runs) == "" <==> runs == []
  {
    if |runs| > 1 {
      JoinIsSlug(runs[..|runs| - 1]);
      var head, last := Join(runs[..|runs| - 1]), runs[|runs| - 1];
      var s := Join(runs);
      assert s == head + "-" + last;
      assert s[|head|] == '-';
      forall i | 0 <= i < |s| - 1
        ensures !(s[i] == '-' && s[i + 1] == '-')
      {
        if i > |head| {
          assert IsSlugChar(last[i - |head| - 1]);
        } else if i == |head| {
          assert s[i + 1] == last[0];
        } else if i == |head| - 1 {
          assert s[i] == head[|head| - 1];
        }
      }
    }
  }

  lemma TrimsLeading(s: string)
    ensures TrimHyphens("-" + s) == TrimHyphens(s)
  {
    assert ("-" + s)[1..] == s;
  }

  lemma TrimsTrailing(s: string)
    requires s != "" && s[0] != '-'
    ensures TrimHyphens(s + "-") == TrimHyphens(s)
  {
    assert (s + "-")[0] == s[0] && (s + "-")[..|s|] == s;
  }

  lemma TrimsHyphens(core: string)
    requires core == "" || (core[0] != '-' && core[|core| - 1] != '-')
    ensures TrimHyphens(core) == core
    ensures TrimHyphens(core + "-") == core
    ensures TrimHyphens("-" + core) == core
    ensures TrimHyphens("-" + core + "-") == core
  {
    TrimsLeading(core);
    TrimsLeading(core + "-");
    assert "-" + core + "-" == "-" + (core + "-");
    if core == "" {
      assert core + "-" == "-" + core;
    } else {
      TrimsTrailing(core);
    }
  }

  lemma FramedGivesSlug(input: string)
    ensures TrimHyphens(Framed(Lower(TrimSpace(input)))) == SlugOf(input)
  {
    TrimKeepsRuns(input);
    var s := Lower(TrimSpace(input));
    JoinIsSlug(Runs(s));
    TrimsFrame(Lead(s), Join(Runs(s)), Trail(s));
  }

  lemma TrimsFrame(lead: string, core: string, trail: string)
    requires (lead == "" || lead == "-") && (trail == "" || trail == "-")
    requires core == "" || (core[0] != '-' && core[|core| - 1] != '-')
    ensures TrimHyphens(lead + core + trail) == core
  {
    TrimsHyphens(core);
    assert "" + core == core && core + "" == core && "-" + core + "" == "-" + core;
  }

  // Runs of a concatenation with a separator at the seam.
  lemma {:induction false} RunsOfSeparated(a: string, b: string)
    requires !EndsInRun(a) || b == "" || !IsSlugChar(b[0])
    ensures Runs(a + b) == Runs(a) + Runs(b)
    decreases |b|
  {
    if b == "" {
      assert a + b == a;
    } else {
      var init, c := b[..|b| - 1], b[|b| - 1];
      assert b == init + [c] && a + b == (a + init) + [c];
      RunsOfSeparated(a, init);
      if init == "" {
        assert a + init == a;
      } else {
        assert EndsInRun(a + init) <==> EndsInRun(init);
      }
      SeamSnoc(a, init, c);
    }
  }

  lemma SeamSnoc(a: string, init: string, c: char)
    requires Runs(a + init) == Runs(a) + Runs(init)
    requires EndsInRun(a + init) && IsSlugChar(c) ==> EndsInRun(init)
    requires EndsInRun(init) ==> EndsInRun(a + init)
    ensures Runs((a + init) + [c]) == Runs(a) + Runs(init + [c])
  {
    RunsSnoc(init, c);
    RunsSnoc(a + init, c);
    if IsSlugChar(c) && EndsInRun(init) {
      ExtendLast(Runs(a), Runs(init), c);
    }
  }

  lemma ExtendLast(before: seq<string>, runs: seq<string>, c: char)
    requires runs != []
    ensures Extend(before + runs, c) == before + Extend(runs, c)
  {
  }

  lemma {:induction false} RunsOfSeparators(s: string)
    requires forall i :: 0 <= i < |s| ==> !IsSlugChar(s[i])
    ensures Runs(s) == []
  {
    if s != "" {
      RunsOfSeparators(s[..|s| - 1]);
    }
  }

  // White space at the ends is a separator, so trimming it first changes no run.
  lemma TrimKeepsRuns(s: string)
    ensures Runs(Lower(TrimSpace(s))) == Runs(Lower(s))
  {
    var t := TrimLeft(s);
    TrimLeftKeepsRuns(s);
    TrimRightKeepsRuns(t);
  }

  lemma TrimLeftKeepsRuns(s: string)
    ensures Runs(Lower(TrimLeft(s))) == Runs(Lower(s))
  {
    var space := TrimLeftDrops(s);
    SeparatorsAround(space, TrimLeft(s));
  }

  lemma TrimRightKeepsRuns(s: string)
    ensures Runs(Lower(TrimRight(s))) == Runs(Lower(s))
  {
    var space := TrimRightDrops(s);
    SeparatorsAround(space, TrimRight(s));
  }

  lemma SeparatorsAround(space: string, s: string)
    requires AllSpaces(space)
    ensures Runs(Lower(space + s)) == Runs(Lower(s)) == Runs(Lower(s + space))
  {
    RunsOfSeparators(Lower(space));
    assert Lower(space + s) == Lower(space) + Lower(s);
    assert Lower(s + space) == Lower(s) + Lower(space);
    RunsOfSeparated(Lower(space), Lower(s));
    RunsOfSeparated(Lower(s), Lower(space));
  }

  lemma {:induction false} RunsOfRun(run: string)
    requires run != "" && AllSlugChars(run)
    ensures Runs(run) == [run]
  {
    var init, c := run[..|run| - 1], run[|run| - 1];
    assert run == init + [c];
    RunsSnoc(init, c);
    if init != "" {
      RunsOfRun(init);
    }
  }

  lemma RunsSeparated(head: string, runs: seq<string>, last: string)
    requires Runs(head) == runs && last != "" && AllSlugChars(last)
    ensures Runs(head + "-" + last) == runs + [last]
  {
    RunsOfRun(last);
    RunsOfSeparators("-");
    RunsOfSeparated(head, "-");
    RunsSnoc(head, '-');
    RunsOfSeparated(head + "-", last);
  }

  lemma {:induction false} RunsOfJoin(runs: seq<string>)
    requires ValidRuns(runs)
    ensures Runs(Join(runs)) == runs
  {
    if |runs| == 1 {
      RunsOfRun(runs[0]);
    } else if |runs| > 1 {
      var init, last := runs[..|runs| - 1], runs[|runs| - 1];
      RunsOfJoin(init);
      RunsSeparated(Join(init), init, last);
      assert runs == init + [last];
    }
  }

  lemma SlugIsFixed(s: string)
    requires IsSlug(s)
    ensures Lower(s) == s && Trimmed(s)
  {
    assert forall i :: 0 <= i < |s| ==> LowerChar(s[i]) == s[i];
  }

  lemma SlugOfIsSlug(s: string)
    ensures IsSlug(SlugOf(s))
  {
    JoinIsSlug(Runs(Lower(s)));
  }

  lemma SlugIdempotent(s: string)
    ensures SlugOf(SlugOf(s)) == SlugOf(s)
  {
    SlugOfIsSlug(s);
    SlugIsFixed(SlugOf(s));
    RunsOfJoin(Runs(Lower(s)));
  }

  // Two inputs collide exactly when they have the same runs.
  lemma SlugCollision(a: string, b: string)
    ensures SlugOf(a) == SlugOf(b) <==> Runs(Lower(a)) == Runs(Lower(b))
  {
    RunsOfJoin(Runs(Lower(a)));
    RunsOfJoin(Runs(Lower(b)));
  }

  lemma SlugNonEmpty(s: string)
    ensures SlugOf(s) != "" <==> exists i :: 0 <= i < |s| && IsSlugChar(LowerChar(s[i]))
  {
    var low := Lower(s);
    JoinIsSlug(Runs(low));
    if Runs(low) == [] {
      NoRuns(low);
      assert forall i :: 0 <= i < |s| ==> low[i] == LowerChar(s[i]);
    } else if forall i :: 0 <= i < |s| ==> !IsSlugChar(LowerChar(s[i])) {
      RunsOfSeparators(low);
    }
  }

  // ---------- slugs in plain characters ----------

  lemma SlugCharacters(s: string)
    ensures forall i :: 0 <= i < |SlugOf(s)| ==>
              'a' <= SlugOf(s)[i] <= 'z' || '0' <= SlugOf(s)[i] <= '9' || SlugOf(s)[i] == '-'
  {
    SlugOfIsSlug(s);
  }

  // A word of ASCII letters and digits is its own slug, letters made small.
  lemma WordSlug(s: string)
    requires forall i :: 0 <= i < |s| ==> 'a' <= s[i] <= 'z' || 'A' <= s[i] <= 'Z' || '0' <= s[i] <= '9'
    ensures |SlugOf(s)| == |s|
    ensures forall i :: 0 <= i < |s| ==>
              SlugOf(s)[i] as int == if 'A' <= s[i] <= 'Z' then s[i] as int + 32 else s[i] as int
  {
    var low := Lower(s);
    forall i | 0 <= i < |s|
      ensures IsSlugChar(low[i])
      ensures low[i] as int == if 'A' <= s[i] <= 'Z' then s[i] as int + 32 else s[i] as int
    {
      if 'A' <= s[i] <= 'Z' {
        CapitalsLowered(s[i]);
      }
    }
    if s != "" {
      RunsOfRun(low);
      assert Join([low]) == low;
    }
  }
}
