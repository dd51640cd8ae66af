// Generated names: event names, campaign ids and subscriber ids.
module Names {
  import opened Text
  import opened Decimal
  import opened Wrappers
  import opened Slug
  import opened Commands

  // A clock reading to the second, in UTC.
  datatype Second = Second(year: nat, month: nat, day: nat, hour: nat, minute: nat, second: nat)

  type CivilSecond = t: Second |
    1 <= t.month <= 12 && 1 <= t.day <= 31 && t.hour < 24 && t.minute < 60 && t.second < 60
    witness Second(2026, 1, 1, 0, 0, 0)

  // time.Format("20060102150405"): the year has at least four digits, the rest exactly two.
  function YearText(year: nat): (s: string)
    ensures AllDigits(s)
  {
    if year < 10000 then Fixed(year, 4) else Dec(year)
  }

  function ClockText(t: CivilSecond): (s: string)
    ensures AllDigits(s) && |s| == 10
  {
    Fixed(t.month, 2) + (Fixed(t.day, 2) + (Fixed(t.hour, 2) + (Fixed(t.minute, 2) + Fixed(t.second, 2))))
  }

  function StampText(t: CivilSecond): (s: string)
    ensures AllDigits(s) && |s| >= 10
  {
    YearText(t.year) + ClockText(t)
  }

  lemma YearTextInjective(y: nat, z: nat)
    requires YearText(y) == YearText(z)
    ensures y == z
  {
    DecLength(y, 4);
    DecLength(z, 4);
    assert Pow10(4) == 10000;
    if y < 10000 {
      UndecFixed(y, 4);
      UndecFixed(z, 4);
    } else {
      UndecDec(y);
      UndecDec(z);
    }
  }

  lemma TwoDigits(m: nat, rest: string, n: nat, rest': string)
    requires m < 100 && n < 100 && Fixed(m, 2) + rest == Fixed(n, 2) + rest'
    ensures m == n && rest == rest'
  {
    var s := Fixed(m, 2) + rest;
    assert s[..2] == Fixed(m, 2) && s[..2] == Fixed(n, 2);
    assert s[2..] == rest && s[2..] == rest';
    assert Pow10(2) == 100;
    UndecFixed(m, 2);
    UndecFixed(n, 2);
  }

  lemma ClockTextInjective(t: CivilSecond, u: CivilSecond)
    requires ClockText(t) == ClockText(u)
    ensures t.(year := u.year) == u
  {
    var t5, u5 := Fixed(t.second, 2), Fixed(u.second, 2);
    var t4, u4 := Fixed(t.minute, 2) + t5, Fixed(u.minute, 2) + u5;
    var t3, u3 := Fixed(t.hour, 2) + t4, Fixed(u.hour, 2) + u4;
    var t2, u2 := Fixed(t.day, 2) + t3, Fixed(u.day, 2) + u3;
    TwoDigits(t.month, t2, u.month, u2);
    TwoDigits(t.day, t3, u.day, u3);
    TwoDigits(t.hour, t4, u.hour, u4);
    TwoDigits(t.minute, t5, u.minute, u5);
    assert t5 + "" == t5 && u5 + "" == u5;
    TwoDigits(t.second, "", u.second, "");
  }

  lemma StampTextInjective(t: CivilSecond, u: CivilSecond)
    requires StampText(t) == StampText(u)
    ensures t == u
  {
    var s := StampText(t);
    assert s[..|s| - 10] == YearText(t.year) == YearText(u.year);
    assert s[|s| - 10..] == ClockText(t) == ClockText(u);
    YearTextInjective(t.year, u.year);
    ClockTextInjective(t, u);
  }

  // ---------- splitting at a separator ----------

  // Everything before, and everything after, the last occurrence of a character.
  function SplitLast(s: string, c: char): Option<(string, string)> {
    if s == "" then None
    else if s[|s| - 1] == c then Some((s[..|s| - 1], ""))
    else match SplitLast(s[..|s| - 1], c)
         case None => None
         case Some((before, after)) => Some((before, after + [s[|s| - 1]]))
  }

  lemma {:induction false} SplitLastOf(before: string, c: char, after: string)
    requires c !in after
    ensures SplitLast(before + [c] + after, c) == Some((before, after))
    decreases |after|
  {
    var s := before + [c] + after;
    if after == "" {
      assert s[..|s| - 1] == before;
    } else {
      SplitLastOf(before, c, after[..|after| - 1]);
      assert s[..|s| - 1] == before + [c] + after[..|after| - 1];
      assert after == after[..|after| - 1] + [after[|after| - 1]];
    }
  }

  // ---------- event names ----------

  function EventName(surface: string, action: string): string {
    SlugOf(surface) + "." + SlugOf(action)
  }

  lemma SlugHasNoDot(s: string)
    ensures '.' !in SlugOf(s)
  {
    SlugOfIsSlug(s);
  }

  // An event name has one dot, and it separates the two slugs.
  lemma EventNameDecodes(surface: string, action: string)
    ensures SplitLast(EventName(surface, action), '.') == Some((SlugOf(surface), SlugOf(action)))
    ensures '.' !in SlugOf(surface) && '.' !in SlugOf(action)
  {
    SlugHasNoDot(surface);
    SlugHasNoDot(action);
    SplitLastOf(SlugOf(surface), '.', SlugOf(action));
  }

  lemma EventNameUnique(surface: string, action: string, surface': string, action': string)
    ensures EventName(surface, action) == EventName(surface', action')
       <==> Runs(Lower(surface)) == Runs(Lower(surface')) && Runs(Lower(action)) == Runs(Lower(action'))
  {
    EventNameDecodes(surface, action);
    EventNameDecodes(surface', action');
    SlugCollision(surface, surface');
    SlugCollision(action, action');
  }

  // ---------- campaign ids ----------

  function BuildCampaignId(action: string, now: CivilSecond): (id: string)
    ensures !Blank(id)
  {
    var id := SlugOf(action) + "-" + StampText(now);
    assert !Blank(id) by { LastIsNotSpace(id); }
    id
  }

  lemma LastIsNotSpace(s: string)
    requires s != "" && IsDigit(s[|s| - 1])
    ensures !Blank(s)
  {
    var left := TrimLeftDrops(s);
    var right := TrimRightDrops(TrimLeft(s));
    assert !IsSpace(s[|s| - 1]);
    assert TrimSpace(s) != "";
  }

  // A built id determines the slug and the second, whatever the (non-negative) year.
  lemma CampaignIdDecodes(action: string, now: CivilSecond)
    ensures SplitLast(BuildCampaignId(action, now), '-') == Some((SlugOf(action), StampText(now)))
  {
    SplitLastOf(SlugOf(action), '-', StampText(now));
  }

  lemma CampaignIdUnique(a: string, t: CivilSecond, b: string, u: CivilSecond)
    ensures BuildCampaignId(a, t) == BuildCampaignId(b, u) <==> Runs(Lower(a)) == Runs(Lower(b)) && t == u
  {
    CampaignIdDecodes(a, t);
    CampaignIdDecodes(b, u);
    SlugCollision(a, b);
    if StampText(t) == StampText(u) {
      StampTextInjective(t, u);
    }
  }

  // ---------- subscriber ids ----------

  function BeforeAt(s: string): (r: string) {
    if s == "" || s[0] == '@' then "" else [s[0]] + BeforeAt(s[1..])
  }

  lemma {:induction false} BeforeAtWithout(s: string)
    requires '@' !in s
    ensures BeforeAt(s) == s
  {
    if s != "" {
      BeforeAtWithout(s[1..]);
    }
  }

  // The id one candidate yields; empty when the candidate is passed over.
  function CandidateSlug(candidate: string): string {
    if candidate == "" || candidate == "new-subscriber" then "" else SlugOf(BeforeAt(candidate))
  }

  function Candidates(subjectId: string, metadata: Metadata): seq<string> {
    [ TrimSpace(subjectId),
      MetadataString(metadata, "subscriberId", ""),
      MetadataString(metadata, "email", ""),
      MetadataString(metadata, "name", "") ]
  }

  function FirstSlug(candidates: seq<string>, fallback: string): string {
    if candidates == [] then fallback
    else if CandidateSlug(candidates[0]) != "" then CandidateSlug(candidates[0])
    else FirstSlug(candidates[1..], fallback)
  }

  function SubscriberIdOf(subjectId: string, metadata: Metadata, now: CivilSecond): string {
    FirstSlug(Candidates(subjectId, metadata), "subscriber-" + StampText(now))
  }

  method ResolveSubscriberId(command: Command, now: CivilSecond) returns (id: string)
    ensures id == SubscriberIdOf(command.subjectId, command.metadata, now)
  {
    id := PickSlug(Candidates(command.subjectId, command.metadata), "subscriber-" + StampText(now));
  }

  // The loop of resolveSubscriberID.
  method PickSlug(candidates: seq<string>, fallback: string) returns (id: string)
    ensures id == FirstSlug(candidates, fallback)
  {
    for i := 0 to |candidates|
      invariant FirstSlug(candidates, fallback) == FirstSlug(candidates[i..], fallback)
    {
      var candidate := candidates[i];
      assert candidates[i..][1..] == candidates[i + 1..];
      if candidate == "" || candidate == "new-subscriber" {
        continue;
      }
      if '@' in candidate {
        candidate := BeforeAt(candidate);
      } else {
        BeforeAtWithout(candidate);
      }
      candidate := Slugify(candidate);
      if candidate != "" {
        return candidate;
      }
    }
    id := fallback;
  }

  lemma {:induction false} FirstSlugIsSlug(candidates: seq<string>, fallback: string)
    requires IsSlug(fallback) && SlugOf(fallback) == fallback && fallback != ""
    ensures var id := FirstSlug(candidates, fallback); id != "" && IsSlug(id) && SlugOf(id) == id
  {
    if candidates != [] {
      if CandidateSlug(candidates[0]) != "" {
        SlugOfIsSlug(BeforeAt(candidates[0]));
        SlugIdempotent(BeforeAt(candidates[0]));
      } else {
        FirstSlugIsSlug(candidates[1..], fallback);
      }
    }
  }

  lemma GeneratedIdIsSlug(now: CivilSecond)
    ensures var id := "subscriber-" + StampText(now); IsSlug(id) && SlugOf(id) == id
  {
    StampIsRun(now);
    SubscriberIsRun();
    PrefixedIsSlug("subscriber-", "subscriber", StampText(now));
  }

  lemma SubscriberIsRun()
    ensures AllSlugChars("subscriber") && "subscriber-" == "subscriber" + "-"
  {
  }

  lemma PrefixedIsSlug(prefix: string, head: string, run: string)
    requires prefix == head + "-" && head != "" && AllSlugChars(head) && run != "" && AllSlugChars(run)
    ensures IsSlug(prefix + run) && SlugOf(prefix + run) == prefix + run
  {
    JoinTwo(head, run);
    SlugIsFixed(prefix + run);
  }

  lemma StampIsRun(now: CivilSecond)
    ensures StampText(now) != "" && AllSlugChars(StampText(now))
  {
    var s := StampText(now);
    assert AllDigits(s);
  }

  // Two runs joined by a hyphen.
  lemma JoinTwo(a: string, b: string)
    requires a != "" && AllSlugChars(a) && b != "" && AllSlugChars(b)
    ensures IsSlug(a + "-" + b) && Runs(a + "-" + b) == [a, b] && Join([a, b]) == a + "-" + b
  {
    var runs := [a, b];
    assert runs[..1] == [a] && Join([a]) == a;
    JoinIsSlug(runs);
    RunsOfJoin(runs);
  }

  // A resolved id is a non-empty slug.
  lemma ResolvedIdIsSlug(subjectId: string, metadata: Metadata, now: CivilSecond)
    ensures var id := SubscriberIdOf(subjectId, metadata, now); id != "" && IsSlug(id) && SlugOf(id) == id
  {
    GeneratedIdIsSlug(now);
    FirstSlugIsSlug(Candidates(subjectId, metadata), "subscriber-" + StampText(now));
  }

  lemma SlugResolvesToItself(id: string, metadata: Metadata, now: CivilSecond)
    requires IsSlug(id) && SlugOf(id) == id && id != "" && id != "new-subscriber"
    ensures SubscriberIdOf(id, metadata, now) == id
  {
    SlugIsFixed(id);
    TrimmedIsFixed(id);
    BeforeAtWithout(id);
    assert Candidates(id, metadata)[0] == id;
  }

  lemma {:induction false} FirstSlugSkips(candidates: seq<string>, fallback: string)
    requires forall i :: 0 <= i < |candidates| ==> CandidateSlug(candidates[i]) == ""
    ensures FirstSlug(candidates, fallback) == fallback
  {
    if candidates != [] {
      FirstSlugSkips(candidates[1..], fallback);
    }
  }

  lemma PlaceholderIsPassedOver(id: string, now: CivilSecond)
    requires id == "new-subscriber"
    ensures SubscriberIdOf(id, None, now) == "subscriber-" + StampText(now)
    ensures SubscriberIdOf(id, None, now) != id
  {
    var candidates := Candidates(id, None);
    assert candidates[0] == id by {
      assert id[0] == 'n' && id[|id| - 1] == 'r';
      TrimmedIsFixed(id);
    }
    assert CandidateSlug(id) == "";
    FirstSlugSkips(candidates, "subscriber-" + StampText(now));
    assert ("subscriber-" + StampText(now))[0] == 's' && id[0] == 'n';
  }

  // Sent back as the subject id it names the same subscriber, whatever the metadata and the clock,
  // unless it is the placeholder itself (which "New Subscriber", for one, slugs to).
  lemma ResolvedIdIsStable(subjectId: string, metadata: Metadata, now: CivilSecond)
    ensures var id := SubscriberIdOf(subjectId, metadata, now);
            id != "new-subscriber" <==>
            forall metadata': Metadata, now': CivilSecond :: SubscriberIdOf(id, metadata', now') == id
  {
    var id := SubscriberIdOf(subjectId, metadata, now);
    ResolvedIdIsSlug(subjectId, metadata, now);
    if id == "new-subscriber" {
      PlaceholderIsPassedOver(id, now);
    } else {
      forall metadata': Metadata, now': CivilSecond
        ensures SubscriberIdOf(id, metadata', now') == id
      {
        SlugResolvesToItself(id, metadata', now');
      }
    }
  }

  // ---------- which subscriber a command names ----------

  // The part of a text before its first at sign, or all of it.
  ghost predicate LocalPart(s: string, part: string) {
    '@' !in part && part <= s && (|part| < |s| ==> s[|part|] == '@')
  }

  lemma {:induction false} BeforeAtIsLocalPart(s: string)
    ensures LocalPart(s, BeforeAt(s))
  {
    if s != "" && s[0] != '@' {
      BeforeAtIsLocalPart(s[1..]);
    }
  }

  // A text names the subscriber that its local part slugs to ...
  ghost predicate NamesId(s: string, id: string) {
    id != "" && s != "" && s != "new-subscriber" && exists part :: LocalPart(s, part) && SlugOf(part) == id
  }

  // ... or nobody.
  ghost predicate NamesNobody(s: string) {
    s == "" || s == "new-subscriber" || exists part :: LocalPart(s, part) && SlugOf(part) == ""
  }

  lemma CandidateNames(s: string)
    ensures if CandidateSlug(s) != "" then NamesId(s, CandidateSlug(s)) else NamesNobody(s)
  {
    BeforeAtIsLocalPart(s);
  }

  // The subject, then the subscriber id, the email and the name of the metadata: the first that names a
  // subscriber decides, and when none does the clock.
  ghost predicate NamesSubscriber(subjectId: string, metadata: Metadata, now: CivilSecond, id: string) {
    exists subscriberId, email, name ::
      && ReadsText(metadata, "subscriberId", "", subscriberId)
      && ReadsText(metadata, "email", "", email)
      && ReadsText(metadata, "name", "", name)
      && FirstNamed(TrimSpace(subjectId), subscriberId, email, name, now, id)
  }

  ghost predicate FirstNamed(subject: string, subscriberId: string, email: string, name: string,
                             now: CivilSecond, id: string) {
    NamesId(subject, id) ||
    (NamesNobody(subject) &&
     (NamesId(subscriberId, id) ||
      (NamesNobody(subscriberId) &&
       (NamesId(email, id) ||
        (NamesNobody(email) &&
         (NamesId(name, id) ||
          (NamesNobody(name) && id == "subscriber-" + StampText(now))))))))
  }

  lemma FirstOfFour(a: string, b: string, c: string, d: string, now: CivilSecond)
    ensures FirstNamed(a, b, c, d, now, FirstSlug([a, b, c, d], "subscriber-" + StampText(now)))
  {
    var fallback := "subscriber-" + StampText(now);
    assert [a, b, c, d][1..] == [b, c, d] && [b, c, d][1..] == [c, d] && [c, d][1..] == [d] && [d][1..] == [];
    CandidateNames(a);
    CandidateNames(b);
    CandidateNames(c);
    CandidateNames(d);
    assert FirstSlug([d], fallback) == if CandidateSlug(d) != "" then CandidateSlug(d) else fallback;
    assert FirstSlug([c, d], fallback) ==
           if CandidateSlug(c) != "" then CandidateSlug(c) else FirstSlug([d], fallback);
  }

  lemma SubscriberIsNamed(subjectId: string, metadata: Metadata, now: CivilSecond)
    ensures NamesSubscriber(subjectId, metadata, now, SubscriberIdOf(subjectId, metadata, now))
  {
    var subscriberId := MetadataString(metadata, "subscriberId", "");
    var email, name := MetadataString(metadata, "email", ""), MetadataString(metadata, "name", "");
    FirstOfFour(TrimSpace(subjectId), subscriberId, email, name, now);
    StringIsRead(metadata, "subscriberId", "");
    StringIsRead(metadata, "email", "");
    StringIsRead(metadata, "name", "");
  }

  // ---------- the time text ----------

  // A year of four digits or more, then two digits each for month, day, hour, minute and second.
  lemma StampTextReads(t: CivilSecond) returns (x: StampTexts)
    ensures StampText(t) == x.year + (x.month + (x.day + (x.hour + (x.minute + x.second))))
    ensures |x.year| >= 4 && AllDigits(x.year) && Undec(x.year) == t.year
    ensures |x.month| == 2 && AllDigits(x.month) && Undec(x.month) == t.month
    ensures |x.day| == 2 && AllDigits(x.day) && Undec(x.day) == t.day
    ensures |x.hour| == 2 && AllDigits(x.hour) && Undec(x.hour) == t.hour
    ensures |x.minute| == 2 && AllDigits(x.minute) && Undec(x.minute) == t.minute
    ensures |x.second| == 2 && AllDigits(x.second) && Undec(x.second) == t.second
  {
    x := StampTexts(YearText(t.year), Fixed(t.month, 2), Fixed(t.day, 2), Fixed(t.hour, 2), Fixed(t.minute, 2),
                    Fixed(t.second, 2));
    YearTextReads(t.year);
    TwoDigitsRead(t.month);
    TwoDigitsRead(t.day);
    TwoDigitsRead(t.hour);
    TwoDigitsRead(t.minute);
    TwoDigitsRead(t.second);
  }

  /** The digits of each part of a stamp. */
  datatype StampTexts = StampTexts(year: string, month: string, day: string, hour: string, minute: string,
                                   second: string)

  lemma TwoDigitsRead(n: nat)
    requires n < 100
    ensures Undec(Fixed(n, 2)) == n
  {
    assert Pow10(2) == 100;
    UndecFixed(n, 2);
  }

  lemma YearTextReads(year: nat)
    ensures |YearText(year)| >= 4 && Undec(YearText(year)) == year
  {
    assert Pow10(4) == 10000 && Pow10(3) == 1000;
    if year < 10000 {
      UndecFixed(year, 4);
    } else {
      UndecDec(year);
      DecLength(year, 3);
    }
  }
}
