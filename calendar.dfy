/** The content calendar: the user's topics, the monthly rotation of post
    types, the posting days of a month, the date keys of the content cache,
    and the session state the calendar page keeps (the rotation and the
    cache) with the updates its buttons make. Randomness (`random.choice`,
    `random.shuffle`) is a nondeterministic choice; the Gregorian calendar
    enters as the month's length and the weekday of its first day. */
module Calendar {
  import opened Wrappers
  import opened Text
  import opened Sorting
  import opened VectorStore

  // ---------------------------------------------------------------------
  // Topics

  datatype LinkedinProfile = LinkedinProfile(
    topicsOfInterest: Option<seq<string>>,
    selectedCategories: Option<seq<string>>)

  /** The parts of a stored profile the topic list reads. */
  datatype TopicProfile = TopicProfile(
    activeOnLinkedin: bool,
    linkedinProfile: Option<LinkedinProfile>,
    referenceCategories: Option<Option<seq<string>>>)

  function OrEmpty(s: Option<seq<string>>): seq<string> {
    if s.Some? then s.value else []
  }

  /** The topics before duplicates are removed: an active user's LinkedIn
      topics of interest and selected categories, otherwise the selected
      categories of the reference-creator information. */
  function TopicCandidates(p: TopicProfile): (r: seq<string>)
    ensures p.activeOnLinkedin && p.linkedinProfile.Some? ==>
              r == OrEmpty(p.linkedinProfile.value.topicsOfInterest)
                   + OrEmpty(p.linkedinProfile.value.selectedCategories)
    ensures !(p.activeOnLinkedin && p.linkedinProfile.Some?) ==>
              r == if p.referenceCategories.Some? then OrEmpty(p.referenceCategories.value) else []
  {
    if p.activeOnLinkedin && p.linkedinProfile.Some? then
      OrEmpty(p.linkedinProfile.value.topicsOfInterest) + OrEmpty(p.linkedinProfile.value.selectedCategories)
    else if p.referenceCategories.Some? then OrEmpty(p.referenceCategories.value)
    else []
  }

  /** `s` with every element after its first occurrence dropped. */
  function Unique(s: seq<string>): seq<string> {
    if s == [] then []
    else
      var u := Unique(s[..|s| - 1]);
      if s[|s| - 1] in u then u else u + [s[|s| - 1]]
  }

  /** The position of the first occurrence of `x` in `s`. */
  function FirstPos(s: seq<string>, x: string): (k: nat)
    requires x in s
    ensures k < |s| && s[k] == x && x !in s[..k]
  {
    if s[0] == x then 0
    else
      assert s == [s[0]] + s[1..];
      1 + FirstPos(s[1..], x)
  }

  /** A position holding `x` with no `x` before it is the first position. */
  lemma FirstPosUnique(s: seq<string>, x: string, k: nat)
    requires k < |s| && s[k] == x && x !in s[..k]
    ensures FirstPos(s, x) == k
  {
    var k' := FirstPos(s, x);
    assert forall j :: 0 <= j < k ==> s[..k][j] == s[j];
    assert forall j :: 0 <= j < k' ==> s[..k'][j] == s[j];
  }

  lemma FirstPosExtend(s: seq<string>, y: string, x: string)
    requires x in s
    ensures FirstPos(s + [y], x) == FirstPos(s, x)
  {
    var k := FirstPos(s, x);
    assert (s + [y])[..k] == s[..k];
    FirstPosUnique(s + [y], x, k);
  }

  /** Duplicates are gone, nothing else is, and elements keep the order of
      their first occurrences. */
  lemma {:induction false} UniqueProps(s: seq<string>)
    ensures NoDup(Unique(s))
    ensures forall x :: x in Unique(s) <==> x in s
    ensures forall i, j :: 0 <= i < j < |Unique(s)| ==> FirstPos(s, Unique(s)[i]) < FirstPos(s, Unique(s)[j])
  {
    if s != [] {
      var p := s[..|s| - 1];
      var x := s[|s| - 1];
      UniqueProps(p);
      assert s == p + [x];
      var u := Unique(p);
      forall y | y in p
        ensures FirstPos(s, y) == FirstPos(p, y)
      {
        FirstPosExtend(p, x, y);
      }
      if x !in u {
        NewLastComesLast(p, x, u);
      }
    }
  }

  /** A new element appended after `p` comes after every element of `p`. */
  lemma NewLastComesLast(p: seq<string>, x: string, u: seq<string>)
    requires x !in p && forall y :: y in u ==> y in p
    ensures forall i :: 0 <= i < |u| ==> FirstPos(p + [x], u[i]) < FirstPos(p + [x], x)
  {
    assert (p + [x])[..|p|] == p;
    FirstPosUnique(p + [x], x, |p|);
    forall i | 0 <= i < |u| ensures FirstPos(p + [x], u[i]) < |p| {
      FirstPosExtend(p, x, u[i]);
    }
  }

  /** `get_user_topics`: the candidate topics without duplicates, in order,
      using a set of the topics already seen. */
  method UserTopics(p: TopicProfile) returns (r: seq<string>)
    ensures r == Unique(TopicCandidates(p))
  {
    var topics := TopicCandidates(p);
    var seen: set<string> := {};
    r := [];
    var i := 0;
    while i < |topics|
      invariant 0 <= i <= |topics|
      invariant r == Unique(topics[..i])
      invariant seen == set x | x in r
    {
      assert topics[..i + 1][..i] == topics[..i];
      if topics[i] !in seen {
        seen := seen + {topics[i]};
        r := r + [topics[i]];
      }
      i := i + 1;
    }
    assert topics[..|topics|] == topics;
  }

  /** The user's topics, read off the profile: no topic twice, and exactly
      the topics of interest and selected categories of an active user's
      LinkedIn profile, or else the reference creators' selected categories. */
  lemma TopicsOfProfile(p: TopicProfile)
    ensures var r := Unique(TopicCandidates(p));
            && NoDup(r)
            && forall x :: x in r <==>
                 if p.activeOnLinkedin && p.linkedinProfile.Some?
                 then x in OrEmpty(p.linkedinProfile.value.topicsOfInterest)
                      || x in OrEmpty(p.linkedinProfile.value.selectedCategories)
                 else p.referenceCategories.Some? && x in OrEmpty(p.referenceCategories.value)
  {
    UniqueProps(TopicCandidates(p));
  }

  // ---------------------------------------------------------------------
  // Post-type rotation

  /** The types a date may be switched to. */
  const AllPostTypes: seq<string> := [
    "Storytelling", "Life Lesson", "Personal Experience", "Factual",
    "Data Driven", "Motivational", "Inspirational", "Thought Provoking",
    "How-to/Educational", "Behind the Scenes", "Industry Insights",
    "Question/Poll", "Articles"]

  /** The mix used when the profile names no preferred types. */
  const DefaultPostTypes: seq<string> := [
    "Storytelling", "Personal Experience", "Data Driven", "Industry Insights",
    "How-to/Educational", "Motivational", "Articles"]

  /** The types a date outside the rotation draws from. */
  const FallbackPostTypes: seq<string> := [
    "Storytelling", "Life Lesson", "Personal Experience", "Factual",
    "Data Driven", "Motivational", "Inspirational", "Thought Provoking",
    "How-to/Educational", "Behind the Scenes", "Industry Insights", "Question/Poll"]

  /** The profile's preferred post types when it has them, else the default mix. */
  function ChosenTypes(preferred: Option<seq<string>>): (r: seq<string>)
    ensures preferred.None? ==> r == DefaultPostTypes && |r| == 7
  {
    if preferred.Some? then preferred.value else DefaultPostTypes
  }

  /** The default mix is seven different types, all of them types a date
      may be switched to. The types come out empty only when the profile
      prefers an empty list, which makes the rotation's division raise. */
  lemma ChosenTypesMix(preferred: Option<seq<string>>)
    ensures ChosenTypes(preferred) == [] <==> preferred == Some([])
    ensures preferred.None? ==>
              |ChosenTypes(preferred)| == 7 && NoDup(ChosenTypes(preferred))
              && forall t :: t in ChosenTypes(preferred) ==> t in AllPostTypes
  {
    DefaultMixDistinct();
  }

  lemma DefaultMixDistinct()
    ensures NoDup(DefaultPostTypes)
    ensures forall t :: t in DefaultPostTypes ==> t in AllPostTypes
  {
  }

  /** `[t] * k` */
  function Repeat(t: string, k: nat): (r: seq<string>)
    ensures |r| == k && forall i :: 0 <= i < k ==> r[i] == t
    ensures multiset(r)[t] == k
  {
    if k == 0 then [] else Repeat(t, k - 1) + [t]
  }

  /** The in-place shuffle of `random.shuffle`: from the last position down
      to the second, swap with a position chosen at random at or below it. */
  method Shuffle(a: array<string>)
    modifies a
    ensures multiset(a[..]) == old(multiset(a[..]))
  {
    var i := a.Length - 1;
    while i > 0
      invariant -1 <= i < a.Length
      invariant multiset(a[..]) == old(multiset(a[..]))
    {
      var j :| 0 <= j <= i;
      a[i], a[j] := a[j], a[i];
      i := i - 1;
    }
  }

  /** One more type's copies keep the rotation within the types and give
      that type its share. */
  lemma BalancedStep(rotation: seq<string>, types: seq<string>, i: nat, perType: nat)
    requires i < |types|
    requires forall x :: x in multiset(rotation) ==> x in types
    requires forall t :: t in types[..i] ==> multiset(rotation)[t] >= perType
    ensures var r := rotation + Repeat(types[i], perType);
            && (forall x :: x in multiset(r) ==> x in types)
            && (forall t :: t in types[..i + 1] ==> multiset(r)[t] >= perType)
  {
    var more := Repeat(types[i], perType);
    var r := rotation + more;
    assert multiset(r) == multiset(rotation) + multiset(more);
    forall x | x in multiset(r) ensures x in types {
      if x !in multiset(rotation) {
        assert x in more;
      }
    }
    assert types[..i + 1] == types[..i] + [types[i]];
  }

  /** The balanced part of the rotation: `perType` copies of each type, in order. */
  method Balanced(types: seq<string>, perType: nat) returns (rotation: seq<string>)
    ensures |rotation| == |types| * perType
    ensures forall x :: x in multiset(rotation) ==> x in types
    ensures forall t :: t in types ==> multiset(rotation)[t] >= perType
  {
    rotation := [];
    var i := 0;
    while i < |types|
      invariant 0 <= i <= |types|
      invariant |rotation| == i * perType
      invariant forall x :: x in multiset(rotation) ==> x in types
      invariant forall t :: t in types[..i] ==> multiset(rotation)[t] >= perType
    {
      BalancedStep(rotation, types, i, perType);
      rotation := rotation + Repeat(types[i], perType);
      assert (i + 1) * perType == i * perType + perType;
      i := i + 1;
    }
    assert types[..|types|] == types;
  }

  /** The remainder of the rotation: `count` more types drawn at random. */
  method Padded(types: seq<string>, rotation: seq<string>, count: nat) returns (r: seq<string>)
    requires types != []
    ensures |r| == |rotation| + count
    ensures multiset(rotation) <= multiset(r)
    ensures forall x :: x in multiset(r) ==> x in types || x in multiset(rotation)
  {
    r := rotation;
    var k := 0;
    while k < count
      invariant 0 <= k <= count
      invariant |r| == |rotation| + k
      invariant multiset(rotation) <= multiset(r)
      invariant forall x :: x in multiset(r) ==> x in types || x in multiset(rotation)
    {
      assert types[0] in types;
      var t :| t in types;
      r := r + [t];
      k := k + 1;
    }
  }

  /** `generate_post_type_rotation`: every type `numPosts / |types|` times,
      then the remainder drawn at random from the types, then shuffled.
      With no types the division raises, which is `None` here. */
  method Rotation(types: seq<string>, numPosts: nat) returns (r: Option<seq<string>>)
    ensures r.None? <==> types == []
    ensures r.Some? ==> |r.value| == numPosts
    ensures r.Some? ==> forall i :: 0 <= i < |r.value| ==> r.value[i] in types
    ensures r.Some? ==> forall t :: t in types ==> multiset(r.value)[t] >= numPosts / |types|
  {
    if types == [] {
      return None;
    }
    var balanced := Balanced(types, numPosts / |types|);
    var rotation := Padded(types, balanced, numPosts % |types|);
    RotationBeforeShuffle(types, numPosts, balanced, rotation);
    var a := new string[|rotation|](j requires 0 <= j < |rotation| => rotation[j]);
    assert a[..] == rotation;
    Shuffle(a);
    ShuffledRotation(a[..], rotation, types, numPosts / |types|);
    return Some(a[..]);
  }

  /** The balanced part and the random remainder together: `numPosts`
      entries, all of the types, each type at least `numPosts / |types|`
      times. */
  lemma RotationBeforeShuffle(types: seq<string>, numPosts: nat, balanced: seq<string>, rotation: seq<string>)
    requires types != []
    requires |balanced| == |types| * (numPosts / |types|)
    requires forall x :: x in multiset(balanced) ==> x in types
    requires forall t :: t in types ==> multiset(balanced)[t] >= numPosts / |types|
    requires |rotation| == |balanced| + numPosts % |types|
    requires multiset(balanced) <= multiset(rotation)
    requires forall x :: x in multiset(rotation) ==> x in types || x in multiset(balanced)
    ensures |rotation| == numPosts
    ensures forall x :: x in multiset(rotation) ==> x in types
    ensures forall t :: t in types ==> multiset(rotation)[t] >= numPosts / |types|
  {
    assert |types| * (numPosts / |types|) + numPosts % |types| == numPosts;
    forall t | t in types ensures multiset(rotation)[t] >= numPosts / |types| {
      assert multiset(rotation)[t] >= multiset(balanced)[t];
    }
  }

  /** A permutation of the rotation keeps its members and their counts. */
  lemma ShuffledRotation(s: seq<string>, rotation: seq<string>, types: seq<string>, perType: nat)
    requires multiset(s) == multiset(rotation)
    requires forall x :: x in multiset(rotation) ==> x in types
    requires forall t :: t in types ==> multiset(rotation)[t] >= perType
    ensures forall i :: 0 <= i < |s| ==> s[i] in types
    ensures forall t :: t in types ==> multiset(s)[t] >= perType
  {
    forall i | 0 <= i < |s| ensures s[i] in types {
      assert s[i] in multiset(s);
    }
  }

  // ---------------------------------------------------------------------
  // Posting days of a month

  /** The day names, Monday first: the options of the posting-day picker. */
  const WeekdayNames: seq<string> :=
    ["Monday", "Tuesday", "Wednesday", "Thursday", "Friday", "Saturday", "Sunday"]

  /** `day_mapping`: a day name's position in the week, Monday being 0 and
      Sunday 6; any other name has none. */
  function WeekdayNumber(name: string): (r: Option<nat>)
    ensures r.Some? ==> r.value < 7 && WeekdayNames[r.value] == name
    ensures r.None? <==> name !in WeekdayNames
  {
    if name == "Monday" then Some(0)
    else if name == "Tuesday" then Some(1)
    else if name == "Wednesday" then Some(2)
    else if name == "Thursday" then Some(3)
    else if name == "Friday" then Some(4)
    else if name == "Saturday" then Some(5)
    else if name == "Sunday" then Some(6)
    else None
  }

  /** The weekday numbers of the chosen posting days; a name that is not a
      day raises `KeyError`, which is `None` here. */
  function TargetWeekdays(names: seq<string>): (r: Option<seq<nat>>)
    ensures r.None? <==> exists i :: 0 <= i < |names| && WeekdayNumber(names[i]).None?
    ensures r.Some? ==> |r.value| == |names|
                        && forall i :: 0 <= i < |names| ==> Some(r.value[i]) == WeekdayNumber(names[i])
  {
    if names == [] then Some([])
    else
      match (WeekdayNumber(names[0]), TargetWeekdays(names[1..]))
      case (Some(d), Some(rest)) =>
        assert forall i :: 1 <= i < |names| ==> names[1..][i - 1] == names[i];
        Some([d] + rest)
      case (None, _) => None
      case (_, None) =>
        assert forall i :: 0 <= i < |names| - 1 ==> names[1..][i] == names[i + 1];
        None
  }

  /** A month as `calendar.monthcalendar` lays it out: its number of days
      and the weekday of its first day (Monday is 0). Week rows start on a
      Monday; the cells before day 1 and after the last day are empty. */
  datatype Month = Month(length: nat, first: nat)

  /** The day in the first cell of week row `w` (zero or less when that
      cell is empty). */
  function RowStart(m: Month, w: int): int {
    w * 7 - m.first + 1
  }

  /** The week row of day `d`. */
  function Row(m: Month, d: int): int {
    (d - 1 + m.first) / 7
  }

  /** Day `d` is in the month and falls on one of the target weekdays. */
  predicate Qualifies(m: Month, targets: seq<nat>, d: int) {
    1 <= d <= m.length && (d - 1 + m.first) % 7 in targets
  }

  /** The number of qualifying days in `[lo, hi)`. */
  function CountQualifying(m: Month, targets: seq<nat>, lo: int, hi: int): nat
    decreases hi - lo
  {
    if hi <= lo then 0
    else CountQualifying(m, targets, lo, hi - 1) + (if Qualifies(m, targets, hi - 1) then 1 else 0)
  }

  /** A day is chosen when it qualifies and fewer than `perWeek` qualifying
      days come before it in its week row. */
  predicate Chosen(m: Month, targets: seq<nat>, perWeek: nat, d: int) {
    Qualifies(m, targets, d) && CountQualifying(m, targets, RowStart(m, Row(m, d)), d) < perWeek
  }

  /** The chosen days among `1..n`, in increasing order. */
  function ChosenUpTo(m: Month, targets: seq<nat>, perWeek: nat, n: int): seq<int>
    decreases n
  {
    if n <= 0 then []
    else ChosenUpTo(m, targets, perWeek, n - 1) + (if Chosen(m, targets, perWeek, n) then [n] else [])
  }

  /** The number of chosen days in `[lo, hi)`. */
  function CountChosen(m: Month, targets: seq<nat>, perWeek: nat, lo: int, hi: int): nat
    decreases hi - lo
  {
    if hi <= lo then 0
    else CountChosen(m, targets, perWeek, lo, hi - 1) + (if Chosen(m, targets, perWeek, hi - 1) then 1 else 0)
  }

  function Min(a: nat, b: nat): nat {
    if a <= b then a else b
  }

  function Clamp(x: int, hi: nat): nat {
    if x < 0 then 0 else if x > hi then hi else x
  }

  /** The cell in slot `slot` of row `w` holds the day `RowStart(m, w) + slot`. */
  lemma CellOfRow(m: Month, w: nat, slot: nat)
    requires slot < 7 && m.first < 7 && RowStart(m, w) + slot >= 1
    ensures Row(m, RowStart(m, w) + slot) == w
    ensures (RowStart(m, w) + slot - 1 + m.first) % 7 == slot
  {
  }

  /** Day `d` of the month, lying in row `w`, sits in that row's slot
      `d - RowStart(m, w)`. */
  lemma CellOfDay(m: Month, w: nat, d: int)
    requires m.first < 7 && 1 <= d && RowStart(m, w) <= d < RowStart(m, w) + 7
    ensures Row(m, d) == w && (d - 1 + m.first) % 7 == d - RowStart(m, w)
  {
    CellOfRow(m, w, d - RowStart(m, w));
  }

  /** One cell of the posting loop: the day is taken exactly when it is a
      chosen day, and the row's count follows the qualifying days, capped. */
  lemma PostingStep(m: Month, targets: seq<nat>, perWeek: nat, w: nat, slot: nat, weekPosts: nat)
    requires m.first < 7 && slot < 7
    requires weekPosts == Min(perWeek, CountQualifying(m, targets, RowStart(m, w), RowStart(m, w) + slot))
    ensures var day := RowStart(m, w) + slot;
            var take := 1 <= day <= m.length && slot in targets && weekPosts < perWeek;
            && ChosenUpTo(m, targets, perWeek, Clamp(day, m.length))
               == ChosenUpTo(m, targets, perWeek, Clamp(day - 1, m.length)) + (if take then [day] else [])
            && Min(perWeek, CountQualifying(m, targets, RowStart(m, w), day + 1))
               == if take then weekPosts + 1 else weekPosts
  {
    var day := RowStart(m, w) + slot;
    if 1 <= day <= m.length {
      CellOfDay(m, w, day);
      assert Qualifies(m, targets, day) == (slot in targets);
      assert Chosen(m, targets, perWeek, day) == (slot in targets && weekPosts < perWeek);
    }
  }

  /** `get_posting_dates_for_month`: row by row, each day of the row that
      falls on a target weekday is taken while the row has fewer than
      `perWeek` days taken. */
  method PostingDays(m: Month, targets: seq<nat>, perWeek: nat) returns (r: seq<int>)
    requires m.first < 7
    ensures r == ChosenUpTo(m, targets, perWeek, m.length)
  {
    var weeks := (m.first + m.length + 6) / 7;
    r := [];
    var w := 0;
    while w < weeks
      invariant 0 <= w <= weeks
      invariant r == ChosenUpTo(m, targets, perWeek, Clamp(w * 7 - m.first, m.length))
    {
      r := PostingWeek(m, targets, perWeek, w, r);
      w := w + 1;
    }
  }

  /** One row of `get_posting_dates_for_month`'s loop, appending to the days
      taken so far. */
  method PostingWeek(m: Month, targets: seq<nat>, perWeek: nat, w: nat, before: seq<int>) returns (r: seq<int>)
    requires m.first < 7
    requires before == ChosenUpTo(m, targets, perWeek, Clamp(w * 7 - m.first, m.length))
    ensures r == ChosenUpTo(m, targets, perWeek, Clamp((w + 1) * 7 - m.first, m.length))
  {
    r := before;
    var start := RowStart(m, w);
    var weekPosts := 0;
    var slot := 0;
    while slot < 7
      invariant 0 <= slot <= 7
      invariant r == ChosenUpTo(m, targets, perWeek, Clamp(start + slot - 1, m.length))
      invariant weekPosts == Min(perWeek, CountQualifying(m, targets, start, start + slot))
    {
      var day := start + slot;
      PostingStep(m, targets, perWeek, w, slot, weekPosts);
      if 1 <= day <= m.length {
        if slot in targets && weekPosts < perWeek {
          r := r + [day];
          weekPosts := weekPosts + 1;
        }
      }
      slot := slot + 1;
    }
  }

  /** The chosen days up to `n` are exactly the chosen days in `1..n`. */
  lemma {:induction false} ChosenMembers(m: Month, targets: seq<nat>, perWeek: nat, n: int)
    ensures forall d :: d in ChosenUpTo(m, targets, perWeek, n) <==> 1 <= d <= n && Chosen(m, targets, perWeek, d)
  {
    if n > 0 {
      ChosenMembers(m, targets, perWeek, n - 1);
    }
  }

  predicate Increasing(s: seq<int>) {
    forall i, j :: 0 <= i < j < |s| ==> s[i] < s[j]
  }

  /** The chosen days come in strictly increasing order. */
  lemma {:induction false} ChosenIncreasing(m: Month, targets: seq<nat>, perWeek: nat, n: int)
    ensures Increasing(ChosenUpTo(m, targets, perWeek, n))
  {
    if n > 0 {
      ChosenIncreasing(m, targets, perWeek, n - 1);
      ChosenMembers(m, targets, perWeek, n - 1);
      var p := ChosenUpTo(m, targets, perWeek, n - 1);
      forall i | 0 <= i < |p|
        ensures p[i] < n
      {
        assert p[i] in p;
      }
      var r := ChosenUpTo(m, targets, perWeek, n);
      assert r == p + (if Chosen(m, targets, perWeek, n) then [n] else []);
      forall i, j | 0 <= i < j < |r|
        ensures r[i] < r[j]
      {
        if j < |p| {
          assert r[i] == p[i] && r[j] == p[j];
        } else {
          assert r[i] == p[i] && r[j] == n;
        }
      }
    }
  }

  /** Within a week row, the days chosen so far are the qualifying days so
      far, capped at `perWeek`. */
  lemma {:induction false} RowCap(m: Month, targets: seq<nat>, perWeek: nat, w: nat, x: int)
    requires m.first < 7
    requires RowStart(m, w) <= x <= RowStart(m, w) + 7
    ensures CountChosen(m, targets, perWeek, RowStart(m, w), x)
         == Min(perWeek, CountQualifying(m, targets, RowStart(m, w), x))
    decreases x - RowStart(m, w)
  {
    var start := RowStart(m, w);
    if x > start {
      RowCap(m, targets, perWeek, w, x - 1);
      var before := CountQualifying(m, targets, start, x - 1);
      if x - 1 >= 1 {
        CellOfDay(m, w, x - 1);
        assert Chosen(m, targets, perWeek, x - 1)
            == (Qualifies(m, targets, x - 1) && before < perWeek);
      }
    }
  }

  /** No week row gets more than `perWeek` posting days. */
  lemma AtMostPerWeek(m: Month, targets: seq<nat>, perWeek: nat, w: nat)
    requires m.first < 7
    ensures CountChosen(m, targets, perWeek, RowStart(m, w), RowStart(m, w) + 7) <= perWeek
  {
    RowCap(m, targets, perWeek, w, RowStart(m, w) + 7);
  }

  /** A day on a target weekday is passed over only when its week row
      already has `perWeek` posting days before it. */
  lemma SkippedOnlyWhenFull(m: Month, targets: seq<nat>, perWeek: nat, d: int)
    requires m.first < 7
    requires Qualifies(m, targets, d) && !Chosen(m, targets, perWeek, d)
    ensures CountChosen(m, targets, perWeek, RowStart(m, Row(m, d)), d) == perWeek
  {
    var w := Row(m, d);
    CellOfDay(m, w, d);
    RowCap(m, targets, perWeek, w, d);
  }

  // ---------------------------------------------------------------------
  // Date keys

  /** `f"{year}-{month:02d}"`, the prefix of a month's cache keys. */
  function MonthPrefix(year: nat, month: nat): string {
    NatStr(year) + "-" + Pad2(month)
  }

  /** `f"{year}-{month:02d}-{day:02d}"`, the cache key of a date. */
  function DateKey(year: nat, month: nat, day: nat): string {
    MonthPrefix(year, month) + "-" + Pad2(day)
  }

  /** A date key starts with a month prefix exactly when it is a date of
      that month. */
  lemma DateKeyInMonth(y: nat, m: nat, d: nat, y2: nat, m2: nat)
    requires m < 100 && m2 < 100
    ensures StartsWith(DateKey(y, m, d), MonthPrefix(y2, m2)) <==> y == y2 && m == m2
  {
    if StartsWith(DateKey(y, m, d), MonthPrefix(y2, m2)) {
      SameMonthPrefix(y, m, d, y2, m2);
    }
    if y == y2 && m == m2 {
      assert DateKey(y, m, d)[..|MonthPrefix(y, m)|] == MonthPrefix(y, m);
    }
  }

  /** A date key that starts with a month prefix has that prefix's year
      and month. */
  lemma SameMonthPrefix(y: nat, m: nat, d: nat, y2: nat, m2: nat)
    requires m < 100 && m2 < 100
    requires StartsWith(DateKey(y, m, d), MonthPrefix(y2, m2))
    ensures y == y2 && m == m2
  {
    assert DateKey(y, m, d) == NatStr(y) + "-" + Pad2(m) + ("-" + Pad2(d));
    DashPairPrefix(NatStr(y), Pad2(m), "-" + Pad2(d), NatStr(y2), Pad2(m2));
    NatStrInjective(y, y2);
    Pad2Injective(m, m2);
  }

  /** `int(date_key.split('-')[2])`: the day of a date key, or `None` when
      the key has fewer than three parts or its third part is not a number. */
  function DayOfKey(key: string): Option<nat> {
    var parts := Split(key, '-');
    if |parts| < 3 then None else ParseNat(parts[2])
  }

  /** The day of a date key is read back from it. */
  lemma DayOfDateKey(y: nat, m: nat, d: nat)
    ensures DayOfKey(DateKey(y, m, d)) == Some(d)
  {
    DigitsHaveNoChar(NatStr(y), '-');
    DigitsHaveNoChar(Pad2(m), '-');
    DigitsHaveNoChar(Pad2(d), '-');
    assert DateKey(y, m, d) == NatStr(y) + ['-'] + (Pad2(m) + ['-'] + Pad2(d));
    SplitJoin(NatStr(y), '-', Pad2(m) + ['-'] + Pad2(d));
    SplitJoin(Pad2(m), '-', Pad2(d));
    SplitNoSep(Pad2(d), '-');
    ParsePad2(d);
  }

  /** The cache without the keys of one month. */
  function WithoutMonth(cache: map<string, string>, year: nat, month: nat): (r: map<string, string>)
    ensures forall k :: k in r <==> k in cache && !StartsWith(k, MonthPrefix(year, month))
    ensures forall k :: k in r ==> r[k] == cache[k]
  {
    map k | k in cache && !StartsWith(k, MonthPrefix(year, month)) :: cache[k]
  }

  /** Clearing a month drops that month's dates and keeps every date of
      every other month with its content. */
  lemma ClearingDropsOnlyTheMonth(cache: map<string, string>, year: nat, month: nat, y: nat, m: nat, d: nat)
    requires month < 100 && m < 100 && DateKey(y, m, d) in cache
    ensures DateKey(y, m, d) in WithoutMonth(cache, year, month) <==> !(y == year && m == month)
    ensures DateKey(y, m, d) in WithoutMonth(cache, year, month) ==>
              WithoutMonth(cache, year, month)[DateKey(y, m, d)] == cache[DateKey(y, m, d)]
  {
    DateKeyInMonth(y, m, d, year, month);
  }

  // ---------------------------------------------------------------------
  // The calendar page's session state

  function IntBefore(a: int, b: int): bool {
    a <= b
  }

  /** `sorted(posting_dates)` */
  function SortedDays(days: seq<int>): (r: seq<int>)
    ensures multiset(r) == multiset(days) && |r| == |days|
    ensures forall i, j :: 0 <= i < j < |r| ==> r[i] <= r[j]
  {
    SortSorted(days, IntBefore);
    assert |multiset(Sort(days, IntBefore))| == |multiset(days)|;
    Sort(days, IntBefore)
  }

  /** `list.index`: the first position of `x`, if any. */
  function IndexIn(s: seq<int>, x: int): (r: Option<nat>)
    ensures r.None? <==> x !in s
    ensures r.Some? ==> r.value < |s| && s[r.value] == x && x !in s[..r.value]
  {
    if s == [] then None
    else if s[0] == x then Some(0)
    else
      match IndexIn(s[1..], x)
      case None => None
      case Some(k) =>
        assert s[1..][..k] == s[1..k + 1];
        Some(k + 1)
  }

  /** The rotation slot of a date: the position of its day among the
      sorted posting days, if the key names a day and that day posts. */
  function SlotOf(dateKey: string, postingDays: seq<int>): (r: Option<nat>)
    ensures r.Some? ==> r.value < |postingDays|
  {
    match DayOfKey(dateKey)
    case None => None
    case Some(day) => IndexIn(SortedDays(postingDays), day)
  }

  /** The rotation of post types and the generated content, keyed by date,
      that the calendar page keeps between reruns. */
  class CalendarSession {
    var rotation: seq<string>
    var contentCache: map<string, string>

    constructor()
      ensures rotation == [] && contentCache == map[]
    {
      rotation := [];
      contentCache := map[];
    }

    /** `get_post_type_for_date`: the rotation is regenerated when it is
        empty or its length differs from the number of posting days (an
        empty list of types makes that raise); a posting day gets its slot
        of the rotation, any other date a random type. */
    method PostTypeForDate(dateKey: string, postingDays: seq<int>, preferred: Option<seq<string>>)
      returns (r: Option<string>)
      modifies this
      ensures contentCache == old(contentCache)
      ensures var regenerate := old(rotation) == [] || |old(rotation)| != |postingDays|;
              && (r.None? <==> regenerate && ChosenTypes(preferred) == [])
              && (!regenerate || r.None? ==> rotation == old(rotation))
              && (regenerate && r.Some? ==>
                    |rotation| == |postingDays|
                    && forall i :: 0 <= i < |rotation| ==> rotation[i] in ChosenTypes(preferred))
      ensures r.Some? ==> |rotation| == |postingDays|
      ensures r.Some? && SlotOf(dateKey, postingDays).Some? ==> r.value == rotation[SlotOf(dateKey, postingDays).value]
      ensures r.Some? && SlotOf(dateKey, postingDays).None? ==> r.value in FallbackPostTypes
    {
      var sorted := SortedDays(postingDays);
      if rotation == [] || |rotation| != |sorted| {
        var generated := Rotation(ChosenTypes(preferred), |sorted|);
        if generated.None? {
          return None;
        }
        rotation := generated.value;
      }
      var slot := SlotOf(dateKey, postingDays);
      if slot.Some? {
        return Some(rotation[slot.value]);
      }
      assert FallbackPostTypes[0] in FallbackPostTypes;
      var t :| t in FallbackPostTypes;
      return Some(t);
    }

    /** "Apply New Type": the slot of a posting day takes the new type (for
        any other date, or a slot past the rotation's end, the rotation stays
        as it was); then the content generated for the new type, which
        enters as `newContent`, is cached under the date. A key without a
        day number raises before anything changes, since its parse sits
        outside the `try`. */
    method ApplyNewType(dateKey: string, postingDays: seq<int>, newType: string, newContent: string)
      modifies this
      ensures DayOfKey(dateKey).None? ==> contentCache == old(contentCache) && rotation == old(rotation)
      ensures DayOfKey(dateKey).Some? ==> contentCache == old(contentCache)[dateKey := newContent]
      ensures DayOfKey(dateKey).Some? ==>
                var slot := SlotOf(dateKey, postingDays);
                rotation == if slot.Some? && slot.value < |old(rotation)|
                            then old(rotation)[slot.value := newType]
                            else old(rotation)
    {
      if DayOfKey(dateKey).None? {
        return;
      }
      var slot := SlotOf(dateKey, postingDays);
      if slot.Some? && slot.value < |rotation| {
        rotation := rotation[slot.value := newType];
      }
      contentCache := contentCache[dateKey := newContent];
    }

    /** "Regenerate All Content": the keys of the month are collected and
        deleted one by one. */
    method ClearMonth(year: nat, month: nat)
      modifies this
      ensures contentCache == WithoutMonth(old(contentCache), year, month)
      ensures rotation == old(rotation)
    {
      var prefix := MonthPrefix(year, month);
      var toRemove := set k | k in contentCache && StartsWith(k, prefix);
      while toRemove != {}
        invariant toRemove <= old(contentCache).Keys
        invariant forall k :: k in toRemove ==> StartsWith(k, prefix)
        invariant rotation == old(rotation)
        invariant forall k :: k in contentCache <==>
                    k in old(contentCache) && (!StartsWith(k, prefix) || k in toRemove)
        invariant forall k :: k in contentCache ==> contentCache[k] == old(contentCache)[k]
        decreases |toRemove|
      {
        var k :| k in toRemove;
        contentCache := contentCache - {k};
        toRemove := toRemove - {k};
      }
    }

    /** "Regenerate Distribution": the rotation is emptied and the month's
        keys are deleted; with a stored profile a new rotation over the
        posting days is generated, which raises (`ok` false, the rotation
        left empty) when the profile's types are an empty list. */
    method RegenerateDistribution(year: nat, month: nat, hasProfile: bool, postingDays: seq<int>,
                                  preferred: Option<seq<string>>) returns (ok: bool)
      modifies this
      ensures contentCache == WithoutMonth(old(contentCache), year, month)
      ensures ok <==> !hasProfile || ChosenTypes(preferred) != []
      ensures !ok || !hasProfile ==> rotation == []
      ensures ok && hasProfile ==>
                |rotation| == |postingDays|
                && (forall i :: 0 <= i < |rotation| ==> rotation[i] in ChosenTypes(preferred))
                && forall t :: t in ChosenTypes(preferred) ==>
                     multiset(rotation)[t] >= |postingDays| / |ChosenTypes(preferred)|
    {
      rotation := [];
      ClearMonth(year, month);
      if hasProfile {
        var generated := Rotation(ChosenTypes(preferred), |postingDays|);
        if generated.None? {
          return false;
        }
        rotation := generated.value;
      }
      return true;
    }
  }
}
