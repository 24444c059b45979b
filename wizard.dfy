/** The onboarding wizard of the Streamlit app: the list of custom reference
    creators, the initials shown on a creator card, moving between steps and
    the checks that let the user leave each step.

    Streamlit's session state is the `Onboarding` record (read by the
    validators) and the two small classes (changed by the buttons). */
module Wizard {
  import opened Wrappers
  import opened Text
  import opened VectorStore
  import Calendar

  // ---------------------------------------------------------------------
  // Custom creators

  /** The preference lists picked for one creator. */
  datatype Prefs = Prefs(tone: seq<string>, contentType: seq<string>, style: seq<string>)

  const NoPrefs := Prefs([], [], [])

  /** One entry of the custom creators list. */
  datatype Creator = Creator(
    name: string,
    url: string,
    category: string,
    description: string,
    preferences: Prefs,
    addedAt: string,
    scraped: bool,
    postsCount: nat)

  /** What pressing "Add Creator" did. */
  datatype AddOutcome = Added | MissingField | NotProfileUrl | Duplicate

  /** The text a profile URL must contain. */
  const ProfileMarker := "linkedin.com/in/"

  lemma MarkerHasNoSpace()
    ensures ProfileMarker != [] && HasNoSpace(ProfileMarker)
  {
  }

  function Urls(creators: seq<Creator>): (r: seq<string>)
    ensures |r| == |creators| && forall i :: 0 <= i < |r| ==> r[i] == creators[i].url
  {
    seq(|creators|, i requires 0 <= i < |creators| => creators[i].url)
  }

  /** The outcome of the form: both fields must be non-blank, the URL as
      typed must contain the profile marker, and its stripped form must not
      be in the list yet. An accepted URL keeps the marker once stripped. */
  function AddOutcomeOf(creators: seq<Creator>, name: string, url: string): (r: AddOutcome)
    ensures r == MissingField <==> AllSpace(name) || AllSpace(url)
    ensures r == NotProfileUrl <==> !AllSpace(name) && !AllSpace(url) && !Contains(url, ProfileMarker)
    ensures r == Duplicate <==>
              !AllSpace(name) && !AllSpace(url) && Contains(url, ProfileMarker) && Strip(url) in Urls(creators)
    ensures r == Added <==>
              !AllSpace(name) && !AllSpace(url) && Contains(url, ProfileMarker) && Strip(url) !in Urls(creators)
    ensures r == Added ==> Strip(name) != [] && Contains(Strip(url), ProfileMarker)
  {
    StripEmptyIff(name);
    StripEmptyIff(url);
    if Strip(name) == [] || Strip(url) == [] then MissingField
    else if !Contains(url, ProfileMarker) then NotProfileUrl
    else
      MarkerHasNoSpace();
      ContainsStrip(url, ProfileMarker);
      if Strip(url) in Urls(creators) then Duplicate else Added
  }

  /** The entry the form builds: name, URL and description stripped, not
      scraped yet, no posts. */
  function NewCreator(name: string, url: string, category: string, description: string,
                      preferences: Prefs, addedAt: string): Creator
  {
    Creator(Strip(name), Strip(url), category, Strip(description), preferences, addedAt, false, 0)
  }

  /** Every entry has a name and a profile URL, and no URL is listed twice. */
  ghost predicate CreatorsOk(creators: seq<Creator>) {
    NoDup(Urls(creators))
    && forall i :: 0 <= i < |creators| ==> creators[i].name != [] && Contains(creators[i].url, ProfileMarker)
  }

  /** An entry with a name, a profile URL and a URL not listed yet keeps the
      list well formed. */
  lemma AppendKeepsOk(creators: seq<Creator>, entry: Creator)
    requires CreatorsOk(creators) && entry.url !in Urls(creators)
    requires entry.name != [] && Contains(entry.url, ProfileMarker)
    ensures CreatorsOk(creators + [entry])
  {
    assert Urls(creators + [entry]) == Urls(creators) + [entry.url];
  }

  /** `st.session_state.custom_creators_list` */
  class CustomCreators {
    var creators: seq<Creator>

    ghost predicate Valid()
      reads this
    {
      CreatorsOk(creators)
    }

    constructor()
      ensures creators == [] && Valid()
    {
      creators := [];
    }

    /** The "Add Creator" form; `addedAt` is the clock's reading. */
    method Add(name: string, url: string, category: string, description: string,
               preferences: Prefs, addedAt: string) returns (outcome: AddOutcome)
      requires Valid()
      modifies this
      ensures Valid()
      ensures outcome == AddOutcomeOf(old(creators), name, url)
      ensures creators == if outcome == Added
                          then old(creators) + [NewCreator(name, url, category, description, preferences, addedAt)]
                          else old(creators)
    {
      outcome := AddOutcomeOf(creators, name, url);
      if outcome == Added {
        var entry := NewCreator(name, url, category, description, preferences, addedAt);
        AppendKeepsOk(creators, entry);
        creators := creators + [entry];
      }
    }
  }

  // ---------------------------------------------------------------------
  // Creator initials

  /** `get_creator_initials`: the first letters of the first two words, or
      the first two letters of a single word, upper-cased; "??" for a blank
      name. */
  function Initials(name: string): (r: string)
    ensures var w := Words(name);
            && (w == [] ==> r == "??")
            && (|w| >= 2 ==> r == [UpperChar(w[0][0]), UpperChar(w[1][0])])
            && (|w| == 1 && |w[0]| >= 2 ==> r == [UpperChar(w[0][0]), UpperChar(w[0][1])])
            && (|w| == 1 && |w[0]| == 1 ==> r == [UpperChar(w[0][0])])
            && (w != [] ==> HasNoSpace(r))
  {
    var words := Words(name);
    if |words| >= 2 then [UpperChar(words[0][0]), UpperChar(words[1][0])]
    else if |words| == 1 && |words[0]| >= 2 then [UpperChar(words[0][0]), UpperChar(words[0][1])]
    else if |words| == 1 then [UpperChar(words[0][0])]
    else "??"
  }

  /** A blank name gets "??"; any other name's initials start with its first
      non-blank character, upper-cased. */
  lemma InitialsOfName(name: string)
    ensures AllSpace(name) ==> Initials(name) == "??"
    ensures !AllSpace(name) ==>
              exists k :: 0 <= k < |name| && AllSpace(name[..k]) && Initials(name)[0] == UpperChar(name[k])
  {
    WordsHead(name);
  }

  // ---------------------------------------------------------------------
  // Moving between steps

  /** `st.session_state.current_step`, which starts at 1. */
  class StepCounter {
    var currentStep: int

    ghost predicate Valid()
      reads this
    {
      currentStep >= 1
    }

    constructor()
      ensures currentStep == 1 && Valid()
    {
      currentStep := 1;
    }

    /** `next_step` */
    method NextStep()
      requires Valid()
      modifies this
      ensures Valid() && currentStep == old(currentStep) + 1
    {
      currentStep := currentStep + 1;
    }

    /** `prev_step`: never goes below the first step. */
    method PrevStep()
      requires Valid()
      modifies this
      ensures Valid()
      ensures currentStep == if old(currentStep) > 1 then old(currentStep) - 1 else 1
    {
      if currentStep > 1 {
        currentStep := currentStep - 1;
      }
    }
  }

  // ---------------------------------------------------------------------
  // Step validation

  /** The answers the validators read. `isCompany` and
      `preferredPostTypes` may be missing from the session. */
  datatype Onboarding = Onboarding(
    name: string,
    role: string,
    linkedinGoal: string,
    activeOnLinkedin: Option<bool>,
    isCompany: Option<bool>,
    linkedinUrl: string,
    currentStyle: seq<string>,
    differentiationGoals: seq<string>,
    topicsOfInterest: seq<string>,
    referenceCreators: seq<string>,
    customCreators: seq<string>,
    creatorLikes: string,
    creatorPreferences: map<string, Prefs>,
    preferredContentTypes: seq<string>,
    preferredTone: seq<string>,
    postingDays: seq<string>,
    preferredPostTypes: Option<seq<string>>)

  /** Some preference was picked for the creator at `url`. */
  predicate PrefsPicked(o: Onboarding, url: string) {
    var p := if url in o.creatorPreferences then o.creatorPreferences[url] else NoPrefs;
    p.tone != [] || p.contentType != [] || p.style != []
  }

  /** `validate_step_1`: name, role and goal are not blank and both yes/no
      questions are answered. */
  function Step1(o: Onboarding): (r: bool)
    ensures r <==> !AllSpace(o.name) && !AllSpace(o.role) && !AllSpace(o.linkedinGoal)
                   && o.activeOnLinkedin.Some? && o.isCompany.Some?
  {
    StripEmptyIff(o.name);
    StripEmptyIff(o.role);
    StripEmptyIff(o.linkedinGoal);
    Strip(o.name) != [] && Strip(o.role) != [] && Strip(o.linkedinGoal) != []
    && o.activeOnLinkedin.Some? && o.isCompany.Some?
  }

  /** The loop shared by steps 2A and 2B: the first reference creator with
      some preference picked ends the search. */
  method HasPreferences(o: Onboarding) returns (r: bool)
    ensures r <==> exists i :: 0 <= i < |o.referenceCreators| && PrefsPicked(o, o.referenceCreators[i])
  {
    r := false;
    var i := 0;
    while i < |o.referenceCreators|
      invariant 0 <= i <= |o.referenceCreators|
      invariant !r
      invariant forall j :: 0 <= j < i ==> !PrefsPicked(o, o.referenceCreators[j])
    {
      if PrefsPicked(o, o.referenceCreators[i]) {
        r := true;
        break;
      }
      i := i + 1;
    }
  }

  /** `validate_step_2a` (users active on LinkedIn). */
  method Step2a(o: Onboarding) returns (r: bool)
    ensures r <==> !AllSpace(o.linkedinUrl) && o.currentStyle != [] && o.differentiationGoals != []
                   && o.topicsOfInterest != [] && o.referenceCreators != [] && !AllSpace(o.creatorLikes)
                   && exists i :: 0 <= i < |o.referenceCreators| && PrefsPicked(o, o.referenceCreators[i])
  {
    StripEmptyIff(o.linkedinUrl);
    StripEmptyIff(o.creatorLikes);
    var basic := Strip(o.linkedinUrl) != [] && |o.currentStyle| > 0
                 && |o.differentiationGoals| > 0 && |o.topicsOfInterest| > 0;
    var hasCreators := |o.referenceCreators| > 0;
    var hasLikes := Strip(o.creatorLikes) != [];
    var hasPreferences := HasPreferences(o);
    r := basic && hasCreators && hasLikes && hasPreferences;
  }

  /** `validate_step_2b` (users not active on LinkedIn). Custom creators
      count towards "has creators", but preferences are only looked up for
      reference creators, so the step never passes without one. */
  method Step2b(o: Onboarding) returns (r: bool)
    ensures r <==> (o.referenceCreators != [] || o.customCreators != []) && !AllSpace(o.creatorLikes)
                   && exists i :: 0 <= i < |o.referenceCreators| && PrefsPicked(o, o.referenceCreators[i])
    ensures r ==> o.referenceCreators != []
  {
    StripEmptyIff(o.creatorLikes);
    var hasCreators := |o.referenceCreators| > 0 || |o.customCreators| > 0;
    var hasLikes := Strip(o.creatorLikes) != [];
    var hasPreferences := HasPreferences(o);
    r := hasCreators && hasLikes && hasPreferences;
  }

  /** `validate_step_3`: content types, tone, posting days and post types
      all chosen; missing post types count as none. */
  function Step3(o: Onboarding): (r: bool)
    ensures r <==> o.preferredContentTypes != [] && o.preferredTone != [] && o.postingDays != []
                   && o.preferredPostTypes.Some? && o.preferredPostTypes.value != []
  {
    |o.preferredContentTypes| > 0 && |o.preferredTone| > 0 && |o.postingDays| > 0
    && |o.preferredPostTypes.GetOr([])| > 0
  }

  /** The post types `generate_user_persona` stores: the ones picked, or
      four defaults when none were picked. */
  function SavedPostTypes(o: Onboarding): seq<string> {
    o.preferredPostTypes.GetOr(["Storytelling", "Personal Experience", "Industry Insights", "How-to/Educational"])
  }

  /** A wizard that passes step 3 leaves the calendar something to plan
      with: the stored post types are not empty, so the rotation's division
      cannot raise, and the posting days (picked among the seven day names)
      all have weekday numbers, at least one of them. */
  lemma Step3Plan(o: Onboarding)
    requires Step3(o)
    requires forall i :: 0 <= i < |o.postingDays| ==> o.postingDays[i] in Calendar.WeekdayNames
    ensures Calendar.ChosenTypes(Some(SavedPostTypes(o))) != []
    ensures Calendar.TargetWeekdays(o.postingDays).Some? && Calendar.TargetWeekdays(o.postingDays).value != []
  {
    Calendar.ChosenTypesMix(Some(SavedPostTypes(o)));
  }
}
