/** The LinkedIn scraper: the URLs it opens, how it recognises the profile a
    URL names and a redirect away from the profile's posts, which posts on a
    page it keeps, how it accumulates posts while scrolling and the rows it
    stores in the vector collection.

    The browser is not modelled: what the page shows at each moment (the
    post containers and the texts of their elements, the current URL's
    verdict, the embeddings) enters as data. */
module Scraper {
  import opened Wrappers
  import opened Text
  import opened VectorStore

  // ---------------------------------------------------------------------
  // URLs

  const ActivityMarker := "recent-activity/all"
  const ActivitySuffix := "recent-activity/all/"
  const PostsFeedSuffix := "/posts/?feedView=all"

  /** The page `navigate_to_profile` opens: a URL already on the activity
      page is kept; any other gets a slash (unless it ends with one) and the
      activity path. */
  function ActivityUrl(url: string): (r: string)
    ensures Contains(r, ActivityMarker)
    ensures Contains(url, ActivityMarker) ==> r == url
    ensures !Contains(url, ActivityMarker) ==>
              StartsWith(r, url) && EndsWith(r, "/" + ActivitySuffix)
              && |url| + |ActivitySuffix| <= |r| <= |url| + 1 + |ActivitySuffix|
    ensures !Contains(url, ActivityMarker) && EndsWith(url, "/") ==> r == url + ActivitySuffix
    ensures !Contains(url, ActivityMarker) && !EndsWith(url, "/") ==> r == url + "/" + ActivitySuffix
  {
    if Contains(url, ActivityMarker) then url
    else
      var base := if EndsWith(url, "/") then url else url + "/";
      ActivityPathAppended(base);
      assert base[..|url|] == url;
      base + ActivitySuffix
  }

  lemma SuffixOpensWithMarker()
    ensures ActivitySuffix[..|ActivityMarker|] == ActivityMarker
  {
  }

  /** The activity path appended after a slash: the result holds the
      activity marker and ends with the slash and the path. */
  lemma ActivityPathAppended(base: string)
    requires EndsWith(base, "/")
    ensures Contains(base + ActivitySuffix, ActivityMarker)
    ensures EndsWith(base + ActivitySuffix, "/" + ActivitySuffix)
    ensures (base + ActivitySuffix)[..|base|] == base
  {
    var r := base + ActivitySuffix;
    assert r[|base|..] == ActivitySuffix;
    SuffixOpensWithMarker();
    assert StartsWith(r[|base|..], ActivityMarker);
    assert base[|base| - 1..] == "/";
    assert r[|r| - |ActivitySuffix| - 1..] == base[|base| - 1..] + ActivitySuffix;
  }

  /** The page tried when the activity page did not load: the activity path
      removed, trailing slashes dropped, the posts feed path added. */
  function FallbackUrl(url: string): (r: string)
    ensures EndsWith(r, PostsFeedSuffix)
  {
    var r := RStripChar(RemoveAll(url, ActivitySuffix), '/') + PostsFeedSuffix;
    assert r[|r| - |PostsFeedSuffix|..] == PostsFeedSuffix;
    r
  }

  lemma SuffixHasOneR()
    ensures ActivitySuffix[0] == 'r'
    ensures forall k :: 1 <= k < |ActivitySuffix| ==> ActivitySuffix[k] != 'r'
  {
  }

  /** No occurrence of the activity path starts inside a URL without the
      activity marker, extended by at most one slash, when the path follows. */
  lemma NoEarlyActivityPath(url: string, base: string)
    requires !Contains(url, ActivityMarker)
    requires base == url || base == url + "/"
    ensures forall i :: 0 <= i < |base| ==> !StartsWith((base + ActivitySuffix)[i..], ActivitySuffix)
  {
    var s := base + ActivitySuffix;
    SuffixHasOneR();
    forall i | 0 <= i < |base|
      ensures !StartsWith(s[i..], ActivitySuffix)
    {
      if i + |ActivityMarker| <= |url| {
        assert !StartsWith(url[i..], ActivityMarker);
        var k :| 0 <= k < |ActivityMarker| && url[i..][..|ActivityMarker|][k] != ActivityMarker[k];
        assert s[i..][k] == url[i + k];
        assert ActivitySuffix[k] == ActivityMarker[k];
      } else {
        var k := |base| - i;
        assert s[i..][k] == 'r';
      }
    }
  }

  /** Falling back from the activity page of a URL that did not name it
      lands on that URL's posts feed. */
  lemma FallbackOfActivityUrl(url: string)
    requires !Contains(url, ActivityMarker)
    ensures FallbackUrl(ActivityUrl(url)) == RStripChar(url, '/') + PostsFeedSuffix
  {
    var base := if EndsWith(url, "/") then url else url + "/";
    NoEarlyActivityPath(url, base);
    RemoveAllTail(base, ActivitySuffix);
    if base != url {
      assert base[..|base| - 1] == url;
    } else {
      assert url[..|url| - 1] + "/" == url;
    }
  }

  // ---------------------------------------------------------------------
  // Profile identifiers and redirects

  const ProfilePath := "/in/"
  const CompanyPath := "/company/"

  /** `extract_profile_id`: the path segment after the first "/in/", or
      else after the first "/company/"; `None` when there is neither. */
  function ProfileId(url: string): (r: Option<string>)
    ensures r.Some? ==> '/' !in r.value
  {
    match IndexOf(url, ProfilePath)
    case Some(i) => Some(TakeUntil(url[i + |ProfilePath|..], '/'))
    case None =>
      match IndexOf(url, CompanyPath)
      case Some(i) => Some(TakeUntil(url[i + |CompanyPath|..], '/'))
      case None => None
  }

  /** A URL names a profile exactly when it has one of the two paths. */
  lemma ProfileIdNone(url: string)
    ensures ProfileId(url).None? <==> !Contains(url, ProfilePath) && !Contains(url, CompanyPath)
  {
    IndexOfFirst(url, ProfilePath);
    IndexOfFirst(url, CompanyPath);
  }

  lemma ProfileIdAt(url: string, i: nat)
    requires IndexOf(url, ProfilePath) == Some(i)
    ensures ProfileId(url) == Some(TakeUntil(url[i + |ProfilePath|..], '/'))
  {
  }

  /** The segment up to the next slash is unchanged by appended text when
      a slash closes it already or the text opens with one. */
  lemma SegmentAppend(x: string, tail: string)
    requires '/' in x || (tail != [] && tail[0] == '/')
    ensures TakeUntil(x + tail, '/') == TakeUntil(x, '/')
  {
    if '/' in x {
      TakeUntilAppend(x, '/', tail);
    } else {
      TakeUntilAtSep(x, '/', tail);
      TakeUntilWhole(x, '/');
    }
  }

  /** Text appended after a profile URL keeps the profile it names when
      the profile's segment is already closed by a slash or the text opens
      with one. */
  lemma ProfileIdAppend(url: string, tail: string, i: nat)
    requires IndexOf(url, ProfilePath) == Some(i)
    requires '/' in url[i + |ProfilePath|..] || (tail != [] && tail[0] == '/')
    ensures ProfileId(url + tail) == ProfileId(url)
  {
    var u := url + tail;
    var x := url[i + |ProfilePath|..];
    assert IndexOf(u, ProfilePath) == Some(i) by {
      IndexOfAppend(url, tail, ProfilePath);
    }
    assert u[i + |ProfilePath|..] == x + tail;
    assert TakeUntil(x + tail, '/') == TakeUntil(x, '/') by {
      SegmentAppend(x, tail);
    }
    ProfileIdAt(url, i);
    ProfileIdAt(u, i);
  }

  /** Opening the activity page of a profile URL keeps the profile it
      names. */
  lemma ProfileIdOfActivityUrl(url: string)
    requires Contains(url, ProfilePath)
    requires ProfileId(url).Some? && ProfileId(url).value != []
    ensures ProfileId(ActivityUrl(url)) == ProfileId(url)
  {
    if !Contains(url, ActivityMarker) {
      var i: nat := IndexOfSome(url, ProfilePath);
      var tail := ActivityTail(url);
      if EndsWith(url, "/") {
        var x := url[i + |ProfilePath|..];
        assert x != [] by {
          ProfileIdAt(url, i);
        }
        assert x[|x| - 1] == url[|url| - 1] == '/';
      }
      ProfileIdAppend(url, tail, i);
    }
  }

  /** A pattern that occurs is found. */
  lemma IndexOfSome(s: string, p: string) returns (i: nat)
    requires Contains(s, p)
    ensures IndexOf(s, p) == Some(i)
  {
    IndexOfFirst(s, p);
    i := IndexOf(s, p).value;
  }

  /** The activity page of a URL not on it extends the URL with the
      activity path, opened by a slash unless the URL ends with one. */
  lemma ActivityTail(url: string) returns (tail: string)
    requires !Contains(url, ActivityMarker)
    ensures ActivityUrl(url) == url + tail
    ensures EndsWith(url, "/") || (tail != [] && tail[0] == '/')
  {
    if EndsWith(url, "/") {
      tail := ActivitySuffix;
    } else {
      tail := "/" + ActivitySuffix;
      assert url + "/" + ActivitySuffix == url + tail;
    }
  }

  const SinglePostPath := "/feed/update/urn:li:activity:"

  /** The two URLs name different, non-empty profiles. */
  predicate OtherProfile(original: string, current: string) {
    var o := ProfileId(original);
    var c := ProfileId(current);
    o.Some? && o.value != [] && c.Some? && c.value != [] && o.value != c.value
  }

  /** The two URLs name the same non-empty profile. */
  predicate SameProfile(original: string, current: string) {
    var o := ProfileId(original);
    var c := ProfileId(current);
    o.Some? && o.value != [] && c.Some? && c.value != [] && o.value == c.value
  }

  /** The URL shows a profile's list of posts. */
  predicate OnPostsPage(current: string) {
    Contains(current, "recent-activity") || Contains(current, "posts/?feedView=all")
    || Contains(current, "posts?feedView=all")
  }

  /** The fragments that mark a redirect (looked for in the lower-cased
      URL); the feed counts only when the URL is not a single post. */
  function RedirectIndicators(current: string): seq<string> {
    (if Contains(current, "/feed/update/") then [] else ["/feed/"])
    + ["/search/", "/checkpoint/", "/uas/login", "/authwall", "/login",
       "linkedin.com/404", "linkedin.com/error"]
  }

  /** Some item occurs in `s`. */
  function AnyContained(s: string, items: seq<string>): (r: bool)
    ensures r <==> exists i :: 0 <= i < |items| && Contains(s, items[i])
  {
    if items == [] then false
    else Contains(s, items[0]) || AnyContained(s, items[1..])
  }

  /** `check_for_redirect`, given the URL the browser shows. */
  function IsRedirect(original: string, current: string): (r: bool)
    ensures OtherProfile(original, current) ==> r
    ensures !OtherProfile(original, current) && Contains(current, SinglePostPath) ==> !r
    ensures SameProfile(original, current) && OnPostsPage(current) ==> !r
    ensures r ==> OtherProfile(original, current)
                  || (exists i :: 0 <= i < |RedirectIndicators(current)|
                                  && Contains(Lower(current), RedirectIndicators(current)[i]))
                  || (!OnPostsPage(current) && !Contains(current, ProfilePath) && !Contains(current, CompanyPath))
    ensures !OtherProfile(original, current) && !Contains(current, SinglePostPath)
            && !(SameProfile(original, current) && OnPostsPage(current)) ==>
              (r <==> (exists i :: 0 <= i < |RedirectIndicators(current)|
                                   && Contains(Lower(current), RedirectIndicators(current)[i]))
                      || (!OnPostsPage(current) && !Contains(current, "/feed/update/")
                          && !Contains(current, ProfilePath) && !Contains(current, CompanyPath)))
  {
    if OtherProfile(original, current) then true
    else if Contains(current, SinglePostPath) then false
    else if OnPostsPage(current) && SameProfile(original, current) then false
    else if AnyContained(Lower(current), RedirectIndicators(current)) then true
    else !OnPostsPage(current) && !Contains(current, "/feed/update/")
         && !Contains(current, CompanyPath) && !Contains(current, ProfilePath)
  }

  /** Arriving on the activity page of the profile asked for is never a
      redirect. */
  lemma ActivityPageIsNoRedirect(url: string)
    requires Contains(url, ProfilePath)
    requires ProfileId(url).Some? && ProfileId(url).value != []
    ensures !IsRedirect(url, ActivityUrl(url))
  {
    var a := ActivityUrl(url);
    assert SameProfile(url, a) by { ProfileIdOfActivityUrl(url); }
    assert OnPostsPage(a) by { ContainsPrefixOf(a, ActivityMarker, "recent-activity"); }
  }

  // ---------------------------------------------------------------------
  // Which posts on a page are kept

  const ActivityWords: seq<string> :=
    ["liked", "commented on", "replied", "reposted", "shared", "celebrates", "mentioned in", "follows"]

  /** The lower-cased container text opens with an activity word, or one
      follows a line break within its first 50 characters. */
  predicate ActivityLead(lower: string, word: string) {
    StartsWith(lower, word) || Contains(Take(lower, 50), "\n" + word)
  }

  function LeadsWithActivity(lower: string, words: seq<string>): (r: bool)
    ensures r <==> exists i :: 0 <= i < |words| && ActivityLead(lower, words[i])
  {
    if words == [] then false
    else ActivityLead(lower, words[0]) || LeadsWithActivity(lower, words[1..])
  }

  function AnyNonBlank(texts: seq<string>): (r: bool)
    ensures r <==> exists j :: 0 <= j < |texts| && !AllSpace(texts[j])
  {
    if texts == [] then false
    else
      StripEmptyIff(texts[0]);
      Strip(texts[0]) != [] || AnyNonBlank(texts[1..])
  }

  function HasContent(groups: seq<seq<string>>): (r: bool)
    ensures r <==> exists i :: 0 <= i < |groups| && AnyNonBlank(groups[i])
  {
    if groups == [] then false
    else AnyNonBlank(groups[0]) || HasContent(groups[1..])
  }

  /** One post container as the page shows it: its whole text, the texts
      of the elements each of the five content selectors finds in it, the
      texts of the elements the four text selectors find (in selector
      order), and what the page script returns for it. */
  datatype Container = Container(
    text: string,
    contentGroups: seq<seq<string>>,
    textElements: seq<string>,
    scriptText: string)

  /** `is_original_post`: no activity word leads the text, and some content
      selector finds an element with non-blank text. */
  function IsOriginalPost(c: Container): bool {
    !LeadsWithActivity(Lower(c.text), ActivityWords) && HasContent(c.contentGroups)
  }

  /** A container is original exactly when no activity word leads its text
      and some element found by a content selector has non-blank text. */
  lemma OriginalPostMeans(c: Container)
    ensures IsOriginalPost(c) <==>
              (forall i :: 0 <= i < |ActivityWords| ==> !ActivityLead(Lower(c.text), ActivityWords[i]))
              && exists i, j :: 0 <= i < |c.contentGroups| && 0 <= j < |c.contentGroups[i]|
                                && !AllSpace(c.contentGroups[i][j])
  {
    assert HasContent(c.contentGroups) <==> exists i :: 0 <= i < |c.contentGroups| && AnyNonBlank(c.contentGroups[i]);
  }

  /** The best text so far after looking at one more element: its stripped
      text replaces the best one only when non-empty and strictly longer. */
  function Better(best: string, text: string): string {
    var t := Strip(text);
    if t != [] && |t| > |best| then t else best
  }

  /** The best text after looking at `texts`, starting from `best`. */
  function Longest(texts: seq<string>, best: string): (r: string)
    ensures |best| <= |r|
    ensures forall i :: 0 <= i < |texts| ==> |Strip(texts[i])| <= |r|
  {
    if texts == [] then best
    else
      var r := Longest(texts[1..], Better(best, texts[0]));
      assert forall i :: 1 <= i < |texts| ==> texts[i] == texts[1..][i - 1];
      r
  }

  /** The kept text is the initial one or one of the stripped texts. */
  lemma {:induction false} LongestIsOneOf(texts: seq<string>, best: string)
    ensures var r := Longest(texts, best);
            r == best || exists i :: 0 <= i < |texts| && r == Strip(texts[i])
  {
    if texts != [] {
      var b := Better(best, texts[0]);
      LongestIsOneOf(texts[1..], b);
      var r := Longest(texts[1..], b);
      if r != b {
        var j :| 0 <= j < |texts[1..]| && r == Strip(texts[1..][j]);
        assert texts[j + 1] == texts[1..][j];
      } else if b != best {
        assert r == Strip(texts[0]);
      }
    }
  }

  /** Only blank elements give no text. */
  lemma LongestIsEmpty(texts: seq<string>)
    ensures Longest(texts, []) == [] <==> forall i :: 0 <= i < |texts| ==> AllSpace(texts[i])
  {
    forall i | 0 <= i < |texts| {
      StripEmptyIff(texts[i]);
    }
  }

  /** The loop of `extract_post_text` over the text selectors' elements. */
  method LongestText(texts: seq<string>) returns (r: string)
    ensures r == Longest(texts, [])
  {
    r := [];
    var i := 0;
    while i < |texts|
      invariant 0 <= i <= |texts|
      invariant Longest(texts[i..], r) == Longest(texts, [])
    {
      assert texts[i..][1..] == texts[i + 1..];
      var t := Strip(texts[i]);
      if t != [] && |t| > |r| {
        r := t;
      }
      i := i + 1;
    }
  }

  /** `extract_post_text` without its whitespace clean-up: the longest
      element text, or the script's text when every element is blank. */
  function PostTextOf(c: Container): string {
    var best := Longest(c.textElements, []);
    if best == [] then Strip(c.scriptText) else best
  }

  /** Where the post text comes from: a non-blank element gives the longest
      stripped element text; otherwise the script's stripped text is used,
      and the result is empty only when everything was blank. */
  lemma PostTextSource(c: Container)
    ensures var elems := c.textElements;
            && (PostTextOf(c) == [] <==>
                  (forall i :: 0 <= i < |elems| ==> AllSpace(elems[i])) && AllSpace(c.scriptText))
            && ((exists i :: 0 <= i < |elems| && !AllSpace(elems[i])) ==>
                  && (exists i :: 0 <= i < |elems| && PostTextOf(c) == Strip(elems[i]))
                  && forall i :: 0 <= i < |elems| ==> |Strip(elems[i])| <= |PostTextOf(c)|)
            && ((forall i :: 0 <= i < |elems| ==> AllSpace(elems[i])) ==>
                  PostTextOf(c) == Strip(c.scriptText))
  {
    LongestIsEmpty(c.textElements);
    LongestIsOneOf(c.textElements, []);
    StripEmptyIff(c.scriptText);
  }

  method PostText(c: Container) returns (t: string)
    ensures t == PostTextOf(c)
  {
    t := LongestText(c.textElements);
    if t == [] {
      t := Strip(c.scriptText);
    }
  }

  /** One scraped post. */
  datatype Post = Post(profileName: string, postText: string, category: string)

  /** What `extract_current_posts` learns about one container. */
  datatype Examined = Examined(original: bool, text: string)

  function ExamineOne(c: Container): Examined {
    Examined(IsOriginalPost(c), PostTextOf(c))
  }

  function Examine(page: seq<Container>): (r: seq<Examined>)
    ensures |r| == |page|
  {
    if page == [] then [] else [ExamineOne(page[0])] + Examine(page[1..])
  }

  lemma {:induction false} ExamineAt(page: seq<Container>)
    ensures forall k :: 0 <= k < |page| ==> Examine(page)[k] == ExamineOne(page[k])
  {
    if page != [] {
      ExamineAt(page[1..]);
      assert forall k :: 1 <= k < |page| ==> page[k] == page[1..][k - 1];
    }
  }

  /** A container that becomes a post: original, with a text not seen
      before and at least ten characters once stripped. */
  predicate Kept(e: Examined, processed: set<string>) {
    e.original && e.text !in processed && |Strip(e.text)| >= 10
  }

  /** The post a container becomes, if kept. */
  function KeptHead(e: Examined, processed: set<string>, profileName: string, category: string): seq<Post> {
    if Kept(e, processed) then [Post(profileName, e.text, category)] else []
  }

  /** The posts made from the kept containers, in page order. */
  function KeptPosts(es: seq<Examined>, processed: set<string>, profileName: string, category: string)
    : (r: seq<Post>)
    ensures |r| <= |es|
  {
    if es == [] then []
    else KeptHead(es[0], processed, profileName, category) + KeptPosts(es[1..], processed, profileName, category)
  }

  /** Every post comes from a kept container, carries the profile and the
      category, has a new text of at least ten characters; and every kept
      container gives its post. */
  lemma KeptPostsExactly(es: seq<Examined>, processed: set<string>, profileName: string, category: string)
    ensures var r := KeptPosts(es, processed, profileName, category);
            && (forall p :: p in r ==> p.profileName == profileName && p.category == category
                                       && p.postText !in processed && |Strip(p.postText)| >= 10)
            && (forall k :: 0 <= k < |es| && Kept(es[k], processed) ==> Post(profileName, es[k].text, category) in r)
            && (forall p :: p in r ==> exists k :: 0 <= k < |es| && Kept(es[k], processed) && p.postText == es[k].text)
  {
    var r := KeptPosts(es, processed, profileName, category);
    forall p | p in r
      ensures p.profileName == profileName && p.category == category
      ensures exists k :: 0 <= k < |es| && Kept(es[k], processed) && p.postText == es[k].text
    {
      var k := KeptPostFrom(es, processed, profileName, category, p);
    }
    forall k | 0 <= k < |es| && Kept(es[k], processed)
      ensures Post(profileName, es[k].text, category) in r
    {
      KeptPostOf(es, processed, profileName, category, k);
    }
  }

  /** The kept container a post was made from. */
  lemma {:induction false} KeptPostFrom(es: seq<Examined>, processed: set<string>, profileName: string, category: string, p: Post)
    returns (k: nat)
    requires p in KeptPosts(es, processed, profileName, category)
    ensures k < |es| && Kept(es[k], processed) && p == Post(profileName, es[k].text, category)
  {
    var rest := KeptPosts(es[1..], processed, profileName, category);
    assert KeptPosts(es, processed, profileName, category)
        == KeptHead(es[0], processed, profileName, category) + rest;
    if p in KeptHead(es[0], processed, profileName, category) {
      assert Kept(es[0], processed) && p == Post(profileName, es[0].text, category);
      k := 0;
    } else {
      assert p in rest;
      var j := KeptPostFrom(es[1..], processed, profileName, category, p);
      assert es[1..][j] == es[j + 1];
      k := j + 1;
    }
  }

  /** A kept container gives its post. */
  lemma {:induction false} KeptPostOf(es: seq<Examined>, processed: set<string>, profileName: string, category: string, k: nat)
    requires k < |es| && Kept(es[k], processed)
    ensures Post(profileName, es[k].text, category) in KeptPosts(es, processed, profileName, category)
  {
    var rest := KeptPosts(es[1..], processed, profileName, category);
    assert KeptPosts(es, processed, profileName, category)
        == KeptHead(es[0], processed, profileName, category) + rest;
    if k == 0 {
      assert KeptHead(es[0], processed, profileName, category) == [Post(profileName, es[0].text, category)];
    } else {
      assert es[1..][k - 1] == es[k];
      KeptPostOf(es[1..], processed, profileName, category, k - 1);
    }
  }

  /** The posts `extract_current_posts` returns for a page's containers. */
  function CurrentPosts(page: seq<Container>, processed: set<string>, profileName: string, category: string)
    : seq<Post>
  {
    KeptPosts(Examine(page), processed, profileName, category)
  }

  /** A page gives exactly the posts of its kept containers: each post has
      the profile and category, a new text of at least ten characters, and
      comes from an original container with that text; each original
      container with a new, long enough text gives its post. */
  lemma CurrentPostsExactly(page: seq<Container>, processed: set<string>, profileName: string, category: string)
    ensures var r := CurrentPosts(page, processed, profileName, category);
            && (forall p :: p in r ==> p.profileName == profileName && p.category == category
                                       && p.postText !in processed && |Strip(p.postText)| >= 10)
            && (forall k :: 0 <= k < |page| && Kept(ExamineOne(page[k]), processed) ==>
                  Post(profileName, PostTextOf(page[k]), category) in r)
            && (forall p :: p in r ==> exists k :: 0 <= k < |page| && IsOriginalPost(page[k])
                                                  && p.postText == PostTextOf(page[k]))
  {
    var es := Examine(page);
    var r := CurrentPosts(page, processed, profileName, category);
    ExamineAt(page);
    KeptPostsExactly(es, processed, profileName, category);
    forall k | 0 <= k < |page| && Kept(ExamineOne(page[k]), processed)
      ensures Post(profileName, PostTextOf(page[k]), category) in r
    {
      assert es[k] == ExamineOne(page[k]);
    }
    forall p | p in r
      ensures exists k :: 0 <= k < |page| && IsOriginalPost(page[k]) && p.postText == PostTextOf(page[k])
    {
      var k :| 0 <= k < |es| && Kept(es[k], processed) && p.postText == es[k].text;
      assert es[k] == ExamineOne(page[k]);
    }
  }

  /** The body of `extract_current_posts`' loop for one container: the
      text is only extracted from an original post. */
  method ExtractOne(c: Container, processed: set<string>, profileName: string, category: string)
    returns (r: seq<Post>)
    ensures r == KeptHead(ExamineOne(c), processed, profileName, category)
  {
    r := [];
    var original := IsOriginalPost(c);
    if original {
      var text := PostText(c);
      ghost var e := Examined(true, text);
      assert ExamineOne(c) == e;
      if !(text in processed || |Strip(text)| < 10) {
        r := [Post(profileName, text, category)];
        assert Kept(e, processed);
      } else {
        assert !Kept(e, processed);
      }
    } else {
      assert !ExamineOne(c).original;
    }
  }

  /** The posts of the containers from `i` on: those of container `i`,
      then those of the rest. */
  lemma KeptPostsStep(es: seq<Examined>, i: nat, processed: set<string>, profileName: string, category: string)
    requires i < |es|
    ensures KeptPosts(es[i..], processed, profileName, category)
         == KeptHead(es[i], processed, profileName, category) + KeptPosts(es[i + 1..], processed, profileName, category)
  {
    assert es[i..][1..] == es[i + 1..];
  }

  lemma AppendAssoc<T>(a: seq<T>, b: seq<T>, c: seq<T>)
    ensures (a + b) + c == a + (b + c)
  {
  }

  /** `extract_current_posts` over the containers of the page. */
  method ExtractCurrentPosts(page: seq<Container>, processed: set<string>, profileName: string, category: string)
    returns (r: seq<Post>)
    ensures r == CurrentPosts(page, processed, profileName, category)
  {
    ghost var es := Examine(page);
    ExamineAt(page);
    r := [];
    var i := 0;
    assert es[0..] == es;
    while i < |page|
      invariant 0 <= i <= |page|
      invariant r + KeptPosts(es[i..], processed, profileName, category) == KeptPosts(es, processed, profileName, category)
    {
      ghost var rest := KeptPosts(es[i + 1..], processed, profileName, category);
      KeptPostsStep(es, i, processed, profileName, category);
      var one := ExtractOne(page[i], processed, profileName, category);
      assert one == KeptHead(es[i], processed, profileName, category);
      AppendAssoc(r, one, rest);
      r := r + one;
      i := i + 1;
    }
    assert es[i..] == [];
  }

  // ---------------------------------------------------------------------
  // Accumulating posts while scrolling

  /** The posts gathered so far and the texts already processed. */
  datatype Progress = Progress(posts: seq<Post>, seen: set<string>)

  /** The posts of a batch whose text was not processed yet are appended,
      in order, and their texts recorded. */
  function Absorb(p: Progress, batch: seq<Post>): (r: Progress)
    ensures |p.posts| <= |r.posts| && r.posts[..|p.posts|] == p.posts
    decreases |batch|
  {
    if batch == [] then p
    else
      var q := if batch[0].postText in p.seen then p
               else Progress(p.posts + [batch[0]], p.seen + {batch[0].postText});
      Absorb(q, batch[1..])
  }

  /** What one scroll shows: whether a redirect is seen before extracting,
      the page's containers, and whether one is seen after scrolling. */
  datatype ScrollView = ScrollView(redirectBefore: bool, page: seq<Container>, redirectAfter: bool)

  /** How the scroll loop ended: a redirect returned early, the target
      number of posts ended it, or it is still scrolling. */
  datatype Phase = Returned(progress: Progress) | Reached(progress: Progress) | Scrolling(progress: Progress)

  function ScrollStep(v: ScrollView, p: Progress, maxPosts: nat, profileName: string, category: string): Phase {
    if v.redirectBefore then Returned(p)
    else
      var q := Absorb(p, CurrentPosts(v.page, p.seen, profileName, category));
      if |q.posts| >= maxPosts then Reached(q)
      else if v.redirectAfter then Returned(q)
      else Scrolling(q)
  }

  /** The scroll loop from view `i` on. The posts already gathered are
      never dropped, it stops as soon as the target is reached, and while it
      goes on the target has not been reached. */
  function Scroll(views: seq<ScrollView>, i: nat, p: Progress, maxPosts: nat, profileName: string, category: string)
    : (r: Phase)
    requires i <= |views|
    ensures |p.posts| <= |r.progress.posts| && r.progress.posts[..|p.posts|] == p.posts
    ensures r.Reached? ==> |r.progress.posts| >= maxPosts
    ensures r.Scrolling? && i < |views| ==> |r.progress.posts| < maxPosts
    decreases |views| - i
  {
    if i == |views| then Scrolling(p)
    else
      match ScrollStep(views[i], p, maxPosts, profileName, category)
      case Scrolling(q) => Scroll(views, i + 1, q, maxPosts, profileName, category)
      case other => other
  }

  /** After the loop: unless a final redirect check fires, one last page is
      extracted. */
  function Finish(p: Progress, finalRedirect: bool, finalPage: seq<Container>, profileName: string, category: string)
    : seq<Post>
  {
    if finalRedirect then p.posts
    else Absorb(p, CurrentPosts(finalPage, p.seen, profileName, category)).posts
  }

  /** The posts `scroll_and_extract_incrementally` returns. */
  function Scraped(views: seq<ScrollView>, finalRedirect: bool, finalPage: seq<Container>, maxPosts: nat,
                   profileName: string, category: string): seq<Post>
  {
    match Scroll(views, 0, Progress([], {}), maxPosts, profileName, category)
    case Returned(p) => p.posts
    case Reached(p) => Finish(p, finalRedirect, finalPage, profileName, category)
    case Scrolling(p) => Finish(p, finalRedirect, finalPage, profileName, category)
  }

  function Texts(posts: seq<Post>): (r: seq<string>)
    ensures |r| == |posts| && forall i :: 0 <= i < |posts| ==> r[i] == posts[i].postText
  {
    seq(|posts|, i requires 0 <= i < |posts| => posts[i].postText)
  }

  /** The processed texts are those of the gathered posts, each once. */
  ghost predicate ProgressOk(p: Progress) {
    NoDup(Texts(p.posts)) && forall t :: t in p.seen <==> t in Texts(p.posts)
  }

  /** Every post carries the profile and the category and has at least ten
      characters once stripped. */
  predicate PostsOk(posts: seq<Post>, profileName: string, category: string) {
    forall q :: q in posts ==> q.profileName == profileName && q.category == category && |Strip(q.postText)| >= 10
  }

  lemma {:induction false} AbsorbKeeps(p: Progress, batch: seq<Post>, profileName: string, category: string)
    requires ProgressOk(p)
    requires PostsOk(p.posts, profileName, category) && PostsOk(batch, profileName, category)
    ensures ProgressOk(Absorb(p, batch)) && PostsOk(Absorb(p, batch).posts, profileName, category)
    decreases |batch|
  {
    if batch != [] {
      var q := if batch[0].postText in p.seen then p
               else Progress(p.posts + [batch[0]], p.seen + {batch[0].postText});
      if batch[0].postText !in p.seen {
        assert Texts(q.posts) == Texts(p.posts) + [batch[0].postText];
      }
      assert batch[0] in batch;
      AbsorbKeeps(q, batch[1..], profileName, category);
    }
  }

  lemma ViewPostsOk(page: seq<Container>, p: Progress, profileName: string, category: string)
    ensures PostsOk(CurrentPosts(page, p.seen, profileName, category), profileName, category)
  {
    CurrentPostsExactly(page, p.seen, profileName, category);
  }

  lemma {:induction false} ScrollKeeps(views: seq<ScrollView>, i: nat, p: Progress, maxPosts: nat,
                                       profileName: string, category: string)
    requires i <= |views|
    requires ProgressOk(p) && PostsOk(p.posts, profileName, category)
    ensures var r := Scroll(views, i, p, maxPosts, profileName, category);
            ProgressOk(r.progress) && PostsOk(r.progress.posts, profileName, category)
    decreases |views| - i
  {
    if i < |views| {
      ScrollStepKeeps(views[i], p, maxPosts, profileName, category);
      match ScrollStep(views[i], p, maxPosts, profileName, category)
      case Scrolling(q) => ScrollKeeps(views, i + 1, q, maxPosts, profileName, category);
      case _ =>
    }
  }

  /** One scroll keeps the texts distinct and the posts well formed. */
  lemma ScrollStepKeeps(v: ScrollView, p: Progress, maxPosts: nat, profileName: string, category: string)
    requires ProgressOk(p) && PostsOk(p.posts, profileName, category)
    ensures var r := ScrollStep(v, p, maxPosts, profileName, category).progress;
            ProgressOk(r) && PostsOk(r.posts, profileName, category)
  {
    if !v.redirectBefore {
      ViewPostsOk(v.page, p, profileName, category);
      AbsorbKeeps(p, CurrentPosts(v.page, p.seen, profileName, category), profileName, category);
    }
  }

  /** `scroll_and_extract_incrementally`'s result: no text twice, every
      post of this profile and category and long enough, and nothing at all
      when the first look already finds a redirect. */
  lemma ScrapedPosts(views: seq<ScrollView>, finalRedirect: bool, finalPage: seq<Container>, maxPosts: nat,
                     profileName: string, category: string)
    ensures var r := Scraped(views, finalRedirect, finalPage, maxPosts, profileName, category);
            NoDup(Texts(r)) && PostsOk(r, profileName, category)
            && (views != [] && views[0].redirectBefore ==> r == [])
  {
    var init := Progress([], {});
    assert Texts([]) == [];
    ScrollKeeps(views, 0, init, maxPosts, profileName, category);
    var p := Scroll(views, 0, init, maxPosts, profileName, category).progress;
    ViewPostsOk(finalPage, p, profileName, category);
    AbsorbKeeps(p, CurrentPosts(finalPage, p.seen, profileName, category), profileName, category);
  }

  // ---------------------------------------------------------------------
  // Saving to the vector collection

  /** The metadata stored with each post. */
  datatype PostMeta = PostMeta(profileName: string, category: string, profileUrl: string,
                               scrapedAt: string, sessionId: string)

  datatype StoredPost = StoredPost(document: string, metadata: PostMeta)

  /** `f"post_{n}_{session_id}"` */
  function PostId(n: nat, sessionId: string): string {
    "post_" + NatStr(n) + "_" + sessionId
  }

  /** Different numbers or sessions give different ids. */
  lemma PostIdInjective(a: nat, b: nat, s: string, s2: string)
    requires PostId(a, s) == PostId(b, s2)
    ensures a == b && s == s2
  {
    var x := NatStr(a) + ['_'] + s;
    var y := NatStr(b) + ['_'] + s2;
    assert PostId(a, s) == "post_" + x && PostId(b, s2) == "post_" + y;
    assert x == PostId(a, s)[5..] == y;
    assert StartsWith(x, NatStr(b) + ['_']) by {
      assert y[..|NatStr(b)| + 1] == NatStr(b) + ['_'];
    }
    DigitsBeforeSep(NatStr(a), NatStr(b), '_', s);
    NatStrInjective(a, b);
    assert s == x[|NatStr(a)| + 1..] && s2 == y[|NatStr(b)| + 1..];
  }

  /** The id and the row `save_posts_to_chromadb` builds for the post at
      position `i`, numbered after the `count` rows already stored. */
  function SaveRow(post: Post, n: nat, category: string, profileUrl: string, scrapedAt: string,
                   sessionId: string): (string, StoredPost)
  {
    (PostId(n, sessionId),
     StoredPost(post.postText, PostMeta(post.profileName, category, profileUrl, scrapedAt, sessionId)))
  }

  function SaveRows(posts: seq<Post>, count: nat, category: string, profileUrl: string, scrapedAt: string,
                    sessionId: string): (r: seq<(string, StoredPost)>)
    ensures |r| == |posts|
    ensures forall i :: 0 <= i < |posts| ==> r[i] == SaveRow(posts[i], count + i, category, profileUrl, scrapedAt, sessionId)
  {
    seq(|posts|, i requires 0 <= i < |posts| => SaveRow(posts[i], count + i, category, profileUrl, scrapedAt, sessionId))
  }

  function RowIds(rows: seq<(string, StoredPost)>): (r: seq<string>)
    ensures |r| == |rows| && forall i :: 0 <= i < |rows| ==> r[i] == rows[i].0
  {
    seq(|rows|, i requires 0 <= i < |rows| => rows[i].0)
  }

  /** The ids of one save are distinct, and none repeats the id of an
      earlier number in the same session. */
  lemma SaveIdsFresh(posts: seq<Post>, count: nat, category: string, profileUrl: string, scrapedAt: string,
                     sessionId: string)
    ensures var ids := RowIds(SaveRows(posts, count, category, profileUrl, scrapedAt, sessionId));
            NoDup(ids) && forall k :: 0 <= k < count ==> PostId(k, sessionId) !in ids
  {
    var ids := RowIds(SaveRows(posts, count, category, profileUrl, scrapedAt, sessionId));
    forall i, j | 0 <= i < j < |ids|
      ensures ids[i] != ids[j]
    {
      if ids[i] == ids[j] {
        PostIdInjective(count + i, count + j, sessionId, sessionId);
      }
    }
    forall k | 0 <= k < count
      ensures PostId(k, sessionId) !in ids
    {
      if PostId(k, sessionId) in ids {
        var i :| 0 <= i < |ids| && ids[i] == PostId(k, sessionId);
        PostIdInjective(k, count + i, sessionId, sessionId);
      }
    }
  }

  /** `collection.add` of several rows: each goes in like a single add. */
  function AddRows(t: Table<StoredPost>, rows: seq<(string, StoredPost)>): (r: Table<StoredPost>)
    ensures t.Valid() ==> r.Valid()
    ensures forall k :: k in t.rows ==> k in r.rows && r.rows[k] == t.rows[k]
    ensures forall k :: k in r.rows <==> k in t.rows || k in RowIds(rows)
    decreases |rows|
  {
    if rows == [] then t
    else
      var r := AddRows(t.Add(rows[0].0, rows[0].1), rows[1..]);
      assert forall k :: k in RowIds(rows) <==> k == rows[0].0 || k in RowIds(rows[1..]) by {
        assert RowIds(rows) == [rows[0].0] + RowIds(rows[1..]);
      }
      r
  }

  /** Rows with new, distinct ids are all stored as given. */
  lemma {:induction false} AddRowsStores(t: Table<StoredPost>, rows: seq<(string, StoredPost)>)
    requires NoDup(RowIds(rows))
    requires forall i :: 0 <= i < |rows| ==> rows[i].0 !in t.rows
    ensures forall i :: 0 <= i < |rows| ==> AddRows(t, rows).rows[rows[i].0] == rows[i].1
    decreases |rows|
  {
    if rows != [] {
      var t1 := t.Add(rows[0].0, rows[0].1);
      assert RowIds(rows[1..]) == RowIds(rows)[1..];
      forall i | 0 <= i < |rows[1..]|
        ensures rows[1..][i].0 !in t1.rows
      {
        assert RowIds(rows)[i + 1] != RowIds(rows)[0];
      }
      AddRowsStores(t1, rows[1..]);
      assert RowIds(rows)[0] !in RowIds(rows[1..]);
    }
  }

  /** The scraper's state: the posts gathered for the current profile and
      the collection they are saved to. */
  class LinkedInScraper {
    const maxPosts: nat
    const sessionId: string
    var accumulatedPosts: seq<Post>
    var collection: Table<StoredPost>

    constructor(maxPosts: nat, sessionId: string, collection: Table<StoredPost>)
      requires collection.Valid()
      ensures this.maxPosts == maxPosts && this.sessionId == sessionId
      ensures accumulatedPosts == [] && this.collection == collection
    {
      this.maxPosts := maxPosts;
      this.sessionId := sessionId;
      accumulatedPosts := [];
      this.collection := collection;
    }

    /** The loop appending a batch's posts whose text is new. */
    method AbsorbBatch(batch: seq<Post>, processed: set<string>) returns (seen: set<string>)
      modifies this
      ensures Progress(accumulatedPosts, seen) == Absorb(Progress(old(accumulatedPosts), processed), batch)
      ensures collection == old(collection)
    {
      seen := processed;
      var i := 0;
      while i < |batch|
        invariant 0 <= i <= |batch|
        invariant Absorb(Progress(accumulatedPosts, seen), batch[i..])
               == Absorb(Progress(old(accumulatedPosts), processed), batch)
        invariant collection == old(collection)
      {
        assert batch[i..][1..] == batch[i + 1..];
        if batch[i].postText !in seen {
          accumulatedPosts := accumulatedPosts + [batch[i]];
          seen := seen + {batch[i].postText};
        }
        i := i + 1;
      }
      assert batch[i..] == [];
    }

    /** `scroll_and_extract_incrementally` over the views the browser gives
        at each scroll, the final redirect check and the final page. */
    method ScrollAndExtract(views: seq<ScrollView>, finalRedirect: bool, finalPage: seq<Container>,
                            profileName: string, category: string) returns (r: seq<Post>)
      modifies this
      ensures r == accumulatedPosts
      ensures r == Scraped(views, finalRedirect, finalPage, maxPosts, profileName, category)
      ensures collection == old(collection)
    {
      ghost var outcome := Scroll(views, 0, Progress([], {}), maxPosts, profileName, category);
      accumulatedPosts := [];
      var processed: set<string> := {};
      var i := 0;
      while i < |views|
        invariant 0 <= i <= |views|
        invariant Scroll(views, i, Progress(accumulatedPosts, processed), maxPosts, profileName, category) == outcome
        invariant collection == old(collection)
      {
        if views[i].redirectBefore {
          return accumulatedPosts;
        }
        var batch := ExtractCurrentPosts(views[i].page, processed, profileName, category);
        processed := AbsorbBatch(batch, processed);
        if |accumulatedPosts| >= maxPosts {
          assert outcome == Reached(Progress(accumulatedPosts, processed));
          break;
        }
        if views[i].redirectAfter {
          return accumulatedPosts;
        }
        i := i + 1;
      }
      assert outcome.progress == Progress(accumulatedPosts, processed) && !outcome.Returned?;
      if finalRedirect {
        return accumulatedPosts;
      }
      var batch := ExtractCurrentPosts(finalPage, processed, profileName, category);
      processed := AbsorbBatch(batch, processed);
      r := accumulatedPosts;
    }

    /** `save_posts_to_chromadb`, numbering the new rows after the rows
        already stored; `scrapedAt` is the clock's reading. */
    method SavePosts(posts: seq<Post>, category: string, profileUrl: string, scrapedAt: string)
      returns (saved: bool)
      requires collection.Valid()
      modifies this
      ensures saved <==> posts != []
      ensures collection.Valid()
      ensures collection == if posts == [] then old(collection)
                            else AddRows(old(collection), SaveRows(posts, |old(collection).ids|, category,
                                                                   profileUrl, scrapedAt, sessionId))
      ensures accumulatedPosts == old(accumulatedPosts)
    {
      if posts == [] {
        return false;
      }
      var count := |collection.ids|;
      var rows: seq<(string, StoredPost)> := [];
      var i := 0;
      while i < |posts|
        invariant 0 <= i <= |posts|
        invariant |rows| == i
        invariant forall j :: 0 <= j < i ==>
                    rows[j] == SaveRow(posts[j], count + j, category, profileUrl, scrapedAt, sessionId)
      {
        rows := rows + [SaveRow(posts[i], count + i, category, profileUrl, scrapedAt, sessionId)];
        i := i + 1;
      }
      assert rows == SaveRows(posts, count, category, profileUrl, scrapedAt, sessionId);
      collection := AddRows(collection, rows);
      return true;
    }
  }
}
