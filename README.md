# LinkedIn persona and content-planning core, modelled in Dafny

This project models the core of a LinkedIn content assistant. The assistant
has three parts:

- **Persona evolution** (`persona.py`, class `PersonaEvolutionSystem`).
  - Each post is scored from its likes, comments, shares and views.
  - The post's analysis is kept in a short-term memory collection.
  - Once a user has five unprocessed posts, they are compressed into one
    long-term record and marked processed.
  - The user's persona snapshot is then rebuilt from all of the user's
    long-term records.
  - A "memory feeder" stores personal context, company information and
    achievements, counts how often each is used, and returns the user's items
    relevant to a query.
  - Every language-model reply goes through the same cleanup before JSON
    decoding: an empty reply becomes `{}`, code fences are removed, the first
    `{` to the last `}` is kept, and a fixed fallback object is used when
    the text is not JSON.
- **Content calendar and onboarding wizard** (`app2.py`).
  - The calendar builds the user's topic list and a balanced, shuffled
    rotation of post types.
  - It picks the posting days of a month, at most a given number per
    calendar week, on the chosen weekdays.
  - It looks up and changes the post type of a day, and clears a month's
    cached content.
  - The wizard keeps the list of custom reference creators, shows creator
    initials, moves between steps and validates each step.
- **Scraper** (`linkedin_scraper.py`, class `LinkedInScraper`).
  - It normalises a profile URL to its activity page, with a posts-feed
    fallback.
  - It recognises the profile a URL names and a redirect away from it.
  - On each page it keeps only original posts with enough new text.
  - It accumulates posts while scrolling until the target count is reached
    or a redirect is seen.
  - It stores the posts in a vector collection under numbered ids.

Module layout:

| file | module | contents |
|---|---|---|
| `wrappers.dfy` | `Wrappers` | `Option` |
| `text.dfy` | `Text` | strip, split, search, upper/lower case, decimal digits |
| `sorting.dfy` | `Sorting` | a generic insertion sort used as the specification of `sorted`/`sort` |
| `vector_store.dfy` | `VectorStore` | a Chroma collection: ids in insertion order, `add` (an existing id is ignored), `delete`, `get(where=…)`, `query` |
| `engagement.dfy` | `Engagement` | the engagement score, tiers, trend, mean/max and insights |
| `llm_json.dfy` | `LlmJson` | the reply cleanup and the parse-or-fallback step |
| `persona_memory.dfy` | `PersonaMemory` | memory records and the three memory transitions as functions |
| `persona_laws.dfy` | `PersonaLaws` | what those transitions guarantee |
| `persona.dfy` | `Persona` | the `PersonaEvolutionSystem` class, proved against the transitions |
| `calendar.dfy` | `Calendar` | topics, rotation, posting days, the calendar session state |
| `wizard.dfy` | `Wizard` | custom creators, initials, steps and validators |
| `scraper.dfy` | `Scraper` | URLs, redirects, post filters, the scrolling loop, saving |

Streamlit's session state is modelled as classes whose methods change
fields, and so are the Chroma collections owned by the two system objects.
Everything the program gets from outside enters as a parameter:

- the language model's reply (`LlmReply`: a raised error or a text);
- the JSON decoder (a function from text to not-JSON, a non-object, or an
  object of string, list and number fields);
- the clock (`Clock`: seconds and an ISO text);
- the similarity ranking of a vector query (a sequence of ids);
- the browser's page contents (containers and the texts of their elements,
  the current URL at each scroll).

A random choice is a nondeterministic choice (`:|`) constrained only by what
the source guarantees.

## Model

| member | source | states |
|---|---|---|
| Engagement.Score | persona.py:222-231 | The score is in [0.1, 1.0]. It is 1.0 exactly when the weighted raw engagement reaches 1000, and 0.1 exactly when it is at most 100. |
| Engagement.ScoreMonotone | persona.py:222-231 | More likes, comments, shares or views never lower the score. |
| Engagement.SilentPostScore | persona.py:222-248 | A post whose engagement data holds only zero counts gets the minimum score 0.1; a post without engagement data gets 0.5. |
| Engagement.PostScore | persona.py:240-248 | The score of a post's engagement data is in range; a post without engagement data gets 0.5. |
| Engagement.MaxOf | persona.py:488 | `max` of a non-empty list is an element of the list and is at least every element. |
| Engagement.MeanBounds | persona.py:487 | The mean of scores between two bounds is between them. |
| Engagement.MeanAtMostMax | persona.py:487-488 | The average engagement never exceeds the peak engagement. |
| Engagement.TiersPartition | persona.py:388-390 | The high (> 0.6), medium (0.3–0.6) and low (< 0.3) tiers split the batch: as multisets they add up to the batch. |
| Engagement.Trend | persona.py:489 | The compression trend is "improving" or "mixed". |
| Engagement.TrendOfUniform | persona.py:388-389 | An all-high batch is "improving"; an all-low batch is "mixed". |
| Engagement.MajorityTrend | persona.py:388-390 | When more than half of the batch is high the trend is "improving"; when at least half is low it is "mixed". |
| Engagement.RecentTrendOrder | persona.py:764 | Three or fewer scores are "stable". With more, the trend is "improving" when every one of the last three scores beats every earlier score, and "stable" when none of them does. |
| Engagement.MeanBetween | persona.py:760-764 | The mean of a non-empty list lies between its least and its greatest element. |
| Engagement.MeansApart | persona.py:764 | When every score of one list is below every score of another, its mean is strictly below the other's; when none is above, its mean is not above. |
| Engagement.InsightsOf | persona.py:749-767 | No insights exactly for a user without posts. Otherwise the total is the post count and the high performers are the posts above 0.6. |
| Engagement.InsightsInRange | persona.py:760-763 | For scores in range: 0.1 ≤ average ≤ peak ≤ 1.0, the peak is one of the scores, and high performers ≤ total. |
| LlmJson.StripOrEmpty | persona.py:284-287 | A blank reply becomes `{}`; any other reply is stripped; the result is never empty. |
| LlmJson.RemoveFencesPlain | persona.py:290 | Fence removal leaves text without backticks unchanged. |
| LlmJson.RemoveFencesClosing | persona.py:290 | A closing fence is removed together with the whitespace before it. |
| LlmJson.OpeningFence | persona.py:290 | An opening ```` ```json ```` fence is removed together with the whitespace after it. |
| LlmJson.FencedReply | persona.py:290 | A reply fenced as ```` ```json … ``` ```` loses both fences and the whitespace inside them. |
| LlmJson.FirstIndex | persona.py:293 | The first position of a character, or none when it does not occur. |
| LlmJson.LastIndex | persona.py:293 | The last position of a character, or none when it does not occur. |
| LlmJson.ExtractObject | persona.py:293-297 | With a `{` before a later `}`, the text from the first `{` to the last `}`; otherwise the whole text. |
| LlmJson.ExtractAround | persona.py:293-297 | Text before the object without `{` and after it without `}` is cut away, leaving exactly the object. |
| LlmJson.ExtractIdempotent | persona.py:293-297 | Extracting twice gives the same text as extracting once. |
| LlmJson.CleanBlank | persona.py:284-297 | A blank reply is decoded from `{}`. |
| LlmJson.CleanFenced | persona.py:284-297 | A fenced reply holding one object, padded with whitespace, cleans to exactly that object. |
| LlmJson.StripAround | persona.py:284 | Stripping removes exactly the surrounding whitespace of a text that starts and ends with non-space. |
| LlmJson.BlankReplyObject | persona.py:284-317 | A blank reply yields the empty object. |
| LlmJson.FencedReplyObject | persona.py:284-317 | For a fenced reply holding one object: the decoded object when it parses, the fallback object when it is not JSON, and nothing when it is JSON but not an object (the later `.get` raises). |
| PersonaMemory.SnapshotIdInjective | persona.py:675 | Different users get different snapshot ids `persona_{user}`. |
| PersonaMemory.NewStmEntry | persona.py:319-343 | The entry belongs to the user, stores the post, and is unprocessed. Its score is that of the engagement data (0.5 and zero counts without data). Missing analysis fields take the source's defaults ("Professional" tone, the given topic and type). |
| PersonaMemory.NewLtmEntry | persona.py:487-541 | The record counts the batch and its high tier and carries its trend. For scores in range, 0.1 ≤ average ≤ maximum ≤ 1.0. Missing confidence figures default to 0.7, 0.8 and 0.9. |
| PersonaMemory.BatchFiguresOk | persona.py:487-488 | A batch of scores in range has mean and maximum in range, with the mean at most the maximum. |
| PersonaMemory.NewSnapshot | persona.py:589-593 | The snapshot belongs to the user. Over well-formed records its metrics are in range. Missing maturity and mastery figures default to 0.5. |
| PersonaMemory.SnapshotMetricsOk | persona.py:589-593 | The average, the peak and the mean high-engagement ratio over well-formed records are all in range. |
| PersonaMemory.RatioInUnit | persona.py:592 | `high_engagement_count / max(post_count, 1)` with the count at most the total is in [0, 1]. |
| PersonaMemory.StrongerPeriodOrders | persona.py:585 | The sort key (average engagement, then timestamp, descending) is a total preorder. |
| PersonaMemory.PromptPeriodsAreTop | persona.py:584-586 | The prompt quotes min(3, n) records taken from the user's records, in descending order, each at least as strong as every record left out. |
| PersonaMemory.SnapshotStep | persona.py:572-747 | The snapshot rebuild never touches short- or long-term memory. It changes nothing for a user without long-term records, nor when the call raises, the reply decodes to a non-object, or a joined or `float()` field holds a value of the wrong kind. |
| PersonaMemory.CompressStep | persona.py:364-571 | A compression changes nothing below five unprocessed posts, nor when the call raises, the reply decodes to a non-object, or a joined or `float()` field holds a value of the wrong kind (the `except` at persona.py:568-571 catches the raise before any record is written). |
| PersonaMemory.RecordStep | persona.py:233-362 | Recording a post changes nothing without a language-model client, nor when the analysis call raises or decodes to a non-object. |
| PersonaMemory.ScoresOf | persona.py:378-383 | The scores of the selected entries, in order. |
| PersonaLaws.AtMostOneSnapshot | persona.py:675-740 | In well-formed memory, two snapshots of the same user are one snapshot, stored under `persona_{user}`. |
| PersonaLaws.FlippedFacts | persona.py:550-561 | Marking a batch keeps the store well formed and its ids the same. The batch entries change only their flag, to "true"; the other entries stay as they were. |
| PersonaLaws.FlippedBacklogEmpty | persona.py:550-561 | After the user's unprocessed posts are marked, the user has none left. |
| PersonaLaws.SnapshotReplaces | persona.py:675-740 | A rebuild with a usable reply stores the user's snapshot under `persona_{user}`, replacing the old one and leaving every other snapshot as it was. |
| PersonaLaws.UserRecordsOk | persona.py:578-593 | In well-formed memory, every record a rebuild reads is well formed. |
| PersonaLaws.StoredSnapshotValid | persona.py:729-740 | Deleting and re-adding a well-formed snapshot under `persona_{user}` keeps the memory well formed. |
| PersonaLaws.RebuiltKeepsValid | persona.py:578-740 | A rebuild that goes ahead keeps the memory well formed. |
| PersonaLaws.SnapshotKeepsValid | persona.py:572-747 | A snapshot rebuild keeps the memory well formed. |
| PersonaLaws.CompressConsumesBacklog | persona.py:364-564 | A compression that goes through adds the record built from the batch's scores and marks exactly the batch processed. Nothing else in short-term memory changes, and the user has no backlog left. |
| PersonaLaws.CompressRecordFigures | persona.py:372-541 | The record counts at least five posts, and its high count is the high tier. Its trend is "improving" exactly when the high tier outnumbers the low tier. Its figures are in range. |
| PersonaLaws.CompressTwice | persona.py:364-373 | Compressing again right after a compression that went through changes nothing. |
| PersonaLaws.CompressedValid | persona.py:544-561 | Adding a well-formed record and marking a batch of distinct stored posts processed keeps the memory well formed. |
| PersonaLaws.CompressedKeepsValid | persona.py:372-561 | The backlog has no repeated id and every id is stored. Adding the record built from it and marking it processed keeps the memory well formed. |
| PersonaLaws.CompressKeepsValid | persona.py:364-571 | Every compression keeps the memory well formed. |
| PersonaLaws.AddExtendsBacklog | persona.py:345-354 | Storing an unprocessed post under a new id appends it to the user's backlog. |
| PersonaLaws.RecordUnfolds | persona.py:345-357 | A recorded post is added first. The compression runs exactly when the backlog then reaches five. |
| PersonaLaws.RecordBelowTrigger | persona.py:345-357 | Below the trigger, the new post joins the backlog unprocessed and long-term memory and snapshots stay the same. |
| PersonaLaws.RecordAtTrigger | persona.py:345-357 | At the trigger, the backlog is emptied, the new post is already marked processed, and a long-term record is added. |
| PersonaLaws.RecordedKeepsValid | persona.py:319-349 | Adding an analysed post keeps the memory well formed. |
| PersonaLaws.RecordKeepsValid | persona.py:233-362 | Recording a post keeps the memory well formed. |
| Persona.OptionalLine | persona.py:114-119 | An optional achievement line is absent exactly when its value is empty, and otherwise starts with its label. |
| Persona.AchievementContent | persona.py:113-119 | The document starts with the title and description. It is only those exactly when impact, date and skills are all empty. |
| Persona.Bumped | persona.py:206-221 | Raising an item's use count keeps the same items and changes only that item's count, by one. The item moves to the end of the collection. An absent id changes nothing. |
| Persona.BumpedOk | persona.py:206-221 | Counting a use keeps a collection holding only items of its own kind. |
| Persona.Relevant | persona.py:151-165 | At most `n` results, each an item of the user stored in the collection. |
| Persona.RelevantIsComplete | persona.py:151-165 | Fewer than `n` results means every ranked item of the user was returned. |
| Persona.PersonaEvolutionSystem.UpdatePersonaSnapshot | persona.py:572-747 | The memory after the call is `SnapshotStep` of the memory before it; the feeder collections are unchanged. |
| Persona.PersonaEvolutionSystem.Replace | persona.py:729-740 | The snapshot store holds `s` under `id` in place of the old one; nothing else changes. |
| Persona.PersonaEvolutionSystem.PutSnapshot | persona.py:578-740 | Storing the snapshot rebuilt from the user's records leaves `Rebuilt` of the memory before it and keeps it well formed. |
| Persona.PersonaEvolutionSystem.MarkProcessed | persona.py:550-561 | The loop that deletes and re-adds each batch entry with its flag set leaves `Flipped(stm, batch)`. |
| Persona.PersonaEvolutionSystem.FlipOne | persona.py:551-560 | One batch entry is deleted and added again with its flag set to "true"; nothing else changes. |
| Persona.PersonaEvolutionSystem.CompressBatch | persona.py:372-561 | Adding the record for the backlog and marking it processed leaves `Compressed` of the memory before it and keeps it well formed. |
| Persona.PersonaEvolutionSystem.Commit | persona.py:544-561 | The record is added to long-term memory and the batch is marked processed; nothing else changes. |
| Persona.PersonaEvolutionSystem.CompressUserStm | persona.py:364-571 | The memory after the call is `CompressStep` of the memory before it; the feeder collections are unchanged. |
| Persona.PersonaEvolutionSystem.RecordPost | persona.py:233-362 | The memory after the call is `RecordStep` of the memory before it; the feeder collections are unchanged. |
| Persona.PersonaEvolutionSystem.AddAnalysedPost | persona.py:319-349 | The analysed post is stored unprocessed (`Recorded` of the memory before it) and the memory stays well formed. |
| Persona.PersonaEvolutionSystem.EngagementInsights | persona.py:749-767 | No insights exactly when the user has no stored posts. Otherwise the total is the user's post count and 0.1 ≤ average ≤ peak ≤ 1.0. |
| Persona.PersonaEvolutionSystem.AddUserContext | persona.py:59-80 | Returns `context_{user}_{seconds}` and adds the item with use count 0 under that id; nothing else changes. |
| Persona.PersonaEvolutionSystem.AddCompanyInfo | persona.py:82-104 | Returns `company_{user}_{seconds}` and adds the item under that id; nothing else changes. |
| Persona.PersonaEvolutionSystem.AddUserAchievement | persona.py:106-138 | Returns `achievement_{user}_{seconds}` and adds the achievement with its composed document under that id; nothing else changes. |
| Persona.PersonaEvolutionSystem.UpdateContextUsage | persona.py:206-221 | Only the named collection changes, to `Bumped` of it. |
| Persona.PersonaEvolutionSystem.GetRelevantContext | persona.py:140-204 | Up to `n` items of the right kind per section, all of the user. A failing query leaves its section and the later ones empty, as the shared `try` does. |
| Calendar.TopicsOfProfile | app2.py:657-672 | The topic list has no duplicates. For an active user with a LinkedIn profile it holds exactly that profile's topics of interest and categories; otherwise exactly the reference categories. |
| Calendar.UniqueProps | app2.py:672-680 | Order-preserving de-duplication: no repeats, the same members, and the order of first occurrences. |
| Calendar.UserTopics | app2.py:655-680 | The loop with its `seen` set returns the de-duplicated candidate list. |
| Calendar.ChosenTypesMix | app2.py:887-892 | The mix is empty exactly when the user chose an empty list of post types. Without a choice it is the seven distinct default types, all of them known post types. |
| Calendar.Shuffle | app2.py:908 | The shuffle is a permutation. |
| Calendar.Balanced | app2.py:895-901 | `len(types) * per_type` entries, only chosen types, each at least `per_type` times. |
| Calendar.Padded | app2.py:903-905 | `count` more entries, each a chosen type, keeping the existing ones. |
| Calendar.Rotation | app2.py:876-910 | Fails exactly when no type is chosen (a division by zero). Otherwise it has `num_posts` entries, all chosen types, each type at least `num_posts // len(types)` times. |
| Calendar.WeekdayNumber | app2.py:1240-1243 | A name has a number exactly when it is one of Monday … Sunday, and the number is its position in that week (Monday 0 … Sunday 6). |
| Calendar.TargetWeekdays | app2.py:1245 | Fails exactly when some posting day is not a weekday name (a `KeyError`); otherwise one number per name. |
| Calendar.CellOfRow | app2.py:1248-1255 | A calendar row holds seven consecutive weekdays starting at Monday. |
| Calendar.PostingDays | app2.py:1237-1262 | The loop over the month returns the chosen days up to the month's end. |
| Calendar.ChosenMembers | app2.py:1251-1260 | A day is chosen exactly when it falls in the month and qualifies while its week's quota is not yet full. |
| Calendar.ChosenIncreasing | app2.py:1251-1260 | The posting days are strictly increasing. |
| Calendar.AtMostPerWeek | app2.py:1251-1260 | No calendar week gets more than `posts_per_week` posting days. |
| Calendar.SkippedOnlyWhenFull | app2.py:1257-1260 | A day on a target weekday is skipped only when its week already has `posts_per_week` posting days. |
| Calendar.DateKeyInMonth | app2.py:1192 | A date key starts with the month prefix `YYYY-MM` exactly when it is a key of that year and month. |
| Calendar.DayOfDateKey | app2.py:924 | Reading the third part of a date key gives back its day. |
| Calendar.WithoutMonth | app2.py:1515-1518 | The cache without the keys of one month; every other entry is kept unchanged. |
| Calendar.ClearingDropsOnlyTheMonth | app2.py:1515-1518 | Clearing a month removes a date's cached content exactly when the date is in that month. |
| Calendar.SortedDays | app2.py:915 | `sorted(posting_dates)`: a sorted permutation of the days. |
| Calendar.IndexIn | app2.py:925 | `list.index`: the first position of the day, or none when it is absent (a `ValueError`). |
| Calendar.SlotOf | app2.py:923-926 | A date's slot is a valid position in the posting days. |
| Calendar.CalendarSession.PostTypeForDate | app2.py:912-934 | The rotation is regenerated when empty or of the wrong length; the result is none exactly when that regeneration fails. A date in the posting days gets its slot's type; any other date gets one of the twelve fallback types. |
| Calendar.CalendarSession.ApplyNewType | app2.py:1373-1389 | A key without a day number raises before anything changes. Otherwise only the date's slot of the rotation changes, to the new type, and the content generated for the date is written into its cache entry; a date that is not a posting day, or a slot beyond the rotation, leaves the rotation unchanged. |
| Calendar.CalendarSession.ClearMonth | app2.py:4088-4091 | The loop over the collected keys leaves the cache without exactly that month's keys. |
| Calendar.CalendarSession.RegenerateDistribution | app2.py:1512-1522 | The month's cached content is cleared. Without a profile the rotation is emptied. With one, a new rotation is generated from the chosen post types: one type per posting day, each type at least its fair share; it fails exactly when no types are chosen. |
| Wizard.AddOutcomeOf | app2.py:2167-2197 | The four outcomes of the form, each as an if-and-only-if. A blank name or URL is a missing field. A URL without `linkedin.com/in/` is rejected. A stripped URL already listed is a duplicate. An accepted entry keeps the marker once stripped. |
| Wizard.CustomCreators.Add | app2.py:2167-2197 | The outcome is `AddOutcomeOf`. The list grows by the stripped new entry exactly when it was added. Names stay non-empty, URLs carry the marker and no URL is listed twice. |
| Wizard.Initials | app2.py:3208-3216 | "??" exactly for a name without words. Two or more words give the upper-cased first letters of the first two words; one word gives its first two letters upper-cased, or its one letter. |
| Wizard.InitialsOfName | app2.py:3208-3216 | The initials start with the name's first non-blank character, upper-cased; a blank name gets "??". |
| Wizard.StepCounter.NextStep | app2.py:3004-3006 | The step goes up by one. |
| Wizard.StepCounter.PrevStep | app2.py:3008-3011 | The step goes down by one but never below 1. |
| Wizard.Step1 | app2.py:3013-3019 | Passes exactly when name, role and goal are not blank and both yes/no questions are answered. |
| Wizard.HasPreferences | app2.py:3029-3035 | True exactly when some reference creator has a tone, content-type or style preference. |
| Wizard.Step2a | app2.py:3021-3040 | Passes exactly when all of these hold: the URL and likes are not blank; style, goals, topics and reference creators are non-empty; some reference creator has a preference. |
| Wizard.Step2b | app2.py:3042-3056 | Passes exactly when there is some creator, the likes are not blank and some reference creator has a preference. So it never passes with custom creators alone. |
| Wizard.Step3Plan | app2.py:3058-3063 | Once step 3 passes, the saved post types give a non-empty rotation mix and the posting days give a non-empty set of target weekdays. |
| Scraper.ActivityUrl | linkedin_scraper.py:160-164 | The opened URL always names the activity page. A URL already on it is kept. Any other URL is extended by `recent-activity/all/`, after a `/` only when the URL does not already end in one. |
| Scraper.FallbackUrl | linkedin_scraper.py:181-182 | The fallback ends with the posts-feed path. |
| Scraper.FallbackOfActivityUrl | linkedin_scraper.py:160-182 | For a URL not on the activity page, the fallback is the URL without trailing slashes plus `/posts/?feedView=all`. |
| Scraper.ProfileId | linkedin_scraper.py:245-254 | The identifier is a single path segment, with no slash. |
| Scraper.ProfileIdNone | linkedin_scraper.py:245-254 | A URL names no profile exactly when it has neither `/in/` nor `/company/`. |
| Scraper.ProfileIdOfActivityUrl | linkedin_scraper.py:160-164 | Moving a profile URL with a non-empty slug to its activity page keeps the profile it names. |
| Scraper.IsRedirect | linkedin_scraper.py:239-338 | Another profile is always a redirect. A single-post page is not. The same profile on a posts page is not. Otherwise it is a redirect exactly when the lower-cased URL holds a redirect fragment, or when it has left the posts pages for a page that is no post update, profile or company. |
| Scraper.ActivityPageIsNoRedirect | linkedin_scraper.py:160-164 | Arriving on the activity page of the profile asked for is never a redirect. |
| Scraper.OriginalPostMeans | linkedin_scraper.py:708-743 | A post is original exactly when no activity word leads its lower-cased text and some content element has non-blank text. |
| Scraper.Longest | linkedin_scraper.py:757-763 | The kept text is at least as long as the initial one and as every stripped element text. |
| Scraper.LongestIsOneOf | linkedin_scraper.py:757-763 | The kept text is the initial one or one of the stripped element texts. |
| Scraper.LongestIsEmpty | linkedin_scraper.py:757-766 | No text is found exactly when every element text is blank. |
| Scraper.LongestText | linkedin_scraper.py:757-763 | The selector loop returns the longest stripped text. |
| Scraper.PostTextSource | linkedin_scraper.py:745-789 | The post text is empty only when every element and the script text are blank. With a non-blank element it is the longest stripped element text; otherwise it is the stripped script text. |
| Scraper.PostText | linkedin_scraper.py:757-789 | The method computes the post text defined by the element and script texts. |
| Scraper.KeptPostsExactly | linkedin_scraper.py:463-486 | Every kept post carries the profile name and category, has unseen text with at least 10 non-blank characters, and comes from a kept container. Every kept container yields a post. |
| Scraper.CurrentPostsExactly | linkedin_scraper.py:442-493 | The same facts stated over the page's containers: every post comes from an original container. |
| Scraper.ExtractCurrentPosts | linkedin_scraper.py:442-493 | The loop over the containers returns `CurrentPosts`. |
| Scraper.Absorb | linkedin_scraper.py:381-386 | Absorbing a batch keeps the posts already accumulated as a prefix. |
| Scraper.Scroll | linkedin_scraper.py:363-412 | The accumulation only grows. Stopping at the target means at least `max_posts` posts; still scrolling means fewer. |
| Scraper.ScrapedPosts | linkedin_scraper.py:340-440 | The accumulated texts are pairwise distinct and every post is well formed. A redirect at the first check returns no posts. |
| Scraper.PostIdInjective | linkedin_scraper.py:949 | `post_{n}_{session}` ids of different numbers or sessions differ. |
| Scraper.SaveRows | linkedin_scraper.py:938-949 | One row per post, numbered from the collection's count. |
| Scraper.SaveIdsFresh | linkedin_scraper.py:930-949 | The new ids are pairwise distinct and none reuses a number below the collection's count. |
| Scraper.AddRows | linkedin_scraper.py:952-957 | Adding the rows keeps every stored row and adds exactly their ids. |
| Scraper.AddRowsStores | linkedin_scraper.py:952-957 | With distinct new ids, every row is stored as given. |
| Scraper.LinkedInScraper.AbsorbBatch | linkedin_scraper.py:381-386 | The loop appends each unseen text's post once and records it as seen. |
| Scraper.LinkedInScraper.ScrollAndExtract | linkedin_scraper.py:340-440 | The returned posts are the accumulated posts and equal `Scraped` of the page contents; the collection is untouched. |
| Scraper.LinkedInScraper.SavePosts | linkedin_scraper.py:914-963 | Saves exactly when there are posts; the collection becomes the old one plus the numbered rows. |

## Left out

- Browser automation is not modelled: logging in, waiting, scrolling the
  window, screenshots, `expand_all_see_more` and `expand_see_more_in_post`.
  The page contents they produce are inputs.
- Scraper.IsRedirect: the navigation back from a single-post page is I/O. Only
  its verdict (no redirect) is modelled.
- Scraper.PostText: the JavaScript fallback enters as a given text, and the
  two regular-expression cleanups of the text are not modelled (the kept text
  is the longest stripped element text).
- Scraper.ExtractCurrentPosts: the order in which the three container
  selectors are tried is not modelled (the containers found are given), and
  neither are per-element exceptions.
- Scraper.LinkedInScraper.SavePosts: a failing `count()` (which the source
  turns into 0) is not modelled; the count is the number of stored ids. The
  embeddings are not modelled, and one clock reading serves all posts of a
  call.
- Persona: every Streamlit message (`st.error`, `st.success`) and the rendered
  document texts of long-term records and snapshots are left out. Only their
  metadata is modelled.
- Persona: the language-model prompts are left out, and the reply is a
  parameter.
- Persona: the prompt text itself is left out; which records it quotes
  (`PromptPeriods`) is modelled.
- Persona.PersonaEvolutionSystem.constructor: the collections start empty.
  Opening an existing on-disk Chroma database and the embedding model are
  not modelled.
- Persona.PersonaEvolutionSystem.GetRelevantContext: the similarity ranking of
  a query is a parameter. Chroma's errors for `n_results` larger than the
  collection are not modelled. The `tags` and `skills_used` JSON fields are
  kept as lists.
- LlmJson: decoding JSON text is a parameter of the model. The decoder
  gives each field as its reader converts it: the `str()` of a field read as
  text, the `float()` of a field read as a number (so `"0.9"` gives 0.9), and
  the set of fields whose conversion raises.
- PersonaMemory.NewStmEntry: list fields are kept as lists rather than as
  their `json.dumps` text, so a field that is not a list, whose JSON text the
  source stores (`"Question"` as `"\"Question\""`), is modelled as the
  empty list.
- PersonaMemory.NewLtmEntry: a text value in a list field is joined character
  by character in the source's document and stored as its JSON text; the
  model, which leaves the document out, stores the empty list.
- LlmJson.ObjectOf: the source's fence regular expression is modelled by its
  effect on fences; the model gives no general regular-expression semantics.
- Text: upper case and lower case are ASCII only; there is no Unicode case
  mapping. (Whitespace is Python's whole `str.isspace` set.)
- Text: `int()` is modelled only on strings of decimal digits.
- Engagement: numbers are exact reals, not floating point. The formatting of
  figures in prompts (`:.2f`) is left out.
- Calendar: `random.choice` and `random.shuffle` are nondeterministic choices
  that keep only what the source guarantees (membership, permutation).
- Calendar: `calendar.monthcalendar` is modelled by the weekday of the first
  day and the month's length, which are inputs.
- Calendar.DateKeyInMonth: assumes months below 100, because the prefix of a
  three-digit month would not be two characters.
- Calendar: the MongoDB saving of the content cache and the generation of
  content for a day are left out.
- Persona.PersonaEvolutionSystem.RecordPost: one clock reading serves the
  short-term id and timestamp, the long-term id and timestamp and the
  snapshot timestamp; the source reads `datetime.now()` at each of them.
- Calendar.CalendarSession.ApplyNewType: the language-model call that writes
  the new content is an input; the content it returns is a parameter.
- Calendar.CalendarSession.RegenerateDistribution: after the new rotation, the
  source generates content for every posting day (one language-model call per
  day, written into the cache) and saves to MongoDB; the model stops at the
  new rotation, so the cache keeps the cleared month.
- Wizard: the widgets that fill the session are left out; the onboarding
  answers are a record.
- Concurrency between Streamlit reruns is not modelled.
