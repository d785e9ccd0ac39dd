# A verified model of the tours.batumi story pipeline

The modelled system produces Instagram stories about Batumi and Georgia.
It picks a topic off cooldown, finds photos and music for it, composes a
video with ffmpeg, and cleans and checks the language model's JSON
answers. A moderator then approves, edits or rejects the story in
Telegram, and a scheduler publishes approved content through the
Instagram Graph API. This project models the decision logic of that
pipeline in Dafny and proves what each piece promises. The modelled
files are the composer, text generator, content history, media manager,
topic selector, image searcher, publisher, moderation bot, scheduler
and the font and meme catalogs. The network, the encoder, the file system
and the chat client around that logic become oracles: their answers are
parameters of the operations that use them.

One Dafny module is written per source file:

| module | file | form |
|---|---|---|
| `VideoComposer` | `video_composer.dfy` | argument lists as functions; `ComposeStory` and `RunEncoder` as methods over encoder outcomes |
| `TextGenerator` | `text_generator.dfy` | the reply cleaner as a method with its depth-counting loop; the validator as a function over a JSON datatype |
| `ContentHistory` | `content_history.dfy` | class `History` with the publication list and the three last-used maps |
| `MediaManager` | `media_manager.dfy` | class `MediaManager` whose scans fill the three caches; lookups as functions |
| `TopicSelector` | `topic_selector.dfy` | the flattening and filtering loops as methods; lookups as functions |
| `ImageSearcher` | `image_searcher.dfy` | keyword extraction as functions; deduplication and attempt loops as methods |
| `Publisher` | `publisher.dfy` | the polling loop and the series loop as methods over oracle answers |
| `TelegramBot` | `telegram_bot.dfy` | class `ModerationBot` over the `_pending`, `_editing` and `_pending_series` maps |
| `Scheduler` | `scheduler.dfy` | class `ContentScheduler` and the publishing callback over the history |
| `Fonts`, `Memes` | `fonts.dfy`, `memes.dfy` | the constant tables and their lookups |
| `Builtins`, `Dicts` | `builtins.dfy`, `dicts.dfy` | CPython's `strip`, `split`, `join`, `find`, `lower`, `str(int)` and insertion-ordered dictionaries |

Conventions used throughout:
- Dates are integer day numbers.
- The scheduler's clock is in microseconds.
- A dictionary whose iteration order matters is an association list that keeps the insertion order.
- `random.choice` and `random.randint` are a free choice (`:|`) among the allowed values.

## Model

| member | source | states |
|---|---|---|
| ContentHistory.AvailableAfterUse | src/modules/content_history.py:117-128 | after a use on day `d`, the key is available on `today` exactly when `today - d` reaches the cooldown |
| ContentHistory.AvailableOtherKey | src/modules/content_history.py:226-228 | recording a use of one key leaves the availability of every other key unchanged |
| ContentHistory.AvailableLater | src/modules/content_history.py:121-124 | a key available on one day stays available on every later day |
| ContentHistory.PreviewLines | src/modules/content_history.py:291-294 | one preview line per text, numbered from 1 in list order |
| ContentHistory.SeriesPreviewLines | src/modules/content_history.py:290-294 | the series preview splits into the header `[Series: n stories]` followed by exactly one numbered line per story |
| ContentHistory.PreviewLineCut | src/modules/content_history.py:292 | each line starts with `#n: `; a text of at most 50 characters is kept whole, a longer one is cut to 50 and ends with `...` |
| ContentHistory.IndicesWithStatus | src/modules/content_history.py:325 | the ascending indices of exactly the publications with the given status |
| ContentHistory.History.constructor | src/modules/content_history.py:44-53 | an empty history with the given cooldowns and no tracked use |
| ContentHistory.History.GetAvailableSubtopics | src/modules/content_history.py:163-178 | an order-preserving subsequence holding exactly the listed subtopics not on cooldown |
| ContentHistory.History.RecordedSubtopicCooldown | src/modules/content_history.py:103-124 | in a valid history a recorded publication's subtopic is stamped, so it is available exactly when the cooldown has passed since its stamp |
| ContentHistory.History.RecordPublication | src/modules/content_history.py:180-234 | appends the new publication with the given date and status and no Instagram id, stamps its subtopic, photo and music with that date, and the subtopic is then on cooldown iff the cooldown is positive |
| ContentHistory.History.UpdatePublicationStatus | src/modules/content_history.py:236-256 | sets the status of that one publication, replaces its Instagram id only when a non-empty one is given, and changes nothing else |
| ContentHistory.History.RecordStorySeries | src/modules/content_history.py:258-321 | appends one `story_series` publication holding the first photo (or `""`) and the preview text, and stamps the subtopic, the music and every photo of the series with the date |
| ContentHistory.History.GetPendingPublications | src/modules/content_history.py:323-325 | the ascending indices of exactly the `pending` publications |
| ContentHistory.History.GetStats | src/modules/content_history.py:327-347 | the total, the counts by status, type and category, and the sizes of the three tracking maps; in a valid history with publications the subtopic and music maps are not empty |
| ContentHistory.StatsSumToTotal | src/modules/content_history.py:329-337 | the counts by status, by type and by category each add up to the total |
| ContentHistory.StatusTallyKeys | src/modules/content_history.py:334-335 | a status appears in the count by status iff some publication has it |
| MediaManager.NormalizedShape | src/modules/media_manager.py:161-168 | a normalized name has no surrounding white space and is already lower case |
| MediaManager.NormalizeIdempotent | src/modules/media_manager.py:161-168 | normalizing twice changes nothing more |
| MediaManager.SubtopicKeyParts | src/modules/media_manager.py:114-329 | splitting a subtopic key at its first `/` gives back the normalized category and the normalized subtopic |
| MediaManager.NormalizeNoSlash | src/modules/media_manager.py:168 | normalizing adds no `/` |
| MediaManager.FolderKeys | src/modules/media_manager.py:94-95 | the normalized name of each scanned folder |
| MediaManager.ScanStep | src/modules/media_manager.py:90-133 | one folder of the scan: a non-folder is skipped; a folder records its name mapping, adds its subtopic lists, and adds its category list when that is non-empty |
| MediaManager.MusicFiles | src/modules/media_manager.py:147-157 | exactly the music files of the tree, each with its parent folder as category (none at the root) |
| MediaManager.DistinctGoodKeys | src/modules/media_manager.py:90-96 | folders with distinct names give slash-free keys that are distinct among folders |
| MediaManager.SubtopicPutStep | src/modules/media_manager.py:109-128 | one subtopic folder touches only keys of its category and stores a non-empty list drawn from the category's photos |
| MediaManager.SubtopicPutsFrom | src/modules/media_manager.py:109-128 | the same holds across the remaining subtopic folders |
| MediaManager.SubtopicPutsEffect | src/modules/media_manager.py:109-128 | the subtopic loop of one category touches only that category's keys, and each stored list is non-empty and made of the category's photos |
| MediaManager.CoveredStep | src/modules/media_manager.py:123-132 | adding one category keeps every subtopic list inside its category's list |
| MediaManager.KeyIsNew | src/modules/media_manager.py:90-96 | a folder's key is not among the keys of earlier folders |
| MediaManager.CategoryCovers | src/modules/media_manager.py:98-133 | scanning one category keeps every subtopic list inside its category's list |
| MediaManager.ScanCoversStep | src/modules/media_manager.py:90-133 | one more folder keeps the scan invariant |
| MediaManager.ScanCoversFrom | src/modules/media_manager.py:90-133 | the invariant holds through the end of the scan |
| MediaManager.ScanCovers | src/modules/media_manager.py:117-132 | after the scan, every subtopic photo is also in its category's cached list |
| MediaManager.CachedStep | src/modules/media_manager.py:131-132 | caching another folder under another key leaves a category's list in place |
| MediaManager.CachedNext | src/modules/media_manager.py:131-132 | scanning folder `i` caches it and keeps the earlier categories cached |
| MediaManager.AllCachedStep | src/modules/media_manager.py:90-133 | one more folder keeps every scanned category cached |
| MediaManager.AllCachedFrom | src/modules/media_manager.py:90-133 | every category stays cached through the end of the scan |
| MediaManager.ScanCachesCategories | src/modules/media_manager.py:98-132 | every category folder with photos is cached under its key with all its direct and subtopic photos |
| MediaManager.ScanRootCovers | src/modules/media_manager.py:79-136 | the cache invariant: a missing root leaves the caches empty; otherwise each subtopic list lies inside its category list, and each category with photos is cached with all of them |
| MediaManager.ScanNameClash | src/modules/media_manager.py:94-132 | two category folders whose names normalize alike break the cache invariant: the second replaces the category list and the first's subtopic photo is left outside it |
| MediaManager.BatumiNamesClash | src/modules/media_manager.py:161-168 | `Batumi` and `batumi` normalize to the same key `batumi` |
| MediaManager.CategoryMatch | src/modules/media_manager.py:205-224 | the exact normalized name wins whenever it is a key |
| MediaManager.FindPhotosForCategory | src/modules/media_manager.py:185-224 | the exact normalized name's list when it is a key; otherwise the list of some key, or nothing |
| MediaManager.FindCategoryById | src/modules/media_manager.py:210-214 | without an exact match, the first key matching the normalized id either way round gives the photos |
| MediaManager.FindCategoryByWord | src/modules/media_manager.py:216-221 | without an exact or id match, the first key containing a word of the name longer than three characters gives the photos |
| MediaManager.CategoryMatchNone | src/modules/media_manager.py:205-224 | no match iff the exact, the id and the word rules all fail |
| MediaManager.FindCategoryNothing | src/modules/media_manager.py:223-224 | with non-empty cached lists, the result is empty iff no rule matches |
| MediaManager.FindPhotosForSubtopic | src/modules/media_manager.py:303-334 | the exact `category/subtopic` key's list when present; otherwise some key's list, or nothing |
| MediaManager.FindSubtopicPartial | src/modules/media_manager.py:326-332 | without an exact key, the first key of the category whose subtopic part contains, or is contained in, the subtopic gives the photos |
| MediaManager.SubtopicMatchesKey | src/modules/media_manager.py:328-331 | for a key built by the scan, the partial rule compares the two normalized subtopics both ways |
| MediaManager.KeepIfAny | src/modules/media_manager.py:277-294 | a filter's result replaces the pool only when non-empty, so a non-empty pool never becomes empty |
| MediaManager.PhotoPoolWithin | src/modules/media_manager.py:276-294 | the filtered pool is drawn from the base pool, and is empty only when the base pool is |
| MediaManager.PhotoPoolAvoidsExcluded | src/modules/media_manager.py:277-283 | when some base photo is not excluded, no photo of the final pool is excluded |
| MediaManager.PhotoPoolPrefersAvailable | src/modules/media_manager.py:285-294 | when some base photo is neither excluded nor on cooldown, every photo of the final pool is both |
| MediaManager.BasePhotoPoolEmpty | src/modules/media_manager.py:252-274 | the base pool is empty only when the whole library is, and with no photo at all it is empty |
| MediaManager.MusicLabels | src/modules/media_manager.py:391-393 | each track's category, `root` for tracks at the top |
| MediaManager.MusicPoolWithin | src/modules/media_manager.py:351-372 | the music pool is drawn from the tracks, and is empty only when there are no tracks |
| MediaManager.MusicPoolKeepsCategory | src/modules/media_manager.py:358-361 | when some track has the requested category, every pooled track has it |
| MediaManager.MusicPoolPrefersAvailable | src/modules/media_manager.py:364-372 | when some track is off cooldown, every pooled track is |
| MediaManager.PhotoCounts | src/modules/media_manager.py:386-388 | the photo count of each category, in cache order |
| MediaManager.SumValuesSnoc | src/modules/media_manager.py:397 | adding an entry adds its count to the sum |
| MediaManager.PhotoTotal | src/modules/media_manager.py:397 | the counts add up to the number of cached category photos |
| MediaManager.MediaManager.constructor | src/modules/media_manager.py:48-77 | the caches are those the photo and music scans compute |
| MediaManager.MediaManager.ScanPhotos | src/modules/media_manager.py:79-136 | clears and refills the photo caches and the name mapping as the scan defines them, and leaves the music cache alone |
| MediaManager.MediaManager.ScanMusic | src/modules/media_manager.py:138-159 | refills the music cache with the tree's music files and leaves the photo caches alone |
| MediaManager.MediaManager.ScanFolderList | src/modules/media_manager.py:90-133 | the loop over the photo root produces exactly the three caches the scan defines over all its items |
| MediaManager.MediaManager.ScanItem | src/modules/media_manager.py:90-133 | scanning item `i` takes the caches of the first `i` items to those of the first `i + 1` |
| MediaManager.MediaManager.ScanCategory | src/modules/media_manager.py:94-132 | a category folder records its name mapping, adds each subtopic list under its key, and is cached with its direct and subtopic photos only when it has any |
| MediaManager.MediaManager.ScanSubtopics | src/modules/media_manager.py:109-128 | the subtopic loop stores each subtopic's photos under its key and appends them, in folder order, after the category's direct photos |
| MediaManager.MediaManager.ScanSubtopicItem | src/modules/media_manager.py:109-128 | one round of the subtopic loop extends both the subtopic cache and the category list by child `j` |
| MediaManager.MediaManager.ScanSubtopicFolder | src/modules/media_manager.py:109-128 | a subtopic folder appends its photos to the category list and stores them under its key when there are any; any other child changes nothing |
| MediaManager.MediaManager.CollectDirect | src/modules/media_manager.py:100-107 | exactly the photo files lying directly in the category folder, in folder order |
| MediaManager.MediaManager.CollectSubtopic | src/modules/media_manager.py:116-126 | exactly the entries of one subtopic folder that have a photo suffix, whether files or not, in folder order |
| MediaManager.MediaManager.FilterPhotos | src/modules/media_manager.py:276-294 | the filters only narrow the pool and empty it only when it was empty; if some photo is not excluded, no excluded photo remains; with the cooldown check on, if some photo is neither excluded nor on cooldown, every remaining photo is neither |
| MediaManager.MediaManager.SelectPhoto | src/modules/media_manager.py:226-301 | None iff the subtopic, category and library fallbacks are all empty; otherwise a photo of the filtered pool |
| MediaManager.MediaManager.SelectMusic | src/modules/media_manager.py:336-377 | None iff there are no tracks; otherwise a track of the filtered pool |
| MediaManager.MediaManager.GetStats | src/modules/media_manager.py:384-404 | per-category photo counts summing to the photo total, and per-category track counts summing to the number of tracks |
| TopicSelector.CategoryTopics | src/modules/topic_selector.py:133-134 | the first `j` triples of one category, each carrying its id, name and the subtopic at that position |
| TopicSelector.FlattenedLength | src/modules/topic_selector.py:122-135 | the flat list holds one triple per subtopic of every category |
| TopicSelector.FlattenedSplit | src/modules/topic_selector.py:130-134 | the flat list of the categories is the flat list of a prefix followed by that of the rest |
| TopicSelector.FlattenedComplete | src/modules/topic_selector.py:130-134 | every subtopic of every category appears as a triple of the flat list |
| TopicSelector.FlattenedSound | src/modules/topic_selector.py:130-134 | every triple of the flat list comes from a category and one of its subtopics |
| TopicSelector.GetAllSubtopics | src/modules/topic_selector.py:122-135 | the nested loop builds exactly the flat list |
| TopicSelector.AvailableTopics | src/modules/topic_selector.py:147-163 | an order-preserving subsequence of the flat list holding exactly the triples off cooldown and, when asked, with photos |
| TopicSelector.NoPhotosFolderNoPhotoFilter | src/modules/topic_selector.py:85-156 | without a photos folder, asking for the photo check changes nothing |
| TopicSelector.AvailableSnoc | src/modules/topic_selector.py:150-160 | one loop step keeps the triple exactly when it passes both checks |
| TopicSelector.AvailableStep | src/modules/topic_selector.py:150-160 | the loop body extends the available list exactly as one step of the filter |
| TopicSelector.GetAvailableSubtopics | src/modules/topic_selector.py:137-163 | the loop returns exactly the available triples |
| TopicSelector.CandidatesMembers | src/modules/topic_selector.py:182-196 | a triple is a candidate iff it is in the flat list, is off cooldown when the cooldown is checked, and has photos when photos are checked |
| TopicSelector.CandidatesInOrder | src/modules/topic_selector.py:182-196 | the candidates keep the order of the flat list |
| TopicSelector.InCategory | src/modules/topic_selector.py:203-204 | with a non-empty category id, exactly the candidates of that category; otherwise all candidates |
| TopicSelector.SelectCandidates | src/modules/topic_selector.py:182-196 | the candidate branches compute the candidates described above |
| TopicSelector.SelectRandom | src/modules/topic_selector.py:165-219 | None exactly when the filtered pool is empty; otherwise a member of the pool |
| TopicSelector.PoolWithin | src/modules/topic_selector.py:198-210 | a selected triple is a known one and belongs to the requested category |
| TopicSelector.FirstNamed | src/modules/topic_selector.py:232-233 | the first category whose name matches ignoring case, or -1 when none does |
| TopicSelector.SelectForCategory | src/modules/topic_selector.py:221-237 | None when no name matches; otherwise the answer of `select_random` for the first matching category's id |
| TopicSelector.FirstMatchingFound | src/modules/topic_selector.py:251-265 | the search finds nothing iff no subtopic has the key; a found triple has the key |
| TopicSelector.FirstMatchingIsFirst | src/modules/topic_selector.py:253-262 | the search returns the earliest triple with the key |
| TopicSelector.FirstMatchingAppend | src/modules/topic_selector.py:253-262 | a prefix with no match does not change the answer |
| TopicSelector.FirstMatchingPrefix | src/modules/topic_selector.py:253-262 | a match in a prefix is the answer whatever follows |
| TopicSelector.CategoryFirstMatch | src/modules/topic_selector.py:254-262 | the first matching subtopic of a category is the category's answer |
| TopicSelector.FirstMatchAt | src/modules/topic_selector.py:253-262 | the first match in category `i` at subtopic `j`, with none earlier, is the overall answer |
| TopicSelector.SearchCategory | src/modules/topic_selector.py:254-255 | the inner loop finds the first subtopic of the category with the key, or -1 when there is none |
| TopicSelector.NoMatchThrough | src/modules/topic_selector.py:253-255 | no match in the first `i` categories nor in category `i` means no match in the first `i+1` |
| TopicSelector.SelectSpecific | src/modules/topic_selector.py:239-265 | the first triple, in category then subtopic order, whose lowered and stripped subtopic equals the lowered and stripped request |
| TopicSelector.CategoriesList | src/modules/topic_selector.py:267-272 | one summary per category, in order, with its id, its name and the number of its subtopics |
| TopicSelector.CategoriesListTotal | src/modules/topic_selector.py:267-272 | the summaries' subtopic counts add up to the number of triples of the flat list |
| TopicSelector.ByCategoryGet | src/modules/topic_selector.py:279-286 | a category whose name no later category repeats keeps its own entry of total and available |
| TopicSelector.GetStats | src/modules/topic_selector.py:274-293 | the category and subtopic totals, the available count (never above the total) and the per-name table |
| ImageSearcher.Capitalize | src/modules/image_searcher.py:39 | `str.capitalize`: the first character upper-cased, the rest lower-cased, length kept |
| ImageSearcher.AttributionNamesProvider | src/modules/image_searcher.py:36-39 | the attribution reads `Photo by <author> on <Source>`: `Unsplash` and `Pexels` for the two providers |
| ImageSearcher.Punctuation | src/modules/image_searcher.py:286 | every character that is neither a word character nor white space becomes a space; the others are kept |
| ImageSearcher.WordsKeep | src/modules/image_searcher.py:287 | splitting on white space keeps a property every non-space character has in every word |
| ImageSearcher.ExtractKeywordsRoundTrip | src/modules/image_searcher.py:287-293 | splitting the returned string gives back exactly the first `max_words` keywords |
| ImageSearcher.CleanedChars | src/modules/image_searcher.py:286 | after lowering and blanking punctuation, every non-space character is a lower-case word character |
| ImageSearcher.KeywordShape | src/modules/image_searcher.py:286-290 | a keyword is not a stop word, is longer than two characters and is made of lower-case word characters |
| ImageSearcher.ExtractedKeywordShape | src/modules/image_searcher.py:264-293 | every word of the result is a lower-case, punctuation-free word of more than two characters that is not a stop word |
| ImageSearcher.DedupFromDistinct | src/modules/image_searcher.py:334-340 | the kept queries are pairwise distinct ignoring case, and none was seen before |
| ImageSearcher.DedupFromSound | src/modules/image_searcher.py:336-340 | every kept query is a non-empty stripped input query |
| ImageSearcher.DedupFromComplete | src/modules/image_searcher.py:336-340 | every non-empty input query not seen before is kept, ignoring case |
| ImageSearcher.DedupFromLength | src/modules/image_searcher.py:336-340 | at most one query is kept per input query |
| ImageSearcher.DedupPrefix | src/modules/image_searcher.py:333-342 | the plan is case-distinct, made of stripped non-empty input queries, and at most `max_attempts` long |
| ImageSearcher.DedupPrefixDistinct | src/modules/image_searcher.py:342 | cutting the deduplicated list keeps it case-distinct |
| ImageSearcher.DedupPrefixFrom | src/modules/image_searcher.py:342 | cutting the deduplicated list keeps only stripped input queries |
| ImageSearcher.UniqueQueries | src/modules/image_searcher.py:333-342 | the dedup loop and the cut yield the plan: case-distinct, drawn from the input, at most `max_attempts` queries |
| ImageSearcher.DedupKeepsEveryQuery | src/modules/image_searcher.py:336-340 | every non-empty input query is represented, ignoring case, in the deduplicated list |
| ImageSearcher.DescriptionPlanOrder | src/modules/image_searcher.py:319-342 | non-blank English keywords are tried first when any attempt is allowed; at most five queries survive deduplication, at most three without English keywords; the location is among the deduplicated queries, and stays in the plan whenever `max_attempts` keeps them all |
| ImageSearcher.Search | src/modules/image_searcher.py:79-119 | Unsplash's results when its key is set and it returned some; otherwise Pexels' under the same condition; empty iff neither did |
| ImageSearcher.SearchAndDownload | src/modules/image_searcher.py:240-262 | no image iff the search was empty; otherwise the download outcome of the first result |
| ImageSearcher.TryQueries | src/modules/image_searcher.py:344-360 | the first saved image, preceded only by empty searches; or the error of the first download that raised; or nothing iff every search was empty |
| ImageSearcher.SearchByDescription | src/modules/image_searcher.py:295-360 | the first-success outcome over the deduplicated, cut plan |
| ImageSearcher.SearchForTopic | src/modules/image_searcher.py:362-401 | the first-success outcome over the first `max_attempts` of the six fixed queries; nothing when `max_attempts` is 0 |
| TextGenerator.FenceCandidateSlice | src/modules/text_generator.py:70-72 | a fenced part, stripped and with a leading `json` tag dropped, is a contiguous piece of the part |
| TextGenerator.FirstJsonFrom | src/modules/text_generator.py:69-76 | the first part, from a position on, whose candidate opens with `{` or `[`, or -1 when none does |
| TextGenerator.FirstJsonPart | src/modules/text_generator.py:69-76 | the first fenced part whose candidate opens JSON, or -1 when none does |
| TextGenerator.JsonStart | src/modules/text_generator.py:79-94 | the first `{` or `[` of the text, whichever comes first, or -1 iff neither occurs |
| TextGenerator.CloseFrom | src/modules/text_generator.py:99-107 | the first position, from a start on, where the bracket depth returns to zero on a closing bracket, or -1 |
| TextGenerator.CloseIndex | src/modules/text_generator.py:99-107 | the first position where the depth counter returns to zero on a closing bracket, or -1 |
| TextGenerator.CutAtClose | src/modules/text_generator.py:98-117 | a prefix of the text; the whole text when the depth never returns to zero; otherwise ending with the closing bracket, balanced, and not closing earlier |
| TextGenerator.PrefixClosesAt | src/modules/text_generator.py:100-107 | cutting the text after a position leaves the depth test unchanged before it |
| TextGenerator.CutAtClosing | src/modules/text_generator.py:98-117 | the depth-counting loop cuts exactly where the bracket closes |
| TextGenerator.DropLanguageTag | src/modules/text_generator.py:70-72 | strips a fenced part and drops a leading `json` tag |
| TextGenerator.PickFencedPart | src/modules/text_generator.py:66-76 | the loop over the fenced parts picks the first that opens JSON, and otherwise keeps the text |
| TextGenerator.CleanJsonResponse | src/modules/text_generator.py:54-119 | the whole cleaning procedure computes the cleaned text |
| TextGenerator.SliceLacks | src/modules/text_generator.py:54-119 | a piece of a text lacks every character the text lacks |
| TextGenerator.FenceStageNoBracket | src/modules/text_generator.py:66-76 | text without `{` or `[` is left alone by the fence stage |
| TextGenerator.CleanJsonNoBracket | src/modules/text_generator.py:83-84 | text without any bracket comes back stripped and otherwise unchanged |
| TextGenerator.FenceStageSlice | src/modules/text_generator.py:66-76 | the fence stage yields a contiguous piece of its input |
| TextGenerator.TrimmedSlice | src/modules/text_generator.py:98-119 | trimming after the JSON yields a piece of its input |
| TextGenerator.JsonFromSlice | src/modules/text_generator.py:79-94 | starting at the first bracket yields a piece of the text |
| TextGenerator.CleanJsonSlice | src/modules/text_generator.py:54-119 | the cleaned text is always a contiguous piece of the reply: cleaning never invents characters |
| TextGenerator.CleanJsonStripped | src/modules/text_generator.py:119 | the cleaned text has no surrounding white space |
| TextGenerator.CleanJsonOpens | src/modules/text_generator.py:78-119 | whenever a bracket is found, the cleaned text opens with `{` or `[` |
| TextGenerator.TrimKeepsOpen | src/modules/text_generator.py:98-119 | trimming after the JSON keeps the opening bracket first |
| TextGenerator.CleanJsonObject | src/modules/text_generator.py:63-119 | an unfenced reply that is an object whose braces close comes back as its prefix up to the matching `}`, balanced |
| TextGenerator.CutObjectShape | src/modules/text_generator.py:98-107 | cutting an object at its closing brace yields a balanced prefix ending with `}` with no surrounding white space |
| TextGenerator.CheckStory | src/modules/text_generator.py:149-165 | a story passes iff it is an object with `order` and `text` and an integer order of at least 1 |
| TextGenerator.CheckStoriesFirstFailure | src/modules/text_generator.py:149-165 | the loop accepts iff every story passes; otherwise it reports the first failing story |
| TextGenerator.ValidateValidIff | src/modules/text_generator.py:122-171 | the data is valid iff it is an object whose `stories` is a non-empty array of passing stories; the expected count never matters |
| TextGenerator.ValidateReportsFirstBadStory | src/modules/text_generator.py:147-165 | a story-level error names the first failing story, every earlier one passing |
| VideoComposer.JoinPath | src/modules/video_composer.py:124 | a path joined onto a directory ends with the file name |
| VideoComposer.OutputFilenameShape | src/modules/video_composer.py:120-124 | the generated name ends with `<prefix>_<timestamp>.mp4` |
| VideoComposer.Trunc | src/modules/video_composer.py:168 | `int()` of a real truncates toward zero |
| VideoComposer.ChooseDurationCases | src/modules/video_composer.py:164-170 | a requested duration is used as given; otherwise a probed length that is non-zero and at most 60 is truncated toward zero (a negative one passes the truthiness test too), so a positive one gives the whole seconds it holds, at most 60; otherwise (no probe, zero, or over 60) the configured default |
| VideoComposer.NoCommaInNumber | src/modules/video_composer.py:224-227 | a rendered integer holds no comma |
| VideoComposer.NoCommaInFit | src/modules/video_composer.py:225 | the scale stage holds no comma |
| VideoComposer.NoCommaInPad | src/modules/video_composer.py:226 | the pad stage holds no comma |
| VideoComposer.StaticFilterStages | src/modules/video_composer.py:220-228 | the static filter is exactly three comma-separated stages: scale-to-fit, centred black pad, `setsar=1`, built from the configured size alone |
| VideoComposer.KenBurnsFilterMentions | src/modules/video_composer.py:261-281 | the zoom filter holds `d=<duration*fps>:`, `s=<w>x<h>:`, `fps=<fps>,` and a zoom capped by `min(zoom+...,1.2)` |
| VideoComposer.StoryCommandShape | src/modules/video_composer.py:230-247 | the argument list has 28 entries, opens with ffmpeg, `-y`, `-loop 1`, both inputs and `-vf`, carries `-t <duration>`, and ends with the output path |
| VideoComposer.StaticCommandShape | src/modules/video_composer.py:208-247 | the static command has that shape with the static filter |
| VideoComposer.KenBurnsCommandShape | src/modules/video_composer.py:249-300 | the zoom command fails iff `duration * fps` is zero (the division at line 269); otherwise it has that shape with the zoom filter |
| VideoComposer.CommandsDifferOnlyInFilter | src/modules/video_composer.py:230-300 | the static and zoom commands agree everywhere except the `-vf` value |
| VideoComposer.StoryDuration | src/modules/video_composer.py:164-170 | the requested duration when given; else `int()` of a probed length that is non-zero and at most 60, which for a positive length is its whole seconds (between 0 and 60) and for a negative one lies within a second above it; else the configured default |
| VideoComposer.ComposeStory | src/modules/video_composer.py:126-206 | a missing photo, then a missing music file, fails before any command is built; otherwise the static or zoom command is built per the flag, and the encoder outcome maps to the timeout error, the failure message, the missing-output error, or the output path |
| VideoComposer.RunEncoder | src/modules/video_composer.py:185-206 | success iff the encoder exited with 0 and the output exists; each other outcome gives its own error |
| VideoComposer.EncoderFailureMessageBound | src/modules/video_composer.py:195 | the failure message carries at most the first 500 characters of the error output |
| VideoComposer.PostImageSizeCases | src/modules/video_composer.py:328-334 | width 1080 always; 1350 high for `4:5`, 1080 for `1:1`, and 566 for anything else |
| VideoComposer.NoCommaInCover | src/modules/video_composer.py:338 | the scale stage of the post filter holds no comma |
| VideoComposer.NoCommaInCrop | src/modules/video_composer.py:339 | the crop stage holds no comma |
| VideoComposer.ComposePostImage | src/modules/video_composer.py:302-357 | a missing photo fails first; otherwise the post command is built for the output path, and the encoder outcome maps to a timeout, the failure message or the output path |
| VideoComposer.PostImageFilterStages | src/modules/video_composer.py:336-340 | the post filter is exactly a cover scale followed by a centre crop to the chosen size |
| Fonts.GetTotalFonts | config/fonts.py:187-189 | the rotation holds exactly 20 fonts |
| Fonts.FontWeights | config/fonts.py:24-166 | every one of the 20 fonts is `Bold` or `Regular`, and it is `Bold` exactly when its file is the `-Bold` cut: the fonts listed without a weight take the default `Bold`, the others say `Regular` |
| Fonts.GetFontByIndex | config/fonts.py:174-184 | every index, negative ones included, yields a font of the rotation |
| Fonts.FontByIndexPeriodic | config/fonts.py:184 | the rotation wraps: index `i + 20` gives the same font as `i` |
| Fonts.FontByIndexFirstCycle | config/fonts.py:184 | an index below 20 gives the font at that position |
| Fonts.FontByIndexNegative | config/fonts.py:184 | index -1 wraps to the last font, Righteous (Python's floored modulo) |
| Fonts.GetFontFilenames | config/fonts.py:169-171 | the file names of the rotation, one per font, in rotation order |
| Fonts.GetFontsByCategory | config/fonts.py:192-194 | an order-preserving subsequence of the rotation holding exactly its fonts of that category |
| Fonts.CategoriesKnown | config/fonts.py:23 | every font's category is one of sans-serif, serif, script, display |
| Fonts.UnknownCategoryEmpty | config/fonts.py:192-194 | a category outside those four selects no font |
| Memes.GetAllMemes | config/memes.py:199-201 | the table in its listed order, 27 memes |
| Memes.GetTotalMemes | config/memes.py:226-228 | there are 27 memes |
| Memes.AllMemeIdsUnique | config/memes.py:15 | no two memes of the table share an id |
| Memes.MemeWithId | config/memes.py:204-209 | no meme is found iff no meme has that id; a meme found has that id and is in the table |
| Memes.MemeWithIdUnique | config/memes.py:206-208 | in a table with distinct ids, looking up a meme's id finds that meme |
| Memes.FindById | config/memes.py:206-209 | the first-match scan returns the lookup's answer |
| Memes.GetMemeById | config/memes.py:204-209 | looking an id up in the full table |
| Memes.LookupFindsEveryMeme | config/memes.py:204-209 | every meme of the table is found by its own id |
| Memes.PromptLines | config/memes.py:219-222 | two prompt lines per meme |
| Memes.PromptLinesAt | config/memes.py:221-222 | lines `2k` and `2k+1` are the id/name/trigger line and the example line of meme `k` |
| Memes.FormatMemes | config/memes.py:219-223 | the loop's output is the prompt lines joined by newlines |
| Memes.FormatMemesForPrompt | config/memes.py:212-223 | the prompt text for the full table |
| Memes.FormatSplitsIntoLines | config/memes.py:223 | when no field holds a newline, splitting the prompt on newlines gives back exactly the prompt lines |
| Publisher.ContainerStatusMeaning | src/modules/publisher.py:362-379 | the status is `FINISHED` only for that reply; `ERROR` for a failed request or an `ERROR` reply; `UNKNOWN` for a reply without a status code or with `UNKNOWN` |
| Publisher.MulMono | src/modules/publisher.py:346-357 | elapsed time grows with the number of polls |
| Publisher.PollsBound | src/modules/publisher.py:344-357 | after `k` polls the loop runs again iff `k` is below the poll budget `ceil(max_wait / poll_interval)` |
| Publisher.ProcessedMeaning | src/modules/publisher.py:346-354 | success means some poll within the budget said `FINISHED` and no earlier poll was terminal |
| Publisher.WaitForProcessing | src/modules/publisher.py:327-360 | success iff the first terminal status within the budget is `FINISHED`; it polls at most the budget, stops at the first terminal status, and stops early only on one |
| Publisher.PublishStory | src/modules/publisher.py:118-159 | no container gives `Failed to create media container`; unfinished processing gives `Video processing timeout`; no media id gives `Failed to publish container`; success iff all three steps succeed, with the media id |
| Publisher.PublishStorySeries | src/modules/publisher.py:161-223 | the series result is the tally of the outcomes, and a delay follows every story but the last |
| Publisher.SeriesStep | src/modules/publisher.py:188-198 | one more story adds its media id when it was posted, and otherwise one error line numbered by its position |
| Publisher.SeriesTallyAddsUp | src/modules/publisher.py:207-223 | published stories plus error lines make the total |
| Publisher.MediaIdsErrorLines | src/modules/publisher.py:193-198 | each story adds either a media id or an error line |
| Publisher.SeriesSuccessIffAllPosted | src/modules/publisher.py:207-208 | the series succeeds iff every story was posted with a media id |
| Publisher.AllPostedIds | src/modules/publisher.py:193-207 | every story has a media id iff every story was posted |
| Publisher.NothingPosted | src/modules/publisher.py:193-198 | when no story is posted there are no media ids and one error line per story |
| Publisher.FailedStoryReported | src/modules/publisher.py:196-198 | a failed story `i` is reported as `Story <i+1>: <error or "Unknown error">` |
| Publisher.PostedStoryKept | src/modules/publisher.py:193-194 | a posted story's media id is in the result |
| Publisher.SuccessPartialExclusive | src/modules/publisher.py:80-215 | success and partial success never hold together, and a non-empty series is a success, a partial success, or published nothing |
| TelegramBot.ParseCallback | src/modules/telegram_bot.py:169-181 | approve, edit and reject need a non-empty id after the first `:` and carry exactly that id; `cancel_edit` needs none; anything else is ignored |
| TelegramBot.KeyboardData | src/modules/telegram_bot.py:340-351 | the keyboard carries exactly three buttons, approve, edit and reject, in that order (their data is pinned by KeyboardRoundTrip) |
| TelegramBot.ActionThenId | src/modules/telegram_bot.py:170 | `action:id` splits into the action and the id when neither holds a colon |
| TelegramBot.ParseActionId | src/modules/telegram_bot.py:169-181 | `action:id` with a non-empty id dispatches on the action alone |
| TelegramBot.KeyboardRoundTrip | src/modules/telegram_bot.py:169-348 | the data of the three buttons parses back to approve, edit and reject of the same id |
| TelegramBot.CallbackNeedsId | src/modules/telegram_bot.py:172-181 | data without a colon is ignored unless it is `cancel_edit` |
| TelegramBot.Approved | src/modules/telegram_bot.py:213-241 | the id leaves both pending maps; the approve callback gets the pending text, or `""` on the series-only path (which then raises); an unknown id changes nothing |
| TelegramBot.Rejected | src/modules/telegram_bot.py:302-338 | the id leaves both pending maps, the reject callback runs once when the id was pending, and an unknown id changes nothing |
| TelegramBot.EditStarted | src/modules/telegram_bot.py:257-276 | a pending id starts editing for that chat; an unknown id changes nothing |
| TelegramBot.EditCancelled | src/modules/telegram_bot.py:278-300 | only that chat stops editing; every other chat and the pending maps are untouched |
| TelegramBot.TextReceived | src/modules/telegram_bot.py:183-211 | in an editing chat the new text is approved, the chat stops editing and the id leaves `_pending`; the series map is untouched; otherwise nothing changes |
| TelegramBot.DecisionIsFinal | src/modules/telegram_bot.py:213-315 | once approved or rejected, a second approve or reject of the same id changes nothing and cannot raise |
| TelegramBot.EditThenText | src/modules/telegram_bot.py:183-276 | edit followed by a text approves the new text exactly once and clears the pending entry and the chat's editing state |
| TelegramBot.CancelThenText | src/modules/telegram_bot.py:207-300 | after a cancel, a text changes nothing |
| TelegramBot.EditedSeriesApprovedAgain | src/modules/telegram_bot.py:183-223 | editing a series leaves its series entry behind, so a later approve calls `on_approve` again with `""` and then raises |
| TelegramBot.StoryItems | src/modules/telegram_bot.py:456-466 | one item per story, with its text and video, and the order given or else its position from 1 |
| TelegramBot.SeriesLines | src/modules/telegram_bot.py:478-481 | one `#<order>: <text>` line per item |
| TelegramBot.CombinedTextNumbers | src/modules/telegram_bot.py:478-481 | without explicit orders the combined text numbers the stories from 1, separated by blank lines |
| TelegramBot.SeriesContent | src/modules/telegram_bot.py:482-491 | the pending entry of a series: type `story_series`, the combined text, the first story's video and no photo |
| TelegramBot.IdsText | src/modules/telegram_bot.py:565-571 | `-` for no ids; all ids when at most three; the first three and `... (+N)` otherwise |
| TelegramBot.NotificationMessage | src/modules/telegram_bot.py:573-586 | the message starts with the status line for the counts |
| TelegramBot.NotificationMatchesSeries | src/modules/telegram_bot.py:573-579 | on a series tally the status reads published iff the series succeeded, partly published iff it partly succeeded, and failed iff a non-empty series published nothing |
| TelegramBot.ModerationBot.constructor | src/modules/telegram_bot.py:73-101 | no application and empty moderation state |
| TelegramBot.ModerationBot.BuildApp | src/modules/telegram_bot.py:103-120 | marks the application built and keeps the state |
| TelegramBot.ModerationBot.ApproveContent | src/modules/telegram_bot.py:213-255 | the state becomes the approved state, and it raises exactly on the series-only path |
| TelegramBot.ModerationBot.RejectContent | src/modules/telegram_bot.py:302-338 | the state becomes the rejected state |
| TelegramBot.ModerationBot.StartEdit | src/modules/telegram_bot.py:257-276 | the state becomes the editing state |
| TelegramBot.ModerationBot.CancelEdit | src/modules/telegram_bot.py:278-300 | the chat's editing state is dropped |
| TelegramBot.ModerationBot.HandleText | src/modules/telegram_bot.py:183-211 | the state becomes the one after the text |
| TelegramBot.ModerationBot.HandleCallback | src/modules/telegram_bot.py:164-181 | dispatches the parsed command, and raises only when an approve does |
| TelegramBot.ModerationBot.SendForModeration | src/modules/telegram_bot.py:353-433 | fails without storing when the application is not built; otherwise stores the content under its id and reports whether the send succeeded |
| TelegramBot.ModerationBot.SendSeriesForModeration | src/modules/telegram_bot.py:435-540 | fails without storing when the application is not built; otherwise stores the series and its combined pending entry under the id |
| TelegramBot.ModerationBot.SendPublishNotification | src/modules/telegram_bot.py:542-598 | nothing is sent without an application; otherwise the notification text is sent |
| TelegramBot.SeriesThenApprove | src/modules/telegram_bot.py:235-491 | approving a freshly sent series passes its combined text once, clears both entries and does not raise |
| Scheduler.GetRandomTime | src/scheduler.py:85-93 | the time lies in the publication window and is a valid clock time; an hour outside 0..23 is the `time()` error, and a start hour above 23 always fails |
| Scheduler.Pad2Reads | src/scheduler.py:103 | a two-digit field reads back as the number it formats |
| Scheduler.FormatTimeRoundTrip | src/scheduler.py:103-125 | `%H:%M` is five characters, a colon in the middle, and reads back as the same hour and minute |
| Scheduler.Stamped | src/scheduler.py:166-188 | stamping keeps the number of tasks |
| Scheduler.StampedChangesFirstOnly | src/scheduler.py:166-188 | a stamp changes at most one task, of the run's kind, and sets its last run to now |
| Scheduler.StampedMarksFirst | src/scheduler.py:166-188 | when a task of the kind exists, the first one of that kind receives the stamp |
| Scheduler.StampedTwice | src/scheduler.py:166-188 | two runs of the same kind leave what the later run alone leaves |
| Scheduler.ContentScheduler.constructor | src/scheduler.py:55-83 | the window and the auto-approve callback are kept; no tasks, no jobs, not running |
| Scheduler.ContentScheduler.ScheduleDaily | src/scheduler.py:95-137 | one daily job at the returned `HH:MM` and one new enabled, never-run task of the kind at a time inside the window; on the `time()` error nothing is added |
| Scheduler.ContentScheduler.ScheduleAutoApproval | src/scheduler.py:139-154 | an hourly job is added only when an auto-approve callback exists |
| Scheduler.ContentScheduler.RunTask | src/scheduler.py:156-191 | a callback that returns stamps the first task of the kind whether it reported success or not; one that raises changes no task |
| Scheduler.ContentScheduler.Stop | src/scheduler.py:232-234 | the loop flag is cleared and nothing else changes |
| Scheduler.ContentScheduler.ClearAll | src/scheduler.py:252-256 | every job and every task is dropped |
| Scheduler.ReadyBelowMeaning | src/scheduler.py:357-371 | the selection below a bound holds only ready publications, every ready one, in increasing position |
| Scheduler.SelectionExact | src/scheduler.py:357-371 | the selection holds exactly the approved publications and the pending ones older than a day, each once, in history order |
| Scheduler.SelectionAsWritten | src/scheduler.py:353-371 | the selection as written only ever picks publications whose status is "pending" |
| Scheduler.ApprovedContentNeverPublished | src/scheduler.py:353-363 | a history of one approved publication: the code as written selects nothing, the corrected selection selects it |
| Scheduler.ApprovedIsSelected | src/scheduler.py:359-362 | in the corrected selection every approved publication is selected |
| Scheduler.NoPublisherPublishesAll | src/scheduler.py:443-446 | without publisher and uploader a ready publication is marked published with id `no_publisher` and counts |
| Scheduler.FailedDeliveryStaysApproved | src/scheduler.py:405-442 | a failed upload, a failed series or an exception leaves the publication approved and uncounted |
| Scheduler.CountedIsPublished | src/scheduler.py:412-446 | whatever counts towards the result has been marked published |
| Scheduler.AnyCountedMeaning | src/scheduler.py:434-449 | the running test of `published_count > 0` holds exactly when one of the processed publications counted |
| Scheduler.ApproveReady | src/scheduler.py:357-375 | the positions returned are the corrected selection; each ready publication becomes approved, the rest and the last-used lists are untouched |
| Scheduler.PublishOne | src/scheduler.py:379-446 | one publication is replaced by its delivered form and nothing else in the history changes |
| Scheduler.PublishedStep | src/scheduler.py:379-446 | publishing the next selected position extends what has been published so far by that one position |
| Scheduler.PublishAt | src/scheduler.py:379-446 | one turn of the publishing loop settles the next selected position, and it counts exactly when that publication counted |
| Scheduler.PublishSelected | src/scheduler.py:378-448 | each selected publication is settled, the others stay as the selection left them, and the count is positive iff some selected publication counted |
| Scheduler.DoPublish | src/scheduler.py:351-449 | every publication ends settled, and the result is true iff some ready publication counted |
| Scheduler.PublishLock.constructor | src/scheduler.py:329-339 | a new lock is not held |
| Scheduler.PublishCallback | src/scheduler.py:318-349 | a held lock or a failed touch skips publishing and returns false; otherwise the history is published as by DoPublish and the lock is released when unlinking works |

## Left out

- Network calls are not modelled: the Graph API, the Unsplash and Pexels searches, the downloads and the language-model client with its retries. Each appears only as the answer it returns.
- Running ffmpeg and ffprobe, `_get_ffmpeg_path`, `cleanup_old_files` and `cleanup_old_downloads` touch the process table or the file system. The encoder and the duration probe are oracles; cleanup is not modelled. The probed length is a `real`, so the NaN and infinite values `float()` can parse from ffprobe's output are not modelled, nor the ValueError or OverflowError that `int()` raises on them in the probe branch of `compose_story`.
- The directory walks of `_scan_photos` and `_scan_music` are given as data: what `iterdir` and `rglob` would list.
- `get_categories`, `get_photos_count`, `get_music_count` and `rescan` of the media manager are not modelled. They are plain accessors over the caches or a re-run of the scans.
- Loading and saving the history JSON file and the topics file are not modelled. The modules start from the loaded data.
- ISO dates are integer day numbers. `str(Path(p))` is the identity on photo and music paths and on the output path given to `compose_story`, so `Path`'s normalization of that path (dropping a trailing `/` or `./` parts) is not modelled.
- ContentHistory.Available: the source also treats an empty recorded date as never used (`not last_used`). Dates here are integers, so that value cannot occur, and only a missing key means "never used".
- The `zoom_speed` text (`:.6f` of a float) is an opaque string parameter. Other floats are left out: `human_like_delay`, megabyte sizes and the sleep lengths.
- `lower()` maps only the ASCII capitals and the Cyrillic capitals U+0400..U+042F. Other scripts (the Georgian capitals Asomtavruli and Mtavruli, Greek and Latin Extended among them) and Unicode case mappings that change length are not modelled.
- ImageSearcher.Punctuation: `\w` is modelled for the letters and digits of ASCII, Latin-1, Latin Extended-A and -B, IPA, Greek, Cyrillic and Georgian. Word characters of other scripts, such as Armenian or Arabic letters and non-ASCII decimal digits, become spaces here, where Python keeps them.
- MediaManager.ScanRootCovers requires category folder names that stay distinct after normalization. `MediaManager.ScanNameClash` shows that without it the invariant fails, and the source has no evident intended behaviour for such a clash.
- The python-telegram-bot `Application` is a flag: built or not. Handler registration, polling, `/start`, `/status` and `/help` are not modelled.
- The message captions are left out, and so is the choice between sending a video or a photo. Only the notification text and the combined series text are modelled.
- `send_for_moderation` and `send_series_for_moderation` model the storing and the result. A raised send error is the `sendOk` oracle.
- The approve and reject callbacks are taken to return normally. The model records the calls they receive.
- The `schedule` library's global job registry is the `jobs` field of `ContentScheduler`. `run_loop`, `run_once`, `get_status` and `_run_auto_approve` are not modelled.
- Scheduler.ContentScheduler.ScheduleAutoApproval does not check `check_interval_hours`. The library's own validation is not part of this model.
- `create_default_scheduler`'s generation callback is not modelled. It is glue over the orchestrator.
- The upload of video files and the search for them on disk are one `Delivery` oracle per publication. So is a raised exception and the series result.
- Deleting published videos and the notification sent after publishing are not modelled.
- `publish_post`, `get_account_info`, `verify_token` and `close` of the publisher are not modelled. They are single Graph API requests with no decision logic.
- Publisher.WaitForProcessing requires a positive polling interval. With a zero interval the source keeps polling for as long as `max_wait` is positive and no terminal status arrives. With a negative one, `time.sleep` raises ValueError at the first status that is neither FINISHED nor ERROR; that exception is not modelled.
- The `str()` of float, array and object values in the validator's messages is not modelled. Only strings, integers, booleans and null are rendered as Python would.
- Memes.FormatSplitsIntoLines assumes, in its requires, that no field of a meme holds a line break. That is not proved for the literal table.
- `FONT_FILES_LEGACY` is not modelled. No modelled function reads it.
- Scheduler.DoPublish models the selection in its evidently intended form, over the whole history; see Findings. The selection as written is `Scheduler.SelectionAsWritten`.
- Scheduler.PublishCallback: the lock file is a `PublishLock` object, and creating and removing it are the `touchOk` and `unlinkOk` oracles. Two processes racing between the existence test and the creation are not modelled.

## Findings

| source | as written | input that shows it | evidently intended | confidence | as-written member | corrected member |
|---|---|---|---|---|---|---|
| src/scheduler.py:353-375 | `_do_publish` runs over `orchestrator.get_pending_content()`, which keeps only publications whose status is "pending" (src/orchestrator.py:295-297). Its "approved" branch can therefore never fire | a history holding one publication the moderator approved (status "approved", set through the approve callback, main.py:90-96 and src/orchestrator.py:299-311) | approved content is published on the next run, as the callback's docstring says (src/scheduler.py:320-324) | not executed | Scheduler.SelectionAsWritten, Scheduler.ApprovedContentNeverPublished | Scheduler.SelectionExact, Scheduler.ApprovedIsSelected, Scheduler.DoPublish |
