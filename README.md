# post-generator, modelled in Dafny

post-generator is a Streamlit app that writes social-media content for a brand. It asks an OpenAI chat model for topics. For every topic it asks for post ideas. For every idea it writes a post on each selected platform (Twitter, Facebook, Instagram, LinkedIn) and, optionally, an image. It keeps a progress counter and collects everything in a generated-content record that can be exported.

Every answer from a model or an API is an input string, so the deterministic layer can be modelled on its own. That layer is:

- **Quality modes and model selection** (`Llm`). The three generation modes and their display labels, the table from (content kind, mode) to a model id, and the message conversion that runs before the chat call.
- **List parsing** (`ListOutput`), shared by the topic and idea generators. Strip the answer, split it into lines, keep lines longer than two characters, delete every `"- "`, and cut the list to the requested count.
- **Prompt composition** (`Prompts`, `TopicGenerator`, `IdeaGenerator`, `ImagePromptGenerator`). The system and user messages, the avoid clause, the style guidelines, the priority paragraph for extra instructions, and the final image prompt with its style and technical lines.
- **The brand cache** (`Brands`, `Utils`). `"title - value"` records, each closed by a `---` line, appended to two files and read back into ordered dicts. A brand is listed when both dicts hold its title.
- **Image helpers** (`ImageGenerator`). The complexity classifier, the quality fallback, the image request and the saved file's path.
- **The generation run** (`App`). The promotional keyword test, the instructions each generator receives, and the nested topic → idea → platform/image loop. The loop fills the posts dict and the image list and moves the progress counter.
- **Export helpers** (`Utils`). `format_list`, the retry loop, the CSV rows and the grouping of ideas by topic for the TXT report.

Shared modules:
- `Text` models the Python string operations the code relies on: `find`, `in`, `split`, `join`, `replace`, `strip`, `lower` and integer formatting.
- `Content` holds the entries of the generated-content record.
- `Wrappers` holds `Option`.

Three behaviours of the code are easy to get wrong, and the model follows the code in each:
- **Empty items.** A parsed item can be empty. A line made of markers only, such as `"- - "`, passes the length filter and becomes `""` (`ListOutput.MarkersOnlyLineGivesEmptyItem`).
- **Style tags.** Only the idea prompt carries the brand's style tags. The topic prompt has no style paragraph.
- **Promotional keywords.** The promotional test looks for the nine Spanish keywords of app.py:214-215, in the lowercased expansion.

## Model

| member | source | states |
|---|---|---|
| Llm.FromString | llm.py:46-54 | a mode is returned only for one of that mode's two labels |
| Llm.ModeStringRoundTrip | llm.py:28-54 | `from_string(to_string(m)) == m` for every mode; the English label reads back to its mode too |
| Llm.FromStringExact | llm.py:47-54 | `from_string(v)` is mode m exactly when v is m's Spanish or English label, and no other string gives a mode |
| Llm.GetModeStrings | llm.py:37-44 | three pairwise-distinct labels that read back as LOW, MEDIUM and HIGH, in that order |
| Llm.ModelFor | llm.py:71-125 | IMAGE selects dall-e-3 and nothing else does; every text kind selects one of the three chat models; IMAGE_PROMPT never selects gpt-3.5-turbo; a model's tier is at least the mode's rank |
| Llm.TextKindsFollowMode | llm.py:86-111 | TOPICS, IDEAS and POST select gpt-3.5-turbo, gpt-4o-mini and gpt-4o for LOW, MEDIUM and HIGH |
| Llm.ImagePromptTiers | llm.py:113-119 | IMAGE_PROMPT selects gpt-4o-mini for LOW and gpt-4o otherwise |
| Llm.ModelTierMonotone | llm.py:86-123 | raising the mode never selects a lower-tier model, for any kind |
| Llm.MapRole | llm.py:155-161 | "human" becomes "user" and "ai" becomes "assistant"; any other role is kept; the result is never "human" or "ai" |
| Llm.ConvertMessage | llm.py:146-166 | dict messages pass through unchanged; an object with a known type becomes a dict whose role is that type renamed as the role mapping renames it (user, assistant or system), with the same content; otherwise an object with a role attribute gets that role, renamed; other objects pass through |
| Llm.ConvertMessages | llm.py:144-166 | one converted message per input, in the same order |
| Llm.Generate | llm.py:127-176 | the request uses the table's model and the converted messages; the returned content is the model's answer |
| Prompts.AvoidsIsNote | prompts.py:7-9 | the avoid clause is a constant that opens with a blank line and "Nota:" and continues after it |
| Prompts.StylePromptShape | prompts.py:11-12 | the style paragraph starts with the heading (no space after the colon); no items give the heading alone, one item gives heading + item |
| Prompts.StylePromptItems | prompts.py:11-12 | splitting the text after the heading at ", " gives the items back, in order, when none contains ", " |
| Prompts.PriorityInstructionsShape | generators/topic_generator.py:47-48 | the priority paragraph and the expansion are appended exactly when the expansion is non-empty; an empty expansion leaves the prompt unchanged |
| ListOutput.KeptLines | generators/topic_generator.py:63-66 | the kept lines are at most the input lines, each longer than two characters |
| ListOutput.KeptLinesMembers | generators/topic_generator.py:65-66 | a line is kept iff it is an input line longer than two characters |
| ListOutput.KeptLinesAll | generators/topic_generator.py:65-66 | lines that all pass the filter are all kept, in order |
| ListOutput.SliceTo | generators/topic_generator.py:67 | Python's `xs[:count]`: a prefix of length min(count, len) for count ≥ 0, and len + count (floored at 0) for a negative count |
| ListOutput.ParseListItems | generators/topic_generator.py:63-67 | at most `count` items for count ≥ 0, exactly min(count, kept lines) of them; item k is kept line k with every "- " deleted, so line order is preserved |
| ListOutput.BlankResponse | generators/topic_generator.py:63-67 | an empty or all-whitespace answer gives no items, for any count, without error |
| ListOutput.NoMarkerUnchanged | generators/topic_generator.py:64 | a line without "- " is not changed |
| ListOutput.RemoveInnerMarker | generators/topic_generator.py:64 | a "- " in the middle of a line is deleted too, not only a leading marker |
| ListOutput.RemoveLeadingMarker | generators/topic_generator.py:64 | "- " + item becomes item |
| ListOutput.FormattedLines | generators/topic_generator.py:65 | the stripped text of a formatted list splits back into its "- item" lines |
| ListOutput.FormatThenParse | generators/topic_generator.py:63-67 | parsing a `format_list` of single-line items with no "- " and no trailing space gives the items, cut to the count |
| ListOutput.SingleMarkedLine | generators/topic_generator.py:63-67 | one "- item" line parses to [item] |
| ListOutput.ShortItemKept | generators/topic_generator.py:64-66 | the length filter sees the raw line: "- a" is kept and becomes "a" |
| ListOutput.MarkersOnlyLineGivesEmptyItem | generators/topic_generator.py:63-67 | a line of markers only, "- - ", is kept and becomes the empty item |
| ListOutput.ParseTwoLines | generators/topic_generator.py:63-67 | two lines that pass the filter give their two rewritten items for count 2 |
| TopicGenerator.SystemContentShape | generators/topic_generator.py:25-33 | the system message opens with the expert persona and contains the brand description |
| TopicGenerator.UserPromptShape | generators/topic_generator.py:36-48 | the user prompt opens with "Genera " and the count; it ends with the avoid clause when the expansion is empty, and with the priority paragraph and the expansion otherwise |
| TopicGenerator.GenerateTopics | generators/topic_generator.py:24-67 | the request uses the TOPICS model and the system then user message; the topics are the parse of the answer, at most `topic_count` of them |
| IdeaGenerator.SystemContentShape | generators/idea_generator.py:28-36 | the system message opens with the creative persona and contains the brand description |
| IdeaGenerator.UserPromptShape | generators/idea_generator.py:39-51 | the user prompt starts with the base prompt; it is the base prompt for an empty expansion and ends with the priority paragraph and the expansion otherwise |
| IdeaGenerator.UserPromptOrder | generators/idea_generator.py:39-48 | the count, the topic, the avoid clause and the style paragraph occur in the user prompt in that order |
| IdeaGenerator.GenerateIdeas | generators/idea_generator.py:28-70 | the request uses the IDEAS model and the system then user message; the ideas are the parse of the answer, at most `number_of_ideas` of them |
| Brands.SplitFileText | brands.py:13-17 | a result exists iff the text contains " - " (otherwise Python raises IndexError); the title holds no ". " and the content no " - " |
| Brands.SplitRecordText | brands.py:13-20 | splitting `title - value` gives the title and value back for a cacheable title and value |
| Brands.TitleEndingWithDashIsCut | brands.py:13-20 | a title ending with " -" is cut: "A -" with "d" reads back as title "A" and content "- d" |
| Brands.DescriptionCutAtSecondSeparator | brands.py:16 | a second " - " in the value cuts the content there |
| Brands.NumberedTitle | brands.py:15 | a "1. " numbering before the title is dropped |
| Brands.Put | brands.py:62 | dict assignment: the key maps to the value, other keys are kept, a new key goes last and an existing key keeps its place |
| Brands.CollectRecords | brands.py:50-57 | the record loop equals `Records`: a line stripping to "---" closes a record, other lines add their stripped text |
| Brands.MapRecordTexts | brands.py:58-63 | the dict loop equals `MapRecords`: records with " - " only, later records winning |
| Brands.ParseBrandFile | brands.py:47-63 | `parse_brand_file` over a file's lines equals `LoadDict` |
| Brands.UnclosedRecordDropped | brands.py:52-57 | lines after the last "---" are dropped |
| Brands.RecordIsConcatenation | brands.py:52-57 | a closed record is its stripped lines concatenated with no separator |
| Brands.LaterRecordWins | brands.py:59-63 | a later record with the same title replaces the value and keeps the title's position |
| Brands.RecordWithoutSeparatorSkipped | brands.py:59-63 | a record without " - " adds nothing |
| Brands.MatchBrands | brands.py:95-101 | no more brands than titles |
| Brands.MatchBrandsMembers | brands.py:95-101 | a brand is listed iff its title is in both dicts, with the description from one and the split style from the other |
| Brands.MatchBrandsOrdered | brands.py:95-101 | when the description titles are distinct, no title is listed twice |
| Brands.GetCachedBrands | brands.py:82-101 | the loop returns `CachedBrands`: nothing when a file cannot be opened, else the matched brands |
| Brands.FromTitle | brands.py:25-30 | the first cached brand with that title, or None exactly when no cached brand has it |
| Brands.SaveInCache | brands.py:103-106 | the description record is appended to the descriptions file and the style record to the styles file |
| Brands.CreateNewBrand | brands.py:32-45 | the default styles replace missing ones, and both records are appended |
| Brands.RequestBrand | brands.py:65-80 | the first cached brand with the files unchanged, or a new example brand whose records are appended to both files |
| Brands.OneRecordFile | utils.py:30-45 | a file holding one appended single-line record has the lines [record, "---", ""] |
| Brands.OneRecordRead | brands.py:49-57 | a file holding one appended record reads back as that record, stripped |
| Brands.RecordRoundTrip | brands.py:13-20 | a saved `title - value` record loads as the one-entry dict {title: value} |
| Brands.SaveThenLoad | brands.py:82-101 | saving a cacheable brand to empty caches and reloading gives back exactly that brand |
| Brands.EmptyValueRecordSkipped | brands.py:52-62 | a record "T - " strips to "T -", which lacks " - ", so it is skipped |
| Brands.EmptyDescriptionDisappears | brands.py:19-20 | a brand saved with an empty description is gone after reload |
| Brands.EmptyStylesDisappear | brands.py:22-23 | a brand saved with no styles is gone after reload |
| Brands.StyleListRoundTrip | brands.py:22-23 | a non-empty style list with no ", " in its items survives join then split |
| Utils.FormatList | utils.py:9-11 | no items give ""; one item gives "- item" |
| Utils.FormatListLines | utils.py:9-11 | n single-line items give n lines, line i being "- " + item i |
| Utils.AddItemToFile | utils.py:30-45 | the file exists afterwards, and its new content is the old content, or "" for a new file, followed by the item and "\n---\n" |
| Utils.RetryNTimes | utils.py:73-86 | at most max(n, 0) calls; the first success is returned; None iff all n attempts raise, and then all max(n, 0) calls were made; one wait between consecutive attempts only |
| Utils.PostRowsShape | utils.py:106-109 | one post row per post, platform by platform, each with type "Post" and its platform |
| Utils.ExportRows | utils.py:96-109 | for a record with one post list per listed platform: topic rows first (empty Idea/Platform/Content), then idea rows (empty Platform/Content), then the post rows; the count is the sum of the three |
| Utils.FirstAppearances | utils.py:135-139 | each topic once, and exactly the topics that occur |
| Utils.GroupStep | utils.py:136-139 | one more idea keeps the grouping invariant: a new topic is added last, and the idea is appended to its topic's group |
| Utils.GroupIdeasByTopic | utils.py:135-139 | topics in first-appearance order, keyed exactly by those topics, each with its ideas in original order |
| Utils.GroupingKeepsEveryIdea | utils.py:135-145 | the group sizes add up to the number of ideas |
| Utils.EveryIdeaListedUnderItsTopic | utils.py:135-145 | every idea appears under its own topic |
| ImageGenerator.MatchesIsContains | generators/image_generator.py:35 | the term test is `term.lower() in prompt.lower()` |
| ImageGenerator.CountMatches | generators/image_generator.py:35 | at most one count per listed term |
| ImageGenerator.ComplexityCount | generators/image_generator.py:27-35 | the count lies between 0 and 16 |
| ImageGenerator.LevelOf | generators/image_generator.py:37-43 | low iff count ≤ 2, medium iff 3 ≤ count ≤ 5, high iff count ≥ 6 |
| ImageGenerator.LevelMonotone | generators/image_generator.py:37-43 | the level never falls as the count grows |
| ImageGenerator.CountMatchesGrows | generators/image_generator.py:35 | adding text around a prompt never lowers its count |
| ImageGenerator.ExtendingKeepsLevel | generators/image_generator.py:16-43 | any text containing the prompt is at least as complex |
| ImageGenerator.PhotorealisticIsMedium | generators/image_generator.py:27-43 | "photorealistic" alone counts 3 (it is listed twice, and contains "realistic") and is medium |
| ImageGenerator.MentioningPhotorealistic | generators/image_generator.py:27-43 | any prompt mentioning "photorealistic" counts at least 3 and is never low |
| ImageGenerator.EffectiveQuality | generators/image_generator.py:79-81 | "standard" and "hd" are kept; any other value becomes "hd" iff the mode is HIGH |
| ImageGenerator.BuildImageRequest | generators/image_generator.py:83-90 | dall-e-3, the prompt and size as given, the effective quality, n = 1 |
| ImageGenerator.ImagePath | generators/image_generator.py:102-106 | the path starts with "results/images/post_" and ends with ".png" |
| ImageGenerator.ImagePathInjective | generators/image_generator.py:103-106 | two paths agree only when both the file count and the timestamp agree |
| ImageGenerator.GenerateImageWithOpenAI | generators/image_generator.py:45-122 | a path is saved iff a key is set, the API returns a URL and its download answers 200; the path is the naming rule's; every other case raises |
| ImageGenerator.GenerateImageWithHf | generators/image_generator.py:124-129 | a path is saved iff a key is set, the API answers the default request (dall-e-3, 1024x1024, standard, one image) with a URL and its download answers 200; the path is the naming rule's |
| ImageGenerator.DefaultRequest | generators/image_generator.py:45-50 | the default call asks dall-e-3 for a 1024x1024 standard image |
| ImagePromptGenerator.LowercaseKeywordIgnored | generators/image_prompt_generator.py:25 | the keyword test is case-sensitive: "promocional" does not count |
| ImagePromptGenerator.KeywordMakesPromotional | generators/image_prompt_generator.py:25 | any text containing "PROMOCIONAL" is promotional |
| ImagePromptGenerator.SystemContentShape | generators/image_prompt_generator.py:19-30 | the system message is the intro plus the description, with the promotional paragraph appended iff promotional |
| ImagePromptGenerator.UserContentShape | generators/image_prompt_generator.py:37-54 | the extra-instructions paragraph follows the rules iff the instructions are present and non-empty, promotional or not |
| ImagePromptGenerator.FinalPromptShape | generators/image_prompt_generator.py:68-81 | the final prompt starts with the stripped answer and the "Estilo" line; it contains the joined brand style; it ends with a technical line starting "Detalles técnicos: 4K" |
| ImagePromptGenerator.GeneratePrompt | generators/image_prompt_generator.py:19-83 | the request uses the IMAGE_PROMPT model and both messages; the prompt is the final prompt of the stripped answer |
| App.QualityOptionSelectsMode | app.py:180-190 | each quality option, mapped to its English label, selects its own mode |
| App.KeywordsAreLowercase | app.py:214-215 | lowercasing leaves the nine keywords unchanged |
| App.KeywordAnywhere | app.py:214-215 | a keyword anywhere, in any case and inside a longer word, makes the request promotional |
| App.WhatsAppIsPromotional | app.py:214-215 | "Usa WhatsApp" is promotional because it contains "app" |
| App.EmptyIsNotPromotional | app.py:214-215 | an empty expansion is not promotional |
| App.SelectInstructions | app.py:214-336 | promotional runs give each generator its fixed prefix plus the expansion; other runs pass the expansion to topics and ideas, the posts expansion to posts, and no image instructions |
| App.InstructionsAgree | app.py:333-340 | the image prompt generator sees a promotional request iff the run is promotional, and promotional runs send non-empty topic and idea instructions |
| App.IdeaStepsProduct | app.py:280-358 | the counter's per-idea moves add up to ideas × (platforms + image) |
| App.CompletedWithinTotal | app.py:230-358 | when no topic returns more than `ideas_per_topic` ideas, the final count is at most `total_items`, so the `min` clamp never acts |
| App.FullRunReachesTotal | app.py:230-362 | with full returns, the final count equals the total iff `ideas_per_topic` is 1, which is why the bar is forced to 1.0 at the end |
| App.CountsAppend | app.py:272-353 | the values shown over `a` moves of the counter and then `b` more are the values shown over `a + b` moves |
| App.Pairs | app.py:271 | one (topic, idea) pair per idea, in order |
| App.IdeasFromPrefix | app.py:257-271 | the ideas of fewer topics are a prefix of the ideas of more |
| App.IdeasFromBound | app.py:257-271 | n topics with at most m ideas each give at most n·m ideas |
| App.IdeasFromTopics | app.py:257-271 | every idea is filed under one of the topics |
| App.PostsForShape | app.py:280-312 | a known platform gets one post per idea, in order, tagged with that idea's topic and text; any other platform gets none |
| App.ImagesOfShape | app.py:321-351 | at most one image per idea, each for an idea of the run; none when images are off; one per idea iff no image call failed |
| App.PostToPlatforms | app.py:281-319 | the platform loop appends this idea's post to each known platform's list and moves the counter once per platform, showing completed+1, completed+2, … in turn |
| App.ProcessIdea | app.py:280-358 | one idea adds its posts and, when images are on and the call succeeded, its image; the counter moves platforms + image times, one at a time |
| App.ProcessIdeas | app.py:280-358 | the idea loop's post lists and images are those of all ideas so far; the counter moves IdeaSteps, one at a time |
| App.EmptyPostLists | app.py:253-254 | one empty list per selected platform |
| App.ParsedIdeasBound | app.py:257-271 | parsed idea lists give at most topics × `ideas_per_topic` ideas |
| App.ProcessTopic | app.py:257-358 | the idea call is made with the given brand, count, instructions, mode and topic; its ideas are the parse of the answer, appended after the earlier ideas, followed by their posts and images; the counter moves 1 + IdeaSteps, one at a time |
| App.TopicStep | app.py:256-358 | one pass of the topic loop keeps the loop's state equal to its definition over the topics so far, and records the idea call made for the topic |
| App.RunTopics | app.py:256-358 | the topic loop's ideas, post lists, images and final count equal their definitions over all topics; one idea call per topic, in order, each with the run's brand, count, idea instructions and mode; the bar was given 2, 3, …, completed in turn |
| App.GenerateContent | app.py:213-362 | the whole run: the topic request carries the topic model of the mode, the brand's description and the topic instructions selected from the expansion; the parsed topics; one idea call per topic with the selected idea instructions, the brand and the mode; the ideas of every topic in order; one list per selected platform; the images; the announced total; a final count within it; and every value given to the bar, which rises one at a time and never passes the total |
| App.PromptsCarryInstructions | app.py:217-226 | a promotional run ends the topic and idea prompts with the priority paragraph, the fixed demand and the user's text; another run with a non-empty text ends them with the paragraph and the text; an empty text leaves both prompts at their base |
| Text.SplitPiecesLackSeparator | brands.py:15-16 | no piece of `split(sep)` contains the separator |
| Text.ReplaceIsJoinOfSplit | generators/topic_generator.py:64 | `replace` cuts at the same occurrences as `split` |
| Text.SplitJoin | brands.py:99 | splitting a join gives the pieces back when each piece splits cleanly |
| Text.StripSpec | generators/image_prompt_generator.py:66 | `strip` removes whitespace only, from both ends, and leaves none there |
| Text.NatToStringInjective | generators/image_generator.py:105 | different numbers format to different decimal texts |

## Left out

- The Streamlit UI (widgets, tabs, session state, image display, app.py:28-193 and app.py:366-476) is not modelled. Its values reach the run as parameters.
- The OpenAI chat and image calls, the key check and the image download are parameters. They are the answer strings, the per-idea image outcome, `keySet`, the image API as a function and the download status.
- File I/O is modelled as a `TextFile` object with an existence flag and a string content. Directory creation and `count_files_in_directory` are not modelled; the existing-image count is a parameter.
- Logging, `print`, `time.sleep` and `datetime.now()` are not modelled. Sleeps are counted as `waits`, and the timestamp is a parameter.
- main.py (console input) and style.py (constant lists) are not part of this model, except for the three default styles.
- The four platform generators are not part of this model. The post written for idea k on a platform is the parameter `posts(k, platform)`.
- App.GenerateContent: the image prompt and image calls inside the loop are one outcome per idea, `images(k)`. That outcome is a saved path, or None when either call raised. The link to `ImagePromptGenerator.GeneratePrompt` and `ImageGenerator.GenerateImageWithOpenAI` is not drawn inside the loop.
- App.GenerateContent requires a non-empty list of distinct platforms and `ideas_per_topic` ≥ 1. The multiselect widget lists platforms once each, the run stops at app.py:194-196 when none is selected, and the idea count widget starts at 1.
- App.GenerateContent: the post and image instructions selected from the expansion (`SelectInstructions(...).posts` and `.image`) are not tied to `posts(k, platform)` and `images(k)`, since the platform and image generators are outcome parameters here. `App.SelectInstructions` states what they are.
- App.RunTopics records each idea request as the arguments of its call (`IdeaCall`). The request those arguments produce, with its model and both messages, is stated by `IdeaGenerator.GenerateIdeas`, and `App.PromptsCarryInstructions` states where the instructions end up in it.
- App.RunTopics: progress is the integer pair (completed, total), not the float fraction shown in the bar. The bound against the total is stated on App.GenerateContent.
- Text.Lower lowercases ASCII and the Latin-1 capitals only, not all of Unicode.
- Text.Split on "\n" splits only at "\n". A bare "\r" in a cache file is kept inside the line, so reading with universal newlines is not modelled.
- JSON export and the TXT report's formatting are not modelled. JSON turns tuples into lists, so there is no literal round trip. Only the TXT report's grouping of ideas is modelled.
- Image size labels and their parsing in the UI are not modelled; the size is passed through as a string.
- Brands.SaveThenLoad starts from empty caches. Reloading after earlier records is covered by Brands.LaterRecordWins and Brands.MatchBrandsMembers.
- Llm.Generate does not model the `temperature` argument or the `MessageResponse` wrapper; the content is returned directly.
