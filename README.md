# Daily news brief — a Dafny model

The program assembles a daily news brief and publishes it to Notion. For every
configured section it reads the section's RSS/Atom feeds and keeps the entries of the
last 24 hours, stripped and de-duplicated by `(title, url)`, and stably sorted by their `published` text, largest first. It asks a
language model to score each item's importance from 0 to 100 and sorts by that score.
It then asks the model for a Markdown summary of each section, and records the MP3 and
Ogg audio paths of each section and the public raw-content URL of the Ogg file.

A roundup collects the items at or above an importance threshold across all sections,
highest score first, and lists the top six (or a placeholder when none qualifies).
Finally the program finds or creates the Notion page titled with the day's date. It
appends the body (roundup first, then the section summaries), converted line by line
into Notion blocks, followed by the roundup's audio block and then every section's audio
block.

The model is split into modules that follow the program's files:

- `News` (`news.dfy`) models `app/news.py`:
  - `parse_date`;
  - `fetch_feeds`, as specification functions and as the loops that compute them;
  - `chat_json`'s fall-back reply;
  - `score_items`;
  - `summarize_items`.
- `NotionUtils` (`notion_utils.dfy`) models `app/notion_utils.py`. The Markdown line
  classifier is written as functions. A `Workspace` class holds the pages of each
  database and the log of `blocks.children.append` calls, and its methods model
  `find_or_create_daily_page`, `append_markdown` and `append_audio`.
- `Utils` (`utils.dfy`) models `repo_raw_url` from `app/utils.py`.
- `Brief` (`brief.dfy`) models `main` in `app/main.py`:
  - scoring each section;
  - the section loop (summaries, audio paths and URLs);
  - the roundup;
  - the page body;
  - publishing.
- Four support modules model the Python built-ins the program relies on:
  - `Text` (`text.dfy`): `str.strip`, `str.splitlines`, `str.title`, `str.join`,
    `startswith`, prefix slicing, string ordering, `str(int)`;
  - `Sorting` (`sorting.dfy`): the stable, descending `list.sort(key=..., reverse=True)`;
  - `Lists` (`lists.dfy`): the append-in-a-loop shapes, i.e. keep-some-and-transform and concatenate-per-element, that the loops' specification functions are built from;
  - `Wrappers` (`wrappers.dfy`): an `Option` type.

The world outside the program is passed in as parameters:

- the feed parser (`fetch: string -> Feed`);
- the date parser (`parse: string -> Option<Stamp>`);
- the clock (`now`, in microseconds);
- the scoring model (`llm: (string, string) -> Reply`, from the system and user messages);
- the summarising model (`complete: (string, string) -> string`);
- the environment settings (threshold, output directory, date, repository, branch, database id);
- the id and URL the server gives a created page.

The model follows the code where the code and its description differ:

- **Recency.** An entry's date is compared with the cutoff after its time zone is
  dropped, not after converting it to UTC (`app/news.py:79`). `News.WallClockNotInstant`
  states that the date's UTC offset plays no part in the test, so an entry whose instant
  is before the cutoff can still be admitted.
- **Sort order.** Items are ordered by their `published` ISO text, compared as strings
  (`app/news.py:101`), not by the instant.

## Model

| member | source | states |
|---|---|---|
| News.ParseDate | app/news.py:59-66 | the `published` field's date when it is present and parses; otherwise the `updated` field's when it is present and parses; no date exactly when neither parses |
| News.SourceLabel | app/news.py:86-90 | defines an item's `source`: the feed's title when present and non-empty, else the section name |
| News.Admit | app/news.py:78-91 | defines what one entry gives: nothing when it has no date or its wall-clock reading is before the cutoff; else the item with stripped title and link, the summary (default ""), the ISO date and the source label |
| News.CollectFeed | app/news.py:77-91 | the entry loop yields exactly the admitted items of the feed, in entry order |
| News.CollectSection | app/news.py:75-91 | the URL loop yields every feed's items, URL by URL |
| News.DedupeByKey | app/news.py:92-100 | the loop over a set of seen keys yields the de-duplicated list `Dedupe` |
| News.Dedupe | app/news.py:92-100 | defines de-duplication: an item is kept unless an earlier item has the same `(title, url)` key; its properties are the `Dedupe*` lemmas below |
| News.DedupeSpec | app/news.py:92-100 | de-duplication keeps every key, keeps no two items with one key, and keeps only input items |
| News.DedupeKeys | app/news.py:92-100 | the key set is unchanged and the result has distinct keys |
| News.DedupeFromInput | app/news.py:92-100 | every kept item is an input item |
| News.DedupeKeepsFirst | app/news.py:95-100 | each kept item is the first input item with its key |
| News.DedupeKeepsOrder | app/news.py:95-100 | kept items stay in the order of their first occurrences |
| News.FetchSection | app/news.py:73-102 | one section's items: collected, de-duplicated and stably sorted by `published` text, largest first |
| News.SectionItems | app/news.py:73-101 | defines a section's list: its feeds' admitted items, de-duplicated, then stably sorted by `published` text, largest first |
| News.FetchFeeds | app/news.py:69-103 | one entry per section in input order, each the section's items; the cutoff is `now` minus `since_hours` hours |
| News.FetchedAt | app/news.py:72-102 | entry `i` of the result is section `i` paired with its items |
| News.UrlItemsMember | app/news.py:75-91 | an item is collected if and only if some entry of some feed of the section admits it |
| News.SectionItemsFromInput | app/news.py:92-102 | the sort and de-duplication add no item |
| News.SectionItemsAreRecent | app/news.py:77-91 | every kept item comes from an entry of one of the section's feeds, with a date not before the cutoff, stripped title and link, and the source label |
| News.SectionItemsComplete | app/news.py:77-100 | every admitted entry's key appears in the section |
| News.SectionItemsDistinct | app/news.py:92-100 | no two items of a section share title and URL |
| News.SectionItemsSorted | app/news.py:101 | the section is ordered by `published` text, largest first; items with equal text keep their de-duplicated order |
| News.SectionKeepsFirst | app/news.py:92-100 | the item kept for a key is the first one read |
| News.SectionItemsStripped | app/news.py:82-83 | kept titles and URLs have no surrounding whitespace |
| News.WallClockNotInstant | app/news.py:79 | a dated entry is kept exactly when its wall-clock reading is not before the cutoff, whatever UTC offset the date names |
| News.WithFocus | app/news.py:125 | the system prompt is unchanged with an empty focus, else followed by " Focus on: " and the focus |
| News.ScoreRequest | app/news.py:128-133 | defines the scoring request: the title, URL, published date and summary, each on its own labelled line |
| News.ChatJson | app/news.py:106-121 | always a JSON object: the reply itself when it decodes, else score 0 with reason "Parse error" |
| News.Annotate | app/news.py:134-136 | the item is unchanged; importance and reason come from the reply, defaulting to 0 and "" |
| News.Annotated | app/news.py:127-137 | one scored item per input, each annotated from the reply to its own request |
| News.ScoreItems | app/news.py:124-139 | one request per item with the focus-extended system prompt; the result is the annotated items sorted by importance |
| News.ScoreOrder | app/news.py:124-139 | defines `score_items`' result: every item annotated from its own reply, stably sorted by importance, highest first |
| News.ScoreOrderPermutation | app/news.py:124-139 | scoring keeps exactly the input items, with multiplicity |
| News.ScoreOrderSorted | app/news.py:138 | importance is non-increasing; items with equal importance keep their input order |
| News.ScoreOrderAnnotations | app/news.py:127-137 | every scored item is an input item annotated from its own reply |
| News.Shown | app/news.py:153 | `items[:max_items]` keeps the smaller of the length and the cap |
| News.SummaryRequest | app/news.py:152-156 | defines the summary request: the instruction line, then the first `max_items` items as a bold title with its 10-character date and the URL indented below |
| News.SummaryMarkdown | app/news.py:149-165 | defines `summarize_items`' result: the title-cased section heading, then the placeholder when there are no items, else the stripped completion |
| News.SummarizeItems | app/news.py:142-165 | no items: the section heading and the "no fresh items" note, and no request; otherwise one request for the first `max_items` items, and the heading followed by the stripped reply |
| News.JoinSummaryLines | app/news.py:153-156 | the joined two-line entries equal the joined list of single lines |
| News.SummaryRowsOneLine | app/news.py:153-156 | with single-line titles, URLs and dates, each request row is one line and the last row is non-empty |
| News.SummaryRequestLines | app/news.py:153-156 | when no item's title, URL or date holds a line break, the request is the instruction followed by the rows, which `splitlines` gives back one for one |
| NotionUtils.ClassifyLineRule | app/notion_utils.py:46-65 | "## " gives a heading with the stripped rest, "- " a bullet with the stripped rest, any other non-blank line a paragraph holding the line |
| NotionUtils.ClassifyLine | app/notion_utils.py:47-65 | defines the block of a line: "## " is tested first, then "- ", then a whitespace-only line gives no block |
| NotionUtils.MarkdownBlocks | app/notion_utils.py:45-65 | defines the blocks of a text: every `splitlines` line classified, the blocks kept in line order |
| NotionUtils.MarkdownAppends | app/notion_utils.py:66-67 | defines the append calls for a text: one call with all its blocks, or none when there is no block |
| NotionUtils.ClassifyLineBlank | app/notion_utils.py:59-61 | a line gives no block exactly when it is whitespace only |
| NotionUtils.LinesToBlocks | app/notion_utils.py:45-65 | the loop yields the blocks of the lines in line order |
| NotionUtils.NonBlankKept | app/notion_utils.py:59-61 | the lines that give blocks are exactly the non-blank lines |
| NotionUtils.BlocksOfNonBlank | app/notion_utils.py:45-65 | block `i` is the block of the `i`-th non-blank line |
| NotionUtils.MarkdownBlocksOfLines | app/notion_utils.py:46-65 | for any lines without line breaks, the blocks of their `\n`-join are the blocks of the lines, a trailing empty line included (it gives no block) |
| NotionUtils.FindFirst | app/notion_utils.py:12-24 | the page found matches the database and title; none is found exactly when no page matches |
| NotionUtils.FindFirstIsEarliest | app/notion_utils.py:19-24 | the first matching page is the one returned |
| NotionUtils.FindFirstAppend | app/notion_utils.py:22-35 | after a page is added, the look-up gives the earlier match if there was one, else the new page if it matches |
| NotionUtils.Workspace.FindOrCreateDailyPage | app/notion_utils.py:10-35 | an existing match is returned with no change; otherwise one page is created with the title and returned; either way the title now finds it |
| NotionUtils.Workspace.FindOrCreateTwice | app/notion_utils.py:10-35 | two look-ups of one title give the same page and append nothing; an existing match leaves the pages unchanged and is the id returned, otherwise exactly one page, the first one created, is added |
| NotionUtils.Workspace.AppendMarkdown | app/notion_utils.py:38-67 | one append call with all the text's blocks, or none when there is no block; pages unchanged |
| NotionUtils.Workspace.AppendAudio | app/notion_utils.py:70-80 | one append call: a level-3 heading, then an external audio block |
| Utils.RepoRawUrlShape | app/utils.py:12-19 | the URL is the raw host, then the repository, a slash, the branch, a slash and the path, each segment at its fixed position, and nothing else |
| Utils.RepoRawUrl | app/utils.py:19 | defines the URL: the raw-content host, then repository, branch and path joined by slashes |
| Utils.RepoRawUrlInjective | app/utils.py:12-19 | same repository and branch: different paths give different URLs |
| Text.StripSlice | app/news.py:82-83 | `strip` returns a contiguous slice of its input |
| Text.StripSurround | app/news.py:82-83 | only whitespace lies outside that slice |
| Text.StripEmptyIffAllSpace | app/notion_utils.py:60 | `line.strip() == ""` exactly when the line is whitespace only |
| Text.StripIdempotent | app/news.py:82-83 | stripping twice equals stripping once |
| Text.SplitLinesJoin | app/notion_utils.py:46 | `splitlines` inverts the `\n`-join of lines without breaks when the last line is non-empty |
| Text.SplitLinesJoinTrailing | app/notion_utils.py:46 | when the last line is empty, `splitlines` of the join gives back every line but the last |
| Text.NatToStringValue | app/main.py:91 | the digits printed for a non-negative number read back as that number |
| Text.IntToStringValue | app/main.py:91 | `str(importance)` is a minus sign exactly for a negative score, then digits, and reads back as the score, negative or not |
| Text.LexLeTotal | app/news.py:101 | any two texts are ordered |
| Text.LexLeTransitive | app/news.py:101 | the text order is transitive |
| Text.LexLeAntisymmetric | app/news.py:101 | two texts ordered both ways are equal |
| Sorting.SortDescPermutation | app/news.py:101 | the sort is a permutation |
| Sorting.SortDescSorted | app/news.py:101 | under a total preorder, the result is in descending key order |
| Sorting.SortDescStable | app/news.py:101 | items with equal keys keep their relative order |
| Sorting.SortDescDistinct | app/news.py:101 | sorting keeps distinct keys distinct |
| Brief.ScoreSections | app/main.py:50-54 | each section's items scored with that section's prompt, in section order |
| Brief.SummarizeSection | app/main.py:63-75 | one section's summary, its MP3 and Ogg paths, and the Ogg file's public URL |
| Brief.SummarizeSections | app/main.py:62-75 | summaries, audio files and audio URLs for every section, in section order |
| Brief.SummariesAt | app/main.py:62-65 | entry `i` of the summaries is the summary of section `i`, asked with that section's prompt and at most five items (`SummaryCap`) |
| Brief.DayDir | app/main.py:57 | defines the day's directory: the output directory, a slash, the date |
| Brief.AudioPath | app/main.py:69-70 | defines an audio file's path: the day's directory, a slash, the name and the extension |
| Brief.AudioUrl | app/main.py:75 | defines a section's audio URL: the raw URL of its Ogg file, with the repository rendered as "None" when unset |
| Brief.AudioHeading | app/main.py:118 | defines a section audio heading: underscores become spaces, the name is title-cased, then " – Section Audio" |
| Brief.SectionFilesAt | app/main.py:69-70 | a section's files are `{day_dir}/{section}.mp3`, then `.ogg` |
| Brief.AudioUrlsAt | app/main.py:75 | a section's URL is the raw URL of its Ogg file |
| Brief.AudioUrlsDistinct | app/main.py:69-75 | different sections get different audio URLs |
| Brief.Flatten | app/main.py:79-83 | every item at or above the threshold, tagged with its section, section by section |
| Brief.CandidatesMember | app/main.py:79-83 | a candidate is kept exactly when its item's importance reaches the threshold |
| Brief.Candidates | app/main.py:79-83 | defines the flattened list: section by section, item by item, every item with importance at or above the threshold, tagged with its section |
| Brief.RoundupOrder | app/main.py:84 | defines the roundup order: the candidates stably sorted by importance, highest first |
| Brief.RoundupLine | app/main.py:88-92 | defines a roundup line: the title-cased section in brackets and the title in bold, the 10-character date, the score, and the URL indented below |
| Brief.RoundupText | app/main.py:86-95 | defines the roundup: the placeholder when no candidate exists, else the header and one line for each of the first six candidates, joined by "\n" |
| Brief.RoundupOrderSorted | app/main.py:84 | the sorted candidates are a permutation, ordered by importance, stable among equals |
| Brief.RoundupTopIsBest | app/main.py:84-88 | no candidate left out of the top six outscores one in it |
| Brief.BuildRoundup | app/main.py:86-95 | the placeholder when no candidate, else the header and one line per top candidate |
| Brief.RoundupLines | app/main.py:87-92 | the header, then one line per candidate in order |
| Brief.RoundupPlaceholder | app/main.py:86-95 | the placeholder appears exactly when no item reaches the threshold |
| Brief.RoundupStartsWithHeader | app/main.py:86-95 | the roundup always opens with "## Roundup" on its own line |
| Brief.PageBodyOpensWithRoundup | app/main.py:98-113 | the page's first block is the level-2 heading "Roundup" |
| Brief.BodyFirstLine | app/main.py:98-112 | the body's first line is the roundup header |
| Brief.PageBody | app/main.py:98-112 | defines the page body: the roundup first, then every section summary, joined by a blank line |
| Brief.PrepareBrief | app/main.py:49-95 | steps 1 to 3: scored sections, summaries, roundup, audio files and URLs, as the specification functions give them |
| Brief.AppendSectionAudio | app/main.py:117-119 | one audio append per section, in order, with its title-cased heading |
| Brief.AppendAudioBlocks | app/main.py:116-119 | the roundup's audio append, then each section's |
| Brief.AppendBrief | app/main.py:112-119 | the body's append, the roundup audio, then the section audio |
| Brief.PublishBrief | app/main.py:109-119 | an existing dated page is reused with the pages unchanged, otherwise exactly one page is created; that page receives the appends |
| Brief.DailyBrief | app/main.py:35-119 | the dated page is reused, or created only when none exists; the day's audio files and every append call made to that page are functions of the feeds and model replies |

## Left out

- Network access and feed parsing (`feedparser.parse`): the parsed feed at each URL is the parameter `fetch`.
- `dateutil` parsing is the parameter `parse`, which yields the wall-clock reading, the offset and the ISO text. Failure is `None`; exceptions are not modelled separately.
- The clock: `datetime.utcnow()` is the parameter `now`; `today_str` is left out, and the date is the parameter `dateStr`.
- The language model: the scoring replies and the summary completions are parameters. Each is a function of the messages, so equal requests get equal replies.
- Annotate: a reply is either undecodable text or an object with an optional integer score and an optional text reason. The model leaves out the other score values `int(js.get("score", 0))` accepts: a float (truncated toward zero), a numeric string (parsed) and a boolean (0 or 1). It also leaves out the values on which `int()` raises and aborts the run: `None`, a non-numeric string and a list or object. Replies that decode to something other than an object are not modelled.
- Text-to-speech, `mp3_to_ogg_bytes`, `save_bytes` and `ensure_dir`: the model records the paths of the files that would be written, not their contents.
- `add_comment` (the notification comment) and `get_title_prop_name` (the title property's name) are not part of this model.
- Database query filters other than the title, and the page size, are not modelled. Notion's API errors are not modelled.
- DailyBrief: failures of the language-model and speech services are not modelled. The program catches none of them: an exception from the chat completion call (`app/news.py:107`, `app/news.py:157`) or the speech call (`app/news.py:169`), or the error from `.strip()` on an empty (`None`) completion (`app/news.py:165`), aborts `main` before anything is published. Only the JSON decoding at `app/news.py:118-121` is caught. In the model the replies are total functions, so `DailyBrief` always publishes.
- `Text.Title`: `str.title()` is modelled on ASCII letters only. Other characters count as uncased and stay unchanged.
- `News.ScoreItems`: the program adds the importance fields to the item dictionaries in place, so the caller's lists are changed too. The model returns new values and does not model that aliasing.
- Sections are a list of name and configuration pairs in dictionary order; the model assumes their names are distinct, as dictionary keys are.
- `Brief.DailyBrief`: the sections are a parameter; the program's four default sections and their feed URLs (app/news.py:13-42) are not part of this model. The environment variables are parameters.
