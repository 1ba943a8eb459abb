/**
 * The daily brief that `main` assembles: every section's items scored, one summary and
 * one audio file per section, a roundup of the most important items across sections,
 * and a Notion page that receives the Markdown body and the audio blocks.
 *
 * The environment, the language model, the text-to-speech engine and the file system are
 * outside the model: the threshold, output directory, date, repository and branch are
 * parameters, the model's replies are functions of the messages, and the files written
 * are reported by their paths.
 */
module Brief {
  import opened Wrappers
  import opened Text
  import opened Sorting
  import opened Lists
  import opened Utils
  import opened News
  import opened NotionUtils

  const SinceHours: int := 24
  const SummaryCap: nat := 5
  const RoundupCap: nat := 6
  const RoundupHeader: string := "## Roundup"
  /** The placeholder note, in Markdown italics. */
  const NoRoundupNote: string := "_" + "No items met the importance threshold today." + "_"
  const NoRoundup: string := RoundupHeader + "\n" + NoRoundupNote
  const RoundupAudioHeading: string := "Roundup (High-importance only)"

  // ---------------------------------------------------------------------------
  // The roundup
  // ---------------------------------------------------------------------------

  /** A roundup candidate: a section's name and one of its scored items. */
  type Candidate = (string, ScoredItem)

  function Score(c: Candidate): int {
    c.1.importance
  }

  /** The candidate an item of section `sec` gives, if it reaches the threshold. */
  function KeepIn(sec: string, threshold: int): ScoredItem -> Option<Candidate> {
    (it: ScoredItem) => if it.importance >= threshold then Some((sec, it)) else None
  }

  /** The candidates of one section, in its order. */
  function SectionCandidates(threshold: int): ((string, seq<ScoredItem>)) -> seq<Candidate> {
    (s: (string, seq<ScoredItem>)) => FilterMap(s.1, KeepIn(s.0, threshold))
  }

  /** The flattened candidates: section by section, item by item. */
  function Candidates(scored: seq<(string, seq<ScoredItem>)>, threshold: int): seq<Candidate> {
    FlatMap(scored, SectionCandidates(threshold))
  }

  /** The candidates after the sort by importance, highest first. */
  function RoundupOrder(scored: seq<(string, seq<ScoredItem>)>, threshold: int): seq<Candidate> {
    SortDesc(Candidates(scored, threshold), Score, IntLe)
  }

  /** The candidates that get a line: `flat[:6]`. */
  function RoundupTop(scored: seq<(string, seq<ScoredItem>)>, threshold: int): (top: seq<Candidate>)
    ensures |top| <= RoundupCap
  {
    var order := RoundupOrder(scored, threshold);
    order[..Shown(|order|, RoundupCap)]
  }

  /** A candidate's roundup line: section, title, date, score, and the URL indented below. */
  function RoundupLine(c: Candidate): string {
    "- **[" + Title(c.0) + "] " + c.1.item.title + "** (Date: " + Prefix(c.1.item.published, 10) +
    ", Score: " + IntToString(c.1.importance) + ")\n  " + c.1.item.url
  }

  /** The roundup Markdown: the placeholder, or the header and one line per top candidate. */
  function RoundupText(scored: seq<(string, seq<ScoredItem>)>, threshold: int): string {
    if RoundupOrder(scored, threshold) == [] then NoRoundup
    else Join("\n", [RoundupHeader] + MapSeq(RoundupLine, RoundupTop(scored, threshold)))
  }

  /**
   * The candidates are exactly the (section, item) pairs, over all sections, whose item
   * has an importance at least the threshold.
   */
  lemma CandidatesMember(scored: seq<(string, seq<ScoredItem>)>, threshold: int, c: Candidate)
    ensures c in Candidates(scored, threshold) <==>
      exists i, j :: (0 <= i < |scored| && 0 <= j < |scored[i].1| &&
        scored[i].1[j].importance >= threshold && c == (scored[i].0, scored[i].1[j]))
  {
    var g := SectionCandidates(threshold);
    FlatMapMember(scored, g, c);
    if c in Candidates(scored, threshold) {
      var i :| 0 <= i < |scored| && c in g(scored[i]);
      FilterMapMember(scored[i].1, KeepIn(scored[i].0, threshold), c);
      var j :| 0 <= j < |scored[i].1| && KeepIn(scored[i].0, threshold)(scored[i].1[j]) == Some(c);
      assert scored[i].1[j].importance >= threshold && c == (scored[i].0, scored[i].1[j]);
    }
    if exists i, j :: (0 <= i < |scored| && 0 <= j < |scored[i].1| &&
        scored[i].1[j].importance >= threshold && c == (scored[i].0, scored[i].1[j])) {
      var i, j :| 0 <= i < |scored| && 0 <= j < |scored[i].1| &&
        scored[i].1[j].importance >= threshold && c == (scored[i].0, scored[i].1[j]);
      FilterMapMember(scored[i].1, KeepIn(scored[i].0, threshold), c);
      assert KeepIn(scored[i].0, threshold)(scored[i].1[j]) == Some(c);
      assert c in g(scored[i]);
    }
  }

  /**
   * The sorted candidates are a rearrangement of the flattened ones, ordered by importance,
   * highest first, with equal importances in section order and then item order.
   */
  lemma RoundupOrderSorted(scored: seq<(string, seq<ScoredItem>)>, threshold: int, v: int)
    ensures multiset(RoundupOrder(scored, threshold)) == multiset(Candidates(scored, threshold))
    ensures SortedDesc(RoundupOrder(scored, threshold), Score, IntLe)
    ensures WithKey(RoundupOrder(scored, threshold), Score, v) == WithKey(Candidates(scored, threshold), Score, v)
  {
    IntLeIsTotalPreorder();
    SortDescPermutation(Candidates(scored, threshold), Score, IntLe);
    SortDescSorted(Candidates(scored, threshold), Score, IntLe);
    SortDescStable(Candidates(scored, threshold), Score, IntLe, v);
  }

  /** No candidate left out of the top has a higher importance than one in it. */
  lemma RoundupTopIsBest(scored: seq<(string, seq<ScoredItem>)>, threshold: int, i: nat, j: nat)
    requires i < |RoundupTop(scored, threshold)| <= j < |RoundupOrder(scored, threshold)|
    ensures Score(RoundupOrder(scored, threshold)[j]) <= Score(RoundupTop(scored, threshold)[i])
  {
    RoundupOrderSorted(scored, threshold, 0);
  }

  /** The roundup is the placeholder exactly when no item reaches the threshold. */
  lemma RoundupPlaceholder(scored: seq<(string, seq<ScoredItem>)>, threshold: int)
    ensures RoundupText(scored, threshold) == NoRoundup <==>
      forall i, j :: 0 <= i < |scored| && 0 <= j < |scored[i].1| ==> scored[i].1[j].importance < threshold
  {
    var order := RoundupOrder(scored, threshold);
    var cands := Candidates(scored, threshold);
    SortDescPermutation(cands, Score, IntLe);
    if order != [] {
      var c := cands[0];
      assert c in cands;
      CandidatesMember(scored, threshold, c);
      var text := RoundupText(scored, threshold);
      var lines := MapSeq(RoundupLine, RoundupTop(scored, threshold));
      assert lines != [];
      JoinCons("\n", RoundupHeader, lines);
      var j := Join("\n", lines);
      assert text == RoundupHeader + "\n" + j;
      assert j[0] == lines[0][0];
      assert lines[0][0] == '-';
      assert text[|RoundupHeader| + 1] == '-';
      assert NoRoundup == RoundupHeader + "\n" + NoRoundupNote;
      assert NoRoundupNote[0] == '_';
      assert NoRoundup[|RoundupHeader| + 1] == '_';
    } else {
      forall i, j | 0 <= i < |scored| && 0 <= j < |scored[i].1| ensures scored[i].1[j].importance < threshold {
        CandidatesMember(scored, threshold, (scored[i].0, scored[i].1[j]));
      }
    }
  }

  /** Both forms of the roundup begin with the header line. */
  lemma RoundupStartsWithHeader(scored: seq<(string, seq<ScoredItem>)>, threshold: int)
    ensures exists rest :: RoundupText(scored, threshold) == RoundupHeader + "\n" + rest
  {
    if RoundupOrder(scored, threshold) == [] {
      assert NoRoundup == RoundupHeader + "\n" + NoRoundupNote;
    } else {
      var lines := MapSeq(RoundupLine, RoundupTop(scored, threshold));
      JoinCons("\n", RoundupHeader, lines);
      assert RoundupText(scored, threshold) == RoundupHeader + "\n" + Join("\n", lines);
    }
  }

  // ---------------------------------------------------------------------------
  // The page body and the audio files
  // ---------------------------------------------------------------------------

  /** The page body: the roundup first, then every section's summary, separated by a blank line. */
  function PageBody(roundup: string, summaries: seq<string>): string {
    Join("\n\n", [roundup] + summaries)
  }

  /** The body always gives blocks, and the first is the level-2 heading "Roundup". */
  lemma PageBodyOpensWithRoundup(scored: seq<(string, seq<ScoredItem>)>, threshold: int, summaries: seq<string>)
    ensures MarkdownBlocks(PageBody(RoundupText(scored, threshold), summaries)) != []
    ensures MarkdownBlocks(PageBody(RoundupText(scored, threshold), summaries))[0] == Heading2("Roundup")
  {
    var roundup := RoundupText(scored, threshold);
    RoundupStartsWithHeader(scored, threshold);
    var rest :| roundup == RoundupHeader + "\n" + rest;
    var body := PageBody(roundup, summaries);
    BodyFirstLine(roundup, rest, summaries);
    HeaderBlock();
    FilterMapHead(SplitLines(body), ClassifyLine);
  }

  /** The first line of the body is the roundup's header. */
  lemma BodyFirstLine(roundup: string, rest: string, summaries: seq<string>)
    requires roundup == RoundupHeader + "\n" + rest
    ensures SplitLines(PageBody(roundup, summaries)) != []
    ensures SplitLines(PageBody(roundup, summaries))[0] == RoundupHeader
  {
    JoinCons("\n\n", roundup, summaries);
    var tail := if summaries == [] then rest else rest + "\n\n" + Join("\n\n", summaries);
    assert PageBody(roundup, summaries) == RoundupHeader + "\n" + tail;
    assert NoLineBreak(RoundupHeader) by {
      forall i | 0 <= i < |RoundupHeader| ensures !IsLineBreak(RoundupHeader[i]) {
      }
    }
    SplitLinesFirst(RoundupHeader, tail);
  }

  lemma HeaderBlock()
    ensures ClassifyLine(RoundupHeader) == Some(Heading2("Roundup"))
  {
    assert StartsWith(RoundupHeader, "## ");
    assert RoundupHeader[3..] == "Roundup";
    StripUnchanged("Roundup");
  }

  /** The repository as an f-string renders it: its name, or "None" when it is not set. */
  function RepoText(repo: Option<string>): string {
    if repo.Some? then repo.value else "None"
  }

  /** The directory of the day's files. */
  function DayDir(outputDir: string, dateStr: string): string {
    outputDir + "/" + dateStr
  }

  /** The path of a file of the day named after `name`, with extension `ext`. */
  function AudioPath(dayDir: string, name: string, ext: string): string {
    dayDir + "/" + name + ext
  }

  /** The public URL of the Ogg file named after `name`. */
  function AudioUrl(repo: Option<string>, branch: string, dayDir: string, name: string): string {
    RepoRawUrl(RepoText(repo), branch, AudioPath(dayDir, name, ".ogg"))
  }

  /** Different sections get different audio URLs. */
  lemma AudioUrlsDistinct(repo: Option<string>, branch: string, dayDir: string, a: string, b: string)
    requires a != b
    ensures AudioUrl(repo, branch, dayDir, a) != AudioUrl(repo, branch, dayDir, b)
  {
    if AudioUrl(repo, branch, dayDir, a) == AudioUrl(repo, branch, dayDir, b) {
      RepoRawUrlInjective(RepoText(repo), branch, AudioPath(dayDir, a, ".ogg"), AudioPath(dayDir, b, ".ogg"));
      AudioPathInjective(dayDir, a, b, ".ogg");
    }
  }

  lemma AudioPathInjective(dayDir: string, a: string, b: string, ext: string)
    requires AudioPath(dayDir, a, ext) == AudioPath(dayDir, b, ext)
    ensures a == b
  {
    var p := AudioPath(dayDir, a, ext);
    assert |a| == |b|;
    assert a == p[|dayDir| + 1..|dayDir| + 1 + |a|];
    assert b == AudioPath(dayDir, b, ext)[|dayDir| + 1..|dayDir| + 1 + |b|];
  }

  /** The heading of a section's audio block. */
  function AudioHeading(section: string): string {
    Title(ReplaceChar(section, '_', ' ')) + " – Section Audio"
  }

  // ---------------------------------------------------------------------------
  // The steps of main
  // ---------------------------------------------------------------------------

  /** A section's name and its items, fetched and scored. */
  function ScoredSection(src: (string, FeedConfig), cutoff: int, fetch: string -> Feed,
                         parse: string -> Option<Stamp>, llm: (string, string) -> Reply): (string, seq<ScoredItem>) {
    (src.0, ScoreOrder(SectionItems(src.0, src.1.urls, fetch, cutoff, parse), src.1.prompt, llm))
  }

  function ScoredSectionOf(cutoff: int, fetch: string -> Feed, parse: string -> Option<Stamp>,
                           llm: (string, string) -> Reply): ((string, FeedConfig)) -> (string, seq<ScoredItem>) {
    (src: (string, FeedConfig)) => ScoredSection(src, cutoff, fetch, parse, llm)
  }

  /** The item list of every section after scoring, in section order. */
  function ScoredSections(sources: seq<(string, FeedConfig)>, cutoff: int, fetch: string -> Feed,
                          parse: string -> Option<Stamp>, llm: (string, string) -> Reply): seq<(string, seq<ScoredItem>)> {
    MapSeq(ScoredSectionOf(cutoff, fetch, parse, llm), sources)
  }

  function PromptOf(src: (string, FeedConfig)): string {
    src.1.prompt
  }

  function Prompts(sources: seq<(string, FeedConfig)>): seq<string> {
    MapSeq(PromptOf, sources)
  }

  /** Every section's summary, in section order. */
  function Summaries(scored: seq<(string, seq<ScoredItem>)>, prompts: seq<string>, complete: (string, string) -> string): (r: seq<string>)
    requires |prompts| == |scored|
    ensures |r| == |scored|
  {
    if scored == [] then []
    else
      var n := |scored| - 1;
      Summaries(scored[..n], prompts[..n], complete) + [SummaryMarkdown(scored[n].0, scored[n].1, SummaryCap, prompts[n], complete)]
  }

  /** Entry `i` is the summary of section `i`, asked with that section's prompt. */
  lemma {:induction false} SummariesAt(scored: seq<(string, seq<ScoredItem>)>, prompts: seq<string>,
                                       complete: (string, string) -> string, i: nat)
    requires |prompts| == |scored| && i < |scored|
    ensures Summaries(scored, prompts, complete)[i] == SummaryMarkdown(scored[i].0, scored[i].1, SummaryCap, prompts[i], complete)
  {
    var n := |scored| - 1;
    var pre := Summaries(scored[..n], prompts[..n], complete);
    var last := SummaryMarkdown(scored[n].0, scored[n].1, SummaryCap, prompts[n], complete);
    assert Summaries(scored, prompts, complete) == pre + [last];
    if i < n {
      SummariesAt(scored[..n], prompts[..n], complete, i);
      assert scored[..n][i] == scored[i] && prompts[..n][i] == prompts[i];
    }
  }

  /** The MP3 and Ogg paths of every section, in section order. */
  function SectionFiles(scored: seq<(string, seq<ScoredItem>)>, dayDir: string): seq<string> {
    if scored == [] then []
    else
      var n := |scored| - 1;
      SectionFiles(scored[..n], dayDir) + [AudioPath(dayDir, scored[n].0, ".mp3"), AudioPath(dayDir, scored[n].0, ".ogg")]
  }

  /** Two files per section. */
  lemma {:induction false} SectionFilesLength(scored: seq<(string, seq<ScoredItem>)>, dayDir: string)
    ensures |SectionFiles(scored, dayDir)| == 2 * |scored|
  {
    if scored != [] {
      SectionFilesLength(scored[..|scored| - 1], dayDir);
    }
  }

  /** The files of section `i` are its MP3 and then its Ogg file, in the day's directory. */
  lemma {:induction false} SectionFilesAt(scored: seq<(string, seq<ScoredItem>)>, dayDir: string, i: nat)
    requires i < |scored|
    ensures |SectionFiles(scored, dayDir)| == 2 * |scored|
    ensures SectionFiles(scored, dayDir)[2 * i] == AudioPath(dayDir, scored[i].0, ".mp3")
    ensures SectionFiles(scored, dayDir)[2 * i + 1] == AudioPath(dayDir, scored[i].0, ".ogg")
  {
    SectionFilesLength(scored, dayDir);
    var n := |scored| - 1;
    SectionFilesLength(scored[..n], dayDir);
    if i < n {
      SectionFilesAt(scored[..n], dayDir, i);
    }
  }

  /** Every section's name with the public URL of its Ogg file, in section order. */
  function AudioUrls(scored: seq<(string, seq<ScoredItem>)>, repo: Option<string>, branch: string, dayDir: string): seq<(string, string)> {
    if scored == [] then []
    else
      var n := |scored| - 1;
      AudioUrls(scored[..n], repo, branch, dayDir) + [(scored[n].0, AudioUrl(repo, branch, dayDir, scored[n].0))]
  }

  /** One URL per section. */
  lemma {:induction false} AudioUrlsLength(scored: seq<(string, seq<ScoredItem>)>, repo: Option<string>, branch: string, dayDir: string)
    ensures |AudioUrls(scored, repo, branch, dayDir)| == |scored|
  {
    if scored != [] {
      AudioUrlsLength(scored[..|scored| - 1], repo, branch, dayDir);
    }
  }

  /** Entry `i` is section `i`'s name with the public URL of its Ogg file. */
  lemma {:induction false} AudioUrlsAt(scored: seq<(string, seq<ScoredItem>)>, repo: Option<string>, branch: string, dayDir: string, i: nat)
    requires i < |scored|
    ensures |AudioUrls(scored, repo, branch, dayDir)| == |scored|
    ensures AudioUrls(scored, repo, branch, dayDir)[i] == (scored[i].0, AudioUrl(repo, branch, dayDir, scored[i].0))
  {
    AudioUrlsLength(scored, repo, branch, dayDir);
    var n := |scored| - 1;
    if i < n {
      AudioUrlsAt(scored[..n], repo, branch, dayDir, i);
    }
  }

  /** The audio block pair of every section, in section order. */
  function AudioAppends(pageId: string, audioUrls: seq<(string, string)>): (r: seq<Append>)
    ensures |r| == |audioUrls|
  {
    if audioUrls == [] then []
    else
      var n := |audioUrls| - 1;
      AudioAppends(pageId, audioUrls[..n]) +
      [Append(pageId, [Heading3(AudioHeading(audioUrls[n].0)), ExternalAudio(audioUrls[n].1)])]
  }

  /** Step 1, second half: every section's items scored with the section's prompt. */
  method ScoreSections(sections: seq<(string, seq<NewsItem>)>, prompts: seq<string>, llm: (string, string) -> Reply)
    returns (scored: seq<(string, seq<ScoredItem>)>)
    requires |prompts| == |sections|
    ensures |scored| == |sections|
    ensures forall i :: 0 <= i < |sections| ==> scored[i] == (sections[i].0, ScoreOrder(sections[i].1, prompts[i], llm))
  {
    scored := [];
    for i := 0 to |sections|
      invariant |scored| == i
      invariant forall j :: 0 <= j < i ==> scored[j] == (sections[j].0, ScoreOrder(sections[j].1, prompts[j], llm))
    {
      var s, requests := ScoreItems(sections[i].1, prompts[i], llm);
      scored := scored + [(sections[i].0, s)];
    }
  }

  /**
   * Step 2: every section's summary, in order, the paths of its MP3 and Ogg files, and the
   * public URL of the Ogg file.
   */
  method SummarizeSections(scored: seq<(string, seq<ScoredItem>)>, prompts: seq<string>,
                           complete: (string, string) -> string, dayDir: string, repo: Option<string>, branch: string)
    returns (summaries: seq<string>, files: seq<string>, audioUrls: seq<(string, string)>)
    requires |prompts| == |scored|
    ensures summaries == Summaries(scored, prompts, complete)
    ensures files == SectionFiles(scored, dayDir)
    ensures audioUrls == AudioUrls(scored, repo, branch, dayDir)
  {
    summaries, files, audioUrls := [], [], [];
    for i := 0 to |scored|
      invariant summaries == Summaries(scored[..i], prompts[..i], complete)
      invariant files == SectionFiles(scored[..i], dayDir)
      invariant audioUrls == AudioUrls(scored[..i], repo, branch, dayDir)
    {
      var section := scored[i].0;
      var md, mp3Path, oggPath, oggUrl := SummarizeSection(section, scored[i].1, prompts[i], complete, dayDir, repo, branch);
      assert scored[..i + 1][..i] == scored[..i];
      assert prompts[..i + 1][..i] == prompts[..i];
      summaries := summaries + [md];
      files := files + [mp3Path, oggPath];
      audioUrls := audioUrls + [(section, oggUrl)];
    }
    assert scored[..|scored|] == scored;
    assert prompts[..|prompts|] == prompts;
  }

  /** The body of the section loop of step 2: the summary, the two audio paths, the Ogg file's URL. */
  method SummarizeSection(section: string, items: seq<ScoredItem>, prompt: string, complete: (string, string) -> string,
                          dayDir: string, repo: Option<string>, branch: string)
    returns (md: string, mp3Path: string, oggPath: string, oggUrl: string)
    ensures md == SummaryMarkdown(section, items, SummaryCap, prompt, complete)
    ensures mp3Path == AudioPath(dayDir, section, ".mp3") && oggPath == AudioPath(dayDir, section, ".ogg")
    ensures oggUrl == AudioUrl(repo, branch, dayDir, section)
  {
    var request;
    md, request := SummarizeItems(section, items, SummaryCap, prompt, complete);
    mp3Path := dayDir + "/" + section + ".mp3";
    oggPath := dayDir + "/" + section + ".ogg";
    oggUrl := RepoRawUrl(RepoText(repo), branch, oggPath);
  }

  /** The flattening loop: every item at or above the threshold, with its section. */
  method Flatten(scored: seq<(string, seq<ScoredItem>)>, threshold: int) returns (flat: seq<Candidate>)
    ensures flat == Candidates(scored, threshold)
  {
    flat := [];
    for i := 0 to |scored|
      invariant flat == Candidates(scored[..i], threshold)
    {
      var sec, items := scored[i].0, scored[i].1;
      ghost var before := flat;
      for k := 0 to |items|
        invariant flat == before + FilterMap(items[..k], KeepIn(sec, threshold))
      {
        var it := items[k];
        assert items[..k + 1][..k] == items[..k];
        if it.importance >= threshold {
          flat := flat + [(sec, it)];
        }
      }
      assert items[..|items|] == items;
      assert scored[..i + 1][..i] == scored[..i];
      assert SectionCandidates(threshold)(scored[i]) == FilterMap(items, KeepIn(sec, threshold));
    }
    assert scored[..|scored|] == scored;
  }

  /** Step 3: the roundup Markdown. */
  method BuildRoundup(scored: seq<(string, seq<ScoredItem>)>, threshold: int) returns (md: string)
    ensures md == RoundupText(scored, threshold)
  {
    var flat := Flatten(scored, threshold);
    flat := SortDesc(flat, Score, IntLe);
    if flat == [] {
      return NoRoundup;
    }
    var lines := RoundupLines(flat[..Shown(|flat|, RoundupCap)]);
    md := Join("\n", lines);
  }

  /** The header line, then one line per shown candidate, in order. */
  method RoundupLines(top: seq<Candidate>) returns (lines: seq<string>)
    ensures lines == [RoundupHeader] + MapSeq(RoundupLine, top)
  {
    lines := AfterHeader(RoundupHeader, RoundupLine, top);
  }

  /** The loop that builds a list of lines: the header, then `line(x)` for every `x`, in order. */
  method AfterHeader<T>(header: string, line: T -> string, xs: seq<T>) returns (lines: seq<string>)
    ensures lines == [header] + MapSeq(line, xs)
  {
    lines := [header];
    for i := 0 to |xs|
      invariant lines == [header] + MapSeq(line, xs[..i])
    {
      MapSeqAppend(line, xs[..i], [xs[i]]);
      assert xs[..i + 1] == xs[..i] + [xs[i]];
      lines := lines + [line(xs[i])];
    }
    assert xs[..|xs|] == xs;
  }

  /**
   * Steps 1 to 3: the sections fetched and scored, their summaries and audio files, and
   * the roundup.
   */
  method PrepareBrief(sources: seq<(string, FeedConfig)>, now: int, fetch: string -> Feed, parse: string -> Option<Stamp>,
                      llm: (string, string) -> Reply, complete: (string, string) -> string,
                      threshold: int, dayDir: string, repo: Option<string>, branch: string)
    returns (scored: seq<(string, seq<ScoredItem>)>, summaries: seq<string>, roundupMd: string,
             files: seq<string>, audioUrls: seq<(string, string)>)
    ensures scored == ScoredSections(sources, Cutoff(now, SinceHours), fetch, parse, llm)
    ensures summaries == Summaries(scored, Prompts(sources), complete)
    ensures roundupMd == RoundupText(scored, threshold)
    ensures files == SectionFiles(scored, dayDir)
    ensures audioUrls == AudioUrls(scored, repo, branch, dayDir)
  {
    var sections := FetchFeeds(sources, SinceHours, now, fetch, parse);
    var prompts := Prompts(sources);
    scored := ScoreSections(sections, prompts, llm);
    ghost var spec := ScoredSections(sources, Cutoff(now, SinceHours), fetch, parse, llm);
    assert |scored| == |spec|;
    forall i | 0 <= i < |scored| ensures scored[i] == spec[i] {
      FetchedAt(sources, fetch, Cutoff(now, SinceHours), parse, i);
      assert spec[i] == ScoredSectionOf(Cutoff(now, SinceHours), fetch, parse, llm)(sources[i]);
    }
    summaries, files, audioUrls := SummarizeSections(scored, prompts, complete, dayDir, repo, branch);
    roundupMd := BuildRoundup(scored, threshold);
  }

  /** The append calls of the publishing step: the body, then the audio blocks. */
  function PublishedAppends(pageId: string, body: string, roundupUrl: string, audioUrls: seq<(string, string)>): seq<Append> {
    MarkdownAppends(pageId, body) + AudioBlockAppends(pageId, roundupUrl, audioUrls)
  }

  /** The audio append calls: the roundup's audio block, then every section's. */
  function AudioBlockAppends(pageId: string, roundupUrl: string, audioUrls: seq<(string, string)>): seq<Append> {
    [Append(pageId, [Heading3(RoundupAudioHeading), ExternalAudio(roundupUrl)])] + AudioAppends(pageId, audioUrls)
  }

  /**
   * Step 4: find or create the page titled with the date, append the body, the roundup's
   * audio block, then every section's audio block.
   */
  method PublishBrief(ws: Workspace, dbId: string, dateStr: string, newId: string, newUrl: string,
                      body: string, roundupUrl: string, audioUrls: seq<(string, string)>)
    returns (pageId: string)
    modifies ws
    ensures old(FindFirst(ws.pages, dbId, dateStr)).Some? ==>
      ws.pages == old(ws.pages) && pageId == old(FindFirst(ws.pages, dbId, dateStr)).value.id
    ensures old(FindFirst(ws.pages, dbId, dateStr)).None? ==>
      ws.pages == old(ws.pages) + [Page(newId, dbId, dateStr, newUrl)] && pageId == newId
    ensures FindFirst(ws.pages, dbId, dateStr).Some? && FindFirst(ws.pages, dbId, dateStr).value.id == pageId
    ensures ws.appends == old(ws.appends) + PublishedAppends(pageId, body, roundupUrl, audioUrls)
  {
    var url;
    pageId, url := ws.FindOrCreateDailyPage(dbId, dateStr, newId, newUrl);
    AppendBrief(ws, pageId, body, roundupUrl, audioUrls);
  }

  /** The appends of step 4: the body, the roundup's audio block, every section's audio block. */
  method AppendBrief(ws: Workspace, pageId: string, body: string, roundupUrl: string, audioUrls: seq<(string, string)>)
    modifies ws
    ensures ws.pages == old(ws.pages)
    ensures ws.appends == old(ws.appends) + PublishedAppends(pageId, body, roundupUrl, audioUrls)
  {
    ghost var start := ws.appends;
    ws.AppendMarkdown(pageId, body);
    AppendAudioBlocks(ws, pageId, roundupUrl, audioUrls);
    assert ws.appends == start + MarkdownAppends(pageId, body) + AudioBlockAppends(pageId, roundupUrl, audioUrls);
  }

  /** The roundup's heading and audio block, then every section's. */
  method AppendAudioBlocks(ws: Workspace, pageId: string, roundupUrl: string, audioUrls: seq<(string, string)>)
    modifies ws
    ensures ws.pages == old(ws.pages)
    ensures ws.appends == old(ws.appends) + AudioBlockAppends(pageId, roundupUrl, audioUrls)
  {
    ghost var start := ws.appends;
    ws.AppendAudio(pageId, RoundupAudioHeading, roundupUrl);
    AppendSectionAudio(ws, pageId, audioUrls);
    assert ws.appends == start + [Append(pageId, [Heading3(RoundupAudioHeading), ExternalAudio(roundupUrl)])] + AudioAppends(pageId, audioUrls);
  }

  /** The loop over the sections: each one's heading and audio block, in section order. */
  method AppendSectionAudio(ws: Workspace, pageId: string, audioUrls: seq<(string, string)>)
    modifies ws
    ensures ws.pages == old(ws.pages)
    ensures ws.appends == old(ws.appends) + AudioAppends(pageId, audioUrls)
  {
    for i := 0 to |audioUrls|
      invariant ws.pages == old(ws.pages)
      invariant ws.appends == old(ws.appends) + AudioAppends(pageId, audioUrls[..i])
    {
      ws.AppendAudio(pageId, AudioHeading(audioUrls[i].0), audioUrls[i].1);
      assert audioUrls[..i + 1][..i] == audioUrls[..i];
    }
    assert audioUrls[..|audioUrls|] == audioUrls;
  }

  /** The audio files written for a day: every section's, then the roundup's. */
  function BriefFiles(scored: seq<(string, seq<ScoredItem>)>, dayDir: string): seq<string> {
    SectionFiles(scored, dayDir) + [AudioPath(dayDir, "roundup", ".mp3"), AudioPath(dayDir, "roundup", ".ogg")]
  }

  /** The append calls made to the day's page: the body, the roundup audio, every section's audio. */
  function BriefAppends(pageId: string, scored: seq<(string, seq<ScoredItem>)>, summaries: seq<string>, threshold: int,
                        dayDir: string, repo: Option<string>, branch: string): seq<Append> {
    PublishedAppends(pageId, PageBody(RoundupText(scored, threshold), summaries),
                     AudioUrl(repo, branch, dayDir, "roundup"), AudioUrls(scored, repo, branch, dayDir))
  }

  /**
   * `main`: fetch and score the given sections (the default ones in the program), summarize
   * each, build the roundup, then publish to the page titled with the date. `files` are the
   * paths of the audio files written, in order; `newId` and `newUrl` are what the server
   * assigns to a created page.
   */
  method DailyBrief(ws: Workspace, sources: seq<(string, FeedConfig)>, now: int, fetch: string -> Feed,
                    parse: string -> Option<Stamp>, llm: (string, string) -> Reply, complete: (string, string) -> string,
                    threshold: int, outputDir: string, dateStr: string, repo: Option<string>, branch: string,
                    dbId: string, newId: string, newUrl: string)
    returns (pageId: string, files: seq<string>)
    modifies ws
    ensures old(FindFirst(ws.pages, dbId, dateStr)).Some? ==>
      ws.pages == old(ws.pages) && pageId == old(FindFirst(ws.pages, dbId, dateStr)).value.id
    ensures old(FindFirst(ws.pages, dbId, dateStr)).None? ==>
      ws.pages == old(ws.pages) + [Page(newId, dbId, dateStr, newUrl)] && pageId == newId
    ensures FindFirst(ws.pages, dbId, dateStr).Some? && FindFirst(ws.pages, dbId, dateStr).value.id == pageId
    ensures
      var scored := ScoredSections(sources, Cutoff(now, SinceHours), fetch, parse, llm);
      && files == BriefFiles(scored, DayDir(outputDir, dateStr))
      && ws.appends == old(ws.appends) +
        BriefAppends(pageId, scored, Summaries(scored, Prompts(sources), complete), threshold, DayDir(outputDir, dateStr), repo, branch)
  {
    var dayDir := DayDir(outputDir, dateStr);
    var scored, summaries, roundupMd, sectionFiles, audioUrls :=
      PrepareBrief(sources, now, fetch, parse, llm, complete, threshold, dayDir, repo, branch);
    files := sectionFiles + [AudioPath(dayDir, "roundup", ".mp3"), AudioPath(dayDir, "roundup", ".ogg")];
    pageId := PublishBrief(ws, dbId, dateStr, newId, newUrl, PageBody(roundupMd, summaries),
                           AudioUrl(repo, branch, dayDir, "roundup"), audioUrls);
  }
}
