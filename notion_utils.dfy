/**
 * The Notion helpers: the line-by-line Markdown-to-block classifier, the audio block
 * pair, and the find-or-create rule for the daily page. The Notion workspace is modelled
 * by what the helpers can observe and change: the pages of each database, in the order a
 * query returns them, and the log of block lists appended to pages.
 */
module NotionUtils {
  import opened Wrappers
  import opened Text
  import opened Lists

  /** The block kinds the helpers create, with their text content (or URL). */
  datatype Block =
    | Heading2(text: string)
    | Bullet(text: string)
    | Paragraph(text: string)
    | Heading3(text: string)
    | ExternalAudio(url: string)

  /** A page of a database: its id, its database, its title property and its URL. */
  datatype Page = Page(id: string, database: string, title: string, url: string)

  /** One `blocks.children.append` call: the page it targets and the blocks, in order. */
  datatype Append = Append(blockId: string, children: seq<Block>)

  // ---------------------------------------------------------------------------
  // append_markdown: the line classifier
  // ---------------------------------------------------------------------------

  /** The block a line becomes, if any. */
  function ClassifyLine(line: string): Option<Block> {
    if StartsWith(line, "## ") then Some(Heading2(Strip(line[3..])))
    else if StartsWith(line, "- ") then Some(Bullet(Strip(line[2..])))
    else if Strip(line) == "" then None
    else Some(Paragraph(line))
  }

  /**
   * "## " gives a level-2 heading and "- " a bullet, each holding the rest of the line
   * stripped; any other line that is not whitespace only gives a paragraph holding the
   * line unchanged.
   */
  lemma ClassifyLineRule(line: string)
    ensures StartsWith(line, "## ") ==> ClassifyLine(line) == Some(Heading2(Strip(line[3..])))
    ensures !StartsWith(line, "## ") && StartsWith(line, "- ") ==> ClassifyLine(line) == Some(Bullet(Strip(line[2..])))
    ensures !StartsWith(line, "## ") && !StartsWith(line, "- ") && !AllSpace(line) ==> ClassifyLine(line) == Some(Paragraph(line))
  {
    StripEmptyIffAllSpace(line);
  }

  /** A line gives no block exactly when it is whitespace only. */
  lemma ClassifyLineBlank(line: string)
    ensures ClassifyLine(line).None? <==> AllSpace(line)
  {
    StripEmptyIffAllSpace(line);
    if StartsWith(line, "## ") || StartsWith(line, "- ") {
      assert !IsSpace(line[0]);
    }
  }

  /** The blocks a Markdown text becomes, one per line that is not blank, in line order. */
  function MarkdownBlocks(md: string): seq<Block> {
    FilterMap(SplitLines(md), ClassifyLine)
  }

  /** The lines that are not whitespace only, in order. */
  function NonBlank(lines: seq<string>): (r: seq<string>)
    ensures |r| <= |lines|
  {
    if lines == [] then []
    else NonBlank(lines[..|lines| - 1]) + (if AllSpace(lines[|lines| - 1]) then [] else [lines[|lines| - 1]])
  }

  /** The lines that give a block are the lines that are not whitespace only. */
  lemma {:induction false} NonBlankKept(lines: seq<string>)
    ensures NonBlank(lines) == Kept(lines, ClassifyLine)
  {
    if lines != [] {
      NonBlankKept(lines[..|lines| - 1]);
      ClassifyLineBlank(lines[|lines| - 1]);
    }
  }

  /**
   * One block per non-blank line: the number of blocks is the number of non-blank lines,
   * and the i-th block is the classification of the i-th non-blank line.
   */
  lemma BlocksOfNonBlank(lines: seq<string>)
    ensures |FilterMap(lines, ClassifyLine)| == |NonBlank(lines)|
    ensures forall i :: 0 <= i < |NonBlank(lines)| ==>
      ClassifyLine(NonBlank(lines)[i]) == Some(FilterMap(lines, ClassifyLine)[i])
  {
    NonBlankKept(lines);
    FilterMapKept(lines, ClassifyLine);
  }

  /**
   * Text assembled from lines that hold no line break becomes the blocks of those lines,
   * in order; a trailing empty line, which `splitlines` does not give back, gives no block.
   */
  lemma MarkdownBlocksOfLines(lines: seq<string>)
    requires forall k :: 0 <= k < |lines| ==> NoLineBreak(lines[k])
    ensures MarkdownBlocks(Join("\n", lines)) == FilterMap(lines, ClassifyLine)
  {
    if lines == [] || lines[|lines| - 1] != [] {
      SplitLinesJoin(lines);
    } else {
      SplitLinesJoinTrailing(lines);
      ClassifyLineBlank(lines[|lines| - 1]);
    }
  }

  // ---------------------------------------------------------------------------
  // find_or_create_daily_page
  // ---------------------------------------------------------------------------

  predicate Matches(p: Page, db: string, title: string) {
    p.database == db && p.title == title
  }

  /** What the database query filtered on the title returns with a page size of one. */
  function FindFirst(pages: seq<Page>, db: string, title: string): (r: Option<Page>)
    ensures r.Some? ==> r.value in pages && Matches(r.value, db, title)
    ensures r.None? <==> forall p :: p in pages ==> !Matches(p, db, title)
  {
    if pages == [] then None
    else if Matches(pages[0], db, title) then Some(pages[0])
    else
      assert forall p :: p in pages ==> p == pages[0] || p in pages[1..];
      FindFirst(pages[1..], db, title)
  }

  /** The page found is the earliest matching one. */
  lemma {:induction false} FindFirstIsEarliest(pages: seq<Page>, db: string, title: string, i: nat)
    requires i < |pages| && Matches(pages[i], db, title)
    requires forall j :: 0 <= j < i ==> !Matches(pages[j], db, title)
    ensures FindFirst(pages, db, title) == Some(pages[i])
  {
    if i > 0 {
      FindFirstIsEarliest(pages[1..], db, title, i - 1);
    }
  }

  /** A page added at the end is found only when no earlier page matches. */
  lemma {:induction false} FindFirstAppend(pages: seq<Page>, q: Page, db: string, title: string)
    ensures FindFirst(pages + [q], db, title) ==
      if FindFirst(pages, db, title).Some? then FindFirst(pages, db, title)
      else if Matches(q, db, title) then Some(q) else None
  {
    if pages != [] {
      assert (pages + [q])[1..] == pages[1..] + [q];
      FindFirstAppend(pages[1..], q, db, title);
    }
  }

  /** The append calls `append_markdown` makes for a text: one, or none when it gives no block. */
  function MarkdownAppends(pageId: string, md: string): seq<Append> {
    if MarkdownBlocks(md) == [] then [] else [Append(pageId, MarkdownBlocks(md))]
  }

  /** The loop of `append_markdown`: every line classified, the blocks kept in line order. */
  method LinesToBlocks(lines: seq<string>) returns (blocks: seq<Block>)
    ensures blocks == FilterMap(lines, ClassifyLine)
  {
    blocks := [];
    for i := 0 to |lines|
      invariant blocks == FilterMap(lines[..i], ClassifyLine)
    {
      assert lines[..i + 1][..i] == lines[..i];
      var block := ClassifyLine(lines[i]);
      blocks := blocks + block.ToSeq();
    }
    assert lines[..|lines|] == lines;
  }

  /** The pages and the append log of a Notion workspace, as the helpers see them. */
  class Workspace {
    var pages: seq<Page>
    var appends: seq<Append>

    constructor (pages0: seq<Page>)
      ensures pages == pages0 && appends == []
    {
      pages := pages0;
      appends := [];
    }

    /**
     * `find_or_create_daily_page`: the first page of the database titled `title`, or a page
     * created with that title when there is none. `newId` and `newUrl` are what the server
     * assigns to a created page.
     */
    method FindOrCreateDailyPage(dbId: string, title: string, newId: string, newUrl: string)
      returns (pageId: string, url: string)
      modifies this
      ensures appends == old(appends)
      ensures old(FindFirst(pages, dbId, title)).Some? ==>
        pages == old(pages) && Page(pageId, dbId, title, url) == old(FindFirst(pages, dbId, title)).value
      ensures old(FindFirst(pages, dbId, title)).None? ==>
        pages == old(pages) + [Page(newId, dbId, title, newUrl)] && pageId == newId && url == newUrl
      ensures FindFirst(pages, dbId, title) == Some(Page(pageId, dbId, title, url))
    {
      var found := FindFirst(pages, dbId, title);
      if found.Some? {
        return found.value.id, found.value.url;
      }
      FindFirstAppend(pages, Page(newId, dbId, title, newUrl), dbId, title);
      pages := pages + [Page(newId, dbId, title, newUrl)];
      pageId, url := newId, newUrl;
    }

    /** Two look-ups of the same title create at most one page, and both give the same page. */
    method FindOrCreateTwice(dbId: string, title: string, newId1: string, newUrl1: string, newId2: string, newUrl2: string)
      returns (id1: string, id2: string)
      modifies this
      ensures id1 == id2
      ensures appends == old(appends)
      ensures old(FindFirst(pages, dbId, title)).Some? ==>
        pages == old(pages) && id1 == old(FindFirst(pages, dbId, title)).value.id
      ensures old(FindFirst(pages, dbId, title)).None? ==>
        pages == old(pages) + [Page(newId1, dbId, title, newUrl1)] && id1 == newId1
    {
      var url1, url2;
      id1, url1 := FindOrCreateDailyPage(dbId, title, newId1, newUrl1);
      id2, url2 := FindOrCreateDailyPage(dbId, title, newId2, newUrl2);
    }

    /**
     * `append_markdown`: the blocks of the text's lines, in order, appended to the page in
     * one call, and no call when no line gives a block.
     */
    method AppendMarkdown(pageId: string, md: string)
      modifies this
      ensures pages == old(pages)
      ensures appends == old(appends) + MarkdownAppends(pageId, md)
    {
      var blocks := LinesToBlocks(SplitLines(md));
      if blocks != [] {
        appends := appends + [Append(pageId, blocks)];
      }
    }

    /** `append_audio`: a level-3 heading and an external audio block, in one call. */
    method AppendAudio(pageId: string, heading: string, audioUrl: string)
      modifies this
      ensures pages == old(pages)
      ensures appends == old(appends) + [Append(pageId, [Heading3(heading), ExternalAudio(audioUrl)])]
    {
      appends := appends + [Append(pageId, [Heading3(heading), ExternalAudio(audioUrl)])];
    }
  }
}
