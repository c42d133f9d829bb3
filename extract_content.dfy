// Page-content extraction (src/content/utils/extractContent.ts): keep the
// visible, significant text blocks of the main content, in document order,
// then accumulate them, each followed by a blank line, until the next block
// would push the text past 5000 characters.
// The DOM is abstracted: the candidate elements (the h1, h2, h3, p and li
// elements under the chosen root, in document order) are records carrying
// their text, their computed display and visibility, and whether they lie
// inside a nav, footer, header or aside element.

module ExtractContent {
  import opened JsValues

  const MinBlockLength := 40
  const MaxBlockLength := 600
  const MaxChars := 5000
  const Separator := "\n\n"

  datatype Element = Element(textContent: string, display: string, visibility: string,
                             insideExcluded: bool)

  /** What the extraction reads from the page: the title, the location and
      the candidate elements. */
  datatype Document = Document(title: string, href: string, hostname: string, elements: seq<Element>)

  datatype PageContent = PageContent(title: string, url: string, domain: string, content: string)

  predicate Hidden(e: Element)
  {
    e.display == "none" || e.visibility == "hidden"
  }

  /** An element contributes a block: it is visible, outside the excluded
      regions, and its trimmed text has between 40 and 600 characters. */
  predicate Kept(e: Element)
  {
    !Hidden(e) && !e.insideExcluded &&
    MinBlockLength <= |Trim(e.textContent)| <= MaxBlockLength
  }

  /** The blocks of the kept elements, in document order. */
  function KeptBlocks(elements: seq<Element>): (blocks: seq<string>)
    ensures |blocks| <= |elements|
    ensures forall j :: 0 <= j < |blocks| ==> MinBlockLength <= |blocks[j]| <= MaxBlockLength
  {
    if elements == [] then []
    else
      var e := elements[|elements| - 1];
      KeptBlocks(elements[..|elements| - 1]) + (if Kept(e) then [Trim(e.textContent)] else [])
  }

  /** Blocks of consecutive stretches of the page come out in the same order. */
  lemma {:induction false} KeptBlocksAppend(a: seq<Element>, b: seq<Element>)
    ensures KeptBlocks(a + b) == KeptBlocks(a) + KeptBlocks(b)
  {
    if b != [] {
      var ab := a + b;
      assert ab[..|ab| - 1] == a + b[..|b| - 1];
      KeptBlocksAppend(a, b[..|b| - 1]);
    } else {
      assert a + b == a;
    }
  }

  /** An element that is hidden, inside an excluded region, or whose trimmed
      text is too short or too long contributes nothing, wherever it stands. */
  lemma DroppedElementContributesNothing(a: seq<Element>, e: Element, b: seq<Element>)
    requires !Kept(e)
    ensures KeptBlocks(a + [e] + b) == KeptBlocks(a + b)
  {
    assert [e][..0] == [];
    assert KeptBlocks([e]) == [];
    KeptBlocksAppend(a, [e]);
    assert KeptBlocks(a + [e]) == KeptBlocks(a);
    KeptBlocksAppend(a + [e], b);
    KeptBlocksAppend(a, b);
  }

  /** The first loop: `blocks.push(text)` for every kept element. */
  method CollectBlocks(elements: seq<Element>) returns (blocks: seq<string>)
    ensures blocks == KeptBlocks(elements)
  {
    blocks := [];
    var i := 0;
    while i < |elements|
      invariant 0 <= i <= |elements|
      invariant blocks == KeptBlocks(elements[..i])
    {
      var el := elements[i];
      var text := Trim(el.textContent);
      assert elements[..i + 1][..i] == elements[..i];
      assert KeptBlocks(elements[..i + 1]) == KeptBlocks(elements[..i]) + (if Kept(el) then [text] else []);
      if !Hidden(el) && !el.insideExcluded {
        if MinBlockLength <= |text| <= MaxBlockLength {
          blocks := blocks + [text];
        }
      }
      i := i + 1;
    }
    assert elements[..i] == elements;
  }

  /** The blocks, each followed by the separator, concatenated. */
  function Joined(blocks: seq<string>): (s: string)
  {
    if blocks == [] then ""
    else Joined(blocks[..|blocks| - 1]) + blocks[|blocks| - 1] + Separator
  }

  /** Taking the first `k` blocks obeys the loop's rule: each of them fitted
      when it was reached, and (unless all were taken) block `k` did not. */
  ghost predicate StopsAt(blocks: seq<string>, k: nat)
    requires k <= |blocks|
  {
    (forall j :: 0 <= j < k ==> |Joined(blocks[..j])| + |blocks[j]| <= MaxChars) &&
    (k < |blocks| ==> |Joined(blocks[..k])| + |blocks[k]| > MaxChars)
  }

  /** The second loop: `content` is the joined prefix of the blocks that ends
      at the first block that does not fit, so no later block, however short,
      is added; it is at most 5002 characters long (5000 and one separator),
      and it is non-empty when the first block is short enough to fit. */
  method CapContent(blocks: seq<string>) returns (content: string)
    ensures exists k :: 0 <= k <= |blocks| && content == Joined(blocks[..k]) && StopsAt(blocks, k)
    ensures |content| <= MaxChars + |Separator|
    ensures blocks != [] && |blocks[0]| <= MaxChars ==> content != ""
  {
    content := "";
    var i := 0;
    while i < |blocks|
      invariant 0 <= i <= |blocks|
      invariant content == Joined(blocks[..i])
      invariant forall j :: 0 <= j < i ==> |Joined(blocks[..j])| + |blocks[j]| <= MaxChars
      invariant |content| <= MaxChars + |Separator|
      invariant i > 0 ==> content != ""
    {
      var block := blocks[i];
      if |content + block| > MaxChars {
        break;
      }
      assert blocks[..i + 1][..i] == blocks[..i];
      content := content + block + Separator;
      i := i + 1;
    }
    assert StopsAt(blocks, i);
  }

  /** extractPageContentSafe: title, URL and host name are passed through,
      and the content is the capped join of the kept blocks. */
  method ExtractPageContentSafe(doc: Document) returns (page: PageContent)
    ensures page.title == doc.title && page.url == doc.href && page.domain == doc.hostname
    ensures var blocks := KeptBlocks(doc.elements);
            exists k :: 0 <= k <= |blocks| && page.content == Joined(blocks[..k]) && StopsAt(blocks, k)
    ensures |page.content| <= MaxChars + |Separator|
    ensures KeptBlocks(doc.elements) != [] ==> page.content != ""
  {
    var blocks := CollectBlocks(doc.elements);
    var content := CapContent(blocks);
    page := PageContent(doc.title, doc.href, doc.hostname, content);
  }
}
