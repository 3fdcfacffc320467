/** The content filter shared by both plugins: the gate, the statistics block
    and its placement around the post content. For string inputs the two
    plugins differ only in the text that joins block and content, so that
    separator is a parameter. */
module Statistics {
  import opened Decimal
  import opened ReadTime
  import opened Options

  /** The host primitives the filter relies on, left uninterpreted. */
  datatype Host = Host(
    stripTags: string -> string,    // strip_tags
    wordCount: string -> nat,       // str_word_count
    escHtml: string -> string,      // esc_html
    escHtmlI18n: string -> string)  // esc_html__ in the plugin's text domain

  /** Words in the post: the host's word count of the tag-stripped text. */
  function WordsOf(host: Host, content: string): nat {
    host.wordCount(host.stripTags(content))
  }

  /** Characters in the post: the length of the tag-stripped text. */
  function CharsOf(host: Host, content: string): nat {
    |host.stripTags(content)|
  }

  /** One line of the block, with the number it reports. */
  datatype Stat = WordLine(words: nat) | CharLine(chars: nat) | ReadLine(minutes: nat)
  {
    /** Position of the line in the fixed order word, character, read time. */
    function Rank(): nat {
      match this
      case WordLine(_) => 0
      case CharLine(_) => 1
      case ReadLine(_) => 2
    }
  }

  /** The lines of the block for the given counts: each present exactly when
      its toggle is truthy, in the fixed order, and nothing else. */
  function StatLines(cfg: Settings, words: nat, chars: nat): (lines: seq<Stat>)
    ensures WordLine(words) in lines <==> Truthy(cfg.wordCount)
    ensures CharLine(chars) in lines <==> Truthy(cfg.charCount)
    ensures ReadLine(Minutes(words)) in lines <==> Truthy(cfg.readTime)
    ensures forall l :: l in lines ==> l in [WordLine(words), CharLine(chars), ReadLine(Minutes(words))]
    ensures forall i, j :: 0 <= i < j < |lines| ==> lines[i].Rank() < lines[j].Rank()
    ensures |lines| == 0 <==> !cfg.AnyToggle()
  {
    (if Truthy(cfg.wordCount) then [WordLine(words)] else [])
    + (if Truthy(cfg.charCount) then [CharLine(chars)] else [])
    + (if Truthy(cfg.readTime) then [ReadLine(Minutes(words))] else [])
  }

  function WordLineText(host: Host, n: nat): string {
    host.escHtmlI18n("This post has") + " " + NatToString(n) + " " + host.escHtmlI18n("words") + "<br>"
  }

  function CharLineText(n: nat): string {
    "This post has " + NatToString(n) + " characters. <br>"
  }

  function ReadLineText(n: nat): string {
    "This will take about " + NatToString(n) + " minute(s) to read. <br>"
  }

  function RenderLine(host: Host, l: Stat): string {
    match l
    case WordLine(n) => WordLineText(host, n)
    case CharLine(n) => CharLineText(n)
    case ReadLine(n) => ReadLineText(n)
  }

  function RenderLines(host: Host, lines: seq<Stat>): string
    decreases |lines|
  {
    if |lines| == 0 then "" else RenderLine(host, lines[0]) + RenderLines(host, lines[1..])
  }

  /** Rendering a concatenation of lines renders each part in turn. */
  lemma {:induction false} RenderLinesAppend(host: Host, a: seq<Stat>, b: seq<Stat>)
    ensures RenderLines(host, a + b) == RenderLines(host, a) + RenderLines(host, b)
    decreases |a|
  {
    if |a| > 0 {
      assert (a + b)[0] == a[0];
      assert (a + b)[1..] == a[1..] + b;
      RenderLinesAppend(host, a[1..], b);
    } else {
      assert a + b == b;
    }
  }

  /** An optional single line renders to its text or to nothing. */
  lemma RenderOptionalLine(host: Host, present: bool, l: Stat)
    ensures RenderLines(host, if present then [l] else []) == Optional(present, RenderLine(host, l))
  {
    if present {
      assert [l][1..] == [];
    }
  }

  /** The opening of the block: the escaped headline, then the paragraph. */
  function Header(host: Host, headline: string): string {
    "<h3>" + host.escHtml(headline) + "</h3><p>"
  }

  /** The statistics block for a post: the header, the enabled lines, the
      closing paragraph tag. */
  function Block(host: Host, cfg: Settings, content: string): (b: string)
    ensures Header(host, cfg.headline) <= b
    ensures |b| >= |Header(host, cfg.headline)| + 4 && b[|b| - 4..] == "</p>"
  {
    Header(host, cfg.headline)
    + RenderLines(host, StatLines(cfg, WordsOf(host, content), CharsOf(host, content)))
    + "</p>"
  }

  function Optional(present: bool, text: string): string {
    if present then text else ""
  }

  /** The block, written out as the flat text the source assembles: each
      line is there exactly when its toggle is truthy, word line first, read
      time last, and each reports the count of the tag-stripped content. */
  lemma BlockText(host: Host, cfg: Settings, content: string)
    ensures Block(host, cfg, content)
         == Header(host, cfg.headline)
          + Optional(Truthy(cfg.wordCount), WordLineText(host, WordsOf(host, content)))
          + Optional(Truthy(cfg.charCount), CharLineText(CharsOf(host, content)))
          + Optional(Truthy(cfg.readTime), ReadLineText(Minutes(WordsOf(host, content))))
          + "</p>"
  {
    var w, c := WordsOf(host, content), CharsOf(host, content);
    var tw := Optional(Truthy(cfg.wordCount), WordLineText(host, w));
    var tc := Optional(Truthy(cfg.charCount), CharLineText(c));
    var tr := Optional(Truthy(cfg.readTime), ReadLineText(Minutes(w)));
    assert RenderLines(host, StatLines(cfg, w, c)) == tw + tc + tr by {
      var lw := if Truthy(cfg.wordCount) then [WordLine(w)] else [];
      var lc := if Truthy(cfg.charCount) then [CharLine(c)] else [];
      var lr := if Truthy(cfg.readTime) then [ReadLine(Minutes(w))] else [];
      assert StatLines(cfg, w, c) == lw + lc + lr;
      RenderLinesAppend(host, lw + lc, lr);
      RenderLinesAppend(host, lw, lc);
      RenderOptionalLine(host, Truthy(cfg.wordCount), WordLine(w));
      RenderOptionalLine(host, Truthy(cfg.charCount), CharLine(c));
      RenderOptionalLine(host, Truthy(cfg.readTime), ReadLine(Minutes(w)));
    }
    ConcatAssoc(Header(host, cfg.headline), tw, tc, tr, "</p>");
  }

  lemma ConcatAssoc(a: string, b: string, c: string, d: string, e: string)
    ensures a + (b + c + d) + e == a + b + c + d + e
  {
  }

  /** The filter fires only for the main query on a single post with at
      least one statistic switched on. */
  predicate Applies(isMainQuery: bool, isSingle: bool, cfg: Settings) {
    isMainQuery && isSingle && cfg.AnyToggle()
  }

  /** Joins block and content: block first exactly when the location is "0". */
  function Place(sep: string, location: string, block: string, content: string): (r: string)
    ensures |r| == |block| + |sep| + |content|
    ensures location == Beginning ==>
      r[..|block|] == block && r[|block|..|block| + |sep|] == sep && r[|block| + |sep|..] == content
    ensures location != Beginning ==>
      r[..|content|] == content && r[|content|..|content| + |sep|] == sep && r[|content| + |sep|..] == block
  {
    if location == Beginning then block + sep + content else content + sep + block
  }

  /** Splits a placed output back into (block, content), given the location
      and the length of the block. */
  function Unplace(sep: string, location: string, blockLen: nat, out: string): (string, string)
    requires blockLen + |sep| <= |out|
  {
    if location == Beginning then
      (out[..blockLen], out[blockLen + |sep|..])
    else
      (out[|out| - blockLen..], out[..|out| - blockLen - |sep|])
  }

  /** Placement never alters the block or the content: both come back out. */
  lemma UnplacePlace(sep: string, location: string, block: string, content: string)
    ensures Unplace(sep, location, |block|, Place(sep, location, block, content)) == (block, content)
  {
  }

  /** The content filter. */
  function Filter(sep: string, host: Host, isMainQuery: bool, isSingle: bool, cfg: Settings, content: string): (r: string)
    ensures r == content <==> !Applies(isMainQuery, isSingle, cfg)
    ensures Applies(isMainQuery, isSingle, cfg) ==> |r| > |content|
  {
    if Applies(isMainQuery, isSingle, cfg) then
      Place(sep, cfg.location, Block(host, cfg, content), content)
    else
      content
  }

  /** The original content is always the tail (block first) or the head
      (block last) of the output. */
  lemma ContentKept(sep: string, host: Host, isMainQuery: bool, isSingle: bool, cfg: Settings, content: string)
    ensures var r := Filter(sep, host, isMainQuery, isSingle, cfg, content);
      (cfg.location == Beginning ==> content == r[|r| - |content|..])
      && (cfg.location != Beginning ==> content <= r)
  {
  }

  /** The filter is not idempotent: once it fires, running it again on its
      own output keeps that output whole and adds a second block, built from
      the statistics of the already augmented text. */
  lemma FilterNotIdempotent(sep: string, host: Host, cfg: Settings, content: string)
    requires Applies(true, true, cfg)
    ensures var once := Filter(sep, host, true, true, cfg, content);
      var twice := Filter(sep, host, true, true, cfg, once);
      var again := Block(host, cfg, once);
      && |twice| == |once| + |sep| + |again|
      && |again| >= |Header(host, cfg.headline)| + 4
      && (cfg.location == Beginning ==> once == twice[|twice| - |once|..] && again == twice[..|again|])
      && (cfg.location != Beginning ==> once <= twice && again == twice[|twice| - |again|..])
  {
  }
}
