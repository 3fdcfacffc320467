/** The `WordCountAndTimePlugin` plugin: the shared filter, with the block and
    the content concatenated with nothing between them. */
module OurFirstUniquePlugin {
  import opened Options
  import opened Statistics
  import PostStatistics

  /** The text between block and content in this plugin. */
  const Separator := ""

  /** The content filter: the post with its statistics block, or the post
      untouched when the gate is closed. */
  function IfWrap(host: Host, isMainQuery: bool, isSingle: bool, cfg: Settings, content: string): (r: string)
    ensures r == content <==> !(isMainQuery && isSingle && cfg.AnyToggle())
    ensures isMainQuery && isSingle && cfg.AnyToggle() ==> r == CreateHtml(host, cfg, content)
  {
    Filter(Separator, host, isMainQuery, isSingle, cfg, content)
  }

  /** The block joined to the content: block then content when the location
      is exactly "0", otherwise content then block. */
  function CreateHtml(host: Host, cfg: Settings, content: string): (r: string)
    ensures cfg.location == "0" ==> r == Block(host, cfg, content) + content
    ensures cfg.location != "0" ==> r == content + Block(host, cfg, content)
  {
    var b := Place(Separator, cfg.location, Block(host, cfg, content), content);
    assert cfg.location == Beginning ==> b == Block(host, cfg, content) + content;
    assert cfg.location != Beginning ==> b == content + Block(host, cfg, content);
    b
  }

  /** The two plugins produce the same text except for the one space the
      other inserts between block and content. */
  lemma DiffersOnlyBySeparator(host: Host, isMainQuery: bool, isSingle: bool, cfg: Settings, content: string)
    ensures var mine := IfWrap(host, isMainQuery, isSingle, cfg, content);
      var theirs := PostStatistics.AddStatisticsToContent(host, isMainQuery, isSingle, cfg, content);
      var at := if cfg.location == Beginning then |Block(host, cfg, content)| else |content|;
      if Applies(isMainQuery, isSingle, cfg) then
        at < |theirs| && theirs[at] == ' ' && mine == theirs[..at] + theirs[at + 1..]
      else
        mine == theirs
  {
    if Applies(isMainQuery, isSingle, cfg) {
      var b := Block(host, cfg, content);
      var theirs := PostStatistics.AddStatisticsToContent(host, isMainQuery, isSingle, cfg, content);
      if cfg.location == Beginning {
        assert theirs == b + " " + content;
        assert theirs[..|b|] == b && theirs[|b| + 1..] == content;
      } else {
        assert theirs == content + " " + b;
        assert theirs[..|content|] == content && theirs[|content| + 1..] == b;
      }
    }
  }
}
