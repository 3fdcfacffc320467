/** The `Post_Statistics` plugin: the shared filter, with the block and the
    content joined by a single space. */
module PostStatistics {
  import opened Options
  import opened Statistics

  /** The text between block and content in this plugin. */
  const Separator := " "

  /** The content filter: the post with its statistics block, or the post
      untouched when the gate is closed. */
  function AddStatisticsToContent(host: Host, isMainQuery: bool, isSingle: bool, cfg: Settings, content: string): (r: string)
    ensures r == content <==> !(isMainQuery && isSingle && cfg.AnyToggle())
    ensures isMainQuery && isSingle && cfg.AnyToggle() ==> r == CreatePostHtml(host, cfg, content)
  {
    Filter(Separator, host, isMainQuery, isSingle, cfg, content)
  }

  /** The block joined to the content: block, space, content when the
      location is exactly "0", otherwise content, space, block. */
  function CreatePostHtml(host: Host, cfg: Settings, content: string): (r: string)
    ensures cfg.location == "0" ==> r == Block(host, cfg, content) + " " + content
    ensures cfg.location != "0" ==> r == content + " " + Block(host, cfg, content)
  {
    var b := Place(Separator, cfg.location, Block(host, cfg, content), content);
    assert cfg.location == Beginning ==> b == Block(host, cfg, content) + " " + content;
    assert cfg.location != Beginning ==> b == content + " " + Block(host, cfg, content);
    b
  }
}
