/**
 * How the three launchers differ: which links each accepts and which path
 * each saves for the same answers.
 */
module Variants {
  import opened Text
  import opened TmeLinks
  import TdlGui
  import TdlGuiTest
  import TdlGuiEn

  // ---------------------------------------------------------------------------
  // Link checks
  // ---------------------------------------------------------------------------

  /** Whatever the main launcher accepts as a single-file link, the test launcher accepts too. */
  lemma SingleFileMainWithinTest(url: string)
    requires TdlGui.IsSingleFileUrl(url)
    ensures TdlGuiTest.IsSingleFileUrl(url)
  {
    TdlGui.SingleFileUrlLanguage(url);
    TdlGuiTest.SingleFileUrlCoversMessages(url);
  }

  /** The test launcher accepts a single-file link that is not on `t.me` at all. */
  lemma SingleFileTestLooser()
    ensures TdlGuiTest.IsSingleFileUrl("https://example.com/")
    ensures !TdlGui.IsSingleFileUrl("https://example.com/")
  {
    var url := "https://example.com/";
    assert url[..8] == "https://";
    assert url[8] != "https://t.me/"[8];
    assert url[4] != "http://t.me/"[4];
  }

  /** Every base link of the test launcher is one of the main launcher's. */
  lemma BaseLinkTestWithinMain(link: string)
    requires TdlGuiTest.IsBaseLink(link)
    ensures TdlGui.IsBaseLink(link)
  {
  }

  /** Every full-chat link of the test launcher is one of the main launcher's. */
  lemma MessageUrlTestWithinMain(url: string)
    requires TdlGuiTest.IsMessageUrl(url)
    ensures TdlGui.IsMessageUrl(url)
  {
  }

  /** Every topic base link (`c/<d>/<d>/`) is accepted by the main launcher and refused by the test launcher. */
  lemma TopicBaseLinkOnlyInMain(b: BaseLink)
    requires b.Valid() && b.topicId.Some?
    ensures TdlGui.IsBaseLink(RenderBase(b))
    ensures !TdlGuiTest.IsBaseLink(RenderBase(b))
  {
    BaseSegmentsSlashFree(b);
    SplitUrlOfRender(b.scheme, BaseSegments(b));
    assert BaseSegments(b) == ["c", b.chat.channelId, b.topicId.value, ""];
  }

  /** Every topic message link (`c/<d>/<d>/<d>`) is accepted by the main launcher and refused by the test launcher. */
  lemma TopicMessageUrlOnlyInMain(m: MessageLink)
    requires m.Valid() && m.topicId.Some?
    ensures TdlGui.IsMessageUrl(RenderMessage(m))
    ensures !TdlGuiTest.IsMessageUrl(RenderMessage(m))
  {
    MessageSegmentsSlashFree(m);
    SplitUrlOfRender(m.scheme, MessageSegments(m));
    assert MessageSegments(m) == ["c", m.chat.channelId, m.topicId.value, m.messageId];
  }

  /** The English launcher accepts exactly the links the main launcher accepts. */
  lemma EnglishChecksMatchMain(url: string)
    ensures TdlGuiEn.IsSingleFileUrl(url) <==> TdlGui.IsSingleFileUrl(url)
    ensures TdlGuiEn.IsBaseLink(url) <==> TdlGui.IsBaseLink(url)
    ensures TdlGuiEn.IsMessageUrl(url) <==> TdlGui.IsMessageUrl(url)
  {
    TdlGui.SingleFileUrlLanguage(url);
    TdlGuiEn.SingleFileUrlLanguage(url);
    TdlGui.BaseLinkLanguage(url);
    TdlGuiEn.BaseLinkLanguage(url);
    TdlGui.MessageUrlLanguage(url);
    TdlGuiEn.MessageUrlLanguage(url);
  }

  // ---------------------------------------------------------------------------
  // Path dialogs
  // ---------------------------------------------------------------------------

  /**
   * A path dialog confirmed with only spaces: the main launcher saves the
   * spaces as the path, the other two fall back to the launcher directory.
   */
  lemma BlankPathRules(launcherDir: string)
    ensures TdlGui.PathOrDefault(Some("  "), launcherDir) == "  "
    ensures TdlGuiEn.PathOrDefault(Some("  "), launcherDir) == launcherDir
    ensures TdlGuiTest.PathOrDefault(TdlGuiTest.StringDialogResult(Some("  ")), launcherDir) == launcherDir
  {
    StripSpaces();
  }

  /**
   * A path typed with surrounding spaces: the main and English launchers save
   * it as typed, the test launcher saves it stripped.
   */
  lemma PaddedPathRules(launcherDir: string)
    ensures TdlGui.PathOrDefault(Some(" D: "), launcherDir) == " D: "
    ensures TdlGuiEn.PathOrDefault(Some(" D: "), launcherDir) == " D: "
    ensures TdlGuiTest.PathOrDefault(TdlGuiTest.StringDialogResult(Some(" D: ")), launcherDir) == "D:"
  {
    assert Stripped("D:");
    StripPadded("D:");
    assert [' '] + "D:" + [' '] == " D: ";
  }
}
