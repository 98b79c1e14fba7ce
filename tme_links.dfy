/**
 * The grammar of the Telegram links the launchers accept, shared by all three.
 *
 * Every accepted link starts with `http://t.me/` or `https://t.me/`, followed
 * by a path. The path either names a private chat, `c/<digits>`, possibly with
 * a topic `<digits>`, or a public chat by a username of 5 to 32 characters
 * drawn from `[A-Za-z0-9_]`. A message link then ends in `/<digits>`. A base
 * link for a range download ends in `/`.
 *
 * The launchers test links with regular expressions. This module gives each
 * link form as a value (`MessageLink`, `BaseLink`) together with its rendering
 * as text. The accepted language is then "the renderings of valid values"
 * (`MessageLanguage`, `BaseLanguage`). The `topics` flag says whether the
 * forms with a topic segment belong to it. `SplitUrl` cuts a text at its
 * `/` characters after the fixed prefix. The recognisers in the launcher
 * modules are written over its pieces.
 */
module TmeLinks {
  import opened Text

  datatype Scheme = Http | Https

  /** A chat: private chats are addressed by numeric id, public ones by username. */
  datatype Chat = Private(channelId: string) | Public(username: string)

  function SchemePrefix(scheme: Scheme): string {
    match scheme
    case Http => "http://t.me/"
    case Https => "https://t.me/"
  }

  /** The regex class `[A-Za-z0-9_]`. */
  predicate IsUsernameChar(c: char) {
    ('A' <= c <= 'Z') || ('a' <= c <= 'z') || IsDigit(c) || c == '_'
  }

  /** The regex `[A-Za-z0-9_]{5,32}`. */
  predicate IsUsername(s: string) {
    5 <= |s| <= 32 && forall i :: 0 <= i < |s| ==> IsUsernameChar(s[i])
  }

  predicate ValidChat(chat: Chat) {
    match chat
    case Private(id) => IsDigits(id)
    case Public(u) => IsUsername(u)
  }

  /** A link to one message, optionally inside a topic of a private chat. */
  datatype MessageLink = MessageLink(scheme: Scheme, chat: Chat, topicId: Option<string>, messageId: string) {
    predicate Valid() {
      && ValidChat(chat)
      && (topicId.Some? ==> chat.Private? && IsDigits(topicId.value))
      && IsDigits(messageId)
    }
  }

  /** The starting point of a range download: a chat, or a topic of a private chat. */
  datatype BaseLink = BaseLink(scheme: Scheme, chat: Chat, topicId: Option<string>) {
    predicate Valid() {
      && ValidChat(chat)
      && (topicId.Some? ==> chat.Private? && IsDigits(topicId.value))
    }
  }

  function ChatSegments(chat: Chat, topicId: Option<string>): seq<string> {
    match chat
    case Private(id) => ["c", id] + (if topicId.Some? then [topicId.value] else [])
    case Public(u) => [u]
  }

  function MessageSegments(m: MessageLink): seq<string> {
    ChatSegments(m.chat, m.topicId) + [m.messageId]
  }

  /** A base link ends in `/`: its last segment is empty. */
  function BaseSegments(b: BaseLink): seq<string> {
    ChatSegments(b.chat, b.topicId) + [""]
  }

  function RenderSegments(scheme: Scheme, segs: seq<string>): string
    requires |segs| >= 1
  {
    SchemePrefix(scheme) + JoinWith(segs, "/")
  }

  function RenderMessage(m: MessageLink): string {
    RenderSegments(m.scheme, MessageSegments(m))
  }

  function RenderBase(b: BaseLink): string {
    RenderSegments(b.scheme, BaseSegments(b))
  }

  /** `url.startswith('http://') or url.startswith('https://')`, the same test as the regex `^https?://`. */
  predicate HasHttpScheme(url: string) {
    "http://" <= url || "https://" <= url
  }

  /** The scheme and the `/`-separated path segments of a text starting with `http(s)://t.me/`. */
  function SplitUrl(url: string): Option<(Scheme, seq<string>)> {
    if "https://t.me/" <= url then Some((Https, SplitOn(url[13..], "/")))
    else if "http://t.me/" <= url then Some((Http, SplitOn(url[12..], "/")))
    else None
  }

  /** The texts that render some valid message link (without topic forms unless `topics`). */
  ghost predicate MessageLanguage(url: string, topics: bool) {
    exists m: MessageLink :: m.Valid() && (topics || m.topicId.None?) && RenderMessage(m) == url
  }

  /** The texts that render some valid base link (without topic forms unless `topics`). */
  ghost predicate BaseLanguage(url: string, topics: bool) {
    exists b: BaseLink :: b.Valid() && (topics || b.topicId.None?) && RenderBase(b) == url
  }

  /** The segment lists of message links: `c/<d>/<d>`, `c/<d>/<d>/<d>` (topic), `<username>/<d>`. */
  predicate MessageShape(segs: seq<string>, topics: bool) {
    || (|segs| == 3 && segs[0] == "c" && IsDigits(segs[1]) && IsDigits(segs[2]))
    || (topics && |segs| == 4 && segs[0] == "c" && IsDigits(segs[1]) && IsDigits(segs[2]) && IsDigits(segs[3]))
    || (|segs| == 2 && IsUsername(segs[0]) && IsDigits(segs[1]))
  }

  /** The segment lists of base links: `c/<d>/`, `c/<d>/<d>/` (topic), `<username>/`. */
  predicate BaseShape(segs: seq<string>, topics: bool) {
    || (|segs| == 3 && segs[0] == "c" && IsDigits(segs[1]) && segs[2] == "")
    || (topics && |segs| == 4 && segs[0] == "c" && IsDigits(segs[1]) && IsDigits(segs[2]) && segs[3] == "")
    || (|segs| == 2 && IsUsername(segs[0]) && segs[1] == "")
  }

  predicate SlashFree(segs: seq<string>) {
    forall k :: 0 <= k < |segs| ==> '/' !in segs[k]
  }

  // ---------------------------------------------------------------------------
  // SplitUrl and rendering are inverse
  // ---------------------------------------------------------------------------

  /** Splitting a text and rendering its pieces gives back the text. */
  lemma SplitUrlRenders(url: string)
    requires SplitUrl(url).Some?
    ensures SlashFree(SplitUrl(url).value.1)
    ensures RenderSegments(SplitUrl(url).value.0, SplitUrl(url).value.1) == url
  {
    if "https://t.me/" <= url {
      PrefixedRenders(Https, url);
    } else {
      PrefixedRenders(Http, url);
    }
  }

  /** `SplitUrlRenders` for a text that starts with the prefix of `scheme`. */
  lemma PrefixedRenders(scheme: Scheme, url: string)
    requires SchemePrefix(scheme) <= url
    ensures SlashFree(SplitOn(url[|SchemePrefix(scheme)|..], "/"))
    ensures RenderSegments(scheme, SplitOn(url[|SchemePrefix(scheme)|..], "/")) == url
  {
    var p := SchemePrefix(scheme);
    var rest := url[|p|..];
    SplitCharPieces(rest, '/');
    assert url == p + rest;
  }

  /** Rendering slash-free pieces and splitting the text gives back the pieces. */
  lemma SplitUrlOfRender(scheme: Scheme, segs: seq<string>)
    requires |segs| >= 1 && SlashFree(segs)
    ensures SplitUrl(RenderSegments(scheme, segs)) == Some((scheme, segs))
  {
    var url := RenderSegments(scheme, segs);
    var p := SchemePrefix(scheme);
    SplitJoinChar(segs, '/');
    assert url[|p|..] == JoinWith(segs, "/");
    if scheme == Http {
      assert url[4] == ':';
    }
  }

  /** A text with the `t.me` prefix has an http(s) scheme. */
  lemma SplitUrlHasScheme(url: string)
    requires SplitUrl(url).Some?
    ensures HasHttpScheme(url)
  {
    if "https://t.me/" <= url {
      assert url[..8] == "https://";
    } else {
      assert url[..7] == "http://";
    }
  }

  lemma DigitsSlashFree(s: string)
    requires IsDigits(s) || IsUsername(s)
    ensures '/' !in s
  {
  }

  lemma MessageSegmentsSlashFree(m: MessageLink)
    requires m.Valid()
    ensures SlashFree(MessageSegments(m))
  {
    var segs := MessageSegments(m);
    forall k | 0 <= k < |segs|
      ensures '/' !in segs[k]
    {
      if segs[k] != "c" {
        DigitsSlashFree(segs[k]);
      }
    }
  }

  lemma BaseSegmentsSlashFree(b: BaseLink)
    requires b.Valid()
    ensures SlashFree(BaseSegments(b))
  {
    var segs := BaseSegments(b);
    forall k | 0 <= k < |segs|
      ensures '/' !in segs[k]
    {
      if segs[k] != "c" && segs[k] != "" {
        DigitsSlashFree(segs[k]);
      }
    }
  }

  // ---------------------------------------------------------------------------
  // The languages in terms of segments
  // ---------------------------------------------------------------------------

  /** The message link whose segments are `segs`. */
  function MessageOfShape(scheme: Scheme, segs: seq<string>, topics: bool): (m: MessageLink)
    requires MessageShape(segs, topics)
    ensures m.Valid() && (topics || m.topicId.None?)
    ensures m.scheme == scheme && MessageSegments(m) == segs
  {
    if |segs| == 2 then MessageLink(scheme, Public(segs[0]), None, segs[1])
    else if |segs| == 3 then MessageLink(scheme, Private(segs[1]), None, segs[2])
    else MessageLink(scheme, Private(segs[1]), Some(segs[2]), segs[3])
  }

  /** The base link whose segments are `segs`. */
  function BaseOfShape(scheme: Scheme, segs: seq<string>, topics: bool): (b: BaseLink)
    requires BaseShape(segs, topics)
    ensures b.Valid() && (topics || b.topicId.None?)
    ensures b.scheme == scheme && BaseSegments(b) == segs
  {
    if |segs| == 2 then BaseLink(scheme, Public(segs[0]), None)
    else if |segs| == 3 then BaseLink(scheme, Private(segs[1]), None)
    else BaseLink(scheme, Private(segs[1]), Some(segs[2]))
  }

  /** A valid message link splits back into its own segments, which have a message shape. */
  lemma MessageLinkSplits(m: MessageLink, topics: bool)
    requires m.Valid() && (topics || m.topicId.None?)
    ensures SplitUrl(RenderMessage(m)) == Some((m.scheme, MessageSegments(m)))
    ensures MessageShape(MessageSegments(m), topics)
  {
    MessageSegmentsSlashFree(m);
    SplitUrlOfRender(m.scheme, MessageSegments(m));
  }

  /** A valid base link splits back into its own segments, which have a base shape. */
  lemma BaseLinkSplits(b: BaseLink, topics: bool)
    requires b.Valid() && (topics || b.topicId.None?)
    ensures SplitUrl(RenderBase(b)) == Some((b.scheme, BaseSegments(b)))
    ensures BaseShape(BaseSegments(b), topics)
  {
    BaseSegmentsSlashFree(b);
    SplitUrlOfRender(b.scheme, BaseSegments(b));
  }

  /** A text is a rendered message link exactly when its pieces have one of the message shapes. */
  lemma MessageLanguageShapes(url: string, topics: bool)
    ensures MessageLanguage(url, topics) <==> SplitUrl(url).Some? && MessageShape(SplitUrl(url).value.1, topics)
  {
    if SplitUrl(url).Some? && MessageShape(SplitUrl(url).value.1, topics) {
      var (scheme, segs) := SplitUrl(url).value;
      SplitUrlRenders(url);
      var m := MessageOfShape(scheme, segs, topics);
      assert RenderMessage(m) == url;
    }
    if MessageLanguage(url, topics) {
      var m: MessageLink :| m.Valid() && (topics || m.topicId.None?) && RenderMessage(m) == url;
      MessageLinkSplits(m, topics);
    }
  }

  /** A text is a rendered base link exactly when its pieces have one of the base shapes. */
  lemma BaseLanguageShapes(url: string, topics: bool)
    ensures BaseLanguage(url, topics) <==> SplitUrl(url).Some? && BaseShape(SplitUrl(url).value.1, topics)
  {
    if SplitUrl(url).Some? && BaseShape(SplitUrl(url).value.1, topics) {
      var (scheme, segs) := SplitUrl(url).value;
      SplitUrlRenders(url);
      var b := BaseOfShape(scheme, segs, topics);
      assert RenderBase(b) == url;
    }
    if BaseLanguage(url, topics) {
      var b: BaseLink :| b.Valid() && (topics || b.topicId.None?) && RenderBase(b) == url;
      BaseLinkSplits(b, topics);
    }
  }

  /** Every accepted link is plain ASCII text. */
  lemma MessageLanguageAscii(url: string, topics: bool)
    requires MessageLanguage(url, topics)
    ensures AllAscii(url)
  {
    var m: MessageLink :| m.Valid() && (topics || m.topicId.None?) && RenderMessage(m) == url;
    RenderMessageAscii(m);
  }

  /** A valid message link renders as ASCII text. */
  lemma RenderMessageAscii(m: MessageLink)
    requires m.Valid()
    ensures AllAscii(RenderMessage(m))
  {
    var segs := MessageSegments(m);
    MessageSegmentsAscii(m);
    JoinAscii(segs, "/");
    AllAsciiAppend(SchemePrefix(m.scheme), JoinWith(segs, "/"));
  }

  /** The segments of a valid message link are ASCII. */
  lemma MessageSegmentsAscii(m: MessageLink)
    requires m.Valid()
    ensures forall k :: 0 <= k < |MessageSegments(m)| ==> AllAscii(MessageSegments(m)[k])
  {
    var segs := MessageSegments(m);
    forall k | 0 <= k < |segs|
      ensures AllAscii(segs[k])
    {
    }
  }

  lemma {:induction false} JoinAscii(segs: seq<string>, sep: string)
    requires |segs| >= 1 && AllAscii(sep)
    requires forall k :: 0 <= k < |segs| ==> AllAscii(segs[k])
    ensures AllAscii(JoinWith(segs, sep))
    decreases |segs|
  {
    if |segs| > 1 {
      JoinAscii(segs[1..], sep);
    }
  }

  // ---------------------------------------------------------------------------
  // Base-link normalisation
  // ---------------------------------------------------------------------------

  /** Strip the entered text and append `/` unless it already ends in one. */
  function NormaliseBase(s: string): (r: string)
    ensures |r| > 0 && r[|r| - 1] == '/'
    ensures Strip(s) <= r && |r| <= |Strip(s)| + 1
    ensures r == Strip(s) <==> Strip(s) != [] && Strip(s)[|Strip(s)| - 1] == '/'
  {
    var t := Strip(s);
    if |t| > 0 && t[|t| - 1] == '/' then t else t + "/"
  }

  /** Normalising a normalised link changes nothing. */
  lemma NormaliseBaseIdempotent(s: string)
    ensures NormaliseBase(NormaliseBase(s)) == NormaliseBase(s)
  {
    var r := NormaliseBase(s);
    var t := Strip(s);
    assert !IsSpace('/');
    assert r[0] == (if t == [] then '/' else t[0]);
    assert Stripped(r);
    StripKeepsStripped(r);
    NormaliseBaseKeeps(r);
  }

  /** An entered link whose stripped text already ends in `/` is saved as that stripped text. */
  lemma NormaliseBaseKeeps(s: string)
    requires Strip(s) != [] && Strip(s)[|Strip(s)| - 1] == '/'
    ensures NormaliseBase(s) == Strip(s)
  {
  }
}
