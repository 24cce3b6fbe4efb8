/**
 * The appender of SlackAppender.kt: the payload data classes, the severity
 * style tables, the plugin factory, and what `append` would post.
 */
module Slack {
  import opened Wrappers
  import opened Kotlin
  import opened Log4j

  // ---------------------------------------------------------------- payload

  /** One attachment of a chat message; all three fields are serialised under these names. */
  datatype Attachment = Attachment(fallback: string, text: string, color: string)

  /** The chat message posted to the webhook; `iconEmoji` is serialised as `icon_emoji`. */
  datatype SlackMessage = SlackMessage(
    channel: string,
    text: string,
    attachments: seq<Attachment> := [],
    iconEmoji: string,
    username: string)

  // ------------------------------------------------------------ style tables

  /** The pairs given to `mapOf` for ICON_MAP, in source order. */
  const IconPairs: seq<(int, string)> := [
    (IntLevel(Trace), ":pawprints:"),
    (IntLevel(Debug), ":beetle:"),
    (IntLevel(Info), ":suspect:"),
    (IntLevel(Warn), ":goberserk:"),
    (IntLevel(Error), ":feelsgood:"),
    (IntLevel(Fatal), ":finnadie:")
  ]

  /** The pairs given to `mapOf` for COLOR_MAP, in source order. */
  const ColorPairs: seq<(int, string)> := [
    (IntLevel(Trace), "#6f6d6d"),
    (IntLevel(Debug), "#b5dae9"),
    (IntLevel(Info), "#5f9ea0"),
    (IntLevel(Warn), "#ff9122"),
    (IntLevel(Error), "#ff4444"),
    (IntLevel(Fatal), "#b03e3c")
  ]

  /** ICON_MAP: level weight to emoji token. */
  const IconMap: map<int, string> := MapOf(IconPairs)

  /** COLOR_MAP: level weight to attachment colour. */
  const ColorMap: map<int, string> := MapOf(ColorPairs)

  /** The weights of the six levels the tables style. */
  const StyledWeights: set<int> := {600, 500, 400, 300, 200, 100}

  /** A level whose weight is one of the six styled ones. */
  predicate Styled(level: Level)
  {
    IntLevel(level) in StyledWeights
  }

  // ------------------------------------------------------------ the appender

  /** What `webClient(...)` is built from: a TLS client with these three timeouts. */
  datatype WebClientConfig = WebClientConfig(
    connectTimeoutMillis: Int32,
    readTimeoutSeconds: Int64,
    writeTimeoutSeconds: Int64)

  /** A constructed appender; every field is a `val`, so the record never changes. */
  datatype SlackAppender = SlackAppender(
    name: string,
    filter: Option<Filter>,
    layout: Layout,
    ignoreExceptions: bool,
    properties: seq<Property>,
    client: WebClientConfig,
    url: string,
    channel: string,
    username: string)

  /** The plugin factory `createAppender`, called once the framework has resolved and validated the attributes. */
  function CreateAppender(
    name: string, layout: Option<Layout>, filter: Option<Filter>,
    url: string, channel: string, username: string,
    connectionTimeoutInMillis: Int32, readTimeoutInSecond: Int64, writeTimeoutInSecond: Int64
  ): (a: SlackAppender)
    ensures a.layout == (if layout.Some? then layout.value else DefaultLayout)
    ensures !a.ignoreExceptions && a.properties == []
    ensures a.name == name && a.filter == filter
    ensures a.url == url && a.channel == channel && a.username == username
    ensures a.client.connectTimeoutMillis == connectionTimeoutInMillis
    ensures a.client.readTimeoutSeconds == readTimeoutInSecond
    ensures a.client.writeTimeoutSeconds == writeTimeoutInSecond
  {
    SlackAppender(
      name := name,
      filter := filter,
      layout := if layout.Some? then layout.value else DefaultLayout,
      ignoreExceptions := false,
      properties := [],
      client := WebClientConfig(connectionTimeoutInMillis, readTimeoutInSecond, writeTimeoutInSecond),
      url := url,
      channel := channel,
      username := username)
  }

  // ----------------------------------------------- framework attribute intake

  /** The factory's attributes as the configuration gives them; None is an attribute left out. */
  datatype PluginAttributes = PluginAttributes(
    name: Option<string>,
    layout: Option<Layout>,
    filter: Option<Filter>,
    url: Option<string>,
    channel: Option<string>,
    username: Option<string>,
    connectionTimeoutInMillis: Option<Int32>,
    readTimeoutInSecond: Option<Int64>,
    writeTimeoutInSecond: Option<Int64>)

  const DefaultConnectionTimeoutInMillis: Int32 := 2000
  const DefaultReadTimeoutInSecond: Int64 := 3
  const DefaultWriteTimeoutInSecond: Int64 := 3

  /** A `@Required` string attribute is satisfied when present and non-empty. */
  predicate Provided(v: Option<string>)
  {
    v.Some? && |v.value| > 0
  }

  /** The `@Required` message of one attribute, when it is not satisfied. */
  function Check(v: Option<string>, message: string): seq<string>
  {
    if Provided(v) then [] else [message]
  }

  /** Every `@Required` message whose attribute is missing, in parameter order. */
  function Violations(attrs: PluginAttributes): (errs: seq<string>)
    ensures errs == [] <==>
      Provided(attrs.name) && Provided(attrs.url) && Provided(attrs.channel) && Provided(attrs.username)
    ensures "No name provided" in errs <==> !Provided(attrs.name)
    ensures "No webhookUrl provided" in errs <==> !Provided(attrs.url)
    ensures "No channel provided" in errs <==> !Provided(attrs.channel)
    ensures "No username provided" in errs <==> !Provided(attrs.username)
  {
    Check(attrs.name, "No name provided")
      + Check(attrs.url, "No webhookUrl provided")
      + Check(attrs.channel, "No channel provided")
      + Check(attrs.username, "No username provided")
  }

  /**
   * What the framework does with the factory: run every required-field
   * validator, and call `createAppender` with the declared defaults for the
   * timeouts only when none of them failed.
   */
  function FromAttributes(attrs: PluginAttributes): (r: Result<SlackAppender, seq<string>>)
    ensures r.Failure? <==> !(Provided(attrs.name) && Provided(attrs.url) && Provided(attrs.channel) && Provided(attrs.username))
    ensures r.Failure? ==> r.error == Violations(attrs) && |r.error| > 0
    ensures r.Success? ==> r.value == CreateAppender(
      attrs.name.value, attrs.layout, attrs.filter,
      attrs.url.value, attrs.channel.value, attrs.username.value,
      attrs.connectionTimeoutInMillis.GetOr(DefaultConnectionTimeoutInMillis),
      attrs.readTimeoutInSecond.GetOr(DefaultReadTimeoutInSecond),
      attrs.writeTimeoutInSecond.GetOr(DefaultWriteTimeoutInSecond))
  {
    var errs := Violations(attrs);
    if errs != [] then Failure(errs)
    else
      Success(CreateAppender(
        attrs.name.value, attrs.layout, attrs.filter,
        attrs.url.value, attrs.channel.value, attrs.username.value,
        attrs.connectionTimeoutInMillis.GetOr(DefaultConnectionTimeoutInMillis),
        attrs.readTimeoutInSecond.GetOr(DefaultReadTimeoutInSecond),
        attrs.writeTimeoutInSecond.GetOr(DefaultWriteTimeoutInSecond)))
  }

  // --------------------------------------------------------------- appending

  /** The system property Spring reads the active profiles from. */
  const ActiveProfilesProperty := "spring.profiles.active"

  /** `System.getProperty(key)`: the value, or null when the property is not set. */
  function GetProperty(props: map<string, string>, key: string): (v: Option<string>)
    ensures v.Some? <==> key in props
    ensures v.Some? ==> v.value == props[key]
  {
    if key in props then Some(props[key]) else None
  }

  /** The headline `"[$profile] ${event.loggerName}"`. */
  function Headline(profile: Option<string>, loggerName: Option<string>): string
  {
    "[" + Template(profile) + "] " + Template(loggerName)
  }

  /**
   * The message-building part of the `let` block of `append`: the message
   * built for an event whose message, `message`, is not null. `serialized` is
   * the text of what `layout.toSerializable(event)` returned. Either lookup
   * throws for a level outside the tables.
   */
  function BuildMessage(
    channel: string, username: string, profile: Option<string>,
    event: LogEvent, message: Message, serialized: string
  ): (r: Result<SlackMessage, NoSuchElement<int>>)
    ensures r.Success? <==> Styled(event.level)
    ensures r.Failure? ==> r.error == NoSuchElement(IntLevel(event.level))
    ensures r.Success? ==>
      && r.value.channel == channel
      && r.value.username == username
      && r.value.text == "[" + Template(profile) + "] " + Template(event.loggerName)
      && IntLevel(event.level) in IconMap && IntLevel(event.level) in ColorMap
      && r.value.iconEmoji == IconMap[IntLevel(event.level)]
      && r.value.attachments == [Attachment(
           fallback := message.formattedMessage,
           text := serialized,
           color := ColorMap[IntLevel(event.level)])]
  {
    StyleTablesDomain();
    match GetValue(IconMap, IntLevel(event.level))
    case Failure(e) => Failure(e)
    case Success(icon) =>
      match GetValue(ColorMap, IntLevel(event.level))
      case Failure(e) => Failure(e)
      case Success(color) =>
        Success(SlackMessage(
          channel := channel,
          iconEmoji := icon,
          text := Headline(profile, event.loggerName),
          attachments := [Attachment(color := color, fallback := message.formattedMessage, text := serialized)],
          username := username))
  }

  /** What one call of `append` leads to. */
  datatype Dispatch =
    | Skipped                                  // the event has no message: nothing is posted
    | Posted(url: string, body: SlackMessage)  // this body is posted to this url, without waiting
    | Thrown(error: NoSuchElement<int>)        // a style lookup threw before anything was posted

  /**
   * `append(event)`: read the active profile, and when the event carries a
   * message, build the chat message and post it to the appender's url.
   */
  function Append(
    appender: SlackAppender, event: LogEvent,
    systemProperties: map<string, string>, serialized: string
  ): (d: Dispatch)
    ensures d.Skipped? <==> event.message.None?
    ensures d.Thrown? <==> event.message.Some? && !Styled(event.level)
    ensures d.Thrown? ==> d.error.key == IntLevel(event.level)
    ensures d.Posted? ==>
      && d.url == appender.url
      && d.body == BuildMessage(appender.channel, appender.username,
           GetProperty(systemProperties, ActiveProfilesProperty),
           event, event.message.value, serialized).value
  {
    var profile := GetProperty(systemProperties, ActiveProfilesProperty);
    match event.message
    case None => Skipped
    case Some(message) =>
      match BuildMessage(appender.channel, appender.username, profile, event, message, serialized)
      case Failure(e) => Thrown(e)
      case Success(m) => Posted(appender.url, m)
  }

  // ---------------------------------------------------------------- lemmas

  lemma IconPairsDistinct()
    ensures DistinctKeys(IconPairs) && DistinctValues(IconPairs)
  {
  }

  lemma ColorPairsDistinct()
    ensures DistinctKeys(ColorPairs) && DistinctValues(ColorPairs)
  {
  }

  /** Both tables are defined for exactly the six styled weights. */
  lemma StyleTablesDomain()
    ensures IconMap.Keys == StyledWeights
    ensures ColorMap.Keys == IconMap.Keys
  {
    assert KeysOf(IconPairs) == StyledWeights by {
      assert forall k :: k in StyledWeights ==> exists i :: 0 <= i < |IconPairs| && IconPairs[i].0 == k by {
        assert IconPairs[0].0 == 600 && IconPairs[1].0 == 500 && IconPairs[2].0 == 400;
        assert IconPairs[3].0 == 300 && IconPairs[4].0 == 200 && IconPairs[5].0 == 100;
      }
    }
    assert KeysOf(ColorPairs) == StyledWeights by {
      assert forall k :: k in StyledWeights ==> exists i :: 0 <= i < |ColorPairs| && ColorPairs[i].0 == k by {
        assert ColorPairs[0].0 == 600 && ColorPairs[1].0 == 500 && ColorPairs[2].0 == 400;
        assert ColorPairs[3].0 == 300 && ColorPairs[4].0 == 200 && ColorPairs[5].0 == 100;
      }
    }
  }

  /** `mapOf` over the literal pairs of ICON_MAP yields exactly the table the source spells out. */
  lemma IconMapContents()
    ensures IconMap == map[600 := ":pawprints:", 500 := ":beetle:", 400 := ":suspect:",
                           300 := ":goberserk:", 200 := ":feelsgood:", 100 := ":finnadie:"]
  {
    StyleTablesDomain();
    IconPairsDistinct();
    MapOfDistinct(IconPairs, 0);
    MapOfDistinct(IconPairs, 1);
    MapOfDistinct(IconPairs, 2);
    MapOfDistinct(IconPairs, 3);
    MapOfDistinct(IconPairs, 4);
    MapOfDistinct(IconPairs, 5);
  }

  /** `mapOf` over the literal pairs of COLOR_MAP yields exactly the table the source spells out. */
  lemma ColorMapContents()
    ensures ColorMap == map[600 := "#6f6d6d", 500 := "#b5dae9", 400 := "#5f9ea0",
                            300 := "#ff9122", 200 := "#ff4444", 100 := "#b03e3c"]
  {
    StyleTablesDomain();
    ColorPairsDistinct();
    MapOfDistinct(ColorPairs, 0);
    MapOfDistinct(ColorPairs, 1);
    MapOfDistinct(ColorPairs, 2);
    MapOfDistinct(ColorPairs, 3);
    MapOfDistinct(ColorPairs, 4);
    MapOfDistinct(ColorPairs, 5);
  }

  /**
   * No two styled weights share an icon, and no two share a colour. Levels
   * of equal weight, such as INFO and a custom level of weight 400, share both.
   */
  lemma StyleTokensDistinct()
    ensures Injective(IconMap) && Injective(ColorMap)
  {
    IconPairsDistinct();
    ColorPairsDistinct();
    MapOfInjective(IconPairs);
    MapOfInjective(ColorPairs);
  }

  /** Every icon and every colour in the tables is a non-empty token. */
  lemma StyleTokensNonEmpty()
    ensures forall k :: k in IconMap ==> |IconMap[k]| > 0
    ensures forall k :: k in ColorMap ==> |ColorMap[k]| > 0
  {
    assert forall k :: k in IconMap ==> |IconMap[k]| > 0 by {
      IconMapContents();
    }
    assert forall k :: k in ColorMap ==> |ColorMap[k]| > 0 by {
      ColorMapContents();
    }
  }

  /** Of the built-in levels exactly OFF and ALL have no style. */
  lemma BuiltInLevelsStyled(level: Level)
    requires !level.Custom?
    ensures Styled(level) <==> !(level.Off? || level.All?)
    ensures IntLevel(level) in IconMap <==> Styled(level)
  {
    StyleTablesDomain();
  }

  /**
   * Two messages built under the same configuration and profile are equal
   * exactly when the inputs agree on what the message shows. Those are the
   * rendered logger name (a null name reads as "null"), the formatted text of
   * the message argument, the layout output and the level's weight.
   */
  lemma BuildDeterminedBy(
    channel: string, username: string, profile: Option<string>,
    e1: LogEvent, m1: Message, s1: string,
    e2: LogEvent, m2: Message, s2: string)
    requires Styled(e1.level) && Styled(e2.level)
    ensures BuildMessage(channel, username, profile, e1, m1, s1) == BuildMessage(channel, username, profile, e2, m2, s2)
      <==> && Template(e1.loggerName) == Template(e2.loggerName)
           && m1.formattedMessage == m2.formattedMessage
           && s1 == s2
           && IntLevel(e1.level) == IntLevel(e2.level)
  {
    var b1 := BuildMessage(channel, username, profile, e1, m1, s1);
    var b2 := BuildMessage(channel, username, profile, e2, m2, s2);
    if b1 == b2 {
      var prefix := "[" + Template(profile) + "] ";
      assert b1.value.text == prefix + Template(e1.loggerName);
      assert b2.value.text == prefix + Template(e2.loggerName);
      assert Template(e1.loggerName) == b1.value.text[|prefix|..];
      assert Template(e2.loggerName) == b2.value.text[|prefix|..];
      StyleTokensDistinct();
      assert b1.value.iconEmoji == b2.value.iconEmoji;
      assert b1.value.attachments[0] == b2.value.attachments[0];
    }
  }

  /** A Thrown dispatch is never silently replaced by a default style. */
  lemma UnstyledLevelNeverPosts(appender: SlackAppender, event: LogEvent, props: map<string, string>, serialized: string)
    requires !Styled(event.level)
    ensures !Append(appender, event, props, serialized).Posted?
    ensures event.message.Some? ==> Append(appender, event, props, serialized) == Thrown(NoSuchElement(IntLevel(event.level)))
  {
  }

  /** An appender made from valid attributes posts to the configured url with the configured channel and username. */
  lemma ConfiguredAppenderPostsToWebhook(attrs: PluginAttributes, event: LogEvent, props: map<string, string>, serialized: string)
    requires Provided(attrs.name) && Provided(attrs.url) && Provided(attrs.channel) && Provided(attrs.username)
    requires event.message.Some? && Styled(event.level)
    ensures FromAttributes(attrs).Success?
    ensures var d := Append(FromAttributes(attrs).value, event, props, serialized);
      && d.Posted?
      && d.url == attrs.url.value
      && d.body.channel == attrs.channel.value
      && d.body.username == attrs.username.value
  {
  }

  /** Without timeout attributes the client gets 2000 ms to connect and 3 s to read and to write. */
  lemma TimeoutDefaults(attrs: PluginAttributes)
    requires Provided(attrs.name) && Provided(attrs.url) && Provided(attrs.channel) && Provided(attrs.username)
    requires attrs.connectionTimeoutInMillis.None? && attrs.readTimeoutInSecond.None? && attrs.writeTimeoutInSecond.None?
    ensures FromAttributes(attrs).Success?
    ensures FromAttributes(attrs).value.client == WebClientConfig(2000, 3, 3)
  {
  }

  /** The headline of the test scenario, spelled out. */
  lemma TestHeadline()
    ensures Headline(Some("testttt"), Some("testLogger")) == "[testttt] testLogger"
  {
    var h := "[" + "testttt" + "] " + "testLogger";
    assert |h| == 20;
    forall i | 0 <= i < 20 ensures h[i] == "[testttt] testLogger"[i] {
    }
  }

  /**
   * The scenario of the appender's test: profile "testttt", an appender made
   * by calling `createAppender` directly with channel "#channel" and username
   * "userName", and an INFO event of logger "testLogger" with message
   * "success". The body posted is the expected request of the test with the
   * layout output as attachment text.
   */
  lemma TestScenario(url: string, serialized: string)
    ensures
      var appender := CreateAppender("test", None, None, url, "#channel", "userName", 1000, 1000, 1000);
      var event := LogEvent(Info, Some("testLogger"), Some(Message("success")));
      Append(appender, event, map[ActiveProfilesProperty := "testttt"], serialized)
        == Posted(url, SlackMessage(
             channel := "#channel",
             iconEmoji := ":suspect:",
             text := "[testttt] testLogger",
             attachments := [Attachment(color := "#5f9ea0", fallback := "success", text := serialized)],
             username := "userName"))
  {
    assert IconMap[400] == ":suspect:" by { IconMapContents(); }
    assert ColorMap[400] == "#5f9ea0" by { ColorMapContents(); }
    TestHeadline();
  }
}
