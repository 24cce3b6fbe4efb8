# Slack appender for log4j, modelled in Dafny

This model covers the pure part of a log4j appender, `SlackAppender`. The appender forwards log events to a Slack webhook as chat messages. The model covers:

- the two severity style tables, `ICON_MAP` and `COLOR_MAP`, built with Kotlin's `mapOf` and read with `getValue`;
- the message built by `append` for one event: the data classes `Attachment` and `SlackMessage`;
- the outcome of one `append` call: nothing posted, a body posted to the configured url, or an exception from a style lookup;
- the plugin factory `createAppender`, together with the framework step before it: declared timeout defaults and the `@Required` validation.

The model has four modules:

- `Wrappers` (`Wrappers.dfy`): `Option` for nullable values and `Result` for thrown exceptions.
- `Kotlin` (`Kotlin.dfy`): the language semantics the source relies on.
  - `Int`/`Long` widths.
  - The string template `"$v"`, which turns a null `v` into the text `null`.
  - `mapOf`: pairs are inserted left to right, so the last pair with a key wins.
  - `Map.getValue`: it throws `NoSuchElementException` for a missing key and never falls back to a default.
- `Log4j` (`Log4j.dfy`): the framework values the appender reads.
  - A level and its `intLevel()` weight: OFF 0, FATAL 100, ERROR 200, WARN 300, INFO 400, DEBUG 500, TRACE 600, ALL `Integer.MAX_VALUE`, or a custom level with its own weight.
  - An event: its level, a nullable logger name and a nullable message with a formatted text.
  - Layouts, filters and properties.
- `Slack` (`Slack.dfy`):
  - the payload records;
  - the tables, as `MapOf` over the literal pairs of the source;
  - `CreateAppender` and `FromAttributes`;
  - `BuildMessage`, which is the message-building part of the `let` block of `append`;
  - `Append`;
  - the lemmas.

In these places the model keeps what the code does:

- **Absent profile.** An unset `spring.profiles.active` is inserted by a string template, so the headline reads `[null] logger`, not `[] logger`.
- **Null logger name.** The logger name is inserted by the same template, so a null name also renders as `null`.
- **Errors.** The source does not promise that nothing is ever thrown into the logging call. A level outside the six styled weights makes `getValue` throw before anything is posted. Examples are OFF, ALL, or a custom level with another weight. The model reports this as `Thrown`, not as a silent no-op.
- **Custom levels.** The tables key on the integer weight. A custom level whose weight is one of the six, say 400, therefore gets that level's style, here the INFO style.

## Model

| member | source | states |
|---|---|---|
| `Kotlin.Template` | src/main/kotlin/kr/co/kcd/example/SlackAppender.kt:111 | a template inserts the string itself, or the text "null" for a null value |
| `Kotlin.MapOf` | src/main/kotlin/kr/co/kcd/example/SlackAppender.kt:56-72 | the map built by `mapOf` has exactly the keys that occur in its pairs |
| `Kotlin.MapOfLastWins` | src/main/kotlin/kr/co/kcd/example/SlackAppender.kt:56-72 | each key is bound to the value of the last pair that mentions it |
| `Kotlin.MapOfDistinct` | src/main/kotlin/kr/co/kcd/example/SlackAppender.kt:56-72 | with distinct keys every pair is found in the map as written |
| `Kotlin.MapOfInjective` | src/main/kotlin/kr/co/kcd/example/SlackAppender.kt:56-72 | distinct keys with distinct values give a map in which no two keys share a value |
| `Log4j.BuiltInWeights` | src/main/kotlin/kr/co/kcd/example/SlackAppender.kt:57-62 | two built-in levels have the same `intLevel()` weight only if they are the same level |
| `Log4j.SeverityWeights` | src/main/kotlin/kr/co/kcd/example/SlackAppender.kt:57-62 | `intLevel()` gives FATAL 100, ERROR 200, WARN 300, INFO 400, DEBUG 500 and TRACE 600, the keys of both tables |
| `Kotlin.GetValue` | src/main/kotlin/kr/co/kcd/example/SlackAppender.kt:110-114 | the lookup succeeds exactly for keys in the map, with the bound value; otherwise it fails with an error naming that key, never a default |
| `Slack.IconPairsDistinct` | src/main/kotlin/kr/co/kcd/example/SlackAppender.kt:56-63 | the six ICON_MAP pairs have pairwise distinct weights and pairwise distinct icons |
| `Slack.ColorPairsDistinct` | src/main/kotlin/kr/co/kcd/example/SlackAppender.kt:65-72 | the six COLOR_MAP pairs have pairwise distinct weights and pairwise distinct colours |
| `Slack.StyleTablesDomain` | src/main/kotlin/kr/co/kcd/example/SlackAppender.kt:56-72 | ICON_MAP is defined for exactly the weights 600, 500, 400, 300, 200, 100, and COLOR_MAP has the same key set |
| `Slack.IconMapContents` | src/main/kotlin/kr/co/kcd/example/SlackAppender.kt:56-63 | ICON_MAP equals the six weight-to-emoji entries written in the source |
| `Slack.ColorMapContents` | src/main/kotlin/kr/co/kcd/example/SlackAppender.kt:65-72 | COLOR_MAP equals the six weight-to-colour entries written in the source |
| `Slack.StyleTokensDistinct` | src/main/kotlin/kr/co/kcd/example/SlackAppender.kt:56-72 | no two styled weights share an icon, and no two share a colour; levels of equal weight, such as INFO and a custom level of weight 400, share both |
| `Slack.StyleTokensNonEmpty` | src/main/kotlin/kr/co/kcd/example/SlackAppender.kt:56-72 | every icon and colour token is non-empty |
| `Slack.BuiltInLevelsStyled` | src/main/kotlin/kr/co/kcd/example/SlackAppender.kt:56-72 | among the built-in levels, every level except OFF and ALL has a style |
| `Slack.CreateAppender` | src/main/kotlin/kr/co/kcd/example/SlackAppender.kt:87-101 | the default pattern layout when none is given, else the given one; ignoreExceptions false; no properties; name, filter, url, channel, username and the three timeouts are passed through unchanged |
| `Slack.Violations` | src/main/kotlin/kr/co/kcd/example/SlackAppender.kt:77-82 | the list of required-attribute messages is empty exactly when name, url, channel and username are all given and non-empty. Each message is in the list exactly when its attribute is missing: "No name provided", "No webhookUrl provided", "No channel provided", "No username provided" |
| `Slack.FromAttributes` | src/main/kotlin/kr/co/kcd/example/SlackAppender.kt:76-101 | construction fails, listing the messages, exactly when a required attribute is missing; otherwise the appender is `createAppender` applied to the attributes, with the defaults 2000, 3 and 3 for absent timeouts |
| `Slack.TimeoutDefaults` | src/main/kotlin/kr/co/kcd/example/SlackAppender.kt:83-85 | with no timeout attributes the client is configured with a 2000 ms connect timeout and 3 s read and write timeouts |
| `Slack.GetProperty` | src/main/kotlin/kr/co/kcd/example/SlackAppender.kt:106 | the property lookup yields the value when it is set and null otherwise |
| `Slack.BuildMessage` | src/main/kotlin/kr/co/kcd/example/SlackAppender.kt:108-120 | the build succeeds exactly for a styled level and otherwise fails on that level's weight. On success the message has channel and username copied verbatim, text "[profile] loggerName", the level's icon, and exactly one attachment: fallback is the formatted message, text is the layout output, color is the level's colour |
| `Slack.BuildDeterminedBy` | src/main/kotlin/kr/co/kcd/example/SlackAppender.kt:108-120 | under one configuration and profile, two built messages are structurally equal exactly when the inputs agree on four things: the rendered logger name (a null name reads as "null"), the formatted text of the message argument, the layout output and the level weight |
| `Slack.Append` | src/main/kotlin/kr/co/kcd/example/SlackAppender.kt:105-129 | the call is skipped (nothing built, nothing posted) exactly when the event has no message; a lookup throws, and nothing is posted, exactly when there is a message and the level is unstyled; otherwise the built message is posted to the appender's url |
| `Slack.UnstyledLevelNeverPosts` | src/main/kotlin/kr/co/kcd/example/SlackAppender.kt:110-114 | an unstyled level never leads to a post; with a message it throws for that weight |
| `Slack.ConfiguredAppenderPostsToWebhook` | src/main/kotlin/kr/co/kcd/example/SlackAppender.kt:87-124 | an appender built from valid attributes posts a styled event to the configured url, with the configured channel and username |
| `Slack.TestHeadline` | src/test/kotlin/kr/co/kcd/example/SlackAppenderTest.kt:28 | the test's headline is "[testttt] testLogger" |
| `Slack.TestScenario` | src/test/kotlin/kr/co/kcd/example/SlackAppenderTest.kt:25-66 | an appender made by calling `createAppender` directly with the test's arguments, given the test's INFO event, posts exactly the test's expected request, with the layout output as attachment text |

## Left out

- `webClient` (SlackAppender.kt:134-173) is not modelled. It covers the TCP/TLS client setup, the read and write timeout handlers, the JSON content-type header and the JVM shutdown hook. All of it is network configuration over external libraries. The model keeps only the three timeout values it is given, in `WebClientConfig`.
- The POST itself and its asynchronous scheduling (`subscribeOn(...).subscribe()`, lines 122-128) are not modelled, because they are I/O and concurrency. `Append` returns `Posted(url, body)`, meaning that the body would be sent to this url. Network failures and responses are not modelled.
- `System.getProperty` and `layout.toSerializable(event)` are foreign calls. Their results are parameters: a map of system properties, and the text of the layout output.
- The layout output is taken to be non-null, as every log4j layout returns. On a null result, `.toString()` (SlackAppender.kt:116) would throw a `NullPointerException`, because the value has a Java platform type. The model does not capture that exception.
- `Log4j.Message.formattedMessage` is a non-null string. If a message returned a null formatted text, passing it to the non-null `fallback` parameter (SlackAppender.kt:115) would throw a `NullPointerException`. The model does not capture that exception.
- JSON serialisation of `SlackMessage` is done by a library that is not part of this model. So is the receiving side's round trip.
- log4j's own `Level` class is not part of this model beyond the `intLevel()` weights the tables key on.
- Plugin discovery and annotations are not modelled, except for what reaches the factory. That is the declared timeout defaults and the `@Required` checks (absent or empty fails), modelled in `FromAttributes`.
  - The model assumes that the framework runs every validator and calls the factory only when none fails.
  - Converting attribute text to numbers is not modelled: timeouts arrive already typed.
- Determinism of the build needs no lemma of its own: every Dafny function is deterministic and datatype equality is structural. `BuildDeterminedBy` states which inputs the message depends on.
- What happens in log4j after `append` throws, with `ignoreExceptions = false`, is framework behaviour and is not modelled.
- The test harness is not modelled: the embedded server, its counters and the busy-wait loops. Its expected request is used in `TestScenario`.
