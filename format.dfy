/**
 * What both variants of the `Consolefy` logger share: the built-in levels and
 * their defaults, and the message formatter `formatMessage`, stated over the
 * parts of the configuration it reads.
 */
module Format {
  import opened Wrappers
  import opened JsString

  /** A styling function, such as colorette's `bgYellow(black(text))`. */
  type Style = string -> string

  /**
   * The four default styles of the built-in levels. They wrap colorette, whose
   * escape codes are not modelled, so the constructors take them as a value.
   */
  datatype Palette = Palette(warn: Style, success: Style, error: Style, info: Style)

  const PrefixToken: string := "{prefix}"
  const MessageToken: string := "{message}"
  const DefaultFormat: string := "{prefix} {message}"

  const DefaultPrefixes: map<string, string> :=
    map["warn" := "WARN", "success" := "SUCCESS", "error" := "ERROR", "info" := "INFO"]

  /** `warn`, `success`, `error` and `info`. */
  const BuiltinLevels: set<string> := DefaultPrefixes.Keys

  function DefaultTheme(palette: Palette): (theme: map<string, Style>)
    ensures theme.Keys == BuiltinLevels
    ensures theme["warn"] == palette.warn && theme["success"] == palette.success
    ensures theme["error"] == palette.error && theme["info"] == palette.info
  {
    map["warn" := palette.warn, "success" := palette.success,
        "error" := palette.error, "info" := palette.info]
  }

  /** Caller entries spread over the defaults can override built-in levels but never drop them. */
  lemma DefaultsKeepBuiltins(palette: Palette, prefixes: map<string, string>, theme: map<string, Style>)
    ensures HasBuiltins(DefaultPrefixes + prefixes, DefaultTheme(palette) + theme)
  {
    var p := DefaultPrefixes + prefixes;
    var t := DefaultTheme(palette) + theme;
    assert p.Keys == DefaultPrefixes.Keys + prefixes.Keys;
    assert t.Keys == BuiltinLevels + theme.Keys;
  }

  /** `initialConfig.format || "{prefix} {message}"`: an absent or empty template gives the default. */
  function InitialFormat(format: Option<string>): (r: string)
    ensures r != []
    ensures format.Some? && format.value != [] ==> r == format.value
    ensures format.None? || format.value == [] ==> r == DefaultFormat
  {
    if format.Some? && format.value != [] then format.value else DefaultFormat
  }

  /** Every built-in level has a label and a style. */
  predicate HasBuiltins(prefixes: map<string, string>, theme: map<string, Style>) {
    BuiltinLevels <= prefixes.Keys && BuiltinLevels <= theme.Keys
  }

  /**
   * The value that replaces `{prefix}`: the level's style applied to its
   * padded label. A level with no style yields `undefined`, which `replace`
   * turns into the text "undefined"; a styled level with no label pads the
   * text "undefined" instead.
   */
  function Badge(prefixes: map<string, string>, theme: map<string, Style>, level: string): (r: string)
    ensures level !in theme ==> r == "undefined"
    ensures level in theme && level in prefixes ==> r == theme[level](" " + prefixes[level] + " ")
    ensures level in theme && level !in prefixes ==> r == theme[level](" undefined ")
  {
    if level in theme then
      var text := if level in prefixes then prefixes[level] else "undefined";
      assert " " + "undefined" + " " == " undefined ";
      theme[level](" " + text + " ")
    else
      "undefined"
  }

  /**
   * `formatMessage(level, message)`: every `{prefix}` of the template is
   * replaced by the badge, then every `{message}` of that result by the
   * message; an empty outcome falls back to the message.
   */
  function FormatMessage(format: string, prefixes: map<string, string>, theme: map<string, Style>,
                         level: string, message: string): (r: string)
    ensures r == [] ==> message == []
    ensures format == [] ==> r == message
  {
    var substituted := ReplaceAll(ReplaceAll(format, PrefixToken, Badge(prefixes, theme, level)), MessageToken, message);
    if substituted == [] then message else substituted
  }

  /** A non-empty template with neither placeholder is printed verbatim, not replaced by the message. */
  lemma VerbatimTemplate(format: string, prefixes: map<string, string>, theme: map<string, Style>,
                         level: string, message: string)
    requires format != [] && !Contains(format, PrefixToken) && !Contains(format, MessageToken)
    ensures FormatMessage(format, prefixes, theme, level, message) == format
  {
    ReplaceAllNoMatch(format, PrefixToken, Badge(prefixes, theme, level));
    ReplaceAllNoMatch(format, MessageToken, message);
  }

  /**
   * When neither the badge nor the message holds `$`, formatting is plain
   * substitution of the two placeholders, `{prefix}` first.
   */
  lemma FormatMessageIsSubstitution(format: string, prefixes: map<string, string>, theme: map<string, Style>,
                                    level: string, message: string)
    requires '$' !in Badge(prefixes, theme, level) && '$' !in message
    ensures var s := Substitute(Substitute(format, PrefixToken, Badge(prefixes, theme, level)), MessageToken, message);
            FormatMessage(format, prefixes, theme, level, message) == if s == [] then message else s
  {
  }

  /**
   * The message is inserted after the badge, so a message that contains
   * `{prefix}` is printed as it is.
   */
  lemma MessageTemplate(prefixes: map<string, string>, theme: map<string, Style>, level: string, message: string)
    requires '$' !in message
    ensures FormatMessage(MessageToken, prefixes, theme, level, message) == message
  {
    var badge := Badge(prefixes, theme, level);
    PrefixTokenNotInMessageToken();
    ReplaceAllNoMatch(MessageToken, PrefixToken, badge);
    ReplaceAtMatch(MessageToken, MessageToken, message, 0);
    assert ReplaceAll(MessageToken, MessageToken, message) == message;
  }

  lemma PrefixTokenNotInMessageToken()
    ensures !Contains(MessageToken, PrefixToken)
  {
    forall j: nat ensures !OccursAt(MessageToken, PrefixToken, j) {
      if j == 0 {
        assert MessageToken[..8][1] != PrefixToken[1];
      } else if j == 1 {
        assert MessageToken[1..9][1] != PrefixToken[1];
      }
    }
  }

  /**
   * With the template `{prefix}`, a `{message}` that the badge itself contains
   * is substituted by the second replacement.
   */
  lemma PrefixTemplate(prefixes: map<string, string>, theme: map<string, Style>, level: string, message: string)
    requires '$' !in Badge(prefixes, theme, level)
    ensures var replaced := ReplaceAll(Badge(prefixes, theme, level), MessageToken, message);
            FormatMessage(PrefixToken, prefixes, theme, level, message) == if replaced == [] then message else replaced
  {
    var badge := Badge(prefixes, theme, level);
    ReplaceAtMatch(PrefixToken, PrefixToken, badge, 0);
    assert ReplaceAll(PrefixToken, PrefixToken, badge) == badge;
  }

  /**
   * An example of the sequential substitution that `PrefixTemplate` states in
   * general: a label `{message}` under a style that keeps it prints the message
   * in its place.
   */
  lemma LabelResubstituted(prefixes: map<string, string>, theme: map<string, Style>, level: string, message: string)
    requires level in prefixes && prefixes[level] == MessageToken
    requires level in theme && theme[level](" {message} ") == " {message} "
    requires '$' !in message
    ensures FormatMessage(PrefixToken, prefixes, theme, level, message) == " " + message + " "
  {
    assert " " + MessageToken + " " == " {message} ";
    assert Badge(prefixes, theme, level) == " {message} ";
    PrefixTemplate(prefixes, theme, level, message);
    PaddedMessagePass(message);
  }

  lemma PaddedMessagePass(message: string)
    requires '$' !in message
    ensures ReplaceAll(" {message} ", MessageToken, message) == " " + message + " "
  {
    var s := " {message} ";
    assert !OccursAt(s, MessageToken, 0) by { assert s[0] != MessageToken[0]; }
    ReplaceSkip(s, MessageToken, message, 0, 1);
    assert s[1..1 + |MessageToken|] == MessageToken;
    ReplaceAtMatch(s, MessageToken, message, 1);
    assert s[..1] == " " && s[1 + |MessageToken|..] == " ";
  }

  /**
   * The default template renders as the badge, one space and the message, as
   * long as the badge holds neither `$` nor `{message}`.
   */
  lemma DefaultRender(prefixes: map<string, string>, theme: map<string, Style>, level: string, message: string)
    requires '$' !in Badge(prefixes, theme, level) && !Contains(Badge(prefixes, theme, level), MessageToken)
    requires '$' !in message
    ensures FormatMessage(DefaultFormat, prefixes, theme, level, message) == Badge(prefixes, theme, level) + " " + message
  {
    var badge := Badge(prefixes, theme, level);
    DefaultPrefixPass(badge);
    DefaultMessagePass(badge, message);
  }

  /** The first pass over the default template puts the badge in front of ` {message}`. */
  lemma DefaultPrefixPass(badge: string)
    requires '$' !in badge
    ensures ReplaceAll(DefaultFormat, PrefixToken, badge) == badge + " {message}"
  {
    var n := |PrefixToken|;
    forall j: nat | n <= j ensures !OccursAt(DefaultFormat, PrefixToken, j) {
      if j + n <= |DefaultFormat| {
        assert DefaultFormat[j + 1] != PrefixToken[1];
      }
    }
    assert OccursAt(DefaultFormat, PrefixToken, 0);
    ReplaceAtMatch(DefaultFormat, PrefixToken, badge, 0);
    ReplaceFromNoMatch(DefaultFormat, PrefixToken, badge, n);
    assert DefaultFormat[n..] == " {message}";
  }

  /** The second pass finds its only match after the badge and the space. */
  lemma DefaultMessagePass(badge: string, message: string)
    requires '$' !in message && !Contains(badge, MessageToken)
    ensures ReplaceAll(badge + " {message}", MessageToken, message) == badge + " " + message
  {
    var first := badge + " {message}";
    var n := |badge|;
    NoMatchInBadge(badge);
    ReplaceSkip(first, MessageToken, message, 0, n + 1);
    assert first[n..] == " {message}";
    assert first[n + 1..] == " {message}"[1..] == MessageToken;
    ReplaceAtMatch(first, MessageToken, message, n + 1);
    assert ReplaceFrom(first, MessageToken, message, |first|) == [];
    assert first[0..n + 1] == badge + " ";
  }

  /** No `{message}` of `badge + " {message}"` starts inside the badge or at the space. */
  lemma NoMatchInBadge(badge: string)
    requires !Contains(badge, MessageToken)
    ensures forall j: nat :: j <= |badge| ==> !OccursAt(badge + " {message}", MessageToken, j)
  {
    var first := badge + " {message}";
    var n := |badge|;
    var m := |MessageToken|;
    forall j: nat | j <= n ensures !OccursAt(first, MessageToken, j) {
      if j + m <= n {
        assert first[j..j + m] == badge[j..j + m];
        assert !OccursAt(badge, MessageToken, j);
      } else if j + m <= |first| {
        assert first[j..j + m][n - j] == first[n] == ' ';
      }
    }
  }

  /** A level with no style renders, under the default template, as `undefined` and the message. */
  lemma UnstyledLevelRender(prefixes: map<string, string>, theme: map<string, Style>, level: string, message: string)
    requires level !in theme && '$' !in message
    ensures FormatMessage(DefaultFormat, prefixes, theme, level, message) == "undefined" + " " + message
  {
    MessageTokenNotInUndefined();
    DefaultRender(prefixes, theme, level, message);
  }

  lemma MessageTokenNotInUndefined()
    ensures !Contains("undefined", MessageToken)
  {
    forall j: nat ensures !OccursAt("undefined", MessageToken, j) {
      if j == 0 {
        assert "undefined"[..9][0] != MessageToken[0];
      }
    }
  }

  /**
   * An example of the replacement patterns that `Expand` handles in general:
   * the message `$&` prints the matched `{message}`, not itself.
   */
  lemma DollarPatternInMessage(prefixes: map<string, string>, theme: map<string, Style>, level: string)
    ensures FormatMessage(MessageToken, prefixes, theme, level, "$&") == MessageToken
  {
    var badge := Badge(prefixes, theme, level);
    PrefixTokenNotInMessageToken();
    ReplaceAllNoMatch(MessageToken, PrefixToken, badge);
    assert OccursAt(MessageToken, MessageToken, 0);
    assert Expand("$&", MessageToken, "", "") == MessageToken;
    assert ReplaceAll(MessageToken, MessageToken, "$&") == MessageToken;
  }
}
