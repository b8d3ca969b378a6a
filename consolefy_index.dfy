/**
 * The earlier `Consolefy` logger (src/index.ts): the same configuration
 * without a silent flag, no `log` or `defineLogLevel`, and four level methods
 * that always write.
 */
module ConsolefyIndex {
  import opened Wrappers
  import opened JsString
  import opened Format
  import opened Output

  /** The logger's configuration once constructed: every key is present. */
  datatype Config = Config(prefixes: map<string, string>, theme: map<string, Style>, format: string)

  /**
   * A caller's partial configuration. An absent `prefixes` or `theme` is the
   * empty map; `format` is `None` when the key is absent.
   */
  datatype Options = Options(prefixes: map<string, string>, theme: map<string, Style>, format: Option<string>)

  /** The configuration the constructor builds: the caller's values over the defaults. */
  function Initial(palette: Palette, initial: Options): (c: Config)
    ensures forall level :: level in c.prefixes <==> level in BuiltinLevels || level in initial.prefixes
    ensures forall level :: level in initial.prefixes ==> c.prefixes[level] == initial.prefixes[level]
    ensures forall level :: level in DefaultPrefixes && level !in initial.prefixes ==>
              c.prefixes[level] == DefaultPrefixes[level]
    ensures forall level :: level in c.theme <==> level in BuiltinLevels || level in initial.theme
    ensures forall level :: level in initial.theme ==> c.theme[level] == initial.theme[level]
    ensures forall level :: level in BuiltinLevels && level !in initial.theme ==>
              c.theme[level] == DefaultTheme(palette)[level]
    ensures initial.format.Some? && initial.format.value != [] ==> c.format == initial.format.value
    ensures initial.format.None? || initial.format == Some([]) ==> c.format == DefaultFormat
    ensures HasBuiltins(c.prefixes, c.theme)
  {
    DefaultsKeepBuiltins(palette, initial.prefixes, initial.theme);
    Config(DefaultPrefixes + initial.prefixes, DefaultTheme(palette) + initial.theme, InitialFormat(initial.format))
  }

  /** `setConfig`: `format` is replaced when present, the two maps are merged. */
  function Update(c: Config, update: Options): (r: Config)
    ensures r.prefixes.Keys == c.prefixes.Keys + update.prefixes.Keys
    ensures forall level :: level in r.prefixes ==>
              r.prefixes[level] == if level in update.prefixes then update.prefixes[level] else c.prefixes[level]
    ensures r.theme.Keys == c.theme.Keys + update.theme.Keys
    ensures forall level :: level in r.theme ==>
              r.theme[level] == if level in update.theme then update.theme[level] else c.theme[level]
    ensures r.format == (if update.format.Some? then update.format.value else c.format)
    ensures HasBuiltins(c.prefixes, c.theme) ==> HasBuiltins(r.prefixes, r.theme)
  {
    Config(c.prefixes + update.prefixes, c.theme + update.theme, update.format.GetOr(c.format))
  }

  /**
   * The text a level method writes for its messages.
   * It starts with a newline, and nothing follows it only when the joined
   * message is empty.
   */
  function Line(c: Config, level: string, messages: seq<string>): (r: string)
    ensures |r| >= 1 && r[0] == '\n'
    ensures |r| == 1 ==> Join(messages, " ") == []
  {
    "\n" + FormatMessage(c.format, c.prefixes, c.theme, level, Join(messages, " "))
  }

  /**
   * `formatMessage` substitutes `{prefix}` before `{message}`: under the
   * template `{message}` a message is printed as it is even when it holds
   * `{prefix}`, and under `{prefix}` a `{message}` inside the badge is filled in.
   */
  lemma SubstitutionOrder(c: Config, level: string, message: string)
    requires '$' !in message && '$' !in Badge(c.prefixes, c.theme, level)
    ensures c.format == MessageToken ==> Line(c, level, [message]) == "\n" + message
    ensures c.format == PrefixToken ==>
              var replaced := ReplaceAll(Badge(c.prefixes, c.theme, level), MessageToken, message);
              Line(c, level, [message]) == "\n" + if replaced == [] then message else replaced
  {
    MessageTemplate(c.prefixes, c.theme, level, message);
    PrefixTemplate(c.prefixes, c.theme, level, message);
  }

  class Consolefy {
    var config: Config
    /** The console that `console.log` writes to. */
    const console: Console

    /** The built-in levels keep a label and a style. */
    ghost predicate Valid()
      reads this
    {
      HasBuiltins(config.prefixes, config.theme)
    }

    constructor(console: Console, palette: Palette, initialConfig: Options)
      ensures Valid()
      ensures config == Initial(palette, initialConfig) && this.console == console
    {
      this.console := console;
      var initial := Initial(palette, initialConfig);
      assert HasBuiltins(initial.prefixes, initial.theme);
      config := initial;
    }

    method SetConfig(newConfig: Options)
      requires Valid()
      modifies this
      ensures Valid()
      ensures config == Update(old(config), newConfig)
    {
      config := Update(config, newConfig);
    }

    method SetPrefix(level: string, prefix: string)
      requires Valid()
      modifies this
      ensures Valid()
      ensures config.prefixes == old(config.prefixes)[level := prefix]
      ensures config.theme == old(config.theme) && config.format == old(config.format)
    {
      config := config.(prefixes := config.prefixes[level := prefix]);
    }

    method SetTheme(level: string, theme: Style)
      requires Valid()
      modifies this
      ensures Valid()
      ensures config.theme == old(config.theme)[level := theme]
      ensures config.prefixes == old(config.prefixes) && config.format == old(config.format)
    {
      config := config.(theme := config.theme[level := theme]);
    }

    method SetFormat(format: string)
      requires Valid()
      modifies this
      ensures Valid()
      ensures config == old(config).(format := format)
    {
      config := config.(format := format);
    }

    method Warn(messages: seq<string>)
      modifies console
      ensures console.lines == old(console.lines) + [Line(config, "warn", messages)]
    {
      console.Log("\n" + FormatMessage(config.format, config.prefixes, config.theme, "warn", Join(messages, " ")));
    }

    method Success(messages: seq<string>)
      modifies console
      ensures console.lines == old(console.lines) + [Line(config, "success", messages)]
    {
      console.Log("\n" + FormatMessage(config.format, config.prefixes, config.theme, "success", Join(messages, " ")));
    }

    method Error(messages: seq<string>)
      modifies console
      ensures console.lines == old(console.lines) + [Line(config, "error", messages)]
    {
      console.Log("\n" + FormatMessage(config.format, config.prefixes, config.theme, "error", Join(messages, " ")));
    }

    method Info(messages: seq<string>)
      modifies console
      ensures console.lines == old(console.lines) + [Line(config, "info", messages)]
    {
      console.Log("\n" + FormatMessage(config.format, config.prefixes, config.theme, "info", Join(messages, " ")));
    }
  }

  /** Setting the same template twice leaves the same configuration as setting it once. */
  method SetFormatTwice(logger: Consolefy, format: string)
    requires logger.Valid()
    modifies logger
    ensures logger.Valid() && logger.config == old(logger.config).(format := format)
  {
    logger.SetFormat(format);
    logger.SetFormat(format);
  }

  /**
   * While the invariant holds, a built-in level is rendered with its own style
   * and label, never as `undefined`.
   */
  lemma BuiltinBadge(logger: Consolefy, level: string)
    requires logger.Valid() && level in BuiltinLevels
    ensures Badge(logger.config.prefixes, logger.config.theme, level)
            == logger.config.theme[level](" " + logger.config.prefixes[level] + " ")
  {
  }
}
