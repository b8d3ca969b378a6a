/**
 * The current `Consolefy` logger (src/consolefy.ts): a configuration with a
 * silent flag, user-defined levels, and one `log` entry point that the four
 * built-in level methods call.
 */
module Consolefy {
  import opened Wrappers
  import opened JsString
  import opened Format
  import opened Output

  /** The logger's configuration once constructed: every key is present. */
  datatype Config = Config(prefixes: map<string, string>, theme: map<string, Style>, format: string, silent: bool)

  /**
   * A caller's partial configuration. An absent `prefixes` or `theme` is the
   * empty map, since spreading `undefined` adds no key; `format` and `silent`
   * are `None` when the key is absent.
   */
  datatype Options = Options(prefixes: map<string, string>, theme: map<string, Style>,
                             format: Option<string>, silent: Option<bool>)

  /** The second argument of `defineLogLevel`. */
  datatype LevelOptions = LevelOptions(prefix: string, theme: Option<Style>)

  const NoOptions: Options := Options(map[], map[], None, None)

  /** The configuration the constructor builds: the caller's values over the defaults. */
  function Initial(palette: Palette, initial: Options): (c: Config)
    ensures forall level :: level in c.prefixes <==> level in BuiltinLevels || level in initial.prefixes
    ensures forall level :: level in initial.prefixes ==> c.prefixes[level] == initial.prefixes[level]
    ensures forall level :: level in DefaultPrefixes && level !in initial.prefixes ==>
              c.prefixes[level] == DefaultPrefixes[level]
    ensures forall level :: level in c.theme <==> level in BuiltinLevels || level in initial.theme
    ensures forall level :: level in initial.theme ==> c.theme[level] == initial.theme[level]
    ensures forall level :: level in BuiltinLevels && level !in initial.theme ==>
              c.theme[level] == DefaultTheme(palette)[level]
    ensures initial.format.Some? && initial.format.value != [] ==> c.format == initial.format.value
    ensures initial.format.None? || initial.format == Some([]) ==> c.format == DefaultFormat
    ensures c.silent == (initial.silent.Some? && initial.silent.value)
    ensures HasBuiltins(c.prefixes, c.theme)
  {
    DefaultsKeepBuiltins(palette, initial.prefixes, initial.theme);
    Config(DefaultPrefixes + initial.prefixes, DefaultTheme(palette) + initial.theme,
           InitialFormat(initial.format), initial.silent.GetOr(false))
  }

  /** `setConfig`: top-level keys are replaced when present, the two maps are merged. */
  function Update(c: Config, update: Options): (r: Config)
    ensures r.prefixes.Keys == c.prefixes.Keys + update.prefixes.Keys
    ensures forall level :: level in r.prefixes ==>
              r.prefixes[level] == if level in update.prefixes then update.prefixes[level] else c.prefixes[level]
    ensures r.theme.Keys == c.theme.Keys + update.theme.Keys
    ensures forall level :: level in r.theme ==>
              r.theme[level] == if level in update.theme then update.theme[level] else c.theme[level]
    ensures r.format == (if update.format.Some? then update.format.value else c.format)
    ensures r.silent == (if update.silent.Some? then update.silent.value else c.silent)
    ensures HasBuiltins(c.prefixes, c.theme) ==> HasBuiltins(r.prefixes, r.theme)
  {
    Config(c.prefixes + update.prefixes, c.theme + update.theme,
           update.format.GetOr(c.format), update.silent.GetOr(c.silent))
  }

  /** Applying the same partial configuration twice is the same as once. */
  lemma UpdateIdempotent(c: Config, update: Options)
    ensures Update(Update(c, update), update) == Update(c, update)
  {
    MergeTwice(c.prefixes, update.prefixes);
    MergeTwice(c.theme, update.theme);
  }

  /** Spreading the same object twice over a map adds nothing the first spread did not. */
  lemma MergeTwice<V>(m: map<string, V>, update: map<string, V>)
    ensures m + update + update == m + update
  {
    var once := m + update;
    assert (once + update).Keys == once.Keys;
    forall k | k in once ensures (once + update)[k] == once[k] { }
  }

  /** An empty partial configuration changes nothing. */
  lemma UpdateNothing(c: Config)
    ensures Update(c, NoOptions) == c
  {
    assert c.prefixes + map[] == c.prefixes;
    assert c.theme + map[] == c.theme;
  }

  /**
   * The text one `log(level, ...messages)` call writes, unless silent.
   * It starts with a newline, and nothing follows it only when the joined
   * message is empty.
   */
  function Line(c: Config, level: string, messages: seq<string>): (r: string)
    ensures |r| >= 1 && r[0] == '\n'
    ensures |r| == 1 ==> Join(messages, " ") == []
  {
    "\n" + FormatMessage(c.format, c.prefixes, c.theme, level, Join(messages, " "))
  }

  /**
   * With the default configuration, `warn(message)` writes a blank line, the
   * palette's warn style applied to " WARN ", one space and the message.
   */
  lemma DefaultWarnLine(palette: Palette, message: string)
    requires '$' !in palette.warn(" WARN ") && !Contains(palette.warn(" WARN "), MessageToken)
    requires '$' !in message
    ensures Line(Initial(palette, NoOptions), "warn", [message]) == "\n" + (palette.warn(" WARN ") + " " + message)
  {
    DefaultConfig(palette);
    var prefixes, theme := DefaultPrefixes, DefaultTheme(palette);
    assert "warn" in theme && theme["warn"] == palette.warn;
    assert prefixes["warn"] == "WARN";
    assert " " + "WARN" + " " == " WARN ";
    var badge := Badge(prefixes, theme, "warn");
    assert badge == palette.warn(" WARN ");
    DefaultRender(prefixes, theme, "warn", message);
    assert Join([message], " ") == message;
    assert Line(Initial(palette, NoOptions), "warn", [message])
        == "\n" + FormatMessage(DefaultFormat, prefixes, theme, "warn", message);
  }

  /** With no initial configuration the constructor installs exactly the defaults. */
  lemma DefaultConfig(palette: Palette)
    ensures Initial(palette, NoOptions) == Config(DefaultPrefixes, DefaultTheme(palette), DefaultFormat, false)
  {
    assert DefaultPrefixes + map[] == DefaultPrefixes;
    assert DefaultTheme(palette) + map[] == DefaultTheme(palette);
  }

  /** A level defined without a style and no theme renders its badge as `undefined`. */
  lemma UnstyledDefinedLevelLine(c: Config, level: string, message: string)
    requires level !in c.theme && c.format == DefaultFormat && '$' !in message
    ensures Line(c, level, [message]) == "\n" + "undefined" + " " + message
  {
    assert Join([message], " ") == message;
    UnstyledLevelRender(c.prefixes, c.theme, level, message);
  }

  class Consolefy {
    var config: Config
    /** The console that `console.log` writes to. */
    const console: Console

    /** The built-in levels keep a label and a style. */
    ghost predicate Valid()
      reads this
    {
      HasBuiltins(config.prefixes, config.theme)
    }

    constructor(console: Console, palette: Palette, initialConfig: Options)
      ensures Valid()
      ensures config == Initial(palette, initialConfig) && this.console == console
    {
      this.console := console;
      var initial := Initial(palette, initialConfig);
      assert HasBuiltins(initial.prefixes, initial.theme);
      config := initial;
    }

    method SetConfig(newConfig: Options)
      requires Valid()
      modifies this
      ensures Valid()
      ensures config == Update(old(config), newConfig)
    {
      config := Update(config, newConfig);
    }

    method SetPrefix(level: string, prefix: string)
      requires Valid()
      modifies this
      ensures Valid()
      ensures config.prefixes == old(config.prefixes)[level := prefix]
      ensures config.theme == old(config.theme)
      ensures config.format == old(config.format) && config.silent == old(config.silent)
    {
      config := config.(prefixes := config.prefixes[level := prefix]);
    }

    method SetTheme(level: string, theme: Style)
      requires Valid()
      modifies this
      ensures Valid()
      ensures config.theme == old(config.theme)[level := theme]
      ensures config.prefixes == old(config.prefixes)
      ensures config.format == old(config.format) && config.silent == old(config.silent)
    {
      config := config.(theme := config.theme[level := theme]);
    }

    method SetFormat(format: string)
      requires Valid()
      modifies this
      ensures Valid()
      ensures config == old(config).(format := format)
    {
      config := config.(format := format);
    }

    method Silent(state: bool)
      requires Valid()
      modifies this
      ensures Valid()
      ensures config == old(config).(silent := state)
    {
      config := config.(silent := state);
    }

    /** Upserts the level's label, and its style only when one is given. */
    method DefineLogLevel(level: string, options: LevelOptions)
      requires Valid()
      modifies this
      ensures Valid()
      ensures config.prefixes == old(config.prefixes)[level := options.prefix]
      ensures config.theme == if options.theme.Some? then old(config.theme)[level := options.theme.value]
                              else old(config.theme)
      ensures config.format == old(config.format) && config.silent == old(config.silent)
    {
      config := config.(prefixes := config.prefixes[level := options.prefix]);
      if options.theme.Some? {
        config := config.(theme := config.theme[level := options.theme.value]);
      }
    }

    /** Writes one line unless silent. */
    method Log(level: string, messages: seq<string>)
      modifies console
      ensures console.lines == old(console.lines) + if config.silent then [] else [Line(config, level, messages)]
    {
      if config.silent {
        return;
      }
      console.Log("\n" + FormatMessage(config.format, config.prefixes, config.theme, level, Join(messages, " ")));
    }

    method Warn(messages: seq<string>)
      modifies console
      ensures console.lines == old(console.lines) + if config.silent then [] else [Line(config, "warn", messages)]
    {
      Log("warn", [Join(messages, " ")]);
    }

    method Success(messages: seq<string>)
      modifies console
      ensures console.lines == old(console.lines) + if config.silent then [] else [Line(config, "success", messages)]
    {
      Log("success", [Join(messages, " ")]);
    }

    method Error(messages: seq<string>)
      modifies console
      ensures console.lines == old(console.lines) + if config.silent then [] else [Line(config, "error", messages)]
    {
      Log("error", [Join(messages, " ")]);
    }

    method Info(messages: seq<string>)
      modifies console
      ensures console.lines == old(console.lines) + if config.silent then [] else [Line(config, "info", messages)]
    {
      Log("info", [Join(messages, " ")]);
    }
  }

  /** Silencing suppresses a call, and unsilencing restores it, without touching the rest of the configuration. */
  method SilentRoundTrip(logger: Consolefy, level: string, messages: seq<string>)
    requires logger.Valid()
    modifies logger, logger.console
    ensures logger.Valid() && logger.config == old(logger.config).(silent := false)
    ensures logger.console.lines == old(logger.console.lines) + [Line(logger.config, level, messages)]
  {
    logger.Silent(true);
    logger.Log(level, messages);
    assert logger.console.lines == old(logger.console.lines);
    logger.Silent(false);
    logger.Log(level, messages);
  }

  /**
   * While the invariant holds, a built-in level is rendered with its own style
   * and label, never as `undefined`.
   */
  lemma BuiltinBadge(logger: Consolefy, level: string)
    requires logger.Valid() && level in BuiltinLevels
    ensures Badge(logger.config.prefixes, logger.config.theme, level)
            == logger.config.theme[level](" " + logger.config.prefixes[level] + " ")
  {
  }
}
