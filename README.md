# Consolefy in Dafny

Consolefy is a small console logger. One `Consolefy` object keeps a
configuration: a label ("prefix") and a style function ("theme") per level name,
a template string, and in the current version a `silent` flag. It renders every
log call by substituting the level's styled label for `{prefix}` and the message
for `{message}` in the template, and writes the result, preceded by a newline, to
the console. The four built-in levels are `warn`, `success`, `error` and `info`.
Further levels can be added at run time.

The repository holds two copies of the class: src/consolefy.ts, the current one,
and src/index.ts, an earlier one without `silent`, `log` and `defineLogLevel`.
Both are modelled.

| module | file | models |
|---|---|---|
| `Wrappers` | wrappers.dfy | `Option`, for keys that a partial configuration may leave out |
| `JsString` | jsstring.dfy | `String.prototype.replace` with a global literal pattern, and `Array.prototype.join` |
| `Format` | format.dfy | the built-in defaults and `formatMessage`, which the two copies share line for line |
| `Output` | output.dfy | the console, as the list of strings passed to `console.log` |
| `Consolefy` | consolefy.dfy | src/consolefy.ts: `Config`, the class and its methods |
| `ConsolefyIndex` | consolefy_index.dfy | src/index.ts: the earlier `Config`, the class and its methods |

How the model is built:

- The configuration is a datatype `Config`. The class keeps it in a field that
  its methods reassign, as the source does. `Valid()` is the invariant that the
  four built-in levels always have a label and a style.
- The pure functions `Initial` (the constructor's merge) and `Update`
  (`setConfig`) carry the merge properties. The methods say that the new
  configuration is what those functions give, or which single key changed.
- `formatMessage` is `Format.FormatMessage`. It follows the JavaScript
  replacement semantics exactly. Matches are found left to right without
  overlap. In the replacement text, the patterns `$$`, `$&`, `` $` `` and `$'`
  are expanded, as ECMAScript's GetSubstitution does for a pattern without
  capture groups. The contract of `JsString.ReplaceAll` states that this is
  plain substitution whenever the replacement holds no `$`.
- The value substituted for `{prefix}` (`Format.Badge`) is what the code
  computes. A level with no theme entry gives `undefined`, which `replace`
  prints as the text `undefined`. A level with a theme but no label styles the
  text ` undefined `.
- The colorette styles are foreign code. Each is an uninterpreted
  `string -> string`. The four default styles arrive as a `Palette` argument of
  the constructor.
- The global `console` is an `Output.Console` object, which the constructor
  receives. Each `console.log(x)` appends `x` to `Console.lines`.

Some of the code's behaviour is easy to mistake for something else. The model
follows the code:

- the default template is `{prefix} {message}`, with no `{tag}`;
- there is no tag, no grouping and no whitespace trimming;
- a template with no placeholder is printed as it is, and only an empty result
  falls back to the message;
- an unknown level prints `undefined` instead of the level's name;
- the two substitutions run one after the other, so a `{message}` inside the
  styled label is substituted too (`Format.LabelResubstituted`).

## Model

| member | source | states |
|---|---|---|
| `JsString.Expand` | src/consolefy.ts:57-58 | the text inserted for one match; a replacement holding no `$` is inserted exactly as given |
| `JsString.ReplaceFrom` | src/consolefy.ts:57-58 | the scan of a global replace from one index on: with a `$`-free replacement it produces the left-to-right, non-overlapping literal substitution (`Substitute`) of the rest of the subject |
| `JsString.ReplaceAll` | src/consolefy.ts:57-58 | `.replace(/{prefix}/g, …)` and `.replace(/{message}/g, …)`: with a `$`-free replacement the result equals `Substitute` of the subject; `ReplaceAllNoMatch`, `ReplaceSkip` and `ReplaceAtMatch` state how it scans |
| `JsString.ReplaceAllNoMatch` | src/consolefy.ts:56-58 | replacing a placeholder that does not occur in the template returns the template unchanged |
| `JsString.ReplaceSkip` | src/consolefy.ts:57 | the global replace copies a stretch of the subject that holds no match unchanged and resumes after it |
| `JsString.ReplaceAtMatch` | src/consolefy.ts:57 | at a match, a `$`-free replacement is inserted and the scan resumes after the whole match, so matches never overlap |
| `JsString.Join` | src/consolefy.ts:84-91 | joining a single part gives that part, so `warn` joining first and `log` joining again writes the same message |
| `JsString.JoinAppend` | src/consolefy.ts:86 | joining two non-empty lists puts exactly one separator between their joins |
| `Format.DefaultTheme` | src/consolefy.ts:36-40 | the default theme styles exactly the four built-in levels |
| `Format.InitialFormat` | src/consolefy.ts:34 | an absent or empty template becomes `{prefix} {message}`; a non-empty one is kept; the result is never empty |
| `Format.Badge` | src/consolefy.ts:57 | the value put in place of `{prefix}`: `undefined` for a level without a style; otherwise the style applied to the label with one space on each side, or to ` undefined ` for a level without a label; how it renders is stated by `UnstyledLevelRender` and `DefaultWarnLine` |
| `Format.FormatMessage` | src/consolefy.ts:55-59 | the output is empty only for an empty message; an empty template yields the message |
| `Format.VerbatimTemplate` | src/consolefy.ts:56-58 | a non-empty template with neither placeholder is printed verbatim, not replaced by the message |
| `Format.FormatMessageIsSubstitution` | src/consolefy.ts:56-58 | without `$` in the label or message, the output is `{prefix}` substituted first and `{message}` second, or the message when that is empty |
| `Format.MessageTemplate` | src/consolefy.ts:56-58 | under the template `{message}` the message is printed verbatim, even when it contains `{prefix}` |
| `Format.PrefixTemplate` | src/consolefy.ts:57-58 | under the template `{prefix}` the output is the styled label with its own `{message}` occurrences replaced by the message |
| `Format.LabelResubstituted` | src/consolefy.ts:57-58 | a label `{message}` under a style that keeps it prints the message in its place |
| `Format.DefaultRender` | src/consolefy.ts:55-58 | under the default template the output is the styled label, one space and the message |
| `Format.UnstyledLevelRender` | src/consolefy.ts:57 | a level without a theme entry renders as `undefined`, one space and the message |
| `Format.DollarPatternInMessage` | src/consolefy.ts:58 | a message `$&` is a replacement pattern and prints the matched `{message}` |
| `Consolefy.Initial` | src/consolefy.ts:25-44 | labels and styles are the built-in ones overridden and extended by the caller's; an absent or empty template becomes the default; `silent` holds only when given as true; the built-ins are present |
| `Consolefy.DefaultConfig` | src/consolefy.ts:25-44 | with no initial configuration, the defaults are installed exactly |
| `Consolefy.Update` | src/consolefy.ts:46-53 | both maps keep every key the update does not name and take the update's value for those it does; `format` and `silent` change only when present; the built-ins stay present |
| `Consolefy.UpdateIdempotent` | src/consolefy.ts:46-53 | applying the same partial configuration twice equals applying it once |
| `Consolefy.MergeTwice` | src/consolefy.ts:50-51 | spreading the same entries over a map a second time changes nothing |
| `Consolefy.UpdateNothing` | src/consolefy.ts:46-53 | an empty partial configuration changes nothing |
| `Consolefy.Line` | src/consolefy.ts:86 | the text written for one `log` call starts with a newline, and nothing follows it only when the joined message is empty |
| `Consolefy.DefaultWarnLine` | src/consolefy.ts:89-91 | with the defaults, `warn(m)` writes a newline, the warn style applied to ` WARN `, one space and `m` |
| `Consolefy.UnstyledDefinedLevelLine` | src/consolefy.ts:79-86 | a level with no style, logged under the default template, writes a newline, `undefined`, one space and the message |
| `Consolefy.BuiltinBadge` | src/consolefy.ts:57 | while the built-in levels keep a label and a style, a built-in level renders as its own style applied to its own padded label, never through the `undefined` fallback |
| `Consolefy.Consolefy.constructor` | src/consolefy.ts:25-44 | the configuration is `Initial` of the caller's values |
| `Consolefy.Consolefy.SetConfig` | src/consolefy.ts:46-53 | the configuration becomes `Update` of the old one |
| `Consolefy.Consolefy.SetPrefix` | src/consolefy.ts:61-63 | one label is upserted; all other labels, the styles, the template and `silent` are unchanged |
| `Consolefy.Consolefy.SetTheme` | src/consolefy.ts:65-67 | one style is upserted; all other styles, the labels, the template and `silent` are unchanged |
| `Consolefy.Consolefy.SetFormat` | src/consolefy.ts:69-71 | only the template changes, to the given one |
| `Consolefy.Consolefy.Silent` | src/consolefy.ts:73-75 | only `silent` changes, to the given state |
| `Consolefy.Consolefy.DefineLogLevel` | src/consolefy.ts:77-82 | the label is upserted; the style is upserted only when one is given, otherwise the old one is kept; nothing else changes |
| `Consolefy.Consolefy.Log` | src/consolefy.ts:84-87 | while silent nothing is written; otherwise exactly one entry, a newline followed by the formatted joined message |
| `Consolefy.Consolefy.Warn` | src/consolefy.ts:89-91 | as `log("warn", …)` on the same messages |
| `Consolefy.Consolefy.Success` | src/consolefy.ts:93-95 | as `log("success", …)` on the same messages |
| `Consolefy.Consolefy.Error` | src/consolefy.ts:97-99 | as `log("error", …)` on the same messages |
| `Consolefy.Consolefy.Info` | src/consolefy.ts:101-103 | as `log("info", …)` on the same messages |
| `Consolefy.SilentRoundTrip` | src/consolefy.ts:73-87 | a silenced call writes nothing, and after unsilencing the same call writes its line |
| `ConsolefyIndex.Initial` | src/index.ts:24-42 | labels and styles are the built-in ones overridden and extended by the caller's; an absent or empty template becomes the default; the built-ins are present |
| `ConsolefyIndex.Update` | src/index.ts:44-51 | both maps keep every key the update does not name and take the update's value for those it does; `format` changes only when present |
| `ConsolefyIndex.Line` | src/index.ts:72 | the text a level method writes starts with a newline, and nothing follows it only when the joined message is empty |
| `ConsolefyIndex.BuiltinBadge` | src/index.ts:55 | while the built-in levels keep a label and a style, a built-in level renders as its own style applied to its own padded label, never through the `undefined` fallback |
| `ConsolefyIndex.SubstitutionOrder` | src/index.ts:53-57 | `{prefix}` is substituted before `{message}`: a message is never re-substituted, a `{message}` inside the label is |
| `ConsolefyIndex.Consolefy.constructor` | src/index.ts:24-42 | the configuration is `Initial` of the caller's values |
| `ConsolefyIndex.Consolefy.SetConfig` | src/index.ts:44-51 | the configuration becomes `Update` of the old one |
| `ConsolefyIndex.Consolefy.SetPrefix` | src/index.ts:59-61 | one label is upserted; the other labels, the styles and the template are unchanged |
| `ConsolefyIndex.Consolefy.SetTheme` | src/index.ts:63-65 | one style is upserted; the other styles, the labels and the template are unchanged |
| `ConsolefyIndex.Consolefy.SetFormat` | src/index.ts:67-69 | only the template changes, to the given one |
| `ConsolefyIndex.SetFormatTwice` | src/index.ts:67-69 | setting the same template twice leaves the same configuration as setting it once |
| `ConsolefyIndex.Consolefy.Warn` | src/index.ts:71-73 | always writes exactly one entry: a newline and the formatted joined message at level `warn` |
| `ConsolefyIndex.Consolefy.Success` | src/index.ts:75-77 | always writes exactly one entry at level `success` |
| `ConsolefyIndex.Consolefy.Error` | src/index.ts:79-81 | always writes exactly one entry at level `error` |
| `ConsolefyIndex.Consolefy.Info` | src/index.ts:83-85 | always writes exactly one entry at level `info` |
| `Output.Console.Log` | src/consolefy.ts:86 | one `console.log` call appends exactly its argument as one entry and changes no earlier entry |

## Left out

- colorette's ANSI escape codes (src/consolefy.ts:1, 37-40; src/index.ts:1, 35-38): styles are uninterpreted functions, and nothing is claimed about their output.
- Writing to the terminal: `console.log` is reduced to appending its argument to `Output.Console.lines`; the newline `console.log` adds after each entry is implicit in one entry per call.
- Message parts of any type: messages are strings, so the conversion `join` applies to numbers, objects, `null` and `undefined` is not modelled.
- A configuration key set explicitly to `undefined`: a key is either absent or holds a value, so spreading `{ format: undefined }` over a template is not modelled.
- Level names that coincide with properties inherited from `Object.prototype` (`toString`, `__proto__`, …): the model treats them as ordinary keys, whereas JavaScript would find the inherited property.
- Theme entries that are not functions, or style functions that return something other than a string.
- `group`, `groupEnd`, `setTag`, `resetTag`, `resetFormat` and `Colors`, which example/example.ts calls (example/example.ts:1, 19-35), are not defined in either copy of the class, so they are not modelled.
