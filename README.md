# log_to_slack in Dafny

A model of the `log_to_slack` Python package. The package provides a
`logging` handler that forwards log records to Slack. It can post through an
incoming webhook or through the Web API's `chat_postMessage`.

The model covers the package's decision layer:

- **Construction.** `SlackLogHandler.__init__` checks the transport
  arguments and raises on the first missing one. It also resolves the icon
  emoji and creates the client.
- **Level colours.** The colour table, and its fallback for unknown levels.
- **Attachment.** `build_trace` builds it: a fallback text, a colour, and
  the traceback in a code block when the record has exception info.
- **Emit.** `emit` formats the message and builds the attachment. Then it
  makes at most one client call and applies the `fail_silent` policy.
- **Filter.** `SlackLogFilter` checks the `notify_slack` flag.
- **Formatters.** There are three formatter classes:
  - the `NoStacktraceFormatter` in `__init__.py` clears and restores
    `exc_text`;
  - `DefaultFormatter` in `formatters.py` writes a padded `levelprefix`;
  - the `NoStacktraceFormatter` in `formatters.py` does both.

Files:

- `wrappers.dfy`: `Option` and `Result`.
- `text.dfy`: `"\n".join` and the code fence. It also has `split`, which is used only to state what the joined text says about its parts; `split` undoes the join only for parts without a newline.
- `records.dfy`: the host's side of the handler.
  - The log record is a class. The formatters write three of its
    attributes: `exc_text`, `message` and `levelprefix`.
  - `HostFormat` and `HostFormatSpec` model the host's
    `logging.Formatter.format`. It sets `message` and renders the template.
    It caches the `formatException` text in `exc_text` and appends it.
- `formatters.dfy`: `log_to_slack/formatters.py`.
- `handler.dfy`: `log_to_slack/__init__.py`.
  - The handler is a class with three parts: its settings, which are
    immutable after construction; its current formatter; and the sequence
    of calls it has made on its Slack client.
  - `Emit` is proved against the pure functions `FormatSpec`, `Attachments`,
    `PlannedCall` and `AfterSend`. Lemmas state the properties of those
    functions.
- `scenarios.dfy`: concrete handlers and records whose assertions follow from the contracts alone:
  - a debug handler makes no call;
  - an API handler posts exactly one message, and raises or swallows a
    Slack API error according to `fail_silent`;
  - a handler with a missing channel is never built.

Behaviours of the code worth noting:

- Only `exc_text` is restored after formatting. The `message` attribute,
  and for the `formatters.py` classes `levelprefix`, stay written on the
  record.
- The message and the attachment are built before the debug check.
- `fail_silent` covers only `SlackApiError`. Any other exception from the
  client propagates.
- `icon_url` and `icon_emoji` are both passed to `chat_postMessage`. The
  default emoji is used only when neither option is truthy.
- Nothing stops the message text itself from containing a code fence. What
  is guaranteed is that the stack-trace-free formatters append no exception
  trace, and that their output does not depend on the record's exception or
  cached trace (`MessageIgnoresException`).
- The attachment joins the traceback entries with `"\n"`. Each entry already
  ends in a newline, so the trace is double-spaced. The joined text keeps
  every piece of every entry in order (`TraceKeepsLinePieces`). It does not
  show where one entry ends and the next begins
  (`Text.JoinLosesLineBoundaries`).

## Model

| member | source | states |
|---|---|---|
| `Text.Join` | log_to_slack/__init__.py:159 | `sep.join(parts)` is empty for no parts. Otherwise it starts with the first part and ends with the last. |
| `Text.SplitJoin` | log_to_slack/__init__.py:159 | Splitting a newline-joined text on newlines gives the pieces of every part, in order, for any non-empty list of parts. |
| `Text.SplitJoinWithoutSeparator` | log_to_slack/__init__.py:159 | For a non-empty list of parts without a newline, splitting the joined text gives back exactly the parts. |
| `Text.JoinLosesLineBoundaries` | log_to_slack/__init__.py:159 | For newline-terminated parts, the joined text does not determine the parts: `["a\n", "b\n"]` and `["a\n\nb\n"]` join to the same text. |
| `Text.Fence` | log_to_slack/__init__.py:160 | The trace body is the text with three back-ticks on each side. It is six characters longer, and the text between the fences is the joined trace. |
| `Records.AppendTrace` | log_to_slack/__init__.py:61-65 | The host appends a truthy cached trace after the rendered template, on a new line. The output starts with the template and ends with the trace, with exactly one newline before the trace. A newline is added only when the template does not already end in one. A falsy cached trace leaves the template as it is. |
| `Records.HostFormatSpec` | log_to_slack/formatters.py:9 | The host `Formatter.format` sets `message` and changes no other attribute except `exc_text`. On failure, `exc_text` is unchanged and the template's error is returned. On success, `exc_text` holds the cached `formatException` text, the output starts with the rendered template, and without truthy trace text the output is the template alone. |
| `Records.HostFormat` | log_to_slack/__init__.py:65 | Step by step on the record, the host format produces the result and new record state that `HostFormatSpec` gives. |
| `Records.FormatException` | log_to_slack/formatters.py:19-20 | The package's `formatException` override returns `None` for every exception. The host's version returns the rendered traceback. |
| `Records.SuppressedHookAddsNoTrace` | log_to_slack/__init__.py:57-58 | With no cached `exc_text` and a `formatException` that returns `None`, the host format output is the template alone. `exc_text` stays `None`. |
| `Records.CachedTraceLeaks` | log_to_slack/__init__.py:61-63 | A trace already cached in `exc_text` is appended, on a line of its own, even by a formatter whose `formatException` returns `None`. This is why `format` clears the cache first. |
| `Formatters.Spaces` | log_to_slack/formatters.py:7 | `" " * n` has `n` characters when `n` is positive, none otherwise, and every character is a blank. |
| `Formatters.LevelPrefix` | log_to_slack/formatters.py:6-8 | The prefix is the level name, then a colon, then blanks. Its length is 9 when the name has at most 8 characters, and the name's length plus 1 otherwise. |
| `Formatters.LevelPrefixRoundTrip` | log_to_slack/formatters.py:8 | Dropping the padding and the colon from a prefix gives back the level name, for names of any length. |
| `Formatters.DefaultFormat` | log_to_slack/formatters.py:5-9 | `levelprefix` is written onto the record and stays there. The result and the other attributes are those of the host format on the prefixed record. |
| `Formatters.NoStacktraceFormat` | log_to_slack/formatters.py:22-29 | `exc_text` is the same after the call as before, whether or not rendering fails. `levelprefix` and `message` are set. The result is the template rendered with no `exc_text`, so no trace is appended. |
| `SlackHandler.ColorFor` | log_to_slack/__init__.py:22-38 | Each level number maps to its colour. FATAL and CRITICAL share `#700000`. Any other number maps to `#808080`. |
| `SlackHandler.ColorsDistinguishLevels` | log_to_slack/__init__.py:30-38 | Two distinct level numbers in the table have distinct colours. |
| `SlackHandler.Filter` | log_to_slack/__init__.py:78-79 | A record is eligible iff its `notify_slack` attribute is present and true. A missing attribute means false. |
| `SlackHandler.BuildTrace` | log_to_slack/__init__.py:153-161 | `fallback` is the given message and `color` is the level's colour. The `text` key is present iff the record has exception info. It is then a code block holding the newline-joined traceback lines. |
| `SlackHandler.TraceKeepsLinePieces` | log_to_slack/__init__.py:158-160 | For every record with exception info (whose traceback always has at least one entry), unfencing the attachment text and splitting it on newlines gives the pieces of each traceback entry, in order. No entry is lost, reordered or merged. |
| `SlackHandler.Attachments` | log_to_slack/__init__.py:174-178 | With `stack_trace` set, `attachments` is a one-element list holding the trace built with the message as fallback. Otherwise it is `None`. |
| `SlackHandler.ResolveIconEmoji` | log_to_slack/__init__.py:118 | The given emoji is kept when the emoji or the icon URL is truthy. Otherwise the emoji is `:heavy_exclamation_mark:`. |
| `SlackHandler.IconAlwaysSet` | log_to_slack/__init__.py:118 | After resolution, the emoji or the icon URL is always truthy. A resolved emoji other than the default is the one the caller gave. |
| `SlackHandler.Configure` | log_to_slack/__init__.py:113-132 | Construction succeeds iff webhook mode has a truthy URL, or API mode has a truthy token and a truthy channel. Failures are checked in order: the missing URL, then the missing token (even when the channel is also missing), then the missing channel. On success every argument is kept, the emoji is resolved, and the mode gets its client; API mode also gets the channel. |
| `SlackHandler.DefaultArgsNeedUrl` | log_to_slack/__init__.py:83-124 | A handler built with only default arguments raises the missing-webhook-URL error. |
| `SlackHandler.DefaultFormatterRendersMessage` | log_to_slack/__init__.py:113 | The formatter `__init__` installs has no template, so for every record it renders exactly the record's message. It leaves `exc_text` as it was. |
| `SlackHandler.FormatSpec` | log_to_slack/formatters.py:4-29 | Every formatter class sets `message` and keeps the record's name and level. The `formatters.py` classes set `levelprefix`, and the `__init__.py` class leaves it alone. Both stack-trace-free classes keep `exc_text`. `DefaultFormatter` caches the traceback text when it renders. |
| `SlackHandler.NoStacktraceOutput` | log_to_slack/__init__.py:60-67 | Both stack-trace-free formatters return the template rendered with `exc_text` cleared. They keep `exc_text` as it was and set `message`. Only the `formatters.py` class sets `levelprefix`. |
| `SlackHandler.MessageIgnoresException` | log_to_slack/__init__.py:50-67 | The output of a stack-trace-free formatter is the same whatever exception info or cached trace the record carries: no exception trace leaks into the message. |
| `SlackHandler.DefaultFormatterAppendsTrace` | log_to_slack/formatters.py:4-9 | `DefaultFormatter` does append the traceback to its output and caches it in `exc_text`. The output is strictly longer than the template alone. |
| `SlackHandler.PlainNoStacktraceFormat` | log_to_slack/__init__.py:60-67 | `exc_text` is the same after the call as before, even when rendering fails. `levelprefix` is untouched and `message` is set. The result is the template rendered with no `exc_text`. |
| `SlackHandler.PlannedCall` | log_to_slack/__init__.py:180-194 | In debug mode no call is planned. Otherwise exactly one call is planned: a webhook send in webhook mode, or a `chat_postMessage` in API mode. `chat_postMessage` gets the stored channel, username, icon URL and emoji. Either call gets the message and the attachments. |
| `SlackHandler.AfterSend` | log_to_slack/__init__.py:195-199 | A `SlackApiError` is swallowed iff `fail_silent` is set, and is re-raised otherwise. Any other error is always raised. A successful send returns. |
| `SlackHandler.SlackLogHandler.constructor` | log_to_slack/__init__.py:112-120 | A new handler holds the given settings and the plain `NoStacktraceFormatter`, and has made no client call. |
| `SlackHandler.SlackLogHandler.Create` | log_to_slack/__init__.py:83-132 | A configuration error returns that error, and no handler or client exists. Otherwise a fresh handler holds exactly the configured settings and has made no call. |
| `SlackHandler.SlackLogHandler.SetFormatter` | test.py:21 | Replacing the formatter changes only the formatter. |
| `SlackHandler.SlackLogHandler.BuildMsg` | log_to_slack/__init__.py:134-142 | The message, and the record's attributes afterwards, are those the installed formatter class produces. |
| `SlackHandler.SlackLogHandler.Emit` | log_to_slack/__init__.py:163-199 | The record is always formatted first. A formatting failure raises before any call. Otherwise the call log grows by exactly the planned call, which is none in debug mode. The result is the `fail_silent` policy applied to the send outcome, or a plain return in debug mode. |

## Left out

- The Slack clients (`WebhookClient.send`, `WebClient.chat_postMessage`) are not executed. The model records each call with its arguments. The caller of `Emit` supplies the call's outcome: delivered, `SlackApiError`, or another exception.
- `traceback.format_exception` is not modelled: a record's exception is the list of lines that function would render.
- The template substitution of `logging.Formatter` is an uninterpreted function of the record's attributes, which may fail. The clock read behind `asctime`, `stack_info` and the `%` interpolation of `getMessage` are not part of this model; a record carries its already interpolated message.
- `six.text_type` is the identity on strings and is omitted.
- `Handler.__init__`'s level and lock, the host's level filtering and dispatch, and thread safety are the host framework's and are not modelled.
- `setup.py` (packaging) and `test.py` (a live-webhook script) are not part of this model.
- `SlackHandler.Filter` returns a boolean. Python returns the attribute's own value, which the host only tests for truthiness. Non-boolean `notify_slack` values are not modelled.
- `SlackHandler.SlackLogHandler.Create` cannot show the partly initialised object that Python discards when `__init__` raises. A failure simply returns no handler.
- A template sees only six record attributes: `name`, `levelno`, `levelname`, `message`, `levelprefix` and `exc_text`. It cannot name `exc_info` or `stack_info`, and the host's appending of `stack_info` is not modelled. In Python a record logged with `stack_info` still carries that stack into the Slack text, because neither `NoStacktraceFormatter` clears it.
- `SlackHandler.SlackLogHandler.SetFormatter` can install only the package's three formatter classes (`FormatterKind`). A plain `logging.Formatter` or any other formatter cannot be represented.
- Failures of `getMessage` (bad message arguments) are not modelled: such a failure raises before `message` is written, but in the model every formatting failure comes after `message` is set.
- Attributes of unexpected types, such as a `None` username or a non-string URL, are not modelled: each argument has its annotated type or `None`.
