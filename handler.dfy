/** `log_to_slack/__init__.py`: the logging handler that forwards records to
    Slack, its colour table, its filter on the `notify_slack` flag and the
    formatter it installs. A handler is built once from its keyword
    arguments and then only records the calls it makes on its Slack client:
    the client itself (a webhook or the Web API) is outside the model, and
    what a send returns is supplied by the caller of `Emit`. */
module SlackHandler {
  import opened Wrappers
  import opened Records
  import Text
  import Formatters

  // ---------------------------------------------------------------------
  // Level colours

  const NOTSET := 0
  const DEBUG := 10
  const INFO := 20
  const WARNING := 30
  const ERROR := 40
  const CRITICAL := 50
  const FATAL := CRITICAL

  const NOTSET_COLOR := "#808080"
  const DEBUG_COLOR := "#00FFFF"
  const INFO_COLOR := "#00C400"
  const WARNING_COLOR := "#FFE240"
  const ERROR_COLOR := "#FF0000"
  const CRITICAL_COLOR := "#700000"
  const FATAL_COLOR := CRITICAL_COLOR

  const COLORS: map<int, string> := map[
    NOTSET := NOTSET_COLOR,
    DEBUG := DEBUG_COLOR,
    INFO := INFO_COLOR,
    WARNING := WARNING_COLOR,
    ERROR := ERROR_COLOR,
    FATAL := FATAL_COLOR,
    CRITICAL := CRITICAL_COLOR]

  const DEFAULT_EMOJI := ":heavy_exclamation_mark:"

  /** `COLORS.get(levelno, NOTSET_COLOR)`: each standard level has its own
      colour, fatal and critical share dark red, and any other level number
      is grey. */
  function ColorFor(levelno: int): (c: string)
    ensures levelno == 0 ==> c == "#808080"
    ensures levelno == 10 ==> c == "#00FFFF"
    ensures levelno == 20 ==> c == "#00C400"
    ensures levelno == 30 ==> c == "#FFE240"
    ensures levelno == 40 ==> c == "#FF0000"
    ensures levelno == 50 ==> c == "#700000"
    ensures levelno !in {0, 10, 20, 30, 40, 50} ==> c == "#808080"
  {
    if levelno in COLORS then COLORS[levelno] else NOTSET_COLOR
  }

  /** Distinct standard levels get distinct colours, except that fatal is
      critical. */
  lemma ColorsDistinguishLevels(a: int, b: int)
    requires a in COLORS && b in COLORS && a != b
    ensures ColorFor(a) != ColorFor(b)
  {
  }

  // ---------------------------------------------------------------------
  // The filter

  /** `SlackLogFilter.filter`: the record's `notify_slack` attribute, false
      when it is missing. */
  function Filter(record: LogRecord): (eligible: bool)
    ensures eligible <==> record.notifySlack == Some(true)
  {
    record.notifySlack.GetOr(false)
  }

  // ---------------------------------------------------------------------
  // Attachments

  /** A Slack message attachment as `build_trace` builds it; `text` is the
      key that is only present for records with exception info. */
  datatype Attachment = Attachment(fallback: string, color: string, text: Option<string>)

  /** `build_trace`: the message as fallback, the level's colour, and, for
      a record with exception info, its traceback lines joined with
      newlines inside a code block. */
  function BuildTrace(record: LogRecord, fallback: string): (a: Attachment)
    ensures a.fallback == fallback
    ensures a.color == ColorFor(record.levelno)
    ensures a.text.Some? <==> record.excInfo.Some?
    ensures a.text.Some? ==> Text.Unfence(a.text.value) == Some(Text.Join("\n", record.excInfo.value.lines))
  {
    var text :=
      if record.excInfo.Some? then Some(Text.Fence(Text.Join("\n", record.excInfo.value.lines)))
      else None;
    Attachment(fallback, ColorFor(record.levelno), text)
  }

  /** What the attachment text says about the traceback, for every record
      with exception info: split on newlines, the text inside the fence
      gives the pieces of each line in order, so no line is lost, reordered
      or merged. (`Text.JoinLosesLineBoundaries` shows that the text does
      not tell where one newline-terminated line ends and the next begins.) */
  lemma TraceKeepsLinePieces(record: LogRecord, fallback: string)
    requires record.excInfo.Some?
    ensures var a := BuildTrace(record, fallback);
            && a.text.Some? && Text.Unfence(a.text.value).Some?
            && Text.Split(Text.Unfence(a.text.value).value, '\n') == Text.SplitEach(record.excInfo.value.lines, '\n')
  {
    Text.SplitJoin(record.excInfo.value.lines, '\n');
  }

  /** The `attachments` argument of the send: one attachment built from the
      message when `stack_trace` is set, `None` otherwise. */
  function Attachments(stackTrace: bool, record: LogRecord, message: string): (a: Option<seq<Attachment>>)
    ensures a.Some? <==> stackTrace
    ensures a.Some? ==> |a.value| == 1 && a.value[0] == BuildTrace(record, message)
    ensures a.Some? ==> a.value[0].fallback == message && a.value[0].color == ColorFor(record.levelno)
  {
    if stackTrace then Some([BuildTrace(record, message)]) else None
  }

  // ---------------------------------------------------------------------
  // Construction

  /** The keyword arguments of `SlackLogHandler.__init__`. */
  datatype Args = Args(
    slackToken: Option<string>,
    channel: Option<string>,
    webhookUrl: Option<string>,
    isWebhook: bool,
    isDebug: bool,
    stackTrace: bool,
    username: string,
    iconUrl: Option<string>,
    iconEmoji: Option<string>,
    failSilent: bool)

  /** The defaults of those arguments. */
  const DEFAULT_ARGS := Args(None, None, None, true, false, true, "Logging Alerts", None, None, false)

  /** The `ValueError`s `__init__` raises. */
  datatype ConfigError = MissingWebhookUrl | MissingSlackToken | MissingChannel {
    function Message(): string {
      match this
      case MissingWebhookUrl => "webhook_url is required when webhook delivery is enabled"
      case MissingSlackToken => "slack_token is required when not using webhook_url"
      case MissingChannel => "channel is required when not using webhook_url"
    }
  }

  /** The client the handler holds: a webhook client for a URL or a Web API
      client for a token. */
  datatype Client = WebhookClient(url: string) | WebClient(token: string)

  /** The attributes `__init__` sets. `channel` is `None` in webhook mode,
      where the attribute is never set. */
  datatype Settings = Settings(
    stackTrace: bool,
    failSilent: bool,
    username: string,
    iconUrl: Option<string>,
    iconEmoji: Option<string>,
    isDebug: bool,
    isWebhook: bool,
    client: Client,
    channel: Option<string>)
  {
    /** The client matches the mode, and API mode has a channel. */
    predicate WellFormed() {
      (isWebhook <==> client.WebhookClient?) && (!isWebhook ==> channel.Some?)
    }
  }

  type HandlerSettings = s: Settings | s.WellFormed()
    witness Settings(true, false, "Logging Alerts", None, Some(":heavy_exclamation_mark:"),
                     false, true, WebhookClient("https://hooks.slack.com/services/"), None)

  /** `icon_emoji if (icon_emoji or icon_url) else DEFAULT_EMOJI`. */
  function ResolveIconEmoji(iconEmoji: Option<string>, iconUrl: Option<string>): (e: Option<string>)
    ensures Truthy(iconEmoji) || Truthy(iconUrl) ==> e == iconEmoji
    ensures !Truthy(iconEmoji) && !Truthy(iconUrl) ==> e == Some(":heavy_exclamation_mark:")
  {
    if Truthy(iconEmoji) || Truthy(iconUrl) then iconEmoji else Some(DEFAULT_EMOJI)
  }

  /** A message always carries an icon: a truthy emoji or a truthy icon URL;
      and a resolved emoji other than the default is the caller's. */
  lemma IconAlwaysSet(iconEmoji: Option<string>, iconUrl: Option<string>)
    ensures var e := ResolveIconEmoji(iconEmoji, iconUrl);
            (Truthy(e) || Truthy(iconUrl)) && (e != Some(DEFAULT_EMOJI) ==> e == iconEmoji)
  {
  }

  /** The validation and assignments of `__init__`: webhook mode needs a
      truthy URL; API mode needs a truthy token, checked first, and then a
      truthy channel. On success every argument is kept, with the emoji
      resolved and the client made for the chosen mode. */
  function Configure(args: Args): (r: Result<HandlerSettings, ConfigError>)
    ensures r.Success? <==>
              if args.isWebhook then Truthy(args.webhookUrl)
              else Truthy(args.slackToken) && Truthy(args.channel)
    ensures args.isWebhook ==> (r.Failure? <==> !Truthy(args.webhookUrl))
    ensures args.isWebhook && r.Failure? ==> r.error == MissingWebhookUrl
    ensures !args.isWebhook && !Truthy(args.slackToken) ==> r == Failure(MissingSlackToken)
    ensures !args.isWebhook && Truthy(args.slackToken) && !Truthy(args.channel) ==> r == Failure(MissingChannel)
    ensures !args.isWebhook && Truthy(args.slackToken) && Truthy(args.channel) ==> r.Success?
    ensures r.Success? ==>
      var s := r.value;
      && s.stackTrace == args.stackTrace && s.failSilent == args.failSilent
      && s.username == args.username && s.iconUrl == args.iconUrl
      && s.iconEmoji == ResolveIconEmoji(args.iconEmoji, args.iconUrl)
      && s.isDebug == args.isDebug && s.isWebhook == args.isWebhook
      && (s.isWebhook ==> s.client == WebhookClient(args.webhookUrl.value) && s.channel == None)
      && (!s.isWebhook ==> s.client == WebClient(args.slackToken.value) && s.channel == args.channel)
  {
    var iconEmoji := ResolveIconEmoji(args.iconEmoji, args.iconUrl);
    if args.isWebhook then
      if !Truthy(args.webhookUrl) then Failure(MissingWebhookUrl)
      else Success(Settings(args.stackTrace, args.failSilent, args.username, args.iconUrl, iconEmoji,
                            args.isDebug, true, WebhookClient(args.webhookUrl.value), None))
    else if !Truthy(args.slackToken) then Failure(MissingSlackToken)
    else if !Truthy(args.channel) then Failure(MissingChannel)
    else Success(Settings(args.stackTrace, args.failSilent, args.username, args.iconUrl, iconEmoji,
                          args.isDebug, false, WebClient(args.slackToken.value), args.channel))
  }

  /** A handler built with no arguments at all fails: webhook mode is the
      default and there is no default URL. */
  lemma DefaultArgsNeedUrl()
    ensures Configure(DEFAULT_ARGS) == Failure(MissingWebhookUrl)
    ensures Configure(DEFAULT_ARGS).error.Message() == "webhook_url is required when webhook delivery is enabled"
  {
  }

  // ---------------------------------------------------------------------
  // Formatting

  /** The formatter classes of the package a handler can format with:
      `NoStacktraceFormatter` of `__init__.py` (a plain `Formatter`), and
      `DefaultFormatter` and `NoStacktraceFormatter` of `formatters.py`. */
  datatype FormatterKind = PlainNoStacktrace | PrefixingDefault | PrefixingNoStacktrace

  datatype Formatter = Formatter(kind: FormatterKind, render: Render)

  /** The template `%(message)s` of a formatter built without one. */
  function MessageOnly(f: Fields): (r: Result<string, FormatError>)
    ensures r.Success? <==> f.message.Some?
    ensures r.Success? ==> r.value == f.message.value
  {
    if f.message.Some? then Success(f.message.value) else Failure(FormatError("message"))
  }

  /** What `format` of each formatter returns for a record whose attributes
      are `before`, and the record's attributes afterwards, as the class
      hierarchy composes it over the host's `Formatter.format`. */
  function FormatSpec(fmt: Formatter, before: Fields, msg: string, excInfo: Option<ExcInfo>)
    : (out: (Result<string, FormatError>, Fields))
    ensures out.1.message == Some(msg)
    ensures out.1.name == before.name && out.1.levelno == before.levelno && out.1.levelname == before.levelname
    ensures fmt.kind == PlainNoStacktrace ==> out.1.levelprefix == before.levelprefix
    ensures fmt.kind != PlainNoStacktrace ==> out.1.levelprefix == Some(Formatters.LevelPrefix(before.levelname))
    ensures fmt.kind != PrefixingDefault ==> out.1.excText == before.excText
    ensures fmt.kind == PrefixingDefault && out.0.Success? ==>
              out.1.excText == CachedExcText(before.excText, excInfo, TracebackHook)
  {
    var prefixed := before.(levelprefix := Some(Formatters.LevelPrefix(before.levelname)));
    match fmt.kind
    case PlainNoStacktrace =>
      var (r, after) := HostFormatSpec(before.(excText := None), msg, excInfo, fmt.render, SuppressedHook);
      (r, after.(excText := before.excText))
    case PrefixingDefault =>
      HostFormatSpec(prefixed, msg, excInfo, fmt.render, TracebackHook)
    case PrefixingNoStacktrace =>
      var (r, after) := HostFormatSpec(prefixed.(excText := None), msg, excInfo, fmt.render, SuppressedHook);
      (r, after.(excText := before.excText))
  }

  /** The two stack-trace-free formatters return the template rendered with
      no `exc_text` and leave `exc_text` as it was. */
  lemma NoStacktraceOutput(fmt: Formatter, before: Fields, msg: string, excInfo: Option<ExcInfo>)
    requires fmt.kind != PrefixingDefault
    ensures var (r, after) := FormatSpec(fmt, before, msg, excInfo);
            var seen := before.(message := Some(msg), excText := None);
            && after.excText == before.excText
            && after.message == Some(msg)
            && (fmt.kind == PlainNoStacktrace ==> r == fmt.render(seen) && after.levelprefix == before.levelprefix)
            && (fmt.kind == PrefixingNoStacktrace ==>
                  var p := Some(Formatters.LevelPrefix(before.levelname));
                  r == fmt.render(seen.(levelprefix := p)) && after.levelprefix == p)
  {
  }

  /** No exception trace reaches the message of a stack-trace-free
      formatter: its output does not depend on the record's exception or
      cached trace text. */
  lemma MessageIgnoresException(fmt: Formatter, before: Fields, msg: string,
                                e1: Option<ExcInfo>, e2: Option<ExcInfo>, cached: Option<string>)
    requires fmt.kind != PrefixingDefault
    ensures FormatSpec(fmt, before, msg, e1).0 == FormatSpec(fmt, before.(excText := cached), msg, e2).0
  {
  }

  /** By contrast `DefaultFormatter` appends the traceback on its own line
      and caches it on the record. */
  lemma DefaultFormatterAppendsTrace(fmt: Formatter, before: Fields, msg: string, ei: ExcInfo)
    requires fmt.kind == PrefixingDefault && before.excText == None && TraceText(ei) != ""
    requires fmt.render(before.(message := Some(msg), levelprefix := Some(Formatters.LevelPrefix(before.levelname)))).Success?
    ensures var (r, after) := FormatSpec(fmt, before, msg, Some(ei));
            var s := fmt.render(before.(message := Some(msg), levelprefix := Some(Formatters.LevelPrefix(before.levelname)))).value;
            && after.excText == Some(TraceText(ei))
            && r == Success(AppendTrace(s, Some(TraceText(ei))))
            && |r.value| > |s|
  {
  }

  /** `NoStacktraceFormatter.format` of `__init__.py`: clears the cached
      trace, formats with the host's `Formatter.format` and a
      `formatException` that returns `None`, and restores the cached trace
      whether or not the template rendered. */
  method PlainNoStacktraceFormat(record: LogRecord, render: Render)
    returns (r: Result<string, FormatError>)
    modifies record
    ensures record.excText == old(record.excText)
    ensures record.message == Some(record.msg)
    ensures record.levelprefix == old(record.levelprefix)
    ensures r == render(old(record.Snapshot()).(message := Some(record.msg), excText := None))
  {
    var saved := record.excText;
    record.excText := None;
    r := HostFormat(record, render, SuppressedHook);
    record.excText := saved;
  }

  // ---------------------------------------------------------------------
  // Sending

  /** A call made on the Slack client: `WebhookClient.send` or
      `WebClient.chat_postMessage`, with the arguments the handler passes. */
  datatype Call =
    | WebhookSend(text: string, attachments: Option<seq<Attachment>>)
    | ChatPostMessage(text: string, channel: string, username: string, iconUrl: Option<string>,
                      iconEmoji: Option<string>, attachments: Option<seq<Attachment>>)

  /** What a send did: nothing went wrong, or it raised. */
  datatype SendOutcome = Delivered | SendFailed(failure: SendFailure)

  /** `SlackApiError`, or any other exception out of the client. */
  datatype SendFailure = SlackApiError(reason: string) | OtherError(reason: string)

  /** How `emit` ends: it returns, or it raises. */
  datatype EmitResult = Returned | FormatRaised(formatError: FormatError) | SendRaised(sendError: SendFailure)

  /** The one client call `emit` makes for a formatted message, or none in
      debug mode: a webhook send in webhook mode, a `chat_postMessage` with
      the handler's channel and identity otherwise. */
  function PlannedCall(s: HandlerSettings, message: string, attachments: Option<seq<Attachment>>)
    : (c: Option<Call>)
    ensures c.None? <==> s.isDebug
    ensures c.Some? ==> c.value.text == message && c.value.attachments == attachments
    ensures c.Some? ==> (c.value.WebhookSend? <==> s.isWebhook)
    ensures c.Some? && c.value.ChatPostMessage? ==>
              && s.channel == Some(c.value.channel) && c.value.username == s.username
              && c.value.iconUrl == s.iconUrl && c.value.iconEmoji == s.iconEmoji
  {
    if s.isDebug then None
    else if s.isWebhook then Some(WebhookSend(message, attachments))
    else Some(ChatPostMessage(message, s.channel.value, s.username, s.iconUrl, s.iconEmoji, attachments))
  }

  /** The `except SlackApiError` clause: a Slack API error is swallowed
      exactly when `fail_silent` is set; any other exception goes on up. */
  function AfterSend(failSilent: bool, outcome: SendOutcome): (r: EmitResult)
    ensures outcome.Delivered? ==> r == Returned
    ensures outcome.SendFailed? && outcome.failure.SlackApiError? ==>
              (r == Returned <==> failSilent) && (!failSilent ==> r == SendRaised(outcome.failure))
    ensures outcome.SendFailed? && outcome.failure.OtherError? ==> r == SendRaised(outcome.failure)
  {
    match outcome
    case Delivered => Returned
    case SendFailed(e) => if e.SlackApiError? && failSilent then Returned else SendRaised(e)
  }

  const DEFAULT_FORMATTER := Formatter(PlainNoStacktrace, MessageOnly)

  /** The formatter a handler installs renders exactly the record's
      message, whatever its level, exception or cached trace. */
  lemma DefaultFormatterRendersMessage(before: Fields, msg: string, excInfo: Option<ExcInfo>)
    ensures var (r, after) := FormatSpec(DEFAULT_FORMATTER, before, msg, excInfo);
            r == Success(msg) && after.excText == before.excText
  {
    NoStacktraceOutput(DEFAULT_FORMATTER, before, msg, excInfo);
  }

  class SlackLogHandler {
    const settings: HandlerSettings
    /** The handler's formatter; `__init__` installs the plain
        `NoStacktraceFormatter` with the template `%(message)s`. */
    var formatter: Formatter
    /** Every call made on the Slack client so far, in order. */
    var calls: seq<Call>

    constructor (settings: HandlerSettings)
      ensures this.settings == settings && formatter == DEFAULT_FORMATTER && calls == []
    {
      this.settings := settings;
      formatter := DEFAULT_FORMATTER;
      calls := [];
    }

    /** `SlackLogHandler.__init__`: raises the first configuration error, in
        which case no handler and no client exist; otherwise a handler with
        the resolved settings that has made no call yet. */
    static method Create(args: Args) returns (r: Result<SlackLogHandler, ConfigError>)
      ensures Configure(args).Failure? ==> r == Failure(Configure(args).error)
      ensures Configure(args).Success? ==>
                && r.Success? && fresh(r.value)
                && r.value.settings == Configure(args).value
                && r.value.formatter == DEFAULT_FORMATTER && r.value.calls == []
    {
      var settings := Configure(args);
      if settings.Failure? {
        return Failure(settings.error);
      }
      var handler := new SlackLogHandler(settings.value);
      r := Success(handler);
    }

    /** The host's `Handler.setFormatter`. */
    method SetFormatter(fmt: Formatter)
      modifies this`formatter
      ensures formatter == fmt
    {
      formatter := fmt;
    }

    /** `build_msg`: the record formatted by the handler's formatter. */
    method BuildMsg(record: LogRecord) returns (m: Result<string, FormatError>)
      modifies record
      ensures (m, record.Snapshot()) == FormatSpec(formatter, old(record.Snapshot()), record.msg, record.excInfo)
    {
      ghost var before := record.Snapshot();
      match formatter.kind
      case PlainNoStacktrace =>
        NoStacktraceOutput(formatter, before, record.msg, record.excInfo);
        m := PlainNoStacktraceFormat(record, formatter.render);
      case PrefixingDefault =>
        m := Formatters.DefaultFormat(record, formatter.render, TracebackHook);
      case PrefixingNoStacktrace =>
        NoStacktraceOutput(formatter, before, record.msg, record.excInfo);
        m := Formatters.NoStacktraceFormat(record, formatter.render);
    }

    /** `emit`: formats the message (a failure there raises before anything
        is sent), builds the attachment if `stack_trace` is set, and then,
        unless in debug mode, makes exactly the one planned client call and
        applies the `fail_silent` policy to its outcome. */
    method Emit(record: LogRecord, outcome: SendOutcome) returns (r: EmitResult)
      modifies this`calls, record
      ensures var (m, after) := FormatSpec(formatter, old(record.Snapshot()), record.msg, record.excInfo);
              && record.Snapshot() == after
              && (m.Failure? ==> r == FormatRaised(m.error) && calls == old(calls))
              && (m.Success? ==>
                    var call := PlannedCall(settings, m.value, Attachments(settings.stackTrace, record, m.value));
                    && calls == old(calls) + (if call.Some? then [call.value] else [])
                    && r == (if call.Some? then AfterSend(settings.failSilent, outcome) else Returned))
    {
      var message := BuildMsg(record);
      if message.Failure? {
        return FormatRaised(message.error);
      }
      var attachments := Attachments(settings.stackTrace, record, message.value);
      if settings.isDebug {
        return Returned;
      }
      if settings.isWebhook {
        calls := calls + [WebhookSend(message.value, attachments)];
      } else {
        calls := calls + [ChatPostMessage(message.value, settings.channel.value, settings.username,
                                          settings.iconUrl, settings.iconEmoji, attachments)];
      }
      r := AfterSend(settings.failSilent, outcome);
    }
  }
}
