/** The host logging framework's side of the handler: the log record it hands
    over, and the generic `logging.Formatter.format` that the formatters of
    this package delegate to. The record is an object the formatters write
    to, so it is a class; the fields the package never writes are constants. */
module Records {
  import opened Wrappers
  import Text

  /** The entries `traceback.format_exception` renders for an exception:
      never none, since the last entry always names the exception. */
  type TraceLines = lines: seq<string> | |lines| >= 1 witness [""]

  /** The exception captured with a record (`record.exc_info`), seen only
      through the lines `traceback.format_exception` renders for it. */
  datatype ExcInfo = ExcInfo(lines: TraceLines)

  /** Why the template could not be rendered (a `%(key)s` field the record
      lacks, a value of the wrong type): an exception raised by `format`
      after `message` has been set. */
  datatype FormatError = FormatError(reason: string)

  /** The record attributes a format template can refer to. `None` stands
      for an attribute the record does not have (yet). */
  datatype Fields = Fields(
    name: string,
    levelno: int,
    levelname: string,
    message: Option<string>,
    levelprefix: Option<string>,
    excText: Option<string>)

  /** The template substitution of `Formatter.formatMessage`, left
      uninterpreted: any function of the record's attributes that either
      renders them or fails. */
  type Render = Fields -> Result<string, FormatError>

  class LogRecord {
    const name: string
    const levelno: int
    const levelname: string
    /** `record.getMessage()`: the message with its arguments interpolated. */
    const msg: string
    const excInfo: Option<ExcInfo>
    /** The `notify_slack` attribute passed through `extra`, if any. */
    const notifySlack: Option<bool>
    /** The cached trace text (`record.exc_text`). */
    var excText: Option<string>
    /** `record.message`, set by `Formatter.format`. */
    var message: Option<string>
    /** `record.levelprefix`, set by the package's `DefaultFormatter`. */
    var levelprefix: Option<string>

    constructor (name: string, levelno: int, levelname: string, msg: string,
                 excInfo: Option<ExcInfo>, notifySlack: Option<bool>)
      ensures this.name == name && this.levelno == levelno && this.levelname == levelname
      ensures this.msg == msg && this.excInfo == excInfo && this.notifySlack == notifySlack
      ensures excText == None && message == None && levelprefix == None
    {
      this.name := name;
      this.levelno := levelno;
      this.levelname := levelname;
      this.msg := msg;
      this.excInfo := excInfo;
      this.notifySlack := notifySlack;
      excText := None;
      message := None;
      levelprefix := None;
    }

    /** The attributes a template sees right now. */
    function Snapshot(): Fields
      reads this
    {
      Fields(name, levelno, levelname, message, levelprefix, excText)
    }
  }

  /** Python truthiness of an optional string: present and non-empty. */
  predicate Truthy(s: Option<string>) {
    s.Some? && s.value != ""
  }

  /** Which `formatException` a formatter has: the host's, which renders the
      traceback, or the package's override, which returns `None`. */
  datatype ExceptionHook = TracebackHook | SuppressedHook

  /** What the host's `formatException` returns: the rendered traceback
      lines written out in order, without the final newline. */
  function TraceText(ei: ExcInfo): (s: string)
  {
    var all := Text.Join("", ei.lines);
    if |all| > 0 && all[|all| - 1] == '\n' then all[..|all| - 1] else all
  }

  /** `self.formatException(record.exc_info)` for the given hook. */
  function FormatException(hook: ExceptionHook, ei: ExcInfo): (text: Option<string>)
    ensures hook == SuppressedHook ==> text == None
    ensures hook == TracebackHook ==> text.Some? && text.value == TraceText(ei)
  {
    match hook
    case TracebackHook => Some(TraceText(ei))
    case SuppressedHook => None
  }

  /** `exc_text` after `format`: filled from `formatException` only when the
      record has exception info and no truthy cached text. */
  function CachedExcText(excText: Option<string>, excInfo: Option<ExcInfo>, hook: ExceptionHook): Option<string>
  {
    if excInfo.Some? && !Truthy(excText) then FormatException(hook, excInfo.value) else excText
  }

  /** The rendered message with the cached trace text appended on a line of
      its own, when that text is truthy. */
  function AppendTrace(s: string, excText: Option<string>): (out: string)
    ensures !Truthy(excText) ==> out == s
    ensures Truthy(excText) ==> |out| >= |s| + |excText.value| && out[..|s|] == s && out[|out| - |excText.value|..] == excText.value
    ensures Truthy(excText) ==> |excText.value| < |out| <= |s| + |excText.value| + 1 && out[|out| - |excText.value| - 1] == '\n'
    ensures Truthy(excText) ==> (|out| == |s| + |excText.value| <==> (|s| > 0 && s[|s| - 1] == '\n'))
  {
    if Truthy(excText) then
      (if |s| > 0 && s[|s| - 1] == '\n' then s else s + "\n") + excText.value
    else s
  }

  /** The host's `logging.Formatter.format` on a record whose attributes are
      `before`: the result, and the attributes afterwards. It sets
      `message`, renders the template, caches the trace text and appends it.
      (`asctime` and `stack_info` are not part of this model.) */
  function HostFormatSpec(before: Fields, msg: string, excInfo: Option<ExcInfo>,
                          render: Render, hook: ExceptionHook): (out: (Result<string, FormatError>, Fields))
    ensures out.1 == before.(message := Some(msg), excText := out.1.excText)
    ensures out.0.Failure? ==> out.0 == render(out.1) && out.1.excText == before.excText
    ensures out.0.Success? ==> out.1.excText == CachedExcText(before.excText, excInfo, hook)
    ensures out.0.Success? ==> render(before.(message := Some(msg))).Success?
    ensures out.0.Success? ==>
              var s := render(before.(message := Some(msg))).value;
              |out.0.value| >= |s| && out.0.value[..|s|] == s
    ensures out.0.Success? && !Truthy(out.1.excText) ==> out.0 == render(before.(message := Some(msg)))
  {
    var f := before.(message := Some(msg));
    var s := render(f);
    if s.Failure? then (s, f)
    else
      var excText := CachedExcText(f.excText, excInfo, hook);
      (Success(AppendTrace(s.value, excText)), f.(excText := excText))
  }

  /** The host's `logging.Formatter.format`, step by step on the record. */
  method HostFormat(record: LogRecord, render: Render, hook: ExceptionHook)
    returns (r: Result<string, FormatError>)
    modifies record
    ensures (r, record.Snapshot())
         == HostFormatSpec(old(record.Snapshot()), record.msg, record.excInfo, render, hook)
  {
    record.message := Some(record.msg);
    var s := render(record.Snapshot());
    if s.Failure? {
      return s;
    }
    if record.excInfo.Some? && !Truthy(record.excText) {
      record.excText := FormatException(hook, record.excInfo.value);
    }
    r := Success(AppendTrace(s.value, record.excText));
  }

  /** A formatter whose `formatException` returns `None` never appends a
      trace of its own: with no cached text, its output is the template's. */
  lemma SuppressedHookAddsNoTrace(before: Fields, msg: string, excInfo: Option<ExcInfo>, render: Render)
    requires before.excText == None
    ensures var (r, after) := HostFormatSpec(before, msg, excInfo, render, SuppressedHook);
            r == render(before.(message := Some(msg))) && after.excText == None
  {
  }

  /** Why the package clears `exc_text` first (Python issue 29056): a trace
      cached on the record by another handler's formatter is appended even
      by a formatter whose own `formatException` returns `None`. */
  lemma CachedTraceLeaks(before: Fields, msg: string, excInfo: Option<ExcInfo>, render: Render)
    requires Truthy(before.excText)
    requires render(before.(message := Some(msg))).Success?
    ensures var (r, _) := HostFormatSpec(before, msg, excInfo, render, SuppressedHook);
            var t := before.excText.value;
            r.Success? && r.value != render(before.(message := Some(msg))).value
            && |r.value| > |t| && r.value[|r.value| - |t|..] == t && r.value[|r.value| - |t| - 1] == '\n'
  {
  }
}
