/** `log_to_slack/formatters.py`: a formatter that writes a padded
    `levelprefix` attribute onto the record so templates can align level
    names, and its variant that keeps the stack trace out of the message. */
module Formatters {
  import opened Wrappers
  import opened Records

  /** Python's `" " * n`: `n` blanks, and none when `n` is not positive. */
  function Spaces(n: int): (s: string)
    ensures |s| == (if n > 0 then n else 0)
    ensures forall i :: 0 <= i < |s| ==> s[i] == ' '
    decreases n
  {
    if n <= 0 then "" else Spaces(n - 1) + " "
  }

  /** Width of the longest standard level name ("CRITICAL"). */
  const PREFIX_WIDTH := 8

  /** `record.levelprefix`: the level name and a colon, padded with blanks
      to nine characters; a longer name gets no padding at all. */
  function LevelPrefix(levelname: string): (p: string)
    ensures |p| == (if |levelname| <= PREFIX_WIDTH then PREFIX_WIDTH + 1 else |levelname| + 1)
    ensures p[..|levelname|] == levelname && p[|levelname|] == ':'
    ensures forall i :: |levelname| < i < |p| ==> p[i] == ' '
  {
    levelname + ":" + Spaces(PREFIX_WIDTH - |levelname|)
  }

  function TrimTrailingSpaces(s: string): (t: string)
    ensures |t| <= |s| && t == s[..|t|]
    ensures |t| > 0 ==> t[|t| - 1] != ' '
    decreases |s|
  {
    if |s| > 0 && s[|s| - 1] == ' ' then TrimTrailingSpaces(s[..|s| - 1]) else s
  }

  /** Reads the level name back out of a prefix: drop the padding, then the
      colon. */
  function LevelNameOf(prefix: string): (name: Option<string>)
  {
    var t := TrimTrailingSpaces(prefix);
    if |t| > 0 && t[|t| - 1] == ':' then Some(t[..|t| - 1]) else None
  }

  lemma {:induction false} TrimPadding(head: string, n: int)
    requires |head| > 0 && head[|head| - 1] != ' '
    ensures TrimTrailingSpaces(head + Spaces(n)) == head
    decreases n
  {
    if n > 0 {
      var s := head + Spaces(n);
      assert s[..|s| - 1] == head + Spaces(n - 1);
      TrimPadding(head, n - 1);
    } else {
      assert head + Spaces(n) == head;
    }
  }

  /** The prefix determines the level name: distinct names never share a
      prefix, whatever their length. */
  lemma LevelPrefixRoundTrip(levelname: string)
    ensures LevelNameOf(LevelPrefix(levelname)) == Some(levelname)
  {
    var head := levelname + ":";
    TrimPadding(head, PREFIX_WIDTH - |levelname|);
    assert LevelPrefix(levelname) == head + Spaces(PREFIX_WIDTH - |levelname|);
    assert head[..|head| - 1] == levelname;
  }

  /** `DefaultFormatter.format`: a lasting write of `levelprefix` onto the
      record, then the host's `Formatter.format`. `hook` is the
      `formatException` of the formatter's actual class. */
  method DefaultFormat(record: LogRecord, render: Render, hook: ExceptionHook)
    returns (r: Result<string, FormatError>)
    modifies record
    ensures record.levelprefix == Some(LevelPrefix(record.levelname))
    ensures (r, record.Snapshot())
         == HostFormatSpec(old(record.Snapshot()).(levelprefix := Some(LevelPrefix(record.levelname))),
                           record.msg, record.excInfo, render, hook)
  {
    record.levelprefix := Some(LevelPrefix(record.levelname));
    r := HostFormat(record, render, hook);
  }

  /** `NoStacktraceFormatter.format` of formatters.py: clears the cached
      trace, formats through `DefaultFormatter` with a `formatException`
      that returns `None`, and restores the cached trace whether or not the
      template rendered. The output is the template alone, with no trace;
      the record keeps its `exc_text` and gains `message` and `levelprefix`. */
  method NoStacktraceFormat(record: LogRecord, render: Render)
    returns (r: Result<string, FormatError>)
    modifies record
    ensures record.excText == old(record.excText)
    ensures record.message == Some(record.msg)
    ensures record.levelprefix == Some(LevelPrefix(record.levelname))
    ensures r == render(old(record.Snapshot()).(message := Some(record.msg),
                                                 levelprefix := Some(LevelPrefix(record.levelname)),
                                                 excText := None))
  {
    var saved := record.excText;
    record.excText := None;
    r := DefaultFormat(record, render, SuppressedHook);
    record.excText := saved;
  }
}
