/** Clients of the handler model: concrete records sent through concrete
    handlers, with what the contracts alone let a caller conclude. */
module Scenarios {
  import opened Wrappers
  import opened Records
  import opened SlackHandler

  const HOOK_URL := "https://hooks.slack.com/services/T000/B000/XXXX"

  /** A debug handler formats an error record with its trace but makes no
      client call, even when the send would have failed. */
  method DebugHandlerSendsNothing() {
    var args := DEFAULT_ARGS.(webhookUrl := Some(HOOK_URL), isDebug := true);
    var created := SlackLogHandler.Create(args);
    var handler := created.value;
    var record := new LogRecord("app", ERROR, "ERROR", "disk full",
                                Some(ExcInfo(["OSError: no space left on device\n"])), None);
    var r := handler.Emit(record, SendFailed(SlackApiError("invalid_auth")));
    assert r == Returned && handler.calls == [];
    assert record.message == Some("disk full") && record.excText == None;
  }

  /** An API handler posts one message, with the channel, the default
      emoji and an attachment without a trace; a Slack API error is raised
      unless the handler fails silently. */
  method ApiHandlerPostsOnce(failSilent: bool) {
    var args := DEFAULT_ARGS.(isWebhook := false, slackToken := Some("xoxb-1"),
                              channel := Some("#alerts"), failSilent := failSilent);
    var created := SlackLogHandler.Create(args);
    var handler := created.value;
    var record := new LogRecord("app", INFO, "INFO", "start", None, None);
    var r := handler.Emit(record, SendFailed(SlackApiError("ratelimited")));
    var attachment := Attachment("start", "#00C400", None);
    assert handler.calls == [ChatPostMessage("start", "#alerts", "Logging Alerts", None,
                                             Some(":heavy_exclamation_mark:"), Some([attachment]))];
    assert failSilent ==> r == Returned;
    assert !failSilent ==> r == SendRaised(SlackApiError("ratelimited"));
  }

  /** A handler without a channel is never built. */
  method MissingChannelRejected() {
    var args := DEFAULT_ARGS.(isWebhook := false, slackToken := Some("xoxb-1"));
    var created := SlackLogHandler.Create(args);
    assert created == Failure(MissingChannel);
  }
}
