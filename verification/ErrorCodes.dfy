/** Stable codes inside `last_error`, and which of them close a dedup key for good. */
module ErrorCodes {
  import opened Schema

  const WATCHDOG := "watchdog"
  const WATCHDOG_TASK_TIMEOUT := WATCHDOG + ":" + "task_timeout_exceeded"
  const MAX_POSTPONE_COUNT := "max_postpone_count"

  const FATAL_ERROR_CODES: set<string> := {
    "invalid_payload", "account_not_found", "unsupported_task_type", "unknown_task_type",
    "channel_private", "channel_has_no_discussion", "username_not_found",
    "channel_on_unexpected_session", "entity_not_found"
  }

  predicate IsSpace(c: char) {
    c == ' ' || c == '\t' || c == '\n' || c == '\r'
  }

  function StripLeft(s: string): (r: string)
    ensures |r| <= |s|
    ensures r != [] ==> !IsSpace(r[0])
    ensures s == [] || !IsSpace(s[0]) ==> r == s
  {
    if s != [] && IsSpace(s[0]) then StripLeft(s[1..]) else s
  }

  function StripRight(s: string): (r: string)
    ensures |r| <= |s| && r == s[..|r|]
    ensures r != [] ==> !IsSpace(r[|r| - 1])
    ensures s == [] || !IsSpace(s[|s| - 1]) ==> r == s
  {
    if s != [] && IsSpace(s[|s| - 1]) then StripRight(s[..|s| - 1]) else s
  }

  function Strip(s: string): string {
    StripRight(StripLeft(s))
  }

  function HeadBeforeColon(s: string): (r: string)
    ensures |r| <= |s| && r == s[..|r|]
    ensures ':' !in r
    ensures |r| < |s| ==> s[|r|] == ':'
  {
    if s == [] || s[0] == ':' then [] else [s[0]] + HeadBeforeColon(s[1..])
  }

  /** The only catalogued code that itself contains a colon is the watchdog's, so the
      exact-match pass of the source matters for that code alone. */
  function ErrorCodePrefix(value: Option<string>): Option<string> {
    if value.None? then None
    else
      var text := Strip(value.value);
      if text == [] then None
      else if text == WATCHDOG_TASK_TIMEOUT then Some(text)
      else Some(HeadBeforeColon(text))
  }

  predicate IsFatal(lastError: Option<string>) {
    var code := ErrorCodePrefix(lastError);
    code.Some? && code.value in FATAL_ERROR_CODES
  }

  lemma {:induction false} HeadOfComposite(code: string, tail: string)
    requires ':' !in code
    ensures HeadBeforeColon(code + ":" + tail) == code
  {
    if code != [] {
      assert (code + ":" + tail)[1..] == code[1..] + ":" + tail;
      HeadOfComposite(code[1..], tail);
    }
  }

  // Stripping on the right never reaches past the last character that is no space.
  lemma {:induction false} StripRightKeepsFront(front: string, tail: string)
    requires front != [] && !IsSpace(front[|front| - 1])
    ensures exists rest :: StripRight(front + tail) == front + rest
  {
    if tail == [] {
      assert front + tail == front + [];
    } else if IsSpace(tail[|tail| - 1]) {
      var n := |tail| - 1;
      assert (front + tail)[..|front + tail| - 1] == front + tail[..n];
      StripRightKeepsFront(front, tail[..n]);
    } else {
      assert StripRight(front + tail) == front + tail;
    }
  }

  lemma WatchdogHead()
    ensures HeadBeforeColon(WATCHDOG_TASK_TIMEOUT) == WATCHDOG
  {
    HeadOfComposite(WATCHDOG, "task_timeout_exceeded");
  }

  /** Details after a colon do not change the code of an error, whatever they say; the one
      catalogued code with a colon of its own is the exception. */
  lemma CompositeHasItsCode(code: string, details: string)
    requires code != [] && ':' !in code && !IsSpace(code[0])
    ensures var prefix := ErrorCodePrefix(Some(code + ":" + details));
      prefix == Some(code) || (code == WATCHDOG && prefix == Some(WATCHDOG_TASK_TIMEOUT))
  {
    var text := code + ":" + details;
    assert StripLeft(text) == text;
    StripRightKeepsFront(code + ":", details);
    var rest :| StripRight(text) == code + ":" + rest;
    HeadOfComposite(code, rest);
    WatchdogHead();
  }

  lemma {:induction false} NoColonNoTail(code: string)
    requires ':' !in code
    ensures HeadBeforeColon(code) == code
  {
    if code != [] {
      NoColonNoTail(code[1..]);
    }
  }

  lemma WatchdogHasColon()
    ensures ':' in WATCHDOG_TASK_TIMEOUT
  {
    assert WATCHDOG_TASK_TIMEOUT[|WATCHDOG|] == ':';
  }

  predicate Bare(code: string) {
    code != [] && ':' !in code && !IsSpace(code[0]) && !IsSpace(code[|code| - 1])
  }

  lemma BareIsItsPrefix(code: string)
    requires Bare(code)
    ensures ErrorCodePrefix(Some(code)) == Some(code)
  {
    NoColonNoTail(code);
    WatchdogHasColon();
  }

  // The codes a repetition cannot cure.
  predicate Incurable(code: string) {
    || code == "invalid_payload" || code == "account_not_found" || code == "unsupported_task_type"
    || code == "unknown_task_type" || code == "channel_private" || code == "channel_has_no_discussion"
    || code == "username_not_found" || code == "channel_on_unexpected_session" || code == "entity_not_found"
  }

  lemma FatalInitials(code: string)
    requires code in FATAL_ERROR_CODES
    ensures code != [] && code[0] != 'w' && code[0] != 'm'
  {
  }

  /** An error is fatal for one of nine codes and no other, bare or with details behind it. */
  lemma FatalCodesAre(code: string, details: string)
    requires Bare(code)
    ensures IsFatal(Some(code)) <==> Incurable(code)
    ensures IsFatal(Some(code + ":" + details)) <==> Incurable(code)
  {
    BareIsItsPrefix(code);
    CompositeHasItsCode(code, details);
    WatchdogIsNotFatal(code);
  }

  lemma WatchdogIsNotFatal(code: string)
    ensures WATCHDOG_TASK_TIMEOUT !in FATAL_ERROR_CODES
    ensures code == WATCHDOG ==> code !in FATAL_ERROR_CODES && !Incurable(code)
  {
    assert WATCHDOG_TASK_TIMEOUT[0] == WATCHDOG[0] == 'w';
    if WATCHDOG_TASK_TIMEOUT in FATAL_ERROR_CODES { FatalInitials(WATCHDOG_TASK_TIMEOUT); }
    if WATCHDOG in FATAL_ERROR_CODES { FatalInitials(WATCHDOG); }
  }

  lemma MaxPostponeIsBare()
    ensures Bare(MAX_POSTPONE_COUNT) && MAX_POSTPONE_COUNT[0] == 'm'
  {
  }

  lemma WatchdogIsItsPrefix()
    ensures ErrorCodePrefix(Some(WATCHDOG_TASK_TIMEOUT)) == Some(WATCHDOG_TASK_TIMEOUT)
    ensures WATCHDOG_TASK_TIMEOUT != [] && WATCHDOG_TASK_TIMEOUT[0] == 'w'
  {
    var tail := "task_timeout_exceeded";
    assert WATCHDOG_TASK_TIMEOUT[|WATCHDOG_TASK_TIMEOUT| - 1] == tail[|tail| - 1] == 'd';
  }

  /** The two errors the queue itself gives a task up with are not fatal. */
  lemma GivingUpIsNotFatal()
    ensures !IsFatal(Some(WATCHDOG_TASK_TIMEOUT))
    ensures !IsFatal(Some(MAX_POSTPONE_COUNT))
  {
    WatchdogIsItsPrefix();
    MaxPostponeIsBare();
    BareIsItsPrefix(MAX_POSTPONE_COUNT);
    if MAX_POSTPONE_COUNT in FATAL_ERROR_CODES { FatalInitials(MAX_POSTPONE_COUNT); }
    WatchdogIsNotFatal(WATCHDOG);
  }

  lemma UnknownTypeIsFatal(typeCode: string)
    ensures IsFatal(Some("unknown_task_type" + ":" + typeCode))
  {
    CompositeHasItsCode("unknown_task_type", typeCode);
    assert "unknown_task_type"[0] != WATCHDOG[0];
  }
}
