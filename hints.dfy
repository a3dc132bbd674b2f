/** The text-level strategy (tests/Hints/ForUpdateInterceptor.cs): a command
    interceptor that looks for the marker comment EF Core writes for the tag
    "Use for update" at the very start of the command text, drops the marker
    line and appends the row-lock clause. */
module Hints {
  import opened DotNetText
  import opened RowLock

  /** The tag callers attach with TagWith. */
  const QueryTag := "Use for update"
  /** The marker the interceptor looks for at the start of the command text. */
  const QueryPrefix := "-- Use for update"
  /** What EF Core writes in front of each tag line of the header comment. */
  const SingleLineComment := "-- "

  /** Slicing at IndexOfAny's -1 throws (ArgumentOutOfRangeException). */
  datatype PatchError = MarkerWithoutLineBreak

  datatype Result<T> = Ok(value: T) | Err(error: PatchError)

  /** The command text after PatchCommandText, or the exception it throws.
      An unmarked text is kept and only a marked one can fail. A rewrite of a
      marked text ends with the lock suffix and is shorter than the text,
      because the discarded marker is longer than the suffix. */
  function PatchedText(text: string, nl: NewLine): (r: Result<string>)
    ensures !StartsWith(text, QueryPrefix) ==> r == Ok(text)
    ensures r.Err? ==> StartsWith(text, QueryPrefix)
    ensures r.Ok? && StartsWith(text, QueryPrefix) ==>
              EndsWith(r.value, LockSuffix(nl)) && |r.value| < |text|
  {
    if !StartsWith(text, QueryPrefix) then Ok(text)
    else
      var index := IndexOfAny(text, nl.Chars(), |QueryPrefix|);
      if index < 0 then Err(MarkerWithoutLineBreak)
      else Ok(Trim(text[index..]) + LockSuffix(nl))
  }

  /** The marker is exactly the comment line EF Core writes for QueryTag. */
  lemma MarkerIsTagComment()
    ensures QueryPrefix == SingleLineComment + QueryTag
  {
  }

  /** The patch leaves a text unchanged exactly when it does not start with
      the marker: a marked text is always rewritten (or rejected). */
  lemma UnchangedIffUnmarked(text: string, nl: NewLine)
    ensures PatchedText(text, nl) == Ok(text) <==> !StartsWith(text, QueryPrefix)
  {
    if StartsWith(text, QueryPrefix) {
      var index := IndexOfAny(text, nl.Chars(), |QueryPrefix|);
      if index >= 0 {
        var out := Trim(text[index..]) + LockSuffix(nl);
        assert |out| <= |text| - |QueryPrefix| + 12;
        assert |out| < |text|;
      }
    }
  }

  /** The patch fails exactly when the marker is present and no character of
      Environment.NewLine follows it. */
  lemma FailsIffNoLineBreak(text: string, nl: NewLine)
    ensures PatchedText(text, nl).Err? <==>
            StartsWith(text, QueryPrefix)
            && forall k :: |QueryPrefix| <= k < |text| ==> text[k] !in nl.Chars()
  {
  }

  /** A marked text: the marker, the rest of its line (`tail`, free of line
      breaks), the line break `brk`, then the statement `rest`. The patch
      discards the whole marker line and returns the trimmed rest followed
      by one line break and FOR UPDATE. */
  lemma RewritesMarkedText(tail: string, brk: char, rest: string, nl: NewLine)
    requires brk in nl.Chars()
    requires forall k :: 0 <= k < |tail| ==> tail[k] !in nl.Chars()
    ensures PatchedText(QueryPrefix + tail + [brk] + rest, nl) == Ok(Trim(rest) + LockSuffix(nl))
  {
    var text := QueryPrefix + tail + [brk] + rest;
    var at := |QueryPrefix| + |tail|;
    assert text[..|QueryPrefix|] == QueryPrefix;
    assert text[at] == brk;
    forall k | |QueryPrefix| <= k < at
      ensures text[k] !in nl.Chars()
    {
      assert text[k] == tail[k - |QueryPrefix|];
    }
    var index := IndexOfAny(text, nl.Chars(), |QueryPrefix|);
    assert index == at;
    assert text[index..] == [brk] + rest;
    TrimSkipsWhiteSpace(brk, rest);
  }

  /** Every rewrite has this shape: the text is the marker line up to and
      including its first line break, white space, the body, white space;
      the result is that body, unchanged, then the lock suffix once. */
  lemma RewriteShape(text: string, nl: NewLine, patched: string)
    returns (lineBreak: nat, lead: string, body: string, trail: string)
    requires StartsWith(text, QueryPrefix) && PatchedText(text, nl) == Ok(patched)
    ensures |QueryPrefix| <= lineBreak < |text| && text[lineBreak] in nl.Chars()
    ensures forall k :: |QueryPrefix| <= k < lineBreak ==> text[k] !in nl.Chars()
    ensures text[lineBreak + 1..] == lead + body + trail
    ensures AllWhiteSpace(lead) && AllWhiteSpace(trail) && IsTrimmed(body)
    ensures patched == body + LockSuffix(nl)
  {
    lineBreak := LineBreakDropped(text, nl);
    lead, trail := TrimSplit(text[lineBreak + 1..]);
    body := Trim(text[lineBreak + 1..]);
  }

  /** The first line break after the marker goes with the marker line. */
  lemma {:induction false} LineBreakDropped(text: string, nl: NewLine) returns (lineBreak: nat)
    requires StartsWith(text, QueryPrefix) && PatchedText(text, nl).Ok?
    ensures |QueryPrefix| <= lineBreak < |text| && text[lineBreak] in nl.Chars()
    ensures forall k :: |QueryPrefix| <= k < lineBreak ==> text[k] !in nl.Chars()
    ensures PatchedText(text, nl).value == Trim(text[lineBreak + 1..]) + LockSuffix(nl)
  {
    lineBreak := IndexOfAny(text, nl.Chars(), |QueryPrefix|);
    assert PatchedText(text, nl).value == Trim(text[lineBreak..]) + LockSuffix(nl);
    LineBreakTrimmed(text, nl, lineBreak);
  }

  lemma LineBreakTrimmed(text: string, nl: NewLine, lineBreak: nat)
    requires lineBreak < |text| && text[lineBreak] in nl.Chars()
    ensures Trim(text[lineBreak..]) == Trim(text[lineBreak + 1..])
  {
    var rest := text[lineBreak + 1..];
    assert text[lineBreak..] == [text[lineBreak]] + rest;
    TrimSkipsWhiteSpace(text[lineBreak], rest);
  }

  /** Appending the lock suffix never creates a marker: the suffix starts
      with a line-break character, and the marker contains none. */
  lemma SuffixKeepsMarker(body: string, nl: NewLine)
    ensures StartsWith(body + LockSuffix(nl), QueryPrefix) <==> StartsWith(body, QueryPrefix)
  {
    var s := body + LockSuffix(nl);
    if |body| >= |QueryPrefix| {
      assert s[..|QueryPrefix|] == body[..|QueryPrefix|];
      assert StartsWith(s, QueryPrefix) == (body[..|QueryPrefix|] == QueryPrefix);
    } else {
      assert s[|body|] in nl.Chars();
      assert forall k :: 0 <= k < |QueryPrefix| ==> QueryPrefix[k] !in nl.Chars();
    }
  }

  /** Patching a rewritten text again is a no-op exactly when its body does
      not itself start with the marker. */
  lemma {:induction false} RepatchIsNoOpIff(body: string, nl: NewLine)
    ensures PatchedText(body + LockSuffix(nl), nl) == Ok(body + LockSuffix(nl))
            <==> !StartsWith(body, QueryPrefix)
  {
    UnchangedIffUnmarked(body + LockSuffix(nl), nl);
    SuffixKeepsMarker(body, nl);
  }

  /** System.Data.Common.DbCommand, reduced to the text it will send. */
  class DbCommand {
    var commandText: string

    constructor (text: string)
      ensures commandText == text
    {
      commandText := text;
    }
  }

  /** The interceptor EF Core calls before executing each command. The base
      DbCommandInterceptor hooks return the interception result they are
      given, so every hook here returns it after patching. */
  class ForUpdateInterceptor {
    const newLine: NewLine

    constructor (nl: NewLine)
      ensures newLine == nl
    {
      newLine := nl;
    }

    /** Rewrites a marked command text in place. When the marker has no line
        break after it, the exception leaves the text as it was. */
    method PatchCommandText(command: DbCommand) returns (outcome: Result<()>)
      modifies command
      ensures var p := PatchedText(old(command.commandText), newLine);
              match p
              case Ok(t) => outcome == Ok(()) && command.commandText == t
              case Err(e) => outcome == Err(e) && command.commandText == old(command.commandText)
    {
      var text := command.commandText;
      if StartsWith(text, QueryPrefix) {
        var index := IndexOfAny(text, newLine.Chars(), |QueryPrefix|);
        if index < 0 {
          return Err(MarkerWithoutLineBreak);
        }
        command.commandText := Trim(text[index..]) + LockSuffix(newLine);
      }
      outcome := Ok(());
    }

    /** The four hooks share one contract: patch, then hand on the result;
        a failed patch aborts before the base hook, so nothing executes. */
    twostate predicate Hooked<R>(command: DbCommand, result: R, new r: Result<R>)
      reads command
    {
      match PatchedText(old(command.commandText), newLine)
      case Ok(t) => r == Ok(result) && command.commandText == t
      case Err(e) => r == Err(e) && command.commandText == old(command.commandText)
    }

    method ReaderExecuting<R>(command: DbCommand, result: R) returns (r: Result<R>)
      modifies command
      ensures Hooked(command, result, r)
    {
      var outcome := PatchCommandText(command);
      r := if outcome.Ok? then Ok(result) else Err(outcome.error);
    }

    method ReaderExecutingAsync<R>(command: DbCommand, result: R) returns (r: Result<R>)
      modifies command
      ensures Hooked(command, result, r)
    {
      var outcome := PatchCommandText(command);
      r := if outcome.Ok? then Ok(result) else Err(outcome.error);
    }

    method ScalarExecuting<R>(command: DbCommand, result: R) returns (r: Result<R>)
      modifies command
      ensures Hooked(command, result, r)
    {
      var outcome := PatchCommandText(command);
      r := if outcome.Ok? then Ok(result) else Err(outcome.error);
    }

    method ScalarExecutingAsync<R>(command: DbCommand, result: R) returns (r: Result<R>)
      modifies command
      ensures Hooked(command, result, r)
    {
      var outcome := PatchCommandText(command);
      r := if outcome.Ok? then Ok(result) else Err(outcome.error);
    }
  }
}
