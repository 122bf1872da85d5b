/** What a hook payload means, told from its own fields, and that the translation of a payload says exactly that. */
module HookPayload {
  import opened Ordering
  import opened ForensicsRecords

  // ---- The configured verifier ----

  /** A foreground Bash command that is the verifier to the letter. */
  ghost predicate RunsVerifier(p: Payload, verifier: string) {
    && p.toolName == Some("Bash") && p.inputIsObject && p.command.Some? && p.command.value == verifier
    && (p.background.Some? ==> !p.background.value)
  }

  lemma VerifierExactly(p: Payload, verifier: string)
    ensures IsExactVerifier(p, verifier) <==> RunsVerifier(p, verifier)
  {
  }

  // ---- Exit codes ----

  ghost predicate AllDigits(s: string) { forall i :: 0 <= i < |s| ==> '0' <= s[i] <= '9' }

  /** The number a decimal numeral stands for, from its last digit. */
  ghost function Numeral(s: string): nat
    requires AllDigits(s)
  {
    if |s| == 0 then 0 else 10 * Numeral(s[..|s| - 1]) + (s[|s| - 1] as int - '0' as int)
  }

  /** The decimal printing of a number. */
  function Printed(n: nat): string {
    if n < 10 then [(('0' as int) + n) as char] else Printed(n / 10) + [(('0' as int) + n % 10) as char]
  }

  lemma {:induction false} PrintedNumeral(n: nat)
    ensures AllDigits(Printed(n)) && |Printed(n)| > 0 && Numeral(Printed(n)) == n
  {
    if n < 10 {
      assert Printed(n)[..0] == "";
    } else {
      PrintedNumeral(n / 10);
      assert Printed(n)[..|Printed(n)| - 1] == Printed(n / 10);
    }
  }

  function Power(n: nat): nat { if n == 0 then 1 else 10 * Power(n - 1) }

  lemma {:induction false} NumeralFront(s: string)
    requires AllDigits(s) && |s| > 0
    ensures Numeral(s) == (s[0] as int - '0' as int) * Power(|s| - 1) + Numeral(s[1..])
  {
    if |s| == 1 {
      assert s[..0] == "" && s[1..] == "";
    } else {
      var most, digit := s[..|s| - 1], s[0] as int - '0' as int;
      NumeralFront(most);
      assert s[1..][..|s| - 2] == most[1..];
      TenTimes(digit, Power(|s| - 2));
    }
  }

  lemma TenTimes(digit: nat, p: nat)
    ensures digit * (10 * p) == 10 * (digit * p)
  {
  }

  /** Reading the digits from the front gives the number the numeral stands for, and nothing else is read. */
  lemma {:induction false} DigitsExactly(s: string, acc: nat)
    ensures DigitsValue(s, acc).Some? <==> AllDigits(s)
    ensures AllDigits(s) ==> DigitsValue(s, acc) == Some(acc * Power(|s|) + Numeral(s))
  {
    if s != "" {
      if '0' <= s[0] <= '9' {
        var digit := s[0] as int - '0' as int;
        DigitsExactly(s[1..], 10 * acc + digit);
        assert AllDigits(s[1..]) ==> AllDigits(s);
        if AllDigits(s) {
          NumeralFront(s);
          Spread(acc, digit, Power(|s| - 1));
        }
      }
    }
  }

  lemma Spread(acc: nat, digit: nat, p: nat)
    ensures (10 * acc + digit) * p == acc * (10 * p) + digit * p
  {
  }

  /** The line is "Exit code ", then a numeral for this code. */
  ghost predicate NamesExit(line: string, code: nat) {
    exists digits :: digits != "" && AllDigits(digits) && line == "Exit code " + digits && Numeral(digits) == code
  }

  /** `Exit code ([0-9]+)` as a whole line, read as the number it names. */
  lemma ExitCodeExactly(line: string, code: nat)
    ensures ExitCodeOf(line) == Some(code) <==> NamesExit(line, code)
  {
    var prefix := "Exit code ";
    if prefix <= line {
      var digits := line[|prefix|..];
      assert line == prefix + digits;
      DigitsExactly(digits, 0);
      if NamesExit(line, code) {
        var named :| named != "" && AllDigits(named) && line == prefix + named && Numeral(named) == code;
        assert named == digits;
      }
    } else {
      assert forall digits :: prefix <= prefix + digits;
    }
  }

  /** A printed exit code is read back. */
  lemma ExitCodeRoundTrip(code: nat)
    ensures ExitCodeOf("Exit code " + Printed(code)) == Some(code)
  {
    PrintedNumeral(code);
    assert NamesExit("Exit code " + Printed(code), code);
    ExitCodeExactly("Exit code " + Printed(code), code);
  }

  // ---- The result a payload reports ----

  /** A success is exit code zero; a failure reports the code its first error line names, unless it was interrupted or the
      code is zero. */
  ghost predicate ReportsResult(p: Payload, passed: bool, code: int) {
    || (p.event == Some(PostToolUse) && passed && code == 0)
    || (p.event == Some(PostToolUseFailure) && !passed && code > 0 && !p.isInterrupt && p.errorFirstLine.Some? && NamesExit(p.errorFirstLine.value, code))
  }

  ghost predicate ToolEvent(p: Payload) {
    p.event == Some(PreToolUse) || p.event == Some(PostToolUse) || p.event == Some(PostToolUseFailure)
  }

  /** A name the payload gives; the empty text is no name. */
  ghost predicate Named(text: Option<string>, name: string) {
    if text.Some? && text.value != "" then name == text.value else name == "unknown"
  }

  /** The observation says of the payload what the payload says of itself, and of a command only whether it is the verifier. */
  ghost predicate Tells(p: Payload, verifier: string, hashText: string -> Hash, o: Observation) {
    && p.event == Some(o.event) && p.sessionId.Some? && o.externalHash == hashText(p.sessionId.value)
    && o.cwdScope == p.cwdScope && o.observedAt == p.observedAt
    && (o.operation.Some? <==> ToolEvent(p))
    && (o.operation.Some? ==> Named(p.toolUseId, o.operation.value.occurrence) && Named(p.toolName, o.operation.value.name))
    && (o.commandClass == ExactVerifier <==> ToolEvent(p) && RunsVerifier(p, verifier))
    && (o.commandClass == NoCommand <==> !ToolEvent(p) || p.toolName != Some("Bash") || !p.inputIsObject)
  }

  /** A payload is translated exactly when it names a supported event and a session, into what it says. */
  lemma SanitizeExactly(p: Payload, verifier: string, hashText: string -> Hash)
    ensures Sanitize(p, verifier, hashText).Some? <==> p.event.Some? && p.sessionId.Some? && p.sessionId.value != ""
    ensures Sanitize(p, verifier, hashText).Some? ==> Tells(p, verifier, hashText, Sanitize(p, verifier, hashText).value)
  {
    hide TerminationOf;
  }

  /** The trusted result of a translated verifier payload is exactly the one the payload reports. */
  lemma EligibleExactly(p: Payload, verifier: string, hashText: string -> Hash, passed: bool, code: int)
    requires Sanitize(p, verifier, hashText).Some?
    ensures TrustedResult(Sanitize(p, verifier, hashText).value) == Some((passed, code)) <==> RunsVerifier(p, verifier) && ReportsResult(p, passed, code)
  {
    hide ExitCodeOf, NamesExit;
    NoLine();
    if p.event == Some(PostToolUseFailure) && p.errorFirstLine.Some? {
      var line := p.errorFirstLine.value;
      if code >= 0 { ExitCodeExactly(line, code); }
      if ExitCodeOf(line).Some? { ExitCodeExactly(line, ExitCodeOf(line).value); }
    }
  }

  lemma NoLine()
    ensures ExitCodeOf("") == None
  {
    assert ExitCodePrefix()[0] == 'E';
  }

  /** The operation an event records is the one its payload names, when it names one. */
  lemma OperationExactly(p: Payload, verifier: string, hashText: string -> Hash)
    requires Sanitize(p, verifier, hashText).Some?
    ensures var operation := RecordedOperation(Sanitize(p, verifier, hashText).value);
      && (operation.Some? <==> ToolEvent(p) && Known(p.toolUseId) && Known(p.toolName))
      && (operation.Some? ==> p.toolUseId == Some(operation.value.occurrence) && p.toolName == Some(operation.value.name))
  {
    hide TerminationOf;
  }

  ghost predicate Known(text: Option<string>) { text.Some? && text.value != "" && text.value != "unknown" }
}
