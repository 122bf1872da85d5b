/** The bounded message loop of the smoke run: model command, tool, model. */
module SmokeLoop {
  import opened Ordering
  import opened Labels
  import opened Evidence
  import opened UsageLedger
  import opened RuntimeRecords
  import opened RuntimeAudit
  import opened RuntimeInvariant
  import opened RuntimeSend
  import opened RuntimeSeal
  import opened RuntimeCourse
  import opened StateAudit
  import opened RuntimeRun
  import opened RuntimeMeaning
  import opened RuntimeRecorder

  function StripLeft(s: string): string { if s != "" && Space(s[0]) then StripLeft(s[1..]) else s }
  function StripRight(s: string): string { if s != "" && Space(s[|s| - 1]) then StripRight(s[..|s| - 1]) else s }
  function Strip(s: string): string { StripRight(StripLeft(s)) }

  datatype Command = ReadTarget | WriteTarget(text: string) | RunTests | Finish

  function Target(): string { "target.py" }
  function WritePrefix(): string { "WRITE target.py\n" }

  /** What the model asked for; anything else, and FINAL, ends the loop. */
  function CommandOf(response: string): Command {
    var c := Strip(response);
    if c == "READ target.py" then ReadTarget
    else if WritePrefix() <= c then WriteTarget(c[|WritePrefix()|..])
    else if c == "TEST" then RunTests
    else Finish
  }

  /** `core` is `s` without the white space around it. */
  ghost predicate IsCore(s: string, core: string) {
    && (core != "" ==> !Space(core[0]) && !Space(core[|core| - 1]))
    && exists before, after :: BlankText(before) && BlankText(after) && s == before + core + after
  }

  lemma BlankJoined(a: string, c: char, b: string)
    requires BlankText(a) && Space(c) && BlankText(b)
    ensures BlankText(a + [c] + b)
  {
  }

  lemma {:induction false} StripLeftSplits(s: string)
    ensures exists before :: BlankText(before) && s == before + StripLeft(s)
    ensures StripLeft(s) != "" ==> !Space(StripLeft(s)[0])
  {
    hide BlankText, Space;
    assert BlankText("") by { NothingBlank(); }
    if s != "" && Space(s[0]) {
      StripLeftSplits(s[1..]);
      var before :| BlankText(before) && s[1..] == before + StripLeft(s[1..]);
      BlankJoined("", s[0], before);
      assert s == "" + [s[0]] + before + StripLeft(s);
    } else {
      assert s == "" + StripLeft(s);
    }
  }

  lemma {:induction false} StripRightSplits(s: string)
    ensures exists after :: BlankText(after) && s == StripRight(s) + after
    ensures StripRight(s) != "" ==> !Space(StripRight(s)[|StripRight(s)| - 1])
  {
    hide BlankText, Space;
    assert BlankText("") by { NothingBlank(); }
    if s != "" && Space(s[|s| - 1]) {
      var most, last := s[..|s| - 1], s[|s| - 1];
      StripRightSplits(most);
      var after :| BlankText(after) && most == StripRight(most) + after;
      BlankJoined(after, last, "");
      assert s == StripRight(s) + (after + [last] + "");
    } else {
      assert s == StripRight(s) + "";
    }
  }

  lemma NothingBlank()
    ensures BlankText("")
  {
  }

  lemma StripCore(s: string)
    ensures IsCore(s, Strip(s))
  {
    var left := StripLeft(s);
    StripLeftSplits(s);
    StripRightSplits(left);
    var before :| BlankText(before) && s == before + left;
    var after :| BlankText(after) && left == Strip(s) + after;
    assert Strip(s) != "" ==> Strip(s)[0] == left[0];
    assert s == before + Strip(s) + after;
  }

  /** There is only one way to take the white space off. */
  lemma CoreUnique(s: string, a: string, b: string)
    requires IsCore(s, a) && IsCore(s, b)
    ensures a == b
  {
    var i, u :| BlankText(i) && BlankText(u) && s == i + a + u;
    var j, v :| BlankText(j) && BlankText(v) && s == j + b + v;
    if a == "" || b == "" {
      assert BlankText(s);
      BlankCore(s, i, a, u);
      BlankCore(s, j, b, v);
    } else {
      SameCore(s, i, a, u, j, b, v);
    }
  }

  lemma SameCore(s: string, i: string, a: string, u: string, j: string, b: string, v: string)
    requires s == i + a + u && BlankText(i) && BlankText(u) && a != "" && !Space(a[0]) && !Space(a[|a| - 1])
    requires s == j + b + v && BlankText(j) && BlankText(v) && b != "" && !Space(b[0]) && !Space(b[|b| - 1])
    ensures a == b
  {
    hide *;
    CoreStarts(s, i, a, u);
    CoreStarts(s, j, b, v);
    BlankAround(s, i, a, u, |j|);
    BlankAround(s, j, b, v, |i|);
    BlankAround(s, i, a, u, |j| + |b| - 1);
    BlankAround(s, j, b, v, |i| + |a| - 1);
    assert a == s[|i|..|i| + |a|] && b == s[|j|..|j| + |b|];
  }

  lemma CoreStarts(s: string, before: string, core: string, after: string)
    requires s == before + core + after && core != ""
    ensures |before| + |core| <= |s| && s[|before|] == core[0] && s[|before| + |core| - 1] == core[|core| - 1]
  {
  }

  /** A character that is no white space is in the core. */
  lemma BlankAround(s: string, before: string, core: string, after: string, n: nat)
    requires s == before + core + after && BlankText(before) && BlankText(after) && n < |s| && !Space(s[n])
    ensures |before| <= n < |before| + |core|
  {
    assert forall k :: 0 <= k < |before| ==> s[k] == before[k];
    assert forall k :: |before| + |core| <= k < |s| ==> s[k] == after[k - |before| - |core|];
  }

  lemma BlankCore(s: string, before: string, core: string, after: string)
    requires BlankText(s) && s == before + core + after
    ensures core != "" ==> Space(core[0])
  {
    if core != "" { assert s[|before|] == core[0]; }
  }

  /** Which tool a response asks for: its text without the white space around it is one of the four commands, or the loop
      ends. */
  lemma CommandExactly(response: string, core: string)
    requires IsCore(response, core)
    ensures CommandOf(response) == ReadTarget <==> core == "READ target.py"
    ensures forall text :: CommandOf(response) == WriteTarget(text) <==> core == "WRITE target.py\n" + text
    ensures CommandOf(response) == RunTests <==> core == "TEST"
    ensures CommandOf(response) == Finish <==>
      core != "READ target.py" && core != "TEST" && !("WRITE target.py\n" <= core)
  {
    StripCore(response);
    CoreUnique(response, core, Strip(response));
    assert "READ target.py"[0] == 'R' && "TEST"[0] == 'T' && "WRITE target.py\n"[0] == 'W';
    forall text ensures CommandOf(response) == WriteTarget(text) <==> core == "WRITE target.py\n" + text {
      var prefix := "WRITE target.py\n";
      if core == prefix + text { assert core[|prefix|..] == text && core[0] == 'W'; }
      if CommandOf(response) == WriteTarget(text) { assert core == prefix + core[|prefix|..]; }
    }
  }

  /** What the outside world answers at one step: the transport, and the sandbox if a test is run. */
  datatype Answer = Answer(transport: Transport, sandbox: string)

  /** The tool call a command makes; `FINAL` and anything unknown make none. */
  function CallFor(c: Command, sandbox: string): Option<ToolCall> {
    match c
    case ReadTarget => Some(ReadCall(Target()))
    case WriteTarget(text) => Some(WriteCall(Target(), text))
    case RunTests => Some(TestCall(sandbox))
    case Finish => None
  }

  /** What the model asks for at a step, if it answers with a content at all. */
  function Asks(w: Setup, a: Answer): Option<ToolCall> {
    if ResponseOf(w, a.transport).None? then None else CallFor(CommandOf(ResponseOf(w, a.transport).value), a.sandbox)
  }

  /** How many requests the loop makes: it goes on as long as a tool is asked for. */
  function RequestsMade(w: Setup, answers: seq<Answer>): nat {
    if |answers| == 0 then 0 else if Asks(w, answers[0]).None? then 1 else 1 + RequestsMade(w, answers[1..])
  }

  predicate WritesAt(w: Setup, answers: seq<Answer>, k: int) {
    0 <= k < |answers| && Asks(w, answers[k]).Some? && Asks(w, answers[k]).value.WriteCall?
  }

  /** The request body the loop builds and the provider serializes is read back as the same messages. */
  ghost predicate Serializes(w: Setup, serializer: string -> string, body: seq<Message> -> string) {
    forall ms: seq<Message> {:trigger body(ms)} :: ms != [] && Proper(ms) ==>
      serializer(body(ms)) != "" && w.codec.messages(serializer(body(ms))) == Some(ms)
  }

  /** Messages with a role and a content, as the loop sends them. */
  predicate Proper(ms: seq<Message>) {
    forall i :: 0 <= i < |ms| ==> ms[i].Message? && ms[i].role.Some? && ms[i].content.Some?
  }

  lemma WireProper(ms: seq<Turn>)
    ensures Proper(Wire(ms))
  {
  }

  // ---- The course of the loop ----

  /** Where the loop is. */
  datatype Loop = Loop(r: Recording, workspace: map<string, string>, messages: seq<Turn>, attempts: nat, fileReads: nat, observed: bool, changed: bool)

  datatype Next = Again | Over | Broken
  datatype Stepped = Stepped(loop: Loop, next: Next)

  function StepName(step: nat): Name { if step < 10 then Text("add-loop-" + [(('0' as int) + step) as char]) else Text("add-loop") }

  /** One request with the whole conversation. The loop numbers it from its own counter. */
  function AskCourse(w: Setup, serializer: string -> string, body: seq<Message> -> string, l: Loop, t: Transport): Course<Loop>
    requires AllSourced(l.messages)
  {
    var text := body(Wire(l.messages));
    var blocks := BlocksFor(w, RequestName(AttemptName(w.run, l.attempts)), l.messages);
    var x :- SendCourse(w, l.r, StepName(l.attempts), text, serializer(text), blocks, t);
    On(l.(r := x, messages := l.messages + ResponseJoins(w, l.r, t), attempts := l.attempts + 1,
          observed := l.observed || ResponseOf(w, t).Some?))
  }

  /** One tool call, whose result joins the conversation; a tool that fails raises out of the loop. */
  function ObeyCourse(w: Setup, l: Loop, c: ToolCall): Course<Stepped> {
    var e :- ToolCourse(w, l.r, l.workspace, c);
    var moved := l.(r := e.r, workspace := WorkspaceAfter(l.workspace, c));
    if ToolJoins(w, c, e.outcome) == [] then On(Stepped(moved, Broken))
    else
      On(Stepped(moved.(messages := l.messages + ToolJoins(w, c, e.outcome), fileReads := l.fileReads + (if c.ReadCall? then 1 else 0),
                        changed := l.changed || c.WriteCall?), Again))
  }

  function StepCourse(w: Setup, serializer: string -> string, body: seq<Message> -> string, l: Loop, a: Answer): Course<Stepped> {
    if !AllSourced(l.messages) then On(Stepped(l, Broken))
    else
      var asked :- AskCourse(w, serializer, body, l, a.transport);
      if Asks(w, a).None? then On(Stepped(asked, Over)) else ObeyCourse(w, asked, Asks(w, a).value)
  }

  function LoopCourse(w: Setup, serializer: string -> string, body: seq<Message> -> string, l: Loop, answers: seq<Answer>): Course<Stepped>
    decreases |answers|
  {
    hide StepCourse;
    if |answers| == 0 then On(Stepped(l, Over))
    else
      var one :- StepCourse(w, serializer, body, l, answers[0]);
      if one.next.Again? then LoopCourse(w, serializer, body, one.loop, answers[1..]) else On(one)
  }

  function CompletedStatus(): string { "completed" }
  function FailedStatus(): string { "task_failed" }
  function NoChangeReason(): string { "agent_did_not_modify_workspace" }

  /** `run_deepseek_add_smoke`: the two opening constants, the loop, the seal; a broken loop is not sealed. */
  function SmokeCourse(w: Setup, site: Site, serializer: string -> string, body: seq<Message> -> string, r: Recording, workspace: map<string, string>,
    prompt: string, instruction: string, answers: seq<Answer>): Course<Stepped>
  {
    var system :- PublicCourse(w, r, prompt, true);
    var task :- PublicCourse(w, system.r, instruction, false);
    var end :- LoopCourse(w, serializer, body, Opening(w, task.r, workspace, prompt, instruction), answers);
    if end.next.Broken? then On(end)
    else
      var x :- SealCourse(w, site, end.loop.r, end.loop.workspace, SealStatus(end.loop), SealReason(end.loop));
      On(Stepped(end.loop.(r := x), Over))
  }

  function Opening(w: Setup, r: Recording, workspace: map<string, string>, prompt: string, instruction: string): Loop {
    Loop(r, workspace, [ConstantTurn(w, prompt, true), ConstantTurn(w, instruction, false)], 0, 0, false, false)
  }

  // ---- What the loop keeps ----

  /** The requests of a loop that began when the recording was `r0`: request `k` carries the first `2 * k + 2` messages of
      the conversation, under the runtime's attempt number and the loop's own block names. */
  ghost predicate Growing(w: Setup, r0: Recording, snapshots: seq<Snapshot>, messages: seq<Turn>, attempts: nat) {
    && AllSourced(messages) && |snapshots| == |r0.snapshots| + attempts && snapshots[..|r0.snapshots|] == r0.snapshots
    && forall k :: 0 <= k < attempts ==> RequestOf(w, r0, snapshots, messages, k)
  }

  ghost predicate RequestOf(w: Setup, r0: Recording, snapshots: seq<Snapshot>, messages: seq<Turn>, k: nat) {
    && |r0.snapshots| + k < |snapshots| && 2 * k + 2 <= |messages| && AllSourced(messages[..2 * k + 2])
    && var s := snapshots[|r0.snapshots| + k];
    && s.id == RequestName(AttemptName(w.run, r0.attemptSeq + k))
    && s.blocks == BlocksFor(w, RequestName(AttemptName(w.run, k)), messages[..2 * k + 2])
  }

  /** The answer brought a response with this content. */
  ghost predicate Says(w: Setup, a: Answer, content: string) {
    a.transport.Returned? && w.codec.content(a.transport.body) == Some(content)
  }

  /** From position `start` on, every other message is the response to one request, for as long as there are responses. */
  ghost predicate Replied(w: Setup, messages: seq<Turn>, start: nat, answers: seq<Answer>, n: nat) {
    n <= |answers| && forall k, content :: 0 <= k < n && Says(w, answers[k], content) ==>
      start + 2 * k < |messages| && messages[start + 2 * k].role == "assistant" && messages[start + 2 * k].content == content
  }

  /** Everything that is so between two steps of the loop. */
  ghost predicate Between(w: Setup, r0: Recording, l: Loop) {
    && LogSound(w, l.r) && AllAuthentic(w, l.r, l.messages, |l.r.events|) && Growing(w, r0, l.r.snapshots, l.messages, l.attempts)
    && l.r.attemptSeq == r0.attemptSeq + l.attempts && |l.r.bindings| == |r0.bindings| + l.fileReads
    && (r0.attemptSeq == 0 ==> exists at :: Recorded(w, l.r, at))
  }

  lemma GrowingStays(w: Setup, r0: Recording, snapshots: seq<Snapshot>, messages: seq<Turn>, attempts: nat, more: seq<Turn>)
    requires Growing(w, r0, snapshots, messages, attempts) && AllSourced(messages + more)
    ensures Growing(w, r0, snapshots, messages + more, attempts)
  {
    hide BlocksFor;
    forall k | 0 <= k < attempts ensures RequestOf(w, r0, snapshots, messages + more, k) {
      assert RequestOf(w, r0, snapshots, messages, k);
      assert (messages + more)[..2 * k + 2] == messages[..2 * k + 2];
    }
  }

  lemma GrowingSent(w: Setup, r0: Recording, before: seq<Snapshot>, messages: seq<Turn>, attempts: nat, s: Snapshot)
    requires Growing(w, r0, before, messages, attempts) && |messages| == 2 * attempts + 2
    requires s.id == RequestName(AttemptName(w.run, r0.attemptSeq + attempts))
    requires s.blocks == BlocksFor(w, RequestName(AttemptName(w.run, attempts)), messages)
    ensures Growing(w, r0, before + [s], messages, attempts + 1)
  {
    hide BlocksFor;
    assert messages[..2 * attempts + 2] == messages;
    assert RequestOf(w, r0, before + [s], messages, attempts);
    assert (before + [s])[..|r0.snapshots|] == before[..|r0.snapshots|];
    forall k | 0 <= k < attempts + 1 ensures RequestOf(w, r0, before + [s], messages, k) {
      if k < attempts { assert RequestOf(w, r0, before, messages, k); }
    }
  }

  /** One request keeps the loop's conditions; two different contents with one digest stop it. */
  lemma AskKeeps(w: Setup, serializer: string -> string, body: seq<Message> -> string, r0: Recording, l: Loop, t: Transport)
    requires Between(w, r0, l) && |l.messages| == 2 * l.attempts + 2 && Serializes(w, serializer, body)
    ensures AllSourced(l.messages)
    ensures match AskCourse(w, serializer, body, l, t)
      case On(m) => Between(w, r0, m)
      case Halted(offered, held) => Clash(w, offered, held)
  {
    hide LogSound, AllAuthentic, Recorded, SendCourse, Sent, BlocksFor, Growing, LogGrows, ResponseTurnFor;
    AuthenticSourced(w, l.r, l.messages, |l.r.events|);
    var text, step := body(Wire(l.messages)), StepName(l.attempts);
    var blocks := BlocksFor(w, RequestName(AttemptName(w.run, l.attempts)), l.messages);
    hide StepName;
    SendSound(w, l.r, step, text, serializer(text), blocks, t);
    if SendCourse(w, l.r, step, text, serializer(text), blocks, t).On? {
      var x := SendCourse(w, l.r, step, text, serializer(text), blocks, t).value;
      SentSnapshots(w, l.r, x, step, text, serializer(text), blocks, t);
      GrowingSent(w, r0, l.r.snapshots, l.messages, l.attempts, x.snapshots[|l.r.snapshots|]);
      ResponseJoinsAuthentic(w, l.r, l.messages, step, text, serializer(text), blocks, t);
      GrowsLog(w, l.r, x);
      AuthenticSourced(w, x, l.messages + ResponseJoins(w, l.r, t), |x.events|);
      GrowingStays(w, r0, x.snapshots, l.messages, l.attempts + 1, ResponseJoins(w, l.r, t));
      if r0.attemptSeq == 0 {
        var at :| Recorded(w, l.r, at);
        WireProper(l.messages);
        assert |Wire(l.messages)| == |l.messages|;
        assert Carries(w, l.r, AttemptName(w.run, l.r.attemptSeq), blocks, serializer(text), l.messages);
        hide Carries;
        SendKeeps(w, l.r, at, step, text, serializer(text), blocks, t, l.messages);
      }
    }
  }

  lemma SentSnapshots(w: Setup, a: Recording, b: Recording, logical: Name, body: string, sent: string, blocks: seq<ContextBlock>, t: Transport)
    requires Sent(w, a, b, logical, body, sent, blocks, t)
    ensures |b.snapshots| == |a.snapshots| + 1 && b.snapshots == a.snapshots + [b.snapshots[|a.snapshots|]]
    ensures b.snapshots[|a.snapshots|].blocks == blocks && b.snapshots[|a.snapshots|].id == RequestName(AttemptName(w.run, a.attemptSeq))
    ensures b.attemptSeq == a.attemptSeq + 1 && b.bindings == a.bindings
  {
    hide LogGrows, Stored, Asked, Got, UsageReport, EnteredRecord, EndedRecord, PartRef;
  }

  /** One tool call does too. */
  lemma ObeyKeeps(w: Setup, r0: Recording, l: Loop, c: ToolCall)
    requires Between(w, r0, l)
    ensures match ObeyCourse(w, l, c)
      case On(s) => (s.next.Again? ==> Between(w, r0, s.loop) && |s.loop.messages| == |l.messages| + 1) && !s.next.Over?
      case Halted(offered, held) => Clash(w, offered, held)
  {
    hide LogSound, AllAuthentic, Authentic, Recorded, ToolCourse, Growing, LogGrows, TurnFor, ContentShown, Traced;
    ToolSound(w, l.r, l.workspace, c);
    if ToolCourse(w, l.r, l.workspace, c).On? {
      var e := ToolCourse(w, l.r, l.workspace, c).value;
      GrowsLog(w, l.r, e.r);
      if ToolJoins(w, c, e.outcome) != [] {
        var turn := ToolJoins(w, c, e.outcome)[0];
        AllAuthenticStay(w, l.r, e.r, l.messages);
        AuthenticAdded(w, e.r, l.messages, turn, |e.r.events|);
        AuthenticSourced(w, e.r, l.messages + [turn], |e.r.events|);
        GrowingStays(w, r0, l.r.snapshots, l.messages, l.attempts, [turn]);
        if r0.attemptSeq == 0 {
          var at :| Recorded(w, l.r, at);
          ToolKeepsRecorded(w, l.r, at, l.workspace, c);
        }
      }
    }
  }

  lemma StepKeeps(w: Setup, serializer: string -> string, body: seq<Message> -> string, r0: Recording, l: Loop, a: Answer)
    requires Between(w, r0, l) && |l.messages| == 2 * l.attempts + 2 && Serializes(w, serializer, body)
    ensures match StepCourse(w, serializer, body, l, a)
      case On(s) =>
        && (!s.next.Broken? ==> Between(w, r0, s.loop) && Stepping(w, l, s.loop, a))
        && (s.next.Again? <==> !s.next.Broken? && Asks(w, a).Some?)
        && (s.next.Again? ==> |s.loop.messages| == 2 * s.loop.attempts + 2 == |l.messages| + 2)
      case Halted(offered, held) => Clash(w, offered, held)
  {
    hide Between, Serializes, SendCourse, ToolCourse, BlocksFor, CommandOf, Clash, ContentShown, TurnFor;
    AskKeeps(w, serializer, body, r0, l, a.transport);
    if AskCourse(w, serializer, body, l, a.transport).On? && Asks(w, a).Some? {
      ObeyKeeps(w, r0, AskCourse(w, serializer, body, l, a.transport).value, Asks(w, a).value);
    }
  }

  /** What one unbroken step does to the loop's own variables. */
  ghost predicate Stepping(w: Setup, l: Loop, m: Loop, a: Answer) {
    && m.attempts == l.attempts + 1 && l.messages <= m.messages && m.observed == (l.observed || ResponseOf(w, a.transport).Some?)
    && m.changed == (l.changed || (Asks(w, a).Some? && Asks(w, a).value.WriteCall?))
    && m.workspace == (if Asks(w, a).Some? then WorkspaceAfter(l.workspace, Asks(w, a).value) else l.workspace)
    && (ResponseOf(w, a.transport).Some? ==>
          |l.messages| < |m.messages| && m.messages[|l.messages|].role == AssistantRole() &&
          m.messages[|l.messages|].content == ResponseOf(w, a.transport).value)
  }

  /** What an unbroken loop has done, in terms of what it was answered. */
  ghost predicate Looped(w: Setup, l: Loop, m: Loop, answers: seq<Answer>) {
    && m.attempts == l.attempts + RequestsMade(w, answers) && l.messages <= m.messages
    && m.observed == (l.observed || (|answers| > 0 && ResponseOf(w, answers[0].transport).Some?))
    && m.changed == (l.changed || exists k :: 0 <= k < RequestsMade(w, answers) && WritesAt(w, answers, k))
    && Replied(w, m.messages, |l.messages|, answers, RequestsMade(w, answers))
  }

  lemma RequestsAtMost(w: Setup, answers: seq<Answer>)
    ensures RequestsMade(w, answers) <= |answers| && (|answers| > 0 ==> RequestsMade(w, answers) >= 1)
  {
    hide Asks;
    if |answers| > 0 && Asks(w, answers[0]).Some? { RequestsAtMost(w, answers[1..]); }
  }

  lemma {:induction false} LoopKeeps(w: Setup, serializer: string -> string, body: seq<Message> -> string, r0: Recording, l: Loop, answers: seq<Answer>)
    requires Between(w, r0, l) && |l.messages| == 2 * l.attempts + 2 && Serializes(w, serializer, body)
    ensures match LoopCourse(w, serializer, body, l, answers)
      case On(s) => !s.next.Again? && (s.next.Over? ==> Between(w, r0, s.loop) && Looped(w, l, s.loop, answers))
      case Halted(offered, held) => Clash(w, offered, held)
    decreases |answers|
  {
    hide Between, Serializes, StepCourse, Stepping, Asks, Clash, Looped;
    if |answers| == 0 {
      assert Looped(w, l, l, answers) by { NothingLooped(w, l, answers); }
    } else {
      StepKeeps(w, serializer, body, r0, l, answers[0]);
      if StepCourse(w, serializer, body, l, answers[0]).On? {
        var one := StepCourse(w, serializer, body, l, answers[0]).value;
        if one.next.Again? {
          LoopKeeps(w, serializer, body, r0, one.loop, answers[1..]);
          var rest := LoopCourse(w, serializer, body, one.loop, answers[1..]);
          if rest.On? && rest.value.next.Over? { LoopedMore(w, l, one.loop, rest.value.loop, answers); }
        } else if one.next.Over? {
          LoopedOnce(w, l, one.loop, answers);
        }
      }
    }
  }

  lemma NothingLooped(w: Setup, l: Loop, answers: seq<Answer>)
    requires |answers| == 0
    ensures Looped(w, l, l, answers)
  {
  }

  lemma LoopedOnce(w: Setup, l: Loop, m: Loop, answers: seq<Answer>)
    requires |answers| > 0 && Asks(w, answers[0]).None? && Stepping(w, l, m, answers[0])
    ensures Looped(w, l, m, answers)
  {
    hide Asks;
    forall k | WritesAt(w, answers, k) && k < 1 ensures false {}
  }

  lemma LoopedMore(w: Setup, l: Loop, m: Loop, n: Loop, answers: seq<Answer>)
    requires |answers| > 0 && Asks(w, answers[0]).Some? && Stepping(w, l, m, answers[0]) && Looped(w, m, n, answers[1..])
    requires |m.messages| == |l.messages| + 2
    ensures Looped(w, l, n, answers)
  {
    hide Asks, WorkspaceAfter;
    var rest := answers[1..];
    RequestsAtMost(w, rest);
    RepliedMore(w, l, m, n, answers);
    WritesMore(w, answers);
    AskedObserved(w, answers[0]);
  }

  lemma AskedObserved(w: Setup, a: Answer)
    ensures Asks(w, a).Some? ==> ResponseOf(w, a.transport).Some?
  {
  }

  lemma WritesMore(w: Setup, answers: seq<Answer>)
    requires |answers| > 0 && Asks(w, answers[0]).Some?
    ensures (exists k :: 0 <= k < RequestsMade(w, answers) && WritesAt(w, answers, k)) <==>
            Asks(w, answers[0]).value.WriteCall? || exists k :: 0 <= k < RequestsMade(w, answers[1..]) && WritesAt(w, answers[1..], k)
  {
    hide Asks;
    var rest := answers[1..];
    if k :| 0 <= k < RequestsMade(w, answers) && WritesAt(w, answers, k) {
      if k > 0 { assert rest[k - 1] == answers[k] && WritesAt(w, rest, k - 1); }
    }
    if Asks(w, answers[0]).value.WriteCall? { assert WritesAt(w, answers, 0); }
    if k :| 0 <= k < RequestsMade(w, rest) && WritesAt(w, rest, k) { assert answers[k + 1] == rest[k] && WritesAt(w, answers, k + 1); }
  }

  lemma RepliedMore(w: Setup, l: Loop, m: Loop, n: Loop, answers: seq<Answer>)
    requires |answers| > 0 && Asks(w, answers[0]).Some? && Stepping(w, l, m, answers[0]) && Looped(w, m, n, answers[1..])
    requires |m.messages| == |l.messages| + 2
    ensures Replied(w, n.messages, |l.messages|, answers, RequestsMade(w, answers))
  {
    hide Asks, WorkspaceAfter;
    var rest := answers[1..];
    RequestsAtMost(w, rest);
    forall k, content | 0 <= k < RequestsMade(w, answers) && Says(w, answers[k], content)
      ensures |l.messages| + 2 * k < |n.messages| && n.messages[|l.messages| + 2 * k].role == "assistant"
      ensures n.messages[|l.messages| + 2 * k].content == content
    {
      if k == 0 {
        assert n.messages[..|m.messages|][|l.messages|] == m.messages[|l.messages|];
      } else {
        assert rest[k - 1] == answers[k] && Says(w, rest[k - 1], content);
        assert |m.messages| + 2 * (k - 1) == |l.messages| + 2 * k;
      }
    }
  }

  // ---- What the model is told ----

  /** The tool call an answer asks for, by the text of its response alone. */
  ghost predicate Wants(w: Setup, a: Answer, c: ToolCall) {
    && a.transport.Returned? && w.codec.content(a.transport.body).Some?
    && exists core :: IsCore(w.codec.content(a.transport.body).value, core) && CoreAsks(core, a.sandbox, c)
  }

  ghost predicate CoreAsks(core: string, sandbox: string, c: ToolCall) {
    match c
    case ReadCall(path) => path == "target.py" && core == "READ target.py"
    case WriteCall(path, text) => path == "target.py" && core == "WRITE target.py\n" + text
    case TestCall(raw) => core == "TEST" && raw == sandbox
  }

  lemma AsksExactly(w: Setup, a: Answer, c: ToolCall)
    ensures Asks(w, a) == Some(c) <==> Wants(w, a, c)
  {
    hide CommandOf;
    if a.transport.Returned? && w.codec.content(a.transport.body).Some? {
      var response := w.codec.content(a.transport.body).value;
      StripCore(response);
      CommandExactly(response, Strip(response));
      if Wants(w, a, c) {
        var core :| IsCore(response, core) && CoreAsks(core, a.sandbox, c);
        CoreUnique(response, core, Strip(response));
      }
      if Asks(w, a) == Some(c) { assert CoreAsks(Strip(response), a.sandbox, c); }
    }
  }

  /** The calls the answers ask for, up to the first that asks for none. */
  function AskedCalls(w: Setup, answers: seq<Answer>): seq<ToolCall> {
    if |answers| == 0 || Asks(w, answers[0]).None? then [] else [Asks(w, answers[0]).value] + AskedCalls(w, answers[1..])
  }

  /** One call for each answer, up to the first that asks for none; one request for each answer used. */
  ghost predicate AskedInOrder(w: Setup, answers: seq<Answer>, calls: seq<ToolCall>, requests: nat) {
    && |calls| <= |answers| && (forall k :: 0 <= k < |calls| ==> Wants(w, answers[k], calls[k]))
    && (if |calls| < |answers| then requests == |calls| + 1 && forall c :: !Wants(w, answers[|calls|], c) else requests == |calls|)
  }

  lemma {:induction false} CallsAsked(w: Setup, answers: seq<Answer>)
    ensures AskedInOrder(w, answers, AskedCalls(w, answers), RequestsMade(w, answers))
  {
    hide Asks, Wants;
    if |answers| > 0 {
      forall c ensures Asks(w, answers[0]) == Some(c) <==> Wants(w, answers[0], c) { AsksExactly(w, answers[0], c); }
      if Asks(w, answers[0]).Some? {
        var rest, calls := AskedCalls(w, answers[1..]), AskedCalls(w, answers);
        CallsAsked(w, answers[1..]);
        forall k | 0 <= k < |calls| ensures Wants(w, answers[k], calls[k]) {
          if k > 0 { assert calls[k] == rest[k - 1] && answers[1..][k - 1] == answers[k]; }
        }
        assert |rest| < |answers[1..]| ==> answers[1..][|rest|] == answers[|calls|];
      }
    }
  }

  /** The message about call `k`: what the file held by then, that it is written, or what the test answered. */
  ghost predicate ToolShown(w: Setup, before: map<string, string>, calls: seq<ToolCall>, k: nat, m: Turn) {
    && k < |calls| && m.role == "user"
    && match calls[k]
       case ReadCall(path) => path in before && m.content == "TOOL RESULT read_file " + path + ":\n" + LastText(calls[..k], path, before[path])
       case WriteCall(path, _) => path in before && m.content == "TOOL RESULT write_file completed"
       case TestCall(raw) => w.codec.redumped(raw).Some? && m.content == "TOOL RESULT run_test: " + w.codec.redumped(raw).value
  }

  /** The message after each response is about the call it asked for. */
  ghost predicate ToldFrom(w: Setup, before: map<string, string>, messages: seq<Turn>, start: nat, calls: seq<ToolCall>) {
    && start + 2 * |calls| <= |messages|
    && forall k :: 0 <= k < |calls| ==> ToolShown(w, before, calls, k, messages[start + 2 * k + 1])
  }

  lemma {:induction false} LastTextFront(c: ToolCall, calls: seq<ToolCall>, path: string, initial: string)
    ensures LastText([c] + calls, path, initial) == LastText(calls, path, LastText([c], path, initial))
    decreases |calls|
  {
    if |calls| == 0 {
      assert [c] + calls == [c];
    } else {
      assert ([c] + calls)[..|calls|] == [c] + calls[..|calls| - 1];
      LastTextFront(c, calls[..|calls| - 1], path, initial);
    }
  }

  lemma WrittenFront(before: map<string, string>, after: map<string, string>, c: ToolCall, calls: seq<ToolCall>)
    requires LastWritten(WorkspaceAfter(before, c), after, calls)
    ensures LastWritten(before, after, [c] + calls)
  {
    forall p | p in before ensures p in after && after[p] == LastText([c] + calls, p, before[p]) {
      LastTextFront(c, calls, p, before[p]);
    }
  }

  /** What an unbroken loop has told the model, and what it has left in the workspace. */
  ghost predicate Heard(w: Setup, l: Loop, m: Loop, calls: seq<ToolCall>) {
    && l.messages <= m.messages && ToldFrom(w, l.workspace, m.messages, |l.messages|, calls) && LastWritten(l.workspace, m.workspace, calls)
  }

  lemma StepShows(w: Setup, serializer: string -> string, body: seq<Message> -> string, l: Loop, a: Answer)
    requires StepCourse(w, serializer, body, l, a).On?
    ensures var s := StepCourse(w, serializer, body, l, a).value;
      && l.messages <= s.loop.messages && (s.next.Over? ==> s.loop.workspace == l.workspace)
      && (s.next.Again? ==>
            && Asks(w, a).Some? && s.loop.workspace == WorkspaceAfter(l.workspace, Asks(w, a).value) && |s.loop.messages| > |l.messages|
            && ToolShown(w, l.workspace, [Asks(w, a).value], 0, s.loop.messages[|s.loop.messages| - 1]))
  {
    hide AskCourse, CommandOf, ToolCourse, AllSourced, ResponseJoins;
    if AllSourced(l.messages) {
      AskedMore(w, serializer, body, l, a.transport);
      var asked := AskCourse(w, serializer, body, l, a.transport).value;
      if Asks(w, a).Some? { CallShown(w, asked, Asks(w, a).value); }
    }
  }

  lemma AskedMore(w: Setup, serializer: string -> string, body: seq<Message> -> string, l: Loop, t: Transport)
    requires AllSourced(l.messages) && AskCourse(w, serializer, body, l, t).On?
    ensures var m := AskCourse(w, serializer, body, l, t).value; l.messages <= m.messages && m.workspace == l.workspace
  {
    hide SendCourse, BlocksFor, ResponseJoins;
  }

  lemma CallShown(w: Setup, l: Loop, c: ToolCall)
    requires ObeyCourse(w, l, c).On?
    ensures var s := ObeyCourse(w, l, c).value;
      && l.messages <= s.loop.messages && s.loop.workspace == WorkspaceAfter(l.workspace, c) && !s.next.Over?
      && (s.next.Again? ==> |s.loop.messages| > |l.messages| && ToolShown(w, l.workspace, [c], 0, s.loop.messages[|s.loop.messages| - 1]))
  {
    hide ToolCourse, WorkspaceAfter;
    CallRecounted(w, l.r, l.workspace, c);
    hide Recounts;
    var e := ToolCourse(w, l.r, l.workspace, c).value;
    if e.outcome.Some? {
      RecountsText(w, l.r, e.r, l.workspace, c, e.outcome.value);
      assert [c][..0] == [];
    }
  }

  lemma RecountsText(w: Setup, a: Recording, b: Recording, workspace: map<string, string>, c: ToolCall, o: ToolOutcome)
    requires Recounts(w, a, b, workspace, c, Some(o))
    ensures About(workspace, c, o.text)
  {
    hide About, EventSays, FinishSays, StartSays, Stored;
  }

  /** The model is told the truth: every read shows the text the file then had, and the loop leaves the last text written. */
  lemma {:induction false} LoopTells(w: Setup, serializer: string -> string, body: seq<Message> -> string, r0: Recording, l: Loop, answers: seq<Answer>)
    requires Between(w, r0, l) && |l.messages| == 2 * l.attempts + 2 && Serializes(w, serializer, body)
    ensures match LoopCourse(w, serializer, body, l, answers)
      case On(s) => s.next.Over? ==> Heard(w, l, s.loop, AskedCalls(w, answers))
      case Halted(_, _) => true
    decreases |answers|
  {
    hide Between, Serializes, StepCourse, Stepping, Asks, Clash, Heard, ToolShown;
    if |answers| == 0 {
      NothingHeard(w, l, l);
    } else if StepCourse(w, serializer, body, l, answers[0]).On? {
      StepKeeps(w, serializer, body, r0, l, answers[0]);
      StepShows(w, serializer, body, l, answers[0]);
      var one := StepCourse(w, serializer, body, l, answers[0]).value;
      if one.next.Again? {
        LoopTells(w, serializer, body, r0, one.loop, answers[1..]);
        var rest := LoopCourse(w, serializer, body, one.loop, answers[1..]);
        if rest.On? && rest.value.next.Over? {
          HeardMore(w, l, one.loop, rest.value.loop, Asks(w, answers[0]).value, AskedCalls(w, answers[1..]));
        }
      } else if one.next.Over? {
        NothingHeard(w, l, one.loop);
      }
    }
  }

  lemma NothingHeard(w: Setup, l: Loop, m: Loop)
    requires l.messages <= m.messages && m.workspace == l.workspace
    ensures Heard(w, l, m, [])
  {
  }

  lemma HeardMore(w: Setup, l: Loop, m: Loop, n: Loop, c: ToolCall, calls: seq<ToolCall>)
    requires l.messages <= m.messages && |m.messages| == |l.messages| + 2 && m.workspace == WorkspaceAfter(l.workspace, c)
    requires ToolShown(w, l.workspace, [c], 0, m.messages[|l.messages| + 1]) && Heard(w, m, n, calls)
    ensures Heard(w, l, n, [c] + calls)
  {
    hide WorkspaceAfter, ToolShown;
    WrittenFront(l.workspace, n.workspace, c, calls);
    forall k | 0 <= k < |[c] + calls| ensures ToolShown(w, l.workspace, [c] + calls, k, n.messages[|l.messages| + 2 * k + 1]) {
      if k == 0 {
        assert n.messages[..|m.messages|][|l.messages| + 1] == m.messages[|l.messages| + 1];
        ShownFirst(w, l.workspace, c, calls, m.messages[|l.messages| + 1]);
      } else {
        assert |m.messages| + 2 * (k - 1) + 1 == |l.messages| + 2 * k + 1;
        ShownLater(w, l.workspace, c, calls, k - 1, n.messages[|l.messages| + 2 * k + 1]);
      }
    }
  }

  lemma ShownFirst(w: Setup, before: map<string, string>, c: ToolCall, calls: seq<ToolCall>, m: Turn)
    requires ToolShown(w, before, [c], 0, m)
    ensures ToolShown(w, before, [c] + calls, 0, m)
  {
    assert ([c] + calls)[..0] == [c][..0];
  }

  lemma ShownLater(w: Setup, before: map<string, string>, c: ToolCall, calls: seq<ToolCall>, k: nat, m: Turn)
    requires ToolShown(w, WorkspaceAfter(before, c), calls, k, m)
    ensures ToolShown(w, before, [c] + calls, k + 1, m)
  {
    assert ([c] + calls)[..k + 1] == [c] + calls[..k];
    if calls[k].ReadCall? { LastTextFront(c, calls[..k], calls[k].path, before[calls[k].path]); }
  }

  lemma {:induction false} CallAt(w: Setup, answers: seq<Answer>, k: nat)
    requires k < |AskedCalls(w, answers)|
    ensures k < |answers| && Asks(w, answers[k]) == Some(AskedCalls(w, answers)[k])
  {
    hide Asks;
    if k > 0 {
      CallAt(w, answers[1..], k - 1);
      assert answers[1..][k - 1] == answers[k];
    }
  }

  /** A write was asked for by a request made. */
  lemma WritesExactly(w: Setup, answers: seq<Answer>)
    ensures (exists k :: 0 <= k < RequestsMade(w, answers) && WritesAt(w, answers, k)) <==>
            exists k :: 0 <= k < |AskedCalls(w, answers)| && AskedCalls(w, answers)[k].WriteCall?
  {
    hide Asks, Wants;
    var calls := AskedCalls(w, answers);
    CallsAsked(w, answers);
    if k :| 0 <= k < RequestsMade(w, answers) && WritesAt(w, answers, k) {
      AsksExactly(w, answers[k], Asks(w, answers[k]).value);
      assert k < |calls|;
      CallAt(w, answers, k);
    }
    if k :| 0 <= k < |calls| && calls[k].WriteCall? {
      CallAt(w, answers, k);
      assert WritesAt(w, answers, k);
    }
  }

  // ---- Why a loop breaks ----

  ghost predicate TextRefused(w: Setup, r: Recording) { exists text: string :: Conflicts(w, r.blobs, Bytes(text)) }

  predicate NoJson(w: Setup, a: Answer) { w.codec.redumped(a.sandbox).None? }

  /** An exception has one of three causes: no target file, a body the store refuses, a sandbox answer that is no JSON. */
  ghost predicate BreaksFor(w: Setup, workspace: map<string, string>, r: Recording, answers: seq<Answer>) {
    Target() !in workspace || TextRefused(w, r) || exists a :: a in answers && NoJson(w, a)
  }

  lemma StepBreaks(w: Setup, serializer: string -> string, body: seq<Message> -> string, l: Loop, a: Answer)
    requires AllSourced(l.messages)
    ensures var s := StepCourse(w, serializer, body, l, a);
      && (s.On? && s.value.next.Broken? ==> Target() !in l.workspace || TextRefused(w, s.value.loop.r) || NoJson(w, a))
      && (s.On? && Target() in l.workspace ==> Target() in s.value.loop.workspace)
  {
    hide CommandOf, ToolCourse, SendCourse, BlocksFor, Target, Conflicts, AllSourced, TurnFor, ReadContent, TestContent;
    var asked := AskCourse(w, serializer, body, l, a.transport);
    if asked.On? && Asks(w, a).Some? {
      var c := Asks(w, a).value;
      var course := ToolCourse(w, asked.value.r, l.workspace, c);
      if course.On? {
        if course.value.outcome.None? {
          ToolFailsFor(w, asked.value.r, l.workspace, c);
        } else {
          ToolTells(w, asked.value.r, l.workspace, c);
        }
      }
    }
  }

  lemma {:induction false} LoopBreaks(w: Setup, serializer: string -> string, body: seq<Message> -> string, r0: Recording, l: Loop, answers: seq<Answer>)
    requires Between(w, r0, l) && |l.messages| == 2 * l.attempts + 2 && Serializes(w, serializer, body)
    ensures var s := LoopCourse(w, serializer, body, l, answers);
      s.On? && s.value.next.Broken? ==> BreaksFor(w, l.workspace, s.value.loop.r, answers)
    decreases |answers|
  {
    hide Between, Serializes, StepCourse, Stepping, Clash, TextRefused, NoJson, Target;
    if |answers| > 0 {
      BetweenSourced(w, r0, l);
      StepBreaks(w, serializer, body, l, answers[0]);
      StepKeeps(w, serializer, body, r0, l, answers[0]);
      var one := StepCourse(w, serializer, body, l, answers[0]);
      if one.On? && one.value.next.Again? { LoopBreaks(w, serializer, body, r0, one.value.loop, answers[1..]); }
    }
  }

  lemma BetweenSourced(w: Setup, r0: Recording, l: Loop)
    requires Between(w, r0, l)
    ensures AllSourced(l.messages)
  {
  }

  // ---- The whole smoke run ----

  ghost predicate WellRecorded(w: Setup, r: Recording) { exists at :: Recorded(w, r, at) }

  lemma OpeningBetween(w: Setup, r: Recording, workspace: map<string, string>, prompt: string, instruction: string)
    requires WellRecorded(w, r)
    ensures match PublicCourse(w, r, prompt, true)
      case Halted(offered, held) => Clash(w, offered, held)
      case On(system) =>
        match PublicCourse(w, system.r, instruction, false)
        case Halted(offered, held) => Clash(w, offered, held)
        case On(task) => Between(w, r, Opening(w, task.r, workspace, prompt, instruction))
  {
    hide Recorded, PublicTurn, LogGrows, Authentic, LogSound, ConstantTurn;
    var at :| Recorded(w, r, at);
    RecordedLog(w, r, at);
    PublicSound(w, r, prompt, true);
    var first := PublicCourse(w, r, prompt, true);
    if first.On? {
      PublicKeepsRecorded(w, r, at, prompt, true);
      RecordedLog(w, first.value.r, at);
      PublicSound(w, first.value.r, instruction, false);
      var second := PublicCourse(w, first.value.r, instruction, false);
      if second.On? {
        PublicKeepsRecorded(w, first.value.r, at, instruction, false);
        RecordedLog(w, second.value.r, at);
        var messages := [ConstantTurn(w, prompt, true), ConstantTurn(w, instruction, false)];
        OpeningAuthentic(w, first.value.r, second.value.r, messages[0], messages[1]);
        AuthenticSourced(w, second.value.r, messages, |second.value.r.events|);
        assert second.value.r.snapshots[..|r.snapshots|] == r.snapshots;
      }
    }
  }

  lemma OpeningAuthentic(w: Setup, a: Recording, b: Recording, system: Turn, task: Turn)
    requires PublicTurn(w, a, system) && LogGrows(w, a, b) && PublicTurn(w, b, task)
    ensures AllAuthentic(w, b, [system, task], |b.events|)
  {
    PublicTurnStays(w, a, b, system);
    hide PublicTurn, LogGrows;
  }

  lemma OpeningLength(w: Setup, r: Recording, workspace: map<string, string>, prompt: string, instruction: string)
    ensures var l := Opening(w, r, workspace, prompt, instruction); |l.messages| == 2 && l.attempts == 0 && l.workspace == workspace && l.r == r
  {
    hide ConstantTurn;
  }

  lemma LoopedElsewhere(w: Setup, l: Loop, m: Loop, l2: Loop, m2: Loop, answers: seq<Answer>)
    requires Looped(w, l, m, answers) && l2 == l.(r := l2.r) && m2 == m.(r := m2.r)
    ensures Looped(w, l2, m2, answers)
  {
    hide Asks, WritesAt, Replied, RequestsMade;
  }

  function SealStatus(l: Loop): string { if l.observed && l.changed then CompletedStatus() else FailedStatus() }
  function SealReason(l: Loop): Option<string> { if l.observed && l.changed then None else Some(NoChangeReason()) }

  /** What a smoke run that ended has done: how many requests it made and what each carried, what it read, what the
      workspace became. */
  ghost predicate SmokeDone(w: Setup, r: Recording, workspace: map<string, string>, prompt: string, instruction: string, end: Loop, answers: seq<Answer>) {
    && Growing(w, r, end.r.snapshots, end.messages, end.attempts) && |end.r.bindings| == |r.bindings| + end.fileReads
    && Looped(w, Opening(w, r, workspace, prompt, instruction), end, answers)
  }

  lemma SmokeKeeps(w: Setup, site: Site, serializer: string -> string, body: seq<Message> -> string, r: Recording, workspace: map<string, string>,
    prompt: string, instruction: string, answers: seq<Answer>)
    requires WellRecorded(w, r) && Serializes(w, serializer, body)
    ensures match SmokeCourse(w, site, serializer, body, r, workspace, prompt, instruction, answers)
      case Halted(offered, held) => Clash(w, offered, held)
      case On(end) =>
        && (end.next.Over? ==> SmokeDone(w, r, workspace, prompt, instruction, end.loop, answers))
        && (end.next.Broken? ==> BreaksFor(w, workspace, end.loop.r, answers)) && !end.next.Again?
  {
    hide Between, Looped, LoopCourse, SealCourse, PublicCourse, Serializes, Growing, Clash, WellRecorded, Opening, BreaksFor;
    OpeningBetween(w, r, workspace, prompt, instruction);
    var first := PublicCourse(w, r, prompt, true);
    if first.On? {
      var second := PublicCourse(w, first.value.r, instruction, false);
      if second.On? {
        var l := Opening(w, second.value.r, workspace, prompt, instruction);
        OpeningLength(w, second.value.r, workspace, prompt, instruction);
        LoopKeeps(w, serializer, body, r, l, answers);
        var end := LoopCourse(w, serializer, body, l, answers);
        LoopBreaks(w, serializer, body, r, l, answers);
        if end.On? && end.value.next.Over? { SealKeeps(w, site, r, workspace, prompt, instruction, l, end.value.loop, answers); }
      }
    }
  }

  lemma SealKeeps(w: Setup, site: Site, r: Recording, workspace: map<string, string>, prompt: string, instruction: string, l: Loop, m: Loop, answers: seq<Answer>)
    requires Between(w, r, m) && Looped(w, l, m, answers) && l == Opening(w, l.r, workspace, prompt, instruction)
    ensures match SealCourse(w, site, m.r, m.workspace, SealStatus(m), SealReason(m))
      case Halted(offered, held) => Clash(w, offered, held)
      case On(x) => SmokeDone(w, r, workspace, prompt, instruction, m.(r := x), answers)
  {
    hide LogSound, AllAuthentic, Growing, Recorded, SealCourse, Looped, LogGrows, Traced, Stored, ConstantTurn, SealStatus, SealReason;
    SealSound(w, site, m.r, m.workspace, SealStatus(m), SealReason(m));
    var sealing := SealCourse(w, site, m.r, m.workspace, SealStatus(m), SealReason(m));
    if sealing.On? { LoopedElsewhere(w, l, m, Opening(w, r, workspace, prompt, instruction), m.(r := sealing.value), answers); }
  }

  /** The sealed smoke run passes the audit exactly when the loop started on a runtime that had sent nothing: otherwise its
      first request carries blocks of another request. */
  lemma SmokeCleanExactly(w: Setup, site: Site, serializer: string -> string, body: seq<Message> -> string, r: Recording, workspace: map<string, string>,
    prompt: string, instruction: string, answers: seq<Answer>, f: RunFiles)
    requires WellRecorded(w, r) && Serializes(w, serializer, body) && |answers| > 0
    requires var course := SmokeCourse(w, site, serializer, body, r, workspace, prompt, instruction, answers);
      course.On? && course.value.next.Over? && SealedFrom(w, course.value.loop.r, f)
    ensures RunClean(w.codec, f, w.run) <==> r.attemptSeq == 0
  {
    hide SmokeCourse, RunClean, WellRecorded, Growing, Looped;
    SmokeKeeps(w, site, serializer, body, r, workspace, prompt, instruction, answers);
    var end := SmokeCourse(w, site, serializer, body, r, workspace, prompt, instruction, answers).value.loop;
    if r.attemptSeq == 0 {
      SmokePasses(w, site, serializer, body, r, workspace, prompt, instruction, answers, f);
    } else if RunClean(w.codec, f, w.run) {
      FirstRequest(w, r, workspace, prompt, instruction, end, answers);
      SealedSnapshots(w, end.r, f);
      CleanBlocksNamed(w.codec, f, w.run, |r.snapshots|, 0);
    }
  }

  lemma SealedSnapshots(w: Setup, r: Recording, f: RunFiles)
    requires SealedFrom(w, r, f)
    ensures f.snapshots == r.snapshots && f.bindings == r.bindings
  {
    hide ListsFiles, LedgerWritten;
  }

  lemma FirstRequest(w: Setup, r: Recording, workspace: map<string, string>, prompt: string, instruction: string, end: Loop, answers: seq<Answer>)
    requires SmokeDone(w, r, workspace, prompt, instruction, end, answers) && |answers| > 0
    ensures var k := |r.snapshots|;
      && k < |end.r.snapshots| && |end.r.snapshots[k].blocks| > 0
      && end.r.snapshots[k].id == RequestName(AttemptName(w.run, r.attemptSeq))
      && end.r.snapshots[k].blocks[0].requestId == RequestName(AttemptName(w.run, 0))
  {
    hide Asks, Replied, ConstantTurn;
    RequestsAtMost(w, answers);
    assert RequestOf(w, r, end.r.snapshots, end.messages, 0);
  }

  /** A clean run's blocks name the snapshot they belong to. */
  lemma CleanBlocksNamed(c: Codec, f: RunFiles, run: string, k: nat, n: nat)
    requires RunClean(c, f, run) && k < |f.snapshots| && n < |f.snapshots[k].blocks|
    ensures f.snapshots[k].blocks[n].requestId == f.snapshots[k].id
  {
    hide LogClean, BindingsClean, LedgerClean, InventoryClean, PhysicalClean, PayloadsOf;
    var p := PayloadsOf(c, f, run);
    var s := f.snapshots[k];
    assert Corresponds(c, f, run, p, s);
    var i: nat, j: nat, x: nat, y: nat :| Counterparts(p, f, s, i, j, x, y)
      && SnapshotClean(c, f, run, p, s, f.events[i], f.events[j], Some(f.physical[x]), Some(f.physical[y]));
    hide RequestsClean, Corresponds, Counterparts, TerminalClean, BodyClean, ContextClean;
    assert BlockClean(c, f, p, s, n, s.blocks[n], SentMessages(c, f, run, s).value[n]);
  }

  lemma SmokePasses(w: Setup, site: Site, serializer: string -> string, body: seq<Message> -> string, r: Recording, workspace: map<string, string>,
    prompt: string, instruction: string, answers: seq<Answer>, f: RunFiles)
    requires WellRecorded(w, r) && Serializes(w, serializer, body) && r.attemptSeq == 0
    requires var course := SmokeCourse(w, site, serializer, body, r, workspace, prompt, instruction, answers);
      course.On? && course.value.next.Over? && SealedFrom(w, course.value.loop.r, f)
    ensures RunClean(w.codec, f, w.run)
  {
    hide Between, Looped, LoopCourse, SealCourse, PublicCourse, Serializes, Opening, RunClean, Recorded, SealedFrom;
    OpeningBetween(w, r, workspace, prompt, instruction);
    var first := PublicCourse(w, r, prompt, true).value;
    var second := PublicCourse(w, first.r, instruction, false).value;
    var l := Opening(w, second.r, workspace, prompt, instruction);
    OpeningLength(w, second.r, workspace, prompt, instruction);
    LoopKeeps(w, serializer, body, r, l, answers);
    var m := LoopCourse(w, serializer, body, l, answers).value.loop;
    BetweenRecorded(w, r, m);
    var at :| Recorded(w, m.r, at);
    SealPasses(w, site, m.r, at, m.workspace, SealStatus(m), SealReason(m), f);
  }

  /** A smoke run that ended told the model the truth, sealed the last text written and says how it ended. */
  lemma SmokeTells(w: Setup, site: Site, revision: string, initial: RepoState, serializer: string -> string, body: seq<Message> -> string, r: Recording,
    workspace: map<string, string>, prompt: string, instruction: string, answers: seq<Answer>)
    requires WellRecorded(w, r) && Serializes(w, serializer, body)
    ensures match SmokeCourse(w, site, serializer, body, r, workspace, prompt, instruction, answers)
      case On(end) => end.next.Over? ==>
        && ToldFrom(w, workspace, end.loop.messages, 2, AskedCalls(w, answers)) && LastWritten(workspace, end.loop.workspace, AskedCalls(w, answers))
        && (var done := end.loop.observed && end.loop.changed;
            StopsWith(w, end.loop.r, if done then "completed" else "task_failed", if done then None else Some("agent_did_not_modify_workspace")))
        && (Walks(site) ==>
              SealsText(w, end.loop.r.blobs, SealedStates(w, site, revision, initial, end.loop.r, end.loop.workspace).sealedHash, end.loop.workspace))
      case Halted(_, _) => true
  {
    hide Between, LoopCourse, SealCourse, PublicCourse, Serializes, Opening, WellRecorded, ToldFrom, LastWritten, StopsWith, SealsText, Walks, SealedStates,
      AskedCalls, LogSound, LogGrows, Traced, Stored, StatesHeld;
    OpeningBetween(w, r, workspace, prompt, instruction);
    if SmokeCourse(w, site, serializer, body, r, workspace, prompt, instruction, answers).On? {
      var first := PublicCourse(w, r, prompt, true).value;
      var second := PublicCourse(w, first.r, instruction, false).value;
      var l := Opening(w, second.r, workspace, prompt, instruction);
      OpeningLength(w, second.r, workspace, prompt, instruction);
      LoopKeeps(w, serializer, body, r, l, answers);
      LoopTells(w, serializer, body, r, l, answers);
      var s := LoopCourse(w, serializer, body, l, answers).value;
      if s.next.Over? {
        var m := s.loop;
        BetweenLog(w, r, m);
        SealSound(w, site, m.r, m.workspace, SealStatus(m), SealReason(m));
        SealStops(w, site, m.r, m.workspace, SealStatus(m), SealReason(m));
        var x := SealCourse(w, site, m.r, m.workspace, SealStatus(m), SealReason(m)).value;
        if Walks(site) { StatesSealText(w, site, revision, initial, x, m.workspace, x.blobs); }
      }
    }
  }

  lemma BetweenLog(w: Setup, r0: Recording, l: Loop)
    requires Between(w, r0, l)
    ensures LogSound(w, l.r)
  {
  }

  lemma BetweenRecorded(w: Setup, r0: Recording, l: Loop)
    requires Between(w, r0, l) && r0.attemptSeq == 0
    ensures WellRecorded(w, l.r)
  {
    hide Recorded;
  }

  // ---- The loop itself ----

  /** `DeepSeekSmokeOutcome`, with the status the run was sealed with. */
  datatype SmokeOutcome = SmokeOutcome(files: RunFiles, states: StateFiles, attempts: nat, fileReads: nat, observed: bool, completed: bool)

  /** One request: the whole conversation is sent, and the response, if there is one, joins it. */
  method Ask(rt: CapturedRuntime, provider: CapturedProvider, body: seq<Message> -> string, messages: seq<Turn>, attempts: nat, t: Transport,
    ghost l: Loop) returns (status: Status, after: seq<Turn>)
    requires rt.Valid() && !rt.sealed && BoundHere(rt, provider) && AllSourced(messages)
    requires l.r == rt.R() && l.workspace == rt.workspace && l.messages == messages && l.attempts == attempts
    modifies rt, provider`bound
    ensures BoundHere(rt, provider)
    ensures match AskCourse(rt.w, provider.serializer, body, l, t)
      case On(m) => status == Done && rt.R() == m.r && rt.workspace == m.workspace && after == m.messages && rt.Valid() && !rt.sealed
      case Halted(offered, held) => status == Conflict(offered, held) && Conflicts(rt.w, rt.blobs, offered)
  {
    hide SendCourse, BlocksFor, Numbered, Later, StepName, ResponseTurnFor;
    after := messages + ResponseJoins(rt.w, rt.R(), t);
    var blocks := rt.ContextBlocks(RequestName(AttemptName(rt.w.run, attempts)), messages);
    status := rt.SendRequest(provider, body(Wire(messages)), StepName(attempts), blocks.value, t);
  }

  /** One command: a tool is run and its result joins the conversation; a failed tool raises. */
  method Obey(rt: CapturedRuntime, c: ToolCall, messages: seq<Turn>, ghost l: Loop) returns (status: Status, after: seq<Turn>)
    requires rt.Valid() && !rt.sealed && l.r == rt.R() && l.workspace == rt.workspace && l.messages == messages
    modifies rt
    ensures match ObeyCourse(rt.w, l, c)
      case On(s) =>
        && rt.R() == s.loop.r && rt.workspace == s.loop.workspace && rt.Valid() && !rt.sealed
        && status == (if s.next.Again? then Done else ToolFailed) && (s.next.Again? ==> after == s.loop.messages)
      case Halted(offered, held) => status == Conflict(offered, held) && Conflicts(rt.w, rt.blobs, offered)
  {
    hide ToolCourse, Numbered, Later, ContentShown, TurnFor, Recounts;
    CourseBegun(rt.w, rt.R(), rt.workspace, c);
    after := messages;
    var result;
    match c {
      case ReadCall(path) => status, result := rt.ReadFile(path);
      case WriteCall(path, text) => status, result := rt.WriteFile(path, text);
      case TestCall(raw) => status, result := rt.RunTest(raw);
    }
    if !status.Conflict? {
      var turns := ToolJoins(rt.w, c, result);
      status := if turns == [] then ToolFailed else Done;
      after := messages + turns;
    }
  }

  /** `run_deepseek_add_smoke`. `answers` is what the transport and the sandbox return at each of the five steps. The loop
      goes as its course says; it is stopped exactly when the course meets two different contents with one digest, which are
      returned, and it raises only for want of the target file, of storage for a body, or of JSON from the sandbox. When it
      ends, request `k` carried exactly the first `2 * k + 2` messages of the conversation; it is completed exactly when a
      response was seen and a write was asked for; and what it sealed passes the audit exactly when the runtime had sent
      nothing before. */
  method RunAddSmoke(rt: CapturedRuntime, provider: CapturedProvider, body: seq<Message> -> string, prompt: string, instruction: string,
    answers: seq<Answer>) returns (clash: Option<(Blob, Blob)>, outcome: Option<SmokeOutcome>, ghost conversation: seq<Turn>, ghost calls: seq<ToolCall>)
    requires rt.Valid() && !rt.sealed && BoundHere(rt, provider) && WellRecorded(rt.w, rt.R())
    requires Serializes(rt.w, provider.serializer, body) && |answers| == 5
    modifies rt, provider`bound
    ensures match SmokeCourse(rt.w, rt.site, provider.serializer, body, old(rt.R()), old(rt.workspace), prompt, instruction, answers)
      case Halted(offered, held) =>
        clash == Some((offered, held)) && outcome.None? && Clash(rt.w, offered, held) && Conflicts(rt.w, rt.blobs, offered)
      case On(end) => clash.None? && (outcome.Some? <==> end.next.Over?) && rt.R() == end.loop.r && rt.workspace == end.loop.workspace
    ensures clash.None? && outcome.None? ==> BreaksFor(rt.w, old(rt.workspace), rt.R(), answers)
    ensures outcome.Some? ==>
      && (RunClean(rt.w.codec, outcome.value.files, rt.w.run) <==> old(rt.attemptSeq) == 0)
      && AskedInOrder(rt.w, answers, calls, outcome.value.attempts)
      && Growing(rt.w, old(rt.R()), outcome.value.files.snapshots, conversation, outcome.value.attempts)
      && |conversation| >= 2 && conversation[0] == ConstantTurn(rt.w, prompt, true) && conversation[1] == ConstantTurn(rt.w, instruction, false)
      && Replied(rt.w, conversation, 2, answers, outcome.value.attempts)
      && ToldFrom(rt.w, old(rt.workspace), conversation, 2, calls) && LastWritten(old(rt.workspace), rt.workspace, calls)
      && (outcome.value.observed <==> exists content :: Says(rt.w, answers[0], content))
      && (outcome.value.completed <==> exists k :: 0 <= k < |calls| && calls[k].WriteCall?)
      && StopsWith(rt.w, rt.R(), if outcome.value.completed then "completed" else "task_failed",
                   if outcome.value.completed then None else Some("agent_did_not_modify_workspace"))
      && (Walks(rt.site) ==> SealsText(rt.w, rt.blobs, outcome.value.states.sealedHash, rt.workspace))
      && |outcome.value.files.bindings| == |old(rt.bindings)| + outcome.value.fileReads
  {
    hide LoopCourse, StepCourse, SealCourse, PublicCourse, Numbered, Later, WellRecorded, Serializes, RunClean, SealedFrom, Looped, Growing, BreaksFor,
      WritesAt, ConstantTurn, Clash, Replied, RequestsMade, ResponseOf, SealStatus, SealReason, SealedStates, SmokeDone, AskedInOrder, ToldFrom, LastWritten,
      StopsWith, SealsText, Walks, AskedCalls, Says;
    ghost var start, before := rt.R(), rt.workspace;
    clash, outcome, conversation, calls := None, None, [], AskedCalls(rt.w, answers);
    SmokeKeeps(rt.w, rt.site, provider.serializer, body, start, before, prompt, instruction, answers);
    SmokeTells(rt.w, rt.site, rt.revision, rt.initial, provider.serializer, body, start, before, prompt, instruction, answers);
    var public, _ := rt.PublicContext(prompt, true);
    if public != Done { return Some((public.offered, public.held)), None, [], calls; }
    var task, _ := rt.PublicContext(instruction, false);
    if task != Done { return Some((task.offered, task.held)), None, [], calls; }
    var looped, end, next := RunLoop(rt, provider, body, Opening(rt.w, rt.R(), rt.workspace, prompt, instruction), answers);
    if looped != Done { return Some((looped.offered, looped.held)), None, [], calls; }
    if next.Broken? { return; }
    conversation := end.messages;
    var sealing, files, states := rt.Seal(SealStatus(end), SealReason(end));
    if files.None? { return Some((sealing.offered, sealing.held)), None, [], calls; }
    SealedSnapshots(rt.w, rt.R(), files.value);
    SmokeCleanExactly(rt.w, rt.site, provider.serializer, body, start, before, prompt, instruction, answers, files.value);
    SmokeFacts(rt.w, start, before, prompt, instruction, end.(r := rt.R()), answers);
    outcome := Some(SmokeOutcome(files.value, states.value, end.attempts, end.fileReads, end.observed, end.observed && end.changed));
  }

  lemma SaysExactly(w: Setup, answers: seq<Answer>)
    requires |answers| > 0
    ensures ResponseOf(w, answers[0].transport).Some? <==> exists content :: Says(w, answers[0], content)
    ensures AskedCalls(w, answers) != [] ==> ResponseOf(w, answers[0].transport).Some?
  {
    hide CommandOf;
    if ResponseOf(w, answers[0].transport).Some? { assert Says(w, answers[0], ResponseOf(w, answers[0].transport).value); }
  }

  lemma SmokeFacts(w: Setup, r: Recording, workspace: map<string, string>, prompt: string, instruction: string, end: Loop, answers: seq<Answer>)
    requires SmokeDone(w, r, workspace, prompt, instruction, end, answers) && |answers| > 0
    ensures AskedInOrder(w, answers, AskedCalls(w, answers), end.attempts) && Growing(w, r, end.r.snapshots, end.messages, end.attempts)
    ensures |end.messages| >= 2 && end.messages[0] == ConstantTurn(w, prompt, true) && end.messages[1] == ConstantTurn(w, instruction, false)
    ensures Replied(w, end.messages, 2, answers, end.attempts)
    ensures end.observed <==> exists content :: Says(w, answers[0], content)
    ensures (end.observed && end.changed) <==> exists k :: 0 <= k < |AskedCalls(w, answers)| && AskedCalls(w, answers)[k].WriteCall?
    ensures |end.r.bindings| == |r.bindings| + end.fileReads
  {
    hide ConstantTurn, WritesAt, RequestsMade, Replied, Growing, AskedInOrder, AskedCalls;
    CallsAsked(w, answers);
    WritesExactly(w, answers);
    SaysExactly(w, answers);
    var opening := Opening(w, r, workspace, prompt, instruction).messages;
    assert opening <= end.messages;
    assert end.messages[..2][0] == opening[0] && end.messages[..2][1] == opening[1];
  }

  /** One step: a request, and the tool call its response asks for. */
  method TakeStep(rt: CapturedRuntime, provider: CapturedProvider, body: seq<Message> -> string, l: Loop, a: Answer) returns (status: Status, m: Loop, next: Next)
    requires rt.Valid() && !rt.sealed && BoundHere(rt, provider) && l.r == rt.R() && l.workspace == rt.workspace
    modifies rt, provider`bound
    ensures BoundHere(rt, provider)
    ensures Steps(rt, StepCourse(rt.w, provider.serializer, body, l, a), status, m, next)
  {
    hide AskCourse, ObeyCourse, Numbered, Conflicts, CommandOf, AllSourced;
    if !AllSourced(l.messages) { return Done, l, Broken; }
    var asked, after := Ask(rt, provider, body, l.messages, l.attempts, a.transport, l);
    m := Loop(rt.R(), rt.workspace, after, l.attempts + 1, l.fileReads, l.observed || ResponseOf(rt.w, a.transport).Some?, l.changed);
    AskedLoop(rt.w, provider.serializer, body, l, a.transport);
    if asked != Done { return asked, m, Broken; }
    var call := Asks(rt.w, a);
    if call.None? { return Done, m, Over; }
    ghost var between := m;
    var obeyed, more := Obey(rt, call.value, after, m);
    m := Loop(rt.R(), rt.workspace, more, m.attempts, m.fileReads + (if call.value.ReadCall? then 1 else 0), m.observed, m.changed || call.value.WriteCall?);
    ObeyedLoop(rt.w, between, call.value);
    if obeyed == Done { return Done, m, Again; }
    return (if obeyed == ToolFailed then Done else obeyed), m, Broken;
  }

  lemma AskedLoop(w: Setup, serializer: string -> string, body: seq<Message> -> string, l: Loop, t: Transport)
    requires AllSourced(l.messages)
    ensures match AskCourse(w, serializer, body, l, t)
      case On(m) =>
        m == Loop(m.r, l.workspace, m.messages, l.attempts + 1, l.fileReads, l.observed || ResponseOf(w, t).Some?, l.changed)
      case Halted(_, _) => true
  {
    hide SendCourse, BlocksFor;
  }

  lemma ObeyedLoop(w: Setup, l: Loop, c: ToolCall)
    ensures match ObeyCourse(w, l, c)
      case On(s) =>
        && s.loop.attempts == l.attempts && s.loop.observed == l.observed && (s.next.Again? || s.next.Broken?)
        && (s.next.Again? ==> s.loop.fileReads == l.fileReads + (if c.ReadCall? then 1 else 0) && s.loop.changed == (l.changed || c.WriteCall?))
      case Halted(_, _) => true
  {
    hide ToolCourse, ContentShown;
  }

  /** The step went as `c` says. */
  ghost predicate Steps(rt: CapturedRuntime, c: Course<Stepped>, status: Status, m: Loop, next: Next)
    reads rt
  {
    match c
    case On(s) =>
      && status == Done && next == s.next && rt.R() == s.loop.r && rt.workspace == s.loop.workspace && rt.Valid() && !rt.sealed
      && (!next.Broken? ==> m == s.loop)
    case Halted(offered, held) => status == Conflict(offered, held) && Conflicts(rt.w, rt.blobs, offered)
  }

  /** The loop from its opening messages. */
  method RunLoop(rt: CapturedRuntime, provider: CapturedProvider, body: seq<Message> -> string, opening: Loop, answers: seq<Answer>)
    returns (status: Status, end: Loop, next: Next)
    requires rt.Valid() && !rt.sealed && BoundHere(rt, provider) && opening.r == rt.R() && opening.workspace == rt.workspace
    modifies rt, provider`bound
    ensures BoundHere(rt, provider)
    ensures Steps(rt, LoopCourse(rt.w, provider.serializer, body, opening, answers), status, end, next)
  {
    hide StepCourse, Numbered, Conflicts;
    ghost var w, serializer := rt.w, provider.serializer;
    end := opening;
    for step := 0 to |answers|
      invariant rt.Valid() && !rt.sealed && BoundHere(rt, provider) && end.r == rt.R() && end.workspace == rt.workspace
      invariant LoopCourse(w, serializer, body, opening, answers) == LoopCourse(w, serializer, body, end, answers[step..])
    {
      assert answers[step..][0] == answers[step] && answers[step..][1..] == answers[step + 1..];
      status, end, next := TakeStep(rt, provider, body, end, answers[step]);
      if status != Done || !next.Again? { return; }
    }
    return Done, end, Over;
  }
}
