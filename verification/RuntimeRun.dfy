/** A whole captured run and its seal: what it leaves behind, and why that passes the audit. */
module RuntimeRun {
  import opened Ordering
  import opened Labels
  import opened Evidence
  import opened UsageLedger
  import opened RuntimeRecords
  import opened RuntimeAudit
  import opened RuntimeInvariant
  import opened RuntimeSend
  import opened RuntimeSeal
  import opened RuntimeCourse
  import opened StateAudit

  // ---- Sealing ----

  function StopFields(status: string, reason: Option<string>): Fields {
    map[StatusKey := Words(status), OtherKey("stop_reason") := OptionalText(reason)]
  }

  /** The first part of `seal`: the last event, and the log as one artifact. */
  function LogCourse(w: Setup, r: Recording, status: string, reason: Option<string>): Course<Recording> {
    var stopped :- Journal(w, r, RunStop, None, StopFields(status, reason));
    Keep(w, stopped, EventLogBytes(stopped.events))
  }

  /** The files a sealed recording leaves, the physical records listed in an order nobody chose. */
  ghost predicate SealedFrom(w: Setup, r: Recording, f: RunFiles) {
    exists names, entries, aggregate :: SealedAs(w, r, f, names, entries, aggregate)
  }

  ghost predicate SealedAs(w: Setup, r: Recording, f: RunFiles, names: seq<Name>, entries: seq<CostEntry>, aggregate: Aggregate) {
    && ListsFiles(names, r.physical) && (forall i :: 0 <= i < |names| ==> names[i] in r.physical)
    && LedgerWritten(r.usages, entries, aggregate) && f == Sealed(w, r, names, entries, aggregate)
  }

  lemma LogCourseSound(w: Setup, r: Recording, status: string, reason: Option<string>)
    requires LogSound(w, r)
    ensures match LogCourse(w, r, status, reason)
      case On(x) =>
        && LogGrows(w, r, x) && x == r.(blobs := x.blobs, events := x.events) && Traced(r.events, x.events, [RunStop])
        && Stored(w, x.blobs, EventLogBytes(x.events))
      case Halted(offered, held) => Clash(w, offered, held)
  {
    hide LogSound, Said, FieldsOf, Keep, Journal, StopFields, Stored, LogGrows;
    JournalSound(w, r, RunStop, None, StopFields(status, reason));
    var stopped := Journal(w, r, RunStop, None, StopFields(status, reason));
    if stopped.On? {
      GrowsLog(w, r, stopped.value);
      KeepSound(w, stopped.value, EventLogBytes(stopped.value.events));
      if LogCourse(w, r, status, reason).On? { LogGrowsTransitive(w, r, stopped.value, LogCourse(w, r, status, reason).value); }
    }
  }

  // ---- The states of the workspace ----

  /** What a run takes from the file system beside the files' text: their permission bits, and the order a directory walk
      lists them in. */
  datatype Site = Site(mode: string -> nat, walk: set<string> -> seq<string>)

  ghost predicate Lists(paths: seq<string>, all: set<string>) { Distinct(paths) && forall p :: p in paths <==> p in all }

  /** A walk lists every file once. */
  ghost predicate Walks(site: Site) { forall all {:trigger site.walk(all)} :: Lists(site.walk(all), all) }

  function TextAt(workspace: map<string, string>, path: string): string { if path in workspace then workspace[path] else "" }

  function EntryFor(w: Setup, site: Site, workspace: map<string, string>, path: string): SealedFile {
    var body := Bytes(TextAt(workspace, path));
    SealedFile(TreeFile(path, site.mode(path), w.codec.digest(body)), RunRef(w, body, SealedFileAt(path)))
  }

  function Entries(w: Setup, site: Site, workspace: map<string, string>): seq<SealedFile> {
    var paths := site.walk(workspace.Keys);
    seq(|paths|, i requires 0 <= i < |paths| => EntryFor(w, site, workspace, paths[i]))
  }

  /** `initial_tree_manifest`. */
  function TreeOf(w: Setup, site: Site, workspace: map<string, string>): seq<TreeFile> { FilesOf(Entries(w, site, workspace)) }

  /** The initial state of a run whose workspace has this tree. */
  function InitialState(w: Setup, tree: seq<TreeFile>): RepoState {
    RepoState(InitialPhase, w.run, w.producer, Some(RunRef(w, TreeBytes(tree), InitialTreeAt)), w.codec.digest(TreeText(tree)), 0, [], true)
  }

  function FinalState(w: Setup, tree: seq<TreeFile>, r: Recording): RepoState {
    RepoState(FinalPhase, w.run, w.producer, Some(RunRef(w, TreeBytes(tree), FinalTreeAt)), w.codec.digest(TreeText(tree)),
              if |r.events| == 0 then 0 else |r.events| - 1, r.bindings, true)
  }

  /** The text of each file, in the order of the walk. */
  function BodiesCourse(w: Setup, r: Recording, workspace: map<string, string>, paths: seq<string>): Course<Recording>
    decreases |paths|
  {
    if |paths| == 0 then On(r)
    else
      var most :- BodiesCourse(w, r, workspace, paths[..|paths| - 1]);
      Keep(w, most, Bytes(TextAt(workspace, paths[|paths| - 1])))
  }

  /** The second part of `seal`: the final tree, every file, the sealed artifact that lists them, the final state. */
  function StatesCourse(w: Setup, site: Site, r: Recording, workspace: map<string, string>): Course<Recording> {
    var tree :- Keep(w, r, TreeBytes(TreeOf(w, site, workspace)));
    var bodies :- BodiesCourse(w, tree, workspace, site.walk(workspace.Keys));
    var sealed :- Keep(w, bodies, SealedBytes(Entries(w, site, workspace)));
    Keep(w, sealed, StateBytes(FinalState(w, TreeOf(w, site, workspace), r)))
  }

  /** `seal`. */
  function SealCourse(w: Setup, site: Site, r: Recording, workspace: map<string, string>, status: string, reason: Option<string>): Course<Recording> {
    var x :- LogCourse(w, r, status, reason);
    StatesCourse(w, site, x, workspace)
  }

  /** The files and the entries of `run.json` about the states. */
  function SealedStates(w: Setup, site: Site, revision: string, initial: RepoState, r: Recording, workspace: map<string, string>): StateFiles {
    var sealed, final := SealedBytes(Entries(w, site, workspace)), StateBytes(FinalState(w, TreeOf(w, site, workspace), r));
    StateFiles(ManifestBytes(ProducerFields(revision)), StateBytes(initial), final,
      Some(RunRef(w, StateBytes(initial), InitialStateAt)), Some(RunRef(w, final, FinalStateAt)),
      Some(RunRef(w, sealed, SealedArtifactAt)), Some(w.codec.digest(sealed)))
  }

  function ProducerKind(): string { "acr_runtime_capture" }

  function ProducerFields(revision: string): Fields {
    map[KindKey() := Words(ProducerKind()), RevisionKey() := Words(revision), SchemaKey() := Words(SchemaVersion()), VersionKey() := Words(RuntimeVersion())]
  }

  /** What the start of a run has stored: its producer manifest, the initial tree and the initial state. */
  ghost predicate Opened(w: Setup, revision: string, initial: RepoState, blobs: map<Hash, Blob>) {
    && w.producer == RunRef(w, ManifestBytes(ProducerFields(revision)), ProducerManifest)
    && Stored(w, blobs, ManifestBytes(ProducerFields(revision))) && Stored(w, blobs, StateBytes(initial))
    && exists tree :: Stored(w, blobs, TreeBytes(tree)) && initial == InitialState(w, tree)
  }

  lemma OpenedStays(w: Setup, revision: string, initial: RepoState, a: map<Hash, Blob>, b: map<Hash, Blob>)
    requires Opened(w, revision, initial, a) && Kept(a, b)
    ensures Opened(w, revision, initial, b)
  {
    var tree :| Stored(w, a, TreeBytes(tree)) && initial == InitialState(w, tree);
    hide InitialState;
    assert Stored(w, b, TreeBytes(tree));
  }

  lemma {:induction false} BodiesSound(w: Setup, r: Recording, workspace: map<string, string>, paths: seq<string>)
    requires LogSound(w, r)
    ensures match BodiesCourse(w, r, workspace, paths)
      case On(x) =>
        LogGrows(w, r, x) && x == r.(blobs := x.blobs) && forall p :: p in paths ==> Stored(w, x.blobs, Bytes(TextAt(workspace, p)))
      case Halted(offered, held) => Clash(w, offered, held)
    decreases |paths|
  {
    hide LogSound, LogGrows, Keep, Stored, TextAt;
    if |paths| == 0 {
      SameGrows(w, r);
    } else {
      var most, last := paths[..|paths| - 1], paths[|paths| - 1];
      assert paths == most + [last];
      BodiesSound(w, r, workspace, most);
      var before := BodiesCourse(w, r, workspace, most);
      if before.On? {
        GrowsLog(w, r, before.value);
        KeepSound(w, before.value, Bytes(TextAt(workspace, last)));
        var x := Keep(w, before.value, Bytes(TextAt(workspace, last)));
        if x.On? {
          LogGrowsTransitive(w, r, before.value, x.value);
          forall p | p in most ensures Stored(w, x.value.blobs, Bytes(TextAt(workspace, p))) {
            StoredStays(w, before.value, x.value, Bytes(TextAt(workspace, p)));
          }
        }
      }
    }
  }

  /** Everything the states of a sealed run refer to is held. */
  ghost predicate StatesHeld(w: Setup, site: Site, r: Recording, workspace: map<string, string>, blobs: map<Hash, Blob>) {
    && Stored(w, blobs, TreeBytes(TreeOf(w, site, workspace))) && Stored(w, blobs, SealedBytes(Entries(w, site, workspace)))
    && Stored(w, blobs, StateBytes(FinalState(w, TreeOf(w, site, workspace), r)))
    && forall p :: p in site.walk(workspace.Keys) ==> Stored(w, blobs, Bytes(TextAt(workspace, p)))
  }

  lemma StatesSound(w: Setup, site: Site, r: Recording, workspace: map<string, string>)
    requires LogSound(w, r)
    ensures match StatesCourse(w, site, r, workspace)
      case On(x) => LogGrows(w, r, x) && x == r.(blobs := x.blobs) && StatesHeld(w, site, r, workspace, x.blobs)
      case Halted(offered, held) => Clash(w, offered, held)
  {
    hide LogSound, LogGrows, Keep, Stored, BodiesCourse, TreeOf, Entries, FinalState, TextAt;
    var tree, paths := TreeBytes(TreeOf(w, site, workspace)), site.walk(workspace.Keys);
    var sealed, final := SealedBytes(Entries(w, site, workspace)), StateBytes(FinalState(w, TreeOf(w, site, workspace), r));
    KeepSound(w, r, tree);
    var first := Keep(w, r, tree);
    if first.On? {
      GrowsLog(w, r, first.value);
      BodiesSound(w, first.value, workspace, paths);
      var second := BodiesCourse(w, first.value, workspace, paths);
      if second.On? {
        GrowsLog(w, first.value, second.value);
        KeepSound(w, second.value, sealed);
        var third := Keep(w, second.value, sealed);
        if third.On? {
          GrowsLog(w, second.value, third.value);
          KeepSound(w, third.value, final);
          var x := Keep(w, third.value, final);
          if x.On? {
            LogGrowsTransitive(w, second.value, third.value, x.value);
            LogGrowsTransitive(w, first.value, second.value, x.value);
            LogGrowsTransitive(w, r, first.value, x.value);
            StoredStays(w, first.value, x.value, tree);
            StoredStays(w, third.value, x.value, sealed);
            forall p | p in paths ensures Stored(w, x.value.blobs, Bytes(TextAt(workspace, p))) {
              StoredStays(w, second.value, x.value, Bytes(TextAt(workspace, p)));
            }
          }
        }
      }
    }
  }

  lemma SealSound(w: Setup, site: Site, r: Recording, workspace: map<string, string>, status: string, reason: Option<string>)
    requires LogSound(w, r)
    ensures match SealCourse(w, site, r, workspace, status, reason)
      case On(x) =>
        && LogGrows(w, r, x) && x == r.(blobs := x.blobs, events := x.events) && Traced(r.events, x.events, [RunStop])
        && Stored(w, x.blobs, EventLogBytes(x.events)) && StatesHeld(w, site, x, workspace, x.blobs)
      case Halted(offered, held) => Clash(w, offered, held)
  {
    hide LogSound, LogGrows, Stored, LogCourse, StatesCourse, StatesHeld;
    LogCourseSound(w, r, status, reason);
    var log := LogCourse(w, r, status, reason);
    if log.On? {
      GrowsLog(w, r, log.value);
      StatesSound(w, site, log.value, workspace);
      var x := StatesCourse(w, site, log.value, workspace);
      if x.On? {
        LogGrowsTransitive(w, r, log.value, x.value);
        StoredStays(w, log.value, x.value, EventLogBytes(log.value.events));
        SameFinal(w, site, log.value, x.value, workspace);
      }
    }
  }

  lemma SameFinal(w: Setup, site: Site, a: Recording, b: Recording, workspace: map<string, string>)
    requires StatesHeld(w, site, a, workspace, b.blobs) && b.events == a.events && b.bindings == a.bindings
    ensures StatesHeld(w, site, b, workspace, b.blobs)
  {
    hide Stored, TreeOf, Entries, TextAt;
    assert FinalState(w, TreeOf(w, site, workspace), a) == FinalState(w, TreeOf(w, site, workspace), b);
  }

  /** Agreement of the recorder with the auditor, for one run as it stands: sealed, it is clean. */
  lemma SealPasses(w: Setup, site: Site, r: Recording, at: seq<nat>, workspace: map<string, string>, status: string, reason: Option<string>, f: RunFiles)
    requires Recorded(w, r, at)
    requires var course := SealCourse(w, site, r, workspace, status, reason); course.On? && SealedFrom(w, course.value, f)
    ensures RunClean(w.codec, f, w.run)
  {
    hide LogSound, AttemptsRecorded, ToolsRecorded, BindingsRecorded, SealCourse, Sealed, RunClean, LedgerWritten, ListsFiles, Stored, LogGrows, StatesHeld;
    RecordedLog(w, r, at);
    SealSound(w, site, r, workspace, status, reason);
    var x := SealCourse(w, site, r, workspace, status, reason).value;
    TracedOne(r.events, x.events, RunStop);
    OtherRecorded(w, r, x, at, x.events[|r.events|]);
    var names, entries, aggregate :| SealedAs(w, x, f, names, entries, aggregate);
    hide Recorded;
    SealedClean(w, x, at, names, entries, aggregate);
  }

  /** A reference to something held is read back. */
  lemma HeldRead(w: Setup, blobs: map<Hash, Blob>, b: Blob, locator: Locator)
    requires Stored(w, blobs, b)
    ensures RunBlob(w.codec, blobs, w.run, RunRef(w, b, locator)) == Some(b)
  {
  }

  /** So are its states, its manifest and its sealed artifact, unless the recorded code revision is blank. */
  lemma StatesPass(w: Setup, site: Site, revision: string, initial: RepoState, r: Recording, workspace: map<string, string>, f: RunFiles)
    requires Opened(w, revision, initial, r.blobs) && StatesHeld(w, site, r, workspace, r.blobs)
    requires f.blobs == r.blobs && f.producer == w.producer && f.run.producer == w.producer
    ensures StatesClean(w.codec, f, SealedStates(w, site, revision, initial, r, workspace), w.run) <==> !BlankText(revision)
  {
    var g := SealedStates(w, site, revision, initial, r, workspace);
    ProducerPasses(w, site, revision, initial, r, workspace, f);
    InitialPasses(w, revision, initial, f);
    FinalPasses(w, site, r, workspace, f);
    ArtifactPasses(w, site, revision, initial, r, workspace, f);
    hide ProducerClean, PhaseClean, ArtifactClean, Stored, Opened, Entries, TreeOf, ProducerFields, InitialState;
    assert initial.verified by { InitialVerified(w, revision, initial, f.blobs); }
  }

  lemma InitialVerified(w: Setup, revision: string, initial: RepoState, blobs: map<Hash, Blob>)
    requires Opened(w, revision, initial, blobs)
    ensures initial.verified
  {
  }

  lemma ProducerPasses(w: Setup, site: Site, revision: string, initial: RepoState, r: Recording, workspace: map<string, string>, f: RunFiles)
    requires Opened(w, revision, initial, r.blobs)
    requires f.blobs == r.blobs && f.producer == w.producer && f.run.producer == w.producer
    ensures ProducerClean(w.codec, f, SealedStates(w, site, revision, initial, r, workspace), w.run) <==> !BlankText(revision)
  {
    HeldRead(w, r.blobs, ManifestBytes(ProducerFields(revision)), ProducerManifest);
    ManifestWritten(revision);
    ManifestExactly(Object(ProducerFields(revision)));
    hide Stored, ProducerFields, ManifestComplete, FullManifest, RunBlob, Entries, FinalState, TreeOf;
  }

  lemma ManifestWritten(revision: string)
    ensures ManifestComplete(Object(ProducerFields(revision))) <==> !BlankText(revision)
  {
    hide BlankText;
    KeysDiffer();
    NotBlank(ProducerKind(), 0);
    NotBlank(SchemaVersion(), 0);
    NotBlank(RuntimeVersion(), 0);
  }

  lemma KeysDiffer()
    ensures KindKey() != RevisionKey() && KindKey() != SchemaKey() && KindKey() != VersionKey()
    ensures RevisionKey() != SchemaKey() && RevisionKey() != VersionKey() && SchemaKey() != VersionKey()
  {
    assert "producer_kind"[0] == 'p' && "code_revision"[0] == 'c' && "schema_version"[0] == 's' && "runtime_version"[0] == 'r';
  }

  lemma NotBlank(text: string, i: nat)
    requires i < |text| && !Space(text[i])
    ensures !BlankText(text)
  {
  }

  lemma InitialPasses(w: Setup, revision: string, initial: RepoState, f: RunFiles)
    requires Opened(w, revision, initial, f.blobs) && f.producer == w.producer
    ensures PhaseClean(w.codec, f, w.run, InitialPhase, Some(RunRef(w, StateBytes(initial), InitialStateAt)), StateBytes(initial), initial)
  {
    var tree :| Stored(w, f.blobs, TreeBytes(tree)) && initial == InitialState(w, tree);
    HeldRead(w, f.blobs, StateBytes(initial), InitialStateAt);
    HeldRead(w, f.blobs, TreeBytes(tree), InitialTreeAt);
    hide Stored, RunBlob;
  }

  lemma FinalPasses(w: Setup, site: Site, r: Recording, workspace: map<string, string>, f: RunFiles)
    requires StatesHeld(w, site, r, workspace, r.blobs) && f.blobs == r.blobs && f.producer == w.producer
    ensures var final := FinalState(w, TreeOf(w, site, workspace), r);
      PhaseClean(w.codec, f, w.run, FinalPhase, Some(RunRef(w, StateBytes(final), FinalStateAt)), StateBytes(final), final)
  {
    var tree := TreeOf(w, site, workspace);
    var final := FinalState(w, tree, r);
    HeldRead(w, f.blobs, StateBytes(final), FinalStateAt);
    HeldRead(w, f.blobs, TreeBytes(tree), FinalTreeAt);
    hide Stored, RunBlob, TreeOf, StatesHeld;
  }

  lemma ArtifactPasses(w: Setup, site: Site, revision: string, initial: RepoState, r: Recording, workspace: map<string, string>, f: RunFiles)
    requires StatesHeld(w, site, r, workspace, r.blobs) && f.blobs == r.blobs
    ensures var final := FinalState(w, TreeOf(w, site, workspace), r);
      ArtifactClean(w.codec, f, SealedStates(w, site, revision, initial, r, workspace), w.run, final)
  {
    var entries, paths := Entries(w, site, workspace), site.walk(workspace.Keys);
    HeldRead(w, f.blobs, SealedBytes(entries), SealedArtifactAt);
    forall i | 0 <= i < |entries| ensures BodyHeld(w.codec, f, w.run, entries[i]) {
      assert paths[i] in paths;
      HeldRead(w, f.blobs, Bytes(TextAt(workspace, paths[i])), SealedFileAt(paths[i]));
    }
    hide Stored, RunBlob, BodyHeld, StatesHeld, ProducerFields;
  }

  /** The sealed artifact lists exactly the files of the workspace, each once, with the digest of its text. */
  lemma SealedExactly(w: Setup, site: Site, workspace: map<string, string>, path: string)
    requires Walks(site)
    ensures var entries := Entries(w, site, workspace);
      && (path in workspace <==> exists i :: 0 <= i < |entries| && entries[i].file.path == path)
      && (forall i, j :: 0 <= i < j < |entries| ==> entries[i].file.path != entries[j].file.path)
      && (forall i :: 0 <= i < |entries| ==>
            && entries[i].file.path in workspace && entries[i].file.mode == site.mode(entries[i].file.path)
            && entries[i].file.sha == w.codec.digest(Bytes(workspace[entries[i].file.path])))
  {
    var entries, paths := Entries(w, site, workspace), site.walk(workspace.Keys);
    assert Lists(paths, workspace.Keys);
    assert forall i :: 0 <= i < |entries| ==> entries[i].file.path == paths[i] && paths[i] in paths;
    if path in workspace {
      assert path in paths;
      var i :| 0 <= i < |paths| && paths[i] == path;
      assert entries[i].file.path == path;
    }
  }

  // ---- A whole run ----

  /** One operation of a run, its outside results included. A send quotes the turns of the conversation so far whose
      positions it lists. */
  datatype Op = Call(tool: ToolCall) | Check(binding: FileBinding, ref: Ref) | Send(body: string, logical: Name, quoted: seq<nat>, transport: Transport)

  /** Where a run is: its recording, its workspace, the conversation so far. */
  datatype Journey = Journey(r: Recording, workspace: map<string, string>, pool: seq<Turn>)

  /** The blocks of a send: those of the quoted turns, when its serialized body carries them. */
  function BlocksOf(w: Setup, r: Recording, sent: string, turns: seq<Turn>): seq<ContextBlock> {
    if AllSourced(turns) && sent != "" && w.codec.messages(sent) == Some(Wire(turns)) then BlocksFor(w, RequestName(AttemptName(w.run, r.attemptSeq)), turns)
    else []
  }

  /** What a tool call adds to the conversation. */
  function ToolJoins(w: Setup, c: ToolCall, o: Option<ToolOutcome>): seq<Turn> {
    if o.None? || ContentShown(w, c, o.value.text).None? then [] else [TurnFor(o.value, ContentShown(w, c, o.value.text).value)]
  }

  function Step(w: Setup, serializer: string -> string, j: Journey, op: Op): Course<Journey> {
    match op
    case Call(c) =>
      var e :- ToolCourse(w, j.r, j.workspace, c);
      On(Journey(e.r, WorkspaceAfter(j.workspace, c), j.pool + ToolJoins(w, c, e.outcome)))
    case Check(binding, ref) =>
      var c :- CheckCourse(w, j.r, j.workspace, binding, ref);
      On(Journey(c.r, j.workspace, j.pool))
    case Send(body, logical, quoted, t) =>
      var blocks := BlocksOf(w, j.r, serializer(body), Quoted(j.pool, quoted));
      var x :- SendCourse(w, j.r, logical, body, serializer(body), blocks, t);
      On(Journey(x, j.workspace, j.pool + ResponseJoins(w, j.r, t)))
  }

  function RunCourse(w: Setup, serializer: string -> string, j: Journey, ops: seq<Op>): Course<Journey> {
    if |ops| == 0 then On(j)
    else
      var before :- RunCourse(w, serializer, j, ops[..|ops| - 1]);
      Step(w, serializer, before, ops[|ops| - 1])
  }

  /** The run, then its seal. */
  function WholeCourse(w: Setup, serializer: string -> string, site: Site, j: Journey, ops: seq<Op>, status: string, reason: Option<string>): Course<Journey> {
    var end :- RunCourse(w, serializer, j, ops);
    var x :- SealCourse(w, site, end.r, end.workspace, status, reason);
    On(end.(r := x))
  }

  /** The events an operation records. */
  function TraceOf(op: Op): seq<EventKind> {
    match op
    case Check(_, _) => [StateCheck]
    case Send(_, _, _, t) => [RequestEvent, EndKind(t)]
    case Call(_) => ToolTrace()
  }

  function TraceOfAll(ops: seq<Op>): seq<EventKind> {
    if |ops| == 0 then [] else TraceOfAll(ops[..|ops| - 1]) + TraceOf(ops[|ops| - 1])
  }

  /** A run under way: its record is kept and its conversation can be quoted. */
  ghost predicate UnderWay(w: Setup, j: Journey) {
    (exists at :: Recorded(w, j.r, at)) && AllAuthentic(w, j.r, j.pool, |j.r.events|)
  }

  /** One operation keeps a run under way and records its own trace, or stops at two different contents with one digest. */
  lemma StepKeeps(w: Setup, serializer: string -> string, j: Journey, op: Op)
    requires UnderWay(w, j)
    ensures match Step(w, serializer, j, op)
      case On(k) => UnderWay(w, k) && Kept(j.r.blobs, k.r.blobs) && Traced(j.r.events, k.r.events, TraceOf(op))
      case Halted(offered, held) => Clash(w, offered, held)
  {
    hide Recorded, AllAuthentic, LogSound, LogGrows, Kept, ToolCourse, CheckCourse, SendCourse, Sent, Told, Traced, BlocksOf, Quoted;
    var at :| Recorded(w, j.r, at);
    RecordedLog(w, j.r, at);
    match op
    case Call(c) => CallStepKeeps(w, serializer, j, c, at);
    case Check(binding, ref) =>
      CheckSound(w, j.r, j.workspace, binding, ref);
      if Step(w, serializer, j, op).On? {
        CheckKeepsRecorded(w, j.r, at, j.workspace, binding, ref);
        AllAuthenticStay(w, j.r, Step(w, serializer, j, op).value.r, j.pool);
        GrownBlobs(w, j.r, Step(w, serializer, j, op).value.r);
      }
    case Send(body, logical, quoted, t) => SendStepKeeps(w, serializer, j, body, logical, quoted, t, at);
  }

  lemma CallStepKeeps(w: Setup, serializer: string -> string, j: Journey, c: ToolCall, at: seq<nat>)
    requires UnderWay(w, j) && Recorded(w, j.r, at)
    ensures match Step(w, serializer, j, Call(c))
      case On(k) => UnderWay(w, k) && Kept(j.r.blobs, k.r.blobs) && Traced(j.r.events, k.r.events, ToolTrace())
      case Halted(offered, held) => Clash(w, offered, held)
  {
    hide Recorded, AllAuthentic, Authentic, LogSound, LogGrows, Kept, ToolCourse, Traced, ContentShown, TurnFor;
    RecordedLog(w, j.r, at);
    ToolSound(w, j.r, j.workspace, c);
    if ToolCourse(w, j.r, j.workspace, c).On? {
      var e := ToolCourse(w, j.r, j.workspace, c).value;
      ToolKeepsRecorded(w, j.r, at, j.workspace, c);
      AllAuthenticStay(w, j.r, e.r, j.pool);
      GrownBlobs(w, j.r, e.r);
      if ToolJoins(w, c, e.outcome) != [] {
        AuthenticAdded(w, e.r, j.pool, ToolJoins(w, c, e.outcome)[0], |e.r.events|);
      } else {
        assert j.pool + ToolJoins(w, c, e.outcome) == j.pool;
      }
    }
  }

  lemma SendStepKeeps(w: Setup, serializer: string -> string, j: Journey, body: string, logical: Name, quoted: seq<nat>, t: Transport, at: seq<nat>)
    requires UnderWay(w, j) && Recorded(w, j.r, at)
    ensures match Step(w, serializer, j, Send(body, logical, quoted, t))
      case On(k) => UnderWay(w, k) && Kept(j.r.blobs, k.r.blobs) && Traced(j.r.events, k.r.events, [RequestEvent, EndKind(t)])
      case Halted(offered, held) => Clash(w, offered, held)
  {
    hide Recorded, AllAuthentic, LogSound, LogGrows, Kept, SendCourse, Sent, Traced, Quoted, BlocksFor, ResponseJoins;
    RecordedLog(w, j.r, at);
    var sent, turns := serializer(body), Quoted(j.pool, quoted);
    var blocks := BlocksOf(w, j.r, sent, turns);
    SendSound(w, j.r, logical, body, sent, blocks, t);
    if SendCourse(w, j.r, logical, body, sent, blocks, t).On? {
      var x := SendCourse(w, j.r, logical, body, sent, blocks, t).value;
      QuotedAuthentic(w, j.r, j.pool, quoted, |j.r.events|);
      assert Carries(w, j.r, AttemptName(w.run, j.r.attemptSeq), blocks, sent, turns);
      hide Carries, BlocksOf;
      SendKeeps(w, j.r, at, logical, body, sent, blocks, t, turns);
      SentBlobs(w, j.r, x, logical, body, sent, blocks, t);
      ResponseJoinsAuthentic(w, j.r, j.pool, logical, body, sent, blocks, t);
      SentTraced(w, j.r, x, logical, body, sent, blocks, t);
    }
  }

  /** So does a whole run. */
  lemma {:induction false} RunKeeps(w: Setup, serializer: string -> string, j: Journey, ops: seq<Op>)
    requires UnderWay(w, j)
    ensures match RunCourse(w, serializer, j, ops)
      case On(k) => UnderWay(w, k) && Kept(j.r.blobs, k.r.blobs) && Traced(j.r.events, k.r.events, TraceOfAll(ops))
      case Halted(offered, held) => Clash(w, offered, held)
    decreases |ops|
  {
    hide UnderWay, Traced, Step, Clash, Kept;
    if |ops| == 0 {
      NothingTraced(j.r.events, ops);
      SameKept(j.r.blobs);
    } else {
      var most, last := ops[..|ops| - 1], ops[|ops| - 1];
      RunKeeps(w, serializer, j, most);
      if RunCourse(w, serializer, j, most).On? {
        var before := RunCourse(w, serializer, j, most).value;
        StepKeeps(w, serializer, before, last);
        if Step(w, serializer, before, last).On? {
          KeptTransitive(j.r.blobs, before.r.blobs, Step(w, serializer, before, last).value.r.blobs);
          TracedJoined(j.r.events, before.r.events, Step(w, serializer, before, last).value.r.events, TraceOfAll(most), TraceOf(last));
        }
      }
    }
  }

  lemma GrownBlobs(w: Setup, a: Recording, b: Recording)
    requires LogGrows(w, a, b)
    ensures Kept(a.blobs, b.blobs)
  {
  }

  lemma SentBlobs(w: Setup, a: Recording, b: Recording, logical: Name, body: string, sent: string, blocks: seq<ContextBlock>, t: Transport)
    requires Sent(w, a, b, logical, body, sent, blocks, t)
    ensures Kept(a.blobs, b.blobs)
  {
    SentGrows(w, a, b, logical, body, sent, blocks, t);
  }

  lemma SameKept(blobs: map<Hash, Blob>)
    ensures Kept(blobs, blobs)
  {
  }

  lemma NothingTraced(events: seq<Event>, ops: seq<Op>)
    requires |ops| == 0
    ensures Traced(events, events, TraceOfAll(ops))
  {
  }

  /** Recorder and auditor agree: whatever a run does, sealed it is clean and its log is the trace of what it did, its states
      and its sealed artifact are clean too unless the code revision is blank; the only thing that can stop it is a content of
      its own that the store refuses, for a different one it holds under the same digest. */
  lemma WholeRunPasses(w: Setup, serializer: string -> string, site: Site, revision: string, initial: RepoState, j: Journey, ops: seq<Op>,
    status: string, reason: Option<string>)
    requires UnderWay(w, j) && Opened(w, revision, initial, j.r.blobs)
    ensures match WholeCourse(w, serializer, site, j, ops, status, reason)
      case On(k) =>
        && Traced(j.r.events, k.r.events, TraceOfAll(ops) + [RunStop])
        && forall f :: SealedFrom(w, k.r, f) ==>
             && RunClean(w.codec, f, w.run)
             && (StatesClean(w.codec, f, SealedStates(w, site, revision, initial, k.r, k.workspace), w.run) <==> !BlankText(revision))
      case Halted(offered, held) => Clash(w, offered, held)
  {
    hide RunCourse, Recorded, Traced, Kept, SealCourse, SealedFrom, RunClean, StatesClean, LogSound, LogGrows, AllAuthentic, Stored, TraceOfAll, StatesHeld, Opened,
      SealedStates, BlankText;
    RunKeeps(w, serializer, j, ops);
    if RunCourse(w, serializer, j, ops).On? {
      var end := RunCourse(w, serializer, j, ops).value;
      var at :| Recorded(w, end.r, at);
      RecordedLog(w, end.r, at);
      SealSound(w, site, end.r, end.workspace, status, reason);
      if SealCourse(w, site, end.r, end.workspace, status, reason).On? {
        var x := SealCourse(w, site, end.r, end.workspace, status, reason).value;
        TracedJoined(j.r.events, end.r.events, x.events, TraceOfAll(ops), [RunStop]);
        GrownBlobs(w, end.r, x);
        KeptTransitive(j.r.blobs, end.r.blobs, x.blobs);
        OpenedStays(w, revision, initial, j.r.blobs, x.blobs);
        forall f | SealedFrom(w, x, f)
          ensures RunClean(w.codec, f, w.run)
          ensures StatesClean(w.codec, f, SealedStates(w, site, revision, initial, x, end.workspace), w.run) <==> !BlankText(revision)
        {
          SealPasses(w, site, end.r, at, end.workspace, status, reason, f);
          SealedBlobs(w, x, f);
          StatesPass(w, site, revision, initial, x, end.workspace, f);
        }
      }
    }
  }

  lemma SealedBlobs(w: Setup, r: Recording, f: RunFiles)
    requires SealedFrom(w, r, f)
    ensures f.blobs == r.blobs && f.producer == w.producer && f.run.producer == w.producer && f.finalFiles == r.bindings
  {
    hide ListsFiles, LedgerWritten;
  }

  lemma KeptTransitive(a: map<Hash, Blob>, b: map<Hash, Blob>, c: map<Hash, Blob>)
    requires Kept(a, b) && Kept(b, c)
    ensures Kept(a, c)
  {
  }

  /** A run that is stopped at some operation is stopped. */
  lemma {:induction false} StaysHalted(w: Setup, serializer: string -> string, j: Journey, ops: seq<Op>, n: nat)
    requires n <= |ops| && RunCourse(w, serializer, j, ops[..n]).Halted?
    ensures RunCourse(w, serializer, j, ops) == RunCourse(w, serializer, j, ops[..n])
    decreases |ops|
  {
    if n == |ops| {
      assert ops[..n] == ops;
    } else {
      var most := ops[..|ops| - 1];
      assert most[..n] == ops[..n];
      StaysHalted(w, serializer, j, most, n);
    }
  }
}
