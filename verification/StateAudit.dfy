/** The audit of a run's producer manifest, its two repository states and its sealed artifact. */
module StateAudit {
  import opened Ordering
  import opened Labels
  import opened Evidence
  import opened UsageLedger
  import opened RuntimeRecords

  /** The files and the entries of `run.json` that this part of the audit reads. */
  datatype StateFiles = StateFiles(
    producerFile: Blob, initialFile: Blob, finalFile: Blob, initialRef: Option<Ref>, finalRef: Option<Ref>, sealedRef: Option<Ref>,
    sealedHash: Option<Hash>)

  datatype StateCode =
    | MalformedEvidence | ProducerMismatch | ProducerInvalid | StateReference | StateArtifact | StateIdentity | StatePhaseWrong
    | TreeReference | TreeMissing | TreeHashWrong | NotVerified | NotSealed | SealedMissing | SealedHashWrong | SealedMalformed
    | SealedTreeWrong | SealedFileWrong

  function Unless(ok: bool, code: StateCode): (r: seq<StateCode>)
    ensures r == [] <==> ok
  {
    if ok then [] else [code]
  }

  // ---- The producer manifest ----

  predicate BlankText(text: string) { forall i :: 0 <= i < |text| ==> Space(text[i]) }

  function KindKey(): Key { OtherKey("producer_kind") }
  function RevisionKey(): Key { OtherKey("code_revision") }
  function SchemaKey(): Key { OtherKey("schema_version") }
  function VersionKey(): Key { OtherKey("runtime_version") }
  function SchemaVersion(): string { "1.0" }
  function RuntimeVersion(): string { "m2_capture_v1" }

  predicate Says(fields: Fields, key: Key) { At(fields, key).Words? && !BlankText(At(fields, key).text) }

  predicate ManifestComplete(p: Parsed) {
    && p.Object? && Says(p.fields, KindKey()) && Says(p.fields, RevisionKey()) && Says(p.fields, SchemaKey()) && Says(p.fields, VersionKey())
    && At(p.fields, SchemaKey()) == Words(SchemaVersion()) && At(p.fields, VersionKey()) == Words(RuntimeVersion())
  }

  /** The field is a text that is not all white space. */
  ghost predicate Filled(fields: Fields, key: string) {
    OtherKey(key) in fields && fields[OtherKey(key)].Words? && exists i :: 0 <= i < |fields[OtherKey(key)].text| && !Space(fields[OtherKey(key)].text[i])
  }

  /** A manifest that says what produced the run, at which code revision, in this schema and with this runtime. */
  ghost predicate FullManifest(p: Parsed) {
    && p.Object? && Filled(p.fields, "producer_kind") && Filled(p.fields, "code_revision") && Filled(p.fields, "schema_version")
    && Filled(p.fields, "runtime_version")
    && p.fields[OtherKey("schema_version")] == Words("1.0") && p.fields[OtherKey("runtime_version")] == Words("m2_capture_v1")
  }

  lemma ManifestExactly(p: Parsed)
    ensures ManifestComplete(p) <==> FullManifest(p)
  {
    hide Space;
    if p.Object? {
      forall key: string ensures Says(p.fields, OtherKey(key)) <==> Filled(p.fields, key) {}
    }
  }

  ghost predicate ProducerClean(c: Codec, f: RunFiles, g: StateFiles, run: string) {
    && f.producer.source == RuntimeSource && f.producer.key == run && f.producer.locator == ProducerManifest && f.run.producer == f.producer
    && RunBlob(c, f.blobs, run, f.producer) == Some(g.producerFile) && FullManifest(ParsedBlob(c, g.producerFile))
  }

  method AuditProducer(c: Codec, f: RunFiles, g: StateFiles, run: string) returns (codes: seq<StateCode>)
    ensures codes == [] <==> ProducerClean(c, f, g, run)
  {
    hide ManifestComplete, FullManifest;
    var stored := RunBlob(c, f.blobs, run, f.producer);
    if stored.Some? { ManifestExactly(ParsedBlob(c, stored.value)); }
    codes := Unless(f.producer.source == RuntimeSource && f.producer.key == run && f.producer.locator == ProducerManifest &&
                    f.run.producer == f.producer && stored == Some(g.producerFile), ProducerMismatch);
    if stored.None? { return codes; }
    codes := codes + Unless(ManifestComplete(ParsedBlob(c, stored.value)), ProducerInvalid);
  }

  // ---- One repository state ----

  function StatePlace(phase: StatePhase): Locator { if phase == InitialPhase then InitialStateAt else FinalStateAt }
  function TreePlace(phase: StatePhase): Locator { if phase == InitialPhase then InitialTreeAt else FinalTreeAt }

  /** A state is what its reference names and its file holds, belongs to this run and phase, and its tree has the hash it
      records. */
  ghost predicate PhaseClean(c: Codec, f: RunFiles, run: string, phase: StatePhase, ref: Option<Ref>, file: Blob, state: RepoState) {
    && ref.Some? && ref.value.locator == StatePlace(phase) && RunBlob(c, f.blobs, run, ref.value) == Some(file)
    && state.run == run && state.producer == f.producer && state.phase == phase
    && state.tree.Some? && state.tree.value.locator == TreePlace(phase)
    && RunBlob(c, f.blobs, run, state.tree.value).Some?
    && TreeHashOf(c, RunBlob(c, f.blobs, run, state.tree.value).value) == Some(state.treeHash)
  }

  method AuditPhase(c: Codec, f: RunFiles, run: string, phase: StatePhase, ref: Option<Ref>, file: Blob, state: RepoState)
    returns (codes: seq<StateCode>)
    ensures codes == [] <==> PhaseClean(c, f, run, phase, ref, file, state)
  {
    hide RunBlob, TreeHashOf;
    if ref.None? { return [StateReference]; }
    codes := Unless(ref.value.locator == StatePlace(phase), StateReference)
      + Unless(RunBlob(c, f.blobs, run, ref.value) == Some(file), StateArtifact)
      + Unless(state.run == run && state.producer == f.producer, StateIdentity);
    if state.phase != phase || state.tree.None? { return codes + [StatePhaseWrong]; }
    codes := codes + Unless(state.tree.value.locator == TreePlace(phase), TreeReference);
    var tree := RunBlob(c, f.blobs, run, state.tree.value);
    if tree.None? { return codes + [TreeMissing]; }
    codes := codes + Unless(TreeHashOf(c, tree.value) == Some(state.treeHash), TreeHashWrong);
  }

  // ---- The sealed artifact ----

  function FilesOf(entries: seq<SealedFile>): seq<TreeFile> { seq(|entries|, i requires 0 <= i < |entries| => entries[i].file) }

  ghost predicate BodyHeld(c: Codec, f: RunFiles, run: string, e: SealedFile) {
    RunBlob(c, f.blobs, run, e.body).Some? && c.digest(RunBlob(c, f.blobs, run, e.body).value) == e.file.sha
  }

  /** The sealed artifact has its recorded hash, lists the very tree of the final state, and every listed file's bytes are
      held. */
  ghost predicate ArtifactClean(c: Codec, f: RunFiles, g: StateFiles, run: string, final: RepoState) {
    && g.sealedRef.Some? && g.sealedHash.Some?
    && var sealed := RunBlob(c, f.blobs, run, g.sealedRef.value);
    && sealed.Some? && c.digest(sealed.value) == g.sealedHash.value && SealedOf(c, sealed.value).Some?
    && var entries := SealedOf(c, sealed.value).value;
    && final.phase == FinalPhase && c.digest(TreeText(FilesOf(entries))) == final.treeHash
    && forall i :: 0 <= i < |entries| ==> BodyHeld(c, f, run, entries[i])
  }

  method AuditArtifact(c: Codec, f: RunFiles, g: StateFiles, run: string, final: RepoState) returns (codes: seq<StateCode>)
    ensures codes == [] <==> ArtifactClean(c, f, g, run, final)
  {
    hide RunBlob, SealedOf, FilesOf, BodyHeld;
    if g.sealedRef.None? || g.sealedHash.None? { return [NotSealed]; }
    var sealed := RunBlob(c, f.blobs, run, g.sealedRef.value);
    if sealed.None? { return [SealedMissing]; }
    codes := Unless(c.digest(sealed.value) == g.sealedHash.value, SealedHashWrong);
    var listed := SealedOf(c, sealed.value);
    if listed.None? { return codes + [SealedMalformed]; }
    var entries := listed.value;
    codes := codes + Unless(final.phase == FinalPhase && c.digest(TreeText(FilesOf(entries))) == final.treeHash, SealedTreeWrong);
    ghost var early := codes;
    for i := 0 to |entries|
      invariant codes == [] <==> early == [] && forall k :: 0 <= k < i ==> BodyHeld(c, f, run, entries[k])
    {
      var body := RunBlob(c, f.blobs, run, entries[i].body);
      assert BodyHeld(c, f, run, entries[i]) <==> body.Some? && c.digest(body.value) == entries[i].file.sha by { HeldIs(c, f, run, entries[i]); }
      codes := codes + Unless(body.Some? && c.digest(body.value) == entries[i].file.sha, SealedFileWrong);
    }
  }

  lemma HeldIs(c: Codec, f: RunFiles, run: string, e: SealedFile)
    ensures BodyHeld(c, f, run, e) <==>
      RunBlob(c, f.blobs, run, e.body).Some? && c.digest(RunBlob(c, f.blobs, run, e.body).value) == e.file.sha
  {
  }

  // ---- Together ----

  ghost predicate StatesClean(c: Codec, f: RunFiles, g: StateFiles, run: string) {
    && StateOf(c, g.initialFile).Some? && StateOf(c, g.finalFile).Some?
    && var initial, final := StateOf(c, g.initialFile).value, StateOf(c, g.finalFile).value;
    && ProducerClean(c, f, g, run)
    && PhaseClean(c, f, run, InitialPhase, g.initialRef, g.initialFile, initial)
    && PhaseClean(c, f, run, FinalPhase, g.finalRef, g.finalFile, final)
    && initial.verified && ArtifactClean(c, f, g, run, final)
  }

  // ---- What silence says ----

  /** A state is what is stored for its phase, says so of itself, and records the hash of the tree stored with it. */
  ghost predicate StateTrue(c: Codec, f: RunFiles, run: string, initial: bool, ref: Option<Ref>, file: Blob, state: RepoState) {
    && ref.Some? && Owns(c, f.blobs, run, ref.value, file) && ref.value.locator == (if initial then InitialStateAt else FinalStateAt)
    && state.run == run && state.producer == f.producer && (state.phase == InitialPhase <==> initial)
    && state.tree.Some? && state.tree.value.locator == (if initial then InitialTreeAt else FinalTreeAt)
    && exists b :: Owns(c, f.blobs, run, state.tree.value, b) && TreeHashOf(c, b) == Some(state.treeHash)
  }

  /** What is sealed is stored, has the digest the run records, and lists files whose tree has the hash of the final state, each
      with its bytes. */
  ghost predicate ArtifactTrue(c: Codec, f: RunFiles, g: StateFiles, run: string, final: RepoState, b: Blob) {
    && g.sealedRef.Some? && Owns(c, f.blobs, run, g.sealedRef.value, b) && g.sealedHash == Some(c.digest(b)) && SealedOf(c, b).Some?
    && var entries := SealedOf(c, b).value;
    && (exists tree :: |tree| == |entries| && (forall i :: 0 <= i < |entries| ==> tree[i] == entries[i].file) && c.digest(TreeText(tree)) == final.treeHash)
    && forall i :: 0 <= i < |entries| ==> exists x :: Owns(c, f.blobs, run, entries[i].body, x) && c.digest(x) == entries[i].file.sha
  }

  ghost predicate StatesTrue(c: Codec, f: RunFiles, g: StateFiles, run: string) {
    && StateOf(c, g.initialFile).Some? && StateOf(c, g.finalFile).Some?
    && var initial, final := StateOf(c, g.initialFile).value, StateOf(c, g.finalFile).value;
    && f.run.producer == f.producer && f.producer.locator == ProducerManifest && Owns(c, f.blobs, run, f.producer, g.producerFile)
    && FullManifest(ParsedBlob(c, g.producerFile))
    && StateTrue(c, f, run, true, g.initialRef, g.initialFile, initial) && StateTrue(c, f, run, false, g.finalRef, g.finalFile, final)
    && initial.verified && exists b :: ArtifactTrue(c, f, g, run, final, b)
  }

  lemma StateExactly(c: Codec, f: RunFiles, run: string, initial: bool, ref: Option<Ref>, file: Blob, state: RepoState)
    ensures PhaseClean(c, f, run, if initial then InitialPhase else FinalPhase, ref, file, state) <==> StateTrue(c, f, run, initial, ref, file, state)
  {
    if ref.Some? { OwnsExactly(c, f.blobs, run, ref.value); }
    if state.tree.Some? { OwnsExactly(c, f.blobs, run, state.tree.value); }
    hide RunBlob, Owns, TreeHashOf;
  }

  lemma BodyExactly(c: Codec, f: RunFiles, run: string, e: SealedFile)
    ensures BodyHeld(c, f, run, e) <==> exists x :: Owns(c, f.blobs, run, e.body, x) && c.digest(x) == e.file.sha
  {
    OwnsExactly(c, f.blobs, run, e.body);
    hide RunBlob, Owns;
  }

  lemma TreeExactly(c: Codec, entries: seq<SealedFile>, hash: Hash)
    ensures c.digest(TreeText(FilesOf(entries))) == hash <==>
      exists tree :: |tree| == |entries| && (forall i :: 0 <= i < |entries| ==> tree[i] == entries[i].file) && c.digest(TreeText(tree)) == hash
  {
    var files := FilesOf(entries);
    assert |files| == |entries| && forall i :: 0 <= i < |entries| ==> files[i] == entries[i].file;
    forall tree: seq<TreeFile> | |tree| == |entries| && (forall i :: 0 <= i < |entries| ==> tree[i] == entries[i].file) ensures tree == files {}
  }

  lemma ArtifactExactly(c: Codec, f: RunFiles, g: StateFiles, run: string, final: RepoState)
    requires g.sealedRef.Some? && final.phase == FinalPhase
    ensures ArtifactClean(c, f, g, run, final) <==> exists b :: ArtifactTrue(c, f, g, run, final, b)
  {
    OwnsExactly(c, f.blobs, run, g.sealedRef.value);
    forall b | Owns(c, f.blobs, run, g.sealedRef.value, b)
      ensures ArtifactClean(c, f, g, run, final) <==> ArtifactTrue(c, f, g, run, final, b)
    {
      ListedExactly(c, f, g, run, final, b);
    }
    hide RunBlob, Owns, SealedOf, FilesOf, BodyHeld;
    if ArtifactClean(c, f, g, run, final) {
      assert ArtifactTrue(c, f, g, run, final, RunBlob(c, f.blobs, run, g.sealedRef.value).value);
    }
  }

  lemma ListedExactly(c: Codec, f: RunFiles, g: StateFiles, run: string, final: RepoState, b: Blob)
    requires g.sealedRef.Some? && final.phase == FinalPhase && Owns(c, f.blobs, run, g.sealedRef.value, b)
    ensures ArtifactClean(c, f, g, run, final) <==> ArtifactTrue(c, f, g, run, final, b)
  {
    OwnsExactly(c, f.blobs, run, g.sealedRef.value);
    hide RunBlob, Owns, SealedOf, FilesOf, BodyHeld;
    if SealedOf(c, b).Some? {
      var entries := SealedOf(c, b).value;
      TreeExactly(c, entries, final.treeHash);
      forall i | 0 <= i < |entries|
        ensures BodyHeld(c, f, run, entries[i]) <==> exists x :: Owns(c, f.blobs, run, entries[i].body, x) && c.digest(x) == entries[i].file.sha
      {
        BodyExactly(c, f, run, entries[i]);
      }
    }
  }

  /** The checks of states, manifest and sealed artifact, taken together, say over arbitrary stored data that they are true. */
  lemma StatesExactly(c: Codec, f: RunFiles, g: StateFiles, run: string)
    ensures StatesClean(c, f, g, run) <==> StatesTrue(c, f, g, run)
  {
    hide PhaseClean, StateTrue, ArtifactClean, ArtifactTrue, StateOf, FullManifest, RunBlob, Owns;
    OwnsExactly(c, f.blobs, run, f.producer);
    if StateOf(c, g.initialFile).Some? && StateOf(c, g.finalFile).Some? {
      var initial, final := StateOf(c, g.initialFile).value, StateOf(c, g.finalFile).value;
      StateExactly(c, f, run, true, g.initialRef, g.initialFile, initial);
      StateExactly(c, f, run, false, g.finalRef, g.finalFile, final);
      ProducerOwned(c, f, g, run);
      ArtifactNamed(c, f, g, run, final);
      if g.sealedRef.Some? && PhaseClean(c, f, run, FinalPhase, g.finalRef, g.finalFile, final) {
        PhaseIs(c, f, run, FinalPhase, g.finalRef, g.finalFile, final);
        ArtifactExactly(c, f, g, run, final);
      }
    }
  }

  lemma ProducerOwned(c: Codec, f: RunFiles, g: StateFiles, run: string)
    ensures ProducerClean(c, f, g, run) <==>
      f.run.producer == f.producer && f.producer.locator == ProducerManifest && Owns(c, f.blobs, run, f.producer, g.producerFile) &&
      FullManifest(ParsedBlob(c, g.producerFile))
  {
    hide FullManifest;
  }

  lemma ArtifactNamed(c: Codec, f: RunFiles, g: StateFiles, run: string, final: RepoState)
    ensures ArtifactClean(c, f, g, run, final) ==> g.sealedRef.Some?
    ensures forall b :: ArtifactTrue(c, f, g, run, final, b) ==> g.sealedRef.Some?
  {
  }

  lemma PhaseIs(c: Codec, f: RunFiles, run: string, phase: StatePhase, ref: Option<Ref>, file: Blob, state: RepoState)
    ensures PhaseClean(c, f, run, phase, ref, file, state) ==> state.phase == phase
  {
  }

  /** `_load_runtime_producer` and `_audit_repository_states`: nothing is reported exactly when both states, the manifest and
      the sealed artifact are clean, whatever is stored. */
  method AuditStates(c: Codec, f: RunFiles, g: StateFiles, run: string) returns (codes: seq<StateCode>)
    ensures codes == [] <==> StatesClean(c, f, g, run)
    ensures codes == [] <==> StatesTrue(c, f, g, run)
  {
    hide ProducerClean, PhaseClean, ArtifactClean, StateOf, StatesTrue;
    StatesExactly(c, f, g, run);
    var initial, final := StateOf(c, g.initialFile), StateOf(c, g.finalFile);
    if initial.None? || final.None? { return [MalformedEvidence]; }
    var producer := AuditProducer(c, f, g, run);
    var first := AuditPhase(c, f, run, InitialPhase, g.initialRef, g.initialFile, initial.value);
    var last := AuditPhase(c, f, run, FinalPhase, g.finalRef, g.finalFile, final.value);
    var artifact := AuditArtifact(c, f, g, run, final.value);
    codes := producer + first + last + Unless(initial.value.verified, NotVerified) + artifact;
  }
}
