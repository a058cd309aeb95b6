/** Publishing the managed binary and the source override, the identity guard,
    and the snapshot that puts the previous runtime back. */
module ManagedRuntime {
  import opened Outcomes

  type Content = string

  /** What code signing reports of a file. */
  datatype Identity = Unchecked | Absent | Unsigned | Requirement(text: string)

  function RequirementOf(i: Identity): Option<string> { if i.Requirement? then Some(i.text) else None }

  /** The files in play. */
  datatype Path = Bin | Override | Rollback | Record | RecordTmp | BinIncoming | OverrideIncoming | Elsewhere(name: string)

  /** The staging file beside a destination. */
  function Staging(dest: Path): Path { if dest == Bin then BinIncoming else OverrideIncoming }

  type Files = map<Path, Content>

  datatype Guard = Enforce | Skip
  datatype Signing = Never | ConfiguredOnly | ReuseIncumbent

  /** Whether the tool gives an answer each time an identity is read: of the
      incumbent, of the staged file before signing, and of the final file. */
  datatype Reads = Reads(incumbent: bool, staged: bool, incoming: bool)

  function LocalSource(): string { "local_source" }

  datatype RuntimeRecord = RuntimeRecord(kind: string, binary: Path)

  /** The refusal rule: nothing to protect, the same requirement, or an
      operator's explicit permission. */
  predicate Allowed(previous: Identity, incoming: Identity, allowChange: bool) {
    RequirementOf(previous).None? || RequirementOf(incoming) == RequirementOf(previous) || allowChange
  }

  ghost predicate SameAt(a: Files, b: Files, p: Path) { (p in a <==> p in b) && (p in a ==> a[p] == b[p]) }

  ghost predicate SameBut(a: Files, b: Files, p: Path) { a - {p} == b - {p} }

  /** Every intermediate state shows the destination whole, old or new, and no
      other file changed except the scratch file. */
  ghost predicate Whole(was: Files, now: Files, dest: Path, scratch: Path, final: Option<Content>) {
    was - {dest, scratch} == now - {dest, scratch}
    && (SameAt(was, now, dest) || (final.Some? && dest in now && now[dest] == final.value))
  }

  lemma {:induction false} SameButAt(a: Files, b: Files, p: Path, q: Path)
    requires SameBut(a, b, p) && q != p
    ensures SameAt(a, b, q)
  {
    assert q in a <==> q in a - {p};
    assert q in b <==> q in b - {p};
    assert q in a ==> (a - {p})[q] == a[q];
    assert q in b ==> (b - {p})[q] == b[q];
  }

  lemma {:induction false} WholeAt(was: Files, now: Files, dest: Path, scratch: Path, final: Option<Content>, q: Path)
    requires Whole(was, now, dest, scratch, final) && q != dest && q != scratch
    ensures SameAt(was, now, q)
  {
    var s := {dest, scratch};
    assert q in was <==> q in was - s;
    assert q in now <==> q in now - s;
    assert q in was ==> (was - s)[q] == was[q];
    assert q in now ==> (now - s)[q] == now[q];
  }

  ghost predicate AllWhole(was: Files, states: seq<Files>, dest: Path, scratch: Path, final: Option<Content>) {
    forall i :: 0 <= i < |states| ==> Whole(was, states[i], dest, scratch, final)
  }

  ghost predicate AllSameBut(was: Files, states: seq<Files>, p: Path) {
    forall i :: 0 <= i < |states| ==> SameBut(was, states[i], p)
  }

  lemma {:induction false} SameButEdit(was: Files, now: Files, p: Path, content: Content)
    requires SameBut(was, now, p)
    ensures SameBut(was, now[p := content], p) && SameBut(was, now - {p}, p)
  {
  }

  lemma {:induction false} SameButMore(was: Files, states: seq<Files>, now: Files, p: Path)
    requires AllSameBut(was, states, p) && SameBut(was, now, p)
    ensures AllSameBut(was, states + [now], p)
  {
    hide SameBut;
  }

  lemma {:induction false} Nothing(files: Files, p: Path)
    ensures SameBut(files, files, p) && AllSameBut(files, [], p)
  {
  }

  lemma {:induction false} SameButIsWhole(was: Files, now: Files, dest: Path, scratch: Path, final: Option<Content>)
    requires SameBut(was, now, scratch) && dest != scratch
    ensures Whole(was, now, dest, scratch, final) && SameAt(was, now, dest)
  {
    SameButAt(was, now, scratch, dest);
    assert was - {dest, scratch} == (was - {scratch}) - {dest};
    assert now - {dest, scratch} == (now - {scratch}) - {dest};
  }

  lemma {:induction false} StatesWhole(was: Files, states: seq<Files>, dest: Path, scratch: Path, final: Option<Content>)
    requires AllSameBut(was, states, scratch) && dest != scratch
    ensures AllWhole(was, states, dest, scratch, final)
  {
    hide SameBut, Whole;
    forall i | 0 <= i < |states| ensures Whole(was, states[i], dest, scratch, final) {
      SameButIsWhole(was, states[i], dest, scratch, final);
    }
  }

  lemma {:induction false} WholeMore(was: Files, states: seq<Files>, now: Files, dest: Path, scratch: Path, final: Option<Content>)
    requires AllWhole(was, states, dest, scratch, final) && Whole(was, now, dest, scratch, final)
    ensures AllWhole(was, states + [now], dest, scratch, final)
  {
    hide Whole;
  }

  /** Touching only the scratch file leaves every state whole. */
  lemma {:induction false} ScratchIsWhole(was: Files, states: seq<Files>, now: Files, dest: Path, scratch: Path, final: Option<Content>)
    requires AllSameBut(was, states, scratch) && SameBut(was, now, scratch) && dest != scratch
    ensures AllWhole(was, states + [now], dest, scratch, final) && AllWhole(was, states, dest, scratch, final)
    ensures Whole(was, now, dest, scratch, final) && SameAt(was, now, dest)
  {
    hide *;
    SameButIsWhole(was, now, dest, scratch, final);
    StatesWhole(was, states, dest, scratch, final);
    WholeMore(was, states, now, dest, scratch, final);
  }

  /** The rename exposes the whole new file. */
  lemma {:induction false} RenameIsWhole(was: Files, states: seq<Files>, now: Files, dest: Path, scratch: Path, content: Content)
    requires AllSameBut(was, states, scratch) && SameBut(was, now, scratch) && dest != scratch
    ensures Whole(was, (now - {scratch})[dest := content], dest, scratch, Some(content))
    ensures AllWhole(was, states + [(now - {scratch})[dest := content]], dest, scratch, Some(content))
  {
    var after := (now - {scratch})[dest := content];
    assert was - {dest, scratch} == (was - {scratch}) - {dest};
    assert after - {dest, scratch} == (now - {scratch}) - {dest};
    assert Whole(was, after, dest, scratch, Some(content));
    hide *;
    StatesWhole(was, states, dest, scratch, Some(content));
    WholeMore(was, states, after, dest, scratch, Some(content));
  }

  class Home {
    /** The identity of a content, and the record a content holds. */
    const identity: Content -> Identity
    const parse: Content -> Option<RuntimeRecord>
    var files: Files

    constructor (identity: Content -> Identity, parse: Content -> Option<RuntimeRecord>)
      ensures this.identity == identity && this.parse == parse && files == map[]
    {
      this.identity, this.parse, files := identity, parse, map[];
    }

    /** What is read of a path; without an answer nothing is known. */
    function ReadIdentity(path: Path, answers: bool): Identity reads this {
      if path !in files then Absent else if !answers then Unchecked else identity(files[path])
    }

    /** The file carries a requirement that grants may be keyed to. */
    predicate Protected(fs: Files, path: Path) { path in fs && identity(fs[path]).Requirement? }

    /** Copy, set the mode and sign: the staged file is the source's unless it was
        signed again, which happens only where signing is on, and any step may
        fail. */
    method Stage(source: Path, staged: Path, reference: Identity, guard: Guard, signing: Signing, answers: bool)
        returns (ok: bool, resigned: bool, ghost states: seq<Files>)
      requires source in files && source != staged
      modifies this`files
      ensures SameBut(old(files), files, staged) && AllSameBut(old(files), states, staged)
      ensures ok ==> staged in files && (!resigned ==> files[staged] == old(files)[source])
      ensures resigned ==> signing != Never
    {
      resigned := false;
      Nothing(files, staged);
      hide SameBut, AllSameBut;
      ghost var was := files;
      var copied: bool, bytes: Content := *, *;
      var content := files[source];
      SameButEdit(was, files, staged, content);
      files := files - {staged};
      states := [] + [files];
      SameButMore(was, [], files, staged);
      SameButEdit(was, files, staged, if copied then content else bytes);
      files := files[staged := if copied then content else bytes];
      SameButMore(was, states, files, staged);
      states := states + [files];
      var moded: bool := *;
      if !copied || !moded { return false, resigned, states; }
      var stagedIdentity := ReadIdentity(staged, answers);
      var configured: bool, incumbent: bool, signs: bool, rewritten: Content := *, *, *, *;
      var wanted := signing == ReuseIncumbent && guard == Enforce && RequirementOf(reference) != RequirementOf(stagedIdentity);
      if signing != Never && (configured || (wanted && incumbent)) {
        resigned := true;
        SameButEdit(was, files, staged, rewritten);
        files := files[staged := rewritten];
        SameButMore(was, states, files, staged);
        states := states + [files];
        if !signs { return false, resigned, states; }
      }
      ok := true;
    }

    /** Publish by fresh file: stage beside the destination, check the final
        identity, rename. */
    method InstallAt(source: Path, dest: Path, reference: Path, guard: Guard, signing: Signing, reading: Reads, allowChange: bool)
        returns (published: Option<Content>, failed: bool, resigned: bool, ghost states: seq<Files>)
      requires (dest == Bin || dest == Override) && (source.Elsewhere? || source == Rollback) && reference == Bin
      modifies this`files
      ensures AllWhole(old(files), states, dest, Staging(dest), published)
      ensures Whole(old(files), files, dest, Staging(dest), published)
      ensures published.Some? ==> dest in files && files[dest] == published.value
      ensures published.None? ==> SameAt(old(files), files, dest)
      ensures published.Some? && !resigned ==> source in old(files) && published.value == old(files)[source]
      ensures resigned ==> signing != Never
      ensures published.Some? && guard == Enforce && reading.incumbent && !allowChange && Protected(old(files), reference) ==>
        reading.incoming && identity(published.value) == identity(old(files)[reference])
      ensures published.None? && !failed ==> guard == Enforce && reading.incumbent && !allowChange && Protected(old(files), reference)
    {
      ghost var was := files;
      var staged := Staging(dest);
      states, resigned := [], false;
      Nothing(files, staged);
      hide SameBut, AllSameBut, Whole, AllWhole, SameAt;
      if source !in files {
        ScratchIsWhole(was, states, files, dest, staged, None);
        return None, true, false, states;
      }
      var incumbent := ReadIdentity(reference, reading.incumbent);
      var ok: bool;
      ok, resigned, states := Stage(source, staged, incumbent, guard, signing, reading.staged);
      failed := !ok;
      if ok {
        var current := ReadIdentity(staged, reading.incoming);
        var verifies: bool := *;
        failed := current.Requirement? && !verifies;
        ok := !failed && (guard == Enforce ==> Allowed(incumbent, current, allowChange));
      }
      var renames: bool := *;
      failed := failed || (ok && !renames);
      if !ok || !renames {
        var removed: bool := *;
        SameButEdit(was, files, staged, "");
        if removed { files := files - {staged}; }
        ScratchIsWhole(was, states, files, dest, staged, None);
        return None, failed, resigned, states + [files];
      }
      var content := files[staged];
      RenameIsWhole(was, states, files, dest, staged, content);
      files := (files - {staged})[dest := content];
      states := states + [files];
      published := Some(content);
    }

    /** Replace the record: write beside it, rename. */
    method WriteRecord(raw: Content) returns (ok: bool, ghost states: seq<Files>)
      modifies this`files
      ensures AllWhole(old(files), states, Record, RecordTmp, Some(raw))
      ensures Whole(old(files), files, Record, RecordTmp, Some(raw))
      ensures ok ==> Record in files && files[Record] == raw
      ensures !ok ==> SameAt(old(files), files, Record)
    {
      var writes: bool, torn: Content, renames: bool := *, *, *;
      ghost var was := files;
      Nothing(files, RecordTmp);
      hide SameBut, AllSameBut, Whole, AllWhole;
      SameButEdit(was, files, RecordTmp, if writes then raw else torn);
      files := files[RecordTmp := if writes then raw else torn];
      ScratchIsWhole(was, [], files, Record, RecordTmp, Some(raw));
      states := [] + [files];
      if !writes || !renames { return false, states; }
      SameButMore(was, [], files, RecordTmp);
      RenameIsWhole(was, states, files, Record, RecordTmp, raw);
      files := (files - {RecordTmp})[Record := raw];
      states := states + [files];
      ok := true;
    }

    method ClearRecord() returns (ok: bool)
      modifies this`files
      ensures SameBut(old(files), files, Record) && (ok ==> Record !in files)
    {
      var removes: bool := *;
      if Record in files && !removes { return false; }
      files := files - {Record};
      ok := true;
    }

    /** Is this the record of a published source override? */
    ghost predicate Selects(raw: Content) reads this {
      parse(raw) == Some(RuntimeRecord(LocalSource(), Override)) && Override in files
    }

    /** Publish a build as the daemon override and select it. */
    method SetLocalSource(build: Path, raw: Content, reading: Reads, allowChange: bool) returns (ok: bool)
      requires build.Elsewhere? && parse(raw) == Some(RuntimeRecord(LocalSource(), Override))
      modifies this`files
      ensures forall q :: q == Bin || q == Rollback ==> SameAt(old(files), files, q)
      ensures ok ==> Record in files && files[Record] == raw && Selects(files[Record])
      ensures ok && reading.incumbent && !allowChange && Protected(files, Bin) ==> identity(files[Override]) == identity(files[Bin])
    {
      var built: bool := *;
      if !built { return false; }
      ghost var was := files;
      var published, failed, resigned, states := InstallAt(build, Override, Bin, Enforce, ReuseIncumbent, reading, allowChange);
      hide Whole, AllWhole;
      ghost var middle := files;
      WholeAt(was, files, Override, OverrideIncoming, published, Bin);
      WholeAt(was, files, Override, OverrideIncoming, published, Rollback);
      if published.None? { return false; }
      ok, states := WriteRecord(raw);
      WholeAt(middle, files, Record, RecordTmp, Some(raw), Bin);
      WholeAt(middle, files, Record, RecordTmp, Some(raw), Rollback);
      WholeAt(middle, files, Record, RecordTmp, Some(raw), Override);
    }

    // ---- the snapshot ----

    /** Remember the record's bytes, and keep a copy of the managed binary when
        the record selects it. */
    method Capture() returns (snapshot: Option<Snapshot>)
      modifies this`files
      ensures SameBut(old(files), files, Rollback)
      ensures snapshot.Some? ==> snapshot.value.raw == (if Record in files then Some(files[Record]) else None)
      ensures snapshot.Some? && Record in files && Selects(files[Record]) ==> snapshot.value.backup
      ensures snapshot.Some? && snapshot.value.backup ==>
        snapshot.value.raw.Some? && Override in files && Rollback in files && files[Rollback] == files[Override]
    {
      var raw := if Record in files then Some(files[Record]) else None;
      var record := if raw.Some? then parse(raw.value) else None;
      var managed := record.Some? && record.value.binary == Override && Override in files;
      if managed {
        var copies: bool, torn: Content := *, *;
        if !copies {
          files := files[Rollback := torn];
          return None;
        }
        files := files[Rollback := files[Override]];
      }
      snapshot := Some(Snapshot(raw, managed));
    }

    /** Put back what the snapshot holds: the binary first, then the record. */
    method Restore(snapshot: Snapshot) returns (ok: bool)
      modifies this`files
      ensures SameAt(old(files), files, Bin)
      ensures ok ==> (if Record in files then Some(files[Record]) else None) == snapshot.raw
      ensures ok && snapshot.backup ==> Rollback in old(files) && Override in files && files[Override] == old(files)[Rollback]
      ensures ok && !snapshot.backup && snapshot.raw.None? ==> Override !in files
      ensures ok && !snapshot.backup && snapshot.raw.Some? ==> SameAt(old(files), files, Override)
    {
      hide Whole, AllWhole;
      ghost var was := files;
      if snapshot.backup {
        var reading: Reads, allowChange: bool := *, *;
        var published, failed, resigned, states := InstallAt(Rollback, Override, Bin, Skip, Never, reading, allowChange);
        WholeAt(was, files, Override, OverrideIncoming, published, Bin);
        WholeAt(was, files, Override, OverrideIncoming, published, Record);
        if published.None? { return false; }
      } else if snapshot.raw.None? {
        var removes: bool := *;
        if Override in files && !removes { return false; }
        files := files - {Override};
      }
      ghost var middle := files;
      if snapshot.raw.Some? {
        ghost var states;
        ok, states := WriteRecord(snapshot.raw.value);
        WholeAt(middle, files, Record, RecordTmp, snapshot.raw, Bin);
        WholeAt(middle, files, Record, RecordTmp, snapshot.raw, Override);
      } else {
        ok := ClearRecord();
        SameButAt(middle, files, Record, Bin);
        SameButAt(middle, files, Record, Override);
      }
      if ok && snapshot.backup {
        var discarded: bool := *;
        if discarded { files := files - {Rollback}; }
      }
    }
  }

  datatype Snapshot = Snapshot(raw: Option<Content>, backup: bool)

  /** What the guard lets through when the incumbent carries a requirement: the
      same identity if both are read, a permitted change, or anything at all
      while the incumbent's identity cannot be read. */
  lemma {:induction false} GuardExact(incumbent: Identity, incoming: Identity, reading: Reads, allowChange: bool)
    requires incumbent.Requirement?
    ensures Allowed(if reading.incumbent then incumbent else Unchecked, if reading.incoming then incoming else Unchecked, allowChange)
      <==> !reading.incumbent || allowChange || (reading.incoming && incoming == incumbent)
  {
  }

  // ---- runs ----

  /** What may happen to a home: an update, a switch to a source build, a
      return to the installed runtime. */
  datatype Op =
    | Update(build: string, signing: Signing, reading: Reads, allowChange: bool)
    | FromSource(build: string, raw: Content, reading: Reads, allowChange: bool)
    | ClearOverride

  /** An update that reads the incumbent's identity, and no operator permits a
      change. */
  predicate Guarded(op: Op) { op.Update? ==> op.reading.incumbent && !op.allowChange }

  predicate AllGuarded(ops: seq<Op>) { forall i :: 0 <= i < |ops| ==> Guarded(ops[i]) }

  predicate OpOk(home: Home, op: Op) {
    op.FromSource? ==> home.parse(op.raw) == Some(RuntimeRecord(LocalSource(), Override))
  }

  /** The requirement of the managed binary is what it was. */
  ghost predicate KeepsRequirement(home: Home, was: Files, now: Files) {
    home.Protected(was, Bin) ==> Bin in now && home.identity(now[Bin]) == home.identity(was[Bin])
  }

  method Apply(home: Home, op: Op)
    requires OpOk(home, op)
    modifies home`files
    ensures SameAt(old(home.files), home.files, Rollback)
    ensures Guarded(op) ==> KeepsRequirement(home, old(home.files), home.files)
  {
    ghost var was := home.files;
    match op {
      case Update(build, signing, reading, allowChange) =>
        var published, failed, resigned, states := home.InstallAt(Elsewhere(build), Bin, Bin, Enforce, signing, reading, allowChange);
        hide Whole, AllWhole;
        assert Whole(was, home.files, Bin, BinIncoming, published);
        WholeAt(was, home.files, Bin, BinIncoming, published, Rollback);
      case FromSource(build, raw, reading, allowChange) =>
        var ok := home.SetLocalSource(Elsewhere(build), raw, reading, allowChange);
        assert SameAt(was, home.files, Bin);
      case ClearOverride =>
        var ok := home.ClearRecord();
        SameButAt(was, home.files, Record, Rollback);
        SameButAt(was, home.files, Record, Bin);
    }
  }

  /** Over every run whose updates read the incumbent's identity, with no change
      permitted, the managed binary keeps its requirement once it has one; over
      every run at all the rollback copy is not touched. */
  method ApplyAll(home: Home, ops: seq<Op>)
    requires forall i :: 0 <= i < |ops| ==> OpOk(home, ops[i])
    modifies home`files
    ensures SameAt(old(home.files), home.files, Rollback)
    ensures AllGuarded(ops) ==> KeepsRequirement(home, old(home.files), home.files)
  {
    var i := 0;
    while i < |ops|
      invariant 0 <= i <= |ops|
      invariant SameAt(old(home.files), home.files, Rollback)
      invariant AllGuarded(ops) ==> KeepsRequirement(home, old(home.files), home.files)
    {
      Apply(home, ops[i]);
      i := i + 1;
    }
  }

  /** The failing case: an update to a build with another identity, unsigned by
      the installer. While the incumbent's identity is read it is refused; while
      it cannot be read, nothing but a failing step stops it, and the managed
      binary has lost its requirement. */
  method UnreadLosesRequirement(home: Home, build: string, reading: Reads) returns (published: bool, failed: bool)
    requires home.Protected(home.files, Bin) && Elsewhere(build) in home.files
    requires home.identity(home.files[Elsewhere(build)]) != home.identity(home.files[Bin])
    modifies home`files
    ensures reading.incumbent ==> !published && KeepsRequirement(home, old(home.files), home.files)
    ensures !reading.incumbent && !failed ==> published && !KeepsRequirement(home, old(home.files), home.files)
  {
    var content, resigned;
    ghost var states;
    content, failed, resigned, states := home.InstallAt(Elsewhere(build), Bin, Bin, Enforce, Never, reading, false);
    published := content.Some?;
  }

  /** A candidate that is rolled back: whatever was tried in between, the
      record is what it was at the capture, a managed binary it selected has its
      bytes back, and without a record no override binary is left. */
  method TryAndRestore(home: Home, ops: seq<Op>) returns (restored: bool)
    requires forall i :: 0 <= i < |ops| ==> OpOk(home, ops[i])
    modifies home`files
    ensures AllGuarded(ops) ==> KeepsRequirement(home, old(home.files), home.files)
    ensures restored ==> SameAt(old(home.files), home.files, Record)
    ensures restored && Record in home.files && old(Record in home.files && home.Selects(home.files[Record])) ==>
      Override in home.files && home.files[Override] == old(home.files)[Override]
    ensures restored && Record !in home.files ==> Override !in home.files
  {
    ghost var was := home.files;
    var snapshot := home.Capture();
    SameButAt(was, home.files, Rollback, Record);
    SameButAt(was, home.files, Rollback, Override);
    SameButAt(was, home.files, Rollback, Bin);
    if snapshot.None? { return false; }
    ApplyAll(home, ops);
    restored := home.Restore(snapshot.value);
  }
}
