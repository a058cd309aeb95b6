/** Optional and hub content: two registries that share the loader files of one
    file tree. */
module ContentLifecycle {
  import opened Outcomes
  import ForumText
  import Text

  type Content = string

  datatype Entry = Entry(family: string, name: string, materialized: seq<string>)

  /** A package: one file, or a directory with its direct `.org` files. */
  datatype Source = SingleFile(file: string, content: Content) | Directory(files: seq<(string, Content)>) | Missing

  datatype Which = Optional | Hub

  function Other(which: Which): Which { if which == Optional then Hub else Optional }

  function RegistryFile(which: Which): string { if which == Optional then "optional.org" else "hub.org" }

  /** The directory of a hub package's checkout. */
  function Target(family: string, name: string): string { family + "/" + name }

  predicate Supported(family: string) {
    family == "skills" || family == "prompt-specs" || family == "prompt-parts" || family == "context-packs"
  }

  predicate NameOk(name: string) {
    name != "" && name != "." && name != ".." && forall i :: 0 <= i < |name| ==>
      name[i] != '/' && name[i] != '\\' && !Text.IsSpace(name[i])
  }

  function LoaderBase(family: string): string {
    if family == "skills" then family else "prompt-studio/" + family
  }

  function Rel(family: string, file: string): string { LoaderBase(family) + "/" + file }

  function Files(source: Source): seq<(string, Content)> {
    match source
    case SingleFile(file, content) => [(file, content)]
    case Directory(files) => files
    case Missing => []
  }

  function Rels(family: string, files: seq<(string, Content)>): (rels: seq<string>)
    ensures |rels| == |files| && forall i :: 0 <= i < |files| ==> rels[i] == Rel(family, files[i].0)
  {
    seq(|files|, i requires 0 <= i < |files| => Rel(family, files[i].0))
  }

  // ---- the registry file ----

  /** The paths joined by spaces and split at white space. */
  function Tokens(rels: seq<string>): (words: seq<string>)
    ensures Plain(words)
  {
    ForumText.Words(Text.Join(rels, " "))
  }

  /** What reading returns of an entry that was written. */
  function Reread(e: Entry): Entry { e.(materialized := Tokens(e.materialized)) }

  predicate Plain(rels: seq<string>) { forall i :: 0 <= i < |rels| ==> ForumText.IsWord(rels[i]) }

  /** An entry is read back as written if and only if no path holds white space. */
  lemma {:induction false} RereadExact(e: Entry)
    ensures Reread(e) == e <==> Plain(e.materialized)
  {
    hide ForumText.IsWord, ForumText.Words;
    if Plain(e.materialized) { ForumText.WordsOfJoin(e.materialized); }
  }

  function Position(entries: seq<Entry>, family: string, name: string): (i: Option<nat>)
    ensures i.Some? ==> i.value < |entries| && entries[i.value].family == family && entries[i.value].name == name
    ensures i.None? ==> forall k :: 0 <= k < |entries| ==> entries[k].family != family || entries[k].name != name
  {
    if entries == [] then None
    else if entries[0].family == family && entries[0].name == name then Some(0)
    else
      var rest := Position(entries[1..], family, name);
      if rest.Some? then Some(rest.value + 1) else None
  }

  /** Replace the entry of the same family and name, or add one. */
  function Upsert(entries: seq<Entry>, e: Entry): seq<Entry> {
    var i := Position(entries, e.family, e.name);
    if i.Some? then entries[i.value := e] else entries + [e]
  }

  function Existing(entries: seq<Entry>, family: string, name: string): Option<Entry> {
    var i := Position(entries, family, name);
    if i.Some? then Some(entries[i.value]) else None
  }

  predicate Owned(existing: Option<Entry>, rel: string) { existing.Some? && rel in existing.value.materialized }

  // ---- ownership ----

  ghost predicate Listed(entries: seq<Entry>, rel: string) {
    exists i :: 0 <= i < |entries| && rel in entries[i].materialized
  }

  /** No path is listed by two entries. */
  ghost predicate Disjoint(entries: seq<Entry>) {
    forall i, j, rel :: 0 <= i < j < |entries| && rel in entries[i].materialized ==> rel !in entries[j].materialized
  }

  ghost predicate Present(entries: seq<Entry>, files: map<string, Content>) {
    forall i, rel :: 0 <= i < |entries| && rel in entries[i].materialized ==> rel in files
  }

  ghost predicate Apart(a: seq<Entry>, b: seq<Entry>) {
    forall rel :: Listed(a, rel) ==> !Listed(b, rel)
  }

  predicate AllPlain(entries: seq<Entry>) { forall i :: 0 <= i < |entries| ==> Plain(entries[i].materialized) }

  /** Both registries list existing files, no file twice, and only paths that
      survive the registry's format. */
  ghost predicate Inv(files: map<string, Content>, optional: seq<Entry>, hub: seq<Entry>) {
    Disjoint(optional) && Disjoint(hub) && Apart(optional, hub) && Present(optional, files) && Present(hub, files)
    && AllPlain(optional) && AllPlain(hub)
  }

  /** The files after the first `n` copies. */
  function Copied(files: map<string, Content>, family: string, fs: seq<(string, Content)>): map<string, Content> {
    if fs == [] then files
    else Copied(files, family, fs[..|fs| - 1])[Rel(family, fs[|fs| - 1].0) := fs[|fs| - 1].1]
  }

  /** Only paths of the existing registration or new paths were written, and
      nothing was removed. */
  ghost predicate OnlyOwned(was: map<string, Content>, now: map<string, Content>, existing: Option<Entry>) {
    forall p :: p in was ==> p in now && (now[p] == was[p] || Owned(existing, p))
  }

  /** Every path was free or owned before. */
  ghost predicate Free(was: map<string, Content>, rels: seq<string>, existing: Option<Entry>) {
    forall i :: 0 <= i < |rels| ==> rels[i] !in was || Owned(existing, rels[i])
  }

  lemma {:induction false} CopiedKeys(files: map<string, Content>, family: string, fs: seq<(string, Content)>, p: string)
    ensures p in Copied(files, family, fs) <==> p in files || p in Rels(family, fs)
    ensures p in files && p !in Rels(family, fs) ==> Copied(files, family, fs)[p] == files[p]
  {
    hide Rel;
    if fs != [] {
      var n := |fs| - 1;
      CopiedKeys(files, family, fs[..n], p);
      assert Rels(family, fs) == Rels(family, fs[..n]) + [Rel(family, fs[n].0)];
    }
  }

  /** The last file of its name. */
  predicate LastNamed(fs: seq<(string, Content)>, i: nat)
    requires i < |fs|
  {
    forall k :: i < k < |fs| ==> fs[k].0 != fs[i].0
  }

  lemma {:induction false} SameRel(family: string, a: string, b: string)
    ensures Rel(family, a) == Rel(family, b) <==> a == b
  {
    var base := LoaderBase(family) + "/";
    hide LoaderBase;
    assert (base + a)[|base|..] == a && (base + b)[|base|..] == b;
  }

  /** After the copies every file of the package has its own content. */
  lemma {:induction false} CopiedContents(files: map<string, Content>, family: string, fs: seq<(string, Content)>, i: nat)
    requires i < |fs| && LastNamed(fs, i)
    ensures Rel(family, fs[i].0) in Copied(files, family, fs) && Copied(files, family, fs)[Rel(family, fs[i].0)] == fs[i].1
  {
    var n := |fs| - 1;
    hide Rel;
    if i < n {
      SameRel(family, fs[i].0, fs[n].0);
      CopiedContents(files, family, fs[..n], i);
    }
  }

  /** The place an entry of this package has or will get. */
  function At(entries: seq<Entry>, family: string, name: string): (at: nat)
    ensures at <= |entries|
  {
    var i := Position(entries, family, name);
    if i.Some? then i.value else |entries|
  }

  ghost predicate Elsewhere(entries: seq<Entry>, at: nat, rel: string) {
    exists i :: 0 <= i < |entries| && i != at && rel in entries[i].materialized
  }

  /** These paths exist, and no other entry of either registry lists one. */
  ghost predicate Fits(now: map<string, Content>, entries: seq<Entry>, other: seq<Entry>, family: string, name: string,
                       words: seq<string>)
  {
    forall w :: w in words ==> w in now && !Listed(other, w) && !Elsewhere(entries, At(entries, family, name), w)
  }

  lemma {:induction false} UpsertListed(entries: seq<Entry>, e: Entry, rel: string)
    ensures Listed(Upsert(entries, e), rel) <==> rel in e.materialized || Elsewhere(entries, At(entries, e.family, e.name), rel)
  {
    hide Position;
    var at, all := At(entries, e.family, e.name), Upsert(entries, e);
    assert all[at] == e;
    if Listed(all, rel) {
      var i :| 0 <= i < |all| && rel in all[i].materialized;
      if i != at { assert all[i] == entries[i]; }
    }
    if Elsewhere(entries, at, rel) {
      var i :| 0 <= i < |entries| && i != at && rel in entries[i].materialized;
      assert all[i] == entries[i];
    }
  }

  lemma {:induction false} ElsewhereListed(entries: seq<Entry>, at: nat, rel: string)
    requires Elsewhere(entries, at, rel)
    ensures Listed(entries, rel)
  {
  }

  lemma {:induction false} UpsertDisjoint(entries: seq<Entry>, e: Entry)
    requires Disjoint(entries)
    ensures Disjoint(Upsert(entries, e)) <==> forall w :: w in e.materialized ==> !Elsewhere(entries, At(entries, e.family, e.name), w)
  {
    hide Position;
    var at, all := At(entries, e.family, e.name), Upsert(entries, e);
    assert all[at] == e && forall i :: 0 <= i < |entries| && i != at ==> all[i] == entries[i];
    if Disjoint(all) {
      forall w, i | w in e.materialized && 0 <= i < |entries| && i != at ensures w !in entries[i].materialized {
        assert w in all[at].materialized && w !in all[i].materialized;
      }
    }
  }

  /** Replacing or adding an entry keeps both registries consistent if and only
      if its paths exist and no other entry lists one of them. */
  lemma {:induction false} UpsertKeeps(was: map<string, Content>, now: map<string, Content>, entries: seq<Entry>, other: seq<Entry>,
                                       e: Entry)
    requires Inv(was, entries, other) && Plain(e.materialized) && forall p :: p in was ==> p in now
    ensures Inv(now, Upsert(entries, e), other) <==> Fits(now, entries, other, e.family, e.name, e.materialized)
  {
    var at, all := At(entries, e.family, e.name), Upsert(entries, e);
    UpsertDisjoint(entries, e);
    assert AllPlain(all) by { hide Plain, Position; }
    PresentLater(other, was, now);
    PresentLater(entries, was, now);
    hide Disjoint, Present, AllPlain, Upsert, At, Plain;
    PresentByListed(entries, now);
    PresentByListed(all, now);
    forall rel ensures Listed(all, rel) <==> rel in e.materialized || Elsewhere(entries, at, rel) { UpsertListed(entries, e, rel); }
    forall rel | Elsewhere(entries, at, rel) ensures Listed(entries, rel) { ElsewhereListed(entries, at, rel); }
    hide Listed, Elsewhere;
  }

  lemma {:induction false} PresentLater(entries: seq<Entry>, was: map<string, Content>, now: map<string, Content>)
    requires Present(entries, was) && forall p :: p in was ==> p in now
    ensures Present(entries, now)
  {
  }

  /** The files of the package are there, each with its own content. */
  predicate HasPackage(files: map<string, Content>, family: string, fs: seq<(string, Content)>) {
    forall k :: 0 <= k < |fs| && LastNamed(fs, k) ==> Rel(family, fs[k].0) in files && files[Rel(family, fs[k].0)] == fs[k].1
  }

  // ---- the code ----

  /** The files below the user directory, and the two registry files there as
      reading returns them. */
  class ContentStore {
    var files: map<string, Content>
    var optional: seq<Entry>
    var hub: seq<Entry>

    function Registry(which: Which): seq<Entry> reads this { if which == Optional then optional else hub }

    /** Refuse to overwrite what this registration does not own. A copy that
        fails may leave any content behind, at its own destination only. */
    method CopyMaterialized(rel: string, content: Content, existing: Option<Entry>) returns (ok: bool)
      modifies this`files
      ensures ok ==> files == old(files)[rel := content]
      ensures OnlyOwned(old(files), files, existing)
      ensures ok ==> rel !in old(files) || Owned(existing, rel)
    {
      if rel in files && !Owned(existing, rel) { return false; }
      var copies: bool, torn: bool, junk: Content := *, *, *;
      if !copies {
        if torn { files := files[rel := junk]; }
        return false;
      }
      files := files[rel := content];
      ok := true;
    }

    method MaterializePackage(family: string, name: string, source: Source, existing: Option<Entry>) returns (r: Option<seq<string>>)
      modifies this`files
      ensures OnlyOwned(old(files), files, existing)
      ensures r.Some? ==> r.value == Rels(family, Files(source)) && r.value != [] && Free(old(files), r.value, existing)
      ensures r.Some? ==> files == Copied(old(files), family, Files(source))
      ensures r.Some? ==> Supported(family) && NameOk(name)
      ensures r.Some? ==> HasPackage(files, family, Files(source))
    {
      hide Rel;
      if !Supported(family) || !NameOk(name) || source.Missing? { return None; }
      var fs := Files(source);
      var i := 0;
      assert fs[..0] == [];
      while i < |fs|
        invariant 0 <= i <= |fs|
        invariant OnlyOwned(old(files), files, existing) && files == Copied(old(files), family, fs[..i])
        invariant forall k :: 0 <= k < i ==> Rel(family, fs[k].0) !in old(files) || Owned(existing, Rel(family, fs[k].0))
      {
        assert fs[..i + 1][..i] == fs[..i];
        var ok := CopyMaterialized(Rel(family, fs[i].0), fs[i].1, existing);
        if !ok { return None; }
        i := i + 1;
      }
      assert fs[..i] == fs;
      if fs == [] { return None; }
      forall k | 0 <= k < |fs| && LastNamed(fs, k) ensures Rel(family, fs[k].0) in files && files[Rel(family, fs[k].0)] == fs[k].1 {
        CopiedContents(old(files), family, fs, k);
      }
      r := Some(Rels(family, fs));
    }

    method SetRegistry(which: Which, entries: seq<Entry>)
      modifies this`optional, this`hub
      ensures Registry(which) == entries && Registry(Other(which)) == old(Registry(Other(which)))
    {
      if which == Optional { optional := entries; } else { hub := entries; }
    }

    /** Writing the registry; every entry is what a later read returns. A write
        that fails after truncating the file leaves any entries behind; if what
        it leaves cannot be read at all, the commands on it fail, as they may
        with no entries. */
    method WriteRegistry(which: Which, entries: seq<Entry>) returns (ok: bool, torn: bool)
      modifies this`optional, this`hub
      ensures ok ==> !torn && Registry(which) == RereadAll(entries)
      ensures !ok && !torn ==> Registry(which) == old(Registry(which))
      ensures torn ==> AllPlain(Registry(which))
      ensures Registry(Other(which)) == old(Registry(Other(which)))
    {
      var opens: bool, writes: bool, junk: seq<Entry> := *, *, *;
      if !opens { return false, false; }
      if !writes {
        SetRegistry(which, RereadAll(junk));
        RereadAllPlain(junk);
        return false, true;
      }
      SetRegistry(which, RereadAll(entries));
      return true, false;
    }

    /** `enable` and `hub install`: copy the package and record it. Files that
        no entry lists are never touched, whether it succeeds or fails part
        way; nothing is ever removed. */
    method Install(which: Which, family: string, name: string, source: Source) returns (ok: bool, torn: bool)
      modifies this
      ensures OnlyOwned(old(files), files, Existing(old(Registry(which)), family, name))
      ensures ok ==> !torn && Registry(which) == RereadAll(Upsert(old(Registry(which)), Entry(family, name, Rels(family, Files(source)))))
      ensures ok ==> files == Copied(old(files), family, Files(source))
      ensures ok ==> Free(old(files), Rels(family, Files(source)), Existing(old(Registry(which)), family, name))
      ensures ok ==> Supported(family) && NameOk(name) && HasPackage(files, family, Files(source))
      ensures ok && which == Hub ==> Target(family, name) !in old(files)
      ensures !ok && !torn ==> Registry(which) == old(Registry(which))
      ensures torn ==> AllPlain(Registry(which))
      ensures Registry(Other(which)) == old(Registry(Other(which)))
    {
      hide OnlyOwned, Free, Copied, Rel, AllPlain, RereadAll, Upsert, HasPackage, Supported, NameOk;
      ok, torn := false, false;
      if which == Hub {
        var cloned: bool := *;
        if Target(family, name) in files || !cloned {
          Untouched(files, Existing(Registry(which), family, name));
          return;
        }
      }
      var entries := Registry(which);
      var materialized := MaterializePackage(family, name, source, Existing(entries, family, name));
      if materialized.None? { return; }
      ok, torn := WriteRegistry(which, Upsert(entries, Entry(family, name, materialized.value)));
    }

    /** Delete one listed file. A path read back from the registry can be that
        of a registry. */
    method RemoveFile(rel: string) returns (ok: bool)
      modifies this
      ensures files == old(files) || files == old(files) - {rel}
      ensures ok ==> files == old(files) - {rel}
      ensures forall w :: Registry(w) == old(Registry(w)) || (rel == RegistryFile(w) && Registry(w) == [])
    {
      var removable: bool, pruned: bool := *, *;
      if !removable { return false; }
      files := files - {rel};
      if rel == RegistryFile(Optional) { optional := []; }
      if rel == RegistryFile(Hub) { hub := []; }
      ok := pruned;
    }

    /** Delete the listed files but the checkout of a hub package. */
    method RemoveMaterialization(rels: seq<string>, checkout: Option<string>) returns (ok: bool)
      modifies this
      ensures files == old(files) - (old(files).Keys - files.Keys)
      ensures forall p :: p in old(files) && p !in files ==> p in rels
      ensures ok ==> forall p :: p in rels ==> p !in files || checkout == Some(p)
      ensures forall w :: Lost(old(Registry(w)), Registry(w), RegistryFile(w), rels)
    {
      var i := 0;
      while i < |rels|
        invariant 0 <= i <= |rels| && files == old(files) - (old(files).Keys - files.Keys)
        invariant forall p :: p in old(files) && p !in files ==> p in rels[..i]
        invariant forall p :: p in rels[..i] ==> p !in files || checkout == Some(p)
        invariant forall w :: Lost(old(Registry(w)), Registry(w), RegistryFile(w), rels)
      {
        assert rels[..i + 1] == rels[..i] + [rels[i]];
        if checkout != Some(rels[i]) {
          var removed := RemoveFile(rels[i]);
          if !removed { return false; }
        }
        i := i + 1;
      }
      assert rels[..i] == rels;
      ok := true;
    }

    /** `disable` and `hub remove`: delete the listed files, then the entry. A
        failure may come after some of the deletions. The checkout of a hub
        package is removed as a directory. */
    method Remove(which: Which, index: nat) returns (ok: bool, torn: bool)
      requires index < |Registry(which)|
      modifies this
      ensures ok ==> !torn && Registry(which) == RereadAll(Without(old(Registry(which)), index))
      ensures ok ==> files == old(files) - Set(old(Registry(which))[index].materialized)
      ensures files == old(files) - (old(files).Keys - files.Keys)
      ensures forall p :: p in old(files) && p !in files ==> p in old(Registry(which))[index].materialized
      ensures Lost(old(Registry(Other(which))), Registry(Other(which)), RegistryFile(Other(which)),
                   old(Registry(which))[index].materialized)
      ensures !ok && !torn ==>
        Lost(old(Registry(which)), Registry(which), RegistryFile(which), old(Registry(which))[index].materialized)
      ensures torn ==> AllPlain(Registry(which))
    {
      hide AllPlain, RereadAll, Without, RegistryFile;
      torn := false;
      var entries := Registry(which);
      var checkout := if which == Hub then Some(Target(entries[index].family, entries[index].name)) else None;
      ok := RemoveMaterialization(entries[index].materialized, checkout);
      if ok && which == Hub {
        var gone: bool := *;
        ok := gone && checkout.value !in files;
      }
      if ok { ok, torn := WriteRegistry(which, Without(entries, index)); }
    }
  }

  /** A registry that is unchanged, or gone because its file was listed. */
  predicate Lost(was: seq<Entry>, now: seq<Entry>, file: string, rels: seq<string>) {
    now == was || (now == [] && file in rels)
  }

  function RereadAll(entries: seq<Entry>): (r: seq<Entry>)
    ensures |r| == |entries|
  {
    seq(|entries|, i requires 0 <= i < |entries| => Reread(entries[i]))
  }

  function Without(entries: seq<Entry>, index: nat): seq<Entry>
    requires index < |entries|
  {
    entries[..index] + entries[index + 1..]
  }

  function Set(rels: seq<string>): set<string> { set rel | rel in rels }

  lemma {:induction false} Untouched(files: map<string, Content>, existing: Option<Entry>)
    ensures OnlyOwned(files, files, existing)
  {
  }

  // ---- what one command keeps ----

  lemma {:induction false} RereadAllExact(entries: seq<Entry>)
    requires AllPlain(entries)
    ensures RereadAll(entries) == entries
  {
    hide Plain, Reread;
    forall i | 0 <= i < |entries| ensures Reread(entries[i]) == entries[i] { RereadExact(entries[i]); }
  }

  lemma {:induction false} RereadUpsert(entries: seq<Entry>, e: Entry)
    requires AllPlain(entries)
    ensures RereadAll(Upsert(entries, e)) == Upsert(entries, Reread(e))
  {
    assert Reread(e).family == e.family && Reread(e).name == e.name;
    hide Plain, Reread, Position;
    RereadAllExact(entries);
    var at, all := At(entries, e.family, e.name), Upsert(entries, e);
    forall i | 0 <= i < |all| ensures Reread(all[i]) == Upsert(entries, Reread(e))[i] {
      if i != at { assert all[i] == entries[i] == RereadAll(entries)[i]; }
    }
  }

  /** A successful installation keeps the invariant if and only if what reading
      returns of its paths exists and is listed by no other entry, as it does
      for names without white space. */
  lemma {:induction false} InstallKeepsInv(was: map<string, Content>, entries: seq<Entry>, other: seq<Entry>, family: string,
                                           name: string, fs: seq<(string, Content)>)
    requires Inv(was, entries, other)
    ensures Inv(Copied(was, family, fs), RereadAll(Upsert(entries, Entry(family, name, Rels(family, fs)))), other)
        <==> Fits(Copied(was, family, fs), entries, other, family, name, Tokens(Rels(family, fs)))
    ensures Plain(Rels(family, fs)) && Free(was, Rels(family, fs), Existing(entries, family, name)) ==>
      Fits(Copied(was, family, fs), entries, other, family, name, Tokens(Rels(family, fs)))
  {
    var e, now := Entry(family, name, Rels(family, fs)), Copied(was, family, fs);
    forall p ensures (p in was ==> p in now) && (p in e.materialized ==> p in now) {
      hide Rel, Copied, Rels;
      CopiedKeys(was, family, fs, p);
    }
    RereadUpsert(entries, e);
    RereadExact(e);
    hide Rel, Rels, Copied, Upsert, RereadAll, Tokens;
    UpsertKeeps(was, now, entries, other, Reread(e));
    if Plain(e.materialized) && Free(was, e.materialized, Existing(entries, family, name)) {
      FreeFits(was, now, entries, other, e);
    }
  }

  lemma {:induction false} FreeFits(was: map<string, Content>, now: map<string, Content>, entries: seq<Entry>, other: seq<Entry>, e: Entry)
    requires Inv(was, entries, other) && Free(was, e.materialized, Existing(entries, e.family, e.name))
    requires forall p :: p in e.materialized ==> p in now
    ensures Fits(now, entries, other, e.family, e.name, e.materialized)
  {
    var at := At(entries, e.family, e.name);
    hide Position;
    PresentByListed(entries, was);
    PresentByListed(other, was);
    forall w | w in e.materialized ensures !Listed(other, w) && !Elsewhere(entries, at, w) {
      if Elsewhere(entries, at, w) { ElsewhereListed(entries, at, w); }
      if w in was { assert w in entries[at].materialized && Listed(entries, w); }
    }
  }

  /** A failed installation keeps it in any case: what it copied is listed by
      nobody. */
  lemma {:induction false} FailedInstallKeepsInv(was: map<string, Content>, now: map<string, Content>, optional: seq<Entry>,
                                                 hub: seq<Entry>, existing: Option<Entry>)
    requires Inv(was, optional, hub) && OnlyOwned(was, now, existing)
    ensures Inv(now, optional, hub)
  {
    hide Disjoint, Apart, Present, AllPlain;
    PresentLater(optional, was, now);
    PresentLater(hub, was, now);
  }

  lemma {:induction false} WithoutListed(entries: seq<Entry>, index: nat, rel: string)
    requires index < |entries| && Listed(Without(entries, index), rel)
    ensures Listed(entries, rel) && (Disjoint(entries) ==> rel !in entries[index].materialized)
  {
    var i :| 0 <= i < |Without(entries, index)| && rel in Without(entries, index)[i].materialized;
    var k := if i < index then i else i + 1;
    assert Without(entries, index)[i] == entries[k];
  }

  lemma {:induction false} WithoutKeeps(entries: seq<Entry>, index: nat)
    requires index < |entries| && Disjoint(entries) && AllPlain(entries)
    ensures Disjoint(Without(entries, index)) && AllPlain(Without(entries, index))
    ensures RereadAll(Without(entries, index)) == Without(entries, index)
  {
    hide Plain;
    var rest := Without(entries, index);
    forall i | 0 <= i < |rest| ensures rest[i] == entries[if i < index then i else i + 1] { }
    assert AllPlain(rest);
    assert Disjoint(rest);
    hide *;
    RereadAllExact(rest);
  }

  lemma {:induction false} PresentByListed(entries: seq<Entry>, files: map<string, Content>)
    ensures Present(entries, files) <==> forall rel :: Listed(entries, rel) ==> rel in files
  {
    if Present(entries, files) {
      forall rel | Listed(entries, rel) ensures rel in files { }
    }
    if forall rel :: Listed(entries, rel) ==> rel in files {
      forall i, rel | 0 <= i < |entries| && rel in entries[i].materialized ensures rel in files { assert Listed(entries, rel); }
    }
  }

  lemma {:induction false} EntryListed(entries: seq<Entry>, index: nat)
    requires index < |entries|
    ensures forall rel :: rel in entries[index].materialized ==> Listed(entries, rel)
  {
  }

  /** A completed removal keeps the invariant. */
  lemma {:induction false} RemoveKeepsInv(was: map<string, Content>, entries: seq<Entry>, other: seq<Entry>, index: nat)
    requires index < |entries| && Inv(was, entries, other)
    ensures Inv(was - Set(entries[index].materialized), RereadAll(Without(entries, index)), other)
  {
    var now, rest := was - Set(entries[index].materialized), Without(entries, index);
    WithoutKeeps(entries, index);
    hide Disjoint, AllPlain, Present, Without, RereadAll;
    PresentByListed(entries, was);
    PresentByListed(other, was);
    PresentByListed(rest, now);
    PresentByListed(other, now);
    forall rel | Listed(rest, rel) ensures rel in now && !Listed(other, rel) { WithoutListed(entries, index, rel); }
    EntryListed(entries, index);
    hide Listed;
    forall rel | Listed(other, rel) ensures rel in now { }
  }

  /** A failed removal keeps it if and only if it deleted nothing: the entry
      still lists what is gone. */
  lemma {:induction false} FailedRemove(was: map<string, Content>, now: map<string, Content>, entries: seq<Entry>, other: seq<Entry>,
                                        index: nat)
    requires index < |entries| && Inv(was, entries, other)
    requires now == was - (was.Keys - now.Keys)
    requires forall p :: p in was && p !in now ==> p in entries[index].materialized
    ensures Inv(now, entries, other) <==> now == was
  {
    hide Disjoint, Apart, AllPlain;
    if now != was {
      var p :| p in was && p !in now;
      assert p in entries[index].materialized;
    }
  }

  lemma {:induction false} Swapped(files: map<string, Content>, optional: seq<Entry>, hub: seq<Entry>)
    ensures Inv(files, optional, hub) <==> Inv(files, hub, optional)
  {
    hide Disjoint, Present, AllPlain;
  }

  // ---- files of the user ----

  /** An installation makes a path listed that was not if and only if it is one
      of the words reading finds in the written paths. */
  lemma {:induction false} InstallClaims(entries: seq<Entry>, e: Entry, p: string)
    requires AllPlain(entries) && !Listed(entries, p)
    ensures Listed(RereadAll(Upsert(entries, e)), p) <==> p in Tokens(e.materialized)
  {
    RereadUpsert(entries, e);
    hide Plain, RereadAll, AllPlain, Tokens, Position, Upsert;
    UpsertListed(entries, Reread(e), p);
    var at := At(entries, e.family, e.name);
    if Elsewhere(entries, at, p) { ElsewhereListed(entries, at, p); }
  }

  /** Names without white space claim no file that was there unlisted. */
  lemma {:induction false} PlainClaims(was: map<string, Content>, entries: seq<Entry>, family: string, name: string, rels: seq<string>,
                                       p: string)
    requires p in was && !Listed(entries, p) && Plain(rels) && Free(was, rels, Existing(entries, family, name))
    ensures p !in Tokens(rels)
  {
    var e := Entry(family, name, rels);
    RereadExact(e);
    hide Plain, Tokens, Existing;
    NotOwned(entries, family, name, p);
  }

  lemma {:induction false} NotOwned(entries: seq<Entry>, family: string, name: string, p: string)
    requires !Listed(entries, p)
    ensures !Owned(Existing(entries, family, name), p)
  {
  }

  // ---- runs ----

  datatype Command =
    | DoInstall(which: Which, family: string, name: string, source: Source)
    | DoRemove(which: Which, index: nat)

  datatype State = State(files: map<string, Content>, optional: seq<Entry>, hub: seq<Entry>) {
    function Registry(which: Which): seq<Entry> { if which == Optional then optional else hub }

    ghost predicate Consistent() { Inv(files, optional, hub) }

    /** A file no entry lists. */
    ghost predicate Unlisted(p: string) { p in files && !Listed(optional, p) && !Listed(hub, p) }

    predicate Readable() { AllPlain(optional) && AllPlain(hub) }
  }

  function Now(store: ContentStore): State reads store { State(store.files, store.optional, store.hub) }

  /** The command adds no path with white space in it. */
  predicate PlainCommand(c: Command) { c.DoInstall? ==> Plain(Rels(c.family, Files(c.source))) }

  function EntryOf(c: Command): Entry
    requires c.DoInstall?
  {
    Entry(c.family, c.name, Rels(c.family, Files(c.source)))
  }

  /** The paths a command adds to a registry. */
  function Claims(c: Command, ok: bool): seq<string> {
    if c.DoInstall? && ok then Tokens(EntryOf(c).materialized) else []
  }

  /** An installation failed or its paths fit; a removal succeeded or deleted
      nothing. */
  ghost predicate Clean(c: Command, ok: bool, was: State, now: State) {
    match c
    case DoInstall(which, family, name, _) =>
      ok ==> Fits(now.files, was.Registry(which), was.Registry(Other(which)), family, name, Claims(c, ok))
    case DoRemove(_, _) => ok || now.files == was.files
  }

  predicate ListsRegistry(e: Entry) { RegistryFile(Optional) in e.materialized || RegistryFile(Hub) in e.materialized }

  /** The command removes an entry that lists the file of a registry. */
  predicate HitsRegistry(c: Command, s: State) {
    c.DoRemove? && c.index < |s.Registry(c.which)| && ListsRegistry(s.Registry(c.which)[c.index])
  }

  lemma {:induction false} RereadAllPlain(entries: seq<Entry>)
    ensures AllPlain(RereadAll(entries))
  {
    hide Plain, Tokens;
    forall i | 0 <= i < |entries| ensures Plain(Reread(entries[i]).materialized) { }
  }

  /** What an installation that left both registry files whole means for the
      tree. */
  lemma {:induction false} InstallFacts(was: map<string, Content>, now: map<string, Content>, entries: seq<Entry>, other: seq<Entry>,
                                        entries': seq<Entry>, family: string, name: string, fs: seq<(string, Content)>, ok: bool)
    requires OnlyOwned(was, now, Existing(entries, family, name)) && AllPlain(entries)
    requires ok ==> entries' == RereadAll(Upsert(entries, Entry(family, name, Rels(family, fs)))) && now == Copied(was, family, fs)
    requires ok ==> Free(was, Rels(family, fs), Existing(entries, family, name))
    requires !ok ==> entries' == entries
    ensures Inv(was, entries, other) ==>
      (Inv(now, entries', other) <==> ok ==> Fits(now, entries, other, family, name, Tokens(Rels(family, fs))))
    ensures AllPlain(entries')
    ensures forall p :: p in was && !Listed(entries, p) ==>
      (Listed(entries', p) <==> ok && p in Tokens(Rels(family, fs))) && (Plain(Rels(family, fs)) ==> !Listed(entries', p))
  {
    hide Rel, Plain, Copied, Upsert, RereadAll, AllPlain, Existing, Rels, Inv, Listed, Fits, Tokens;
    var rels := Rels(family, fs);
    var e := Entry(family, name, rels);
    RereadAllPlain(Upsert(entries, e));
    if Inv(was, entries, other) {
      if ok { InstallKeepsInv(was, entries, other, family, name, fs); }
      else { FailedInstallKeepsInv(was, now, entries, other, Existing(entries, family, name)); }
    }
    hide Free, OnlyOwned;
    forall p | p in was && !Listed(entries, p)
      ensures (Listed(entries', p) <==> ok && p in Tokens(rels)) && (Plain(rels) ==> !Listed(entries', p))
    {
      if ok {
        InstallClaims(entries, e, p);
        if Plain(rels) { PlainClaims(was, entries, family, name, rels, p); }
      }
    }
  }

  /** What an installation of any outcome leaves of the unlisted files. */
  lemma {:induction false} OwnedSparesUnlisted(was: map<string, Content>, now: map<string, Content>, entries: seq<Entry>, family: string,
                                               name: string)
    requires OnlyOwned(was, now, Existing(entries, family, name))
    ensures forall p :: p in was && !Listed(entries, p) ==> p in now && now[p] == was[p]
  {
    hide Existing, Listed;
    forall p | p in was && !Listed(entries, p) ensures p in now && now[p] == was[p] { NotOwned(entries, family, name, p); }
  }

  lemma {:induction false} RemoveFacts(was: map<string, Content>, now: map<string, Content>, entries: seq<Entry>, other: seq<Entry>,
                                       entries': seq<Entry>, index: nat, ok: bool)
    requires index < |entries| && AllPlain(entries)
    requires ok ==> entries' == RereadAll(Without(entries, index)) && now == was - Set(entries[index].materialized)
    requires !ok ==> entries' == entries
    requires now == was - (was.Keys - now.Keys) && forall p :: p in was && p !in now ==> p in entries[index].materialized
    ensures Inv(was, entries, other) ==> (Inv(now, entries', other) <==> ok || now == was)
    ensures AllPlain(entries')
    ensures forall p :: !Listed(entries, p) ==> !Listed(entries', p)
  {
    hide Plain, RereadAll, AllPlain, Inv, Listed, Without;
    RereadAllPlain(Without(entries, index));
    if Inv(was, entries, other) {
      if ok { RemoveKeepsInv(was, entries, other, index); } else { FailedRemove(was, now, entries, other, index); }
    }
    if ok {
      forall p | !Listed(entries, p) ensures !Listed(entries', p) { WithoutSpares(entries, index, p); }
    }
  }

  lemma {:induction false} RemovedWereListed(was: map<string, Content>, now: map<string, Content>, entries: seq<Entry>, index: nat)
    requires index < |entries| && now == was - (was.Keys - now.Keys)
    requires forall p :: p in was && p !in now ==> p in entries[index].materialized
    ensures forall p :: p in was && !Listed(entries, p) ==> p in now && now[p] == was[p]
  {
    EntryListed(entries, index);
    hide Listed;
  }

  lemma {:induction false} WithoutSpares(entries: seq<Entry>, index: nat, p: string)
    requires index < |entries| && AllPlain(entries) && !Listed(entries, p)
    ensures !Listed(RereadAll(Without(entries, index)), p)
  {
    hide Plain, RereadAll;
    var rest := Without(entries, index);
    forall i | 0 <= i < |rest| ensures rest[i] == entries[if i < index then i else i + 1] { }
    assert AllPlain(rest);
    RereadAllExact(rest);
    hide AllPlain, Without, Listed;
    if Listed(rest, p) { WithoutListed(entries, index, p); }
  }

  /** The effect of one command that left both registry files whole. */
  ghost predicate Effect(c: Command, ok: bool, was: State, now: State) {
    (was.Consistent() ==> (now.Consistent() <==> Clean(c, ok, was, now)))
    && (forall p :: was.Unlisted(p) ==> (now.Unlisted(p) <==> p !in Claims(c, ok)))
    && (PlainCommand(c) ==> forall p :: was.Unlisted(p) ==> p !in Claims(c, ok))
  }

  /** A command leaves every file alone that no entry lists. */
  ghost predicate Spares(was: State, now: State) {
    forall p :: was.Unlisted(p) ==> p in now.files && now.files[p] == was.files[p]
  }

  lemma {:induction false} InstallEffect(c: Command, ok: bool, was: State, now: State)
    requires c.DoInstall? && OnlyOwned(was.files, now.files, Existing(was.Registry(c.which), c.family, c.name)) && was.Readable()
    requires ok ==> now.Registry(c.which) == RereadAll(Upsert(was.Registry(c.which), EntryOf(c)))
    requires ok ==> now.files == Copied(was.files, c.family, Files(c.source))
    requires ok ==> Free(was.files, Rels(c.family, Files(c.source)), Existing(was.Registry(c.which), c.family, c.name))
    requires !ok ==> now.Registry(c.which) == was.Registry(c.which)
    requires now.Registry(Other(c.which)) == was.Registry(Other(c.which))
    ensures Effect(c, ok, was, now) && now.Readable()
  {
    hide Rel, Plain, Copied, Upsert, RereadAll, AllPlain, Existing, Rels, Inv, Listed, Fits, Tokens, Files, Free;
    OwnedSparesUnlisted(was.files, now.files, was.Registry(c.which), c.family, c.name);
    InstallFacts(was.files, now.files, was.Registry(c.which), was.Registry(Other(c.which)), now.Registry(c.which), c.family, c.name,
                 Files(c.source), ok);
    hide OnlyOwned;
    Swapped(was.files, was.optional, was.hub);
    Swapped(now.files, now.optional, now.hub);
  }

  lemma {:induction false} RemoveEffect(c: Command, ok: bool, was: State, now: State)
    requires c.DoRemove? && c.index < |was.Registry(c.which)| && was.Readable()
    requires ok ==> now.Registry(c.which) == RereadAll(Without(was.Registry(c.which), c.index))
    requires ok ==> now.files == was.files - Set(was.Registry(c.which)[c.index].materialized)
    requires !ok ==> now.Registry(c.which) == was.Registry(c.which)
    requires now.files == was.files - (was.files.Keys - now.files.Keys)
    requires forall p :: p in was.files && p !in now.files ==> p in was.Registry(c.which)[c.index].materialized
    requires now.Registry(Other(c.which)) == was.Registry(Other(c.which))
    ensures Effect(c, ok, was, now) && now.Readable()
  {
    hide Plain, RereadAll, AllPlain, Inv, Listed, Without, Set;
    RemovedWereListed(was.files, now.files, was.Registry(c.which), c.index);
    RemoveFacts(was.files, now.files, was.Registry(c.which), was.Registry(Other(c.which)), now.Registry(c.which), c.index, ok);
    Swapped(was.files, was.optional, was.hub);
    Swapped(now.files, now.optional, now.hub);
  }

  lemma {:induction false} NoEffect(c: Command, s: State)
    requires c.DoRemove?
    ensures Effect(c, false, s, s) && Spares(s, s)
  {
    hide Listed, Inv;
  }

  lemma {:induction false} NothingIsPlain()
    ensures AllPlain([])
  {
  }

  /** One command. No outcome touches a file nobody listed; and unless a failing
      write or a listed registry path damaged a registry file, the registries
      stay consistent exactly when the command is clean, and a file nobody
      listed stays unlisted exactly when the command does not claim it. */
  method Execute(store: ContentStore, c: Command) returns (ok: bool, damaged: bool)
    requires Now(store).Readable()
    modifies store
    ensures Now(store).Readable() && Spares(old(Now(store)), Now(store))
    ensures !damaged ==> Effect(c, ok, old(Now(store)), Now(store))
    ensures damaged ==> !ok || HitsRegistry(c, old(Now(store)))
  {
    ghost var was := Now(store);
    hide Rel, Plain, Copied, AllPlain, Upsert, RereadAll, Without, Existing, Free, OnlyOwned, Rels, Inv, Listed, Tokens, Set, Files;
    match c {
      case DoInstall(which, family, name, source) =>
        ok, damaged := store.Install(which, family, name, source);
        OwnedSparesUnlisted(was.files, store.files, was.Registry(which), family, name);
        if !damaged { InstallEffect(c, ok, was, Now(store)); }
      case DoRemove(which, index) =>
        if index < |store.Registry(which)| {
          var hits := ListsRegistry(store.Registry(which)[index]);
          ok, damaged := store.Remove(which, index);
          damaged := damaged || hits;
          RemovedWereListed(was.files, store.files, was.Registry(which), index);
          if ok { RereadAllPlain(Without(was.Registry(which), index)); }
          NothingIsPlain();
          if !damaged { RemoveEffect(c, ok, was, Now(store)); }
        } else {
          ok, damaged := false, false;
          NoEffect(c, was);
        }
    }
  }

  /** What the commands of a run claimed. */
  ghost predicate Claimed(commands: seq<Command>, oks: seq<bool>, p: string)
    requires |oks| == |commands|
  {
    exists k :: 0 <= k < |commands| && p in Claims(commands[k], oks[k])
  }

  predicate AllPlainCommands(commands: seq<Command>) { forall k :: 0 <= k < |commands| ==> PlainCommand(commands[k]) }

  ghost predicate Run(commands: seq<Command>, oks: seq<bool>, trace: seq<State>) {
    |oks| == |commands| && |trace| == |commands| + 1
    && forall k :: 0 <= k < |commands| ==> Effect(commands[k], oks[k], trace[k], trace[k + 1]) && Spares(trace[k], trace[k + 1])
  }

  ghost predicate AllConsistent(trace: seq<State>) { forall k :: 0 <= k < |trace| ==> trace[k].Consistent() }

  ghost predicate AllClean(commands: seq<Command>, oks: seq<bool>, trace: seq<State>)
    requires |oks| == |commands| && |trace| == |commands| + 1
  {
    forall k :: 0 <= k < |commands| ==> Clean(commands[k], oks[k], trace[k], trace[k + 1])
  }

  lemma {:induction false} ConsistentUpTo(commands: seq<Command>, oks: seq<bool>, trace: seq<State>, n: nat)
    requires Run(commands, oks, trace) && trace[0].Consistent() && n <= |commands|
    ensures (forall k :: 0 <= k <= n ==> trace[k].Consistent())
       <==> forall k :: 0 <= k < n ==> Clean(commands[k], oks[k], trace[k], trace[k + 1])
  {
    hide Clean, Inv, Spares, Claims, PlainCommand, Listed;
    if n > 0 {
      ConsistentUpTo(commands, oks, trace, n - 1);
      assert Effect(commands[n - 1], oks[n - 1], trace[n - 1], trace[n]);
    }
  }

  /** As long as each command is plain or does not claim the file, it stays
      unlisted and unchanged, and no command claims it. */
  lemma {:induction false} UnlistedUpTo(commands: seq<Command>, oks: seq<bool>, trace: seq<State>, p: string, n: nat)
    requires Run(commands, oks, trace) && trace[0].Unlisted(p) && n <= |commands|
    requires forall k :: 0 <= k < n ==> PlainCommand(commands[k]) || p !in Claims(commands[k], oks[k])
    ensures forall k :: 0 <= k <= n ==> trace[k].Unlisted(p) && trace[k].files[p] == trace[0].files[p]
    ensures forall k :: 0 <= k < n ==> p !in Claims(commands[k], oks[k])
  {
    hide Clean, Inv, Claims, PlainCommand, Listed;
    if n > 0 {
      UnlistedUpTo(commands, oks, trace, p, n - 1);
      assert Effect(commands[n - 1], oks[n - 1], trace[n - 1], trace[n]) && Spares(trace[n - 1], trace[n]);
    }
  }

  lemma {:induction false} UnlistedRun(commands: seq<Command>, oks: seq<bool>, trace: seq<State>, p: string)
    requires Run(commands, oks, trace) && trace[0].Unlisted(p)
    ensures !Claimed(commands, oks, p) <==> forall k :: 0 <= k < |trace| ==> trace[k].Unlisted(p)
    ensures !Claimed(commands, oks, p) ==> p in trace[|commands|].files && trace[|commands|].files[p] == trace[0].files[p]
    ensures AllPlainCommands(commands) ==> !Claimed(commands, oks, p)
  {
    hide Clean, Inv, Claims, PlainCommand, Listed;
    if !Claimed(commands, oks, p) || AllPlainCommands(commands) {
      UnlistedUpTo(commands, oks, trace, p, |commands|);
    }
    if Claimed(commands, oks, p) {
      var k :| 0 <= k < |commands| && p in Claims(commands[k], oks[k]);
      assert Effect(commands[k], oks[k], trace[k], trace[k + 1]);
      assert !(trace[k].Unlisted(p) && trace[k + 1].Unlisted(p));
    }
  }

  lemma {:induction false} ConsistentIsReadable(s: State)
    requires s.Consistent()
    ensures s.Readable()
  {
  }

  /** Every run, with the states before, between and after its commands. Unless
      a registry file was damaged, all these states are consistent if and only
      if every command was clean; and a file that nobody listed at the start is
      unlisted in all of them if and only if no command claimed it, which no
      command does whose file names hold no white space. Such a file keeps its
      content. */
  method RunAll(store: ContentStore, commands: seq<Command>) returns (oks: seq<bool>, damaged: bool, ghost trace: seq<State>)
    requires Now(store).Consistent()
    modifies store
    ensures |oks| == |commands| && |trace| == |commands| + 1 && trace[0] == old(Now(store)) && trace[|commands|] == Now(store)
    ensures !damaged ==> (AllConsistent(trace) <==> AllClean(commands, oks, trace))
    ensures !damaged ==> forall p :: old(Now(store)).Unlisted(p) ==>
      (!Claimed(commands, oks, p) <==> forall k :: 0 <= k < |trace| ==> trace[k].Unlisted(p))
    ensures !damaged ==> forall p :: old(Now(store)).Unlisted(p) && !Claimed(commands, oks, p) ==>
      p in store.files && store.files[p] == old(store.files[p])
    ensures !damaged && AllPlainCommands(commands) ==> forall p :: old(Now(store)).Unlisted(p) ==> !Claimed(commands, oks, p)
    ensures damaged ==> exists k :: 0 <= k < |commands| && (!oks[k] || HitsRegistry(commands[k], trace[k]))
  {
    trace, oks, damaged := [Now(store)], [], false;
    ghost var first := 0;
    hide AllPlain, Inv, Listed, Clean, HitsRegistry, Claims, PlainCommand;
    ConsistentIsReadable(Now(store));
    var i := 0;
    while i < |commands|
      invariant 0 <= i <= |commands| && |oks| == i && |trace| == i + 1 && trace[0] == old(Now(store)) && trace[i] == Now(store)
      invariant Now(store).Readable()
      invariant !damaged ==> forall k :: 0 <= k < i ==> Effect(commands[k], oks[k], trace[k], trace[k + 1])
      invariant forall k :: 0 <= k < i ==> Spares(trace[k], trace[k + 1])
      invariant damaged ==> first < i && (!oks[first] || HitsRegistry(commands[first], trace[first]))
    {
      var ok, bad := Execute(store, commands[i]);
      if bad && !damaged { first := i; }
      oks, damaged, trace := oks + [ok], damaged || bad, trace + [Now(store)];
      i := i + 1;
    }
    if !damaged {
      ConsistentUpTo(commands, oks, trace, |commands|);
      forall p | trace[0].Unlisted(p)
        ensures !Claimed(commands, oks, p) <==> forall k :: 0 <= k < |trace| ==> trace[k].Unlisted(p)
        ensures !Claimed(commands, oks, p) ==> p in store.files && store.files[p] == trace[0].files[p]
        ensures AllPlainCommands(commands) ==> !Claimed(commands, oks, p)
      {
        UnlistedRun(commands, oks, trace, p);
      }
    }
  }

  // ---- undoing, and the limits of the registry's format ----

  /** Deleting what reading finds undoes the copies if and only if no path
      holds white space. */
  lemma {:induction false} CopiedThenRemoved(files: map<string, Content>, family: string, fs: seq<(string, Content)>)
    requires forall i :: 0 <= i < |fs| ==> Rel(family, fs[i].0) !in files
    ensures Copied(files, family, fs) - Set(Tokens(Rels(family, fs))) == files <==> Plain(Rels(family, fs))
  {
    var rels, now := Rels(family, fs), Copied(files, family, fs);
    RereadExact(Entry(family, "", rels));
    hide Rel, Copied, Tokens, ForumText.IsWord;
    forall p ensures (p in now <==> p in files || p in rels) && (p in files ==> p !in rels && now[p] == files[p]) {
      CopiedKeys(files, family, fs, p);
    }
    if !Plain(rels) {
      var i :| 0 <= i < |rels| && !ForumText.IsWord(rels[i]);
      assert rels[i] !in Tokens(rels) && rels[i] in now && rels[i] !in files;
    }
  }

  /** Enabling a package for the first time and disabling it restores the
      registry, and the loader files if and only if no path holds white space. */
  method EnableThenDisable(store: ContentStore, which: Which, family: string, name: string, source: Source) returns (done: bool)
    requires Now(store).Readable() && Existing(store.Registry(which), family, name).None?
    modifies store
    ensures done ==> store.Registry(which) == old(store.Registry(which))
    ensures done ==> store.files == Copied(old(store.files), family, Files(source)) - Set(Tokens(Rels(family, Files(source))))
    ensures done ==> (store.files == old(store.files) <==> Plain(Rels(family, Files(source))))
  {
    ghost var files, entries, e := store.files, store.Registry(which), Entry(family, name, Rels(family, Files(source)));
    var index, torn := |store.Registry(which)|, false;
    assert AllPlain(entries);
    RereadUpsert(entries, e);
    RereadAllExact(entries);
    hide Rel, Rels, Copied, RereadAll, AllPlain, Plain, Inv, Tokens, Set, OnlyOwned, Lost;
    done, torn := store.Install(which, family, name, source);
    if !done { return; }
    assert store.Registry(which) == entries + [Reread(e)];
    CopiedThenRemoved(files, family, Files(source));
    done, torn := store.Remove(which, index);
    assert Without(entries + [Reread(e)], index) == entries;
  }

  lemma JoinTwo(a: string, b: string)
    ensures Text.Join([a, b], " ") == a + " " + b && Text.Join([a + " " + b], " ") == a + " " + b
  {
    assert [a, b][1..] == [b] && Text.Join([b], " ") == b;
  }

  lemma {:induction false} SpacedTokens(family: string, a: string, b: string)
    requires Supported(family) && ForumText.IsWord(a) && ForumText.IsWord(b)
    ensures Tokens([Rel(family, a + " " + b)]) == [Rel(family, a), b]
  {
    var first := Rel(family, a);
    assert ForumText.IsWord(first);
    assert Rel(family, a + " " + b) == first + " " + b;
    hide Rel, ForumText.Words, ForumText.IsWord;
    JoinTwo(first, b);
    ForumText.WordsOfJoin([first, b]);
  }

  /** A package file with a space in its name: disabling the package deletes
      the file of the user's that the first word names, and leaves its own. */
  method SpaceBreaksOwnership(store: ContentStore, which: Which, family: string, name: string, a: string, b: string, body: Content)
    returns (done: bool)
    requires Now(store).Readable() && Existing(store.Registry(which), family, name).None?
    requires Supported(family) && ForumText.IsWord(a) && ForumText.IsWord(b)
    requires Now(store).Unlisted(Rel(family, a))
    modifies store
    ensures done ==> Rel(family, a) !in store.files
    ensures done ==> Rel(family, a + " " + b) in store.files && store.files[Rel(family, a + " " + b)] == body
  {
    var fs := [(a + " " + b, body)];
    SpacedTokens(family, a, b);
    assert Rels(family, fs) == [Rel(family, a + " " + b)];
    assert fs[..0] == [] && Copied(store.files, family, fs) == store.files[Rel(family, a + " " + b) := body];
    assert |Rel(family, a + " " + b)| > |Rel(family, a)| && |Rel(family, a + " " + b)| > |b|;
    hide Rel, Rels, Copied, Tokens, ForumText.IsWord, AllPlain, Existing, Listed;
    done := EnableThenDisable(store, which, family, name, Directory(fs));
  }

  ghost predicate TwiceListed(entries: seq<Entry>, index: nat, p: string) {
    index < |entries| && p in entries[index].materialized && Elsewhere(entries, index, p)
  }

  /** A removal that fails part way leaves its entry behind. A path it deleted
      can then be taken by another package, and only such a path can: two
      entries list it afterwards. */
  method LostPathIsTaken(store: ContentStore, which: Which, index: nat, family: string, name: string, source: Source, p: string)
    returns (removed: bool, installed: bool, whole: bool, ghost lost: bool)
    requires Now(store).Consistent() && index < |store.Registry(which)| && !ListsRegistry(store.Registry(which)[index])
    requires store.Registry(which)[index].family != family || store.Registry(which)[index].name != name
    requires p in store.Registry(which)[index].materialized && p in Rels(family, Files(source)) && Plain(Rels(family, Files(source)))
    modifies store
    ensures !removed && whole && installed ==> lost && TwiceListed(store.Registry(which), index, p)
  {
    ghost var entries := store.Registry(which);
    var torn: bool;
    removed, torn := store.Remove(which, index);
    lost, installed, whole := p !in store.files, false, !torn;
    if removed || torn { return; }
    installed, torn := store.Install(which, family, name, source);
    whole := !torn;
    if !installed { return; }
    ghost var e := Entry(family, name, Rels(family, Files(source)));
    assert Reread(e) == e by { RereadExact(e); }
    RereadUpsert(entries, e);
    TwoList(entries, index, e, p);
    assert !Owned(Existing(entries, family, name), p);
  }

  lemma {:induction false} TwoList(entries: seq<Entry>, index: nat, e: Entry, p: string)
    requires index < |entries| && p in entries[index].materialized && Disjoint(entries)
    requires (entries[index].family != e.family || entries[index].name != e.name) && p in e.materialized
    ensures TwiceListed(Upsert(entries, e), index, p) && !Owned(Existing(entries, e.family, e.name), p)
  {
    hide Position;
    var at, all := At(entries, e.family, e.name), Upsert(entries, e);
    assert at != index && all[at] == e && all[index] == entries[index];
  }
}
