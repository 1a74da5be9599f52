/**
 Preset references under namespacing: what a reference resolves to in the merged
 catalogue of all organizations, against the document on its own
 (src/config/sources/mod.rs, src/config/sources/preset.rs).
 */
module Presets {
  import opened Text
  import opened Settings
  import opened Namespaces

  /** An organization id that namespacing is sound for. */
  predicate SoundId(org: string) {
    ProperId(org) && Trimmed(org)
  }

  lemma SoundIsProper(org: string)
    ensures SoundId(org) ==> ProperId(org) && org != "" && Trimmed(org)
  {
  }

  predicate Distinct(docs: seq<(string, Desired)>) {
    && (forall a :: 0 <= a < |docs| ==> SoundId(docs[a].0))
    && (forall a, b :: 0 <= a < b < |docs| ==> docs[a].0 != docs[b].0)
  }

  // ----------------------------------------------------------------- presets

  /** `with_preset_resolved`, for the fields namespacing touches. */
  function ResolvePreset(catalogue: seq<NamedPreset>, c: Common): Option<Common> {
    if c.preset.None? then Some(c)
    else if Trim(c.preset.value) == "" then None
    else match FindPreset(catalogue, Trim(c.preset.value))
      case None => None
      case Some(p) =>
        Some(c.(preset := None,
                routingTag := FirstSome(c.routingTag, p.routingTag),
                intervalSecs := FirstSome(c.intervalSecs, p.intervalSecs),
                jitterSecs := FirstSome(c.jitterSecs, p.jitterSecs),
                pollOnStartup := FirstSome(c.pollOnStartup, p.pollOnStartup),
                notifySchedule := FirstSome(c.notifySchedule, p.notifySchedule)))
  }

  /** `effective_source_presets` */
  function Catalogue(builtins: seq<NamedPreset>, user: seq<NamedPreset>): seq<NamedPreset> {
    InsertPresets(builtins, user)
  }

  /** The last entry of a list that ends up under the name. */
  function FindLastPreset(presets: seq<NamedPreset>, name: string): Option<Preset> {
    if presets == [] then None
    else if presets[|presets| - 1].name == name then Some(presets[|presets| - 1].preset)
    else FindLastPreset(presets[..|presets| - 1], name)
  }

  lemma {:induction false} FindInserted(presets: seq<NamedPreset>, p: NamedPreset, name: string)
    ensures FindPreset(InsertPreset(presets, p), name) ==
            if name == p.name then Some(p.preset) else FindPreset(presets, name)
    decreases |presets|
  {
    if presets != [] && presets[0].name != p.name {
      FindInserted(presets[1..], p, name);
    }
  }

  lemma {:induction false} FindAfterInserts(into: seq<NamedPreset>, presets: seq<NamedPreset>, name: string)
    ensures FindPreset(InsertPresets(into, presets), name) ==
            match FindLastPreset(presets, name) case Some(p) => Some(p) case None => FindPreset(into, name)
    decreases |presets|
  {
    if presets != [] {
      var last := |presets| - 1;
      FindAfterInserts(into, presets[..last], name);
      FindInserted(InsertPresets(into, presets[..last]), presets[last], name);
    }
  }

  /** The presets of all organizations, renamed and merged in catalogue order. */
  function MergedPresets(docs: seq<(string, Desired)>): seq<NamedPreset> {
    if docs == [] then []
    else
      var last := |docs| - 1;
      InsertPresets(MergedPresets(docs[..last]), RenamePresets(docs[last].0, docs[last].1.presets))
  }

  lemma {:induction false} RenamedOwned(org: string, presets: seq<NamedPreset>, k: nat)
    requires k < |RenamePresets(org, presets)|
    ensures exists name :: RenamePresets(org, presets)[k].name == Scoped(org, name)
    decreases |presets|
  {
    hide Scoped;
    var last := |presets| - 1;
    var before := RenamePresets(org, presets[..last]);
    var renamed := presets[last].(name := Scoped(org, presets[last].name));
    InsertedFrom(before, renamed, k);
    if RenamePresets(org, presets)[k] != renamed {
      var j :| 0 <= j < |before| && before[j] == RenamePresets(org, presets)[k];
      RenamedOwned(org, presets[..last], j);
    }
  }

  lemma {:induction false} InsertedFrom(presets: seq<NamedPreset>, p: NamedPreset, k: nat)
    requires k < |InsertPreset(presets, p)|
    ensures var q := InsertPreset(presets, p)[k]; q == p || exists j :: 0 <= j < |presets| && presets[j] == q
    decreases |presets|
  {
    if presets == [] {
    } else if presets[0].name == p.name {
      if k > 0 { assert InsertPreset(presets, p)[k] == presets[k]; }
    } else if k == 0 {
      assert InsertPreset(presets, p)[0] == presets[0];
    } else {
      InsertedFrom(presets[1..], p, k - 1);
      var q := InsertPreset(presets, p)[k];
      if q != p {
        var j :| 0 <= j < |presets[1..]| && presets[1..][j] == q;
        assert presets[j + 1] == q;
      }
    }
  }

  lemma {:induction false} FindLastOwned(org: string, renamed: seq<NamedPreset>, name: string)
    requires forall k :: 0 <= k < |renamed| ==> OrgOf(renamed[k].name) == Some(org)
    requires OrgOf(name) != Some(org)
    ensures FindLastPreset(renamed, name) == None
    decreases |renamed|
  {
    if renamed != [] {
      FindLastOwned(org, renamed[..|renamed| - 1], name);
    }
  }

  lemma RenamedOwner(org: string, presets: seq<NamedPreset>)
    requires ProperId(org)
    ensures forall k :: 0 <= k < |RenamePresets(org, presets)| ==>
              OrgOf(RenamePresets(org, presets)[k].name) == Some(org)
  {
    hide RenamePresets, Scoped, OrgOf, ProperId;
    forall k | 0 <= k < |RenamePresets(org, presets)|
      ensures OrgOf(RenamePresets(org, presets)[k].name) == Some(org)
    {
      RenamedOwned(org, presets, k);
      var name :| RenamePresets(org, presets)[k].name == Scoped(org, name);
      OwnerReadBack(org, name);
    }
  }

  /** A name that no organization owns is not in the merged catalogue. */
  lemma {:induction false} MergedForeign(docs: seq<(string, Desired)>, name: string)
    requires Distinct(docs) && forall a :: 0 <= a < |docs| ==> OrgOf(name) != Some(docs[a].0)
    ensures FindPreset(MergedPresets(docs), name) == None
    decreases |docs|
  {
    hide OrgOf, RenamePresets, SoundId, InsertPresets;
    if docs != [] {
      var last := |docs| - 1;
      MergedForeign(docs[..last], name);
      assert ProperId(docs[last].0) by { SoundIsProper(docs[last].0); }
      var renamed := RenamePresets(docs[last].0, docs[last].1.presets);
      RenamedOwner(docs[last].0, docs[last].1.presets);
      FindLastOwned(docs[last].0, renamed, name);
      FindAfterInserts(MergedPresets(docs[..last]), renamed, name);
    }
  }

  /** A name one organization owns is looked up among that organization's presets. */
  lemma {:induction false} MergedOwn(docs: seq<(string, Desired)>, a: nat, name: string)
    requires Distinct(docs) && a < |docs| && OrgOf(name) == Some(docs[a].0)
    ensures FindPreset(MergedPresets(docs), name) == FindLastPreset(RenamePresets(docs[a].0, docs[a].1.presets), name)
    decreases |docs|
  {
    hide OrgOf, RenamePresets, SoundId, InsertPresets;
    var last := |docs| - 1;
    var renamed := RenamePresets(docs[last].0, docs[last].1.presets);
    FindAfterInserts(MergedPresets(docs[..last]), renamed, name);
    if a == last {
      MergedForeign(docs[..last], name);
    } else {
      SoundIsProper(docs[last].0);
      RenamedOwner(docs[last].0, docs[last].1.presets);
      FindLastOwned(docs[last].0, renamed, name);
      MergedOwn(docs[..last], a, name);
    }
  }

  /** A list with one entry per name: what a map is. */
  predicate UniqueNames(presets: seq<NamedPreset>) {
    forall i, j :: 0 <= i < j < |presets| ==> presets[i].name != presets[j].name
  }

  lemma {:induction false} FindAt(presets: seq<NamedPreset>, i: nat)
    requires UniqueNames(presets) && i < |presets|
    ensures FindPreset(presets, presets[i].name) == Some(presets[i].preset)
    decreases i
  {
    if i > 0 {
      FindAt(presets[1..], i - 1);
    }
  }

  lemma {:induction false} FindNowhere(presets: seq<NamedPreset>, name: string)
    ensures FindPreset(presets, name).None? <==> forall i :: 0 <= i < |presets| ==> presets[i].name != name
    decreases |presets|
  {
    if presets != [] {
      FindNowhere(presets[1..], name);
      assert forall i :: 1 <= i < |presets| ==> presets[i] == presets[1..][i - 1];
    }
  }

  lemma {:induction false} FindLastIsFind(presets: seq<NamedPreset>, name: string)
    requires UniqueNames(presets)
    ensures FindLastPreset(presets, name) == FindPreset(presets, name)
    decreases |presets|
  {
    FindNowhere(presets, name);
    if presets != [] {
      var last := |presets| - 1;
      if presets[last].name == name {
        FindAt(presets, last);
      } else {
        FindLastIsFind(presets[..last], name);
        FindNowhere(presets[..last], name);
        if i :| 0 <= i < last && presets[i].name == name {
          FindAt(presets, i);
          FindAt(presets[..last], i);
        }
      }
    }
  }

  lemma {:induction false} InsertUnique(presets: seq<NamedPreset>, p: NamedPreset)
    requires UniqueNames(presets)
    ensures UniqueNames(InsertPreset(presets, p))
    decreases |presets|
  {
    if presets != [] {
      var r := InsertPreset(presets, p);
      if presets[0].name == p.name {
        assert forall i :: 1 <= i < |r| ==> r[i] == presets[i];
      } else {
        InsertUnique(presets[1..], p);
        forall j | 1 <= j < |r| ensures r[j].name != r[0].name {
          InsertedFrom(presets[1..], p, j - 1);
        }
      }
    }
  }

  lemma {:induction false} InsertsUnique(into: seq<NamedPreset>, presets: seq<NamedPreset>)
    requires UniqueNames(into)
    ensures UniqueNames(InsertPresets(into, presets))
    decreases |presets|
  {
    hide UniqueNames;
    if presets != [] {
      var last := |presets| - 1;
      InsertsUnique(into, presets[..last]);
      InsertUnique(InsertPresets(into, presets[..last]), presets[last]);
    }
  }

  lemma {:induction false} MergedUnique(docs: seq<(string, Desired)>)
    ensures UniqueNames(MergedPresets(docs))
    decreases |docs|
  {
    if docs != [] {
      var last := |docs| - 1;
      MergedUnique(docs[..last]);
      InsertsUnique(MergedPresets(docs[..last]), RenamePresets(docs[last].0, docs[last].1.presets));
    }
  }

  lemma {:induction false} RenamedUnique(org: string, presets: seq<NamedPreset>)
    ensures UniqueNames(RenamePresets(org, presets))
    decreases |presets|
  {
    hide Scoped, InsertPreset, UniqueNames;
    if presets == [] {
      NothingRenamed(org);
    } else {
      var last := |presets| - 1;
      RenamedUnique(org, presets[..last]);
      InsertUnique(RenamePresets(org, presets[..last]), presets[last].(name := Scoped(org, presets[last].name)));
    }
  }

  lemma NothingRenamed(org: string)
    ensures UniqueNames(RenamePresets(org, []))
  {
  }

  lemma FindInCatalogue(builtins: seq<NamedPreset>, user: seq<NamedPreset>, name: string)
    requires UniqueNames(user)
    ensures FindPreset(Catalogue(builtins, user), name) ==
            match FindPreset(user, name) case Some(p) => Some(p) case None => FindPreset(builtins, name)
  {
    FindAfterInserts(builtins, user, name);
    FindLastIsFind(user, name);
  }

  /** The last declared preset that has the name inside the organization. */
  function LastBare(org: string, presets: seq<NamedPreset>, name: string): Option<Preset> {
    if presets == [] then None
    else
      var last := |presets| - 1;
      if Bare(org, presets[last].name) == Bare(org, name) then Some(presets[last].preset)
      else LastBare(org, presets[..last], name)
  }

  lemma {:induction false} RenamedFind(org: string, presets: seq<NamedPreset>, name: string)
    ensures FindPreset(RenamePresets(org, presets), Scoped(org, name)) == LastBare(org, presets, name)
    decreases |presets|
  {
    hide Scoped, Bare;
    if presets != [] {
      var last := |presets| - 1;
      RenamedFind(org, presets[..last], name);
      var renamed := presets[last].(name := Scoped(org, presets[last].name));
      FindInserted(RenamePresets(org, presets[..last]), renamed, Scoped(org, name));
      ScopedCollides(org, presets[last].name, name);
    }
  }

  lemma {:induction false} DeclaredHasBare(org: string, presets: seq<NamedPreset>, name: string)
    requires name in PresetNames(presets)
    ensures LastBare(org, presets, name).Some?
    decreases |presets|
  {
    hide Bare;
    var last := |presets| - 1;
    if Bare(org, presets[last].name) != Bare(org, name) {
      var i :| 0 <= i < |presets| && presets[i].name == name;
      assert presets[..last][i] == presets[i];
      DeclaredHasBare(org, presets[..last], name);
    }
  }

  // --------------------------------------------------- the merged catalogue

  /** What the organization that owns a prefixed name holds under it, whichever organization that is. */
  function Held(docs: seq<(string, Desired)>, name: string): Option<Preset> {
    if docs == [] then None
    else
      var (org, d) := docs[|docs| - 1];
      if OrgOf(name) == Some(org) then FindPreset(RenamePresets(org, d.presets), name)
      else Held(docs[..|docs| - 1], name)
  }

  lemma {:induction false} HeldByOwner(docs: seq<(string, Desired)>, a: nat, name: string)
    requires Distinct(docs) && a < |docs| && OrgOf(name) == Some(docs[a].0)
    ensures Held(docs, name) == FindPreset(RenamePresets(docs[a].0, docs[a].1.presets), name)
    decreases |docs|
  {
    hide OrgOf, RenamePresets, FindPreset, SoundId;
    if a < |docs| - 1 {
      HeldByOwner(docs[..|docs| - 1], a, name);
    }
  }

  lemma {:induction false} HeldByNobody(docs: seq<(string, Desired)>, name: string)
    requires forall a :: 0 <= a < |docs| ==> OrgOf(name) != Some(docs[a].0)
    ensures Held(docs, name) == None
    decreases |docs|
  {
    hide OrgOf, RenamePresets, FindPreset;
    if docs != [] {
      HeldByNobody(docs[..|docs| - 1], name);
    }
  }

  /** The merged catalogue holds a name exactly as its owner does. */
  lemma MergedHeld(docs: seq<(string, Desired)>, name: string)
    requires Distinct(docs)
    ensures FindPreset(MergedPresets(docs), name) == Held(docs, name)
  {
    hide OrgOf, RenamePresets, FindPreset, MergedPresets, SoundId, FindLastPreset, UniqueNames;
    if a :| 0 <= a < |docs| && OrgOf(name) == Some(docs[a].0) {
      MergedOwn(docs, a, name);
      HeldByOwner(docs, a, name);
      RenamedUnique(docs[a].0, docs[a].1.presets);
      FindLastIsFind(RenamePresets(docs[a].0, docs[a].1.presets), name);
    } else {
      MergedForeign(docs, name);
      HeldByNobody(docs, name);
    }
  }

  lemma PlainUnowned(name: string)
    requires !Contains(name, SEPARATOR)
    ensures OrgOf(name) == None
  {
    ContainsIffFound(name, SEPARATOR);
  }

  lemma PlainUnprefixed(org: string, name: string)
    requires !Contains(name, SEPARATOR)
    ensures !(Prefix(org) <= name)
  {
    ContainsIffFound(name, SEPARATOR);
    if Prefix(org) <= name {
      assert name[|org|..|org| + 2] == SEPARATOR by {
        assert name[..|org| + 2] == org + SEPARATOR;
      }
      FindIsFirst(name, SEPARATOR, |org|);
    }
  }

  lemma NameListed(presets: seq<NamedPreset>, name: string)
    requires UniqueNames(presets)
    ensures name in PresetNames(presets) <==> FindPreset(presets, name).Some?
  {
    FindNowhere(presets, name);
  }

  /** The reference a namespaced source carries, trimmed as resolution trims it. */
  function Renamed(org: string, d: Desired, c: Common): string
    requires c.preset.Some?
  {
    var name := Trim(c.preset.value);
    if name in PresetNames(d.presets) then Scoped(org, name) else name
  }

  lemma RenamedReference(org: string, d: Desired, c: Common, tag: string)
    requires SoundId(org) && c.preset.Some?
    ensures var preset := NamespaceCommon(org, c, NamespaceDefaults(org, d.defaults), d.presets, tag).preset;
            preset.Some? && Trim(preset.value) == Renamed(org, d, c)
    ensures Trim(c.preset.value) in PresetNames(d.presets) ==> Renamed(org, d, c) != ""
  {
    var name := Trim(c.preset.value);
    TrimIdempotent(c.preset.value);
    SoundIsProper(org);
    ScopedTrimmed(org, name);
    ScopedIsPrefixed(org, name);
    hide Trim, Scoped, SoundId, Trimmed, ProperId;
  }

  /**
   Whether a reference keeps its preset: a declared name, if no later declared
   preset has the same name inside the organization; any other, if no organization
   holds it as one of its own, or holds what the built-ins hold.
   */
  predicate KeepsPreset(builtins: seq<NamedPreset>, docs: seq<(string, Desired)>, a: nat, name: string)
    requires a < |docs|
  {
    var (org, d) := docs[a];
    if name in PresetNames(d.presets) then LastBare(org, d.presets, name) == FindPreset(d.presets, name)
    else Held(docs, name) == None || Held(docs, name) == FindPreset(builtins, name)
  }

  /**
   A preset reference resolves to the same preset in the merged catalogue as in its
   own document exactly under that condition, for all documents.
   */
  lemma PresetKept(builtins: seq<NamedPreset>, docs: seq<(string, Desired)>, a: nat, c: Common)
    requires Distinct(docs) && a < |docs| && UniqueNames(docs[a].1.presets) && c.preset.Some?
    ensures FindPreset(Catalogue(builtins, MergedPresets(docs)), Renamed(docs[a].0, docs[a].1, c))
            == FindPreset(Catalogue(builtins, docs[a].1.presets), Trim(c.preset.value))
            <==> KeepsPreset(builtins, docs, a, Trim(c.preset.value))
  {
    hide Trim, Scoped, FindPreset, MergedPresets, Catalogue, UniqueNames, Held, LastBare, SoundId, PresetNames;
    MergedLookup(builtins, docs, a, c);
    NameListed(docs[a].1.presets, Trim(c.preset.value));
    FindInCatalogue(builtins, docs[a].1.presets, Trim(c.preset.value));
  }

  /** What a namespaced reference finds in the merged catalogue. */
  lemma MergedLookup(builtins: seq<NamedPreset>, docs: seq<(string, Desired)>, a: nat, c: Common)
    requires Distinct(docs) && a < |docs| && c.preset.Some?
    ensures var (org, d) := docs[a];
            var name := Trim(c.preset.value);
            var found := FindPreset(Catalogue(builtins, MergedPresets(docs)), Renamed(org, d, c));
            if name in PresetNames(d.presets) then found == LastBare(org, d.presets, name) && found.Some?
            else found == if Held(docs, name).Some? then Held(docs, name) else FindPreset(builtins, name)
  {
    var (org, d) := docs[a];
    var name := Trim(c.preset.value);
    var renamed := Renamed(org, d, c);
    SoundIsProper(org);
    MergedUnique(docs);
    hide Trim, Scoped, OrgOf, RenamePresets, FindPreset, MergedPresets, Catalogue, UniqueNames, Held, LastBare, SoundId;
    hide ProperId, PresetNames;
    MergedHeld(docs, renamed);
    FindInCatalogue(builtins, MergedPresets(docs), renamed);
    if name in PresetNames(d.presets) {
      OwnerReadBack(org, name);
      HeldByOwner(docs, a, renamed);
      RenamedFind(org, d.presets, name);
      DeclaredHasBare(org, d.presets, name);
    }
  }

  /**
   Whether a reference resolves in the merged configuration just when it does
   alone: a blank one must not be declared, and one that only another catalogue
   would hold must not be held there.
   */
  predicate SameResolution(builtins: seq<NamedPreset>, docs: seq<(string, Desired)>, a: nat, c: Common)
    requires a < |docs|
  {
    c.preset.None? ||
    (var name := Trim(c.preset.value);
     if name in PresetNames(docs[a].1.presets) then name != ""
     else name == "" || Held(docs, name) == None || FindPreset(builtins, name).Some?)
  }

  lemma ResolvesAlike(builtins: seq<NamedPreset>, docs: seq<(string, Desired)>, a: nat, c: Common, tag: string)
    requires Distinct(docs) && a < |docs| && UniqueNames(docs[a].1.presets)
    ensures var (org, d) := docs[a];
            var merged := NamespaceCommon(org, c, NamespaceDefaults(org, d.defaults), d.presets, tag);
            (ResolvePreset(Catalogue(builtins, MergedPresets(docs)), merged).Some?
             <==> ResolvePreset(Catalogue(builtins, d.presets), c).Some?)
            <==> SameResolution(builtins, docs, a, c)
  {
    var (org, d) := docs[a];
    hide Trim, Scoped, FindPreset, MergedPresets, Catalogue, UniqueNames, Held, LastBare, SoundId, PresetNames;
    hide NamespaceDefaults;
    if c.preset.Some? {
      RenamedReference(org, d, c, tag);
      MergedLookup(builtins, docs, a, c);
      NameListed(d.presets, Trim(c.preset.value));
      FindInCatalogue(builtins, d.presets, Trim(c.preset.value));
    }
  }

  /** Plain references to presets with plain, different names meet both conditions. */
  lemma PlainReferenceKept(builtins: seq<NamedPreset>, docs: seq<(string, Desired)>, a: nat, c: Common)
    requires Distinct(docs) && a < |docs| && c.preset.Some? && !Contains(Trim(c.preset.value), SEPARATOR)
    requires CleanPresets(docs[a].0, docs[a].1.presets)
    ensures KeepsPreset(builtins, docs, a, Trim(c.preset.value)) && SameResolution(builtins, docs, a, c)
  {
    var (org, d) := docs[a];
    var name := Trim(c.preset.value);
    TrimIdempotent(c.preset.value);
    PlainUnowned(name);
    PlainUnprefixed(org, name);
    hide Contains, OrgOf, FindPreset, RenamePresets, SoundId, Prefix, Trim;
    if name in PresetNames(d.presets) {
      var k :| 0 <= k < |d.presets| && d.presets[k].name == name;
      OnlyBare(org, d.presets, k);
      FindAt(d.presets, k);
    } else {
      HeldByNobody(docs, name);
    }
  }

  /** Preset names that renaming keeps apart. */
  predicate CleanPresets(org: string, presets: seq<NamedPreset>) {
    && (forall i :: 0 <= i < |presets| ==>
          && Trim(presets[i].name) == presets[i].name && presets[i].name != ""
          && !(Prefix(org) <= presets[i].name))
    && (forall i, j :: 0 <= i < j < |presets| ==> presets[i].name != presets[j].name)
  }

  lemma {:induction false} OnlyBare(org: string, presets: seq<NamedPreset>, k: nat)
    requires CleanPresets(org, presets) && k < |presets|
    ensures LastBare(org, presets, presets[k].name) == Some(presets[k].preset)
    decreases |presets|
  {
    hide Trim, Prefix;
    var last := |presets| - 1;
    if k < last {
      assert presets[k].name != presets[last].name;
      OnlyBare(org, presets[..last], k);
    }
  }

  /**
   The exact law for a reference spelled with an organization's prefix: for a name
   the document does not declare, it keeps its meaning exactly when the owner does
   not hold that name, or holds the built-in of that name.
   */
  lemma ForeignReference(builtins: seq<NamedPreset>, docs: seq<(string, Desired)>, a: nat, b: nat, c: Common)
    requires Distinct(docs) && a < |docs| && b < |docs| && UniqueNames(docs[a].1.presets) && c.preset.Some?
    requires Trim(c.preset.value) !in PresetNames(docs[a].1.presets)
    requires OrgOf(Trim(c.preset.value)) == Some(docs[b].0)
    ensures var name := Trim(c.preset.value);
            var held := FindPreset(RenamePresets(docs[b].0, docs[b].1.presets), name);
            FindPreset(Catalogue(builtins, MergedPresets(docs)), Renamed(docs[a].0, docs[a].1, c))
            == FindPreset(Catalogue(builtins, docs[a].1.presets), name)
            <==> held == None || held == FindPreset(builtins, name)
  {
    hide Trim, Scoped, OrgOf, RenamePresets, FindPreset, MergedPresets, Catalogue, UniqueNames, Held, LastBare, SoundId;
    PresetKept(builtins, docs, a, c);
    HeldByOwner(docs, b, Trim(c.preset.value));
  }

  /** A source that resolves has its own settings where it has any, and its preset's where not. */
  lemma PresetFillsUnset(catalogue: seq<NamedPreset>, c: Common)
    requires ResolvePreset(catalogue, c).Some? && c.preset.Some?
    ensures var r := ResolvePreset(catalogue, c).value;
            var p := FindPreset(catalogue, Trim(c.preset.value));
            && p.Some? && !Blank(c.preset.value) && r.other == c.other
            && (r.routingTag == if c.routingTag.Some? then c.routingTag else p.value.routingTag)
            && (r.intervalSecs == if c.intervalSecs.Some? then c.intervalSecs else p.value.intervalSecs)
            && (r.jitterSecs == if c.jitterSecs.Some? then c.jitterSecs else p.value.jitterSecs)
            && (r.pollOnStartup == if c.pollOnStartup.Some? then c.pollOnStartup else p.value.pollOnStartup)
            && (r.notifySchedule == if c.notifySchedule.Some? then c.notifySchedule else p.value.notifySchedule)
  {
    hide FindPreset, Trim;
    BlankEmpty();
  }
}
