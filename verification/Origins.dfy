/**
 What a started process runs, told in ledger rows, files and parsed documents: the
 row of an organization, else its file, else nothing, and the failure of a file that
 is named but missing (src/config/resolve.rs).
 */
module Origins {
  import opened Text
  import opened Settings
  import opened Namespaces
  import opened Presets
  import opened Composition
  import opened ComposedTenancy
  import opened Runtime
  import opened ApplyEngine

  // ------------------------------------------------------- one organization

  predicate ByLedger(w: World) {
    w.bootstrap.infra.authority == ApiLedger
  }

  /** The organization has an applied row, and rows count. */
  predicate HasRow(w: World, ledger: seq<Revision>, org: Organization) {
    ByLedger(w) && Latest(ledger, Some(org.id)).Some?
  }

  predicate NamesFile(org: Organization) {
    org.app.Some? && !Blank(org.app.value)
  }

  /** Nothing is expected of the organization yet. */
  predicate Pending(w: World, ledger: seq<Revision>, org: Organization) {
    ByLedger(w) && !HasRow(w, ledger, org) && !NamesFile(org)
  }

  /** The text that decides what the organization runs: its newest row, else its file, else the empty document. */
  predicate Decides(w: World, ledger: seq<Revision>, org: Organization, text: string) {
    if HasRow(w, ledger, org) then text == Latest(ledger, Some(org.id)).value.content
    else if NamesFile(org) then Trim(org.app.value) in w.orgFiles && text == w.orgFiles[Trim(org.app.value)]
    else Pending(w, ledger, org) && text == "{}\n"
  }

  /** The authority the composition uses is that text, or there is none. */
  lemma AuthorityDecides(w: World, ledger: seq<Revision>, org: Organization)
    ensures match OrgAuthority(w, ledger, org)
            case Some(a) => Decides(w, ledger, org, a.raw) && (a.source == FromNothing <==> Pending(w, ledger, org))
            case None => forall text :: !Decides(w, ledger, org, text)
  {
    hide Latest, Trim;
  }

  /** The document the text stands for, with the environment's values. */
  function Parsed(w: World, text: string): Desired {
    match w.parse(None, text) case None => NOTHING_DESIRED case Some(c) => OverlayDesired(w.overlay, c.desired)
  }

  /** The text may be composed: it parses, has no infrastructure section, and says something unless nothing is expected. */
  predicate Sound(w: World, ledger: seq<Revision>, org: Organization, text: string) {
    && w.parse(None, text).Some? && IsDesiredOnly(w.parse(None, text).value)
    && (Pending(w, ledger, org) || HasDesiredState(Parsed(w, text)))
  }

  /** The organization has a text that decides, and it is sound. */
  ghost predicate Available(w: World, ledger: seq<Revision>, org: Organization) {
    exists text :: Decides(w, ledger, org, text) && Sound(w, ledger, org, text)
  }

  lemma ComposableExactly(w: World, ledger: seq<Revision>, org: Organization)
    ensures var a := Contribution(w, ledger, None, org);
            && (Available(w, ledger, org) <==> a.Some? && ComposableDesired(w, a.value).Some?)
            && (Available(w, ledger, org) ==>
                  && Decides(w, ledger, org, a.value.raw) && Sound(w, ledger, org, a.value.raw)
                  && ComposableDesired(w, a.value).value == Parsed(w, a.value.raw))
  {
    hide Latest, Trim, HasDesiredState, OverlayDesired;
    AuthorityDecides(w, ledger, org);
    hide OrgAuthority;
    if Available(w, ledger, org) {
      var text :| Decides(w, ledger, org, text) && Sound(w, ledger, org, text);
      assert OrgAuthority(w, ledger, org).Some?;
    }
  }

  // -------------------------------------------------------- all organizations

  predicate DistinctIds(orgs: seq<Organization>, k: nat)
    requires k <= |orgs|
  {
    && (forall j :: 0 <= j < k ==> orgs[j].id != "")
    && (forall i, j :: 0 <= i < j < k ==> orgs[i].id != orgs[j].id)
  }

  lemma {:induction false} ComposesFirst(w: World, ledger: seq<Revision>, k: nat)
    requires k <= |w.bootstrap.organizations|
    ensures var orgs := w.bootstrap.organizations;
            && (ComposeFirst(w, ledger, None, k).Some? <==>
                DistinctIds(orgs, k) && forall j :: 0 <= j < k ==> Available(w, ledger, orgs[j]))
            && (ComposeFirst(w, ledger, None, k).Some? ==>
                  ComposeFirst(w, ledger, None, k).value.seen == set j | 0 <= j < k :: orgs[j].id)
    decreases k
  {
    hide Available, ComposableDesired, Contribution, Entry, HasDesiredState, InsertPresets, Strictest, NamespaceDesired;
    if k > 0 {
      ComposesFirst(w, ledger, k - 1);
      ComposableExactly(w, ledger, w.bootstrap.organizations[k - 1]);
    }
  }

  /** The documents that decide, parsed, in catalogue order. */
  predicate Deciding(w: World, ledger: seq<Revision>, docs: seq<(string, Desired)>, texts: seq<string>) {
    var orgs := w.bootstrap.organizations;
    && |docs| == |orgs| && |texts| == |orgs|
    && forall j :: 0 <= j < |orgs| ==>
         && Decides(w, ledger, orgs[j], texts[j]) && Sound(w, ledger, orgs[j], texts[j])
         && docs[j] == (orgs[j].id, Parsed(w, texts[j]))
  }

  lemma {:induction false} DocumentsDecide(w: World, ledger: seq<Revision>, k: nat)
    requires k <= |w.bootstrap.organizations|
    requires forall j :: 0 <= j < k ==> Available(w, ledger, w.bootstrap.organizations[j])
    ensures var docs := Documents(w, ledger, None, k);
            var entries := Entries(w, ledger, None, k);
            && |docs| == k && |entries| == k
            && forall j :: 0 <= j < k ==>
                 && entries[j].0 == w.bootstrap.organizations[j].id
                 && Decides(w, ledger, w.bootstrap.organizations[j], entries[j].1)
                 && Sound(w, ledger, w.bootstrap.organizations[j], entries[j].1)
                 && docs[j] == (entries[j].0, Parsed(w, entries[j].1))
    decreases k
  {
    hide Available, ComposableDesired, Contribution, Decides, Sound, Parsed;
    if k > 0 {
      DocumentsDecide(w, ledger, k - 1);
      ComposableExactly(w, ledger, w.bootstrap.organizations[k - 1]);
    }
  }

  // ------------------------------------------------------- teams and defaults

  /** The teams of all documents, each tag inside its organization. */
  function MergedTeams(docs: seq<(string, Desired)>): seq<Team> {
    if docs == [] then []
    else
      var (org, d) := docs[|docs| - 1];
      MergedTeams(docs[..|docs| - 1])
      + seq(|d.teams|, i requires 0 <= i < |d.teams| => Team(Scoped(org, d.teams[i].tag), d.teams[i].name))
  }

  /** The first document's defaults, if it says anything. */
  function FirstDefaults(docs: seq<(string, Desired)>): Defaults {
    if docs == [] || !HasDesiredState(docs[0].1) then DEFAULTS else NamespaceDefaults(docs[0].0, docs[0].1.defaults)
  }

  lemma NamespaceKeepsState(org: string, d: Desired)
    ensures HasDesiredState(NamespaceDesired(org, d)) <==> HasDesiredState(d)
    ensures NamespaceDesired(org, d).defaults == NamespaceDefaults(org, d.defaults)
    ensures NamespaceDesired(org, d).teams
            == seq(|d.teams|, i requires 0 <= i < |d.teams| => Team(Scoped(org, d.teams[i].tag), d.teams[i].name))
  {
    hide Scoped, OrgEventTags, NamespaceNotifier, NamespaceSource;
    if d.presets != [] {
      PresetsStay(org, d.presets);
    }
  }

  lemma PresetsStay(org: string, presets: seq<NamedPreset>)
    requires presets != []
    ensures RenamePresets(org, presets) != []
  {
    hide Scoped;
  }

  lemma {:induction false} ProgressDefaults(w: World, ledger: seq<Revision>, override: Option<Override>, k: nat)
    requires k <= |w.bootstrap.organizations| && ComposeFirst(w, ledger, override, k).Some?
    ensures var p := ComposeFirst(w, ledger, override, k).value;
            var docs := Documents(w, ledger, override, k);
            && |docs| == k && |p.sources| == k
            && p.merged.teams == MergedTeams(docs) && p.merged.defaults == FirstDefaults(docs)
    decreases k
  {
    hide ComposableDesired, Contribution, Entry, HasDesiredState, InsertPresets, Strictest, NamespaceDesired, NamespaceDefaults;
    hide Scoped;
    if k > 0 {
      ProgressDefaults(w, ledger, override, k - 1);
      var docs := Documents(w, ledger, override, k);
      assert docs[..k - 1] == Documents(w, ledger, override, k - 1);
      NamespaceKeepsState(docs[k - 1].0, docs[k - 1].1);
    } else {
      assert !HasDesiredState(NOTHING_DESIRED) by { NothingSaysNothing(); }
    }
  }

  lemma NothingSaysNothing()
    ensures !HasDesiredState(NOTHING_DESIRED)
  {
  }

  // -------------------------------------------------------------------- boot

  /** Something is watched or notified. */
  predicate Works(docs: seq<(string, Desired)>) {
    exists j :: 0 <= j < |docs| && (docs[j].1.sources != [] || docs[j].1.notifiers != [])
  }

  /**
   Composition without an override, on texts alone: it succeeds exactly if the ids are
   there and different, every organization's deciding text is sound, and something
   is left to do or may still come.
   */
  lemma ComposesExactly(w: World, ledger: seq<Revision>)
    ensures var orgs := w.bootstrap.organizations;
            Compose(w, ledger, None).Some? <==>
            && DistinctIds(orgs, |orgs|) && (forall j :: 0 <= j < |orgs| ==> Available(w, ledger, orgs[j]))
            && (ByLedger(w) || Works(Documents(w, ledger, None, |orgs|)))
  {
    hide Available, ComposeFirst, Documents;
    var n := |w.bootstrap.organizations|;
    ComposesFirst(w, ledger, n);
    if ComposeFirst(w, ledger, None, n).Some? {
      ProgressMerges(w, ledger, None, n);
      WorksExactly(Documents(w, ledger, None, n));
    }
  }

  lemma {:induction false} WorksExactly(docs: seq<(string, Desired)>)
    ensures Works(docs) <==> MergedSources(docs) != [] || MergedNotifiers(docs) != []
    decreases |docs|
  {
    hide NamespaceNotifier, NamespaceSource, NamespaceDefaults, OrgEventTags, RenamePresets;
    if docs != [] {
      var last := |docs| - 1;
      WorksExactly(docs[..last]);
      assert docs == docs[..last] + [docs[last]];
    }
  }

  /**
   What a composed process runs: bootstrap's infrastructure, and the sinks, sources,
   teams and presets of the deciding texts, one organization after the other, with
   the first one's defaults up to the cap; its identity is made of those texts.
   */
  lemma ComposedFromTexts(w: World, ledger: seq<Revision>) returns (docs: seq<(string, Desired)>, texts: seq<string>)
    requires Compose(w, ledger, None).Some?
    ensures Deciding(w, ledger, docs, texts)
    ensures var c := Compose(w, ledger, None).value;
            && c.merged.infra == w.bootstrap.infra && c.merged.organizations == w.bootstrap.organizations
            && c.merged.desired.sources == MergedSources(docs) && c.merged.desired.notifiers == MergedNotifiers(docs)
            && c.merged.desired.teams == MergedTeams(docs) && c.merged.desired.presets == MergedPresets(docs)
            && c.merged.desired.defaults
               == FirstDefaults(docs).(upstreamRpm := c.merged.desired.defaults.upstreamRpm)
            && c.identity == w.sha(Identity(seq(|docs|, j requires 0 <= j < |docs| && |texts| == |docs| => (docs[j].0, texts[j]))))
  {
    hide Available, ComposeFirst, Documents, Decides, Sound, Parsed, MergedTeams, MergedSources, MergedNotifiers;
    hide MergedPresets, FirstDefaults, Identity, Entries;
    var n := |w.bootstrap.organizations|;
    ComposesExactly(w, ledger);
    DocumentsDecide(w, ledger, n);
    ProgressMerges(w, ledger, None, n);
    ProgressDefaults(w, ledger, None, n);
    IdentityOfProgress(w, ledger, None, n);
    docs := Documents(w, ledger, None, n);
    var entries := Entries(w, ledger, None, n);
    texts := seq(n, j requires 0 <= j < n => entries[j].1);
    assert entries == seq(|docs|, j requires 0 <= j < |docs| && |texts| == |docs| => (docs[j].0, texts[j]));
  }

  /** A named file that is missing keeps a process from starting, unless the organization has a row. */
  lemma MissingFileFails(w: World, ledger: seq<Revision>, store: map<string, string>, j: nat)
    requires j < |w.bootstrap.organizations|
    requires var org := w.bootstrap.organizations[j];
             !HasRow(w, ledger, org) && NamesFile(org) && Trim(org.app.value) !in w.orgFiles
    ensures Compose(w, ledger, None).None? && Boot(w, ledger, store).None?
  {
    hide Latest, Trim, Compose, HasDesiredState;
    ComposesExactly(w, ledger);
  }

  /** A first start: with an empty ledger every organization that names a file runs what its file says. */
  lemma FirstStartRunsFiles(w: World, store: map<string, string>) returns (docs: seq<(string, Desired)>)
    requires w.bootstrap.organizations != [] && Boot(w, [], store).Some?
    ensures var orgs := w.bootstrap.organizations;
            var d := Boot(w, [], store).value.running.desired;
            && |docs| == |orgs| && d.sources == MergedSources(docs) && d.notifiers == MergedNotifiers(docs)
            && d.teams == MergedTeams(docs)
            && forall j :: 0 <= j < |orgs| ==>
                 docs[j] == (orgs[j].id, if NamesFile(orgs[j]) && Trim(orgs[j].app.value) in w.orgFiles
                                         then Parsed(w, w.orgFiles[Trim(orgs[j].app.value)])
                                         else Parsed(w, "{}\n"))
  {
    hide Trim, Compose, Parsed, MergedSources, MergedNotifiers, MergedTeams, MergedPresets, FirstDefaults, Identity, Builds;
    hide Meanings, BootIdentity, HasDesiredState;
    var texts;
    docs, texts := ComposedFromTexts(w, []);
  }

  // ----------------------------------------------------------- one document

  /**
   What a single-document process starts with: the newest row if rows count, else the
   app file, else nothing at all, if documents may still come.
   */
  lemma SingleDocumentStarts(w: World, ledger: seq<Revision>)
    requires w.bootstrap.organizations == []
    ensures var row := if ByLedger(w) then Latest(ledger, None) else None;
            var text := if row.Some? then Some(row.value.content)
                        else if w.appFile.Present? then Some(w.appFile.text) else None;
            var hint := if row.Some? then None else if w.appFile.Present? then w.appFile.format else None;
            match text
            case None => Resolve(w, ledger) == if ByLedger(w) then Some(Idle(w)) else None
            case Some(raw) =>
              match w.parse(hint, raw)
              case None => Resolve(w, ledger) == None
              case Some(c) =>
                var d := OverlayDesired(w.overlay, c.desired);
                if !IsDesiredOnly(c) then Resolve(w, ledger) == None
                else if row.Some? || HasDesiredState(d) then
                  Resolve(w, ledger) == Some(Config(w.bootstrap.infra, [], "", d))
                else Resolve(w, ledger) == if ByLedger(w) then Some(Idle(w)) else None
  {
    hide Latest, HasDesiredState, OverlayDesired;
  }

  /** Bootstrap's infrastructure and no document. */
  function Idle(w: World): Config {
    Config(w.bootstrap.infra, w.bootstrap.organizations, "", NOTHING_DESIRED)
  }
}
