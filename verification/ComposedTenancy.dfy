/**
 Tenancy in the configuration that composition actually builds: every sink and
 source of the merged configuration belongs to one organization, and delivery
 stays inside it (src/config/resolve.rs, src/config/organizations.rs).
 */
module ComposedTenancy {
  import opened Text
  import opened Settings
  import opened Namespaces
  import opened Presets
  import opened Tenancy
  import opened Composition

  /** The documents the first `k` organizations contribute, parsed and overlaid. */
  function Documents(w: World, ledger: seq<Revision>, override: Option<Override>, k: nat): seq<(string, Desired)>
    requires k <= |w.bootstrap.organizations|
  {
    if k == 0 then []
    else
      var org := w.bootstrap.organizations[k - 1];
      var a := Contribution(w, ledger, override, org);
      var d := if a.Some? then ComposableDesired(w, a.value) else None;
      Documents(w, ledger, override, k - 1) + [(org.id, if d.Some? then d.value else NOTHING_DESIRED)]
  }

  /** The merged sinks of a list of documents. */
  function MergedNotifiers(docs: seq<(string, Desired)>): seq<Notifier> {
    if docs == [] then []
    else
      var last := |docs| - 1;
      MergedNotifiers(docs[..last]) + NamespaceDesired(docs[last].0, docs[last].1).notifiers
  }

  /** The merged sources of a list of documents. */
  function MergedSources(docs: seq<(string, Desired)>): seq<Source> {
    if docs == [] then []
    else
      var last := |docs| - 1;
      MergedSources(docs[..last]) + NamespaceDesired(docs[last].0, docs[last].1).sources
  }

  /** One turn of the composition loop appends one namespaced document. */
  lemma ComposeStep(w: World, ledger: seq<Revision>, override: Option<Override>, k: nat)
    requires 0 < k <= |w.bootstrap.organizations| && ComposeFirst(w, ledger, override, k).Some?
    ensures ComposeFirst(w, ledger, override, k - 1).Some? && Documents(w, ledger, override, k) != []
    ensures var before := ComposeFirst(w, ledger, override, k - 1).value.merged;
            var after := ComposeFirst(w, ledger, override, k).value.merged;
            var docs := Documents(w, ledger, override, k);
            var (org, d) := docs[|docs| - 1];
            && docs == Documents(w, ledger, override, k - 1) + [(org, d)]
            && after.notifiers == before.notifiers + NamespaceDesired(org, d).notifiers
            && after.sources == before.sources + NamespaceDesired(org, d).sources
            && after.presets == InsertPresets(before.presets, RenamePresets(org, d.presets))
  {
    hide ComposableDesired, Contribution, Entry, HasDesiredState, InsertPresets, Strictest, NamespaceDesired;
    var docs := Documents(w, ledger, override, k);
    NamespacedPresets(docs[|docs| - 1].0, docs[|docs| - 1].1);
  }

  lemma MergedNext(docs: seq<(string, Desired)>, org: string, d: Desired)
    ensures MergedNotifiers(docs + [(org, d)]) == MergedNotifiers(docs) + NamespaceDesired(org, d).notifiers
    ensures MergedSources(docs + [(org, d)]) == MergedSources(docs) + NamespaceDesired(org, d).sources
    ensures MergedPresets(docs + [(org, d)]) == InsertPresets(MergedPresets(docs), RenamePresets(org, d.presets))
  {
    hide NamespaceDesired, InsertPresets, RenamePresets;
    assert (docs + [(org, d)])[..|docs|] == docs;
  }

  lemma {:induction false} ProgressMerges(w: World, ledger: seq<Revision>, override: Option<Override>, k: nat)
    requires k <= |w.bootstrap.organizations| && ComposeFirst(w, ledger, override, k).Some?
    ensures var p := ComposeFirst(w, ledger, override, k).value;
            var docs := Documents(w, ledger, override, k);
            && p.merged.notifiers == MergedNotifiers(docs)
            && p.merged.sources == MergedSources(docs)
            && p.merged.presets == MergedPresets(docs)
    decreases k
  {
    hide ComposeFirst, Documents, MergedNotifiers, MergedSources, MergedPresets, NamespaceDesired, InsertPresets;
    hide RenamePresets;
    if k == 0 {
      NothingMerged(w, ledger, override);
    } else {
      ComposeStep(w, ledger, override, k);
      ProgressMerges(w, ledger, override, k - 1);
      var docs := Documents(w, ledger, override, k);
      MergedNext(Documents(w, ledger, override, k - 1), docs[|docs| - 1].0, docs[|docs| - 1].1);
    }
  }

  lemma NothingMerged(w: World, ledger: seq<Revision>, override: Option<Override>)
    ensures ComposeFirst(w, ledger, override, 0) == Some(START) && Documents(w, ledger, override, 0) == []
    ensures MergedNotifiers([]) == [] && MergedSources([]) == [] && MergedPresets([]) == []
  {
  }

  lemma NamespacedPresets(org: string, d: Desired)
    ensures NamespaceDesired(org, d).presets == RenamePresets(org, d.presets)
  {
  }

  lemma {:induction false} ProgressIds(w: World, ledger: seq<Revision>, override: Option<Override>, k: nat)
    requires k <= |w.bootstrap.organizations| && ComposeFirst(w, ledger, override, k).Some?
    ensures var p := ComposeFirst(w, ledger, override, k).value;
            var docs := Documents(w, ledger, override, k);
            && |docs| == k
            && (forall a :: 0 <= a < k ==> docs[a].0 in p.seen)
            && (forall a, b :: 0 <= a < b < k ==> docs[a].0 != docs[b].0)
    decreases k
  {
    hide ComposableDesired, Contribution, Entry, HasDesiredState, InsertPresets, Strictest, NamespaceDesired;
    if k > 0 {
      ProgressIds(w, ledger, override, k - 1);
    }
  }

  /**
   The merged configuration is the namespaced documents, one after the other, under
   pairwise different organization ids.
   */
  lemma CompositionMerges(w: World, ledger: seq<Revision>, override: Option<Override>)
    requires Compose(w, ledger, override).Some?
    ensures var merged := Compose(w, ledger, override).value.merged.desired;
            var docs := Documents(w, ledger, override, |w.bootstrap.organizations|);
            && merged.notifiers == MergedNotifiers(docs) && merged.sources == MergedSources(docs)
            && merged.presets == MergedPresets(docs)
            && (forall a, b :: 0 <= a < b < |docs| ==> docs[a].0 != docs[b].0)
  {
    hide ComposeFirst, Documents, MergedNotifiers, MergedSources, MergedPresets;
    ProgressMerges(w, ledger, override, |w.bootstrap.organizations|);
    ProgressIds(w, ledger, override, |w.bootstrap.organizations|);
  }

  /** Which organization a merged sink comes from, and which of its sinks it is. */
  lemma {:induction false} SinkOwner(docs: seq<(string, Desired)>, q: nat) returns (b: nat, j: nat)
    requires q < |MergedNotifiers(docs)|
    ensures b < |docs| && j < |docs[b].1.notifiers|
    ensures MergedNotifiers(docs)[q] == NamespaceDesired(docs[b].0, docs[b].1).notifiers[j]
    decreases |docs|
  {
    hide NamespaceNotifier, NamespaceSource, NamespaceDefaults, OrgEventTags, Scoped, RenamePresets;
    var last := |docs| - 1;
    var before := |MergedNotifiers(docs[..last])|;
    if q < before {
      b, j := SinkOwner(docs[..last], q);
    } else {
      b, j := last, q - before;
    }
  }

  /** Which organization a merged source comes from, and which of its sources it is. */
  lemma {:induction false} SourceOwner(docs: seq<(string, Desired)>, p: nat) returns (a: nat, i: nat)
    requires p < |MergedSources(docs)|
    ensures a < |docs| && i < |docs[a].1.sources|
    ensures MergedSources(docs)[p] == NamespaceDesired(docs[a].0, docs[a].1).sources[i]
    decreases |docs|
  {
    hide NamespaceNotifier, NamespaceSource, NamespaceDefaults, OrgEventTags, Scoped, RenamePresets;
    var last := |docs| - 1;
    var before := |MergedSources(docs[..last])|;
    if p < before {
      a, i := SourceOwner(docs[..last], p);
    } else {
      a, i := last, p - before;
    }
  }

  /** The tag a source's events carry once its preset is resolved. */
  function EventOf(builtins: seq<NamedPreset>, d: Desired, s: Source): Option<Option<string>> {
    match ResolvePreset(Catalogue(builtins, d.presets), s.common)
    case None => None
    case Some(c) => Some(c.routingTag)
  }

  lemma CompositionDistinct(w: World, ledger: seq<Revision>, override: Option<Override>)
    requires Compose(w, ledger, override).Some?
    requires forall k :: 0 <= k < |w.bootstrap.organizations| ==> SoundId(w.bootstrap.organizations[k].id)
    ensures Distinct(Documents(w, ledger, override, |w.bootstrap.organizations|))
  {
    hide Compose, SoundId, MergedNotifiers, MergedSources, MergedPresets;
    CompositionMerges(w, ledger, override);
    DocumentIds(w, ledger, override, |w.bootstrap.organizations|);
  }

  lemma {:induction false} DocumentIds(w: World, ledger: seq<Revision>, override: Option<Override>, k: nat)
    requires k <= |w.bootstrap.organizations|
    ensures |Documents(w, ledger, override, k)| == k
    ensures forall a :: 0 <= a < k ==> Documents(w, ledger, override, k)[a].0 == w.bootstrap.organizations[a].id
    decreases k
  {
    hide Contribution, ComposableDesired;
    if k > 0 {
      DocumentIds(w, ledger, override, k - 1);
    }
  }

  /**
   Isolation in the composed configuration, whatever any tenant's document holds:
   an event of any merged source reaches a merged sink exactly when both come from
   one organization's document and the sink takes the source's tag there.
   */
  lemma ComposedIsolation(w: World, ledger: seq<Revision>, override: Option<Override>, builtins: seq<NamedPreset>,
                          p: nat, q: nat)
    returns (a: nat, i: nat, b: nat, j: nat)
    requires Compose(w, ledger, override).Some?
    requires var merged := Compose(w, ledger, override).value.merged.desired;
             p < |merged.sources| && q < |merged.notifiers|
             && EventOf(builtins, merged, merged.sources[p]).Some?
    requires forall k :: 0 <= k < |w.bootstrap.organizations| ==> SoundId(w.bootstrap.organizations[k].id)
    ensures var merged := Compose(w, ledger, override).value.merged.desired;
            var docs := Documents(w, ledger, override, |w.bootstrap.organizations|);
            && Distinct(docs)
            && a < |docs| && i < |docs[a].1.sources| && b < |docs| && j < |docs[b].1.notifiers|
            && merged.sources[p] == NamespaceDesired(docs[a].0, docs[a].1).sources[i]
            && merged.notifiers[q] == NamespaceDesired(docs[b].0, docs[b].1).notifiers[j]
            && EventOf(builtins, merged, merged.sources[p]) == MergedEvent(builtins, docs, a, i)
            && (MatchesRoutingTags(merged.notifiers[q].tags, EventOf(builtins, merged, merged.sources[p]).value)
                <==> a == b && Takes(docs[b].0, docs[b].1.notifiers[j], docs[a].1.sources[i]))
  {
    hide Compose, Documents, MergedNotifiers, MergedSources, MergedPresets, NamespaceDesired, Catalogue, Takes;
    hide MatchesRoutingTags, ResolvePreset, SoundId, Distinct;
    var docs := Documents(w, ledger, override, |w.bootstrap.organizations|);
    CompositionMerges(w, ledger, override);
    CompositionDistinct(w, ledger, override);
    a, i := SourceOwner(docs, p);
    b, j := SinkOwner(docs, q);
    DeliveryLaw(builtins, docs, a, i, b, j);
  }

  /**
   Delivery in the composed configuration against the document alone.  Only the
   tags of the source and sink at hand need be clean: delivery agrees exactly if the
   source decides its own tag, or the sink is a catch-all, or did not take it alone.
   */
  lemma ComposedDelivery(w: World, ledger: seq<Revision>, override: Option<Override>, builtins: seq<NamedPreset>,
                         p: nat, q: nat)
    returns (a: nat, i: nat, b: nat, j: nat)
    requires Compose(w, ledger, override).Some?
    requires var merged := Compose(w, ledger, override).value.merged.desired;
             p < |merged.sources| && q < |merged.notifiers|
             && EventOf(builtins, merged, merged.sources[p]).Some?
    requires forall k :: 0 <= k < |w.bootstrap.organizations| ==> SoundId(w.bootstrap.organizations[k].id)
    ensures var merged := Compose(w, ledger, override).value.merged.desired;
            var docs := Documents(w, ledger, override, |w.bootstrap.organizations|);
            && a < |docs| && i < |docs[a].1.sources| && b < |docs| && j < |docs[b].1.notifiers|
            && var (org, d) := docs[a];
               var s, n := d.sources[i], docs[b].1.notifiers[j];
               var delivered := MatchesRoutingTags(merged.notifiers[q].tags,
                                                   EventOf(builtins, merged, merged.sources[p]).value);
               && (delivered ==> a == b)
               && (a == b && CleanPair(org, s, n) && EventOf(builtins, d, s).Some? ==>
                     var alone := MatchesRoutingTags(n.tags, EventOf(builtins, d, s).value);
                     (delivered <==> alone) <==> OwnTag(builtins, d, s) || n.tags == [] || !alone)
  {
    hide Compose, Documents, MergedNotifiers, MergedSources, MergedPresets, NamespaceDesired, Catalogue, Takes;
    hide MatchesRoutingTags, ResolvePreset, OwnTag, SoundId, Distinct, MergedEvent, CleanPair;
    a, i, b, j := ComposedIsolation(w, ledger, override, builtins, p, q);
    var docs := Documents(w, ledger, override, |w.bootstrap.organizations|);
    if a == b && EventOf(builtins, docs[a].1, docs[a].1.sources[i]).Some? {
      MergedDelivery(builtins, docs, a, i, b, j);
    }
  }
}
