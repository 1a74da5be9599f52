/**
 What namespacing is for: in the merged configuration an event reaches exactly
 the sinks of its own organization that it reached in that organization's own
 document.
 */
module Tenancy {
  import opened Text
  import opened Settings
  import opened Restoration
  import opened Namespaces
  import opened Presets

  // ----------------------------------------------- routing inside one org

  /** The name under which a source's events travel inside its organization. */
  function TagName(s: Source): string {
    if HasTag(s) then s.common.routingTag.value else BROADCAST
  }

  lemma EventTagScoped(org: string, s: Source)
    ensures EventTag(org, s) == Scoped(org, TagName(s))
  {
  }

  lemma {:induction false} SourceTagsCover(org: string, d: Desired, s: Source)
    requires s in d.sources
    ensures EventTag(org, s) in OrgEventTags(org, d)
  {
  }

  /** Every catch-all tag is one of the organization's own. */
  lemma CatchAllScoped(org: string, d: Desired, t: string)
    requires t in OrgEventTags(org, d)
    ensures exists name :: t == Scoped(org, name)
  {
    var tags := SourceTags(org, d.sources);
    if t in tags {
      if t != Scoped(org, BROADCAST) {
        var s :| s in d.sources && t == EventTag(org, s);
        EventTagScoped(org, s);
      }
    }
  }

  /**
   The exact routing law inside one organization: a namespaced sink takes a
   namespaced event when it was a catch-all, or lists a tag that is the event's
   once both are stripped of the organization's prefix.
   */
  lemma ScopedDelivery(org: string, d: Desired, n: Notifier, s: Source)
    requires SoundId(org) && s in d.sources
    ensures MatchesRoutingTags(NamespaceNotifier(org, n, OrgEventTags(org, d)).tags, Some(EventTag(org, s))) <==>
            n.tags == [] || exists k :: 0 <= k < |n.tags| && Bare(org, n.tags[k]) == Bare(org, TagName(s))
  {
    SoundIsProper(org);
    hide Scoped, Bare, Trim, OrgEventTags, SourceTags, Trimmed, ProperId;
    var event := EventTag(org, s);
    EventTagScoped(org, s);
    ScopedTrimmed(org, TagName(s));
    var tags := NamespaceNotifier(org, n, OrgEventTags(org, d)).tags;
    if n.tags == [] {
      SourceTagsCover(org, d, s);
      var k :| 0 <= k < |tags| && tags[k] == event;
      assert Trim(tags[k]) == Trim(event);
    } else {
      forall k | 0 <= k < |tags|
        ensures Trim(tags[k]) == Trim(event) <==> Bare(org, n.tags[k]) == Bare(org, TagName(s))
      {
        ScopedTrimmed(org, n.tags[k]);
        ScopedCollides(org, n.tags[k], TagName(s));
      }
    }
  }

  /** The tags a document may use for its routing to survive namespacing. */
  predicate CleanTag(org: string, tag: string) {
    !(Prefix(org) <= Trim(tag)) && Trim(tag) != BROADCAST
  }

  /** The tag of the source and those of the sink are clean. */
  predicate CleanPair(org: string, s: Source, n: Notifier) {
    && (HasTag(s) ==> CleanTag(org, s.common.routingTag.value))
    && (forall k :: 0 <= k < |n.tags| ==> CleanTag(org, n.tags[k]))
  }

  lemma BroadcastBare(org: string)
    requires org != "" && Trimmed(org)
    ensures Trim(BROADCAST) == BROADCAST
  {
    var b := BROADCAST;
    assert b == "__org__" && !IsSpace('_');
    assert Trimmed(b);
    TrimFixes(b);
  }

  /** Routing by a source's own tag is preserved, tagged source or not. */
  lemma OwnTagDelivery(org: string, d: Desired, i: nat, j: nat)
    requires SoundId(org) && i < |d.sources| && j < |d.notifiers| && CleanPair(org, d.sources[i], d.notifiers[j])
    ensures MatchesRoutingTags(NamespaceDesired(org, d).notifiers[j].tags, Some(EventTag(org, d.sources[i]))) <==>
            MatchesRoutingTags(d.notifiers[j].tags, d.sources[i].common.routingTag)
  {
    var n, s := d.notifiers[j], d.sources[i];
    assert s in d.sources;
    ScopedDelivery(org, d, n, s);
    SoundIsProper(org);
    hide Trim, Scoped, OrgEventTags, ScopedTags, Trimmed, ProperId;
    BroadcastBare(org);
    BroadcastUnprefixed(org);
    forall k | 0 <= k < |n.tags|
      ensures Bare(org, n.tags[k]) == Bare(org, TagName(s)) <==>
              HasTag(s) && Trim(n.tags[k]) == Trim(s.common.routingTag.value)
    {
      assert CleanTag(org, n.tags[k]);
    }
  }

  // ------------------------------------------------------------ the theorem

  /** The tag a source's events carry when its document runs on its own. */
  function StandaloneEvent(builtins: seq<NamedPreset>, d: Desired, i: nat): Option<Option<string>>
    requires i < |d.sources|
  {
    match ResolvePreset(Catalogue(builtins, d.presets), d.sources[i].common)
    case None => None
    case Some(c) => Some(c.routingTag)
  }

  /** The tag the same source's events carry in the merged configuration. */
  function MergedEvent(builtins: seq<NamedPreset>, docs: seq<(string, Desired)>, a: nat, i: nat): Option<Option<string>>
    requires a < |docs| && i < |docs[a].1.sources|
  {
    var source := NamespaceDesired(docs[a].0, docs[a].1).sources[i];
    match ResolvePreset(Catalogue(builtins, MergedPresets(docs)), source.common)
    case None => None
    case Some(c) => Some(c.routingTag)
  }

  /** The source decides its own routing: its preset contributes no tag it uses. */
  predicate OwnTag(builtins: seq<NamedPreset>, d: Desired, s: Source) {
    || s.common.routingTag.Some?
    || s.common.preset.None?
    || (match FindPreset(Catalogue(builtins, d.presets), Trim(s.common.preset.value))
        case None => true
        case Some(p) => p.routingTag.None? || Blank(p.routingTag.value))
  }

  /**
   Whatever its document holds, a source of the merged configuration that resolves
   emits its namespaced tag, and it resolves when it did alone exactly under
   `SameResolution`.
   */
  lemma MergedEventTag(builtins: seq<NamedPreset>, docs: seq<(string, Desired)>, a: nat, i: nat)
    requires Distinct(docs) && a < |docs| && i < |docs[a].1.sources|
    ensures MergedEvent(builtins, docs, a, i).Some? ==>
              MergedEvent(builtins, docs, a, i).value == Some(EventTag(docs[a].0, docs[a].1.sources[i]))
    ensures UniqueNames(docs[a].1.presets) ==>
              ((MergedEvent(builtins, docs, a, i).Some? <==> StandaloneEvent(builtins, docs[a].1, i).Some?)
               <==> SameResolution(builtins, docs, a, docs[a].1.sources[i].common))
  {
    var (org, d) := docs[a];
    var s := d.sources[i];
    var tag := EventTag(org, s);
    MergedCommon(org, d, i);
    hide MergedPresets, Catalogue, Trim, Distinct, EventTag, FindPreset, NamespaceDesired, PresetNames, NamespaceDefaults;
    hide UniqueNames, SameResolution;
    if UniqueNames(d.presets) {
      ResolvesAlike(builtins, docs, a, s.common, tag);
    }
  }

  lemma MergedCommon(org: string, d: Desired, i: nat)
    requires i < |d.sources|
    ensures NamespaceDesired(org, d).sources[i].common ==
            NamespaceCommon(org, d.sources[i].common, NamespaceDefaults(org, d.defaults), d.presets,
                            EventTag(org, d.sources[i]))
  {
    hide NamespaceCommon, EventTag, NamespaceDefaults, OrgEventTags, NamespaceId, RenamePresets;
  }

  /** A namespaced tag of one organization reaches no sink of another. */
  lemma ForeignTagDeaf(docs: seq<(string, Desired)>, a: nat, i: nat, b: nat, j: nat)
    requires Distinct(docs) && a < |docs| && b < |docs| && a != b
    requires i < |docs[a].1.sources| && j < |docs[b].1.notifiers|
    ensures !MatchesRoutingTags(NamespaceDesired(docs[b].0, docs[b].1).notifiers[j].tags,
                                Some(EventTag(docs[a].0, docs[a].1.sources[i])))
  {
    var (org, d) := docs[a];
    var (other, e) := docs[b];
    var tags := NamespaceDesired(other, e).notifiers[j].tags;
    SoundIsProper(org);
    SoundIsProper(other);
    EventTagScoped(org, d.sources[i]);
    ScopedTrimmed(org, TagName(d.sources[i]));
    hide Scoped, Trim, OrgEventTags, SoundId, Trimmed, EventTag;
    forall k | 0 <= k < |tags| ensures Trim(tags[k]) != Trim(EventTag(org, d.sources[i])) {
      var name :| tags[k] == Scoped(other, name) by {
        if e.notifiers[j].tags == [] {
          CatchAllScoped(other, e, tags[k]);
        } else {
          assert tags[k] == Scoped(other, e.notifiers[j].tags[k]);
        }
      }
      ScopedTrimmed(other, name);
      OwnersDisjoint(org, other, TagName(d.sources[i]), name);
    }
  }

  /**
   Isolation: whatever the documents hold, the event a merged source really emits
   reaches no sink of another organization.
   */
  lemma ForeignSinkDeaf(builtins: seq<NamedPreset>, docs: seq<(string, Desired)>, a: nat, i: nat, b: nat, j: nat)
    requires Distinct(docs) && a < |docs| && b < |docs| && a != b
    requires i < |docs[a].1.sources| && j < |docs[b].1.notifiers| && MergedEvent(builtins, docs, a, i).Some?
    ensures !MatchesRoutingTags(NamespaceDesired(docs[b].0, docs[b].1).notifiers[j].tags,
                                MergedEvent(builtins, docs, a, i).value)
  {
    hide MergedEvent, StandaloneEvent, MatchesRoutingTags, NamespaceDesired, EventTag, SameResolution, UniqueNames;
    MergedEventTag(builtins, docs, a, i);
    ForeignTagDeaf(docs, a, i, b, j);
  }

  /** The sink is a catch-all or lists the source's tag, both without the organization's prefix. */
  predicate Takes(org: string, n: Notifier, s: Source) {
    n.tags == [] || exists k :: 0 <= k < |n.tags| && Bare(org, n.tags[k]) == Bare(org, TagName(s))
  }

  /**
   The delivery law of the merged configuration, for all documents: an event reaches
   a sink exactly when both belong to one organization and the sink takes the
   source's tag there.
   */
  lemma DeliveryLaw(builtins: seq<NamedPreset>, docs: seq<(string, Desired)>, a: nat, i: nat, b: nat, j: nat)
    requires Distinct(docs) && a < |docs| && b < |docs|
    requires i < |docs[a].1.sources| && j < |docs[b].1.notifiers| && MergedEvent(builtins, docs, a, i).Some?
    ensures MatchesRoutingTags(NamespaceDesired(docs[b].0, docs[b].1).notifiers[j].tags,
                               MergedEvent(builtins, docs, a, i).value)
            <==> a == b && Takes(docs[b].0, docs[b].1.notifiers[j], docs[a].1.sources[i])
  {
    var (org, d) := docs[a];
    if a != b {
      ForeignSinkDeaf(builtins, docs, a, i, b, j);
    } else {
      MergedEventTag(builtins, docs, a, i);
      hide MergedEvent, MatchesRoutingTags, EventTag, SameResolution, UniqueNames, OrgEventTags, Bare, SoundId;
      assert d.sources[i] in d.sources;
      ScopedDelivery(org, d, d.notifiers[j], d.sources[i]);
    }
  }

  /**
   Tenancy: a merged event reaches a sink of another organization never, and a clean
   sink of its own just when it did in that document alone, exactly if the source
   decides its own tag, or the sink is a catch-all, or the sink did not take it.
   */
  lemma MergedDelivery(builtins: seq<NamedPreset>, docs: seq<(string, Desired)>, a: nat, i: nat, b: nat, j: nat)
    requires Distinct(docs) && a < |docs| && b < |docs|
    requires i < |docs[a].1.sources| && j < |docs[b].1.notifiers|
    requires MergedEvent(builtins, docs, a, i).Some? && StandaloneEvent(builtins, docs[a].1, i).Some?
    ensures var (org, d) := docs[a];
            var s := d.sources[i];
            var n := docs[b].1.notifiers[j];
            var merged := MatchesRoutingTags(NamespaceDesired(docs[b].0, docs[b].1).notifiers[j].tags,
                                             MergedEvent(builtins, docs, a, i).value);
            var alone := MatchesRoutingTags(n.tags, StandaloneEvent(builtins, d, i).value);
            && (a != b ==> !merged)
            && (a == b && CleanPair(org, s, n) ==>
                  ((merged <==> alone) <==> OwnTag(builtins, d, s) || n.tags == [] || !alone))
  {
    var (org, d) := docs[a];
    var s := d.sources[i];
    if a != b {
      ForeignSinkDeaf(builtins, docs, a, i, b, j);
    } else if CleanPair(org, s, d.notifiers[j]) {
      MergedEventTag(builtins, docs, a, i);
      OwnTagDelivery(org, d, i, j);
      hide MergedEvent, NamespaceDesired, Catalogue, Trim, EventTag, SameResolution, UniqueNames, CleanPair, SoundId;
      OwnOrPreset(builtins, d, i);
      SameAudience(d.notifiers[j].tags, s.common.routingTag, StandaloneEvent(builtins, d, i).value);
    }
  }

  /** A source either has the audience of its own tag, or has none of its own and takes its preset's. */
  lemma OwnOrPreset(builtins: seq<NamedPreset>, d: Desired, i: nat)
    requires i < |d.sources| && StandaloneEvent(builtins, d, i).Some?
    ensures var own, event := d.sources[i].common.routingTag, StandaloneEvent(builtins, d, i).value;
            if OwnTag(builtins, d, d.sources[i]) then
              own == event || ((own.None? || Blank(own.value)) && (event.None? || Blank(event.value)))
            else own.None? && event.Some? && !Blank(event.value)
  {
    hide Catalogue, Trim, FindPreset;
  }

  lemma SameAudience(tags: seq<string>, own: Option<string>, event: Option<string>)
    ensures own == event || ((own.None? || Blank(own.value)) && (event.None? || Blank(event.value))) ==>
              (MatchesRoutingTags(tags, own) <==> MatchesRoutingTags(tags, event))
    ensures own.None? ==> (MatchesRoutingTags(tags, own) <==> tags == [])
  {
    hide Trim;
  }

  lemma BroadcastUnprefixed(org: string)
    ensures !(Prefix(org) <= BROADCAST)
  {
    var b := BROADCAST;
    assert ':' !in b && ':' in Prefix(org) by { assert Prefix(org)[|org|] == ':'; }
    PrefixLacks(Prefix(org), b, ':');
  }

  lemma {:induction false} PrefixLacks(p: string, s: string, c: char)
    requires c in p && c !in s
    ensures !(p <= s)
    decreases |p|
  {
    if s != "" && p[0] == s[0] {
      PrefixLacks(p[1..], s[1..], c);
      assert s == [s[0]] + s[1..] && p == [p[0]] + p[1..];
    }
  }

  // -------------------------------------------- where the conditions matter

  /** An instance: a tag that only a preset supplies does not reach a sink that lists it. */
  lemma PresetTagLost(builtins: seq<NamedPreset>, org: string, s: Source, n: Notifier, preset: string, p: Preset)
    requires SoundId(org) && n.tags != [] && CleanPair(org, s, n) && !Blank(preset) && Trim(preset) == preset
    requires s.common.preset == Some(preset) && s.common.routingTag == None
    requires p.routingTag.Some? && MatchesRoutingTags(n.tags, p.routingTag)
    ensures var d := NOTHING_DESIRED.(notifiers := [n], presets := [NamedPreset(preset, p)], sources := [s]);
            var docs := [(org, d)];
            && StandaloneEvent(builtins, d, 0) == Some(p.routingTag)
            && MergedEvent(builtins, docs, 0, 0).Some?
            && !MatchesRoutingTags(NamespaceDesired(org, d).notifiers[0].tags, MergedEvent(builtins, docs, 0, 0).value)
  {
    var d := NOTHING_DESIRED.(notifiers := [n], presets := [NamedPreset(preset, p)], sources := [s]);
    var docs := [(org, d)];
    assert UniqueNames(d.presets);
    assert d.presets[0].name == preset && preset in PresetNames(d.presets);
    FindInCatalogue(builtins, d.presets, preset);
    hide Trim, Catalogue, NamespaceDesired, SoundId, CleanPair, EventTag;
    assert StandaloneEvent(builtins, d, 0) == Some(p.routingTag);
    MergedEventTag(builtins, docs, 0, 0);
    MergedDelivery(builtins, docs, 0, 0, 0, 0);
  }

  /** When a notification schedule says nothing, it is as if there were none. */
  function Schedule(notify: Option<string>): Option<string> {
    if notify.None? || Blank(notify.value) then None else notify
  }

  /** `resolve_notify_schedule`: a source's own expression, even an empty one, before the default. */
  function NotifyAt(own: Option<string>, default: Option<string>): Option<string> {
    if own.Some? then Schedule(own) else Schedule(default)
  }

  /**
   A merged source without a preset is polled as in its own document, whatever defaults
   the merged configuration has, and notified on its own schedule exactly if it or its
   document names one, or the merged configuration has none: otherwise the schedule of
   another organization is applied to it.
   */
  lemma SchedulesKept(org: string, c: Common, own: Defaults, presets: seq<NamedPreset>, tag: string, merged: Defaults)
    ensures var m := NamespaceCommon(org, c, own, presets, tag);
            && FirstSome(m.intervalSecs, Some(merged.intervalSecs)) == FirstSome(c.intervalSecs, Some(own.intervalSecs))
            && FirstSome(m.jitterSecs, Some(merged.jitterSecs)) == FirstSome(c.jitterSecs, Some(own.jitterSecs))
            && FirstSome(m.pollOnStartup, Some(merged.pollOnStartup)) == FirstSome(c.pollOnStartup, Some(own.pollOnStartup))
            && (NotifyAt(m.notifySchedule, merged.notifySchedule) == NotifyAt(c.notifySchedule, own.notifySchedule) <==>
                c.notifySchedule.Some? || own.notifySchedule.Some? || Schedule(merged.notifySchedule) == None)
  {
  }

  /** Namespacing leaves everything of a sink but its tags, and of a source but its id and shared settings. */
  lemma NamespacingKeeps(org: string, d: Desired, i: nat, j: nat)
    ensures |NamespaceDesired(org, d).sources| == |d.sources| && |NamespaceDesired(org, d).notifiers| == |d.notifiers|
    ensures i < |d.sources| ==>
              var s, m := d.sources[i], NamespaceDesired(org, d).sources[i];
              m.(id := s.id, common := s.common) == s && m.common.other == s.common.other
    ensures j < |d.notifiers| ==>
              var n, m := d.notifiers[j], NamespaceDesired(org, d).notifiers[j];
              m.(tags := n.tags) == n && NotifierFields(m) == NotifierFields(n)
  {
    hide Scoped, OrgEventTags, EventTag, NamespaceId, RenamePresets;
  }

  /**
   An operator alert carries the tag of the first document's defaults, so in the merged
   configuration it reaches a sink exactly if that is the first organization's own
   catch-all or lists the tag there; no other organization hears it.
   */
  lemma OpsAlertsStayFirst(docs: seq<(string, Desired)>, b: nat, j: nat)
    requires Distinct(docs) && b < |docs| && j < |docs[b].1.notifiers| && HasOpsTag(docs[0].1)
    ensures var tag := docs[0].1.defaults.opsRoutingTag.value;
            var n := docs[b].1.notifiers[j];
            MatchesRoutingTags(NamespaceDesired(docs[b].0, docs[b].1).notifiers[j].tags,
                               NamespaceDefaults(docs[0].0, docs[0].1.defaults).opsRoutingTag)
            <==> b == 0 && (n.tags == [] || exists k :: 0 <= k < |n.tags| && Bare(docs[0].0, n.tags[k]) == Bare(docs[0].0, tag))
  {
    hide NamespaceNotifier, OrgEventTags, MatchesRoutingTags, Scoped, Bare, SoundId;
    var n := docs[b].1.notifiers[j];
    var tag := docs[0].1.defaults.opsRoutingTag.value;
    OpsTagScoped(docs[0].0, docs[0].1);
    OpsAlertTaken(docs[0].0, docs[0].1, docs[b].0, docs[b].1, n);
  }

  lemma OpsTagScoped(org: string, d: Desired)
    requires HasOpsTag(d)
    ensures NamespaceDefaults(org, d.defaults).opsRoutingTag == Some(Scoped(org, d.defaults.opsRoutingTag.value))
  {
    hide Scoped;
  }

  /** Which sinks take an alert of one organization: its own catch-alls and those that list the tag. */
  lemma OpsAlertTaken(org: string, d: Desired, other: string, e: Desired, n: Notifier)
    requires SoundId(org) && SoundId(other) && HasOpsTag(d) && (org == other ==> d == e)
    ensures var tag := d.defaults.opsRoutingTag.value;
            MatchesRoutingTags(NamespaceNotifier(other, n, OrgEventTags(other, e)).tags, Some(Scoped(org, tag)))
            <==> org == other && (n.tags == [] || exists k :: 0 <= k < |n.tags| && Bare(org, n.tags[k]) == Bare(org, tag))
  {
    var tag := d.defaults.opsRoutingTag.value;
    var tags := NamespaceNotifier(other, n, OrgEventTags(other, e)).tags;
    SoundIsProper(org);
    SoundIsProper(other);
    OpsTagListed(other, e);
    hide Scoped, Bare, Trim, OrgEventTags, Trimmed, ProperId;
    ScopedTrimmed(org, tag);
    if n.tags == [] {
      if org == other {
        var k :| 0 <= k < |tags| && tags[k] == Scoped(org, tag);
        assert Trim(tags[k]) == Trim(Scoped(org, tag));
      } else {
        forall k | 0 <= k < |tags| ensures Trim(tags[k]) != Trim(Scoped(org, tag)) {
          EventTagsScoped(other, e, tags[k]);
          var inner :| tags[k] == Scoped(other, inner);
          ScopedTrimmed(other, inner);
          OwnersDisjoint(other, org, inner, tag);
        }
      }
    } else {
      forall k | 0 <= k < |tags|
        ensures Trim(tags[k]) == Trim(Scoped(org, tag)) <==> org == other && Bare(org, n.tags[k]) == Bare(org, tag)
      {
        ScopedTrimmed(other, n.tags[k]);
        if org == other {
          ScopedCollides(org, n.tags[k], tag);
        } else {
          OwnersDisjoint(other, org, n.tags[k], tag);
        }
      }
    }
  }

  lemma OpsTagListed(org: string, d: Desired)
    ensures HasOpsTag(d) ==> Scoped(org, d.defaults.opsRoutingTag.value) in OrgEventTags(org, d)
  {
    hide Scoped;
  }

  /** Every tag a catch-all sink is given is one of its organization's. */
  lemma EventTagsScoped(org: string, d: Desired, t: string)
    requires t in OrgEventTags(org, d)
    ensures exists inner :: t == Scoped(org, inner)
  {
    hide Scoped;
    if !(HasOpsTag(d) && t == Scoped(org, d.defaults.opsRoutingTag.value)) {
      assert t in SourceTags(org, d.sources);
      if t != Scoped(org, BROADCAST) {
        var s :| s in d.sources && t == EventTag(org, s);
      }
    }
  }

  /** Schedule fields behave alike: a preset's interval is kept exactly when it could not have mattered. */
  lemma PresetIntervalKept(org: string, c: Common, defaults: Defaults, presets: seq<NamedPreset>, tag: string, p: Preset)
    ensures var alone := FirstSome(FirstSome(c.intervalSecs, p.intervalSecs), Some(defaults.intervalSecs));
            var merged := FirstSome(FirstSome(NamespaceCommon(org, c, defaults, presets, tag).intervalSecs,
                                              p.intervalSecs), Some(defaults.intervalSecs));
            merged == alone <==>
            c.intervalSecs.Some? || p.intervalSecs.None? || p.intervalSecs.value == defaults.intervalSecs
  {
  }

  /** An instance: a reference spelled with another organization's prefix borrows that organization's preset. */
  lemma ForeignPresetBorrowed(builtins: seq<NamedPreset>, lender: string, borrower: string, name: string, p: Preset,
                              d: Desired, c: Common)
    requires SoundId(lender) && SoundId(borrower) && lender != borrower && UniqueNames(d.presets)
    requires c.preset == Some(Scoped(lender, name)) && Scoped(lender, name) !in PresetNames(d.presets)
    requires FindPreset(builtins, Scoped(lender, name)) == None
    ensures var donor := NOTHING_DESIRED.(presets := [NamedPreset(name, p)]);
            var docs := [(lender, donor), (borrower, d)];
            && FindPreset(Catalogue(builtins, d.presets), Scoped(lender, name)) == None
            && FindPreset(Catalogue(builtins, MergedPresets(docs)), Renamed(borrower, d, c)) == Some(p)
  {
    var donor := NOTHING_DESIRED.(presets := [NamedPreset(name, p)]);
    var docs := [(lender, donor), (borrower, d)];
    var scoped := Scoped(lender, name);
    SoundIsProper(lender);
    ScopedTrimmed(lender, name);
    OwnerReadBack(lender, name);
    RenamedFind(lender, donor.presets, name);
    hide Trim, Scoped, OrgOf, Catalogue, MergedPresets, SoundId, ProperId, RenamePresets, Trimmed;
    MergedLookup(builtins, docs, 1, c);
    HeldByOwner(docs, 0, scoped);
    NameListed(d.presets, scoped);
    FindInCatalogue(builtins, d.presets, scoped);
  }

  /** The inner name a source's id is built from. */
  function BaseId(s: Source): string {
    if s.id.Some? && !LegacyId(BareId(s.id.value)) then BareId(s.id.value) else DefaultId(s)
  }

  /** Two sources of one organization share an id exactly when their inner names agree up to the prefix. */
  lemma SourceIdsCollide(org: string, s: Source, t: Source)
    ensures NamespaceId(org, s) == NamespaceId(org, t) <==> Bare(org, BaseId(s)) == Bare(org, BaseId(t))
  {
    ScopedCollides(org, BaseId(s), BaseId(t));
  }

  /**
   A Codeberg and a GitHub repository of the same path are told apart alone but
   share one id inside an organization.
   */
  lemma ForgeIdsCollide(org: string, repo: string, host: string, c: Common)
    ensures var github := AuthSource(Github, None, host, repo, Token(None, None), c, "");
            var codeberg := AuthSource(Codeberg, None, host, repo, Token(None, None), c, "");
            && StandaloneId(github) != StandaloneId(codeberg)
            && NamespaceId(org, github) == NamespaceId(org, codeberg)
  {
    hide Scoped, LegacyId, BareId;
    var a, b := "github:" + repo, "codeberg:" + repo;
    assert a[0] == 'g' && b[0] == 'c';
    assert KindSlug(Github) + ":" + repo == a;
  }

  /** Every source of the merged configuration is credited to the organization whose document declares it. */
  lemma SourcesCredited(org: string, d: Desired, i: nat)
    requires ProperId(org) && i < |d.sources|
    ensures var id := NamespaceDesired(org, d).sources[i].id; id.Some? && OrgOf(id.value) == Some(org)
  {
    hide Scoped, OrgOf, ProperId, DefaultId, BareId, EventTag;
    var s := d.sources[i];
    var base := if s.id.Some? && !LegacyId(BareId(s.id.value)) then BareId(s.id.value) else DefaultId(s);
    OwnerReadBack(org, base);
  }
}
