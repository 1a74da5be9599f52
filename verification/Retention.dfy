/**
 What an apply may delete from the secret store, and what it may keep in the ledger:
 a name it did not generate stays, whatever happens, and no row holds an inline
 secret, refused documents included (src/config/secrets.rs, src/config_apply/mod.rs).
 */
module Retention {
  import opened Text
  import opened Settings
  import opened Restoration
  import opened SecretRefs
  import opened SecretMeaning
  import opened RoundTrip
  import opened Composition
  import opened Runtime
  import opened ApplyEngine
  import opened ApplyRuns
  import opened Rotations

  // ------------------------------------------------------ what may be deleted

  /** The names an apply of the scope may delete: those it generates itself. */
  predicate Deletable(scope: Scope, name: string) {
    match scope
    case Org(id) =>
      if Blank(id) then "XRELEASE_UI_SRC_" <= name || "XRELEASE_UI_N_" <= name
      else "XRELEASE_UI_" + Sanitize(Trim(id)) + "_" <= name
    case Whole => "XRELEASE_UI_SRC_" <= name || "XRELEASE_UI_N_" <= name
  }

  /** What the scope's document referenced before the apply: what runs, or what the organization's text says. */
  function ReferencedBefore(w: World, st: State, scope: Scope): set<string> {
    if scope.Whole? then CollectRefs(st.running.desired)
    else
      var authority := match FindOrg(w.bootstrap.organizations, scope.id)
                       case None => None case Some(org) => OrgAuthority(w, st.ledger, org);
      var parsed := if authority.Some? then w.parse(None, authority.value.raw) else None;
      if parsed.Some? then CollectRefs(parsed.value.desired) else {}
  }

  lemma GeneratedPrefixes()
    ensures "XRELEASE_UI_" <= "XRELEASE_UI_SRC_" && "XRELEASE_UI_" <= "XRELEASE_UI_N_"
  {
  }

  /** Stale are exactly the deletable names that were referenced before and are no longer. */
  lemma StaleExactly(w: World, st: State, scope: Scope, desired: Desired, name: string)
    ensures name in Stale(w, st, scope, desired) <==>
            name in ReferencedBefore(w, st, scope) && name !in CollectRefs(desired) && Deletable(scope, name)
  {
    hide CollectRefs, OrgAuthority, Trim, FindOrg, Sanitize;
    PreviousUsable(w, st, scope);
    GeneratedPrefixes();
    if name in PreviousRefs(w, st, scope) {
      UsableTrimmed(name);
      ScopedDeletable(scope, name);
    }
  }

  lemma ScopedDeletable(scope: Scope, name: string)
    requires Trim(name) == name
    ensures IsUiManaged(name, Stream(scope)) <==> Deletable(scope, name)
  {
    hide Trim, Sanitize;
    GeneratedPrefixes();
    if scope.Org? && !Blank(scope.id) && ScopePrefix(Some(scope.id)) <= name {
      HeadPrefix("XRELEASE_UI_", Sanitize(Trim(scope.id)), "_", "");
      PrefixTrans("XRELEASE_UI_", ScopePrefix(Some(scope.id)), name);
    }
  }

  /** The writes put their names, and no others, into a map. */
  lemma {:induction false} LoadedNames(m: map<string, string>, writes: seq<SecretWrite>, name: string)
    requires UsableWrites(writes)
    ensures name in LoadWrites(m, writes) <==> name in m || exists i :: 0 <= i < |writes| && writes[i].name == name
    ensures (forall i :: 0 <= i < |writes| ==> writes[i].name != name) && name in m ==> LoadWrites(m, writes)[name] == m[name]
    decreases |writes|
  {
    hide Blank;
    if writes != [] {
      UsableTrimmed(writes[0].name);
      LoadedNames(VaultUpsert(m, writes[0].name, writes[0].value), writes[1..], name);
      assert forall i :: 1 <= i < |writes| ==> writes[i] == writes[1..][i - 1];
    }
  }

  /** The candidate stores a secret under the name. */
  predicate Writes(c: Candidate, name: string) {
    exists i :: 0 <= i < |c.writes| && c.writes[i].name == name
  }

  lemma CandidateUsable(w: World, st: State, hint: Option<Format>, raw: string, scope: Scope)
    requires JsonInverse(w.json) && Resolved(w, st, hint, raw, scope).Ready?
    ensures UsableWrites(Resolved(w, st, hint, raw, scope).candidate.writes)
  {
    hide Resolved, Slots, PushSlots, NormalizeDesired, UsableWrites;
    var restored := CandidateSource(w, st, hint, raw, scope);
    WritesUsable(w, restored, Stream(scope));
  }

  /**
   The secret store after an apply that sealed and pruned, name by name: what was
   sent is there; what was there stays, unless this scope generated the name,
   referenced it before and references it no longer.
   */
  lemma StoreAfter(w: World, st: State, hint: Option<Format>, raw: string, scope: Scope, fx: Faults, name: string)
    requires JsonInverse(w.json) && Resolved(w, st, hint, raw, scope).Ready?
    requires SealAndPrune(w, st, scope, Resolved(w, st, hint, raw, scope).candidate, fx).1
    ensures var c := Resolved(w, st, hint, raw, scope).candidate;
            var s := SealAndPrune(w, st, scope, c, fx).0;
            && (name in s.store <==>
                  && (Writes(c, name) || name in st.store)
                  && !(name in ReferencedBefore(w, st, scope) && name !in CollectRefs(c.desired) && Deletable(scope, name)))
            && (name in s.store && !Writes(c, name) ==> s.store[name] == st.store[name])
  {
    hide Resolved, LoadWrites, ReferencedBefore, CollectRefs, Deletable, Stale, UsableWrites, SealAndPrune;
    var c := Resolved(w, st, hint, raw, scope).candidate;
    CandidateUsable(w, st, hint, raw, scope);
    LoadedNames(st.store, c.writes, name);
    SealedStore(w, st, scope, c, fx);
    StaleExactly(w, st, scope, c.desired, name);
  }

  lemma SealedStore(w: World, st: State, scope: Scope, c: Candidate, fx: Faults)
    requires SealAndPrune(w, st, scope, c, fx).1
    ensures SealAndPrune(w, st, scope, c, fx).0.store == LoadWrites(st.store, c.writes) - Stale(w, st, scope, c.desired)
  {
    hide Seal, Prune, Stale, LoadWrites;
    SealKeepsRefs(w, st, scope, c, fx);
    SealedOnly(st, c.writes, fx.seal);
    PrunedOnly(w, Seal(st, c.writes, fx.seal).0, scope, c.desired, fx.prune);
  }

  lemma SealedOnly(st: State, writes: seq<SecretWrite>, fault: SealFault)
    requires Seal(st, writes, fault).1
    ensures Seal(st, writes, fault).0.store == LoadWrites(st.store, writes)
  {
  }

  lemma PrunedOnly(w: World, st: State, scope: Scope, desired: Desired, fault: PruneFault)
    requires Prune(w, st, scope, desired, fault).1
    ensures Prune(w, st, scope, desired, fault).0.store == st.store - Stale(w, st, scope, desired)
  {
    hide Stale;
    assert st.store - {} == st.store;
  }

  /** Sealing changes neither what runs nor what any document says. */
  lemma SealKeepsRefs(w: World, st: State, scope: Scope, c: Candidate, fx: Faults)
    ensures ReferencedBefore(w, Seal(st, c.writes, fx.seal).0, scope) == ReferencedBefore(w, st, scope)
    ensures Stale(w, Seal(st, c.writes, fx.seal).0, scope, c.desired) == Stale(w, st, scope, c.desired)
  {
    hide LoadWrites, CollectRefs, OrgAuthority, FindOrg, StaleSecrets;
  }

  // ----------------------------------------------------- what is never deleted

  /** The name is in both places. */
  predicate Kept(st: State, name: string) {
    name in st.store && name in st.vault
  }

  lemma SealSpares(st: State, writes: seq<SecretWrite>, fault: SealFault, name: string)
    requires UsableWrites(writes)
    ensures var s := Seal(st, writes, fault).0;
            (name in st.store ==> name in s.store) && (name in st.vault ==> name in s.vault)
  {
    hide LoadWrites, UsableWrites;
    LoadedNames(st.store, writes, name);
    LoadedNames(st.vault, writes, name);
    var n := if fault.SealUncommitted? && fault.stored <= |writes| then fault.stored else |writes|;
    FrontUsable(writes, n);
    LoadedNames(st.vault, writes[..n], name);
  }

  lemma PruneSpares(w: World, st: State, scope: Scope, desired: Desired, fault: PruneFault, name: string)
    requires !Deletable(scope, name)
    ensures var s := Prune(w, st, scope, desired, fault).0;
            (name in st.store ==> name in s.store) && (name in st.vault ==> name in s.vault)
  {
    hide Deletable, Stale;
    StaleExactly(w, st, scope, desired, name);
  }

  lemma SealAndPruneSpares(w: World, st: State, scope: Scope, c: Candidate, fx: Faults, name: string)
    requires UsableWrites(c.writes) && !Deletable(scope, name)
    ensures var s := SealAndPrune(w, st, scope, c, fx).0;
            (name in st.store ==> name in s.store) && (name in st.vault ==> name in s.vault)
  {
    hide Seal, Prune, Deletable, UsableWrites;
    SealSpares(st, c.writes, fx.seal, name);
    PruneSpares(w, Seal(st, c.writes, fx.seal).0, scope, c.desired, fx.prune, name);
  }

  lemma FrontUsable(writes: seq<SecretWrite>, n: nat)
    requires UsableWrites(writes) && n <= |writes|
    ensures UsableWrites(writes[..n])
  {
  }

  /** For every choice of faults, an apply leaves a name its scope may not delete in store and vault. */
  lemma ApplySpares(w: World, st: State, hint: Option<Format>, raw: string, scope: Scope, fx: Faults, name: string)
    requires JsonInverse(w.json) && !Deletable(scope, name)
    ensures var s := Apply(w, st, hint, raw, scope, fx).0;
            (name in st.store ==> name in s.store) && (name in st.vault ==> name in s.vault)
  {
    hide Resolved, Apply, RejectedBody, SealAndPrune, Deletable, UsableWrites;
    ApplyEffects(w, st, hint, raw, scope, fx);
    if Resolved(w, st, hint, raw, scope).Ready? {
      CandidateUsable(w, st, hint, raw, scope);
      SealAndPruneSpares(w, st, scope, Resolved(w, st, hint, raw, scope).candidate, fx, name);
    }
  }

  /** No scope the instance serves may delete the name. */
  ghost predicate Spared(w: World, name: string) {
    forall scope :: Accepts(w, scope) ==> !Deletable(scope, name)
  }

  lemma StepSpares(w: World, st: State, e: Event, name: string)
    requires JsonInverse(w.json) && Spared(w, name)
    ensures name in st.store ==> name in Step(w, st, e).store
    ensures Kept(st, name) ==> Kept(Step(w, st, e), name)
  {
    hide Apply, Handle, Previous, Latest, Compose, MergePushed, Resolve, Builds, Meanings, Deletable, Accepts;
    if e.Serve? {
      HandleIsApply(w, st, e.request, e.scope, e.fx);
      var sent := Sends(st, e.request, e.scope);
      if sent.Some? && Accepts(w, e.scope) {
        ApplySpares(w, st, sent.value.hint, sent.value.raw, e.scope, e.fx, name);
      }
    }
  }

  /**
   Over every run, for every choice of faults: a stored name that no served scope may
   delete stays in the store, and in the vault too.
   */
  lemma {:induction false} RunSpares(w: World, st: State, events: seq<Event>, name: string)
    requires JsonInverse(w.json) && Spared(w, name)
    ensures name in st.store ==> name in Run(w, st, events).store
    ensures Kept(st, name) ==> Kept(Run(w, st, events), name)
    decreases |events|
  {
    hide Step, Spared;
    if events != [] {
      var last := |events| - 1;
      RunSpares(w, st, events[..last], name);
      StepSpares(w, Run(w, st, events[..last]), events[last], name);
    }
  }

  /** An operator's own names are spared: generated ones all start alike. */
  lemma OwnNamesSpared(w: World, name: string)
    requires !("XRELEASE_UI_" <= name)
    ensures Spared(w, name)
  {
    hide Sanitize, Trim, Accepts;
    GeneratedPrefixes();
    forall scope | Accepts(w, scope) ensures !Deletable(scope, name) {
      if Deletable(scope, name) {
        UndeletablePrefix(scope, name);
      }
    }
  }

  lemma UndeletablePrefix(scope: Scope, name: string)
    requires Deletable(scope, name)
    ensures "XRELEASE_UI_" <= name
  {
    hide Sanitize, Trim;
    GeneratedPrefixes();
    if scope.Org? && !Blank(scope.id) {
      HeadPrefix("XRELEASE_UI_", Sanitize(Trim(scope.id)), "_", "");
      PrefixTrans("XRELEASE_UI_", "XRELEASE_UI_" + Sanitize(Trim(scope.id)) + "_", name);
    }
  }

  /** A single-document instance spares every name but those of its sources and notifiers. */
  lemma SingleDocumentSpares(w: World, name: string)
    requires w.bootstrap.organizations == [] && !("XRELEASE_UI_SRC_" <= name) && !("XRELEASE_UI_N_" <= name)
    ensures Spared(w, name)
  {
    hide Sanitize, Trim;
  }

  /** One organization's applies spare another's generated names, unless one id's prefix starts the other's. */
  lemma ForeignNamesSpared(a: string, b: string, group: string, identity: string, suffix: string)
    requires !Blank(a) && !Blank(b)
    requires var x, y := Sanitize(Trim(a)) + "_", Sanitize(Trim(b)) + "_"; !(x <= y) && !(y <= x)
    ensures !Deletable(Org(a), AutoName(Some(b), group, identity, suffix))
  {
    hide Trim, Sanitize;
    var x, y := Sanitize(Trim(a)) + "_", Sanitize(Trim(b)) + "_";
    var rest := Sanitize(group) + "_" + (Sanitize(identity) + "_" + Sanitize(suffix));
    var name := AutoName(Some(b), group, identity, suffix);
    NameParts(b, group, identity, suffix, "_" + Sanitize(group) + "_" + (Sanitize(identity) + "_" + Sanitize(suffix)));
    Regrouped("XRELEASE_UI_", Sanitize(Trim(b)), Sanitize(group), Sanitize(identity) + "_" + Sanitize(suffix));
    assert "XRELEASE_UI_" + Sanitize(Trim(a)) + "_" == "XRELEASE_UI_" + x;
    if Deletable(Org(a), name) {
      PrefixOfBoth("XRELEASE_UI_", x, y, rest);
    }
  }

  lemma Regrouped(a: string, b: string, c: string, d: string)
    ensures a + b + ("_" + c + "_" + d) == a + (b + "_") + (c + "_" + d)
  {
    var left, right := a + b + ("_" + c + "_" + d), a + (b + "_") + (c + "_" + d);
    assert |left| == |right|;
    assert forall i :: 0 <= i < |left| ==> left[i] == right[i];
  }

  lemma PrefixOfBoth(head: string, x: string, y: string, rest: string)
    requires head + x <= head + y + rest
    ensures x <= y || y <= x
  {
    var long := head + y + rest;
    assert long[..|head| + |x|] == head + x;
    assert x == long[|head|..|head| + |x|];
    if |x| <= |y| {
      assert x == y[..|x|];
    } else {
      assert y == x[..|y|];
    }
  }

  // --------------------------------------------------------- what a row holds

  /** The empty document, or a printed document without an inline secret. */
  ghost predicate Harmless(w: World, text: string) {
    text == EMPTY_DOCUMENT || exists f, d :: SealedDesired(d) && text == w.render(f, d)
  }

  lemma RejectedHarmless(w: World, raw: string, stream: Option<string>)
    ensures Harmless(w, RejectedBody(w, raw, stream))
  {
    hide NormalizeDesired, SealedDesired;
    if w.parse(None, raw).Some? {
      NormalizedSealed(w.parse(None, raw).value.desired, stream);
    }
  }

  lemma CandidateHarmless(w: World, st: State, hint: Option<Format>, raw: string, scope: Scope)
    requires Resolved(w, st, hint, raw, scope).Ready?
    ensures Harmless(w, Resolved(w, st, hint, raw, scope).candidate.body)
    ensures var c := Resolved(w, st, hint, raw, scope).candidate;
            c.body == w.render(if hint.Some? then hint.value else w.detect(raw), c.desired) && SealedDesired(c.desired)
  {
    hide NormalizeDesired, RestoreDesired, Writes, SealedDesired, Compose, OrgAuthority, HasDesiredState, OverlayDesired;
    var restored := CandidateSource(w, st, hint, raw, scope);
    NormalizedSealed(restored, Stream(scope));
  }

  ghost predicate LedgerHarmless(w: World, ledger: seq<Revision>) {
    forall i :: 0 <= i < |ledger| ==> Harmless(w, ledger[i].content)
  }

  lemma ApplyHarmless(w: World, st: State, hint: Option<Format>, raw: string, scope: Scope, fx: Faults)
    requires LedgerHarmless(w, st.ledger)
    ensures LedgerHarmless(w, Apply(w, st, hint, raw, scope, fx).0.ledger)
  {
    hide Resolved, Apply, RejectedBody, SealAndPrune, Harmless;
    ApplyEffects(w, st, hint, raw, scope, fx);
    RejectedHarmless(w, raw, Stream(scope));
    if Resolved(w, st, hint, raw, scope).Ready? {
      CandidateHarmless(w, st, hint, raw, scope);
    }
  }

  lemma StepHarmless(w: World, st: State, e: Event)
    requires LedgerHarmless(w, st.ledger)
    ensures LedgerHarmless(w, Step(w, st, e).ledger)
  {
    hide Apply, Handle, Previous, Latest, Compose, MergePushed, Resolve, Builds, Meanings, LedgerHarmless;
    if e.Serve? {
      HandleIsApply(w, st, e.request, e.scope, e.fx);
      var sent := Sends(st, e.request, e.scope);
      if sent.Some? {
        ApplyHarmless(w, st, sent.value.hint, sent.value.raw, e.scope, e.fx);
      }
    }
  }

  /** Over every run, no row of the ledger holds an inline secret: neither an applied one nor a rejected one. */
  lemma {:induction false} RunHarmless(w: World, st: State, events: seq<Event>)
    requires LedgerHarmless(w, st.ledger)
    ensures LedgerHarmless(w, Run(w, st, events).ledger)
    decreases |events|
  {
    hide Step, LedgerHarmless;
    if events != [] {
      var last := |events| - 1;
      RunHarmless(w, st, events[..last]);
      StepHarmless(w, Run(w, st, events[..last]), events[last]);
    }
  }

  /** The two entries differ in their secret fields only. */
  ghost predicate SameButSecrets(d: Desired, e: Desired) {
    && |d.sources| == |e.sources| && |d.notifiers| == |e.notifiers|
    && (forall i :: 0 <= i < |d.sources| ==>
          Conform(SourceFields(e.sources[i]), SourceFields(d.sources[i]))
          && e.sources[i] == WithSourceFields(d.sources[i], SourceFields(e.sources[i])))
    && (forall j :: 0 <= j < |d.notifiers| ==>
          Conform(NotifierFields(e.notifiers[j]), NotifierFields(d.notifiers[j]))
          && e.notifiers[j] == WithNotifierFields(d.notifiers[j], NotifierFields(e.notifiers[j])))
    && d.teams == e.teams && d.presets == e.presets
  }

  lemma RestoredSame(prev: Desired, d: Desired)
    ensures SameButSecrets(d, RestoreDesired(prev, d)) && RestoreDesired(prev, d).defaults == d.defaults
  {
    hide SourceDonor, SinkDonor, RestoreFields, SourceFields, NotifierFields, WithSourceFields, WithNotifierFields;
    SameItself(d);
    forall i | 0 <= i < |d.sources|
      ensures var t := RestoreSource(prev.sources, d.sources[i]);
              Conform(SourceFields(t), SourceFields(d.sources[i])) && t == WithSourceFields(d.sources[i], SourceFields(t))
    {
      if SourceDonor(prev.sources, d.sources[i]).Some? {
        var donor := SourceDonor(prev.sources, d.sources[i]).value;
        SourceFieldsOnly(d.sources[i], RestoreFields(SourceFields(donor), SourceFields(d.sources[i])));
      }
    }
    forall j | 0 <= j < |d.notifiers|
      ensures var m := RestoreNotifier(prev.notifiers, d.notifiers[j]);
              Conform(NotifierFields(m), NotifierFields(d.notifiers[j]))
              && m == WithNotifierFields(d.notifiers[j], NotifierFields(m))
    {
      if SinkDonor(prev.notifiers, d.notifiers[j]).Some? {
        var donor := SinkDonor(prev.notifiers, d.notifiers[j]).value;
        NotifierFieldsOnly(d.notifiers[j], RestoreFields(NotifierFields(donor), NotifierFields(d.notifiers[j])));
      }
    }
  }

  lemma SourceFieldsOnly(s: Source, fs: seq<Field>)
    requires Conform(fs, SourceFields(s))
    ensures var t := WithSourceFields(s, fs);
            Conform(SourceFields(t), SourceFields(s)) && t == WithSourceFields(s, SourceFields(t))
  {
    SourceFieldsRoundTrip(s, fs);
  }

  lemma NotifierFieldsOnly(n: Notifier, fs: seq<Field>)
    requires Conform(fs, NotifierFields(n))
    ensures var m := WithNotifierFields(n, fs);
            Conform(NotifierFields(m), NotifierFields(n)) && m == WithNotifierFields(n, NotifierFields(m))
  {
    NotifierFieldsRoundTrip(n, fs);
  }

  lemma NormalizedSame(d: Desired, org: Option<string>)
    ensures SameButSecrets(d, NormalizeDesired(d, org)) && NormalizeDesired(d, org).defaults == d.defaults
  {
    hide NormalizeFields, SlotsOfSource, SlotsOfNotifier, SourceFields, NotifierFields, WithSourceFields, WithNotifierFields;
    forall i | 0 <= i < |d.sources|
      ensures var t := NormalizeSource(d.sources[i], i, org);
              Conform(SourceFields(t), SourceFields(d.sources[i])) && t == WithSourceFields(d.sources[i], SourceFields(t))
    {
      SourceFieldsOnly(d.sources[i], NormalizeFields(SlotsOfSource(d.sources[i], i, org)));
    }
    forall j | 0 <= j < |d.notifiers|
      ensures var m := NormalizeNotifier(d.notifiers[j], j, org);
              Conform(NotifierFields(m), NotifierFields(d.notifiers[j]))
              && m == WithNotifierFields(d.notifiers[j], NotifierFields(m))
    {
      NotifierFieldsOnly(d.notifiers[j], NormalizeFields(SlotsOfNotifier(d.notifiers[j], j, org)));
    }
  }

  lemma SourceTwice(s: Source, t: Source, u: Source)
    requires Conform(SourceFields(t), SourceFields(s)) && t == WithSourceFields(s, SourceFields(t))
    requires Conform(SourceFields(u), SourceFields(t)) && u == WithSourceFields(t, SourceFields(u))
    ensures Conform(SourceFields(u), SourceFields(s)) && u == WithSourceFields(s, SourceFields(u))
  {
  }

  lemma NotifierTwice(n: Notifier, m: Notifier, l: Notifier)
    requires Conform(NotifierFields(m), NotifierFields(n)) && m == WithNotifierFields(n, NotifierFields(m))
    requires Conform(NotifierFields(l), NotifierFields(m)) && l == WithNotifierFields(m, NotifierFields(l))
    ensures Conform(NotifierFields(l), NotifierFields(n)) && l == WithNotifierFields(n, NotifierFields(l))
  {
    ConformTwice(NotifierFields(l), NotifierFields(m), NotifierFields(n));
  }

  lemma ConformTwice(a: seq<Field>, b: seq<Field>, c: seq<Field>)
    requires Conform(a, b) && Conform(b, c)
    ensures Conform(a, c)
  {
    forall k | 0 <= k < |a| ensures Settings.SameKind(a[k], c[k]) {
      assert Settings.SameKind(a[k], b[k]) && Settings.SameKind(b[k], c[k]);
    }
  }

  lemma SameTwice(d: Desired, e: Desired, f: Desired)
    requires SameButSecrets(d, e) && SameButSecrets(e, f)
    ensures SameButSecrets(d, f)
  {
    hide Conform, SourceFields, NotifierFields, WithSourceFields, WithNotifierFields;
    forall i | 0 <= i < |d.sources|
      ensures Conform(SourceFields(f.sources[i]), SourceFields(d.sources[i]))
              && f.sources[i] == WithSourceFields(d.sources[i], SourceFields(f.sources[i]))
    {
      SourceTwice(d.sources[i], e.sources[i], f.sources[i]);
    }
    forall j | 0 <= j < |d.notifiers|
      ensures Conform(NotifierFields(f.notifiers[j]), NotifierFields(d.notifiers[j]))
              && f.notifiers[j] == WithNotifierFields(d.notifiers[j], NotifierFields(f.notifiers[j]))
    {
      NotifierTwice(d.notifiers[j], e.notifiers[j], f.notifiers[j]);
    }
  }

  /**
   A row records what was sent and nothing of anyone else's: the candidate's document is
   the pushed one, entry by entry, in all but its secret fields and, for a whole
   document, the cap the environment sets.
   */
  lemma RecordsWhatWasSent(w: World, st: State, hint: Option<Format>, raw: string, scope: Scope)
    requires Resolved(w, st, hint, raw, scope).Ready?
    ensures var c := Resolved(w, st, hint, raw, scope).candidate;
            var sent := PushedDesired(w, hint, raw);
            && SameButSecrets(sent, c.desired)
            && c.desired.defaults == if scope == Whole then OverlayDesired(w.overlay, sent).defaults else sent.defaults
  {
    hide Resolved, NormalizeDesired, RestoreDesired, SameButSecrets, OrgAuthority, FindOrg;
    var sent := PushedDesired(w, hint, raw);
    var restored := CandidateSource(w, st, hint, raw, scope);
    NormalizedSame(restored, Stream(scope));
    OverlaidSame(w.overlay, sent);
    SameItself(sent);
    match scope {
      case Whole =>
        RestoredSame(st.running.desired, OverlayDesired(w.overlay, sent));
        SameTwice(sent, OverlayDesired(w.overlay, sent), restored);
      case Org(id) =>
        if restored != sent {
          var a := OrgAuthority(w, st.ledger, FindOrg(w.bootstrap.organizations, id).value).value;
          RestoredSame(w.parse(None, a.raw).value.desired, sent);
        }
    }
    SameTwice(sent, restored, Resolved(w, st, hint, raw, scope).candidate.desired);
  }

  lemma OverlaidSame(o: Overlay, d: Desired)
    ensures SameButSecrets(d, OverlayDesired(o, d))
  {
    SameItself(d);
  }

  lemma SameItself(d: Desired)
    ensures SameButSecrets(d, d)
  {
    forall i | 0 <= i < |d.sources| ensures WithSourceFields(d.sources[i], SourceFields(d.sources[i])) == d.sources[i] {
      SourceFieldsRoundTrip(d.sources[i], SourceFields(d.sources[i]));
    }
    forall j | 0 <= j < |d.notifiers|
      ensures WithNotifierFields(d.notifiers[j], NotifierFields(d.notifiers[j])) == d.notifiers[j]
    {
      NotifierFieldsRoundTrip(d.notifiers[j], NotifierFields(d.notifiers[j]));
    }
  }
}
