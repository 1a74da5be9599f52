/**
 Secret rotations over the apply engine: a successful apply never drops one, and
 what a failed commit to the secret store does to the next attempt.
 */
module Rotations {
  import opened Text
  import opened Settings
  import opened Restoration
  import opened SecretRefs
  import opened SecretCarry
  import opened SecretMeaning
  import opened RoundTrip
  import opened Composition
  import opened Runtime
  import opened ApplyEngine
  import opened ApplyRuns
  import opened ApplyLaws

  // -------------------------------------------------- no rotation is lost

  /** The document a push stands for, before anything is restored in it. */
  function PushedDesired(w: World, hint: Option<Format>, raw: string): Desired {
    match w.parse(hint, raw) case None => NOTHING_DESIRED case Some(c) => c.desired
  }

  /** The document a candidate's secrets are taken from: the pushed one, restored. */
  function RestoredDesired(w: World, st: State, hint: Option<Format>, raw: string, scope: Scope): Desired {
    var pushed := PushedDesired(w, hint, raw);
    match scope
    case Whole => RestoreDesired(st.running.desired, OverlayDesired(w.overlay, pushed))
    case Org(id) =>
      match FindOrg(w.bootstrap.organizations, id)
      case None => pushed
      case Some(org) =>
        match OrgAuthority(w, st.ledger, org) case None => pushed case Some(a) => OrgRestored(w, a.raw, pushed)
  }

  lemma CandidateSource(w: World, st: State, hint: Option<Format>, raw: string, scope: Scope)
    returns (restored: Desired)
    requires Resolved(w, st, hint, raw, scope).Ready?
    ensures restored == RestoredDesired(w, st, hint, raw, scope) && w.parse(hint, raw).Some?
    ensures var c := Resolved(w, st, hint, raw, scope).candidate;
            && c.desired == NormalizeDesired(restored, Stream(scope))
            && c.writes == Writes(w.json, restored, Stream(scope))
  {
    hide NormalizeDesired, RestoreDesired, Writes, Compose, OrgAuthority, HasDesiredState, OverlayDesired;
    restored := RestoredDesired(w, st, hint, raw, scope);
  }

  lemma LoadedStored(vault: map<string, string>, writes: seq<SecretWrite>, spared: set<string>)
    requires UsableWrites(writes) && forall i :: 0 <= i < |writes| ==> writes[i].name !in spared
    ensures AllInVault(LoadWrites(vault, writes) - spared, writes)
  {
    hide LoadWrites, Trim;
    forall i | 0 <= i < |writes|
      ensures VaultGet(LoadWrites(vault, writes) - spared, writes[i].name) == Some(writes[i].value)
    {
      LoadedValue(vault, writes, i);
      UsableNotBlank(writes[i].name);
    }
  }

  /** Sealing and pruning without a fault leaves every write in the vault. */
  lemma SealedWritesStored(w: World, st: State, scope: Scope, c: Candidate, restored: Desired, fx: Faults)
    requires JsonInverse(w.json) && SealAndPrune(w, st, scope, c, fx).1
    requires c.desired == NormalizeDesired(restored, Stream(scope))
    requires c.writes == Writes(w.json, restored, Stream(scope))
    ensures AllInVault(SealAndPrune(w, st, scope, c, fx).0.vault, c.writes)
  {
    hide LoadWrites, CollectRefs, PreviousRefs, IsUiManaged, NormalizeDesired, PushSlots, Slots, VaultGet;
    SlotsUsable(restored, Stream(scope));
    LoadPushed(w.json, map[], Slots(restored, Stream(scope)));
    var s1 := Seal(st, c.writes, fx.seal).0;
    var stale := Stale(w, s1, scope, c.desired);
    PruneSparesWrites(w.json, restored, Stream(scope), PreviousRefs(w, s1, scope));
    if c.writes != [] {
      LoadedStored(st.vault, c.writes, stale * s1.store.Keys);
      LoadedStored(st.vault, c.writes, {});
      assert LoadWrites(st.vault, c.writes) - {} == LoadWrites(st.vault, c.writes);
    }
  }

  lemma RepushWritesNothingWhole(w: World, st: State, hint: Option<Format>, raw: string)
    requires Lawful(w) && Inv(w, st) && Accepts(w, Whole)
    requires Latest(st.ledger, None).Some? && Latest(st.ledger, None).value.sha == w.sha(raw)
    requires Resolved(w, st, hint, raw, Whole).Ready?
    ensures Resolved(w, st, hint, raw, Whole).candidate.writes == []
  {
    hide Latest, SealedDesired, NormalizeDesired, RestoreDesired, Writes, Sent, Agrees, RowDesired, NoTwins, LedgerSound;
    hide Resolve, Compose, OverlayDesired;
    var row := LatestText(w, st, Whole, raw);
    RunningDocument(w, st, row);
    var overlaid := OverlayDesired(w.overlay, RowDesired(w, row));
    OverlayKeepsSealed(w.overlay, RowDesired(w, row));
    assert MergePushed(w, hint, raw).value.desired == overlaid;
    SentAsIs(overlaid, overlaid);
    DocumentReproduced(w.json, overlaid, overlaid, overlaid, None);
  }

  lemma RepushWritesNothingOrg(w: World, st: State, hint: Option<Format>, raw: string, id: string)
    requires Lawful(w) && Inv(w, st) && Accepts(w, Org(id))
    requires Latest(st.ledger, Some(id)).Some? && Latest(st.ledger, Some(id)).value.sha == w.sha(raw)
    requires Resolved(w, st, hint, raw, Org(id)).Ready?
    ensures Resolved(w, st, hint, raw, Org(id)).candidate.writes == []
  {
    hide Latest, SealedDesired, NormalizeDesired, RestoreDesired, Writes, Sent, Agrees, RowDesired, Inv, Compose;
    var row := LatestText(w, st, Org(id), raw);
    var d := RowDesired(w, row);
    FindOrgFinds(w.bootstrap.organizations, id);
    SentAsIs(d, d);
    DocumentReproduced(w.json, d, d, d, Some(id));
  }

  /** Re-sending the latest row's text carries no secret: applied rows hold none, and neither does what runs. */
  lemma RepushWritesNothing(w: World, st: State, hint: Option<Format>, raw: string, scope: Scope)
    requires Lawful(w) && Inv(w, st) && Accepts(w, scope)
    requires Latest(st.ledger, Stream(scope)).Some? && Latest(st.ledger, Stream(scope)).value.sha == w.sha(raw)
    requires Resolved(w, st, hint, raw, scope).Ready?
    ensures Resolved(w, st, hint, raw, scope).candidate.writes == []
  {
    hide Lawful, Inv, Accepts, Latest, Resolved;
    match scope
    case Whole => RepushWritesNothingWhole(w, st, hint, raw);
    case Org(id) => RepushWritesNothingOrg(w, st, hint, raw, id);
  }

  /** Every write is in the vault under a name that the latest applied row references. */
  predicate RotationKept(w: World, s: State, scope: Scope, writes: seq<SecretWrite>) {
    && AllInVault(s.vault, writes)
    && Latest(s.ledger, Stream(scope)).Some?
    && NamesWithin(writes, CollectRefs(RowDesired(w, Latest(s.ledger, Stream(scope)).value)))
  }

  lemma NothingRotated(w: World, s: State, scope: Scope)
    requires Latest(s.ledger, Stream(scope)).Some?
    ensures RotationKept(w, s, scope, [])
  {
    hide Latest, CollectRefs;
  }

  lemma KeptInRow(w: World, s: State, scope: Scope, c: Candidate, row: Revision)
    requires Latest(s.ledger, Stream(scope)) == Some(row) && row.content == c.body
    requires w.parse(None, c.body) == Some(DesiredOnly(c.desired))
    requires NamesWithin(c.writes, CollectRefs(c.desired)) && AllInVault(s.vault, c.writes)
    ensures RotationKept(w, s, scope, c.writes) && Records(w, s, scope, c)
  {
    hide Latest, CollectRefs, AllInVault, NamesWithin;
  }

  /** The latest row of the scope stands for the candidate's document. */
  predicate Records(w: World, s: State, scope: Scope, c: Candidate) {
    Latest(s.ledger, Stream(scope)).Some? && RowDesired(w, Latest(s.ledger, Stream(scope)).value) == c.desired
  }

  lemma RotateKeeps(w: World, st: State, scope: Scope, c: Candidate, restored: Desired, row: Revision, fx: Faults)
    requires JsonInverse(w.json) && Succeeded(Rotate(w, st, scope, c, fx).1)
    requires c.desired == NormalizeDesired(restored, Stream(scope)) && c.writes == Writes(w.json, restored, Stream(scope))
    requires Latest(st.ledger, Stream(scope)) == Some(row) && row.content == c.body
    requires w.parse(None, c.body) == Some(DesiredOnly(c.desired)) && NamesWithin(c.writes, CollectRefs(c.desired))
    ensures RotationKept(w, Rotate(w, st, scope, c, fx).0, scope, c.writes)
    ensures Records(w, Rotate(w, st, scope, c, fx).0, scope, c)
  {
    hide Latest, CollectRefs, NormalizeDesired, Writes, SealAndPrune, RotationKept, Records, VaultGet;
    SealStep(w, st, scope, c, restored, fx);
    SecretsOnly(w, st, scope, c, fx);
    KeptInRow(w, Rotate(w, st, scope, c, fx).0, scope, c, row);
  }

  lemma InstallKeeps(w: World, st: State, scope: Scope, c: Candidate, restored: Desired, fx: Faults)
    requires JsonInverse(w.json) && Succeeded(Install(w, st, scope, c, fx).1)
    requires c.desired == NormalizeDesired(restored, Stream(scope)) && c.writes == Writes(w.json, restored, Stream(scope))
    requires w.parse(None, c.body) == Some(DesiredOnly(c.desired)) && NamesWithin(c.writes, CollectRefs(c.desired))
    ensures RotationKept(w, Install(w, st, scope, c, fx).0, scope, c.writes)
    ensures Records(w, Install(w, st, scope, c, fx).0, scope, c)
  {
    hide Latest, CollectRefs, NormalizeDesired, Writes, SealAndPrune, RotationKept, Records, AllInVault, Swap;
    SealStep(w, st, scope, c, restored, fx);
    SecretsOnly(w, st, scope, c, fx);
    SwapKeeps(w, SealAndPrune(w, st, scope, c, fx).0, c.merged, fx.swapFails);
    var row := Revision(Stream(scope), c.body, w.sha(c.body), Applied);
    LatestAfterAppend(st.ledger, row);
    KeptInRow(w, Install(w, st, scope, c, fx).0, scope, c, row);
  }

  /**
   No rotation is lost: after every apply that succeeds, by whichever exit, each
   secret its document carried is in the vault under a name that the latest
   applied row references.
   */
  lemma NoRotationLost(w: World, st: State, hint: Option<Format>, raw: string, scope: Scope, fx: Faults)
    requires Lawful(w) && Inv(w, st) && Accepts(w, scope)
    requires Resolved(w, st, hint, raw, scope).Ready? && Succeeded(Apply(w, st, hint, raw, scope, fx).1)
    ensures RotationKept(w, Apply(w, st, hint, raw, scope, fx).0, scope,
                         Resolved(w, st, hint, raw, scope).candidate.writes)
    ensures (Latest(st.ledger, Stream(scope)).Some? ==> Latest(st.ledger, Stream(scope)).value.sha != w.sha(raw)) ==>
              Records(w, Apply(w, st, hint, raw, scope, fx).0, scope, Resolved(w, st, hint, raw, scope).candidate)
  {
    hide Latest, Resolved, CollectRefs, NormalizeDesired, Writes, Rotate, Install, RowSound, SealedDesired;
    hide NoTwins, LedgerSound, Converged, RotationKept, Records, PublishesIdentity;
    var c := Resolved(w, st, hint, raw, scope).candidate;
    var current := Latest(st.ledger, Stream(scope));
    var restored := CandidateSource(w, st, hint, raw, scope);
    CandidateSealed(w, st, hint, raw, scope);
    WritesReferenced(w.json, restored, Stream(scope));
    if current.Some? && current.value.sha == w.sha(raw) {
      RepushWritesNothing(w, st, hint, raw, scope);
      NothingRotated(w, st, scope);
    } else if current.Some? && current.value.sha == c.sha {
      AppliedRowSound(w, st.ledger, Stream(scope));
      DigestOf(w, current.value);
      RotateKeeps(w, st, scope, c, restored, current.value, fx);
    } else {
      InstallKeeps(w, st, scope, c, restored, fx);
    }
  }

  lemma SealStep(w: World, st: State, scope: Scope, c: Candidate, restored: Desired, fx: Faults)
    requires JsonInverse(w.json)
    requires c.desired == NormalizeDesired(restored, Stream(scope))
    requires c.writes == Writes(w.json, restored, Stream(scope))
    ensures SealAndPrune(w, st, scope, c, fx).1 ==> AllInVault(SealAndPrune(w, st, scope, c, fx).0.vault, c.writes)
  {
    hide SealAndPrune, AllInVault, NormalizeDesired, Writes;
    if SealAndPrune(w, st, scope, c, fx).1 {
      SealedWritesStored(w, st, scope, c, restored, fx);
    }
  }

  // --------------------------------------------- back to the pushed document

  /** The sent slots and the restored ones correspond, and every live one is carried. */
  lemma PushCarried(w: World, st: State, hint: Option<Format>, raw: string, scope: Scope)
    ensures SlotsCarried(Slots(PushedDesired(w, hint, raw), Stream(scope)),
                         Slots(RestoredDesired(w, st, hint, raw, scope), Stream(scope)))
  {
    var pushed := PushedDesired(w, hint, raw);
    SlotsCarriedSelf(Slots(pushed, Stream(scope)));
    hide SlotsCarried, SourceSlots, NotifierSlots, RestoreDesired, PushedDesired, OrgAuthority;
    match scope
    case Whole => DocumentCarried(st.running.desired, OverlayDesired(w.overlay, pushed), None);
    case Org(id) =>
      if FindOrg(w.bootstrap.organizations, id).Some? {
        var a := OrgAuthority(w, st.ledger, FindOrg(w.bootstrap.organizations, id).value);
        if a.Some? && w.parse(None, a.value.raw).Some? {
          DocumentCarried(w.parse(None, a.value.raw).value.desired, pushed, Some(id));
        }
      }
  }

  /** A live slot's reference, once normalised, names what was stored for it. */
  lemma ReferenceFinds(vault: map<string, string>, slot: Slot, value: string)
    requires HasLive(slot.field) && Usable(slot.auto) && VaultGet(vault, NameOf(slot)) == Some(value)
    ensures var env := NormalizeField(slot.field, slot.auto).env;
            env.Some? && VaultGet(vault, env.value) == Some(value)
  {
    hide HasLive;
    var env := NormalizeField(slot.field, slot.auto).env;
    TrimIdempotent(env.value);
  }

  /**
   No inline secret is lost: for every secret field of a pushed document that holds
   one and is the last of its name, after every apply that succeeds, the vault
   answers the reference at that place of the latest row with the value sent.
   */
  lemma NoSecretLost(w: World, st: State, hint: Option<Format>, raw: string, scope: Scope, fx: Faults, k: nat)
    requires Lawful(w) && Inv(w, st) && Accepts(w, scope)
    requires Resolved(w, st, hint, raw, scope).Ready? && Succeeded(Apply(w, st, hint, raw, scope, fx).1)
    requires var sent := Slots(PushedDesired(w, hint, raw), Stream(scope));
             var restored := Slots(RestoredDesired(w, st, hint, raw, scope), Stream(scope));
             && k < |sent| && k < |restored| && HasLive(sent[k].field)
             && forall j :: k < j < |restored| && HasLive(restored[j].field) ==> NameOf(restored[j]) != NameOf(restored[k])
    ensures var s := Apply(w, st, hint, raw, scope, fx).0;
            var sent := Slots(PushedDesired(w, hint, raw), Stream(scope));
            var restored := Slots(RestoredDesired(w, st, hint, raw, scope), Stream(scope));
            var latest := Latest(s.ledger, Stream(scope));
            && Carries(sent[k].field, restored[k].field)
            && latest.Some?
            && var recorded := Slots(RowDesired(w, latest.value), Stream(scope));
               && k < |recorded| && recorded[k].field.env.Some?
               && VaultGet(s.vault, recorded[k].field.env.value) == Some(StoredValue(w.json, restored[k].field))
  {
    hide Apply, Resolved, Latest, Slots, Inv, Lawful, RowDesired, PushedDesired, RestoredDesired, NormalizeDesired, Accepts;
    hide Carries, HasLive, VaultGet, RotationKept, NormalizeField, StoredName, StoredValue, Usable, SealedDesired, PushSlots;
    var restored := CandidateSource(w, st, hint, raw, scope);
    PushCarried(w, st, hint, raw, scope);
    if Latest(st.ledger, Stream(scope)).Some? && Latest(st.ledger, Stream(scope)).value.sha == w.sha(raw) {
      RepushNotLive(w, st, hint, raw, scope, k);
      assert false;
    } else {
      NoRotationLost(w, st, hint, raw, scope, fx);
      CarriedLive(Slots(PushedDesired(w, hint, raw), Stream(scope))[k].field, Slots(restored, Stream(scope))[k].field);
      NormalizedSlots(restored, Stream(scope));
      SlotsUsable(restored, Stream(scope));
      VaultHolds(w, Apply(w, st, hint, raw, scope, fx).0.vault, restored, Stream(scope), k) by {
        LawfulJson(w);
        KeptStored(w, Apply(w, st, hint, raw, scope, fx).0, scope, Resolved(w, st, hint, raw, scope).candidate.writes);
      }
      ReferenceFinds(Apply(w, st, hint, raw, scope, fx).0.vault, Slots(restored, Stream(scope))[k],
                     StoredValue(w.json, Slots(restored, Stream(scope))[k].field));
    }
  }

  lemma CarriedLive(sent: Field, restored: Field)
    requires Carries(sent, restored)
    ensures HasLive(restored)
  {
    hide HasLive;
  }

  lemma LawfulJson(w: World)
    requires Lawful(w)
    ensures JsonInverse(w.json)
  {
  }

  lemma KeptStored(w: World, s: State, scope: Scope, writes: seq<SecretWrite>)
    requires RotationKept(w, s, scope, writes)
    ensures AllInVault(s.vault, writes)
  {
  }

  lemma VaultHolds(w: World, vault: map<string, string>, restored: Desired, org: Option<string>, k: nat)
    requires JsonInverse(w.json) && AllInVault(vault, Writes(w.json, restored, org))
    requires var slots := Slots(restored, org);
             && k < |slots| && HasLive(slots[k].field)
             && forall j :: k < j < |slots| && HasLive(slots[j].field) ==> NameOf(slots[j]) != NameOf(slots[k])
    ensures VaultGet(vault, NameOf(Slots(restored, org)[k])) == Some(StoredValue(w.json, Slots(restored, org)[k].field))
  {
    hide Slots, HasLive, StoredName, StoredValue, PushSlots, VaultGet;
    SlotsUsable(restored, org);
    LastWritten(w.json, Slots(restored, org), k);
  }

  /** The latest row's text holds no inline secret. */
  lemma RepushNotLive(w: World, st: State, hint: Option<Format>, raw: string, scope: Scope, k: nat)
    requires Lawful(w) && Inv(w, st) && Latest(st.ledger, Stream(scope)).Some?
    requires Latest(st.ledger, Stream(scope)).value.sha == w.sha(raw)
    requires k < |Slots(PushedDesired(w, hint, raw), Stream(scope))|
    ensures !HasLive(Slots(PushedDesired(w, hint, raw), Stream(scope))[k].field)
  {
    hide Latest, Slots, Inv, SealedDesired, RowDesired, HasLive, NormalizeDesired, Writes;
    var row := LatestText(w, st, scope, raw);
    SealedFixed(w.json, PushedDesired(w, hint, raw), Stream(scope));
  }

  // ------------------------------------------------ secrets and compensation

  /** The append fails, and nothing else does of its own. */
  const APPEND_FAILS := NO_FAULTS.(appendFails := true)

  /** The candidate is new, valid and can be built, so the apply gets as far as the append, and that fails. */
  predicate Unrecorded(w: World, st: State, hint: Option<Format>, raw: string, scope: Scope) {
    Appends(w, st, hint, raw, scope, APPEND_FAILS)
  }

  /**
   The state a failed append leaves: the secrets sealed and pruned, and running either
   the old configuration, built anew, or the candidate if the old one cannot be built.
   */
  lemma CompensatedState(w: World, st: State, hint: Option<Format>, raw: string, scope: Scope)
    requires Unrecorded(w, st, hint, raw, scope)
    ensures var c := Resolved(w, st, hint, raw, scope).candidate;
            var sealed := Seal(st, c.writes, Sealed).0;
            var stale := Stale(w, st, scope, c.desired);
            var store, vault := sealed.store - stale, sealed.vault - (stale * sealed.store.Keys);
            var runs := if Builds(w, st.running, vault) then st.running else c.merged;
            Apply(w, st, hint, raw, scope, APPEND_FAILS)
            == (st.(store := store, vault := vault, running := runs, live := Meanings(w, runs.desired, vault)), Failed)
  {
    hide Resolved, Latest, Builds, Meanings, SealAndPrune, Seal, Stale;
    var c := Resolved(w, st, hint, raw, scope).candidate;
    SealedAndPruned(w, st, scope, c);
    AlwaysSealed(w, st, scope, c, APPEND_FAILS);
  }

  lemma SealedAndPruned(w: World, st: State, scope: Scope, c: Candidate)
    ensures var sealed := Seal(st, c.writes, Sealed).0;
            var stale := Stale(w, st, scope, c.desired);
            SealAndPrune(w, st, scope, c, NO_FAULTS)
            == (st.(store := sealed.store - stale, vault := sealed.vault - (stale * sealed.store.Keys)), true)
  {
    hide CollectRefs, LoadWrites, IsUiManaged, OrgAuthority, StaleSecrets;
    var sealed := Seal(st, c.writes, Sealed).0;
    assert Stale(w, sealed, scope, c.desired) == Stale(w, st, scope, c.desired);
    assert sealed.store - {} == sealed.store && sealed.vault - ({} * sealed.store.Keys) == sealed.vault;
  }

  lemma NothingRemoved(m: map<string, string>, names: set<string>)
    ensures m - names == m <==> names !! m.Keys
  {
    if names !! m.Keys {
      assert m - names == m;
    } else {
      var name :| name in names && name in m.Keys;
      assert name !in m - names;
    }
  }

  /**
   Compensation, exactly: after a failed append the old configuration runs again if
   and only if it can still be built from the vault that sealing and pruning left (or
   the candidate is no different); a restart then starts if and only if it can be
   built from the store.
   */
  lemma ComesBackExactly(w: World, st: State, hint: Option<Format>, raw: string, scope: Scope)
    requires Unrecorded(w, st, hint, raw, scope)
    ensures var c := Resolved(w, st, hint, raw, scope).candidate;
            var (s, o) := Apply(w, st, hint, raw, scope, APPEND_FAILS);
            && o == Failed && s.ledger == st.ledger
            && (s.running == st.running <==> Builds(w, st.running, s.vault) || c.merged == st.running)
            && (s.running != st.running ==> s.running == c.merged)
            && s.live == Meanings(w, s.running.desired, s.vault)
            && (Converged(w, st) ==> (Boot(w, s.ledger, s.store).Some? <==> Builds(w, st.running, s.store)))
  {
    hide Resolved, Apply, Seal, Builds, Meanings, Stale, InstallAppends, Resolve, BootIdentity;
    CompensatedState(w, st, hint, raw, scope);
  }

  /**
   Pruning is not compensated: in either scope, the store keeps what sealing left in
   it exactly if it held none of the names the candidate drops, and the vault exactly
   if it held none of those that the store did.
   */
  lemma CompensationKeepsPrune(w: World, st: State, hint: Option<Format>, raw: string, scope: Scope)
    requires Unrecorded(w, st, hint, raw, scope)
    ensures var c := Resolved(w, st, hint, raw, scope).candidate;
            var sealed := Seal(st, c.writes, Sealed).0;
            var stale := Stale(w, st, scope, c.desired);
            var s := Apply(w, st, hint, raw, scope, APPEND_FAILS).0;
            && (s.store == sealed.store <==> stale !! sealed.store.Keys)
            && (s.vault == sealed.vault <==> stale * sealed.store.Keys !! sealed.vault.Keys)
  {
    hide Resolved, Apply, Seal, Builds, Meanings, Stale, InstallAppends;
    CompensatedState(w, st, hint, raw, scope);
    var c := Resolved(w, st, hint, raw, scope).candidate;
    var sealed := Seal(st, c.writes, Sealed).0;
    var stale := Stale(w, st, scope, c.desired);
    NothingRemoved(sealed.store, stale);
    NothingRemoved(sealed.vault, stale * sealed.store.Keys);
  }

  /** The notifier's k-th secret is a reference that the candidate drops, and nothing else answers for it. */
  predicate DropsOnlyAnswer(w: World, st: State, scope: Scope, c: Candidate, n: Notifier, k: nat)
    requires k < |NotifierFields(n)|
  {
    var f, global := NotifierFields(n)[k], NotifierGlobals(n)[k];
    var sealed := Seal(st, c.writes, Sealed).0;
    && Demands(n, k) && !HasLive(f) && !EnvBlank(f.env)
    && Trim(f.env.value) in Stale(w, st, scope, c.desired) * sealed.store.Keys
    && Unset(w.vars, Trim(f.env.value)) && Unset(w.vars, global)
    && VaultGet(sealed.vault, global).None? && VaultGet(sealed.store, global).None?
  }

  /**
   So an apply that drops a sink whose generated secret was stored cannot be
   compensated: if the append fails the candidate stays, unrecorded, and a process
   that was converged does not start again either.
   */
  lemma DroppedSinkStrands(w: World, st: State, hint: Option<Format>, raw: string, scope: Scope, i: nat, k: nat)
    requires Unrecorded(w, st, hint, raw, scope) && i < |st.running.desired.notifiers|
    requires var n := st.running.desired.notifiers[i];
             k < |NotifierFields(n)| && DropsOnlyAnswer(w, st, scope, Resolved(w, st, hint, raw, scope).candidate, n, k)
    ensures var (s, o) := Apply(w, st, hint, raw, scope, APPEND_FAILS);
            && o == Failed && s.ledger == st.ledger
            && s.running == Resolved(w, st, hint, raw, scope).candidate.merged
            && (Converged(w, st) ==> Boot(w, s.ledger, s.store).None? && !Step(w, s, Restart).up)
  {
    hide Resolved, Apply, Seal, Builds, Meanings, Stale, InstallAppends, Resolve, BootIdentity, HasLive;
    CompensatedState(w, st, hint, raw, scope);
    var n := st.running.desired.notifiers[i];
    var c := Resolved(w, st, hint, raw, scope).candidate;
    var sealed, stale := Seal(st, c.writes, Sealed).0, Stale(w, st, scope, c.desired);
    DroppedUnanswered(w, st, scope, c, n, k, sealed.vault, stale * sealed.store.Keys);
    DroppedUnanswered(w, st, scope, c, n, k, sealed.store, stale);
    LostSecretBlocks(w, st.running, i, k, sealed.vault - (stale * sealed.store.Keys));
    LostSecretBlocks(w, st.running, i, k, sealed.store - stale);
  }

  lemma DroppedUnanswered(w: World, st: State, scope: Scope, c: Candidate, n: Notifier, k: nat,
                          m: map<string, string>, gone: set<string>)
    requires k < |NotifierFields(n)| && DropsOnlyAnswer(w, st, scope, c, n, k)
    requires VaultGet(m, NotifierGlobals(n)[k]).None? && Trim(NotifierFields(n)[k].env.value) in gone
    ensures Unanswered(w, m - gone, NotifierFields(n)[k], NotifierGlobals(n)[k])
  {
    hide HasLive, Seal, Stale, NotifierGlobals, Blank;
    TrimIdempotent(NotifierFields(n)[k].env.value);
  }

  /** The map already holds every write. */
  predicate Holds(m: map<string, string>, writes: seq<SecretWrite>) {
    forall i :: 0 <= i < |writes| ==> writes[i].name in m && m[writes[i].name] == writes[i].value
  }

  lemma {:induction false} LoadNothingNew(m: map<string, string>, writes: seq<SecretWrite>)
    requires UsableWrites(writes) && Holds(m, writes)
    ensures LoadWrites(m, writes) == m
    decreases |writes|
  {
    if writes != [] {
      assert m[writes[0].name := writes[0].value] == m;
      LoadNothingNew(m, writes[1..]);
    }
  }

  lemma LoadedMinus(m: map<string, string>, writes: seq<SecretWrite>, gone: set<string>)
    requires UsableWrites(writes) && forall i :: 0 <= i < |writes| ==> writes[i].name !in gone
    ensures LoadWrites(m, writes) - gone == m <==> Holds(m, writes) && gone !! m.Keys
  {
    hide LoadWrites, Usable;
    if Holds(m, writes) && gone !! m.Keys {
      LoadNothingNew(m, writes);
      NothingRemoved(m, gone);
    }
    if LoadWrites(m, writes) - gone == m {
      forall i | 0 <= i < |writes| ensures writes[i].name in m && m[writes[i].name] == writes[i].value {
        LoadedValue(m, writes, i);
      }
    }
  }

  /**
   A failed append leaves the store, or the vault, as it was before the apply exactly if
   it held every secret that was sent already, and none that the candidate drops.
   */
  lemma CompensationRestoresSecrets(w: World, st: State, hint: Option<Format>, raw: string, scope: Scope)
    requires JsonInverse(w.json) && Unrecorded(w, st, hint, raw, scope)
    ensures var c := Resolved(w, st, hint, raw, scope).candidate;
            var stored := Seal(st, c.writes, Sealed).0.store.Keys;
            var stale := Stale(w, st, scope, c.desired);
            var s := Apply(w, st, hint, raw, scope, APPEND_FAILS).0;
            && (s.store == st.store <==> Holds(st.store, c.writes) && stale !! st.store.Keys)
            && (s.vault == st.vault <==> Holds(st.vault, c.writes) && stale * stored !! st.vault.Keys)
  {
    hide Resolved, Latest, CollectRefs, LoadWrites, IsUiManaged, OrgAuthority, Apply, PreviousRefs, NormalizeDesired;
    hide Holds, UsableWrites, Slots, PushSlots, Builds, Meanings, InstallAppends;
    CompensatedState(w, st, hint, raw, scope);
    var c := Resolved(w, st, hint, raw, scope).candidate;
    var restored := CandidateSource(w, st, hint, raw, scope);
    var stale := Stale(w, st, scope, c.desired);
    SlotsUsable(restored, Stream(scope));
    LoadPushed(w.json, map[], Slots(restored, Stream(scope)));
    PruneSparesWrites(w.json, restored, Stream(scope), PreviousRefs(w, st, scope));
    LoadedMinus(st.store, c.writes, stale);
    LoadedMinus(st.vault, c.writes, stale * Seal(st, c.writes, Sealed).0.store.Keys);
    if c.writes == [] {
      NothingLoads(st.store);
      NothingLoads(st.vault);
    }
  }

  lemma NothingLoads(m: map<string, string>)
    ensures LoadWrites(m, []) == m
  {
  }

  // ------------------------------------------------------- failed commits

  /** Candidates depend on the ledger and the running configuration only. */
  lemma ResolvedReads(w: World, st: State, st': State, hint: Option<Format>, raw: string, scope: Scope)
    requires st.ledger == st'.ledger && st.running == st'.running
    ensures Resolved(w, st, hint, raw, scope) == Resolved(w, st', hint, raw, scope)
  {
    hide NormalizeDesired, RestoreDesired, Writes, Compose, MergePushed, OrgAuthority, HasDesiredState;
  }

  /** Writes under other names leave a lookup alone. */
  lemma {:induction false} LoadedElsewhere(vault: map<string, string>, writes: seq<SecretWrite>, name: string)
    requires UsableWrites(writes) && Usable(name) && forall i :: 0 <= i < |writes| ==> writes[i].name != name
    ensures VaultGet(LoadWrites(vault, writes), name) == VaultGet(vault, name)
    decreases |writes|
  {
    hide Blank;
    if writes != [] {
      UsableTrimmed(name);
      UsableTrimmed(writes[0].name);
      LoadedElsewhere(VaultUpsert(vault, writes[0].name, writes[0].value), writes[1..], name);
    }
  }

  /** How many of the writes reached the vault before the transaction failed. */
  function Reached(writes: seq<SecretWrite>, n: nat): nat {
    if n <= |writes| then n else |writes|
  }

  /** The vault answers with every value exactly if it did with those that were not reached. */
  lemma ReachedInVault(vault: map<string, string>, writes: seq<SecretWrite>, n: nat)
    requires UsableWrites(writes)
    ensures AllInVault(LoadWrites(vault, writes[..Reached(writes, n)]), writes) <==>
            forall i :: n <= i < |writes| ==> VaultGet(vault, writes[i].name) == Some(writes[i].value)
  {
    hide LoadWrites, VaultGet, Usable;
    var done := writes[..Reached(writes, n)];
    var loaded := LoadWrites(vault, done);
    LoadedStored(vault, done, {});
    assert loaded - {} == loaded;
    forall i | 0 <= i < |writes|
      ensures i < n ==> VaultGet(loaded, writes[i].name) == Some(writes[i].value)
      ensures n <= i ==> VaultGet(loaded, writes[i].name) == VaultGet(vault, writes[i].name)
    {
      if i < n {
        assert done[i] == writes[i];
      } else {
        LoadedElsewhere(vault, done, writes[i].name);
      }
    }
  }

  lemma WritesUsable(w: World, restored: Desired, org: Option<string>)
    requires JsonInverse(w.json)
    ensures UsableWrites(Writes(w.json, restored, org))
  {
    hide LoadWrites, PushSlots, Slots, UsableWrites;
    SlotsUsable(restored, org);
    LoadPushed(w.json, map[], Slots(restored, org));
  }

  /** A rotation: the candidate's body is the latest row's, and some secret of it is new to the vault. */
  predicate Rotates(w: World, st: State, hint: Option<Format>, raw: string, scope: Scope) {
    && Resolved(w, st, hint, raw, scope).Ready?
    && var c := Resolved(w, st, hint, raw, scope).candidate;
       && Latest(st.ledger, Stream(scope)).Some? && Latest(st.ledger, Stream(scope)).value.sha == c.sha
       && c.sha != w.sha(raw) && w.valid(c.merged, st.vault) && !AllInVault(st.vault, c.writes)
  }

  /**
   A rotation whose transaction fails at the n-th secret answers with an error, and the
   store is as before, but the vault holds what came before: sending the same document
   again is answered as unchanged exactly if every other secret was in the vault
   already, and otherwise rotates, if it is still valid.
   */
  lemma RetryMaskedExactly(w: World, st: State, hint: Option<Format>, raw: string, scope: Scope, n: nat)
    requires Lawful(w) && Rotates(w, st, hint, raw, scope)
    ensures var c := Resolved(w, st, hint, raw, scope).candidate;
            var (s, o) := Apply(w, st, hint, raw, scope, NO_FAULTS.(seal := SealUncommitted(n)));
            var retry := Apply(w, s, hint, raw, scope, NO_FAULTS);
            var rest := forall i :: n <= i < |c.writes| ==> VaultGet(st.vault, c.writes[i].name) == Some(c.writes[i].value);
            && o == Failed && s.store == st.store
            && (retry == (s, NoChange(c.sha)) <==> rest)
            && (!rest ==> retry.1 == if w.valid(c.merged, s.vault) then Rotated(c.sha) else ValidationRejected)
  {
    hide Resolved, Latest, CollectRefs, LoadWrites, AllInVault, SealAndPrune, VaultGet;
    var c := Resolved(w, st, hint, raw, scope).candidate;
    var fx := NO_FAULTS.(seal := SealUncommitted(n));
    var restored := CandidateSource(w, st, hint, raw, scope);
    WritesUsable(w, restored, Stream(scope));
    NothingIsStored(st.vault);
    FailedSeal(w, st, scope, c, n);
    var s := SealAndPrune(w, st, scope, c, fx).0;
    ResolvedReads(w, st, s, hint, raw, scope);
    ReachedInVault(st.vault, c.writes, n);
    AlwaysSealed(w, s, scope, c, NO_FAULTS);
  }

  lemma FailedSeal(w: World, st: State, scope: Scope, c: Candidate, n: nat)
    requires c.writes != []
    ensures SealAndPrune(w, st, scope, c, NO_FAULTS.(seal := SealUncommitted(n)))
            == (st.(vault := LoadWrites(st.vault, c.writes[..Reached(c.writes, n)])), false)
  {
    hide LoadWrites;
  }

  /**
   In particular, when only the commit fails the vault is ahead of the store: the
   retry is answered as unchanged, the store never receives the value, and a restart
   brings the old one back.
   */
  lemma LostCommitIsMasked(w: World, st: State, hint: Option<Format>, raw: string, scope: Scope, n: nat)
    requires Lawful(w) && Rotates(w, st, hint, raw, scope)
    requires n >= |Resolved(w, st, hint, raw, scope).candidate.writes|
    ensures var c := Resolved(w, st, hint, raw, scope).candidate;
            var (s, o) := Apply(w, st, hint, raw, scope, NO_FAULTS.(seal := SealUncommitted(n)));
            && o == Failed && s.store == st.store && s.vault != st.vault
            && Apply(w, s, hint, raw, scope, NO_FAULTS) == (s, NoChange(c.sha))
            && (st.vault == st.store ==> !AllInVault(s.store, c.writes))
  {
    hide Resolved, Latest, CollectRefs, LoadWrites, AllInVault, SealAndPrune, VaultGet;
    RetryMaskedExactly(w, st, hint, raw, scope, n);
    var c := Resolved(w, st, hint, raw, scope).candidate;
    var restored := CandidateSource(w, st, hint, raw, scope);
    WritesUsable(w, restored, Stream(scope));
    NothingIsStored(st.vault);
    FailedSeal(w, st, scope, c, n);
    ReachedInVault(st.vault, c.writes, n);
  }

  lemma NothingIsStored(vault: map<string, string>)
    ensures AllInVault(vault, [])
  {
  }

  predicate Committed(fx: Faults) {
    !fx.seal.SealUncommitted? && !fx.prune.PruneUncommitted?
  }

  lemma SealAndPruneMirrors(w: World, st: State, scope: Scope, c: Candidate, fx: Faults)
    requires st.vault == st.store && Committed(fx)
    ensures var s := SealAndPrune(w, st, scope, c, fx).0; s.vault == s.store
  {
    hide LoadWrites, Stale;
    var s := Seal(st, c.writes, fx.seal).0;
    var stale := Stale(w, s, scope, c.desired);
    assert s.store - stale == s.store - (stale * s.store.Keys);
  }

  lemma ApplyMirrors(w: World, st: State, hint: Option<Format>, raw: string, scope: Scope, fx: Faults)
    requires st.vault == st.store && Committed(fx)
    ensures var s := Apply(w, st, hint, raw, scope, fx).0; s.vault == s.store
  {
    hide Resolved, Apply, RejectedBody, SealAndPrune;
    ApplyEffects(w, st, hint, raw, scope, fx);
    if Resolved(w, st, hint, raw, scope).Ready? {
      SealAndPruneMirrors(w, st, scope, Resolved(w, st, hint, raw, scope).candidate, fx);
    }
  }

  lemma StepMirrors(w: World, st: State, e: Event)
    requires st.vault == st.store && (e.Serve? ==> Committed(e.fx))
    ensures Step(w, st, e).vault == Step(w, st, e).store
  {
    hide Apply, Previous, Latest, Handle, Compose, MergePushed, Resolve, Builds, Meanings;
    if e.Serve? {
      HandleIsApply(w, st, e.request, e.scope, e.fx);
      var sent := Sends(st, e.request, e.scope);
      if sent.Some? {
        ApplyMirrors(w, st, sent.value.hint, sent.value.raw, e.scope, e.fx);
      }
    }
  }

  /**
   As long as no secret transaction fails to commit, the vault is the store in
   every run, so what `NoRotationLost` finds in the vault survives a restart.
   */
  lemma {:induction false} VaultMirrorsStore(w: World, st: State, events: seq<Event>)
    requires st.vault == st.store
    requires forall i :: 0 <= i < |events| && events[i].Serve? ==> Committed(events[i].fx)
    ensures Run(w, st, events).vault == Run(w, st, events).store
    decreases |events|
  {
    hide Step;
    if events != [] {
      var last := |events| - 1;
      VaultMirrorsStore(w, st, events[..last]);
      StepMirrors(w, Run(w, st, events[..last]), events[last]);
    }
  }
}
