/**
 The secrets a process really uses: those its watches and sinks were built with at
 the last swap, against those a restart would build them with.
 */
module LiveSecrets {
  import opened Text
  import opened Settings
  import opened SecretRefs
  import opened SecretMeaning
  import opened RoundTrip
  import opened Composition
  import opened Runtime
  import opened ApplyEngine
  import opened ApplyRuns
  import opened Rotations

  // ------------------------------------------------------------ over all runs

  /** The step builds a runtime anew. */
  predicate Swaps(w: World, st: State, e: Event) {
    match e
    case Serve(request, scope, fx) => st.up && RequestAppends(w, st, request, scope, fx)
    case ReloadFiles(swapFails) => st.up && ReloadSwaps(w, st, swapFails)
    case Restart => Boot(w, st.ledger, st.store).Some?
  }

  /** The vault the running watches and sinks were last built from. */
  function BuiltFrom(w: World, st: State, events: seq<Event>): map<string, string> {
    if events == [] then st.vault
    else
      var last := |events| - 1;
      if Swaps(w, Run(w, st, events[..last]), events[last]) then Run(w, st, events).vault
      else BuiltFrom(w, st, events[..last])
  }

  /** A swap resolves every secret from the vault as it then is; any other step leaves what runs alone. */
  lemma StepLive(w: World, st: State, e: Event)
    ensures var s := Step(w, st, e);
            if Swaps(w, st, e) then s.live == Meanings(w, s.running.desired, s.vault)
            else s.live == st.live && s.running == st.running
  {
    hide Apply, Handle, Appends, Stranded, Meanings, Builds, Resolve, ReloadTarget, Resolved, Latest, BootIdentity;
    if e.Serve? && st.up {
      HandleIsApply(w, st, e.request, e.scope, e.fx);
      var sent := Sends(st, e.request, e.scope);
      if Accepts(w, e.scope) && sent.Some? {
        ApplyShape(w, st, sent.value.hint, sent.value.raw, e.scope, e.fx);
      }
    }
  }

  /** Over every run, what runs holds the secrets of the vault it was last built from. */
  lemma {:induction false} LiveAfterRun(w: World, st: State, events: seq<Event>)
    requires st.live == Meanings(w, st.running.desired, st.vault)
    ensures Run(w, st, events).live == Meanings(w, Run(w, st, events).running.desired, BuiltFrom(w, st, events))
    decreases |events|
  {
    hide Step, Swaps, Meanings;
    if events != [] {
      var last := |events| - 1;
      LiveAfterRun(w, st, events[..last]);
      StepLive(w, Run(w, st, events[..last]), events[last]);
    }
  }

  /**
   What a process runs against what a restart would run, over every run: the restart
   starts exactly if the running configuration can be built from the store, it then
   runs the same configuration, and with the same secrets exactly if every secret
   field reads the same from the store as from the vault of the last swap.
   */
  lemma RunMatchesRestart(w: World, st: State, events: seq<Event>)
    requires Lawful(w) && Inv(w, st) && Compensated(w, st, events)
    requires st.live == Meanings(w, st.running.desired, st.vault)
    ensures var now := Run(w, st, events);
            var restarted := Boot(w, now.ledger, now.store);
            var slots := Slots(now.running.desired, None);
            && (restarted.Some? <==> Builds(w, now.running, now.store))
            && (restarted.Some? ==>
                  && restarted.value.running == now.running
                  && (restarted.value.live == now.live <==>
                      forall k :: 0 <= k < |slots| ==> SlotSteady(w, slots[k], BuiltFrom(w, st, events), now.store)))
  {
    hide Run, BuiltFrom, Meanings, Builds, Resolve, SlotSteady, Slots, Compensated, LedgerSound, NoTwins, BootIdentity;
    hide PublishesIdentity;
    RunKeepsInv(w, st, events);
    LiveAfterRun(w, st, events);
    var now := Run(w, st, events);
    MeaningsSame(w, now.running.desired, BuiltFrom(w, st, events), now.store);
  }

  /** After a recorded apply whose transactions commit, a restart starts and runs the same with the same secrets. */
  lemma RecordedRestarts(w: World, st: State, hint: Option<Format>, raw: string, scope: Scope, fx: Faults)
    requires ParsesPrinted(w) && Booted(w) && Accepts(w, scope) && st.vault == st.store && Committed(fx)
    requires Apply(w, st, hint, raw, scope, fx).1.Recorded?
    ensures var s := Apply(w, st, hint, raw, scope, fx).0;
            var restarted := Boot(w, s.ledger, s.store);
            restarted.Some? && restarted.value.running == s.running && restarted.value.live == s.live
  {
    hide Apply, Resolved, Resolve, Latest, Meanings, Builds, SealAndPrune, BootIdentity, Accepts, Appends, Stranded;
    ApplyShape(w, st, hint, raw, scope, fx);
    RecordedConverges(w, st, hint, raw, scope, fx);
    ApplyMirrors(w, st, hint, raw, scope, fx);
  }

  // ---------------------------------------------------------------- rotations

  /** What a whole-document process runs is the document of every candidate that repeats the latest body. */
  lemma RepeatedIsRunning(w: World, st: State, hint: Option<Format>, raw: string)
    requires Lawful(w) && Inv(w, st) && Accepts(w, Whole) && Resolved(w, st, hint, raw, Whole).Ready?
    requires Latest(st.ledger, None).Some?
    requires Latest(st.ledger, None).value.sha == Resolved(w, st, hint, raw, Whole).candidate.sha
    ensures Resolved(w, st, hint, raw, Whole).candidate.desired == st.running.desired
  {
    hide Latest, NoTwins, SealedDesired, WholeCandidate, RowDesired, Compose, OverlayDesired, BootDocument;
    var row := Latest(st.ledger, None).value;
    var c := Resolved(w, st, hint, raw, Whole).candidate;
    AppliedRowSound(w, st.ledger, None);
    DigestOf(w, row);
    CandidateSealed(w, st, hint, raw, Whole);
    WholeCandidateBoots(w, st, hint, raw);
    assert RowDesired(w, row) == c.desired by { ParsedRow(w, row, c); }
    AcceptsSingle(w);
    RunningDocument(w, st, row);
  }

  lemma ParsedRow(w: World, row: Revision, c: Candidate)
    requires w.parse(None, row.content) == Some(DesiredOnly(c.desired))
    ensures RowDesired(w, row) == c.desired
  {
  }

  lemma AcceptsSingle(w: World)
    requires Accepts(w, Whole)
    ensures w.bootstrap.organizations == [] && LedgerBootable(w)
  {
  }

  lemma RotatedRepeats(w: World, st: State, hint: Option<Format>, raw: string, fx: Faults)
    requires Apply(w, st, hint, raw, Whole, fx).1.Rotated?
    ensures Resolved(w, st, hint, raw, Whole).Ready? && Latest(st.ledger, None).Some?
    ensures Latest(st.ledger, None).value.sha == Resolved(w, st, hint, raw, Whole).candidate.sha
    ensures var s := Apply(w, st, hint, raw, Whole, fx).0; s.live == st.live && s.running == st.running
  {
    hide Resolved, Latest, SealAndPrune, Builds, Meanings;
    if Resolved(w, st, hint, raw, Whole).Ready? {
      SecretsOnly(w, st, Whole, Resolved(w, st, hint, raw, Whole).candidate, fx);
    }
  }

  /**
   A rotation waits for the next swap: the sink or watch keeps the secret it was built
   with, while a restart would use the one that was sent; so it is up to date exactly
   if it had that secret before.
   */
  lemma RotationWaits(w: World, st: State, hint: Option<Format>, raw: string, fx: Faults, k: nat)
    requires Lawful(w) && Inv(w, st) && Accepts(w, Whole) && Apply(w, st, hint, raw, Whole, fx).1.Rotated?
    requires |st.live| == |Slots(st.running.desired, None)|
    requires var sent := Slots(RestoredDesired(w, st, hint, raw, Whole), None);
             && k < |sent| && HasLive(sent[k].field) && Unshadowed(w.vars, sent[k])
             && forall j :: k < j < |sent| && HasLive(sent[j].field) ==> NameOf(sent[j]) != NameOf(sent[k])
    ensures var s := Apply(w, st, hint, raw, Whole, fx).0;
            var sent := Slots(RestoredDesired(w, st, hint, raw, Whole), None);
            var value := ResolveField(w.json, w.vars, st.vault, sent[k].field, sent[k].global);
            && s.running == st.running && s.live == st.live && k < |s.live|
            && Meanings(w, s.running.desired, s.vault)[k] == value
            && (s.live[k] == Meanings(w, s.running.desired, s.vault)[k] <==> st.live[k] == value)
  {
    hide Apply, Resolved, Latest, Slots, Inv, Lawful, RestoredDesired, NormalizeDesired, Accepts, ResolveField, Unshadowed;
    hide HasLive, VaultGet, RotationKept, NormalizeField, StoredName, StoredValue, Usable, PushSlots;
    var s := Apply(w, st, hint, raw, Whole, fx).0;
    RotatedRepeats(w, st, hint, raw, fx);
    RepeatedIsRunning(w, st, hint, raw);
    var restored := CandidateSource(w, st, hint, raw, Whole);
    NormalizedSlots(restored, None);
    SlotsUsable(restored, None);
    NoRotationLost(w, st, hint, raw, Whole, fx);
    LawfulJson(w);
    KeptStored(w, s, Whole, Resolved(w, st, hint, raw, Whole).candidate.writes);
    VaultHolds(w, s.vault, restored, None, k);
    var slot := Slots(restored, None)[k];
    StoredUsable(w.json, slot);
    HeldUnder(s.vault, NameOf(slot), StoredValue(w.json, slot.field));
    LiveFieldPreserved(w.json, w.vars, st.vault, s.vault, slot);
  }

  lemma HeldUnder(vault: map<string, string>, name: string, value: string)
    requires Usable(name) && VaultGet(vault, name) == Some(value)
    ensures name in vault && vault[name] == value
  {
    UsableTrimmed(name);
  }
}
