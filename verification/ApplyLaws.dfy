/**
 What a failed request leaves behind, and what repairs a process that is ahead of
 its ledger.
 */
module ApplyLaws {
  import opened Text
  import opened Settings
  import opened Restoration
  import opened SecretRefs
  import opened SecretMeaning
  import opened Composition
  import opened Runtime
  import opened ApplyEngine
  import opened ApplyRuns

  // ---------------------------------------------------------- atomic failure

  /** The candidate of the document a request sends. */
  function SentCandidate(w: World, st: State, request: Request, scope: Scope): Resolution {
    match Sends(st, request, scope)
    case None => BadDocument
    case Some(sent) => Resolved(w, st, sent.hint, sent.raw, scope)
  }

  /**
   Failure atomicity, for every choice of faults: a request that does not succeed
   leaves the applied rows of every stream and the published identity as they were,
   and adds at most one row, a rejected one.  The configuration stays too, unless the
   process is stranded on the candidate; and what its sinks hold stays unless the
   append was reached, after which they are built anew from the vault that is left.
   */
  lemma FailureIsAtomic(w: World, st: State, request: Request, scope: Scope, fx: Faults)
    requires !Succeeded(Handle(w, st, request, scope, fx).1)
    ensures var s := Handle(w, st, request, scope, fx).0;
            && SameFace(s, st)
            && (forall stream :: AppliedRows(s.ledger, stream) == AppliedRows(st.ledger, stream))
            && (s.ledger == st.ledger || RejectionAdded(w, st.ledger, s.ledger, Stream(scope)))
            && (RequestStranded(w, st, request, scope, fx) ==> SentCandidate(w, st, request, scope).Ready?)
            && s.running == (if RequestStranded(w, st, request, scope, fx)
                             then SentCandidate(w, st, request, scope).candidate.merged else st.running)
            && s.live == (if RequestAppends(w, st, request, scope, fx)
                          then Meanings(w, s.running.desired, s.vault) else st.live)
  {
    hide Apply, Resolved, Handle, Meanings, Builds, AppliedRows, SealAndPrune;
    HandleIsApply(w, st, request, scope, fx);
    var sent := Sends(st, request, scope);
    if Accepts(w, scope) && sent.Some? {
      ApplyShape(w, st, sent.value.hint, sent.value.raw, scope, fx);
    }
    var s := Handle(w, st, request, scope, fx).0;
    if s.ledger != st.ledger {
      assert RejectionAdded(w, st.ledger, s.ledger, Stream(scope));
      var body :| s.ledger == st.ledger + [Revision(Stream(scope), body, w.sha(body), Rejected)];
      forall stream ensures AppliedRows(s.ledger, stream) == AppliedRows(st.ledger, stream) {
        AppliedAfterAppend(st.ledger, Revision(Stream(scope), body, w.sha(body), Rejected), stream);
      }
    }
  }

  // ----------------------------------------------------- ahead of the ledger

  /** A converged process stays so exactly unless it is stranded on a candidate that differs from what ran. */
  lemma AheadOfLedger(w: World, st: State, hint: Option<Format>, raw: string, scope: Scope, fx: Faults)
    requires ParsesPrinted(w) && Booted(w) && Accepts(w, scope) && Converged(w, st)
    ensures Converged(w, Apply(w, st, hint, raw, scope, fx).0) <==>
            (Stranded(w, st, hint, raw, scope, fx) ==>
               Resolved(w, st, hint, raw, scope).candidate.merged == st.running)
  {
    hide Apply, Resolved, Resolve, Latest, Meanings, Builds, SealAndPrune, BootIdentity, Accepts;
    ApplyShape(w, st, hint, raw, scope, fx);
    var (s, o) := Apply(w, st, hint, raw, scope, fx);
    if o.Recorded? {
      RecordedConverges(w, st, hint, raw, scope, fx);
    } else if s.ledger != st.ledger {
      var body :| s.ledger == st.ledger + [Revision(Stream(scope), body, w.sha(body), Rejected)];
      RejectedRowUnread(w, st.ledger, Revision(Stream(scope), body, w.sha(body), Rejected));
    }
  }

  /** What is left for a candidate to be built from, once its secrets are sealed and those it drops pruned. */
  function VaultAfter(w: World, st: State, scope: Scope, c: Candidate): map<string, string> {
    SealAndPrune(w, st, scope, c, NO_FAULTS).0.vault
  }

  /**
   An apply without faults repairs a process that is ahead of its ledger exactly if it
   is recorded: the document resolves, neither its text nor its candidate's body is
   the latest row's, and the candidate is valid and can be built.
   */
  lemma HealsExactly(w: World, st: State, hint: Option<Format>, raw: string, scope: Scope)
    requires ParsesPrinted(w) && Booted(w) && Accepts(w, scope) && !Converged(w, st)
    ensures var latest := Latest(st.ledger, Stream(scope));
            var r := Resolved(w, st, hint, raw, scope);
            Converged(w, Apply(w, st, hint, raw, scope, NO_FAULTS).0) <==>
            && r.Ready? && w.valid(r.candidate.merged, st.vault)
            && (latest.Some? ==> latest.value.sha != w.sha(raw) && latest.value.sha != r.candidate.sha)
            && Builds(w, r.candidate.merged, VaultAfter(w, st, scope, r.candidate))
  {
    hide Apply, Resolved, Resolve, Latest, Meanings, Builds, SealAndPrune, BootIdentity, Accepts;
    ApplyShape(w, st, hint, raw, scope, NO_FAULTS);
    var (s, o) := Apply(w, st, hint, raw, scope, NO_FAULTS);
    if Resolved(w, st, hint, raw, scope).Ready? {
      AlwaysSealed(w, st, scope, Resolved(w, st, hint, raw, scope).candidate, NO_FAULTS);
    }
    if o.Recorded? {
      RecordedConverges(w, st, hint, raw, scope, NO_FAULTS);
    } else if s.ledger != st.ledger {
      var body :| s.ledger == st.ledger + [Revision(Stream(scope), body, w.sha(body), Rejected)];
      RejectedRowUnread(w, st.ledger, Revision(Stream(scope), body, w.sha(body), Rejected));
    }
  }

  /** In particular, re-applying the latest row's text changes nothing, in whatever format and state. */
  lemma ReapplyDoesNotHeal(w: World, st: State, hint: Option<Format>, scope: Scope, fx: Faults)
    requires LedgerSound(w, st.ledger) && Latest(st.ledger, Stream(scope)).Some? && !fx.ledgerUnreadable
    ensures var row := Latest(st.ledger, Stream(scope)).value;
            Apply(w, st, hint, row.content, scope, fx) == (st, NoChange(row.sha))
  {
    hide Resolved, RowSound;
    AppliedRowSound(w, st.ledger, Stream(scope));
    DigestOf(w, Latest(st.ledger, Stream(scope)).value);
  }

  /** A restart repairs any process exactly if what the ledger holds can be built from the stored secrets. */
  lemma RestartHeals(w: World, st: State)
    ensures var s := Step(w, st, Restart);
            && (s.up <==> Resolve(w, st.ledger).Some? && Builds(w, Resolve(w, st.ledger).value, st.store))
            && (s.up ==> Converged(w, s) && s.live == Meanings(w, s.running.desired, st.store) && s.vault == st.store)
  {
    hide Resolve, Builds, Meanings, BootIdentity;
  }

  lemma AlwaysSealed(w: World, st: State, scope: Scope, c: Candidate, fx: Faults)
    requires fx.seal == Sealed && fx.prune == Pruned
    ensures SealAndPrune(w, st, scope, c, fx) == SealAndPrune(w, st, scope, c, NO_FAULTS)
    ensures SealAndPrune(w, st, scope, c, fx).1
  {
    hide LoadWrites, PreviousRefs, StaleSecrets, CollectRefs;
  }

  // ------------------------------------------------------ fault-free applies

  /**
   Without faults, a document that differs from the latest one takes effect exactly if
   it is valid and can be built: it is recorded and runs, in agreement with what a
   restart would run, and its digest is what a single-document instance publishes.
   */
  lemma ValidPushTakesEffect(w: World, st: State, hint: Option<Format>, raw: string, scope: Scope)
    requires Lawful(w) && Inv(w, st) && Accepts(w, scope) && Resolved(w, st, hint, raw, scope).Ready?
    requires var c := Resolved(w, st, hint, raw, scope).candidate;
             Latest(st.ledger, Stream(scope)).Some? ==>
               && Latest(st.ledger, Stream(scope)).value.content != raw
               && Latest(st.ledger, Stream(scope)).value.content != c.body
    ensures var c := Resolved(w, st, hint, raw, scope).candidate;
            var (s, o) := Handle(w, st, Push(hint, raw), scope, NO_FAULTS);
            && (o.Recorded? <==> w.valid(c.merged, st.vault) && Builds(w, c.merged, VaultAfter(w, st, scope, c)))
            && (o.Recorded? ==>
                  && o == Recorded(w.sha(c.body)) && s.running == c.merged
                  && s.live == Meanings(w, c.merged.desired, s.vault)
                  && s.ledger == st.ledger + [Revision(Stream(scope), c.body, w.sha(c.body), Applied)]
                  && Converged(w, s) && (scope == Whole ==> s.published == Some(w.sha(c.body))))
  {
    hide Resolved, Resolve, Latest, RowSound, LedgerSound, NoTwins, Accepts, SealAndPrune, Apply, Meanings, Builds, Handle;
    var c := Resolved(w, st, hint, raw, scope).candidate;
    CandidateSealed(w, st, hint, raw, scope);
    if Latest(st.ledger, Stream(scope)).Some? {
      AppliedRowSound(w, st.ledger, Stream(scope));
      DigestOf(w, Latest(st.ledger, Stream(scope)).value);
    }
    ApplyShape(w, st, hint, raw, scope, NO_FAULTS);
    AlwaysSealed(w, st, scope, c, NO_FAULTS);
    HandleIsApply(w, st, Push(hint, raw), scope, NO_FAULTS);
    if Apply(w, st, hint, raw, scope, NO_FAULTS).1.Recorded? {
      RecordedConverges(w, st, hint, raw, scope, NO_FAULTS);
    }
  }

  // ----------------------------------------------------- what is never applied

  /** A request is let in exactly if the ledger is the authority and the scope is one the instance serves. */
  lemma RefusedExactly(w: World, st: State, request: Request, scope: Scope, fx: Faults)
    ensures Handle(w, st, request, scope, fx).1.Refused? <==>
            || w.bootstrap.infra.authority == LocalFiles
            || (match scope
                case Whole => w.bootstrap.organizations != []
                case Org(id) => forall k :: 0 <= k < |w.bootstrap.organizations| ==> w.bootstrap.organizations[k].id != id)
    ensures Handle(w, st, request, scope, fx).1.Refused? ==> Handle(w, st, request, scope, fx).0 == st
  {
    hide Apply, Resolved, Latest, Previous;
    HandleIsApply(w, st, request, scope, fx);
    if Sends(st, request, scope).Some? {
      NeverRefused(w, st, Sends(st, request, scope).value.hint, Sends(st, request, scope).value.raw, scope, fx);
    }
  }

  lemma NeverRefused(w: World, st: State, hint: Option<Format>, raw: string, scope: Scope, fx: Faults)
    ensures !Apply(w, st, hint, raw, scope, fx).1.Refused?
  {
    hide Resolved, SealAndPrune, Swap, AllInVault, Latest, RejectedBody;
  }

  /**
   A document is rejected for its shape exactly if it does not parse, holds anything but
   application sections, or, for an organization, says nothing.
   */
  lemma DocumentJudged(w: World, st: State, hint: Option<Format>, raw: string, scope: Scope)
    ensures Resolved(w, st, hint, raw, scope).BadDocument? <==>
            match w.parse(hint, raw)
            case None => true
            case Some(c) =>
              || c.infra != DEFAULT_INFRA || c.organizations != [] || c.apprise != ""
              || (scope.Org? && c.desired.sources == [] && c.desired.notifiers == [] && c.desired.teams == []
                  && c.desired.presets == [] && c.desired.defaults == DEFAULTS)
  {
    hide NormalizeDesired, RestoreDesired, Writes, Compose, OrgAuthority, FindOrg;
  }

  /** A pushed document with infrastructure in it is rejected and changes nothing that runs. */
  lemma InfrastructureNotPushed(w: World, st: State, hint: Option<Format>, raw: string, scope: Scope, fx: Faults)
    requires w.parse(hint, raw).Some?
    requires var c := w.parse(hint, raw).value; c.infra != DEFAULT_INFRA || c.organizations != [] || c.apprise != ""
    ensures var (s, o) := Apply(w, st, hint, raw, scope, fx);
            && (s.running, s.live, s.store, s.vault) == (st.running, st.live, st.store, st.vault)
            && (o.DocumentRejected? || o.Failed? || o.NoChange?)
  {
    hide Latest, RejectedBody, Compose;
  }

  /** Over every run the infrastructure that runs is the one of the bootstrap file. */
  lemma {:induction false} RunKeepsInfra(w: World, st: State, events: seq<Event>)
    requires Booted(w) && FromBootstrap(w, st.running)
    ensures FromBootstrap(w, Run(w, st, events).running)
    decreases |events|
  {
    hide Step, FromBootstrap;
    if events != [] {
      var last := |events| - 1;
      RunKeepsInfra(w, st, events[..last]);
      StepKeepsInfra(w, Run(w, st, events[..last]), events[last]);
    }
  }

  predicate FromBootstrap(w: World, c: Config) {
    c.infra == w.bootstrap.infra && c.organizations == w.bootstrap.organizations
  }

  lemma CandidateFromBootstrap(w: World, st: State, hint: Option<Format>, raw: string, scope: Scope)
    requires Booted(w) && Resolved(w, st, hint, raw, scope).Ready?
    ensures FromBootstrap(w, Resolved(w, st, hint, raw, scope).candidate.merged)
  {
    hide NormalizeDesired, RestoreDesired, Writes, OrgAuthority, HasDesiredState, OverlayDesired, ComposeFirst;
  }

  lemma StepKeepsInfra(w: World, st: State, e: Event)
    requires Booted(w) && FromBootstrap(w, st.running)
    ensures FromBootstrap(w, Step(w, st, e).running)
  {
    hide Apply, Handle, Previous, Latest, Builds, Meanings, InstallAppends, ComposeFirst, Resolved, OverlayDesired, HasDesiredState;
    if e.Serve? {
      HandleIsApply(w, st, e.request, e.scope, e.fx);
      var sent := Sends(st, e.request, e.scope);
      if sent.Some? {
        ApplyShape(w, st, sent.value.hint, sent.value.raw, e.scope, e.fx);
        if Resolved(w, st, sent.value.hint, sent.value.raw, e.scope).Ready? {
          CandidateFromBootstrap(w, st, sent.value.hint, sent.value.raw, e.scope);
        }
      }
    }
  }

  // ------------------------------------------------------------------ reloads

  /**
   A reload of several organizations brings a process back to its authorities exactly if
   they compose to an identity other than the published one, and the composition is
   valid and can be built.
   */
  lemma ReloadHealsExactly(w: World, st: State)
    requires w.bootstrap.organizations != [] && !Converged(w, st)
    ensures Converged(w, Reload(w, st, false)) <==>
            var c := Compose(w, st.ledger, None);
            c.Some? && st.published != Some(c.value.identity) && w.valid(c.value.merged, st.vault)
            && Builds(w, c.value.merged, st.vault)
    ensures Converged(w, Reload(w, st, false)) ==>
              && Reload(w, st, false).live == Meanings(w, Reload(w, st, false).running.desired, st.vault)
              && Reload(w, st, false).published == BootIdentity(w, st.ledger)
  {
    hide Compose, Builds, Meanings;
  }

  // -------------------------------------------------------------- environment

  /** The environment's values win over the bootstrap file's in everything that runs. */
  lemma EnvironmentWins(w: World, c: Config)
    requires Booted(w) && FromBootstrap(w, c)
    ensures var o, api := w.overlay, c.infra.api;
            && (o.databaseUrl.Some? ==> c.infra.database.postgresUrl == o.databaseUrl.value)
            && (o.log.Some? ==> c.infra.log == o.log.value)
            && (o.apiKey.Some? ==> api.apiKey == o.apiKey)
            && (o.webhookSecret.Some? ==> api.webhookSecret == o.webhookSecret)
            && (o.sessionSecret.Some? ==> api.sessionSecret == o.sessionSecret)
            && (o.adminPassword.Some? ==> api.adminPassword == o.adminPassword)
  {
  }

  /** The upstream cap the environment sets, unless nothing is configured at all. */
  predicate Capped(w: World, c: Config) {
    w.overlay.upstreamRpm.Some? && c.desired != NOTHING_DESIRED ==>
      c.desired.defaults.upstreamRpm == w.overlay.upstreamRpm.value
  }

  lemma {:induction false} CapsOverlaid(w: World, ledger: seq<Revision>, override: Option<Override>, k: nat)
    requires k <= |w.bootstrap.organizations| && w.overlay.upstreamRpm.Some? && ComposeFirst(w, ledger, override, k).Some?
    ensures |Caps(w, ledger, override, k)| == k
    ensures forall j :: 0 <= j < k ==> Caps(w, ledger, override, k)[j] == w.overlay.upstreamRpm.value
    decreases k
  {
    hide Contribution, HasDesiredState, MergeOne;
    if k > 0 {
      CapsOverlaid(w, ledger, override, k - 1);
    }
  }

  lemma ComposedCapped(w: World, ledger: seq<Revision>, override: Option<Override>)
    requires w.bootstrap.organizations != [] && Compose(w, ledger, override).Some?
    ensures Capped(w, Compose(w, ledger, override).value.merged)
  {
    hide ComposeFirst, Caps;
    if w.overlay.upstreamRpm.Some? {
      var caps := Caps(w, ledger, override, |w.bootstrap.organizations|);
      CapIsStrictest(w, ledger, override);
      CapsOverlaid(w, ledger, override, |w.bootstrap.organizations|);
      assert caps[0] == w.overlay.upstreamRpm.value;
      assert IsStrictest(Compose(w, ledger, override).value.merged.desired.defaults.upstreamRpm, caps);
    }
  }

  lemma CandidateCapped(w: World, st: State, hint: Option<Format>, raw: string, scope: Scope)
    requires Accepts(w, scope) && Resolved(w, st, hint, raw, scope).Ready?
    ensures Capped(w, Resolved(w, st, hint, raw, scope).candidate.merged)
  {
    hide NormalizeSources, NormalizeNotifiers, RestoreSources, RestoreNotifiers, Writes, OrgAuthority, HasDesiredState;
    hide Compose;
    match scope
    case Whole =>
    case Org(id) =>
      CataloguedNonEmpty(w, id);
      ComposedCapped(w, st.ledger, Some(Override(id, Resolved(w, st, hint, raw, scope).candidate.body)));
  }

  lemma StartCapped(w: World, ledger: seq<Revision>)
    requires Resolve(w, ledger).Some?
    ensures Capped(w, Resolve(w, ledger).value)
  {
    hide Compose, Latest, HasDesiredState;
    if w.bootstrap.organizations != [] {
      ComposedCapped(w, ledger, None);
    }
  }

  lemma StepCapped(w: World, st: State, e: Event)
    requires Capped(w, st.running)
    ensures Capped(w, Step(w, st, e).running)
  {
    hide Apply, Handle, Previous, Builds, Meanings, InstallAppends, Resolved, Compose, Latest, Resolve, BootIdentity;
    match e
    case Serve(request, scope, fx) =>
      HandleIsApply(w, st, request, scope, fx);
      var sent := Sends(st, request, scope);
      if Accepts(w, scope) && sent.Some? {
        ApplyShape(w, st, sent.value.hint, sent.value.raw, scope, fx);
        if Resolved(w, st, sent.value.hint, sent.value.raw, scope).Ready? {
          CandidateCapped(w, st, sent.value.hint, sent.value.raw, scope);
        }
      }
    case ReloadFiles(swapFails) =>
      if w.bootstrap.organizations != [] && Compose(w, st.ledger, None).Some? {
        ComposedCapped(w, st.ledger, None);
      }
    case Restart =>
      if Resolve(w, st.ledger).Some? {
        StartCapped(w, st.ledger);
      }
  }

  /** Over every run, whatever is pushed, the upstream cap is the environment's if it sets one. */
  lemma {:induction false} RunCapped(w: World, st: State, events: seq<Event>)
    requires Capped(w, st.running)
    ensures Capped(w, Run(w, st, events).running)
    decreases |events|
  {
    hide Step, Capped;
    if events != [] {
      var last := |events| - 1;
      RunCapped(w, st, events[..last]);
      StepCapped(w, Run(w, st, events[..last]), events[last]);
    }
  }

  // ------------------------------------------------------------------ outcomes

  /** How a fault-free apply ends, in every case. */
  lemma OutcomeExactly(w: World, st: State, hint: Option<Format>, raw: string, scope: Scope)
    ensures var latest := Latest(st.ledger, Stream(scope));
            Apply(w, st, hint, raw, scope, NO_FAULTS).1 ==
            if latest.Some? && latest.value.sha == w.sha(raw) then NoChange(w.sha(raw))
            else match Resolved(w, st, hint, raw, scope)
              case ServerFault => Failed
              case BadDocument => DocumentRejected
              case Ready(c) =>
                var same := latest.Some? && latest.value.sha == c.sha;
                if same && (forall i :: 0 <= i < |c.writes| ==> VaultGet(st.vault, c.writes[i].name) == Some(c.writes[i].value))
                then NoChange(c.sha)
                else if !w.valid(c.merged, st.vault) then ValidationRejected
                else if same then Rotated(c.sha)
                else if Builds(w, c.merged, VaultAfter(w, st, scope, c)) then Recorded(c.sha)
                else Failed
  {
    hide Resolved, Latest, SealAndPrune, Builds, Meanings, RejectedBody, VaultGet;
    match Resolved(w, st, hint, raw, scope)
    case Ready(c) => AlwaysSealed(w, st, scope, c, NO_FAULTS);
    case _ =>
  }

  /** A rejection is always recorded, in the scope's stream, and nothing else happens. */
  lemma RejectionRecorded(w: World, st: State, hint: Option<Format>, raw: string, scope: Scope, fx: Faults)
    requires var o := Apply(w, st, hint, raw, scope, fx).1; o.DocumentRejected? || o.ValidationRejected?
    ensures var s := Apply(w, st, hint, raw, scope, fx).0;
            s == st.(ledger := s.ledger) && RejectionAdded(w, st.ledger, s.ledger, Stream(scope))
  {
    hide Resolved, Latest, SealAndPrune, Swap, RejectedBody, AllInVault;
  }
}
