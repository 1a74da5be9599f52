/**
 What holds over every run of the apply engine: convergence to what a restart
 would run, an append-only ledger without repeats, atomic failures, and no lost
 secret rotation.
 */
module ApplyRuns {
  import opened Text
  import opened Settings
  import opened Restoration
  import opened SecretRefs
  import opened SecretMeaning
  import opened RoundTrip
  import opened Composition
  import opened Runtime
  import opened ApplyEngine

  // -------------------------------------------------------------------- runs

  datatype Event =
    | Serve(request: Request, scope: Scope, fx: Faults)
    | ReloadFiles(swapFails: bool)
    | Restart

  /** A process that is down answers nothing until it is started again. */
  function Step(w: World, st: State, e: Event): State {
    match e
    case Serve(request, scope, fx) => if st.up then Handle(w, st, request, scope, fx).0 else st
    case ReloadFiles(swapFails) => if st.up then Reload(w, st, swapFails) else st
    case Restart => match Boot(w, st.ledger, st.store) case Some(started) => started case None => st.(up := false)
  }

  function Run(w: World, st: State, events: seq<Event>): State {
    if events == [] then st
    else Step(w, Run(w, st, events[..|events| - 1]), events[|events| - 1])
  }

  // ------------------------------------------------- how far an apply gets

  /** A candidate with a new body is sealed and swapped in, and the append is tried. */
  predicate InstallAppends(w: World, st: State, scope: Scope, c: Candidate, fx: Faults) {
    var (sealed, ok) := SealAndPrune(w, st, scope, c, fx);
    w.valid(c.merged, st.vault) && ok && !fx.swapFails && Builds(w, c.merged, sealed.vault)
  }

  predicate Appends(w: World, st: State, hint: Option<Format>, raw: string, scope: Scope, fx: Faults) {
    var current := Latest(st.ledger, Stream(scope));
    && !fx.ledgerUnreadable && !fx.candidateFault
    && (current.Some? ==> current.value.sha != w.sha(raw))
    && Resolved(w, st, hint, raw, scope).Ready?
    && var c := Resolved(w, st, hint, raw, scope).candidate;
       (current.Some? ==> current.value.sha != c.sha) && InstallAppends(w, st, scope, c, fx)
  }

  /** The old configuration cannot be brought back once the secrets are sealed and pruned. */
  predicate NoWayBack(w: World, st: State, scope: Scope, c: Candidate, fx: Faults) {
    fx.restoreFails || !Builds(w, st.running, SealAndPrune(w, st, scope, c, fx).0.vault)
  }

  /** The append failed and the old configuration did not come back: the candidate stays, unrecorded. */
  predicate Stranded(w: World, st: State, hint: Option<Format>, raw: string, scope: Scope, fx: Faults) {
    && Appends(w, st, hint, raw, scope, fx) && fx.appendFails
    && NoWayBack(w, st, scope, Resolved(w, st, hint, raw, scope).candidate, fx)
  }

  datatype Pushed = Pushed(hint: Option<Format>, raw: string)

  /** The document a request applies: a rollback sends the row before the latest. */
  function Sends(st: State, request: Request, scope: Scope): Option<Pushed> {
    match request
    case Push(hint, raw) => Some(Pushed(hint, raw))
    case Undo =>
      match Previous(st.ledger, Stream(scope)) case None => None case Some(row) => Some(Pushed(None, row.content))
  }

  predicate RequestAppends(w: World, st: State, request: Request, scope: Scope, fx: Faults) {
    var sent := Sends(st, request, scope);
    Accepts(w, scope) && sent.Some? && Appends(w, st, sent.value.hint, sent.value.raw, scope, fx)
  }

  predicate RequestStranded(w: World, st: State, request: Request, scope: Scope, fx: Faults) {
    var sent := Sends(st, request, scope);
    Accepts(w, scope) && sent.Some? && Stranded(w, st, sent.value.hint, sent.value.raw, scope, fx)
  }

  /** A request is an apply of the document it sends, if it sends one and is let in. */
  lemma HandleIsApply(w: World, st: State, request: Request, scope: Scope, fx: Faults)
    ensures var sent := Sends(st, request, scope);
            Handle(w, st, request, scope, fx) ==
            if !Accepts(w, scope) then (st, Refused)
            else if sent.None? then (st, if fx.ledgerUnreadable then Failed else NothingToRollBackTo)
            else
              var (s, o) := Apply(w, st, sent.value.hint, sent.value.raw, scope, fx);
              (Publish(s, scope, o, fx.refreshFails), o)
  {
    hide Previous, Resolved, Latest, Rotate, Install, Reject;
  }

  /** No request of the run strands the process ahead of its ledger. */
  predicate Compensated(w: World, st: State, events: seq<Event>) {
    if events == [] then true
    else
      var last := |events| - 1;
      && Compensated(w, st, events[..last])
      && (events[last].Serve? && Run(w, st, events[..last]).up ==>
            !RequestStranded(w, Run(w, st, events[..last]), events[last].request, events[last].scope, events[last].fx))
  }

  // ------------------------------------------------------------ what is kept

  /** A row's digest is that of its content, and an applied row holds no inline secret. */
  ghost predicate RowSound(w: World, row: Revision) {
    && row.sha == w.sha(row.content)
    && (row.status == Applied ==>
          && SealedDesired(RowDesired(w, row))
          && forall hint :: w.parse(hint, row.content) == Some(DesiredOnly(RowDesired(w, row))))
  }

  /** The document an applied row stands for. */
  function RowDesired(w: World, row: Revision): Desired {
    match w.parse(None, row.content)
    case Some(c) => c.desired
    case None => NOTHING_DESIRED
  }

  ghost predicate LedgerSound(w: World, ledger: seq<Revision>) {
    forall i :: 0 <= i < |ledger| ==> RowSound(w, ledger[i])
  }

  /** Neighbouring applied rows of a stream have different content. */
  predicate NeighboursDiffer(rows: seq<Revision>) {
    forall i :: 0 < i < |rows| ==> rows[i - 1].content != rows[i].content
  }

  ghost predicate NoTwins(ledger: seq<Revision>) {
    forall stream :: NeighboursDiffer(AppliedRows(ledger, stream))
  }

  /** The process runs the configuration it would run if it were started now. */
  predicate Converged(w: World, st: State) {
    Resolve(w, st.ledger) == Some(st.running)
  }

  /**
   The published identity is the one a restart would publish; after an
   organization's apply nothing is published until the next reload.  Reads take the
   ledger for the source only if it has a row.
   */
  predicate PublishesIdentity(w: World, st: State) {
    && (st.published == BootIdentity(w, st.ledger) || (w.bootstrap.organizations != [] && st.published == None))
    && (st.showsLedger ==> Latest(st.ledger, None).Some?)
  }

  ghost predicate Inv(w: World, st: State) {
    LedgerSound(w, st.ledger) && NoTwins(st.ledger) && Converged(w, st) && PublishesIdentity(w, st)
  }

  // ------------------------------------------------------- shape of an apply

  ghost predicate RejectionAdded(w: World, before: seq<Revision>, after: seq<Revision>, stream: Option<string>) {
    exists body :: after == before + [Revision(stream, body, w.sha(body), Rejected)]
  }

  /** An apply that recorded the candidate, and what it then runs. */
  predicate RecordedShape(w: World, st: State, scope: Scope, c: Candidate, s: State, o: Outcome) {
    && o == Recorded(c.sha) && s.running == c.merged && w.valid(c.merged, st.vault)
    && s.ledger == st.ledger + [Revision(Stream(scope), c.body, w.sha(c.body), Applied)]
    && (Latest(st.ledger, Stream(scope)).Some? ==> Latest(st.ledger, Stream(scope)).value.sha != c.sha)
  }

  /** An apply that did not record anything as applied. */
  ghost predicate UnrecordedShape(w: World, st: State, scope: Scope, s: State, o: Outcome) {
    && !o.Recorded?
    && (s.ledger != st.ledger ==>
          (o.DocumentRejected? || o.ValidationRejected?) && RejectionAdded(w, st.ledger, s.ledger, Stream(scope)))
    && (o.NoChange? || o.Rotated? ==>
          Latest(st.ledger, Stream(scope)).Some? && o.sha == Latest(st.ledger, Stream(scope)).value.sha)
  }

  /** What runs after an apply that reached the append or did not. */
  predicate RuntimeAfter(w: World, st: State, c: Candidate, appends: bool, back: bool, fx: Faults, s: State, o: Outcome) {
    && (o.Recorded? <==> appends && !fx.appendFails)
    && (appends && fx.appendFails ==> o.Failed?)
    && (appends ==> Builds(w, c.merged, s.vault))
    && s.running == (if appends && !(fx.appendFails && back) then c.merged else st.running)
    && s.live == (if appends then Meanings(w, s.running.desired, s.vault) else st.live)
  }

  /** What publishing alone decides, and whether the process is up. */
  predicate SameFace(s: State, st: State) {
    s.published == st.published && s.showsLedger == st.showsLedger && s.up == st.up
  }

  lemma SecretsOnly(w: World, st: State, scope: Scope, c: Candidate, fx: Faults)
    ensures var (s, ok) := SealAndPrune(w, st, scope, c, fx);
            s == st.(store := s.store, vault := s.vault)
  {
    hide LoadWrites, CollectRefs, PreviousRefs, StaleSecrets;
  }

  lemma RejectShape(w: World, st: State, scope: Scope, body: string, outcome: Outcome, fx: Faults)
    requires outcome.DocumentRejected? || outcome.ValidationRejected?
    ensures var (s, o) := Reject(w, st, scope, body, outcome, fx);
            && UnrecordedShape(w, st, scope, s, o) && SameFace(s, st) && s.running == st.running && s.live == st.live
  {
    hide Latest;
  }

  lemma InstallShape(w: World, st: State, scope: Scope, c: Candidate, fx: Faults)
    requires Latest(st.ledger, Stream(scope)).Some? ==> Latest(st.ledger, Stream(scope)).value.sha != c.sha
    ensures var (s, o) := Install(w, st, scope, c, fx);
            && SameFace(s, st)
            && RuntimeAfter(w, st, c, InstallAppends(w, st, scope, c, fx), !NoWayBack(w, st, scope, c, fx), fx, s, o)
            && if o.Recorded? then RecordedShape(w, st, scope, c, s, o) else UnrecordedShape(w, st, scope, s, o)
  {
    hide Latest, SealAndPrune, Builds, Meanings, Swap;
    SecretsOnly(w, st, scope, c, fx);
    if !w.valid(c.merged, st.vault) {
      RejectShape(w, st, scope, c.body, ValidationRejected, fx);
    } else {
      var s := SealAndPrune(w, st, scope, c, fx).0;
      SwapKeeps(w, s, c.merged, fx.swapFails);
      SwapKeeps(w, Swap(w, s, c.merged, fx.swapFails).0, st.running, fx.restoreFails);
    }
  }

  lemma RotateShape(w: World, st: State, scope: Scope, c: Candidate, fx: Faults)
    requires Latest(st.ledger, Stream(scope)).Some? && Latest(st.ledger, Stream(scope)).value.sha == c.sha
    ensures var (s, o) := Rotate(w, st, scope, c, fx);
            UnrecordedShape(w, st, scope, s, o) && SameFace(s, st) && s.running == st.running && s.live == st.live
  {
    hide Latest, SealAndPrune, AllInVault;
    SecretsOnly(w, st, scope, c, fx);
    if !w.valid(c.merged, st.vault) {
      RejectShape(w, st, scope, c.body, ValidationRejected, fx);
    }
  }

  /**
   Everything an apply can do to the ledger and the runtime: what is recorded, which
   configuration runs, and from which vault its watches and sinks were built.
   */
  lemma ApplyShape(w: World, st: State, hint: Option<Format>, raw: string, scope: Scope, fx: Faults)
    ensures var (s, o) := Apply(w, st, hint, raw, scope, fx);
            && SameFace(s, st)
            && (Appends(w, st, hint, raw, scope, fx) ==>
                  RuntimeAfter(w, st, Resolved(w, st, hint, raw, scope).candidate, true,
                               !Stranded(w, st, hint, raw, scope, fx), fx, s, o))
            && (!Appends(w, st, hint, raw, scope, fx) ==> !o.Recorded? && s.running == st.running && s.live == st.live)
            && if o.Recorded?
               then Resolved(w, st, hint, raw, scope).Ready?
                    && RecordedShape(w, st, scope, Resolved(w, st, hint, raw, scope).candidate, s, o)
               else UnrecordedShape(w, st, scope, s, o)
  {
    hide Resolved, RejectedBody, Install, Rotate, Reject, RecordedShape, InstallAppends, NoWayBack, Meanings;
    match Resolved(w, st, hint, raw, scope)
    case ServerFault =>
    case BadDocument => RejectShape(w, st, scope, RejectedBody(w, raw, Stream(scope)), DocumentRejected, fx);
    case Ready(c) =>
      var current := Latest(st.ledger, Stream(scope));
      if current.Some? && current.value.sha == c.sha {
        RotateShape(w, st, scope, c, fx);
      } else {
        InstallShape(w, st, scope, c, fx);
      }
  }

  /** Store and vault are as before, or as sealing and pruning left them. */
  predicate SecretsFrom(s: State, st: State, sealed: State) {
    (s.store, s.vault) == (st.store, st.vault) || (s.store, s.vault) == (sealed.store, sealed.vault)
  }

  /** The ledger is as before, or has one more row with that text. */
  predicate Adds(s: State, st: State, text: string) {
    s.ledger == st.ledger || (|s.ledger| == |st.ledger| + 1 && s.ledger == st.ledger + [s.ledger[|st.ledger|]]
                              && s.ledger[|st.ledger|].content == text)
  }

  lemma RotateEffects(w: World, st: State, scope: Scope, c: Candidate, fx: Faults)
    ensures var s := Rotate(w, st, scope, c, fx).0;
            SecretsFrom(s, st, SealAndPrune(w, st, scope, c, fx).0) && Adds(s, st, c.body)
  {
    hide SealAndPrune, AllInVault;
    SecretsOnly(w, st, scope, c, fx);
  }

  lemma InstallEffects(w: World, st: State, scope: Scope, c: Candidate, fx: Faults)
    ensures var s := Install(w, st, scope, c, fx).0;
            SecretsFrom(s, st, SealAndPrune(w, st, scope, c, fx).0) && Adds(s, st, c.body)
  {
    hide SealAndPrune, Builds, Meanings, Swap;
    SecretsOnly(w, st, scope, c, fx);
    var s := SealAndPrune(w, st, scope, c, fx).0;
    SwapKeeps(w, s, c.merged, fx.swapFails);
    SwapKeeps(w, Swap(w, s, c.merged, fx.swapFails).0, st.running, fx.restoreFails);
  }

  /** What any apply does to the secrets and what text it may add to the ledger. */
  lemma ApplyEffects(w: World, st: State, hint: Option<Format>, raw: string, scope: Scope, fx: Faults)
    ensures var s := Apply(w, st, hint, raw, scope, fx).0;
            match Resolved(w, st, hint, raw, scope)
            case Ready(c) => SecretsFrom(s, st, SealAndPrune(w, st, scope, c, fx).0) && Adds(s, st, c.body)
            case _ => (s.store, s.vault) == (st.store, st.vault) && Adds(s, st, RejectedBody(w, raw, Stream(scope)))
  {
    hide Resolved, RejectedBody, Install, Rotate, SealAndPrune, Latest;
    match Resolved(w, st, hint, raw, scope)
    case Ready(c) =>
      RotateEffects(w, st, scope, c, fx);
      InstallEffects(w, st, scope, c, fx);
    case _ =>
  }

  /** The ledger is append-only: a request adds at most one row and changes none. */
  lemma LedgerAppendOnly(w: World, st: State, e: Event)
    ensures var s := Step(w, st, e);
            s.ledger == st.ledger || exists row :: s.ledger == st.ledger + [row]
  {
    hide Apply, Handle, Compose, MergePushed, Resolve, Builds, Meanings, Latest, Appends;
    if e.Serve? {
      HandleIsApply(w, st, e.request, e.scope, e.fx);
      var sent := Sends(st, e.request, e.scope);
      if sent.Some? {
        ApplyShape(w, st, sent.value.hint, sent.value.raw, e.scope, e.fx);
      }
    }
  }

  // ----------------------------------------------------------- the candidate

  /** Restoring, overlaying and normalising leave the presets alone, so a candidate can be printed. */
  lemma CandidateCanonical(w: World, st: State, hint: Option<Format>, raw: string, scope: Scope)
    requires ParsesPrinted(w) && Resolved(w, st, hint, raw, scope).Ready?
    ensures Canonical(Resolved(w, st, hint, raw, scope).candidate.desired)
  {
    hide NormalizeSources, NormalizeNotifiers, RestoreSources, RestoreNotifiers, Writes, Compose, OrgAuthority;
    hide HasDesiredState;
  }

  /** A candidate's body is its printed document, which holds no inline secret. */
  lemma CandidateSealed(w: World, st: State, hint: Option<Format>, raw: string, scope: Scope)
    requires ParsesPrinted(w) && Resolved(w, st, hint, raw, scope).Ready?
    ensures var c := Resolved(w, st, hint, raw, scope).candidate;
            && c.sha == w.sha(c.body)
            && (forall hint' :: w.parse(hint', c.body) == Some(DesiredOnly(c.desired)))
            && SealedDesired(c.desired)
  {
    CandidateCanonical(w, st, hint, raw, scope);
    hide NormalizeDesired, RestoreDesired, SealedDesired, Writes, Compose, MergePushed, OrgAuthority, HasDesiredState;
    hide Canonical;
    match scope {
      case Whole =>
        var pushed := MergePushed(w, hint, raw).value;
        NormalizedSealed(RestoreDesired(st.running.desired, pushed.desired), None);
      case Org(id) =>
        var c := w.parse(hint, raw).value;
        var authority := OrgAuthority(w, st.ledger, FindOrg(w.bootstrap.organizations, id).value).value;
        NormalizedSealed(OrgRestored(w, authority.raw, c.desired), Some(id));
    }
  }

  lemma RowSoundFor(w: World, st: State, hint: Option<Format>, raw: string, scope: Scope)
    requires ParsesPrinted(w) && Resolved(w, st, hint, raw, scope).Ready?
    ensures var c := Resolved(w, st, hint, raw, scope).candidate;
            RowSound(w, Revision(Stream(scope), c.body, w.sha(c.body), Applied))
  {
    hide Resolved, SealedDesired;
    CandidateSealed(w, st, hint, raw, scope);
  }

  /** Restoring and normalising touch secrets only. */
  lemma CandidateKeepsDefaults(w: World, st: State, pushed: Config)
    ensures NormalizeDesired(RestoreDesired(st.running.desired, pushed.desired), None).defaults == pushed.desired.defaults
  {
  }

  /** What a whole-document apply swaps in is what its ledger row boots into. */
  lemma WholeCandidateBoots(w: World, st: State, hint: Option<Format>, raw: string)
    requires ParsesPrinted(w) && Booted(w) && WholeCandidate(w, st, hint, raw).Ready?
    ensures var c := WholeCandidate(w, st, hint, raw).candidate;
            BootDocument(w, None, c.body) == Some(c.merged) && OverlayDesired(w.overlay, c.desired) == c.desired
  {
    var pushed := MergePushed(w, hint, raw).value;
    var c := WholeCandidate(w, st, hint, raw).candidate;
    CandidateSealed(w, st, hint, raw, Whole);
    CandidateKeepsDefaults(w, st, pushed);
    hide NormalizeDesired, RestoreDesired, Writes, WholeCandidate;
    assert w.parse(None, c.body) == Some(DesiredOnly(c.desired));
    assert c.merged == pushed.(desired := c.desired) by { WholeMerged(w, st, hint, raw); }
    assert c.desired.defaults == pushed.desired.defaults by { WholeMerged(w, st, hint, raw); }
  }

  lemma WholeMerged(w: World, st: State, hint: Option<Format>, raw: string)
    requires WholeCandidate(w, st, hint, raw).Ready?
    ensures var c := WholeCandidate(w, st, hint, raw).candidate;
            var pushed := MergePushed(w, hint, raw).value;
            c.merged == pushed.(desired := c.desired) && c.desired.defaults == pushed.desired.defaults
  {
    hide MergePushed;
    CandidateKeepsDefaults(w, st, MergePushed(w, hint, raw).value);
  }

  // --------------------------------------------------------- preservation

  lemma AppendKeepsLedger(w: World, ledger: seq<Revision>, row: Revision)
    requires LedgerSound(w, ledger) && NoTwins(ledger) && RowSound(w, row)
    requires row.status == Applied && Latest(ledger, row.stream).Some? ==> Latest(ledger, row.stream).value.sha != row.sha
    ensures LedgerSound(w, ledger + [row]) && NoTwins(ledger + [row])
  {
    hide RowSound, NeighboursDiffer, AppliedRows, Latest;
    forall stream ensures NeighboursDiffer(AppliedRows(ledger + [row], stream)) {
      assert NeighboursDiffer(AppliedRows(ledger, stream));
      AppendKeepsNeighbours(w, ledger, row, stream);
    }
  }

  lemma AppendKeepsNeighbours(w: World, ledger: seq<Revision>, row: Revision, stream: Option<string>)
    requires LedgerSound(w, ledger) && NeighboursDiffer(AppliedRows(ledger, stream)) && RowSound(w, row)
    requires row.status == Applied && Latest(ledger, row.stream).Some? ==> Latest(ledger, row.stream).value.sha != row.sha
    ensures NeighboursDiffer(AppliedRows(ledger + [row], stream))
  {
    hide RowSound, LedgerSound, AppliedRows;
    AppliedAfterAppend(ledger, row, stream);
    var rows := AppliedRows(ledger, stream);
    if row.stream == stream && row.status == Applied && rows != [] {
      RowDigest(w, ledger, rows[|rows| - 1]);
      DigestOf(w, row);
    }
  }

  lemma DigestOf(w: World, row: Revision)
    requires RowSound(w, row)
    ensures row.sha == w.sha(row.content)
  {
  }

  lemma RowDigest(w: World, ledger: seq<Revision>, row: Revision)
    requires LedgerSound(w, ledger) && row in ledger
    ensures row.sha == w.sha(row.content)
  {
  }

  lemma AppliedRowSound(w: World, ledger: seq<Revision>, stream: Option<string>)
    requires LedgerSound(w, ledger) && Latest(ledger, stream).Some?
    ensures RowSound(w, Latest(ledger, stream).value) && Latest(ledger, stream).value.status == Applied
    ensures Latest(ledger, stream).value.stream == stream
  {
    hide RowSound;
  }

  lemma RejectedRowSound(w: World, stream: Option<string>, body: string)
    ensures RowSound(w, Revision(stream, body, w.sha(body), Rejected))
  {
  }

  /** Rejected rows change nothing a boot reads. */
  lemma RejectedRowUnread(w: World, ledger: seq<Revision>, row: Revision)
    requires row.status == Rejected
    ensures Resolve(w, ledger + [row]) == Resolve(w, ledger) && BootIdentity(w, ledger + [row]) == BootIdentity(w, ledger)
    ensures Latest(ledger + [row], None) == Latest(ledger, None)
  {
    hide Compose, BootDocument, HasDesiredState, AppliedRows;
    ComposeIgnoresRow(w, ledger, row);
    AppliedAfterAppend(ledger, row, None);
  }

  /** After a recorded apply the process runs what it would boot into. */
  lemma RecordedConverges(w: World, st: State, hint: Option<Format>, raw: string, scope: Scope, fx: Faults)
    requires ParsesPrinted(w) && Booted(w) && Accepts(w, scope)
    requires Apply(w, st, hint, raw, scope, fx).1.Recorded?
    ensures Converged(w, Apply(w, st, hint, raw, scope, fx).0)
  {
    hide Apply, Latest, Compose, BootDocument, HasDesiredState, MergePushed, RestoreDesired, NormalizeDesired;
    ApplyShape(w, st, hint, raw, scope, fx);
    var s := Apply(w, st, hint, raw, scope, fx).0;
    var c := Resolved(w, st, hint, raw, scope).candidate;
    match scope {
      case Whole =>
        WholeCandidateBoots(w, st, hint, raw);
        LatestAfterAppend(st.ledger, Revision(None, c.body, w.sha(c.body), Applied));
      case Org(id) =>
        OverrideIsNextAuthority(w, st.ledger, id, c.body);
        CataloguedNonEmpty(w, id);
    }
  }

  lemma CataloguedNonEmpty(w: World, id: string)
    requires Catalogued(w, id)
    ensures w.bootstrap.organizations != []
  {
  }

  lemma LatestAfterAppend(ledger: seq<Revision>, row: Revision)
    requires row.status == Applied
    ensures Latest(ledger + [row], row.stream) == Some(row)
  {
    AppliedAfterAppend(ledger, row, row.stream);
  }

  /** One served apply keeps every invariant, unless it strands the process. */
  lemma ApplyKeepsInv(w: World, st: State, hint: Option<Format>, raw: string, scope: Scope, fx: Faults)
    requires Lawful(w) && Accepts(w, scope) && Inv(w, st) && !Stranded(w, st, hint, raw, scope, fx)
    ensures var (s, o) := Apply(w, st, hint, raw, scope, fx); Inv(w, Publish(s, scope, o, fx.refreshFails))
  {
    hide Apply, Resolved, Resolve, Latest, LedgerSound, NoTwins, RowSound, BootIdentity, Stranded, Appends, Meanings;
    ApplyShape(w, st, hint, raw, scope, fx);
    var (s, o) := Apply(w, st, hint, raw, scope, fx);
    if o.Recorded? {
      var c := Resolved(w, st, hint, raw, scope).candidate;
      var row := Revision(Stream(scope), c.body, w.sha(c.body), Applied);
      CandidateSealed(w, st, hint, raw, scope);
      RowSoundFor(w, st, hint, raw, scope);
      AppendKeepsLedger(w, st.ledger, row);
      RecordedConverges(w, st, hint, raw, scope, fx);
      LatestAfterAppend(st.ledger, row);
      AppendKeepsLatest(st.ledger, row);
    } else if s.ledger != st.ledger {
      var body :| s.ledger == st.ledger + [Revision(Stream(scope), body, w.sha(body), Rejected)];
      var row := Revision(Stream(scope), body, w.sha(body), Rejected);
      RejectedRowSound(w, Stream(scope), body);
      AppendKeepsLedger(w, st.ledger, row);
      RejectedRowUnread(w, st.ledger, row);
    }
    if o.Recorded? || o.Rotated? {
      LatestPublished(w, s, scope, o, fx.refreshFails);
    }
  }

  lemma AppendKeepsLatest(ledger: seq<Revision>, row: Revision)
    ensures Latest(ledger, None).Some? ==> Latest(ledger + [row], None).Some?
  {
    AppliedAfterAppend(ledger, row, None);
  }

  /** Publishing the latest row's digest publishes what a restart would. */
  lemma LatestPublished(w: World, s: State, scope: Scope, o: Outcome, refreshFails: bool)
    requires Accepts(w, scope) && (o.Recorded? || o.Rotated?) && (s.showsLedger ==> Latest(s.ledger, None).Some?)
    requires Latest(s.ledger, Stream(scope)).Some? && o.sha == Latest(s.ledger, Stream(scope)).value.sha
    ensures PublishesIdentity(w, Publish(s, scope, o, refreshFails))
  {
    hide Latest, Compose;
    if scope.Org? {
      CataloguedNonEmpty(w, scope.id);
    }
  }

  lemma HandleKeepsInv(w: World, st: State, request: Request, scope: Scope, fx: Faults)
    requires Lawful(w) && Inv(w, st) && !RequestStranded(w, st, request, scope, fx)
    ensures Inv(w, Handle(w, st, request, scope, fx).0)
  {
    hide Apply, Inv, Previous, Stranded, Handle, Publish;
    HandleIsApply(w, st, request, scope, fx);
    var sent := Sends(st, request, scope);
    if Accepts(w, scope) && sent.Some? {
      ApplyKeepsInv(w, st, sent.value.hint, sent.value.raw, scope, fx);
    }
  }

  /** A reload never leaves the configuration a restart would give. */
  lemma ReloadConverged(w: World, st: State, swapFails: bool)
    requires Booted(w) && Converged(w, st)
    ensures Converged(w, Reload(w, st, swapFails)) && Reload(w, st, swapFails).ledger == st.ledger
  {
    hide Compose, Latest, OverlayConfig, MergeBootstrap, Builds, Meanings;
    if w.bootstrap.organizations == [] && w.appFile.Present? {
      var booted := BootDocument(w, w.appFile.format, w.appFile.text);
      PushedIsBooted(w, w.appFile.format, w.appFile.text);
      if booted.Some? && !HasDesiredState(booted.value.desired) {
        IdleIsBooted(w, w.appFile.format, w.appFile.text);
      }
    }
  }

  /** A document without application sections boots into the idle configuration. */
  lemma IdleIsBooted(w: World, hint: Option<Format>, raw: string)
    requires BootDocument(w, hint, raw).Some? && !HasDesiredState(BootDocument(w, hint, raw).value.desired)
    ensures BootDocument(w, hint, raw) == Some(MergeBootstrap(w.bootstrap, DesiredOnly(NOTHING_DESIRED)))
  {
  }

  lemma StepKeepsInv(w: World, st: State, e: Event)
    requires Lawful(w) && Inv(w, st)
    requires e.Serve? && st.up ==> !RequestStranded(w, st, e.request, e.scope, e.fx)
    ensures Inv(w, Step(w, st, e))
  {
    hide RequestStranded, Handle, Builds, Meanings;
    match e
    case Serve(request, scope, fx) =>
      hide Inv;
      if st.up {
        HandleKeepsInv(w, st, request, scope, fx);
      }
    case ReloadFiles(swapFails) =>
      ReloadConverged(w, st, swapFails);
      hide Compose, Latest, MergePushed, Resolve, NoTwins, LedgerSound;
    case Restart =>
      hide Compose, Latest, MergePushed, NoTwins, LedgerSound, BootDocument;
  }

  /**
   Over every run of applies, rollbacks, rejections, failed and compensated
   applies, reloads and restarts: the process runs the configuration a restart
   would run, the ledger keeps its digests and never repeats a row, and the
   published identity is the one a restart would publish.
   */
  lemma {:induction false} RunKeepsInv(w: World, st: State, events: seq<Event>)
    requires Lawful(w) && Inv(w, st) && Compensated(w, st, events)
    ensures Inv(w, Run(w, st, events))
    decreases |events|
  {
    hide Inv, Step, RequestStranded;
    if events != [] {
      var last := |events| - 1;
      RunKeepsInv(w, st, events[..last]);
      StepKeepsInv(w, Run(w, st, events[..last]), events[last]);
    }
  }

  /** A process that starts on a sound ledger starts within the invariant, with its vault equal to the store. */
  lemma BootEstablishesInv(w: World, ledger: seq<Revision>, store: map<string, string>)
    requires LedgerSound(w, ledger) && NoTwins(ledger) && Boot(w, ledger, store).Some?
    ensures Inv(w, Boot(w, ledger, store).value)
    ensures var st := Boot(w, ledger, store).value;
            st.up && st.vault == st.store && st.live == Meanings(w, st.running.desired, st.vault)
  {
    hide Compose, BootDocument, LedgerSound, NoTwins, Latest, Builds, Meanings;
  }

  // ------------------------------------------- rows of this environment

  /** Every whole-document row already carries what the environment sets. */
  predicate RowsFixed(w: World, ledger: seq<Revision>) {
    forall i :: 0 <= i < |ledger| && ledger[i].stream == None && ledger[i].status == Applied ==>
      OverlayDesired(w.overlay, RowDesired(w, ledger[i])) == RowDesired(w, ledger[i])
  }

  lemma ApplyKeepsRowsFixed(w: World, st: State, hint: Option<Format>, raw: string, scope: Scope, fx: Faults)
    requires ParsesPrinted(w) && Booted(w) && RowsFixed(w, st.ledger)
    ensures RowsFixed(w, Apply(w, st, hint, raw, scope, fx).0.ledger)
  {
    hide Apply, OverlayDesired, Latest, NormalizeDesired, RestoreDesired, Writes, Compose, MergePushed, SealedDesired;
    hide OrgAuthority;
    ApplyShape(w, st, hint, raw, scope, fx);
    if Apply(w, st, hint, raw, scope, fx).1.Recorded? && scope == Whole {
      WholeCandidateBoots(w, st, hint, raw);
      CandidateSealed(w, st, hint, raw, Whole);
    }
  }

  lemma StepKeepsRowsFixed(w: World, st: State, e: Event)
    requires ParsesPrinted(w) && Booted(w) && RowsFixed(w, st.ledger)
    ensures RowsFixed(w, Step(w, st, e).ledger)
  {
    hide Apply, Previous, Latest, Handle, Compose, MergePushed, Resolve, RowsFixed, Builds, Meanings;
    if e.Serve? {
      HandleIsApply(w, st, e.request, e.scope, e.fx);
      var sent := Sends(st, e.request, e.scope);
      if sent.Some? {
        ApplyKeepsRowsFixed(w, st, sent.value.hint, sent.value.raw, e.scope, e.fx);
      }
    }
  }

  /** Whatever happens, rows recorded under one environment are left alone by it. */
  lemma {:induction false} RunKeepsRowsFixed(w: World, st: State, events: seq<Event>)
    requires ParsesPrinted(w) && Booted(w) && RowsFixed(w, st.ledger)
    ensures RowsFixed(w, Run(w, st, events).ledger)
    decreases |events|
  {
    hide Step, RowsFixed;
    if events != [] {
      var last := |events| - 1;
      RunKeepsRowsFixed(w, st, events[..last]);
      StepKeepsRowsFixed(w, Run(w, st, events[..last]), events[last]);
    }
  }

  /** An instance that takes its state from the ledger starts idle on an empty one, within the invariant. */
  lemma FreshStart(w: World, store: map<string, string>)
    requires LedgerBootable(w) && w.bootstrap.organizations == [] && !w.appFile.Present?
    ensures Boot(w, [], store).Some? && Inv(w, Boot(w, [], store).value)
    ensures Boot(w, [], store).value.running.desired == NOTHING_DESIRED && RowsFixed(w, [])
  {
    hide Compose, BootDocument, HasDesiredState;
    forall stream ensures NeighboursDiffer(AppliedRows([], stream)) {
    }
  }

  // ------------------------------------- what an invariant state runs

  lemma {:induction false} FindOrgFinds(orgs: seq<Organization>, id: string)
    requires exists k :: 0 <= k < |orgs| && orgs[k].id == id
    ensures FindOrg(orgs, id).Some? && FindOrg(orgs, id).value.id == id
    decreases |orgs|
  {
    if orgs[0].id != id {
      var k :| 0 <= k < |orgs| && orgs[k].id == id;
      assert orgs[1..][k - 1] == orgs[k];
      FindOrgFinds(orgs[1..], id);
    }
  }

  /** Over an invariant state, the latest row's text stands for a document without inline secrets. */
  lemma LatestText(w: World, st: State, scope: Scope, raw: string) returns (row: Revision)
    requires Lawful(w) && Inv(w, st) && Latest(st.ledger, Stream(scope)).Some?
    requires Latest(st.ledger, Stream(scope)).value.sha == w.sha(raw)
    ensures row == Latest(st.ledger, Stream(scope)).value && raw == row.content
    ensures SealedDesired(RowDesired(w, row))
    ensures forall hint :: w.parse(hint, raw) == Some(DesiredOnly(RowDesired(w, row)))
  {
    hide Latest, SealedDesired, NoTwins, Converged, RowDesired;
    row := Latest(st.ledger, Stream(scope)).value;
    AppliedRowSound(w, st.ledger, Stream(scope));
    DigestOf(w, row);
  }

  /** What runs over a single-document ledger is its latest row with the environment overlaid. */
  lemma RunningDocument(w: World, st: State, row: Revision)
    requires w.bootstrap.organizations == [] && LedgerBootable(w) && Latest(st.ledger, None) == Some(row)
    requires Converged(w, st) && w.parse(None, row.content) == Some(DesiredOnly(RowDesired(w, row)))
    ensures st.running.desired == OverlayDesired(w.overlay, RowDesired(w, row))
  {
    hide Latest, RowDesired, Compose, HasDesiredState;
  }

  lemma OverlayKeepsSealed(o: Overlay, d: Desired)
    requires SealedDesired(d)
    ensures SealedDesired(OverlayDesired(o, d))
  {
    hide Settings.SourceFields, Settings.NotifierFields;
  }
}
