/**
 The apply engine: resolve a pushed document into a candidate, validate it, seal
 its secrets, swap it into the runtime and append it to the ledger, with a fault
 possible at every step that can fail (src/config_apply/mod.rs, src/api/config.rs).
 */
module ApplyEngine {
  import opened Text
  import opened Settings
  import opened Restoration
  import opened SecretRefs
  import opened SecretMeaning
  import opened Composition
  import opened Runtime

  // ------------------------------------------------------------------- state

  /**
   What an apply can change: the ledger, the running configuration, the secrets that
   its watches and sinks were built with, the sealed secrets in the database, the
   process vault, the identity published for `If-Match`, and whether reads take the
   ledger for the source of the document.  A process is down after a restart that
   could not build its sinks.
   */
  datatype State = State(
    ledger: seq<Revision>,
    running: Config,
    live: seq<Meaning>,
    store: map<string, string>,
    vault: map<string, string>,
    published: Option<string>,
    showsLedger: bool,
    up: bool)

  datatype Scope = Whole | Org(id: string)

  /** The ledger stream a scope reads and writes; also the owner in generated secret names. */
  function Stream(scope: Scope): Option<string> {
    match scope case Whole => None case Org(id) => Some(id)
  }

  /** `upsert_app_secrets`: fine, refused before it starts, or failing to commit after `stored` vault updates. */
  datatype SealFault = Sealed | SealRefused | SealUncommitted(stored: nat)

  /**
   Pruning: fine; failing to read the references an organization held before; refused;
   or failing to commit after some names left the vault.
   */
  datatype PruneFault = Pruned | RefsUnreadable | PruneRefused | PruneUncommitted(removed: set<string>)

  /**
   The outcome of every fallible call an apply makes.  A swap that does not fail
   here still fails when the configuration cannot be built from the vault.
   */
  datatype Faults = Faults(
    ledgerUnreadable: bool,
    candidateFault: bool,
    rejectionUnrecorded: bool,
    seal: SealFault,
    prune: PruneFault,
    swapFails: bool,
    appendFails: bool,
    restoreFails: bool,
    refreshFails: bool)

  const NO_FAULTS := Faults(false, false, false, Sealed, Pruned, false, false, false, false)

  datatype Outcome =
    | NoChange(sha: string)
    | Rotated(sha: string)
    | Recorded(sha: string)
    | DocumentRejected
    | ValidationRejected
    | NothingToRollBackTo
    | Refused
    | Failed

  predicate Succeeded(o: Outcome) {
    o.NoChange? || o.Rotated? || o.Recorded?
  }

  // --------------------------------------------------------------- candidate

  datatype Candidate = Candidate(
    body: string,
    sha: string,
    desired: Desired,
    merged: Config,
    writes: seq<SecretWrite>)

  datatype Resolution = Ready(candidate: Candidate) | BadDocument | ServerFault

  function FormatOf(w: World, hint: Option<Format>, raw: string): Format {
    if hint.Some? then hint.value else w.detect(raw)
  }

  /** The first catalogue entry with the id. */
  function FindOrg(orgs: seq<Organization>, id: string): Option<Organization> {
    if orgs == [] then None else if orgs[0].id == id then Some(orgs[0]) else FindOrg(orgs[1..], id)
  }

  /** The whole-document arm of `resolve_scoped_candidate`. */
  function WholeCandidate(w: World, st: State, hint: Option<Format>, raw: string): Resolution {
    match MergePushed(w, hint, raw)
    case None => BadDocument
    case Some(pushed) =>
      var restored := RestoreDesired(st.running.desired, pushed.desired);
      var desired := NormalizeDesired(restored, None);
      var body := w.render(FormatOf(w, hint, raw), desired);
      Ready(Candidate(body, w.sha(body), desired, pushed.(desired := desired), Writes(w.json, restored, None)))
  }

  /** The secrets an organization's candidate is restored from: its own authority document. */
  function OrgRestored(w: World, previous: string, d: Desired): Desired {
    match w.parse(None, previous)
    case None => d
    case Some(c) => RestoreDesired(c.desired, d)
  }

  /** The organization arm of `resolve_scoped_candidate`, with `restore_org_candidate`. */
  function OrgCandidate(w: World, st: State, hint: Option<Format>, raw: string, id: string): Resolution {
    match w.parse(hint, raw)
    case None => BadDocument
    case Some(c) =>
      if !IsDesiredOnly(c) || !HasDesiredState(c.desired) then BadDocument
      else match FindOrg(w.bootstrap.organizations, id)
        case None => ServerFault
        case Some(org) =>
          match OrgAuthority(w, st.ledger, org)
          case None => ServerFault
          case Some(authority) =>
            var restored := OrgRestored(w, authority.raw, c.desired);
            var desired := NormalizeDesired(restored, Some(id));
            var body := w.render(FormatOf(w, hint, raw), desired);
            match Compose(w, st.ledger, Some(Override(id, body)))
            case None => ServerFault
            case Some(composed) =>
              Ready(Candidate(body, w.sha(body), desired, composed.merged, Writes(w.json, restored, Some(id))))
  }

  function Resolved(w: World, st: State, hint: Option<Format>, raw: string, scope: Scope): Resolution {
    match scope
    case Whole => WholeCandidate(w, st, hint, raw)
    case Org(id) => OrgCandidate(w, st, hint, raw, id)
  }

  // ------------------------------------------------------------------- steps

  /** `rejected_ledger_body`: what is kept of a document that was refused. */
  function RejectedBody(w: World, raw: string, stream: Option<string>): string {
    match w.parse(None, raw)
    case None => EMPTY_DOCUMENT
    case Some(c) => w.render(w.detect(raw), NormalizeDesired(c.desired, stream))
  }

  function Append(w: World, st: State, stream: Option<string>, body: string, status: Status): State {
    st.(ledger := st.ledger + [Revision(stream, body, w.sha(body), status)])
  }

  /** Each write is in the vault: `effective_secret_rotations` finds none. */
  predicate AllInVault(vault: map<string, string>, writes: seq<SecretWrite>) {
    forall i :: 0 <= i < |writes| ==> VaultGet(vault, writes[i].name) == Some(writes[i].value)
  }

  /** `upsert_app_secrets`: the vault is updated write by write before the transaction commits. */
  function Seal(st: State, writes: seq<SecretWrite>, fault: SealFault): (State, bool) {
    if writes == [] then (st, true)
    else match fault
      case Sealed => (st.(store := LoadWrites(st.store, writes), vault := LoadWrites(st.vault, writes)), true)
      case SealRefused => (st, false)
      case SealUncommitted(n) =>
        (st.(vault := LoadWrites(st.vault, writes[..if n <= |writes| then n else |writes|])), false)
  }

  /** The references the scope held before this apply. */
  function PreviousRefs(w: World, st: State, scope: Scope): set<string> {
    match scope
    case Whole => CollectRefs(st.running.desired)
    case Org(id) =>
      match FindOrg(w.bootstrap.organizations, id)
      case None => {}
      case Some(org) =>
        match OrgAuthority(w, st.ledger, org)
        case None => {}
        case Some(authority) =>
          match w.parse(None, authority.raw) case None => {} case Some(c) => CollectRefs(c.desired)
  }

  /** The generated names that the scope referenced before and the candidate does not. */
  function Stale(w: World, st: State, scope: Scope, desired: Desired): set<string> {
    StaleSecrets(PreviousRefs(w, st, scope), CollectRefs(desired), Stream(scope))
  }

  /** `prune_stale_app_secrets`: only an organization's previous references are read from the store. */
  function Prune(w: World, st: State, scope: Scope, desired: Desired, fault: PruneFault): (State, bool) {
    var stale := Stale(w, st, scope, desired);
    if scope.Org? && fault.RefsUnreadable? then (st, false)
    else if stale == {} then (st, true)
    else match fault
      case PruneRefused => (st, false)
      case PruneUncommitted(removed) => (st.(vault := st.vault - (stale * st.store.Keys * removed)), false)
      case _ => (st.(store := st.store - stale, vault := st.vault - (stale * st.store.Keys)), true)
  }

  function SealAndPrune(w: World, st: State, scope: Scope, c: Candidate, fx: Faults): (State, bool) {
    var (s1, ok) := Seal(st, c.writes, fx.seal);
    if ok then Prune(w, s1, scope, c.desired, fx.prune) else (s1, false)
  }

  /** A candidate that fails validation leaves a rejected row, if that row can be written. */
  function Reject(w: World, st: State, scope: Scope, body: string, outcome: Outcome, fx: Faults): (State, Outcome) {
    if fx.rejectionUnrecorded then (st, Failed) else (Append(w, st, Stream(scope), body, Rejected), outcome)
  }

  /** The ledger body is unchanged: only secrets may have rotated. */
  function Rotate(w: World, st: State, scope: Scope, c: Candidate, fx: Faults): (State, Outcome) {
    if AllInVault(st.vault, c.writes) then (st, NoChange(c.sha))
    else if !w.valid(c.merged, st.vault) then Reject(w, st, scope, c.body, ValidationRejected, fx)
    else
      var (s, ok) := SealAndPrune(w, st, scope, c, fx);
      (s, if ok then Rotated(c.sha) else Failed)
  }

  /** `apply_runtime`: builds everything from the configuration and the vault, then replaces what runs. */
  function Swap(w: World, s: State, c: Config, fails: bool): (State, bool) {
    if fails || !Builds(w, c, s.vault) then (s, false)
    else (s.(running := c, live := Meanings(w, c.desired, s.vault)), true)
  }

  /** A swap touches the running configuration and what it was built with, and a failed one nothing. */
  lemma SwapKeeps(w: World, s: State, c: Config, fails: bool)
    ensures var (t, ok) := Swap(w, s, c, fails);
            t == if ok then s.(running := c, live := Meanings(w, c.desired, s.vault)) else s
    ensures Swap(w, s, c, fails).1 <==> !fails && Builds(w, c, s.vault)
  {
    hide Builds, Meanings;
  }

  /** Swap, then append; if the append fails, swap back. */
  function SwapAndRecord(w: World, before: Config, s: State, scope: Scope, c: Candidate, fx: Faults): (State, Outcome) {
    var (t, ok) := Swap(w, s, c.merged, fx.swapFails);
    if !ok then (t, Failed)
    else if fx.appendFails then (Swap(w, t, before, fx.restoreFails).0, Failed)
    else (Append(w, t, Stream(scope), c.body, Applied), Recorded(c.sha))
  }

  function Install(w: World, st: State, scope: Scope, c: Candidate, fx: Faults): (State, Outcome) {
    if !w.valid(c.merged, st.vault) then Reject(w, st, scope, c.body, ValidationRejected, fx)
    else
      var (s, ok) := SealAndPrune(w, st, scope, c, fx);
      if ok then SwapAndRecord(w, st.running, s, scope, c, fx) else (s, Failed)
  }

  /** `apply_document` */
  function Apply(w: World, st: State, hint: Option<Format>, raw: string, scope: Scope, fx: Faults): (State, Outcome) {
    var current := Latest(st.ledger, Stream(scope));
    if fx.ledgerUnreadable then (st, Failed)
    else if current.Some? && current.value.sha == w.sha(raw) then (st, NoChange(w.sha(raw)))
    else if fx.candidateFault then (st, Failed)
    else match Resolved(w, st, hint, raw, scope)
      case ServerFault => (st, Failed)
      case BadDocument => Reject(w, st, scope, RejectedBody(w, raw, Stream(scope)), DocumentRejected, fx)
      case Ready(c) =>
        if current.Some? && current.value.sha == c.sha then Rotate(w, st, scope, c, fx)
        else Install(w, st, scope, c, fx)
  }

  /** `rollback` */
  function Rollback(w: World, st: State, scope: Scope, fx: Faults): (State, Outcome) {
    if fx.ledgerUnreadable then (st, Failed)
    else match Previous(st.ledger, Stream(scope))
      case None => (st, NothingToRollBackTo)
      case Some(row) => Apply(w, st, None, row.content, scope, fx)
  }

  // ------------------------------------------------------------ HTTP handlers

  /** `require_single_document_mode`, `require_organization` and the push-authority guards. */
  predicate Accepts(w: World, scope: Scope) {
    && LedgerBootable(w)
    && match scope
       case Whole => w.bootstrap.organizations == []
       case Org(id) => Catalogued(w, id)
  }

  /**
   `finish_apply` and `finish_org_apply`: the published identity after an apply, and
   for a single document the revision metadata, refreshed if it can be read.
   */
  function Publish(s: State, scope: Scope, o: Outcome, refreshFails: bool): State {
    if !o.Rotated? && !o.Recorded? then s
    else if scope.Org? then s.(published := None)
    else s.(published := Some(o.sha),
            showsLedger := s.showsLedger || (!refreshFails && Latest(s.ledger, None).Some?))
  }

  datatype Request = Push(hint: Option<Format>, raw: string) | Undo

  /** The apply and rollback routes; requests are serialised by the apply lock. */
  function Handle(w: World, st: State, request: Request, scope: Scope, fx: Faults): (State, Outcome) {
    if !Accepts(w, scope) then (st, Refused)
    else
      var (s, o) := match request
        case Push(hint, raw) => Apply(w, st, hint, raw, scope, fx)
        case Undo => Rollback(w, st, scope, fx);
      (Publish(s, scope, o, fx.refreshFails), o)
  }

  /** What a reload would run, and the identity it would publish. */
  datatype Target = Target(config: Config, identity: string)

  /** Every organization from its authority, or the app file unless the ledger is the authority. */
  function ReloadTarget(w: World, st: State): Option<Target> {
    if w.bootstrap.organizations != [] then
      match Compose(w, st.ledger, None) case None => None case Some(c) => Some(Target(c.merged, c.identity))
    else if !w.appFile.Present? || (LedgerBootable(w) && Latest(st.ledger, None).Some?) then None
    else
      match MergePushed(w, w.appFile.format, w.appFile.text)
      case None => None
      case Some(merged) => Some(Target(merged, w.sha(w.appFile.text)))
  }

  /** The target is new, valid and can be built. */
  predicate ReloadSwaps(w: World, st: State, swapFails: bool) {
    var target := ReloadTarget(w, st);
    && target.Some? && st.published != Some(target.value.identity) && w.valid(target.value.config, st.vault)
    && !swapFails && Builds(w, target.value.config, st.vault)
  }

  /** `reload_from_disk`, with `reload_document` for a single document and `reload_organizations` for several. */
  function Reload(w: World, st: State, swapFails: bool): State {
    if !ReloadSwaps(w, st, swapFails) then st
    else
      var target := ReloadTarget(w, st).value;
      st.(running := target.config, live := Meanings(w, target.config.desired, st.vault), published := Some(target.identity))
  }

  /** `AppState::new`: the identity a freshly started process publishes. */
  function BootIdentity(w: World, ledger: seq<Revision>): Option<string> {
    if w.bootstrap.organizations != [] then
      match Compose(w, ledger, None) case None => None case Some(c) => Some(c.identity)
    else if LedgerBootable(w) && Latest(ledger, None).Some? then Some(Latest(ledger, None).value.sha)
    else match w.appFile case Present(text, _) => Some(w.sha(text)) case _ => None
  }

  /** Whether a freshly started process reads its document from the ledger. */
  predicate BootsFromLedger(w: World, ledger: seq<Revision>) {
    w.bootstrap.organizations == [] && LedgerBootable(w) && Latest(ledger, None).Some?
  }

  /** `Runtime::new` and `serve`: a process started on a ledger and a secret store, if it starts. */
  function Boot(w: World, ledger: seq<Revision>, store: map<string, string>): Option<State> {
    match Resolve(w, ledger)
    case None => None
    case Some(c) =>
      if !Builds(w, c, store) then None
      else Some(State(ledger, c, Meanings(w, c.desired, store), store, store, BootIdentity(w, ledger),
                      BootsFromLedger(w, ledger), true))
  }

  /** References are collected trimmed and non-blank. */
  lemma PreviousUsable(w: World, st: State, scope: Scope)
    ensures forall name :: name in PreviousRefs(w, st, scope) ==> Usable(name)
  {
    hide CollectRefs, Usable, OrgAuthority, FindOrg;
    match scope
    case Whole => RefsUsable(st.running.desired);
    case Org(id) =>
      if PreviousRefs(w, st, scope) != {} {
        var org := FindOrg(w.bootstrap.organizations, id).value;
        RefsUsable(w.parse(None, OrgAuthority(w, st.ledger, org).value.raw).value.desired);
      }
  }

  // -------------------------------------------------------------- the engine

  /** The engine as the code keeps it: fields updated step by step, with early exits. */
  class Engine {
    const w: World
    var ledger: seq<Revision>
    var running: Config
    var live: seq<Meaning>
    var store: map<string, string>
    const vault: Vault
    var published: Option<string>
    var showsLedger: bool
    var up: bool

    constructor (w: World, st: State)
      ensures this.w == w && fresh(vault) && Now() == st
    {
      this.w := w;
      ledger := st.ledger;
      running := st.running;
      live := st.live;
      store := st.store;
      published := st.published;
      showsLedger := st.showsLedger;
      up := st.up;
      vault := new Vault();
      new;
      vault.ReplaceAll(st.vault);
    }

    function Now(): State
      reads this, vault
    {
      State(ledger, running, live, store, vault.entries, published, showsLedger, up)
    }

    method Record(stream: Option<string>, body: string, status: Status)
      modifies this`ledger
      ensures Now() == Append(w, old(Now()), stream, body, status)
    {
      ledger := ledger + [Revision(stream, body, w.sha(body), status)];
    }

    method UpsertSecrets(writes: seq<SecretWrite>, fault: SealFault) returns (ok: bool)
      modifies this`store, vault
      ensures (Now(), ok) == Seal(old(Now()), writes, fault)
    {
      hide VaultUpsert, VaultGet, Trim, Usable, Blank;
      if writes == [] {
        return true;
      }
      if fault.SealRefused? {
        return false;
      }
      var reached := if fault.SealUncommitted? && fault.stored <= |writes| then fault.stored else |writes|;
      var i := 0;
      var staged := store;
      ghost var vault0, store0 := vault.entries, store;
      while i < reached
        modifies vault
        invariant 0 <= i <= reached
        invariant LoadWrites(vault.entries, writes[i..reached]) == LoadWrites(vault0, writes[..reached])
        invariant LoadWrites(staged, writes[i..reached]) == LoadWrites(store0, writes[..reached])
      {
        assert writes[i..reached][1..] == writes[i + 1..reached];
        vault.Upsert(Trim(writes[i].name), writes[i].value);
        staged := VaultUpsert(staged, Trim(writes[i].name), writes[i].value);
        i := i + 1;
      }
      if fault.SealUncommitted? {
        return false;
      }
      assert writes[..reached] == writes;
      store := staged;
      return true;
    }

    method DeleteStale(scope: Scope, desired: Desired, fault: PruneFault) returns (ok: bool)
      modifies this`store, vault
      ensures (Now(), ok) == Prune(w, old(Now()), scope, desired, fault)
    {
      hide VaultGet, Trim, Usable, CollectRefs, IsUiManaged, PreviousRefs;
      if scope.Org? && fault.RefsUnreadable? {
        return false;
      }
      var previous := PreviousRefs(w, Now(), scope);
      var next := CollectSecretEnvRefs(desired);
      var stale := StaleSecrets(previous, next, Stream(scope));
      if stale == {} {
        return true;
      }
      if fault.PruneRefused? {
        return false;
      }
      PreviousUsable(w, Now(), scope);
      if fault.PruneUncommitted? {
        vault.RemoveAll(stale * store.Keys * fault.removed);
        return false;
      }
      vault.RemoveAll(stale * store.Keys);
      store := store - stale;
      return true;
    }

    method ApplyRuntime(c: Config, fails: bool) returns (ok: bool)
      modifies this`running, this`live
      ensures (Now(), ok) == Swap(w, old(Now()), c, fails)
    {
      hide Builds, Meanings;
      if fails {
        return false;
      }
      var built := Build(w, c, vault.entries);
      if built.None? {
        return false;
      }
      running := c;
      live := built.value;
      return true;
    }

    /** The swap with the append behind it, and the swap back if that fails. */
    method SwapThenRecord(previous: Config, scope: Scope, c: Candidate, fx: Faults) returns (outcome: Outcome)
      modifies this`ledger, this`running, this`live
      ensures (Now(), outcome) == SwapAndRecord(w, previous, old(Now()), scope, c, fx)
    {
      hide Swap;
      var ok := ApplyRuntime(c.merged, fx.swapFails);
      if !ok {
        return Failed;
      }
      if fx.appendFails {
        ok := ApplyRuntime(previous, fx.restoreFails);
        return Failed;
      }
      Record(Stream(scope), c.body, Applied);
      return Recorded(c.sha);
    }

    method ApplyDocument(hint: Option<Format>, raw: string, scope: Scope, fx: Faults) returns (outcome: Outcome)
      modifies this`ledger, this`running, this`live, this`store, vault
      ensures (Now(), outcome) == Apply(w, old(Now()), hint, raw, scope, fx)
    {
      hide Resolved, RejectedBody, Seal, Prune, Latest, LoadWrites, CollectRefs, SwapAndRecord;
      if fx.ledgerUnreadable {
        return Failed;
      }
      var current := Latest(ledger, Stream(scope));
      if current.Some? && current.value.sha == w.sha(raw) {
        return NoChange(w.sha(raw));
      }
      var previous := running;
      if fx.candidateFault {
        return Failed;
      }
      var resolution := Resolved(w, Now(), hint, raw, scope);
      if resolution.ServerFault? {
        return Failed;
      }
      if resolution.BadDocument? {
        if fx.rejectionUnrecorded {
          return Failed;
        }
        Record(Stream(scope), RejectedBody(w, raw, Stream(scope)), Rejected);
        return DocumentRejected;
      }
      var c := resolution.candidate;
      var sameBody := current.Some? && current.value.sha == c.sha;
      if sameBody && AllInVault(vault.entries, c.writes) {
        return NoChange(c.sha);
      }
      if !w.valid(c.merged, vault.entries) {
        if fx.rejectionUnrecorded {
          return Failed;
        }
        Record(Stream(scope), c.body, Rejected);
        return ValidationRejected;
      }
      var ok := UpsertSecrets(c.writes, fx.seal);
      if !ok {
        return Failed;
      }
      ok := DeleteStale(scope, c.desired, fx.prune);
      if !ok {
        return Failed;
      }
      if sameBody {
        return Rotated(c.sha);
      }
      outcome := SwapThenRecord(previous, scope, c, fx);
    }

    method RollBack(scope: Scope, fx: Faults) returns (outcome: Outcome)
      modifies this`ledger, this`running, this`live, this`store, vault
      ensures (Now(), outcome) == Rollback(w, old(Now()), scope, fx)
    {
      hide Apply, Previous;
      if fx.ledgerUnreadable {
        return Failed;
      }
      var row := Previous(ledger, Stream(scope));
      if row.None? {
        return NothingToRollBackTo;
      }
      outcome := ApplyDocument(None, row.value.content, scope, fx);
    }

    /** One request under the apply lock, with its tail that publishes the new identity. */
    method Serve(request: Request, scope: Scope, fx: Faults) returns (outcome: Outcome)
      modifies this, vault
      ensures (Now(), outcome) == Handle(w, old(Now()), request, scope, fx)
    {
      hide Apply, Rollback, Latest;
      if !Accepts(w, scope) {
        return Refused;
      }
      match request {
        case Push(hint, raw) => outcome := ApplyDocument(hint, raw, scope, fx);
        case Undo => outcome := RollBack(scope, fx);
      }
      if outcome.Rotated? || outcome.Recorded? {
        published := if scope == Whole then Some(outcome.sha) else None;
        if scope == Whole && !fx.refreshFails && Latest(ledger, None).Some? {
          showsLedger := true;
        }
      }
    }

    method ReloadFromDisk(swapFails: bool)
      modifies this`running, this`live, this`published
      ensures Now() == Reload(w, old(Now()), swapFails)
    {
      hide Compose, MergePushed, Latest, Swap, Builds, Meanings;
      if w.bootstrap.organizations != [] {
        var composed := ComposeOrganizations(w, ledger, None);
        if composed.Some? && published != Some(composed.value.identity) && w.valid(composed.value.merged, vault.entries) {
          SwapKeeps(w, Now(), composed.value.merged, swapFails);
          var ok := ApplyRuntime(composed.value.merged, swapFails);
          if ok {
            published := Some(composed.value.identity);
          }
        }
        return;
      }
      if !w.appFile.Present? || (LedgerBootable(w) && Latest(ledger, None).Some?) {
        return;
      }
      var sha := w.sha(w.appFile.text);
      var merged := MergePushed(w, w.appFile.format, w.appFile.text);
      if published != Some(sha) && merged.Some? && w.valid(merged.value, vault.entries) {
        SwapKeeps(w, Now(), merged.value, swapFails);
        var ok := ApplyRuntime(merged.value, swapFails);
        if ok {
          published := Some(sha);
        }
      }
    }
  }
}
