/**
 Applying a document the process already knows: a rollback to the row before the
 latest, and sending back what the API shows for the latest one.
 */
module Undo {
  import opened Text
  import opened Settings
  import opened Redaction
  import opened Restoration
  import opened SecretRefs
  import opened RoundTrip
  import opened Composition
  import opened Runtime
  import opened ApplyEngine
  import opened ApplyRuns
  import opened ApplyLaws

  // ------------------------------------------------------------ reproduction

  /** Printing the row's document in the format its text looks like gives the text back. */
  predicate PrintedAsDetected(w: World, row: Revision) {
    row.content == w.render(w.detect(row.content), RowDesired(w, row))
  }

  /** The document a scope's candidates take their hidden secrets from, over a ledger with a row for it. */
  function Donor(w: World, st: State, scope: Scope): Desired {
    if scope.Org? && Latest(st.ledger, Stream(scope)).Some?
    then RowDesired(w, Latest(st.ledger, Stream(scope)).value) else st.running.desired
  }

  /** The row's document is one the environment leaves as it is. */
  predicate OverlayFixed(w: World, scope: Scope, d: Desired) {
    scope.Whole? ==> OverlayDesired(w.overlay, d) == d
  }

  /** The row's text and its blank references allow it to be reproduced. */
  predicate Repeatable(w: World, st: State, scope: Scope, row: Revision) {
    PrintedAsDetected(w, row) && Agrees(Donor(w, st, scope), RowDesired(w, row))
  }

  /** What decides whether re-applying a row reproduces it. */
  predicate Reproducible(w: World, st: State, scope: Scope, row: Revision) {
    Repeatable(w, st, scope, row) && OverlayFixed(w, scope, RowDesired(w, row))
  }

  /** A row recorded under the environment it is re-applied in is left alone by it. */
  lemma RowFixed(w: World, ledger: seq<Revision>, scope: Scope, row: Revision)
    requires RowsFixed(w, ledger) && row in ledger && row.stream == Stream(scope) && row.status == Applied
    ensures OverlayFixed(w, scope, RowDesired(w, row))
  {
    hide OverlayDesired;
  }

  /** Candidates are restored from a document without inline secrets. */
  lemma DonorSealed(w: World, st: State, scope: Scope)
    requires Inv(w, st) && Accepts(w, scope) && Latest(st.ledger, Stream(scope)).Some?
    ensures SealedDesired(Donor(w, st, scope))
  {
    hide SealedDesired, Latest, NoTwins, LedgerSound, RowDesired, OverlayDesired, Resolve;
    var row := Latest(st.ledger, Stream(scope)).value;
    AppliedRowSound(w, st.ledger, Stream(scope));
    if scope == Whole {
      OverlayKeepsSealed(w.overlay, RowDesired(w, row));
      RunningDocument(w, st, row);
    }
  }

  /** A candidate of a document sent in either scope is that document, restored from the donor and normalised. */
  lemma CandidateOf(w: World, st: State, hint: Option<Format>, raw: string, scope: Scope, sent: Desired)
    requires Lawful(w) && Inv(w, st) && Accepts(w, scope) && Latest(st.ledger, Stream(scope)).Some?
    requires w.parse(hint, raw) == Some(DesiredOnly(sent)) && Resolved(w, st, hint, raw, scope).Ready?
    ensures var c := Resolved(w, st, hint, raw, scope).candidate;
            var next := if scope == Whole then OverlayDesired(w.overlay, sent) else sent;
            && c.desired == NormalizeDesired(RestoreDesired(Donor(w, st, scope), next), Stream(scope))
            && c.writes == Writes(w.json, RestoreDesired(Donor(w, st, scope), next), Stream(scope))
            && c.body == w.render(FormatOf(w, hint, raw), c.desired) && c.sha == w.sha(c.body)
  {
    hide SealedDesired, Latest, NoTwins, LedgerSound, OverlayDesired, Resolve, NormalizeDesired, RestoreDesired, Writes;
    hide Compose, HasDesiredState;
    AppliedRowSound(w, st.ledger, Stream(scope));
    if scope.Org? {
      FindOrgFinds(w.bootstrap.organizations, scope.id);
    }
  }

  /** Printing tells documents apart. */
  lemma PrintedApart(w: World, f: Format, d: Desired, g: Format, e: Desired)
    requires ParsesPrinted(w) && Canonical(d) && Canonical(e) && w.render(f, d) == w.render(g, e)
    ensures d == e
  {
    assert w.parse(None, w.render(f, d)) == Some(DesiredOnly(d));
    assert w.parse(None, w.render(g, e)) == Some(DesiredOnly(e));
  }

  /** The environment sets defaults only, and restoring and normalising never change those. */
  lemma DefaultsSurvive(o: Overlay, prev: Desired, d: Desired, org: Option<string>)
    ensures NormalizeDesired(RestoreDesired(prev, OverlayDesired(o, d)), org) == d ==> OverlayDesired(o, d) == d
  {
  }

  /**
   Re-applying an applied row gives back its own text exactly when its blank
   references agree with the live ones, and it never rotates a secret.
   */
  lemma RowReproduced(w: World, st: State, scope: Scope, row: Revision)
    requires Lawful(w) && Inv(w, st) && Accepts(w, scope) && Latest(st.ledger, Stream(scope)).Some?
    requires RowSound(w, row) && row.status == Applied && Resolved(w, st, None, row.content, scope).Ready?
    ensures Resolved(w, st, None, row.content, scope).candidate.writes == []
    ensures Resolved(w, st, None, row.content, scope).candidate.body == row.content <==> Reproducible(w, st, scope, row)
  {
    hide SealedDesired, Latest, OverlayDesired, NormalizeDesired, RestoreDesired, Writes, Resolved, Agrees, Donor;
    hide RowDesired, Sent, Inv, Accepts;
    var d := RowDesired(w, row);
    var next := if scope == Whole then OverlayDesired(w.overlay, d) else d;
    var c := Resolved(w, st, None, row.content, scope).candidate;
    CandidateSealed(w, st, None, row.content, scope);
    DonorSealed(w, st, scope);
    CandidateOf(w, st, None, row.content, scope, d);
    OverlayKeepsSealed(w.overlay, d);
    SentAsIs(Donor(w, st, scope), next);
    DocumentReproduced(w.json, Donor(w, st, scope), next, next, Stream(scope));
    if c.body == row.content {
      assert w.parse(None, c.body) == Some(DesiredOnly(c.desired));
      DefaultsSurvive(w.overlay, Donor(w, st, scope), d, Stream(scope));
    }
  }

  /** Documents that name a reference for every secret field always agree. */
  lemma ReferencedAgrees(prev: Desired, d: Desired)
    requires forall i :: 0 <= i < |d.sources| ==> AllNamed(SourceFields(d.sources[i]))
    requires forall i :: 0 <= i < |d.notifiers| ==> AllNamed(NotifierFields(d.notifiers[i]))
    ensures Agrees(prev, d)
  {
    hide SourceFields, NotifierFields, SourceDonor, SinkDonor;
    assert forall i :: 0 <= i < |d.sources| ==> SourceAgrees(prev.sources, d.sources[i]);
    assert forall i :: 0 <= i < |d.notifiers| ==> NotifierAgrees(prev.notifiers, d.notifiers[i]);
  }

  predicate AllNamed(fs: seq<Field>) {
    forall k :: 0 <= k < |fs| ==> !EnvBlank(fs[k].env)
  }

  // ---------------------------------------------------------------- rollback

  lemma PreviousFixed(w: World, st: State, scope: Scope)
    requires RowsFixed(w, st.ledger) && Previous(st.ledger, Stream(scope)).Some?
    requires Repeatable(w, st, scope, Previous(st.ledger, Stream(scope)).value)
    ensures Reproducible(w, st, scope, Previous(st.ledger, Stream(scope)).value)
  {
    hide Repeatable, RowsFixed, OverlayFixed;
    RowFixed(w, st.ledger, scope, Previous(st.ledger, Stream(scope)).value);
  }

  lemma PreviousSound(w: World, ledger: seq<Revision>, stream: Option<string>)
    requires LedgerSound(w, ledger) && Previous(ledger, stream).Some?
    ensures RowSound(w, Previous(ledger, stream).value) && Latest(ledger, stream).Some?
    ensures Previous(ledger, stream).value.status == Applied && Previous(ledger, stream).value.stream == stream
    ensures RowSound(w, Latest(ledger, stream).value) && Latest(ledger, stream).value.status == Applied
    ensures Latest(ledger, stream).value.stream == stream
  {
    hide RowSound;
  }

  lemma AppendPrevious(ledger: seq<Revision>, stream: Option<string>, row: Revision)
    requires row.stream == stream && row.status == Applied
    ensures Latest(ledger + [row], stream) == Some(row) && Previous(ledger + [row], stream) == Latest(ledger, stream)
  {
    hide AppliedRows;
    AppliedAfterAppend(ledger, row, stream);
  }

  lemma RollbackIsApply(w: World, st: State, scope: Scope, fx: Faults)
    requires Handle(w, st, Undo, scope, fx).1.Recorded?
    ensures Accepts(w, scope) && Previous(st.ledger, Stream(scope)).Some?
    ensures var (s, o) := Apply(w, st, None, Previous(st.ledger, Stream(scope)).value.content, scope, fx);
            o.Recorded? && Handle(w, st, Undo, scope, fx).0.ledger == s.ledger
    ensures !RequestStranded(w, st, Undo, scope, fx)
  {
    hide Apply, Latest, Previous, Appends, Meanings;
    HandleIsApply(w, st, Undo, scope, fx);
    if Previous(st.ledger, Stream(scope)).Some? {
      ApplyShape(w, st, None, Previous(st.ledger, Stream(scope)).value.content, scope, fx);
    }
  }

  /** A rollback that is recorded appends the row before the latest one again. */
  lemma RollbackAppends(w: World, st: State, scope: Scope, fx: Faults)
    requires Lawful(w) && Inv(w, st) && RowsFixed(w, st.ledger) && Handle(w, st, Undo, scope, fx).1.Recorded?
    requires Repeatable(w, st, scope, Previous(st.ledger, Stream(scope)).value)
    ensures var s := Handle(w, st, Undo, scope, fx).0;
            && RowsFixed(w, s.ledger)
            && s.ledger == st.ledger + [Previous(st.ledger, Stream(scope)).value]
            && Latest(s.ledger, Stream(scope)) == Previous(st.ledger, Stream(scope))
            && Previous(s.ledger, Stream(scope)) == Latest(st.ledger, Stream(scope))
  {
    hide Apply, Resolved, Reproducible, Repeatable, RowSound, NoTwins, Converged, Handle, Latest, Previous, LedgerSound;
    hide RowsFixed;
    RollbackIsApply(w, st, scope, fx);
    PreviousFixed(w, st, scope);
    ApplyKeepsRowsFixed(w, st, None, Previous(st.ledger, Stream(scope)).value.content, scope, fx);
    var row := Previous(st.ledger, Stream(scope)).value;
    PreviousSound(w, st.ledger, Stream(scope));
    DigestOf(w, row);
    ApplyShape(w, st, None, row.content, scope, fx);
    RowReproduced(w, st, scope, row);
    AppendPrevious(st.ledger, Stream(scope), row);
  }

  /** Streams with the same latest text start the same process. */
  lemma SameLatestSameBoot(w: World, a: seq<Revision>, b: seq<Revision>)
    requires forall stream :: Latest(a, stream) == Latest(b, stream)
    ensures Resolve(w, a) == Resolve(w, b)
  {
    hide Latest, Finish, BootDocument, HasDesiredState, ComposeFirst;
    forall j | 0 <= j < |w.bootstrap.organizations|
      ensures Contribution(w, a, None, w.bootstrap.organizations[j])
              == Contribution(w, b, None, w.bootstrap.organizations[j])
    {
      assert Latest(a, Some(w.bootstrap.organizations[j].id)) == Latest(b, Some(w.bootstrap.organizations[j].id));
    }
    hide Contribution;
    ComposeCongruent(w, a, None, b, None, |w.bootstrap.organizations|);
  }

  lemma AppendsTwice(ledger: seq<Revision>, a: Revision, b: Revision, stream: Option<string>, other: Option<string>)
    requires a.stream == stream && b.stream == stream && a.status == Applied && b.status == Applied
    requires Latest(ledger, stream) == Some(b)
    ensures Latest(ledger + [a] + [b], other) == Latest(ledger, other)
  {
    hide AppliedRows;
    AppliedAfterAppend(ledger, a, other);
    AppliedAfterAppend(ledger + [a], b, other);
  }

  /**
   Rollback toggles: two recorded rollbacks append the two newest rows again and
   end with the running configuration, the latest row and the published identity
   of before the first one.
   */
  lemma RollbackToggles(w: World, st: State, scope: Scope, fx: Faults, fx': Faults)
    requires Lawful(w) && Inv(w, st) && RowsFixed(w, st.ledger)
    requires Handle(w, st, Undo, scope, fx).1.Recorded?
    requires Repeatable(w, st, scope, Previous(st.ledger, Stream(scope)).value)
    requires var s := Handle(w, st, Undo, scope, fx).0;
             && Handle(w, s, Undo, scope, fx').1.Recorded?
             && Repeatable(w, s, scope, Previous(s.ledger, Stream(scope)).value)
    ensures var s := Handle(w, st, Undo, scope, fx).0;
            var t := Handle(w, s, Undo, scope, fx').0;
            && t.ledger == st.ledger + [Previous(st.ledger, Stream(scope)).value, Latest(st.ledger, Stream(scope)).value]
            && t.running == st.running
            && Latest(t.ledger, Stream(scope)) == Latest(st.ledger, Stream(scope))
            && (scope == Whole ==> t.published == st.published)
  {
    hide Handle, Repeatable, RowsFixed, Resolve, RowSound, NoTwins, LedgerSound, Latest, Previous, Accepts;
    var s := Handle(w, st, Undo, scope, fx).0;
    var t := Handle(w, s, Undo, scope, fx').0;
    RollbackIsApply(w, st, scope, fx);
    RollbackIsApply(w, s, scope, fx');
    HandleKeepsInv(w, st, Undo, scope, fx);
    HandleKeepsInv(w, s, Undo, scope, fx');
    RollbackAppends(w, st, scope, fx);
    RollbackAppends(w, s, scope, fx');
    PreviousSound(w, st.ledger, Stream(scope));
    var a, b := Previous(st.ledger, Stream(scope)).value, Latest(st.ledger, Stream(scope)).value;
    assert st.ledger + [a] + [b] == st.ledger + [a, b];
    forall other ensures Latest(t.ledger, other) == Latest(st.ledger, other) {
      AppendsTwice(st.ledger, a, b, Stream(scope), other);
    }
    SameLatestSameBoot(w, t.ledger, st.ledger);
    if scope == Whole {
      AcceptsWhole(w);
    }
  }

  lemma AcceptsWhole(w: World)
    ensures Accepts(w, Whole) <==> LedgerBootable(w) && w.bootstrap.organizations == []
  {
  }

  /**
   A fault-free rollback to a repeatable row is never answered as unchanged, and is
   recorded exactly if its configuration is valid and can be built.
   */
  lemma RollbackSucceeds(w: World, st: State, scope: Scope)
    requires Lawful(w) && Inv(w, st) && RowsFixed(w, st.ledger)
    requires Accepts(w, scope) && Previous(st.ledger, Stream(scope)).Some?
    requires var row := Previous(st.ledger, Stream(scope)).value;
             Repeatable(w, st, scope, row) && Resolved(w, st, None, row.content, scope).Ready?
    ensures var row := Previous(st.ledger, Stream(scope)).value;
            var c := Resolved(w, st, None, row.content, scope).candidate;
            var o := Handle(w, st, Undo, scope, NO_FAULTS).1;
            && o == (if !w.valid(c.merged, st.vault) then ValidationRejected
                     else if Builds(w, c.merged, VaultAfter(w, st, scope, c)) then Recorded(row.sha) else Failed)
  {
    hide Resolved, Reproducible, Repeatable, RowsFixed, RowSound, Converged, Latest, Previous, LedgerSound, NoTwins, Install, Rotate, Reject;
    hide Accepts, PublishesIdentity, Builds, SealAndPrune;
    PreviousFixed(w, st, scope);
    var row := Previous(st.ledger, Stream(scope)).value;
    PreviousSound(w, st.ledger, Stream(scope));
    DigestOf(w, row);
    DigestOf(w, Latest(st.ledger, Stream(scope)).value);
    NeighboursApart(w, st, Stream(scope));
    RowReproduced(w, st, scope, row);
    CandidateOf(w, st, None, row.content, scope, RowDesired(w, row)) by { RowParses(w, row); }
    InstallEnds(w, st, scope, Resolved(w, st, None, row.content, scope).candidate);
  }

  lemma RowParses(w: World, row: Revision)
    requires RowSound(w, row) && row.status == Applied
    ensures w.parse(None, row.content) == Some(DesiredOnly(RowDesired(w, row)))
  {
  }

  /** How a fault-free install ends. */
  lemma InstallEnds(w: World, st: State, scope: Scope, c: Candidate)
    ensures Install(w, st, scope, c, NO_FAULTS).1 ==
            if !w.valid(c.merged, st.vault) then ValidationRejected
            else if Builds(w, c.merged, VaultAfter(w, st, scope, c)) then Recorded(c.sha) else Failed
  {
    hide SealAndPrune, Builds, Meanings;
    AlwaysSealed(w, st, scope, c, NO_FAULTS);
  }

  /** The two newest rows of a stream have different texts. */
  lemma NeighboursApart(w: World, st: State, stream: Option<string>)
    requires Inv(w, st) && Previous(st.ledger, stream).Some?
    ensures Latest(st.ledger, stream).Some?
    ensures Latest(st.ledger, stream).value.content != Previous(st.ledger, stream).value.content
  {
    hide LedgerSound, Converged, PublishesIdentity;
    assert NeighboursDiffer(AppliedRows(st.ledger, stream));
  }

  /**
   Otherwise a rollback can stall: over a chat that gained a reference since, the
   older document takes that reference back from the live one, so the rollback
   reproduces the latest row and changes nothing.
   */
  lemma RollbackStalls(w: World, st: State, d: Desired, f: Format, tags: seq<string>, chat: string, name: string,
                       fx: Faults)
    requires Lawful(w) && Accepts(w, Whole) && !fx.ledgerUnreadable && !fx.candidateFault
    requires !Blank(name) && OverlayDesired(w.overlay, d) == d && d.sources == [] && Canonical(d)
    requires var older := d.(notifiers := [Telegram(None, tags, Plain("", None), chat, "")]);
             var newer := d.(notifiers := [Telegram(None, tags, Plain("", Some(name)), chat, "")]);
             var a, b := w.render(f, older), w.render(f, newer);
             && w.detect(a) == f && st.running.desired == newer
             && st.ledger == [Revision(None, a, w.sha(a), Applied), Revision(None, b, w.sha(b), Applied)]
    ensures Rollback(w, st, Whole, fx) == (st, NoChange(Latest(st.ledger, None).value.sha))
  {
    var older := d.(notifiers := [Telegram(None, tags, Plain("", None), chat, "")]);
    var newer := d.(notifiers := [Telegram(None, tags, Plain("", Some(name)), chat, "")]);
    var a, b := w.render(f, older), w.render(f, newer);
    TwoRows(st.ledger[0], st.ledger[1]);
    assert st.ledger == [st.ledger[0]] + [st.ledger[1]];
    StalledCandidate(w, st, d, f, tags, chat, name);
    hide Resolved, Latest, Previous, Accepts;
    if w.sha(a) == w.sha(b) {
      PrintedApart(w, f, older, f, newer);
    }
  }

  lemma TwoRows(a: Revision, b: Revision)
    requires a.stream == None && b.stream == None && a.status == Applied && b.status == Applied
    ensures Latest([a] + [b], None) == Some(b) && Previous([a] + [b], None) == Some(a)
  {
    assert [] + [a] == [a];
    AppliedAfterAppend([], a, None);
    AppliedAfterAppend([a], b, None);
  }

  lemma StalledCandidate(w: World, st: State, d: Desired, f: Format, tags: seq<string>, chat: string, name: string)
    requires Lawful(w) && !Blank(name) && OverlayDesired(w.overlay, d) == d && d.sources == [] && Canonical(d)
    requires var older := d.(notifiers := [Telegram(None, tags, Plain("", None), chat, "")]);
             && w.detect(w.render(f, older)) == f
             && st.running.desired == d.(notifiers := [Telegram(None, tags, Plain("", Some(name)), chat, "")])
    ensures var older := d.(notifiers := [Telegram(None, tags, Plain("", None), chat, "")]);
            var newer := d.(notifiers := [Telegram(None, tags, Plain("", Some(name)), chat, "")]);
            var r := Resolved(w, st, None, w.render(f, older), Whole);
            r.Ready? && r.candidate.body == w.render(f, newer) && r.candidate.sha == w.sha(w.render(f, newer))
            && r.candidate.writes == []
  {
    var older := d.(notifiers := [Telegram(None, tags, Plain("", None), chat, "")]);
    var newer := d.(notifiers := [Telegram(None, tags, Plain("", Some(name)), chat, "")]);
    StalledDocument(w.json, d, tags, chat, name);
    PushedAlone(w, f, older);
    hide RestoreDesired, NormalizeDesired, Writes, JsonInverse, MergePushed, Canonical, OverlayDesired, ParsesPrinted;
  }

  /** A printed document that the environment leaves alone is pushed as it is. */
  lemma PushedAlone(w: World, f: Format, d: Desired)
    requires ParsesPrinted(w) && Canonical(d) && OverlayDesired(w.overlay, d) == d
    ensures MergePushed(w, None, w.render(f, d)).Some? && MergePushed(w, None, w.render(f, d)).value.desired == d
  {
    hide Canonical, OverlayDesired;
    assert w.parse(None, w.render(f, d)) == Some(DesiredOnly(d));
  }

  /** The older document takes the reference back from the newer one. */
  lemma StalledDocument(json: Json, d: Desired, tags: seq<string>, chat: string, name: string)
    requires !Blank(name) && d.sources == []
    ensures var older := d.(notifiers := [Telegram(None, tags, Plain("", None), chat, "")]);
            var newer := d.(notifiers := [Telegram(None, tags, Plain("", Some(name)), chat, "")]);
            && NormalizeDesired(RestoreDesired(newer, older), None) == newer
            && Writes(json, RestoreDesired(newer, older), None) == []
  {
    var before := Telegram(None, tags, Plain("", None), chat, "");
    var after := Telegram(None, tags, Plain("", Some(name)), chat, "");
    var older, newer := d.(notifiers := [before]), d.(notifiers := [after]);
    FindsOnly(after, before);
    BlankEmpty();
    assert RestoreNotifier([after], before) == after;
    assert RestoreDesired(newer, older) == newer by {
      assert RestoreNotifiers([after], [before]) == [after];
      assert RestoreSources(newer.sources, older.sources) == newer.sources;
    }
    hide RestoreDesired;
    assert SealedDesired(newer);
    SealedFixed(json, newer, None);
  }

  lemma FindsOnly(prev: Notifier, n: Notifier)
    requires SameSink(prev, n)
    ensures SinkDonor([prev], n) == Some(prev)
  {
    hide SameSink;
  }

  // ---------------------------------------------------------- GET, then apply

  /** What the API shows for a ledger row, in the format the row looks like. */
  function Shown(w: World, row: Revision): string {
    w.render(w.detect(row.content), RedactDesired(RowDesired(w, row)))
  }

  /** Composing with an organization's own latest text changes nothing. */
  lemma OverrideByLatest(w: World, ledger: seq<Revision>, id: string)
    requires LedgerBootable(w) && Catalogued(w, id) && Latest(ledger, Some(id)).Some?
    ensures Compose(w, ledger, Some(Override(id, Latest(ledger, Some(id)).value.content))) == Compose(w, ledger, None)
  {
    hide Latest, Finish;
    var override := Some(Override(id, Latest(ledger, Some(id)).value.content));
    forall j | 0 <= j < |w.bootstrap.organizations|
      ensures Contribution(w, ledger, override, w.bootstrap.organizations[j])
              == Contribution(w, ledger, None, w.bootstrap.organizations[j])
    {
    }
    hide Contribution;
    ComposeCongruent(w, ledger, override, ledger, None, |w.bootstrap.organizations|);
  }

  lemma MaskKeepsOverlay(o: Overlay, d: Desired)
    requires OverlayDesired(o, d) == d
    ensures OverlayDesired(o, RedactDesired(d)) == RedactDesired(d)
  {
  }

  lemma MaskKeepsCanonical(d: Desired)
    requires Canonical(d)
    ensures Canonical(RedactDesired(d))
  {
  }

  /** What a sound row stands for can be printed, masked or not. */
  lemma RowCanonical(w: World, row: Revision)
    requires ParsesPrinted(w) && RowSound(w, row) && row.status == Applied
    ensures Canonical(RowDesired(w, row)) && Canonical(RedactDesired(RowDesired(w, row)))
  {
    hide RedactDesired, SealedDesired, Canonical;
    assert w.parse(None, row.content).Some?;
    MaskKeepsCanonical(RowDesired(w, row));
  }

  lemma LatestCanonical(w: World, st: State, scope: Scope, row: Revision)
    requires ParsesPrinted(w) && Inv(w, st) && Latest(st.ledger, Stream(scope)) == Some(row)
    ensures Canonical(RowDesired(w, row)) && Canonical(RedactDesired(RowDesired(w, row)))
    ensures w.parse(None, row.content) == Some(DesiredOnly(RowDesired(w, row)))
  {
    hide RedactDesired, Canonical, Latest, RowSound, Converged, NoTwins;
    AppliedRowSound(w, st.ledger, Stream(scope));
    RowCanonical(w, row);
    RowParses(w, row);
  }

  lemma MaskKeepsState(d: Desired)
    requires HasDesiredState(d)
    ensures HasDesiredState(RedactDesired(d))
  {
  }

  /** A stored document sent back masked, with the sources it is matched by. */
  lemma SentMasked(live: Desired, d: Desired)
    requires RefsOnlyDesired(d) && live.sources == d.sources
    ensures Sent(live, d, RedactDesired(d))
  {
    hide RedactDesired, RefsOnlyDesired, SourceDonor;
    forall i | 0 <= i < |d.sources| && d.sources[i].AuthSource?
      ensures SourceDonor(live.sources, d.sources[i]).Some?
    {
      OwnDonor(d.sources, i);
    }
  }

  /** Over a latest row the environment leaves alone, candidates are restored from that row's document. */
  lemma DonorIsLatest(w: World, st: State, scope: Scope, row: Revision)
    requires Inv(w, st) && Accepts(w, scope) && Latest(st.ledger, Stream(scope)) == Some(row)
    requires OverlayFixed(w, scope, RowDesired(w, row))
    ensures Donor(w, st, scope) == RowDesired(w, row)
  {
    hide Latest, NoTwins, LedgerSound, RowDesired, OverlayDesired, Resolve, SealedDesired;
    AppliedRowSound(w, st.ledger, Stream(scope));
    if scope == Whole {
      RunningDocument(w, st, row);
    }
  }

  /** The candidate of a shown document has no writes, and is the row itself exactly when the document agrees with itself. */
  lemma ShownCandidate(w: World, st: State, hint: Option<Format>, scope: Scope, row: Revision)
    requires Lawful(w) && Inv(w, st) && Accepts(w, scope) && Latest(st.ledger, Stream(scope)) == Some(row)
    requires PrintedAsDetected(w, row) && OverlayFixed(w, scope, RowDesired(w, row)) && RefsOnlyDesired(RowDesired(w, row))
    requires FormatOf(w, hint, Shown(w, row)) == w.detect(row.content)
    requires Resolved(w, st, hint, Shown(w, row), scope).Ready?
    ensures var c := Resolved(w, st, hint, Shown(w, row), scope).candidate;
            && c.writes == [] && c.sha == w.sha(c.body)
            && (c.body == row.content <==> Agrees(RowDesired(w, row), RedactDesired(RowDesired(w, row))))
  {
    hide SealedDesired, Latest, OverlayDesired, NormalizeDesired, RestoreDesired, Writes, Resolved, Agrees, Donor;
    hide RowDesired, Sent, Inv, Accepts, RedactDesired, RefsOnlyDesired;
    var d := RowDesired(w, row);
    var sent := RedactDesired(d);
    DonorSealed(w, st, scope);
    DonorIsLatest(w, st, scope, row);
    LatestCanonical(w, st, scope, row);
    CandidateCanonical(w, st, hint, Shown(w, row), scope);
    hide Canonical;
    CandidateOf(w, st, hint, Shown(w, row), scope, sent);
    if scope == Whole {
      MaskKeepsOverlay(w.overlay, d);
    }
    SentMasked(d, d);
    DocumentReproduced(w.json, d, d, sent, Stream(scope));
    var c := Resolved(w, st, hint, Shown(w, row), scope).candidate;
    if c.body == row.content {
      PrintedApart(w, w.detect(row.content), c.desired, w.detect(row.content), d);
    }
  }

  /** A shown document whose candidate is the row itself resolves without a fault. */
  lemma ShownResolves(w: World, st: State, hint: Option<Format>, scope: Scope, row: Revision)
    requires Lawful(w) && Inv(w, st) && Accepts(w, scope) && Latest(st.ledger, Stream(scope)) == Some(row)
    requires PrintedAsDetected(w, row) && OverlayFixed(w, scope, RowDesired(w, row)) && RefsOnlyDesired(RowDesired(w, row))
    requires Agrees(RowDesired(w, row), RedactDesired(RowDesired(w, row)))
    requires scope.Org? ==> HasDesiredState(RowDesired(w, row))
    requires FormatOf(w, hint, Shown(w, row)) == w.detect(row.content)
    ensures Resolved(w, st, hint, Shown(w, row), scope).Ready?
  {
    hide SealedDesired, Latest, OverlayDesired, NormalizeDesired, RestoreDesired, Writes, Agrees;
    hide Sent, RedactDesired, RefsOnlyDesired, Compose, HasDesiredState, LedgerSound, NoTwins;
    var d := RowDesired(w, row);
    LatestCanonical(w, st, scope, row);
    hide Canonical;
    AppliedRowSound(w, st.ledger, Stream(scope));
    if scope.Org? {
      MaskKeepsState(d);
      FindOrgFinds(w.bootstrap.organizations, scope.id);
      CataloguedNonEmpty(w, scope.id);
      OverrideByLatest(w, st.ledger, scope.id);
      SentMasked(d, d);
      DocumentReproduced(w.json, d, d, RedactDesired(d), Stream(scope));
    }
  }

  /**
   Sending back what the API shows for the latest row leaves ledger, runtime and
   secrets untouched exactly when the document agrees with itself (or shows as
   itself, with nothing to mask).
   */
  lemma ShownThenApplied(w: World, st: State, hint: Option<Format>, scope: Scope, row: Revision, fx: Faults)
    requires Lawful(w) && Inv(w, st) && Accepts(w, scope) && Latest(st.ledger, Stream(scope)) == Some(row)
    requires RowsFixed(w, st.ledger) && PrintedAsDetected(w, row) && RefsOnlyDesired(RowDesired(w, row))
    requires scope.Org? ==> HasDesiredState(RowDesired(w, row))
    requires FormatOf(w, hint, Shown(w, row)) == w.detect(row.content)
    requires !fx.ledgerUnreadable && !fx.candidateFault
    ensures Apply(w, st, hint, Shown(w, row), scope, fx) == (st, NoChange(row.sha)) <==>
            Agrees(RowDesired(w, row), RedactDesired(RowDesired(w, row))) || Shown(w, row) == row.content
  {
    hide Latest, Resolved, Agrees, RedactDesired, RefsOnlyDesired, RowDesired, NoTwins, LedgerSound, Converged, RowSound;
    hide Shown, OverlayFixed, RowsFixed, PrintedAsDetected, HasDesiredState, Rotate, Install, Reject, FormatOf;
    AppliedRowSound(w, st.ledger, Stream(scope));
    DigestOf(w, row);
    LatestFixed(w, st.ledger, scope, row);
    var d := RowDesired(w, row);
    if Agrees(d, RedactDesired(d)) {
      ShownResolves(w, st, hint, scope, row);
    }
    if Resolved(w, st, hint, Shown(w, row), scope).Ready? {
      ShownCandidate(w, st, hint, scope, row);
      NothingToRotate(w, st, scope, Resolved(w, st, hint, Shown(w, row), scope).candidate, fx);
      InstallChanges(w, st, scope, Resolved(w, st, hint, Shown(w, row), scope).candidate, fx);
    }
    RejectIsNoNoChange(w, st, scope, RejectedBody(w, Shown(w, row), Stream(scope)), fx);
  }

  lemma LatestFixed(w: World, ledger: seq<Revision>, scope: Scope, row: Revision)
    requires RowsFixed(w, ledger) && Latest(ledger, Stream(scope)) == Some(row)
    ensures OverlayFixed(w, scope, RowDesired(w, row))
  {
    hide RowsFixed, OverlayFixed;
    RowFixed(w, ledger, scope, row);
  }

  lemma NothingToRotate(w: World, st: State, scope: Scope, c: Candidate, fx: Faults)
    requires c.writes == []
    ensures Rotate(w, st, scope, c, fx) == (st, NoChange(c.sha))
  {
  }

  lemma InstallChanges(w: World, st: State, scope: Scope, c: Candidate, fx: Faults)
    ensures !Install(w, st, scope, c, fx).1.NoChange?
  {
    hide SealAndPrune, Swap;
  }

  lemma RejectIsNoNoChange(w: World, st: State, scope: Scope, body: string, fx: Faults)
    ensures !Reject(w, st, scope, body, DocumentRejected, fx).1.NoChange?
  {
  }
}
