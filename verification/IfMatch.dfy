/**
 Optimistic concurrency on apply: the `If-Match` header, and why a guarded apply
 never overwrites a document its author did not read
 (src/api/config.rs, src/api/organizations.rs).
 */
module IfMatch {
  import opened Text
  import opened Composition
  import opened ApplyEngine
  import opened ApplyRuns
  import opened Undo

  // ------------------------------------------------------------ the header

  /** `HeaderValue::to_str` accepts it. */
  predicate HeaderText(s: string) {
    forall c :: c in s ==> c == '\t' || ' ' <= c <= '~'
  }

  /** `str::split` on a comma. */
  function Split(s: string): (parts: seq<string>)
    ensures parts != []
    decreases |s|
  {
    match FindChar(s, ',')
    case None => [s]
    case Some(i) => [s[..i]] + Split(s[i + 1..])
  }

  /** `trim_start_matches("W/")`: every leading marker, not only one. */
  function WithoutWeak(s: string): string {
    if "W/" <= s then WithoutWeak(s[2..]) else s
  }

  /** `trim_matches('"')` */
  function WithoutQuotes(s: string): string {
    if s != "" && s[0] == '"' then WithoutQuotes(s[1..])
    else if s != "" && s[|s| - 1] == '"' then WithoutQuotes(s[..|s| - 1])
    else s
  }

  function OpaqueTag(part: string): string {
    WithoutQuotes(WithoutWeak(Trim(part)))
  }

  datatype Verdict = Pass | Stale | Malformed

  /** Some entry of the header names the current tag. */
  predicate Names(header: string, current: Option<string>) {
    exists i :: 0 <= i < |Split(header)| && current == Some(OpaqueTag(Split(header)[i]))
  }

  /** `check_if_match` */
  function CheckIfMatch(header: Option<string>, current: Option<string>): Verdict {
    match header
    case None => Pass
    case Some(h) =>
      if !HeaderText(h) then Malformed
      else if Trim(h) == "*" then (if current.Some? then Pass else Stale)
      else if Names(h, current) then Pass
      else Stale
  }

  // -------------------------------------------------------------- entity tags

  predicate HexDigit(c: char) {
    '0' <= c <= '9' || 'a' <= c <= 'f'
  }

  /** What `hex::encode` of a digest looks like. */
  predicate HexDigest(s: string) {
    s != "" && forall c :: c in s ==> HexDigit(c)
  }

  ghost predicate HexDigests(sha: string -> string) {
    forall text :: HexDigest(sha(text))
  }

  /** The `ETag` value of a read. */
  function ETag(sha: string): string {
    ['"'] + sha + ['"']
  }

  function ETagList(shas: seq<string>): string
    requires shas != []
  {
    if |shas| == 1 then ETag(shas[0]) else ETag(shas[0]) + ", " + ETagList(shas[1..])
  }

  predicate Padding(pad: string) {
    pad == "" || pad == " " || pad == "W/" || pad == " W/"
  }

  lemma TagTrimmed(weak: string, sha: string)
    requires weak == "" || weak == "W/"
    ensures Trim(weak + ETag(sha)) == weak + ETag(sha)
  {
    assert Trimmed(weak + ETag(sha));
  }

  lemma TagOpened(sha: string)
    requires HexDigest(sha)
    ensures WithoutQuotes(ETag(sha)) == sha
  {
    assert sha[0] in sha && sha[|sha| - 1] in sha;
    assert ETag(sha)[1..] == sha + ['"'];
    assert (sha + ['"'])[..|sha|] == sha;
    assert WithoutQuotes(sha) == sha;
  }

  /** Padded, weak or plain, an entity tag is read as the digest inside. */
  lemma OpaqueOfTag(pad: string, sha: string)
    requires Padding(pad) && HexDigest(sha)
    ensures OpaqueTag(pad + ETag(sha)) == sha
  {
    hide WithoutQuotes, Trim;
    var weak := if pad == "" || pad == " " then "" else "W/";
    TagTrimmed(weak, sha);
    assert Trim(pad + ETag(sha)) == weak + ETag(sha) by {
      if pad != weak {
        assert pad + ETag(sha) == " " + (weak + ETag(sha));
        TrimSkipsSpace(weak + ETag(sha));
      }
    }
    assert WithoutWeak(ETag(sha)) == ETag(sha) by { assert ETag(sha)[0] != "W/"[0]; }
    if weak == "W/" {
      assert (weak + ETag(sha))[2..] == ETag(sha);
      assert "W/" <= weak + ETag(sha);
    } else {
      assert weak + ETag(sha) == ETag(sha);
    }
    TagOpened(sha);
  }

  lemma TrimSkipsSpace(s: string)
    ensures Trim(" " + s) == Trim(s)
  {
    assert (" " + s)[1..] == s;
  }

  lemma TagPlain(pad: string, sha: string)
    requires Padding(pad) && HexDigest(sha)
    ensures ',' !in pad + ETag(sha) && HeaderText(pad + ETag(sha))
  {
    assert forall c :: c in sha ==> HexDigit(c);
  }

  lemma SplitOne(s: string)
    requires ',' !in s
    ensures Split(s) == [s]
  {
  }

  lemma SplitFirst(s: string, rest: string)
    requires ',' !in s
    ensures Split(s + "," + rest) == [s] + Split(rest)
  {
    var whole := s + "," + rest;
    assert whole[|s|] == ',' && whole[..|s|] == s && whole[|s| + 1..] == rest;
    FindCharAt(whole, ',', |s|);
  }

  /** A list of entity tags is read entry by entry. */
  lemma {:induction false} SplitTags(pad: string, shas: seq<string>)
    requires Padding(pad) && shas != [] && forall i :: 0 <= i < |shas| ==> HexDigest(shas[i])
    ensures var parts := Split(pad + ETagList(shas));
            && |parts| == |shas|
            && forall i :: 0 <= i < |shas| ==> OpaqueTag(parts[i]) == shas[i]
    ensures HeaderText(pad + ETagList(shas))
    decreases |shas|
  {
    hide HexDigest, OpaqueTag, ETag, Split, HeaderText, Padding;
    var head := pad + ETag(shas[0]);
    OpaqueOfTag(pad, shas[0]);
    TagPlain(pad, shas[0]);
    if |shas| == 1 {
      SplitOne(head);
    } else {
      SpacePads();
      SplitTags(" ", shas[1..]);
      var rest := " " + ETagList(shas[1..]);
      ListHead(pad, shas);
      SplitFirst(head, rest);
      HeaderConcat(head, rest);
      var parts := Split(head + "," + rest);
      assert forall i :: 0 < i < |shas| ==> parts[i] == Split(rest)[i - 1] && shas[i] == shas[1..][i - 1];
    }
  }

  lemma SpacePads()
    ensures Padding(" ")
  {
  }

  lemma ListHead(pad: string, shas: seq<string>)
    requires |shas| > 1
    ensures pad + ETagList(shas) == pad + ETag(shas[0]) + "," + (" " + ETagList(shas[1..]))
  {
    var rest := ETagList(shas[1..]);
    hide ETag, ETagList;
    assert ETagList(shas) == ETag(shas[0]) + ", " + rest by { ListUnfolds(shas); }
    Regroup(pad, ETag(shas[0]), rest);
  }

  lemma ListUnfolds(shas: seq<string>)
    requires |shas| > 1
    ensures ETagList(shas) == ETag(shas[0]) + ", " + ETagList(shas[1..])
  {
    hide ETag;
  }

  lemma Regroup(a: string, b: string, c: string)
    ensures a + (b + ", " + c) == a + b + "," + (" " + c)
  {
    var left, right := a + (b + ", " + c), a + b + "," + (" " + c);
    assert |left| == |right|;
    assert forall i :: 0 <= i < |left| ==> left[i] == right[i];
  }

  lemma HeaderConcat(head: string, rest: string)
    requires HeaderText(head) && HeaderText(rest)
    ensures HeaderText(head + "," + rest)
  {
  }

  lemma {:induction false} ListNotStar(pad: string, shas: seq<string>)
    requires Padding(pad) && shas != [] && forall i :: 0 <= i < |shas| ==> HexDigest(shas[i])
    ensures Trim(pad + ETagList(shas)) != "*"
  {
    hide Trim;
    var s := pad + ETagList(shas);
    var k := |pad|;
    assert s[k] == '"';
    QuoteNotStar(s, k);
  }

  lemma QuoteNotStar(s: string, k: nat)
    requires k < |s| && s[k] == '"'
    ensures Trim(s) != "*"
  {
    QuoteKeptByStart(s, k);
    QuoteKeptByEnd(TrimStart(s));
  }

  lemma {:induction false} QuoteKeptByStart(s: string, k: nat)
    requires k < |s| && s[k] == '"'
    ensures '"' in TrimStart(s)
    decreases |s|
  {
    if IsSpace(s[0]) {
      QuoteKeptByStart(s[1..], k - 1);
    }
  }

  lemma {:induction false} QuoteKeptByEnd(s: string)
    requires '"' in s
    ensures '"' in TrimEnd(s)
    decreases |s|
  {
    if IsSpace(s[|s| - 1]) {
      assert s == s[..|s| - 1] + [s[|s| - 1]];
      QuoteKeptByEnd(s[..|s| - 1]);
    }
  }

  /** A list of entity tags passes exactly when the current tag is one of them, weak or not at its head. */
  lemma TagListPasses(pad: string, shas: seq<string>, current: Option<string>)
    requires Padding(pad) && shas != [] && forall i :: 0 <= i < |shas| ==> HexDigest(shas[i])
    ensures CheckIfMatch(Some(pad + ETagList(shas)), current) == Pass <==> current.Some? && current.value in shas
  {
    hide HexDigest, OpaqueTag, ETagList, Split, HeaderText, Trim;
    SplitTags(pad, shas);
    ListNotStar(pad, shas);
    var header := pad + ETagList(shas);
    var parts := Split(header);
    if current.Some? && current.value in shas {
      var i :| 0 <= i < |shas| && shas[i] == current.value;
      assert current == Some(OpaqueTag(parts[i]));
    }
  }

  /** The tag a read returned passes exactly while it is the current one. */
  lemma TagPasses(sha: string, current: Option<string>)
    requires HexDigest(sha)
    ensures CheckIfMatch(Some(ETag(sha)), current) == Pass <==> current == Some(sha)
    ensures CheckIfMatch(Some(ETag(sha)), current) != Malformed
  {
    hide HexDigest, CheckIfMatch;
    TagListPasses("", [sha], current);
    SplitTags("", [sha]);
    assert "" + ETagList([sha]) == ETag(sha);
    NeverMalformed(ETag(sha), current);
  }

  lemma NeverMalformed(header: string, current: Option<string>)
    requires HeaderText(header)
    ensures CheckIfMatch(Some(header), current) != Malformed
  {
  }

  /**
   A weak tag is accepted like a strong one, where section 13.1.1 of RFC 9110 asks
   for the strong comparison, under which a weak tag never matches.
   */
  lemma WeakTagPasses(sha: string)
    requires HexDigest(sha)
    ensures CheckIfMatch(Some("W/" + ETag(sha)), Some(sha)) == Pass
  {
    hide HexDigest, CheckIfMatch;
    TagListPasses("W/", [sha], Some(sha));
  }

  // --------------------------------------------------------- guarded applies

  /** The text of the document a scope's applies replace. */
  function AuthorityText(w: World, st: State, scope: Scope): Option<string> {
    match scope
    case Whole =>
      if Latest(st.ledger, None).Some? then Some(Latest(st.ledger, None).value.content)
      else if w.appFile.Present? then Some(w.appFile.text)
      else None
    case Org(id) =>
      match FindOrg(w.bootstrap.organizations, id)
      case None => None
      case Some(org) =>
        match OrgAuthority(w, st.ledger, org)
        case None => None
        case Some(authority) => Some(authority.raw)
  }

  /** What a read returns as `ETag` and an apply compares with. */
  function CurrentTag(w: World, st: State, scope: Scope): Option<string> {
    match scope
    case Whole => st.published
    case Org(_) =>
      match AuthorityText(w, st, scope)
      case None => None
      case Some(raw) => Some(w.sha(raw))
  }

  datatype Answer = BadHeader | PreconditionFailed | AuthorityUnreadable | Served(outcome: Outcome)

  /** The apply routes: the header is checked under the apply lock, before the apply. */
  function Guarded(w: World, st: State, header: Option<string>, hint: Option<Format>, raw: string, scope: Scope,
                   fx: Faults): (State, Answer)
  {
    if !LedgerBootable(w) || (scope.Org? && !Accepts(w, scope)) then (st, Served(Refused))
    else if scope.Org? && CurrentTag(w, st, scope).None? then (st, AuthorityUnreadable)
    else match CheckIfMatch(header, CurrentTag(w, st, scope))
      case Malformed => (st, BadHeader)
      case Stale => (st, PreconditionFailed)
      case Pass =>
        var (s, o) := Handle(w, st, Push(hint, raw), scope, fx);
        (s, Served(o))
  }

  /** The published tag of a single-document process is the digest of the document that applies replace. */
  lemma TagIsDigest(w: World, st: State, scope: Scope)
    requires Inv(w, st) && Accepts(w, scope)
    ensures CurrentTag(w, st, scope) ==
            match AuthorityText(w, st, scope) case None => None case Some(raw) => Some(w.sha(raw))
  {
    hide Latest, NoTwins, Converged, Compose, OrgAuthority, RowSound;
    if scope == Whole && Latest(st.ledger, None).Some? {
      AppliedRowSound(w, st.ledger, None);
      DigestOf(w, Latest(st.ledger, None).value);
    }
  }

  function Digest(w: World, text: Option<string>): Option<string> {
    match text case None => None case Some(raw) => Some(w.sha(raw))
  }

  /**
   The text whose redacted form a read shows.  For a single document the source is
   decided by the revision metadata, which an apply refreshes only if it can.
   */
  function TextRead(w: World, showsLedger: bool, st: State, scope: Scope): Option<string> {
    if scope.Org? then AuthorityText(w, st, scope)
    else if showsLedger then
      match Latest(st.ledger, None) case None => None case Some(row) => Some(row.content)
    else if w.appFile.Present? then Some(w.appFile.text)
    else None
  }

  /**
   Tag and content of a read belong together exactly if the metadata knows of the
   ledger, or there is nothing in the ledger, or the app file has the same text.
   */
  lemma ReadBelongs(w: World, st: State)
    requires Lawful(w) && Inv(w, st) && Accepts(w, Whole)
    ensures CurrentTag(w, st, Whole) == Digest(w, TextRead(w, st.showsLedger, st, Whole)) <==>
            || st.showsLedger || Latest(st.ledger, None).None?
            || (w.appFile.Present? && w.appFile.text == Latest(st.ledger, None).value.content)
    ensures CurrentTag(w, st, Whole) == Digest(w, TextRead(w, st.showsLedger, st, Whole)) <==>
            TextRead(w, st.showsLedger, st, Whole) == AuthorityText(w, st, Whole)
  {
    hide Latest, LedgerSound, NoTwins, Converged, Compose, Accepts;
    TagIsDigest(w, st, Whole);
  }

  /** The metadata is as fresh as the ledger. */
  predicate ShowsAuthority(st: State) {
    st.showsLedger <==> Latest(st.ledger, None).Some?
  }

  lemma StepShows(w: World, st: State, e: Event)
    requires Accepts(w, Whole) && ShowsAuthority(st) && (e.Serve? ==> !e.fx.refreshFails)
    ensures ShowsAuthority(Step(w, st, e))
  {
    hide Apply, Handle, Compose, MergePushed, Resolve, Latest, Appends, BootIdentity;
    if e.Serve? && st.up {
      HandleIsApply(w, st, e.request, e.scope, e.fx);
      var sent := Sends(st, e.request, e.scope);
      if Accepts(w, e.scope) && sent.Some? {
        ApplyShape(w, st, sent.value.hint, sent.value.raw, e.scope, e.fx);
        AcceptsWholeOnly(w, e.scope);
        var (s, o) := Apply(w, st, sent.value.hint, sent.value.raw, e.scope, e.fx);
        if o.Recorded? {
          LatestAfterAppend(st.ledger, s.ledger[|st.ledger|]);
        } else if s.ledger != st.ledger {
          var body :| s.ledger == st.ledger + [Revision(None, body, w.sha(body), Rejected)];
          RejectedRowUnread(w, st.ledger, Revision(None, body, w.sha(body), Rejected));
        }
      }
    }
  }

  lemma AcceptsWholeOnly(w: World, scope: Scope)
    requires Accepts(w, Whole) && Accepts(w, scope)
    ensures scope == Whole
  {
  }

  /** As long as every refresh succeeds, tag and content of every read belong together, over every run. */
  lemma {:induction false} RunShowsAuthority(w: World, st: State, events: seq<Event>)
    requires Accepts(w, Whole) && ShowsAuthority(st)
    requires forall k :: 0 <= k < |events| && events[k].Serve? ==> !events[k].fx.refreshFails
    ensures ShowsAuthority(Run(w, st, events))
    ensures TextRead(w, Run(w, st, events).showsLedger, Run(w, st, events), Whole) == AuthorityText(w, Run(w, st, events), Whole)
    decreases |events|
  {
    hide Step, Latest;
    if events != [] {
      var last := |events| - 1;
      RunShowsAuthority(w, st, events[..last]);
      StepShows(w, Run(w, st, events[..last]), events[last]);
    }
  }

  /**
   No lost update: whatever applies, rollbacks, reloads and restarts happen
   between a read and an apply that carries the tag it returned, the apply is let
   through exactly when the document it replaces still has the text it had at the
   read; otherwise it changes nothing.
   */
  lemma NoLostUpdate(w: World, st: State, events: seq<Event>, hint: Option<Format>, raw: string, scope: Scope, fx: Faults)
    requires Lawful(w) && HexDigests(w.sha) && Inv(w, st) && Accepts(w, scope) && Compensated(w, st, events)
    requires CurrentTag(w, st, scope).Some? && Run(w, st, events).up
    ensures var now := Run(w, st, events);
            var (s, a) := Guarded(w, now, Some(ETag(CurrentTag(w, st, scope).value)), hint, raw, scope, fx);
            && (a.Served? <==> AuthorityText(w, now, scope) == AuthorityText(w, st, scope))
            && (a.Served? ==> (s, a.outcome) == Handle(w, now, Push(hint, raw), scope, fx))
            && (!a.Served? ==> s == now)
  {
    hide Handle, Inv, Run, AuthorityText, CheckIfMatch, HexDigest, CurrentTag, Compensated;
    var now := Run(w, st, events);
    RunKeepsInv(w, st, events);
    TagIsDigest(w, st, scope);
    TagIsDigest(w, now, scope);
    TagPasses(CurrentTag(w, st, scope).value, CurrentTag(w, now, scope));
    AcceptsBootable(w, scope);
  }

  lemma AcceptsBootable(w: World, scope: Scope)
    requires Accepts(w, scope)
    ensures LedgerBootable(w)
  {
  }

  /**
   A whole-document read takes its tag, and where the content is to come from, in one
   step and the content in another, with anything in between.  The apply that follows
   replaces a document other than the one that was read exactly if the authority is
   back at the text of the tag and the content read was another.
   */
  lemma SplitRead(w: World, st: State, between: seq<Event>, events: seq<Event>, hint: Option<Format>, raw: string,
                  fx: Faults)
    requires Lawful(w) && HexDigests(w.sha) && Inv(w, st) && Accepts(w, Whole) && CurrentTag(w, st, Whole).Some?
    requires Compensated(w, st, between) && Compensated(w, Run(w, st, between), events)
    requires Run(w, Run(w, st, between), events).up
    ensures var mid := Run(w, st, between);
            var now := Run(w, mid, events);
            var read := TextRead(w, st.showsLedger, mid, Whole);
            var a := Guarded(w, now, Some(ETag(CurrentTag(w, st, Whole).value)), hint, raw, Whole, fx).1;
            && (a.Served? && AuthorityText(w, now, Whole) != read <==>
                AuthorityText(w, now, Whole) == AuthorityText(w, st, Whole) != read)
            && (a.Served? && st.showsLedger ==>
                  (AuthorityText(w, now, Whole) == read <==> AuthorityText(w, mid, Whole) == AuthorityText(w, st, Whole)))
  {
    hide Handle, Run, CheckIfMatch, HexDigest, CurrentTag, Compensated, Latest, LedgerSound, NoTwins, Converged;
    var mid := Run(w, st, between);
    var now := Run(w, mid, events);
    RunKeepsInv(w, st, between);
    RunKeepsInv(w, mid, events);
    TagIsDigest(w, st, Whole);
    TagIsDigest(w, now, Whole);
    TagPasses(CurrentTag(w, st, Whole).value, CurrentTag(w, now, Whole));
    AcceptsBootable(w, Whole);
    if st.showsLedger {
      RunKeepsRows(w, st, between);
    }
  }

  /** A ledger that has a row for a stream keeps having one. */
  lemma {:induction false} RunKeepsRows(w: World, st: State, events: seq<Event>)
    requires Latest(st.ledger, None).Some?
    ensures Latest(Run(w, st, events).ledger, None).Some?
    decreases |events|
  {
    hide Step, Latest;
    if events != [] {
      var last := |events| - 1;
      var before := Run(w, st, events[..last]);
      RunKeepsRows(w, st, events[..last]);
      LedgerAppendOnly(w, before, events[last]);
      if Step(w, before, events[last]).ledger != before.ledger {
        var row :| Step(w, before, events[last]).ledger == before.ledger + [row];
        AppendKeepsLatest(before.ledger, row);
      }
    }
  }

  /** An instance: a rollback between the two halves of the read and another one behind them. */
  lemma TornReadPasses(w: World, st: State, fx: Faults, fx': Faults)
    requires Lawful(w) && HexDigests(w.sha) && Inv(w, st) && RowsFixed(w, st.ledger)
    requires Handle(w, st, Undo, Whole, fx).1.Recorded?
    requires Repeatable(w, st, Whole, Previous(st.ledger, None).value)
    requires var s := Handle(w, st, Undo, Whole, fx).0;
             && Handle(w, s, Undo, Whole, fx').1.Recorded?
             && Repeatable(w, s, Whole, Previous(s.ledger, None).value)
    ensures var s := Handle(w, st, Undo, Whole, fx).0;
            var t := Handle(w, s, Undo, Whole, fx').0;
            && CurrentTag(w, st, Whole).Some?
            && CheckIfMatch(Some(ETag(CurrentTag(w, st, Whole).value)), CurrentTag(w, t, Whole)) == Pass
            && AuthorityText(w, s, Whole) != AuthorityText(w, t, Whole)
  {
    hide Handle, Inv, Repeatable, RowsFixed, CheckIfMatch, HexDigest, Latest, Previous, RowSound;
    var s := Handle(w, st, Undo, Whole, fx).0;
    var t := Handle(w, s, Undo, Whole, fx').0;
    RollbackToggles(w, st, Whole, fx, fx');
    RollbackAppends(w, st, Whole, fx);
    RollbackIsApply(w, st, Whole, fx);
    NeighboursApart(w, st, None);
    TagIsDigest(w, st, Whole);
    TagPasses(CurrentTag(w, st, Whole).value, CurrentTag(w, t, Whole));
  }

  // ------------------------------------------------------------ other headers

  /** Without the header every apply is let through; a star is while any document is published. */
  lemma UnguardedPasses(current: Option<string>)
    ensures CheckIfMatch(None, current) == Pass
    ensures CheckIfMatch(Some("*"), current) == Pass <==> current.Some?
    ensures CheckIfMatch(Some(" * "), current) == CheckIfMatch(Some("*"), current)
  {
    assert Trim("*") == "*" by { assert Trimmed("*"); }
    assert Trim(" * ") == "*" by {
      assert " * "[1..] == "* " && "* "[..1] == "*";
    }
  }

  /** A header is malformed exactly if it holds a character other than a tab or visible ASCII. */
  lemma MalformedExactly(header: string, current: Option<string>)
    ensures CheckIfMatch(Some(header), current) == Malformed <==>
            exists c :: c in header && c != '\t' && !(' ' <= c <= '~')
  {
  }
}
