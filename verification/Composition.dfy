/**
 Where desired state comes from: the ledger, the files, and the composition of
 every organization's document into one runtime configuration
 (src/config/resolve.rs, src/store/postgres/config_revision.rs).
 */
module Composition {
  import opened Text
  import opened Settings
  import opened SecretRefs
  import opened Namespaces
  import SecretMeaning

  // ------------------------------------------------------------------- world

  datatype Format = Toml | Yaml

  /** The single-document app file: absent path, missing file, or its text. */
  datatype AppFile = NoPath | Missing | Present(text: string, format: Option<Format>)

  /**
   What the engine runs against: the bootstrap configuration, the files and the
   process variables, which only a restart re-reads, and the functions the code
   calls.  `valid` may look up secrets in the vault; `watchable` says whether a
   source becomes a watch under the defaults and presets, and `fits` whether a
   sink's constructor takes its options and resolved secrets, apart from the
   credentials it demands.
   */
  datatype World = World(
    bootstrap: Config,
    overlay: Overlay,
    appFile: AppFile,
    orgFiles: map<string, string>,
    vars: map<string, string>,
    json: Json,
    sha: string -> string,
    detect: string -> Format,
    parse: (Option<Format>, string) -> Option<Config>,
    render: (Format, Desired) -> string,
    valid: (Config, map<string, string>) -> bool,
    watchable: (Defaults, seq<NamedPreset>, Source) -> bool,
    fits: (Notifier, seq<SecretMeaning.Meaning>) -> bool)

  /** `EMPTY_ORGANIZATION_DOCUMENT` */
  const EMPTY_DOCUMENT := "{}\n"

  /** The presets are a map's entries in key order: what a document's text can stand for. */
  predicate Canonical(d: Desired) {
    forall i, j :: 0 <= i < j < |d.presets| ==> TextLess(d.presets[i].name, d.presets[j].name)
  }

  /**
   Printing and parsing desired documents are inverse, whatever format the caller
   claims: parsing falls back to the other format when the claimed one fails.
   Parsed presets come out in key order.
   */
  ghost predicate ParsesPrinted(w: World) {
    && (forall f, d, hint :: Canonical(d) ==> w.parse(hint, w.render(f, d)) == Some(DesiredOnly(d)))
    && (forall hint, raw :: w.parse(hint, raw).Some? ==> Canonical(w.parse(hint, raw).value.desired))
  }

  /** Neither document format admits a raw NUL. */
  ghost predicate RejectsNul(w: World) {
    forall hint, raw :: w.parse(hint, raw).Some? ==> NulFree(raw)
  }

  /** No two documents share a digest. */
  ghost predicate Injective(sha: string -> string) {
    forall a, b :: sha(a) == sha(b) ==> a == b
  }

  /** The bootstrap file was loaded with the environment overlaid and without application sections. */
  predicate Booted(w: World) {
    w.bootstrap.infra == OverlayInfra(w.overlay, w.bootstrap.infra)
  }

  ghost predicate Lawful(w: World) {
    ParsesPrinted(w) && Injective(w.sha) && Booted(w) && JsonInverse(w.json)
  }

  predicate LedgerBootable(w: World) {
    w.bootstrap.infra.authority == ApiLedger
  }

  // ------------------------------------------------------------------ ledger

  datatype Status = Applied | Rejected

  /** One `config_revision` row; `None` is the single-document stream. */
  datatype Revision = Revision(stream: Option<string>, content: string, sha: string, status: Status)

  /** The applied rows of one stream, oldest first. */
  function AppliedRows(ledger: seq<Revision>, stream: Option<string>): (rows: seq<Revision>)
    ensures |rows| <= |ledger|
    ensures forall i :: 0 <= i < |rows| ==> rows[i] in ledger && rows[i].stream == stream && rows[i].status == Applied
  {
    if ledger == [] then []
    else
      var last := |ledger| - 1;
      var before := AppliedRows(ledger[..last], stream);
      assert forall i :: 0 <= i < |before| ==> before[i] in ledger;
      if ledger[last].stream == stream && ledger[last].status == Applied
      then before + [ledger[last]] else before
  }

  /** `latest_applied_config_revision` */
  function Latest(ledger: seq<Revision>, stream: Option<string>): Option<Revision> {
    var rows := AppliedRows(ledger, stream);
    if rows == [] then None else Some(rows[|rows| - 1])
  }

  /** `previous_applied_config_revision` */
  function Previous(ledger: seq<Revision>, stream: Option<string>): Option<Revision> {
    var rows := AppliedRows(ledger, stream);
    if |rows| < 2 then None else Some(rows[|rows| - 2])
  }

  lemma AppliedAfterAppend(ledger: seq<Revision>, row: Revision, stream: Option<string>)
    ensures AppliedRows(ledger + [row], stream) ==
            if row.stream == stream && row.status == Applied then AppliedRows(ledger, stream) + [row]
            else AppliedRows(ledger, stream)
  {
    assert (ledger + [row])[..|ledger|] == ledger;
  }

  // -------------------------------------------------------------- authority

  datatype DesiredSource = FromLedger | FromFile | FromNothing

  datatype Authority = Authority(raw: string, source: DesiredSource)

  function AppPath(org: Organization): Option<string> {
    if org.app.None? || Blank(org.app.value) then None else Some(Trim(org.app.value))
  }

  /** `organization_desired_raw`; `None` is its error. */
  function OrgAuthority(w: World, ledger: seq<Revision>, org: Organization): Option<Authority> {
    if LedgerBootable(w) && Latest(ledger, Some(org.id)).Some?
    then Some(Authority(Latest(ledger, Some(org.id)).value.content, FromLedger))
    else match AppPath(org)
      case Some(path) => if path in w.orgFiles then Some(Authority(w.orgFiles[path], FromFile)) else None
      case None => if LedgerBootable(w) then Some(Authority(EMPTY_DOCUMENT, FromNothing)) else None
  }

  // ------------------------------------------------------------ composition

  datatype Override = Override(org: string, document: string)

  /** The document an organization contributes: the override if it is the one addressed. */
  function Contribution(w: World, ledger: seq<Revision>, override: Option<Override>, org: Organization)
    : Option<Authority>
  {
    if override.Some? && override.value.org == org.id then Some(Authority(override.value.document, FromLedger))
    else OrgAuthority(w, ledger, org)
  }

  /** The accumulators of the composition loop. */
  datatype Progress = Progress(
    merged: Desired,
    identity: string,
    strictest: Option<nat>,
    seen: set<string>,
    sources: seq<DesiredSource>)

  const START := Progress(NOTHING_DESIRED, "", None, {}, [])

  function Strictest(so: Option<nat>, rpm: nat): Option<nat> {
    if rpm == 0 then so else if so.Some? && so.value <= rpm then so else Some(rpm)
  }

  function Entry(id: string, raw: string): string {
    id + ['\0'] + raw + ['\0']
  }

  function MergeOne(p: Progress, id: string, a: Authority, d: Desired): Progress {
    var n := NamespaceDesired(id, d);
    Progress(
      Desired(
        if p.sources == [] && HasDesiredState(n) then n.defaults else p.merged.defaults,
        p.merged.notifiers + n.notifiers,
        p.merged.teams + n.teams,
        InsertPresets(p.merged.presets, n.presets),
        p.merged.sources + n.sources),
      p.identity + Entry(id, a.raw),
      if HasDesiredState(n) then Strictest(p.strictest, n.defaults.upstreamRpm) else p.strictest,
      p.seen + {id},
      p.sources + [a.source])
  }

  /** The application layer an organization's document stands for, if it may be composed. */
  function ComposableDesired(w: World, a: Authority): Option<Desired> {
    match w.parse(None, a.raw)
    case None => None
    case Some(c) =>
      var d := OverlayDesired(w.overlay, c.desired);
      if !IsDesiredOnly(c) || (a.source != FromNothing && !HasDesiredState(d)) then None else Some(d)
  }

  /** One turn of the loop. */
  function ComposeOne(w: World, p: Progress, id: string, a: Option<Authority>): Option<Progress> {
    if id == "" || id in p.seen || a.None? then None
    else match ComposableDesired(w, a.value)
      case None => None
      case Some(d) => Some(MergeOne(p, id, a.value, d))
  }

  /** The accumulators after the first `k` organizations. */
  function ComposeFirst(w: World, ledger: seq<Revision>, override: Option<Override>, k: nat): Option<Progress>
    requires k <= |w.bootstrap.organizations|
  {
    if k == 0 then Some(START)
    else match ComposeFirst(w, ledger, override, k - 1)
      case None => None
      case Some(p) =>
        var org := w.bootstrap.organizations[k - 1];
        ComposeOne(w, p, org.id, Contribution(w, ledger, override, org))
  }

  predicate Catalogued(w: World, id: string) {
    exists k :: 0 <= k < |w.bootstrap.organizations| && w.bootstrap.organizations[k].id == id
  }

  datatype Composed = Composed(merged: Config, identity: string, sources: seq<DesiredSource>)

  function Finish(w: World, p: Progress): Option<Composed> {
    var d := if p.strictest.Some? then p.merged.(defaults := p.merged.defaults.(upstreamRpm := p.strictest.value))
             else p.merged;
    if d.sources == [] && d.notifiers == [] && !LedgerBootable(w) then None
    else Some(Composed(MergeBootstrap(w.bootstrap, DesiredOnly(d)), w.sha(p.identity), p.sources))
  }

  /** `compose_organizations`; `None` is its error. */
  function Compose(w: World, ledger: seq<Revision>, override: Option<Override>): Option<Composed> {
    match ComposeFirst(w, ledger, override, |w.bootstrap.organizations|)
    case None => None
    case Some(p) => if override.Some? && !Catalogued(w, override.value.org) then None else Finish(w, p)
  }

  /** The composition loop as the code runs it, with early exit on the first fault. */
  method ComposeOrganizations(w: World, ledger: seq<Revision>, override: Option<Override>)
    returns (composed: Option<Composed>)
    ensures composed == Compose(w, ledger, override)
  {
    hide NamespaceDesired, ComposableDesired, OrgAuthority, MergeOne;
    var orgs := w.bootstrap.organizations;
    var p := START;
    var overrideUsed := override.None?;
    var k := 0;
    while k < |orgs|
      invariant 0 <= k <= |orgs|
      invariant ComposeFirst(w, ledger, override, k) == Some(p)
      invariant overrideUsed <==> override.None? || exists j :: 0 <= j < k && orgs[j].id == override.value.org
    {
      var id := orgs[k].id;
      var authority;
      if override.Some? && override.value.org == id {
        overrideUsed := true;
        authority := Some(Authority(override.value.document, FromLedger));
      } else {
        authority := OrgAuthority(w, ledger, orgs[k]);
      }
      var next := ComposeOne(w, p, id, authority);
      if next.None? {
        ComposeStuck(w, ledger, override, k + 1);
        return None;
      }
      p := next.value;
      k := k + 1;
    }
    if !overrideUsed {
      return None;
    }
    composed := Finish(w, p);
  }

  lemma {:induction false} ComposeStuck(w: World, ledger: seq<Revision>, override: Option<Override>, k: nat)
    requires k <= |w.bootstrap.organizations| && ComposeFirst(w, ledger, override, k) == None
    ensures ComposeFirst(w, ledger, override, |w.bootstrap.organizations|) == None
    decreases |w.bootstrap.organizations| - k
  {
    hide ComposeOne, Contribution;
    if k < |w.bootstrap.organizations| {
      ComposeStuck(w, ledger, override, k + 1);
    }
  }

  lemma {:induction false} ComposeCongruent(w: World, ledger: seq<Revision>, override: Option<Override>,
                                            ledger': seq<Revision>, override': Option<Override>, k: nat)
    requires k <= |w.bootstrap.organizations|
    requires forall j :: 0 <= j < k ==>
               Contribution(w, ledger, override, w.bootstrap.organizations[j])
               == Contribution(w, ledger', override', w.bootstrap.organizations[j])
    ensures ComposeFirst(w, ledger, override, k) == ComposeFirst(w, ledger', override', k)
    decreases k
  {
    hide ComposeOne, Contribution;
    if k > 0 {
      ComposeCongruent(w, ledger, override, ledger', override', k - 1);
    }
  }

  /**
   What an apply validates is what a restart composes: an override for one
   organization gives the configuration and identity that composing gives once
   that document is the organization's newest applied row, for every catalogue
   and every state of the other organizations.
   */
  lemma OverrideIsNextAuthority(w: World, ledger: seq<Revision>, id: string, document: string)
    requires LedgerBootable(w) && Catalogued(w, id)
    ensures Compose(w, ledger, Some(Override(id, document)))
            == Compose(w, ledger + [Revision(Some(id), document, w.sha(document), Applied)], None)
  {
    var row := Revision(Some(id), document, w.sha(document), Applied);
    var override := Some(Override(id, document));
    forall j | 0 <= j < |w.bootstrap.organizations|
      ensures Contribution(w, ledger, override, w.bootstrap.organizations[j])
              == Contribution(w, ledger + [row], None, w.bootstrap.organizations[j])
    {
      AppliedAfterAppend(ledger, row, Some(w.bootstrap.organizations[j].id));
    }
    hide Contribution, Finish;
    ComposeCongruent(w, ledger, override, ledger + [row], None, |w.bootstrap.organizations|);
  }

  /** A document for an organization outside the catalogue is never composed. */
  lemma UnknownOrganizationFails(w: World, ledger: seq<Revision>, id: string, document: string)
    ensures Compose(w, ledger, Some(Override(id, document))).Some? ==> Catalogued(w, id)
  {
  }

  /** Rows of other streams and rejected rows are not read. */
  lemma ComposeIgnoresRow(w: World, ledger: seq<Revision>, row: Revision)
    requires row.status == Rejected || row.stream == None
    ensures Compose(w, ledger + [row], None) == Compose(w, ledger, None)
  {
    forall j | 0 <= j < |w.bootstrap.organizations|
      ensures Contribution(w, ledger, None, w.bootstrap.organizations[j])
              == Contribution(w, ledger + [row], None, w.bootstrap.organizations[j])
    {
      AppliedAfterAppend(ledger, row, Some(w.bootstrap.organizations[j].id));
    }
    hide Contribution, Finish;
    ComposeCongruent(w, ledger, None, ledger + [row], None, |w.bootstrap.organizations|);
  }

  // ---------------------------------------------------------------- identity

  function Identity(entries: seq<(string, string)>): string {
    if entries == [] then ""
    else
      var last := |entries| - 1;
      Identity(entries[..last]) + Entry(entries[last].0, entries[last].1)
  }

  predicate NulFree(s: string) {
    '\0' !in s
  }

  lemma {:induction false} IdentityFront(entries: seq<(string, string)>)
    requires entries != []
    ensures Identity(entries) == Entry(entries[0].0, entries[0].1) + Identity(entries[1..])
    decreases |entries|
  {
    hide Entry, Identity;
    var last := |entries| - 1;
    var head, tail := Entry(entries[0].0, entries[0].1), Entry(entries[last].0, entries[last].1);
    IdentitySnoc(entries);
    IdentityEmpty();
    if last == 0 {
      assert entries[1..] == [] && entries[..0] == [];
      assert "" + head == head + "";
    } else {
      IdentityFront(entries[..last]);
      IdentitySnoc(entries[1..]);
      var mid := Identity(entries[1..][..last - 1]);
      assert entries[..last][1..] == entries[1..][..last - 1];
      assert head + mid + tail == head + (mid + tail);
    }
  }

  lemma EntrySplit(id: string, raw: string, raw': string, rest: string, rest': string)
    requires NulFree(raw) && NulFree(raw') && Entry(id, raw) + rest == Entry(id, raw') + rest'
    ensures raw == raw' && rest == rest'
  {
    var head := id + ['\0'];
    assert Entry(id, raw) + rest == head + (raw + ['\0'] + rest);
    assert Entry(id, raw') + rest' == head + (raw' + ['\0'] + rest');
    assert raw + ['\0'] + rest == (head + (raw + ['\0'] + rest))[|head|..];
    assert raw' + ['\0'] + rest' == (head + (raw' + ['\0'] + rest'))[|head|..];
    PrefixUnique('\0', raw, raw', rest, rest');
  }

  /** Over one catalogue, equal identities mean equal documents, as long as no document contains a NUL. */
  lemma {:induction false} IdentityInjective(a: seq<(string, string)>, b: seq<(string, string)>)
    requires |a| == |b| && forall i :: 0 <= i < |a| ==> a[i].0 == b[i].0 && NulFree(a[i].1) && NulFree(b[i].1)
    requires Identity(a) == Identity(b)
    ensures a == b
    decreases |a|
  {
    if a != [] {
      IdentityFront(a);
      IdentityFront(b);
      EntrySplit(a[0].0, a[0].1, b[0].1, Identity(a[1..]), Identity(b[1..]));
      IdentityInjective(a[1..], b[1..]);
      assert a == [a[0]] + a[1..] && b == [b[0]] + b[1..];
    }
  }

  /** The encoding alone needs that premise: with a NUL inside, two different pairs of texts are encoded alike. */
  lemma NulForgesIdentity(first: string, second: string, x: string, y: string, z: string)
    ensures var a := [(first, x + ['\0'] + second + ['\0'] + y), (second, z)];
            var b := [(first, x), (second, y + ['\0'] + second + ['\0'] + z)];
            Identity(a) == Identity(b)
  {
    var n := ['\0'];
    IdentityOfTwo(first, x + n + second + n + y, second, z);
    IdentityOfTwo(first, x, second, y + n + second + n + z);
    assert Entry(first, x + n + second + n + y) + Entry(second, z)
           == Entry(first, x) + Entry(second, y + n + second + n + z);
  }

  lemma IdentityOfTwo(id: string, raw: string, id': string, raw': string)
    ensures Identity([(id, raw), (id', raw')]) == Entry(id, raw) + Entry(id', raw')
  {
    hide Entry;
    var two := [(id, raw), (id', raw')];
    IdentityFront(two);
    assert two[1..] == [(id', raw')];
    IdentityFront([(id', raw')]);
    assert Entry(id', raw') + "" == Entry(id', raw');
  }

  /** The text an organization contributes to the identity. */
  function ContributedText(w: World, ledger: seq<Revision>, override: Option<Override>, org: Organization): string {
    match Contribution(w, ledger, override, org)
    case None => ""
    case Some(a) => a.raw
  }

  /** The pairs whose concatenation a composition hashes. */
  function Entries(w: World, ledger: seq<Revision>, override: Option<Override>, k: nat): seq<(string, string)>
    requires k <= |w.bootstrap.organizations|
  {
    if k == 0 then []
    else
      var org := w.bootstrap.organizations[k - 1];
      Entries(w, ledger, override, k - 1) + [(org.id, ContributedText(w, ledger, override, org))]
  }

  lemma {:induction false} IdentityOfProgress(w: World, ledger: seq<Revision>, override: Option<Override>, k: nat)
    requires k <= |w.bootstrap.organizations| && ComposeFirst(w, ledger, override, k).Some?
    ensures ComposeFirst(w, ledger, override, k).value.identity == Identity(Entries(w, ledger, override, k))
    ensures |Entries(w, ledger, override, k)| == k
    ensures forall j :: 0 <= j < k ==>
              Entries(w, ledger, override, k)[j] ==
              (w.bootstrap.organizations[j].id, ContributedText(w, ledger, override, w.bootstrap.organizations[j]))
    decreases k
  {
    hide NamespaceDesired, ComposableDesired, Contribution, Entry, Identity;
    if k > 0 {
      IdentityOfProgress(w, ledger, override, k - 1);
      var entries := Entries(w, ledger, override, k);
      assert entries[..k - 1] == Entries(w, ledger, override, k - 1);
      IdentitySnoc(entries);
    } else {
      IdentityEmpty();
    }
  }

  lemma IdentitySnoc(entries: seq<(string, string)>)
    requires entries != []
    ensures var last := |entries| - 1;
            Identity(entries) == Identity(entries[..last]) + Entry(entries[last].0, entries[last].1)
  {
  }

  lemma IdentityEmpty()
    ensures Identity([]) == ""
  {
  }

  /**
   Two compositions over one catalogue have equal identities exactly when every
   organization contributes the same document.
   */
  lemma EqualIdentityEqualDocuments(w: World, ledger: seq<Revision>, override: Option<Override>,
                                    ledger': seq<Revision>, override': Option<Override>)
    requires Injective(w.sha)
    requires Compose(w, ledger, override).Some? && Compose(w, ledger', override').Some?
    requires forall j :: 0 <= j < |w.bootstrap.organizations| ==>
               && NulFree(ContributedText(w, ledger, override, w.bootstrap.organizations[j]))
               && NulFree(ContributedText(w, ledger', override', w.bootstrap.organizations[j]))
    ensures Compose(w, ledger, override).value.identity == Compose(w, ledger', override').value.identity <==>
            forall j :: 0 <= j < |w.bootstrap.organizations| ==>
              ContributedText(w, ledger, override, w.bootstrap.organizations[j])
              == ContributedText(w, ledger', override', w.bootstrap.organizations[j])
  {
    hide ContributedText, ComposeOne, ComposeFirst, Entries, Identity;
    var n := |w.bootstrap.organizations|;
    IdentityOfProgress(w, ledger, override, n);
    IdentityOfProgress(w, ledger', override', n);
    var a, b := Entries(w, ledger, override, n), Entries(w, ledger', override', n);
    if Identity(a) == Identity(b) {
      IdentityInjective(a, b);
    } else {
      assert a != b;
      var j :| 0 <= j < n && a[j] != b[j];
    }
  }

  lemma {:induction false} ComposedTextsParse(w: World, ledger: seq<Revision>, override: Option<Override>, k: nat)
    requires k <= |w.bootstrap.organizations| && ComposeFirst(w, ledger, override, k).Some?
    ensures forall j :: 0 <= j < k ==>
              w.parse(None, ContributedText(w, ledger, override, w.bootstrap.organizations[j])).Some?
    decreases k
  {
    hide NamespaceDesired, Contribution, MergeOne, HasDesiredState;
    if k > 0 {
      ComposedTextsParse(w, ledger, override, k - 1);
    }
  }

  /** What composes parses, so no contributed document holds a NUL and the premise of the law above is met. */
  lemma IdentityDeterminesDocuments(w: World, ledger: seq<Revision>, override: Option<Override>,
                                    ledger': seq<Revision>, override': Option<Override>)
    requires Injective(w.sha) && RejectsNul(w)
    requires Compose(w, ledger, override).Some? && Compose(w, ledger', override').Some?
    ensures Compose(w, ledger, override).value.identity == Compose(w, ledger', override').value.identity <==>
            forall j :: 0 <= j < |w.bootstrap.organizations| ==>
              ContributedText(w, ledger, override, w.bootstrap.organizations[j])
              == ContributedText(w, ledger', override', w.bootstrap.organizations[j])
  {
    hide ComposeFirst, ContributedText, NulFree;
    ComposedTextsParse(w, ledger, override, |w.bootstrap.organizations|);
    ComposedTextsParse(w, ledger', override', |w.bootstrap.organizations|);
    EqualIdentityEqualDocuments(w, ledger, override, ledger', override');
  }

  // ------------------------------------------------------------ upstream cap

  /** The caps the composed documents declare, in catalogue order; an undeclared cap is 0. */
  function Caps(w: World, ledger: seq<Revision>, override: Option<Override>, k: nat): seq<nat>
    requires k <= |w.bootstrap.organizations|
  {
    if k == 0 then []
    else
      var a := Contribution(w, ledger, override, w.bootstrap.organizations[k - 1]);
      var d := if a.Some? then ComposableDesired(w, a.value) else None;
      Caps(w, ledger, override, k - 1) + [if d.Some? then d.value.defaults.upstreamRpm else 0]
  }

  /** The least non-zero cap of any organization, or 0 if none declares one. */
  predicate IsStrictest(cap: nat, caps: seq<nat>) {
    && (cap == 0 <==> forall j :: 0 <= j < |caps| ==> caps[j] == 0)
    && (cap != 0 ==> cap in caps)
    && (forall j :: 0 <= j < |caps| ==> caps[j] == 0 || cap <= caps[j])
  }

  lemma NamespaceKeepsCap(id: string, d: Desired)
    ensures NamespaceDesired(id, d).defaults.upstreamRpm == d.defaults.upstreamRpm
    ensures d.defaults.upstreamRpm != 0 ==> HasDesiredState(NamespaceDesired(id, d))
  {
  }

  lemma {:induction false} StrictestSoFar(w: World, ledger: seq<Revision>, override: Option<Override>, k: nat)
    requires k <= |w.bootstrap.organizations| && ComposeFirst(w, ledger, override, k).Some?
    ensures var p := ComposeFirst(w, ledger, override, k).value;
            var caps := Caps(w, ledger, override, k);
            && |caps| == k && |p.sources| == k
            && p.strictest != Some(0)
            && IsStrictest(if p.strictest.Some? then p.strictest.value else 0, caps)
            && (p.strictest.None? ==> p.merged.defaults.upstreamRpm == 0)
    decreases k
  {
    hide NamespaceDesired, ComposableDesired, Contribution, Entry, HasDesiredState, InsertPresets;
    if k > 0 {
      StrictestSoFar(w, ledger, override, k - 1);
      var before := Caps(w, ledger, override, k - 1);
      var caps := Caps(w, ledger, override, k);
      var org := w.bootstrap.organizations[k - 1];
      var d := ComposableDesired(w, Contribution(w, ledger, override, org).value).value;
      NamespaceKeepsCap(org.id, d);
      assert caps == before + [d.defaults.upstreamRpm];
      assert forall j :: 0 <= j < k - 1 ==> caps[j] == before[j];
      assert caps[k - 1] == d.defaults.upstreamRpm;
    }
  }

  /** The process-wide upstream cap of a composition is the strictest any organization declares. */
  lemma CapIsStrictest(w: World, ledger: seq<Revision>, override: Option<Override>)
    requires Compose(w, ledger, override).Some?
    ensures IsStrictest(Compose(w, ledger, override).value.merged.desired.defaults.upstreamRpm,
                        Caps(w, ledger, override, |w.bootstrap.organizations|))
  {
    hide ComposeOne, Contribution, ComposableDesired, Caps;
    StrictestSoFar(w, ledger, override, |w.bootstrap.organizations|);
  }

  /** So the order of the catalogue does not matter. */
  lemma StrictestIgnoresOrder(cap: nat, caps: seq<nat>, cap': nat, caps': seq<nat>)
    requires IsStrictest(cap, caps) && IsStrictest(cap', caps') && multiset(caps) == multiset(caps')
    ensures cap == cap'
  {
    forall c | c in caps ensures c in caps' { assert c in multiset(caps); }
    forall c | c in caps' ensures c in caps { assert c in multiset(caps'); }
  }

  // -------------------------------------------------------------------- boot

  /** `merge_pushed_document`; `None` is its error. */
  function MergePushed(w: World, hint: Option<Format>, raw: string): Option<Config> {
    match w.parse(hint, raw)
    case None => None
    case Some(c) =>
      if IsDesiredOnly(c) then Some(OverlayConfig(w.overlay, MergeBootstrap(w.bootstrap, c))) else None
  }

  /** The desired configuration of one document, as boot reads it. */
  function BootDocument(w: World, hint: Option<Format>, raw: string): Option<Config> {
    match w.parse(hint, raw)
    case None => None
    case Some(c) =>
      if IsDesiredOnly(c) then Some(MergeBootstrap(w.bootstrap, OverlayConfig(w.overlay, c))) else None
  }

  /** `resolve`: what a process started now would run; `None` when it refuses to start. */
  function Resolve(w: World, ledger: seq<Revision>): Option<Config> {
    if w.bootstrap.organizations != [] then
      match Compose(w, ledger, None) case None => None case Some(c) => Some(c.merged)
    else if LedgerBootable(w) && Latest(ledger, None).Some? then
      BootDocument(w, None, Latest(ledger, None).value.content)
    else
      var idle := Some(MergeBootstrap(w.bootstrap, DesiredOnly(NOTHING_DESIRED)));
      match w.appFile
      case Present(text, format) =>
        (match BootDocument(w, format, text)
         case None => None
         case Some(c) => if HasDesiredState(c.desired) then Some(c) else if LedgerBootable(w) then idle else None)
      case _ => if LedgerBootable(w) then idle else None
  }

  /** Merging bootstrap and overlaying the environment commute, because the bootstrap was overlaid when loaded. */
  lemma PushedIsBooted(w: World, hint: Option<Format>, raw: string)
    requires Booted(w)
    ensures MergePushed(w, hint, raw) == BootDocument(w, hint, raw)
  {
  }
}
