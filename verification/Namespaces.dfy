/**
 Confining each organization's routing tags, source ids and presets to its own
 namespace before the documents of all organizations are merged
 (src/config/organizations.rs, src/config/sources/mod.rs, src/notify/routing.rs).
 */
module Namespaces {
  import opened Text
  import opened Settings
  import opened Restoration

  const SEPARATOR := "::"
  const BROADCAST := "__org__"

  function Prefix(org: string): string {
    org + SEPARATOR
  }

  /** `namespace_scoped`: prefixes exactly once. */
  function Scoped(org: string, value: string): string {
    var trimmed := Trim(value);
    if Prefix(org) <= trimmed then trimmed else Prefix(org) + trimmed
  }

  /** The name inside the organization: trimmed, and without its own prefix if it already carries it. */
  function Bare(org: string, value: string): string {
    var trimmed := Trim(value);
    if Prefix(org) <= trimmed then trimmed[|Prefix(org)|..] else trimmed
  }

  /** `organization_id_from_source_id` */
  function OrgOf(id: string): Option<string> {
    match Find(id, SEPARATOR)
    case None => None
    case Some(i) => if i == 0 then None else Some(id[..i])
  }

  /** An organization id that its own prefix gives back. */
  predicate ProperId(org: string) {
    org != "" && !Contains(org + ":", SEPARATOR)
  }

  // ---------------------------------------------------------------- prefixes

  lemma ScopedIsPrefixed(org: string, value: string)
    ensures Scoped(org, value) == Prefix(org) + Bare(org, value)
  {
    var trimmed := Trim(value);
    if Prefix(org) <= trimmed {
      assert trimmed[..|Prefix(org)|] == Prefix(org);
    }
  }

  /** Two names of one organization collide exactly when they are the same name inside it. */
  lemma ScopedCollides(org: string, a: string, b: string)
    ensures Scoped(org, a) == Scoped(org, b) <==> Bare(org, a) == Bare(org, b)
  {
    ScopedIsPrefixed(org, a);
    ScopedIsPrefixed(org, b);
    var p := Prefix(org);
    assert (p + Bare(org, a))[|p|..] == Bare(org, a) && (p + Bare(org, b))[|p|..] == Bare(org, b);
  }

  lemma {:induction false} ContainsIffFound(s: string, part: string)
    ensures Contains(s, part) <==> Find(s, part).Some?
    decreases |s|
  {
    if !(part <= s) && s != "" {
      ContainsIffFound(s[1..], part);
    }
  }

  lemma {:induction false} FoundAtEnd(org: string, tail: string)
    requires !Contains(org + ":", SEPARATOR)
    ensures Find(org + SEPARATOR + tail, SEPARATOR) == Some(|org|)
    decreases |org|
  {
    var id := org + SEPARATOR + tail;
    if org == "" {
      assert SEPARATOR <= id;
    } else {
      assert (org + ":")[1..] == org[1..] + ":";
      assert id[1..] == org[1..] + SEPARATOR + tail;
      FoundAtEnd(org[1..], tail);
      assert id[0] == (org + ":")[0] && id[1] == (org + ":")[1];
      assert !(SEPARATOR <= org + ":");
      assert !(SEPARATOR <= id);
    }
  }

  /** Namespacing keeps the owner readable from a source id exactly for proper organization ids. */
  lemma OwnerReadBack(org: string, value: string)
    ensures OrgOf(Scoped(org, value)) == Some(org) <==> ProperId(org)
  {
    ScopedIsPrefixed(org, value);
    var tail := Bare(org, value);
    var id := org + SEPARATOR + tail;
    if !Contains(org + ":", SEPARATOR) {
      FoundAtEnd(org, tail);
      assert id[..|org|] == org;
    } else {
      ContainsIffFound(org + ":", SEPARATOR);
      var i := Find(org + ":", SEPARATOR).value;
      assert (org + ":")[..i + 2] == id[..i + 2];
      FindStable(org + ":", id, SEPARATOR, i);
      assert i < |org|;
    }
  }

  /** Names of different organizations never meet. */
  lemma OwnersDisjoint(a: string, b: string, x: string, y: string)
    requires ProperId(a) && ProperId(b) && a != b
    ensures Scoped(a, x) != Scoped(b, y)
  {
    OwnerReadBack(a, x);
    OwnerReadBack(b, y);
  }

  /** The premise is needed: an id with a separator inside shares names with the id before it. */
  lemma NestedIdsMeet(a: string, b: string, x: string)
    requires Trimmed(x) && Trimmed(b + SEPARATOR + x)
    requires !(Prefix(a + SEPARATOR + b) <= x) && !(Prefix(a) <= b + SEPARATOR + x)
    ensures Scoped(a + SEPARATOR + b, x) == Scoped(a, b + SEPARATOR + x)
  {
    TrimFixes(x);
    TrimFixes(b + SEPARATOR + x);
    hide Trim, Trimmed;
    assert a + SEPARATOR + b + SEPARATOR + x == a + SEPARATOR + (b + SEPARATOR + x);
  }

  lemma BareTrimmed(org: string, value: string)
    ensures var bare := Bare(org, value); bare == "" || !IsSpace(bare[|bare| - 1])
  {
    TrimIsTrimmed(value);
  }

  /** Routing compares trimmed tags; a namespaced tag is already trimmed. */
  lemma ScopedTrimmed(org: string, value: string)
    requires org != "" && Trimmed(org)
    ensures Trim(Scoped(org, value)) == Scoped(org, value) && !Blank(Scoped(org, value))
  {
    ScopedIsPrefixed(org, value);
    BareTrimmed(org, value);
    var scoped, bare := Scoped(org, value), Bare(org, value);
    hide IsSpace, Trim, Scoped, Bare;
    assert scoped[0] == org[0];
    ColonVisible();
    assert scoped[|scoped| - 1] == if bare == "" then ':' else bare[|bare| - 1];
    assert Trimmed(scoped);
    VisibleNotBlank(scoped, 0);
    TrimFixes(scoped);
  }

  lemma ColonVisible()
    ensures !IsSpace(':')
  {
  }

  lemma TrimFixes(s: string)
    requires Trimmed(s)
    ensures Trim(s) == s
  {
  }

  // ----------------------------------------------------------------- routing

  /** `matches_routing_tags` */
  predicate MatchesRoutingTags(sinkTags: seq<string>, eventTag: Option<string>) {
    || sinkTags == []
    || (eventTag.Some? && !Blank(eventTag.value)
        && exists k :: 0 <= k < |sinkTags| && Trim(sinkTags[k]) == Trim(eventTag.value))
  }

  // ------------------------------------------------------- rewriting one org

  predicate TextLess(a: string, b: string) {
    if b == "" then false
    else if a == "" then true
    else a[0] < b[0] || (a[0] == b[0] && TextLess(a[1..], b[1..]))
  }

  /** Insertion into an ordered set. */
  function InsertTag(tags: seq<string>, tag: string): (r: seq<string>)
    ensures forall t :: t in r <==> t == tag || t in tags
  {
    if tags == [] then [tag]
    else if tags[0] == tag then tags
    else if TextLess(tag, tags[0]) then [tag] + tags
    else [tags[0]] + InsertTag(tags[1..], tag)
  }

  predicate HasTag(s: Source) {
    s.common.routingTag.Some? && !Blank(s.common.routingTag.value)
  }

  /** The tag a namespaced source emits: its own, or the organization's broadcast tag. */
  function EventTag(org: string, s: Source): string {
    if HasTag(s) then Scoped(org, s.common.routingTag.value) else Scoped(org, BROADCAST)
  }

  predicate HasOpsTag(d: Desired) {
    d.defaults.opsRoutingTag.Some? && !Blank(d.defaults.opsRoutingTag.value)
  }

  function SourceTags(org: string, sources: seq<Source>): (tags: seq<string>)
    ensures Scoped(org, BROADCAST) in tags
    ensures forall t :: t in tags ==> t == Scoped(org, BROADCAST) || exists s :: s in sources && t == EventTag(org, s)
    ensures forall s :: s in sources ==> EventTag(org, s) in tags
  {
    if sources == [] then [Scoped(org, BROADCAST)]
    else
      var last := |sources| - 1;
      assert sources == sources[..last] + [sources[last]];
      var tags := SourceTags(org, sources[..last]);
      if HasTag(sources[last]) then InsertTag(tags, EventTag(org, sources[last])) else tags
  }

  /** Every routing tag an event of the organization can carry. */
  function OrgEventTags(org: string, d: Desired): (tags: seq<string>)
    ensures tags != []
  {
    var tags := SourceTags(org, d.sources);
    if HasOpsTag(d) then InsertTag(tags, Scoped(org, d.defaults.opsRoutingTag.value)) else tags
  }

  function ScopedTags(org: string, tags: seq<string>, catchAll: seq<string>): (r: seq<string>)
    ensures |r| == if tags == [] then |catchAll| else |tags|
  {
    if tags == [] then catchAll else seq(|tags|, k requires 0 <= k < |tags| => Scoped(org, tags[k]))
  }

  function NamespaceNotifier(org: string, n: Notifier, catchAll: seq<string>): Notifier {
    n.(tags := ScopedTags(org, n.tags, catchAll))
  }

  function OpenSlug(kind: OpenKind): string {
    match kind
    case Feed => "feed"
    case Pypi => "pypi"
    case Npm => "npm"
    case Cargo => "cargo"
    case Maven => "maven"
    case Nuget => "nuget"
    case Hex => "hex"
    case Rubygems => "rubygems"
    case Packagist => "packagist"
    case Yarn => "yarn"
    case Cpan => "cpan"
    case Artifacthub => "artifacthub"
  }

  /** `default_source_id`, which files Codeberg repositories under `github:`. */
  function DefaultId(s: Source): string {
    match s
    case AuthSource(kind, _, host, locator, _, _, _) =>
      if kind == Codeberg then "github:" + locator
      else if kind == Gitea then "gitea:" + host + ":" + locator
      else KindSlug(kind) + ":" + locator
    case OpenSource(kind, _, locator, _, _) => OpenSlug(kind) + ":" + locator
  }

  /** The id a source gets without organizations (`build_gitea_watch` and its siblings). */
  function StandaloneId(s: Source): string {
    if s.id.Some? then s.id.value
    else if s.AuthSource? && s.kind == Codeberg then "codeberg:" + s.locator
    else DefaultId(s)
  }

  /** `bare_source_id` */
  function BareId(id: string): string {
    match Find(id, SEPARATOR)
    case None => id
    case Some(i) => id[i + 2..]
  }

  predicate LegacyId(bare: string) {
    "package:" <= bare || "registry:" <= bare
  }

  function NamespaceId(org: string, s: Source): string {
    var base := if s.id.Some? && !LegacyId(BareId(s.id.value)) then BareId(s.id.value) else DefaultId(s);
    Scoped(org, base)
  }

  function PresetNames(presets: seq<NamedPreset>): set<string> {
    set i | 0 <= i < |presets| :: presets[i].name
  }

  function FirstSome<T>(a: Option<T>, b: Option<T>): Option<T> {
    if a.Some? then a else b
  }

  function NamespaceCommon(org: string, c: Common, defaults: Defaults, presets: seq<NamedPreset>, tag: string): Common {
    c.(intervalSecs := FirstSome(c.intervalSecs, Some(defaults.intervalSecs)),
       jitterSecs := FirstSome(c.jitterSecs, Some(defaults.jitterSecs)),
       pollOnStartup := FirstSome(c.pollOnStartup, Some(defaults.pollOnStartup)),
       notifySchedule := FirstSome(c.notifySchedule, defaults.notifySchedule),
       routingTag := Some(tag),
       preset := if c.preset.Some? && Trim(c.preset.value) in PresetNames(presets)
                 then Some(Scoped(org, Trim(c.preset.value))) else c.preset)
  }

  function NamespaceSource(org: string, s: Source, defaults: Defaults, presets: seq<NamedPreset>): Source {
    s.(id := Some(NamespaceId(org, s)),
       common := NamespaceCommon(org, s.common, defaults, presets, EventTag(org, s)))
  }

  /** Insertion into a map: the entry of that name is replaced. */
  function InsertPreset(presets: seq<NamedPreset>, p: NamedPreset): seq<NamedPreset> {
    if presets == [] then [p]
    else if presets[0].name == p.name then [p] + presets[1..]
    else [presets[0]] + InsertPreset(presets[1..], p)
  }

  function FindPreset(presets: seq<NamedPreset>, name: string): Option<Preset> {
    if presets == [] then None
    else if presets[0].name == name then Some(presets[0].preset)
    else FindPreset(presets[1..], name)
  }

  function InsertPresets(into: seq<NamedPreset>, presets: seq<NamedPreset>): seq<NamedPreset> {
    if presets == [] then into
    else
      var last := |presets| - 1;
      InsertPreset(InsertPresets(into, presets[..last]), presets[last])
  }

  function RenamePresets(org: string, presets: seq<NamedPreset>): seq<NamedPreset> {
    if presets == [] then []
    else
      var last := |presets| - 1;
      InsertPreset(RenamePresets(org, presets[..last]),
                   presets[last].(name := Scoped(org, presets[last].name)))
  }

  function NamespaceDefaults(org: string, d: Defaults): Defaults {
    if d.opsRoutingTag.Some? && !Blank(d.opsRoutingTag.value)
    then d.(opsRoutingTag := Some(Scoped(org, d.opsRoutingTag.value)))
    else d
  }

  /** `namespace_organization_desired` */
  function NamespaceDesired(org: string, d: Desired): Desired {
    var catchAll := OrgEventTags(org, d);
    var defaults := NamespaceDefaults(org, d.defaults);
    Desired(
      defaults,
      seq(|d.notifiers|, i requires 0 <= i < |d.notifiers| => NamespaceNotifier(org, d.notifiers[i], catchAll)),
      seq(|d.teams|, i requires 0 <= i < |d.teams| => d.teams[i].(tag := Scoped(org, d.teams[i].tag))),
      RenamePresets(org, d.presets),
      seq(|d.sources|, i requires 0 <= i < |d.sources| => NamespaceSource(org, d.sources[i], defaults, d.presets)))
  }

  /** The loops of `namespace_organization_desired` and `prepare_organization_sources`, in place. */
  method NamespaceInPlace(org: string, d: Desired, notifiers: array<Notifier>, teams: array<Team>,
                          sources: array<Source>)
    returns (defaults: Defaults, presets: seq<NamedPreset>)
    requires notifiers[..] == d.notifiers && teams[..] == d.teams && sources[..] == d.sources
    modifies notifiers, teams, sources
    ensures Desired(defaults, notifiers[..], teams[..], presets, sources[..]) == NamespaceDesired(org, d)
  {
    hide Scoped, NamespaceNotifier, NamespaceSource, OrgEventTags;
    ghost var target := NamespaceDesired(org, d);
    var catchAll := OrgEventTags(org, d);
    for i := 0 to teams.Length
      modifies teams
      invariant forall j :: 0 <= j < i ==> teams[j] == target.teams[j]
      invariant forall j :: i <= j < teams.Length ==> teams[j] == d.teams[j]
    {
      teams[i] := teams[i].(tag := Scoped(org, teams[i].tag));
    }
    defaults := NamespaceDefaults(org, d.defaults);
    for i := 0 to notifiers.Length
      modifies notifiers
      invariant forall j :: 0 <= j < i ==> notifiers[j] == target.notifiers[j]
      invariant forall j :: i <= j < notifiers.Length ==> notifiers[j] == d.notifiers[j]
    {
      notifiers[i] := NamespaceNotifier(org, notifiers[i], catchAll);
    }
    presets := RenamePresets(org, d.presets);
    for i := 0 to sources.Length
      modifies sources
      invariant forall j :: 0 <= j < i ==> sources[j] == target.sources[j]
      invariant forall j :: i <= j < sources.Length ==> sources[j] == d.sources[j]
    {
      sources[i] := NamespaceSource(org, sources[i], defaults, d.presets);
    }
    assert notifiers[..] == target.notifiers;
    assert teams[..] == target.teams;
    assert sources[..] == target.sources;
  }
}
