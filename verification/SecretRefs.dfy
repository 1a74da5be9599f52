/**
 Moving inline secrets out of a document: each becomes a named reference plus a
 write for the secret store (src/config/secrets.rs).
 */
module SecretRefs {
  import opened Text
  import opened Settings

  datatype SecretWrite = SecretWrite(name: string, value: string)

  /** `serde_json` on the two composite secrets. */
  datatype Json = Json(
    urls: seq<string> -> string,
    parseUrls: string -> Option<seq<string>>,
    headers: map<string, string> -> string,
    parseHeaders: string -> Option<map<string, string>>)

  /** Printing and parsing JSON are inverse, and no JSON text is blank. */
  ghost predicate JsonInverse(json: Json) {
    && (forall urls :: json.parseUrls(json.urls(urls)) == Some(urls) && !Blank(json.urls(urls)))
    && (forall headers :: json.parseHeaders(json.headers(headers)) == Some(headers) && !Blank(json.headers(headers)))
  }

  // ------------------------------------------------------------------ names

  predicate AsciiAlphanumeric(c: char) {
    'a' <= c <= 'z' || 'A' <= c <= 'Z' || '0' <= c <= '9'
  }

  function Upper(c: char): char {
    if 'a' <= c <= 'z' then (c as int - 32) as char else c
  }

  /** `push_sanitized` */
  function Sanitize(raw: string): (r: string)
    ensures |r| == |raw| && forall i :: 0 <= i < |r| ==> !IsSpace(r[i])
  {
    seq(|raw|, i requires 0 <= i < |raw| => if AsciiAlphanumeric(raw[i]) then Upper(raw[i]) else '_')
  }

  /** Every run of underscores as one. */
  function Collapse(s: string): (r: string)
    ensures |r| <= |s|
  {
    if |s| >= 2 && s[0] == '_' && s[1] == '_' then Collapse(s[1..])
    else if s == "" then ""
    else [s[0]] + Collapse(s[1..])
  }

  /** `replace("__", "_")`: one left-to-right pass. */
  function ReplacePairs(s: string): (r: string)
    ensures |r| <= |s| && (Contains(s, "__") ==> |r| < |s|)
  {
    if s == "" then ""
    else if "__" <= s then "_" + ReplacePairs(s[2..])
    else [s[0]] + ReplacePairs(s[1..])
  }

  lemma {:induction false} CollapseKeepsHead(s: string)
    ensures Collapse(s) == "" <==> s == ""
    ensures s != "" ==> Collapse(s)[0] == s[0]
    decreases |s|
  {
    if |s| >= 2 && s[0] == '_' && s[1] == '_' {
      CollapseKeepsHead(s[1..]);
    }
  }

  lemma CollapseAfter(c: char, s: string, t: string)
    requires Collapse(s) == Collapse(t)
    ensures Collapse([c] + s) == Collapse([c] + t)
  {
    CollapseKeepsHead(s);
    CollapseKeepsHead(t);
    assert ([c] + s)[1..] == s && ([c] + t)[1..] == t;
  }

  lemma {:induction false} ReplacePairsCollapses(s: string)
    ensures Collapse(ReplacePairs(s)) == Collapse(s)
    decreases |s|
  {
    if s == "" {
    } else if "__" <= s {
      ReplacePairsCollapses(s[2..]);
      CollapseAfter('_', ReplacePairs(s[2..]), s[2..]);
      assert s[1..] == "_" + s[2..];
    } else {
      ReplacePairsCollapses(s[1..]);
      CollapseAfter(s[0], ReplacePairs(s[1..]), s[1..]);
      assert s == [s[0]] + s[1..];
    }
  }

  lemma {:induction false} CollapseFixes(s: string)
    requires !Contains(s, "__")
    ensures Collapse(s) == s
    decreases |s|
  {
    if s != "" {
      CollapseFixes(s[1..]);
    }
  }

  /** The squeezing loop of `truncate_slug`: however many passes it takes, it ends with every run collapsed. */
  method SqueezeUnderscores(s: string) returns (out: string)
    ensures out == Collapse(s) && !Contains(out, "__")
  {
    out := s;
    while Contains(out, "__")
      invariant Collapse(out) == Collapse(s)
      decreases |out|
    {
      ReplacePairsCollapses(out);
      out := ReplacePairs(out);
    }
    CollapseFixes(out);
  }

  function TrimUnderscores(s: string): string {
    if s != "" && s[0] == '_' then TrimUnderscores(s[1..])
    else if s != "" && s[|s| - 1] == '_' then TrimUnderscores(s[..|s| - 1])
    else s
  }

  function Truncate(s: string, max: nat): string {
    if |s| <= max then s else s[..max]
  }

  /** `truncate_slug` */
  function Slug(raw: string, max: nat): string {
    Truncate(TrimUnderscores(Collapse(Sanitize(raw))), max)
  }

  function Decimal(n: nat): string {
    (if n < 10 then "" else Decimal(n / 10)) + [(n % 10 + '0' as int) as char]
  }

  /** What every generated name of a scope starts with. */
  function ScopePrefix(org: Option<string>): string {
    if org.None? || Blank(org.value) then "XRELEASE_UI_" else "XRELEASE_UI_" + Sanitize(Trim(org.value)) + "_"
  }

  /** `auto_name` with the three parts every caller passes. */
  function AutoName(org: Option<string>, group: string, identity: string, suffix: string): string {
    ScopePrefix(org) + Sanitize(group) + "_" + (Sanitize(identity) + "_" + Sanitize(suffix))
  }

  function SourceIdentity(s: Source, index: nat): string {
    var slug := Slug(s.locator, 48);
    if slug == "" then "I" + Decimal(index) else slug
  }

  function NotifierLabel(n: Notifier): Option<string> {
    if n.Apprise? || n.name.None? || Blank(n.name.value) then None else Some(Trim(n.name.value))
  }

  function NotifierKindSlug(n: Notifier): string {
    match n
    case Apprise(_, _, _, _, _) => "APPRISE"
    case Webhook(_, _, _, _, _, _) => "WEBHOOK"
    case Express(_, _, _, _, _) => "EXPRESS"
    case Novu(_, _, _, _, _, _, _) => "NOVU"
    case Slack(_, _, _, _, _, _) => "SLACK"
    case Telegram(_, _, _, _, _) => "TELEGRAM"
    case Smtp(_, _, _, _, _) => "SMTP"
    case Kafka(_, _, _, _) => "KAFKA"
    case Nats(_, _, _, _, _) => "NATS"
    case Rabbitmq(_, _, _, _, _) => "RABBITMQ"
  }

  function NotifierTip(n: Notifier): string {
    match n
    case Apprise(_, endpoint, urls, tag, _) =>
      if urls.configKey.Some? then urls.configKey.value else if tag.Some? then tag.value else endpoint
    case Webhook(_, _, url, _, _, _) => url.inline
    case Express(_, _, _, chat, _) => chat
    case Novu(_, _, _, workflow, _, _, _) => workflow
    case Slack(_, _, _, _, channel, _) => channel
    case Telegram(_, _, _, chat, _) => chat
    case Smtp(_, _, _, host, _) => host
    case Kafka(_, _, topic, _) => topic
    case Nats(_, _, _, subject, _) => subject
    case Rabbitmq(_, _, _, key, _) => key
  }

  function FirstTag(tags: seq<string>): Option<string> {
    if tags == [] then None else if !Blank(tags[0]) then Some(Trim(tags[0])) else FirstTag(tags[1..])
  }

  /** `notifier_identity` */
  function NotifierIdentity(n: Notifier, index: nat): string {
    match NotifierLabel(n)
    case Some(name) => Slug(name, 40)
    case None =>
      var tag := match FirstTag(n.tags) case Some(tag) => Slug(tag, 24) + "_" case None => "";
      var tip := if IsDead(NotifierTip(n)) then "I" + Decimal(index) else Slug(Trim(NotifierTip(n)), 24);
      tag + NotifierKindSlug(n) + "_" + tip
  }

  function NotifierFieldLabels(n: Notifier): (labels: seq<string>)
    ensures |labels| == |NotifierFields(n)|
  {
    match n
    case Apprise(_, _, _, _, _) => ["APPRISE_URLS"]
    case Webhook(_, _, _, _, _, _) => ["WEBHOOK_URL", "WEBHOOK_SECRET", "WEBHOOK_HEADERS"]
    case Express(_, _, _, _, _) => ["EXPRESS_TOKEN"]
    case Novu(_, _, _, _, _, _, _) => ["NOVU_KEY"]
    case Slack(_, _, _, _, _, _) => ["SLACK_WEBHOOK", "SLACK_BOT"]
    case Telegram(_, _, _, _, _) => ["TELEGRAM_BOT"]
    case Smtp(_, _, _, _, _) => ["SMTP_PASSWORD"]
    case Kafka(_, _, _, _) => []
    case Nats(_, _, _, _, _) => ["NATS_URL"]
    case Rabbitmq(_, _, _, _, _) => ["RABBITMQ_URL"]
  }

  /** The process-wide variable each secret falls back to when neither inline nor reference resolves. */
  function NotifierGlobals(n: Notifier): (globals: seq<string>)
    ensures |globals| == |NotifierFields(n)|
  {
    match n
    case Apprise(_, _, _, _, _) => [""]
    case Webhook(_, _, _, _, _, _) => ["", "XRELEASE_WEBHOOK_SECRET", ""]
    case Express(_, _, _, _, _) => ["XRELEASE_EXPRESS_ACCESS_TOKEN"]
    case Novu(_, _, _, _, _, _, _) => ["XRELEASE_NOVU_API_KEY"]
    case Slack(_, _, _, _, _, _) => ["XRELEASE_SLACK_WEBHOOK_URL", "XRELEASE_SLACK_BOT_TOKEN"]
    case Telegram(_, _, _, _, _) => ["XRELEASE_TELEGRAM_BOT_TOKEN"]
    case Smtp(_, _, _, _, _) => ["XRELEASE_SMTP_PASSWORD"]
    case Kafka(_, _, _, _) => []
    case Nats(_, _, _, _, _) => ["XRELEASE_NATS_URL"]
    case Rabbitmq(_, _, _, _, _) => ["XRELEASE_RABBITMQ_URL"]
  }

  function TokenGlobal(kind: AuthKind): string {
    match kind
    case Github => "GITHUB_TOKEN"
    case Codeberg => "CODEBERG_TOKEN"
    case Gitea => "GITEA_TOKEN"
    case Gitlab => "GITLAB_TOKEN"
    case Bitbucket => "BITBUCKET_TOKEN"
    case Docker => "DOCKER_TOKEN"
    case Ghcr => "GHCR_TOKEN"
    case Quay => "QUAY_TOKEN"
    case Ecr => "ECR_TOKEN"
  }

  // ------------------------------------------------------------------ slots

  /** A secret field with the name it would be given and the variable it falls back to. */
  datatype Slot = Slot(field: Field, auto: string, global: string)

  function SlotsOfSource(s: Source, index: nat, org: Option<string>): (slots: seq<Slot>)
    ensures |slots| == |SourceFields(s)| && forall k :: 0 <= k < |slots| ==> slots[k].field == SourceFields(s)[k]
  {
    if s.OpenSource? then []
    else [Slot(s.token, AutoName(org, "SRC", SourceIdentity(s, index), "TOKEN"), TokenGlobal(s.kind))]
  }

  function SlotsOfNotifier(n: Notifier, index: nat, org: Option<string>): (slots: seq<Slot>)
    ensures |slots| == |NotifierFields(n)| && forall k :: 0 <= k < |slots| ==> slots[k].field == NotifierFields(n)[k]
  {
    var identity := NotifierIdentity(n, index);
    seq(|NotifierFields(n)|, k requires 0 <= k < |NotifierFields(n)| =>
      Slot(NotifierFields(n)[k], AutoName(org, "N", identity, NotifierFieldLabels(n)[k]), NotifierGlobals(n)[k]))
  }

  function SourceSlots(sources: seq<Source>, org: Option<string>): seq<Slot> {
    if sources == [] then []
    else
      var last := |sources| - 1;
      SourceSlots(sources[..last], org) + SlotsOfSource(sources[last], last, org)
  }

  function NotifierSlots(notifiers: seq<Notifier>, org: Option<string>): seq<Slot> {
    if notifiers == [] then []
    else
      var last := |notifiers| - 1;
      NotifierSlots(notifiers[..last], org) + SlotsOfNotifier(notifiers[last], last, org)
  }

  /** Every secret field of a document, in the order normalisation visits them. */
  function Slots(d: Desired, org: Option<string>): seq<Slot> {
    SourceSlots(d.sources, org) + NotifierSlots(d.notifiers, org)
  }

  function FieldsOf(slots: seq<Slot>): (fs: seq<Field>)
    ensures |fs| == |slots|
  {
    seq(|slots|, k requires 0 <= k < |slots| => slots[k].field)
  }

  // ----------------------------------------------------------- one field

  /** A value `take_inline` refuses to store: blank, or carrying a redaction marker. */
  predicate IsDead(value: string) {
    var trimmed := Trim(value);
    trimmed == "" || trimmed == REDACTED || Contains(trimmed, REDACTED)
  }

  function LiveUrls(urls: seq<string>): (r: seq<string>)
    ensures forall i :: 0 <= i < |r| ==> !IsDead(r[i])
    ensures (forall i :: 0 <= i < |urls| ==> !IsDead(urls[i])) ==> r == urls
  {
    if urls == [] then []
    else if IsDead(urls[0]) then LiveUrls(urls[1..])
    else [urls[0]] + LiveUrls(urls[1..])
  }

  function LiveHeaders(headers: map<string, string>): map<string, string> {
    map key | key in headers && !IsDead(headers[key]) :: headers[key]
  }

  /** The field holds an inline secret that normalisation moves out. */
  predicate HasLive(f: Field) {
    match f
    case Token(token, _) => token.Some? && !IsDead(token.value)
    case Plain(inline, _) => !IsDead(inline)
    case Hook(inline, _) => !IsDead(inline)
    case Broker(inline, _) => !IsDead(inline)
    case Urls(urls, _, _) => LiveUrls(urls) != []
    case Headers(headers, _) => LiveHeaders(headers) != map[]
  }

  /** `ensure_env_name`, the reference left in the field. */
  function Named(env: Option<string>, auto: string): Option<string> {
    if EnvBlank(env) then Some(auto) else env
  }

  /** `ensure_env_name`, the name the secret is stored under. */
  function StoredName(env: Option<string>, auto: string): string {
    if EnvBlank(env) then auto else Trim(env.value)
  }

  function NormalizeField(f: Field, auto: string): (r: Field)
    ensures SameKind(r, f)
  {
    var env := if HasLive(f) then Named(f.env, auto) else f.env;
    match f
    case Token(token, _) =>
      // `take_inline` clears a refused value before `take_optional_inline` gives up on it.
      Token(if token.None? || HasLive(f) then None else Some(""), env)
    case Plain(_, _) => Plain("", env)
    case Hook(_, _) => Hook("", env)
    case Broker(_, _) => Broker("", env)
    case Urls(_, _, key) => Urls([], env, key)
    case Headers(_, _) => Headers(map[], env)
  }

  /** The stored form of a field's inline secret. */
  function StoredValue(json: Json, f: Field): string
    requires HasLive(f)
  {
    match f
    case Token(token, _) => token.value
    case Plain(inline, _) => inline
    case Hook(inline, _) => inline
    case Broker(inline, _) => inline
    case Urls(urls, _, _) => json.urls(LiveUrls(urls))
    case Headers(headers, _) => json.headers(LiveHeaders(headers))
  }

  /**
   A field's own reference is kept as it is and names what is stored for it, trimmed;
   without one a live secret gets the generated name, and any other field none.
   */
  lemma ReferenceKept(f: Field, auto: string)
    ensures !EnvBlank(f.env) ==> NormalizeField(f, auto).env == f.env && StoredName(f.env, auto) == Trim(f.env.value)
    ensures EnvBlank(f.env) && HasLive(f) ==> NormalizeField(f, auto).env == Some(auto) && StoredName(f.env, auto) == auto
    ensures !HasLive(f) ==> NormalizeField(f, auto).env == f.env
  {
  }

  // -------------------------------------------------------------- documents

  function NormalizeFields(slots: seq<Slot>): (r: seq<Field>)
    ensures |r| == |slots| && forall k :: 0 <= k < |r| ==> SameKind(r[k], slots[k].field)
  {
    seq(|slots|, k requires 0 <= k < |slots| => NormalizeField(slots[k].field, slots[k].auto))
  }

  function NormalizeSource(s: Source, index: nat, org: Option<string>): Source {
    WithSourceFields(s, NormalizeFields(SlotsOfSource(s, index, org)))
  }

  function NormalizeNotifier(n: Notifier, index: nat, org: Option<string>): Notifier {
    WithNotifierFields(n, NormalizeFields(SlotsOfNotifier(n, index, org)))
  }

  function NormalizeSources(sources: seq<Source>, org: Option<string>): seq<Source> {
    seq(|sources|, i requires 0 <= i < |sources| => NormalizeSource(sources[i], i, org))
  }

  function NormalizeNotifiers(notifiers: seq<Notifier>, org: Option<string>): seq<Notifier> {
    seq(|notifiers|, i requires 0 <= i < |notifiers| => NormalizeNotifier(notifiers[i], i, org))
  }

  /** The document `normalize_secrets_to_refs` leaves behind. */
  function NormalizeDesired(d: Desired, org: Option<string>): Desired {
    d.(sources := NormalizeSources(d.sources, org), notifiers := NormalizeNotifiers(d.notifiers, org))
  }

  /** `push_write`: a later value for a name replaces the earlier one. */
  function PushWrite(writes: seq<SecretWrite>, name: string, value: string): seq<SecretWrite> {
    if Blank(name) || Blank(value) then writes else Upsert(writes, name, value)
  }

  function Upsert(writes: seq<SecretWrite>, name: string, value: string): (r: seq<SecretWrite>)
    ensures r != []
  {
    if writes == [] then [SecretWrite(name, value)]
    else if writes[0].name == name then [SecretWrite(name, value)] + writes[1..]
    else [writes[0]] + Upsert(writes[1..], name, value)
  }

  /** The writes accumulated over the slots, in order. */
  function PushSlots(json: Json, writes: seq<SecretWrite>, slots: seq<Slot>): seq<SecretWrite> {
    if slots == [] then writes
    else
      var last := |slots| - 1;
      PushSlot(json, PushSlots(json, writes, slots[..last]), slots[last])
  }

  function PushSlot(json: Json, writes: seq<SecretWrite>, slot: Slot): seq<SecretWrite> {
    if HasLive(slot.field)
    then PushWrite(writes, StoredName(slot.field.env, slot.auto), StoredValue(json, slot.field))
    else writes
  }

  /** The writes `normalize_secrets_to_refs` returns. */
  function Writes(json: Json, d: Desired, org: Option<string>): seq<SecretWrite> {
    PushSlots(json, [], Slots(d, org))
  }

  lemma {:induction false} PushSlotsConcat(json: Json, writes: seq<SecretWrite>, a: seq<Slot>, b: seq<Slot>)
    ensures PushSlots(json, writes, a + b) == PushSlots(json, PushSlots(json, writes, a), b)
    decreases |b|
  {
    if b == [] {
      assert a + b == a;
    } else {
      var last := |b| - 1;
      assert (a + b)[..|a + b| - 1] == a + b[..last];
      PushSlotsConcat(json, writes, a, b[..last]);
    }
  }

  /** The source loop of `normalize_secrets_to_refs`: rewrites in place and extends the writes. */
  method SealSources(json: Json, sources: array<Source>, org: Option<string>, before: seq<SecretWrite>)
    returns (writes: seq<SecretWrite>)
    modifies sources
    ensures sources[..] == NormalizeSources(old(sources[..]), org)
    ensures writes == PushSlots(json, before, SourceSlots(old(sources[..]), org))
  {
    hide NormalizeSource, SlotsOfSource, SourceSlots, PushSlots;
    ghost var original := sources[..];
    ghost var sealed := NormalizeSources(original, org);
    writes := before;
    PushSourceNone(json, before, org);
    assert original[..0] == [];
    var i := 0;
    while i < sources.Length
      invariant 0 <= i <= sources.Length
      invariant forall j :: 0 <= j < i ==> sources[j] == sealed[j]
      invariant forall j :: i <= j < sources.Length ==> sources[j] == original[j]
      invariant writes == PushSlots(json, before, SourceSlots(original[..i], org))
    {
      var slots := SlotsOfSource(sources[i], i, org);
      PushSourceStep(json, before, original, i, org);
      writes := PushSlots(json, writes, slots);
      sources[i] := NormalizeSource(sources[i], i, org);
      i := i + 1;
    }
    assert original[..i] == original;
  }

  lemma PushSourceNone(json: Json, before: seq<SecretWrite>, org: Option<string>)
    ensures PushSlots(json, before, SourceSlots([], org)) == before
  {
  }

  lemma PushSourceStep(json: Json, before: seq<SecretWrite>, sources: seq<Source>, i: nat, org: Option<string>)
    requires i < |sources|
    ensures PushSlots(json, before, SourceSlots(sources[..i + 1], org)) ==
            PushSlots(json, PushSlots(json, before, SourceSlots(sources[..i], org)), SlotsOfSource(sources[i], i, org))
  {
    assert sources[..i + 1][..i] == sources[..i];
    PushSlotsConcat(json, before, SourceSlots(sources[..i], org), SlotsOfSource(sources[i], i, org));
  }

  /** The notifier loop of `normalize_secrets_to_refs`: rewrites in place and extends the writes. */
  method SealNotifiers(json: Json, notifiers: array<Notifier>, org: Option<string>, before: seq<SecretWrite>)
    returns (writes: seq<SecretWrite>)
    modifies notifiers
    ensures notifiers[..] == NormalizeNotifiers(old(notifiers[..]), org)
    ensures writes == PushSlots(json, before, NotifierSlots(old(notifiers[..]), org))
  {
    hide NormalizeNotifier, SlotsOfNotifier, NotifierSlots, PushSlots;
    ghost var original := notifiers[..];
    ghost var sealed := NormalizeNotifiers(original, org);
    writes := before;
    PushNotifierNone(json, before, org);
    assert original[..0] == [];
    var i := 0;
    while i < notifiers.Length
      invariant 0 <= i <= notifiers.Length
      invariant forall j :: 0 <= j < i ==> notifiers[j] == sealed[j]
      invariant forall j :: i <= j < notifiers.Length ==> notifiers[j] == original[j]
      invariant writes == PushSlots(json, before, NotifierSlots(original[..i], org))
    {
      var slots := SlotsOfNotifier(notifiers[i], i, org);
      PushNotifierStep(json, before, original, i, org);
      writes := PushSlots(json, writes, slots);
      notifiers[i] := NormalizeNotifier(notifiers[i], i, org);
      i := i + 1;
    }
    assert original[..i] == original;
  }

  lemma PushNotifierNone(json: Json, before: seq<SecretWrite>, org: Option<string>)
    ensures PushSlots(json, before, NotifierSlots([], org)) == before
  {
  }

  lemma PushNotifierStep(json: Json, before: seq<SecretWrite>, notifiers: seq<Notifier>, i: nat, org: Option<string>)
    requires i < |notifiers|
    ensures PushSlots(json, before, NotifierSlots(notifiers[..i + 1], org)) ==
            PushSlots(json, PushSlots(json, before, NotifierSlots(notifiers[..i], org)), SlotsOfNotifier(notifiers[i], i, org))
  {
    assert notifiers[..i + 1][..i] == notifiers[..i];
    PushSlotsConcat(json, before, NotifierSlots(notifiers[..i], org), SlotsOfNotifier(notifiers[i], i, org));
  }

  /** `normalize_secrets_to_refs` */
  method NormalizeSecretsToRefs(json: Json, sources: array<Source>, notifiers: array<Notifier>, org: Option<string>)
    returns (writes: seq<SecretWrite>)
    modifies sources, notifiers
    ensures sources[..] == NormalizeSources(old(sources[..]), org)
    ensures notifiers[..] == NormalizeNotifiers(old(notifiers[..]), org)
    ensures writes == PushSlots(json, [], SourceSlots(old(sources[..]), org) + NotifierSlots(old(notifiers[..]), org))
  {
    PushSlotsConcat(json, [], SourceSlots(sources[..], org), NotifierSlots(notifiers[..], org));
    writes := SealSources(json, sources, org, []);
    writes := SealNotifiers(json, notifiers, org, writes);
  }

  // ------------------------------------------------------------- references

  /** The non-blank references of the fields. */
  function RefsOf(fs: seq<Field>): set<string> {
    set k | 0 <= k < |fs| && !EnvBlank(fs[k].env) :: Trim(fs[k].env.value)
  }

  /** `collect_secret_env_refs` */
  function CollectRefs(d: Desired): set<string> {
    SourceRefs(d.sources) + NotifierRefs(d.notifiers)
  }

  function SourceRefs(sources: seq<Source>): set<string> {
    set i, name | 0 <= i < |sources| && name in RefsOf(SourceFields(sources[i])) :: name
  }

  function NotifierRefs(notifiers: seq<Notifier>): set<string> {
    set i, name | 0 <= i < |notifiers| && name in RefsOf(NotifierFields(notifiers[i])) :: name
  }

  /** The two collecting loops: every non-blank reference of every entry, trimmed, and nothing else. */
  method CollectSecretEnvRefs(d: Desired) returns (refs: set<string>)
    ensures refs == CollectRefs(d)
  {
    hide RefsOf, SourceFields, NotifierFields;
    refs := {};
    for i := 0 to |d.sources|
      invariant refs == SourceRefs(d.sources[..i])
    {
      assert d.sources[..i + 1] == d.sources[..i] + [d.sources[i]];
      SourceRefsExtend(d.sources[..i], d.sources[i]);
      refs := refs + RefsOf(SourceFields(d.sources[i]));
    }
    assert d.sources[..|d.sources|] == d.sources;
    for i := 0 to |d.notifiers|
      invariant refs == SourceRefs(d.sources) + NotifierRefs(d.notifiers[..i])
    {
      assert d.notifiers[..i + 1] == d.notifiers[..i] + [d.notifiers[i]];
      NotifierRefsExtend(d.notifiers[..i], d.notifiers[i]);
      refs := refs + RefsOf(NotifierFields(d.notifiers[i]));
    }
    assert d.notifiers[..|d.notifiers|] == d.notifiers;
  }

  lemma SourceRefsExtend(sources: seq<Source>, s: Source)
    ensures SourceRefs(sources + [s]) == SourceRefs(sources) + RefsOf(SourceFields(s))
  {
    hide RefsOf, SourceFields;
    var all := sources + [s];
    assert all[|sources|] == s;
    forall name | name in SourceRefs(sources) ensures name in SourceRefs(all) {
      var i :| 0 <= i < |sources| && name in RefsOf(SourceFields(sources[i]));
      assert all[i] == sources[i];
    }
  }

  lemma NotifierRefsExtend(notifiers: seq<Notifier>, n: Notifier)
    ensures NotifierRefs(notifiers + [n]) == NotifierRefs(notifiers) + RefsOf(NotifierFields(n))
  {
    hide RefsOf, NotifierFields;
    var all := notifiers + [n];
    assert all[|notifiers|] == n;
    forall name | name in NotifierRefs(notifiers) ensures name in NotifierRefs(all) {
      var i :| 0 <= i < |notifiers| && name in RefsOf(NotifierFields(notifiers[i]));
      assert all[i] == notifiers[i];
    }
  }

  lemma {:induction false} SourceSlotRefs(sources: seq<Source>, org: Option<string>)
    ensures RefsOf(FieldsOf(SourceSlots(sources, org))) == SourceRefs(sources)
    decreases |sources|
  {
    hide SlotsOfSource, SourceFields, RefsOf;
    if sources == [] {
      NoRefs();
    } else {
      var last := |sources| - 1;
      SourceSlotRefs(sources[..last], org);
      assert sources == sources[..last] + [sources[last]];
      SourceRefsExtend(sources[..last], sources[last]);
      var slots := SlotsOfSource(sources[last], last, org);
      assert FieldsOf(slots) == SourceFields(sources[last]);
      RefsConcat(SourceSlots(sources[..last], org), slots);
    }
  }

  lemma {:induction false} NotifierSlotRefs(notifiers: seq<Notifier>, org: Option<string>)
    ensures RefsOf(FieldsOf(NotifierSlots(notifiers, org))) == NotifierRefs(notifiers)
    decreases |notifiers|
  {
    hide SlotsOfNotifier, NotifierFields, RefsOf;
    if notifiers == [] {
      NoRefs();
    } else {
      var last := |notifiers| - 1;
      NotifierSlotRefs(notifiers[..last], org);
      assert notifiers == notifiers[..last] + [notifiers[last]];
      NotifierRefsExtend(notifiers[..last], notifiers[last]);
      var slots := SlotsOfNotifier(notifiers[last], last, org);
      assert FieldsOf(slots) == NotifierFields(notifiers[last]);
      RefsConcat(NotifierSlots(notifiers[..last], org), slots);
    }
  }

  lemma NoRefs()
    ensures RefsOf(FieldsOf([])) == {}
  {
  }

  lemma RefsConcat(a: seq<Slot>, b: seq<Slot>)
    ensures RefsOf(FieldsOf(a + b)) == RefsOf(FieldsOf(a)) + RefsOf(FieldsOf(b))
  {
    hide Trim;
    var fs, gs, all := FieldsOf(a), FieldsOf(b), FieldsOf(a + b);
    assert all == fs + gs;
    forall name | name in RefsOf(fs) ensures name in RefsOf(all) {
      var k :| 0 <= k < |fs| && !EnvBlank(fs[k].env) && Trim(fs[k].env.value) == name;
      assert all[k] == fs[k];
    }
    forall name | name in RefsOf(gs) ensures name in RefsOf(all) {
      var k :| 0 <= k < |gs| && !EnvBlank(gs[k].env) && Trim(gs[k].env.value) == name;
      assert all[|fs| + k] == gs[k];
    }
  }

  /** Collecting over entries is collecting over slots. */
  lemma SlotRefs(d: Desired, org: Option<string>)
    ensures RefsOf(FieldsOf(Slots(d, org))) == CollectRefs(d)
  {
    hide RefsOf, SourceSlots, NotifierSlots, SourceRefs, NotifierRefs;
    SourceSlotRefs(d.sources, org);
    NotifierSlotRefs(d.notifiers, org);
    RefsConcat(SourceSlots(d.sources, org), NotifierSlots(d.notifiers, org));
  }

  /** `is_ui_managed_secret_name`: whether this scope generated the name, and so may delete it. */
  predicate IsUiManaged(name: string, org: Option<string>) {
    var trimmed := Trim(name);
    && "XRELEASE_UI_" <= trimmed
    && (if org.None? || Blank(org.value)
        then "XRELEASE_UI_SRC_" <= trimmed || "XRELEASE_UI_N_" <= trimmed
        else ScopePrefix(org) <= trimmed)
  }

  /** `stale_ui_managed_secrets` */
  function StaleSecrets(previous: set<string>, next: set<string>, org: Option<string>): set<string> {
    set name | name in previous && name !in next && IsUiManaged(name, org)
  }

  lemma SanitizeFixes(s: string)
    requires forall i :: 0 <= i < |s| ==> 'A' <= s[i] <= 'Z'
    ensures Sanitize(s) == s
  {
  }

  predicate Visible(s: string) {
    forall i :: 0 <= i < |s| ==> !IsSpace(s[i])
  }

  lemma VisibleConcat(s: string, t: string)
    requires Visible(s) && Visible(t)
    ensures Visible(s + t)
  {
    hide IsSpace;
  }

  lemma AutoNameVisible(org: Option<string>, group: string, identity: string, suffix: string)
    ensures Visible(AutoName(org, group, identity, suffix)) && AutoName(org, group, identity, suffix) != ""
  {
    hide Visible, Sanitize;
    ScopePrefixVisible(org);
    SanitizeVisible(group);
    SanitizeVisible(identity);
    SanitizeVisible(suffix);
    UnderscoreVisible();
    VisibleConcat(ScopePrefix(org), Sanitize(group));
    VisibleConcat(ScopePrefix(org) + Sanitize(group), "_");
    VisibleConcat(Sanitize(identity), "_");
    VisibleConcat(Sanitize(identity) + "_", Sanitize(suffix));
    VisibleConcat(ScopePrefix(org) + Sanitize(group) + "_", Sanitize(identity) + "_" + Sanitize(suffix));
  }

  lemma ScopePrefixVisible(org: Option<string>)
    ensures Visible(ScopePrefix(org)) && ScopePrefix(org) != ""
  {
    assert Visible("XRELEASE_UI_") by {
      assert forall c :: c in "XRELEASE_UI_" ==> !IsSpace(c);
    }
    hide Visible, Sanitize;
    if !(org.None? || Blank(org.value)) {
      SanitizeVisible(Trim(org.value));
      UnderscoreVisible();
      VisibleConcat("XRELEASE_UI_", Sanitize(Trim(org.value)));
      VisibleConcat("XRELEASE_UI_" + Sanitize(Trim(org.value)), "_");
    }
  }

  lemma SanitizeVisible(raw: string)
    ensures Visible(Sanitize(raw))
  {
  }

  lemma UnderscoreVisible()
    ensures Visible("_")
  {
  }

  /** A name secrets can be stored under and found by: not blank and unchanged by trimming. */
  predicate Usable(name: string) {
    Trim(name) == name && !Blank(name)
  }

  predicate UsableSlots(slots: seq<Slot>) {
    forall k :: 0 <= k < |slots| ==> Usable(slots[k].auto)
  }

  /** A generated name is a usable name. */
  lemma AutoNameUsable(org: Option<string>, group: string, identity: string, suffix: string)
    ensures Usable(AutoName(org, group, identity, suffix))
  {
    hide AutoName, IsSpace;
    var name := AutoName(org, group, identity, suffix);
    AutoNameVisible(org, group, identity, suffix);
    assert Trimmed(name);
    VisibleNotBlank(name, 0);
  }

  lemma HeadPrefix(a: string, b: string, c: string, d: string)
    ensures a <= a + b + c + d && a + b + c <= a + b + c + d
  {
  }

  /** Every name normalisation generates is one its own scope recognises as prunable. */
  lemma AutoNameManaged(org: Option<string>, group: string, identity: string, suffix: string)
    requires group == "SRC" || group == "N"
    ensures IsUiManaged(AutoName(org, group, identity, suffix), org)
  {
    hide IsSpace, Trim, Sanitize;
    AutoNameUsable(org, group, identity, suffix);
    SanitizeFixes(group);
    HeadPrefix(ScopePrefix(org), group, "_", Sanitize(identity) + "_" + Sanitize(suffix));
    if org.None? || Blank(org.value) {
      assert "XRELEASE_UI_" + group + "_" == if group == "SRC" then "XRELEASE_UI_SRC_" else "XRELEASE_UI_N_";
    } else {
      HeadPrefix("XRELEASE_UI_", Sanitize(Trim(org.value)), "_", "");
      PrefixTrans("XRELEASE_UI_", ScopePrefix(org), AutoName(org, group, identity, suffix));
    }
  }

  /** Two organizations generate the same names exactly when their ids sanitise alike. */
  lemma ScopesShareNames(a: string, b: string, group: string, identity: string, suffix: string)
    requires !Blank(a) && !Blank(b)
    ensures AutoName(Some(a), group, identity, suffix) == AutoName(Some(b), group, identity, suffix)
            <==> Sanitize(Trim(a)) == Sanitize(Trim(b))
  {
    var rest := "_" + Sanitize(group) + "_" + (Sanitize(identity) + "_" + Sanitize(suffix));
    NameParts(a, group, identity, suffix, rest);
    NameParts(b, group, identity, suffix, rest);
    SameMiddle("XRELEASE_UI_", Sanitize(Trim(a)), Sanitize(Trim(b)), rest);
  }

  lemma NameParts(org: string, group: string, identity: string, suffix: string, rest: string)
    requires !Blank(org) && rest == "_" + Sanitize(group) + "_" + (Sanitize(identity) + "_" + Sanitize(suffix))
    ensures AutoName(Some(org), group, identity, suffix) == "XRELEASE_UI_" + Sanitize(Trim(org)) + rest
  {
    hide Sanitize, Trim;
  }

  lemma SameMiddle(head: string, x: string, y: string, tail: string)
    ensures head + x + tail == head + y + tail <==> x == y
  {
    if head + x + tail == head + y + tail {
      assert |x| == |y|;
      assert (head + x + tail)[|head|..|head| + |x|] == x;
      assert (head + y + tail)[|head|..|head| + |y|] == y;
    }
  }

  lemma PrefixTrans(a: string, b: string, c: string)
    requires a <= b && b <= c
    ensures a <= c
  {
  }

  lemma SlotsUsable(d: Desired, org: Option<string>)
    ensures UsableSlots(Slots(d, org))
  {
    hide Usable;
    SourceSlotsUsable(d.sources, org);
    NotifierSlotsUsable(d.notifiers, org);
  }

  lemma {:induction false} SourceSlotsUsable(sources: seq<Source>, org: Option<string>)
    ensures UsableSlots(SourceSlots(sources, org))
    decreases |sources|
  {
    hide AutoName, Usable;
    if sources != [] {
      var last := |sources| - 1;
      SourceSlotsUsable(sources[..last], org);
      AutoNameUsable(org, "SRC", SourceIdentity(sources[last], last), "TOKEN");
    }
  }

  lemma NotifierUsable(n: Notifier, index: nat, org: Option<string>)
    ensures UsableSlots(SlotsOfNotifier(n, index, org))
  {
    hide AutoName, Usable, NotifierFields, NotifierFieldLabels, NotifierGlobals, NotifierIdentity;
    forall k | 0 <= k < |NotifierFields(n)| ensures Usable(SlotsOfNotifier(n, index, org)[k].auto) {
      AutoNameUsable(org, "N", NotifierIdentity(n, index), NotifierFieldLabels(n)[k]);
    }
  }

  lemma {:induction false} NotifierSlotsUsable(notifiers: seq<Notifier>, org: Option<string>)
    ensures UsableSlots(NotifierSlots(notifiers, org))
    decreases |notifiers|
  {
    hide SlotsOfNotifier, Usable;
    if notifiers != [] {
      var last := |notifiers| - 1;
      NotifierSlotsUsable(notifiers[..last], org);
      NotifierUsable(notifiers[last], last, org);
    }
  }

  lemma RefsUsable(d: Desired)
    ensures forall name :: name in CollectRefs(d) ==> Usable(name)
  {
    hide SourceFields, NotifierFields, Trim;
    forall name | name in CollectRefs(d) ensures Usable(name) {
      if name in SourceRefs(d.sources) {
        var i :| 0 <= i < |d.sources| && name in RefsOf(SourceFields(d.sources[i]));
        RefUsable(SourceFields(d.sources[i]), name);
      } else {
        var i :| 0 <= i < |d.notifiers| && name in RefsOf(NotifierFields(d.notifiers[i]));
        RefUsable(NotifierFields(d.notifiers[i]), name);
      }
    }
  }

  lemma RefUsable(fs: seq<Field>, name: string)
    requires name in RefsOf(fs)
    ensures Usable(name)
  {
    hide Trim;
    var k :| 0 <= k < |fs| && !EnvBlank(fs[k].env) && Trim(fs[k].env.value) == name;
    TrimIdempotent(fs[k].env.value);
  }

  // ------------------------------------------- normalisation, slot by slot

  predicate NormalizesTo(before: seq<Slot>, after: seq<Slot>) {
    && |after| == |before|
    && forall k :: 0 <= k < |after| ==>
         after[k].field == NormalizeField(before[k].field, before[k].auto) && after[k].global == before[k].global
  }

  lemma NormalizesConcat(a: seq<Slot>, a': seq<Slot>, b: seq<Slot>, b': seq<Slot>)
    requires NormalizesTo(a, a') && NormalizesTo(b, b')
    ensures NormalizesTo(a + b, a' + b')
  {
    hide NormalizeField;
  }

  lemma NormalizedSource(s: Source, index: nat, org: Option<string>)
    ensures NormalizesTo(SlotsOfSource(s, index, org), SlotsOfSource(NormalizeSource(s, index, org), index, org))
  {
    hide NormalizeField, AutoName, SourceIdentity;
    SourceFieldsRoundTrip(s, NormalizeFields(SlotsOfSource(s, index, org)));
  }

  lemma NormalizedNotifier(n: Notifier, index: nat, org: Option<string>)
    ensures NormalizesTo(SlotsOfNotifier(n, index, org),
                         SlotsOfNotifier(NormalizeNotifier(n, index, org), index, org))
  {
    hide NormalizeField, AutoName, NotifierFieldLabels, NotifierIdentity;
    NotifierFieldsRoundTrip(n, NormalizeFields(SlotsOfNotifier(n, index, org)));
  }

  lemma {:induction false} NormalizedSourceSlots(sources: seq<Source>, org: Option<string>)
    ensures NormalizesTo(SourceSlots(sources, org), SourceSlots(NormalizeSources(sources, org), org))
    decreases |sources|
  {
    hide NormalizesTo, SlotsOfSource, NormalizeSource;
    if sources != [] {
      var last := |sources| - 1;
      assert NormalizeSources(sources, org)[..last] == NormalizeSources(sources[..last], org);
      NormalizedSourceSlots(sources[..last], org);
      NormalizedSource(sources[last], last, org);
      NormalizesConcat(SourceSlots(sources[..last], org), SourceSlots(NormalizeSources(sources[..last], org), org),
                       SlotsOfSource(sources[last], last, org),
                       SlotsOfSource(NormalizeSource(sources[last], last, org), last, org));
    } else {
      NothingNormalizes();
    }
  }

  lemma NothingNormalizes()
    ensures NormalizesTo([], [])
  {
  }

  lemma {:induction false} NormalizedNotifierSlots(notifiers: seq<Notifier>, org: Option<string>)
    ensures NormalizesTo(NotifierSlots(notifiers, org), NotifierSlots(NormalizeNotifiers(notifiers, org), org))
    decreases |notifiers|
  {
    hide NormalizesTo, SlotsOfNotifier, NormalizeNotifier;
    if notifiers != [] {
      var last := |notifiers| - 1;
      assert NormalizeNotifiers(notifiers, org)[..last] == NormalizeNotifiers(notifiers[..last], org);
      NormalizedNotifierSlots(notifiers[..last], org);
      NormalizedNotifier(notifiers[last], last, org);
      NormalizesConcat(NotifierSlots(notifiers[..last], org),
                       NotifierSlots(NormalizeNotifiers(notifiers[..last], org), org),
                       SlotsOfNotifier(notifiers[last], last, org),
                       SlotsOfNotifier(NormalizeNotifier(notifiers[last], last, org), last, org));
    } else {
      NothingNormalizes();
    }
  }

  /** Normalising a document normalises each of its secret fields, in place and in order. */
  lemma NormalizedSlots(d: Desired, org: Option<string>)
    ensures NormalizesTo(Slots(d, org), Slots(NormalizeDesired(d, org), org))
  {
    hide NormalizesTo, SourceSlots, NotifierSlots, NormalizeSources, NormalizeNotifiers;
    NormalizedSourceSlots(d.sources, org);
    NormalizedNotifierSlots(d.notifiers, org);
    NormalizesConcat(SourceSlots(d.sources, org), SourceSlots(NormalizeSources(d.sources, org), org),
                     NotifierSlots(d.notifiers, org), NotifierSlots(NormalizeNotifiers(d.notifiers, org), org));
  }

  // ----------------------------------------- every write stays referenced

  predicate NamesWithin(writes: seq<SecretWrite>, names: set<string>) {
    forall i :: 0 <= i < |writes| ==> writes[i].name in names
  }

  lemma {:induction false} UpsertNames(writes: seq<SecretWrite>, name: string, value: string, names: set<string>)
    requires NamesWithin(writes, names) && name in names
    ensures NamesWithin(Upsert(writes, name, value), names)
    decreases |writes|
  {
    if writes != [] && writes[0].name != name {
      UpsertNames(writes[1..], name, value, names);
    }
  }

  lemma {:induction false} PushedNames(json: Json, slots: seq<Slot>, names: set<string>)
    requires forall k :: 0 <= k < |slots| && HasLive(slots[k].field) ==>
               StoredName(slots[k].field.env, slots[k].auto) in names
    ensures NamesWithin(PushSlots(json, [], slots), names)
    decreases |slots|
  {
    hide HasLive, StoredName, StoredValue;
    if slots != [] {
      var last := |slots| - 1;
      PushedNames(json, slots[..last], names);
      if HasLive(slots[last].field) {
        UpsertNames(PushSlots(json, [], slots[..last]), StoredName(slots[last].field.env, slots[last].auto),
                    StoredValue(json, slots[last].field), names);
      }
    }
  }

  /** Every secret a normalisation stores is referenced by the document it leaves. */
  lemma WritesReferenced(json: Json, d: Desired, org: Option<string>)
    ensures NamesWithin(Writes(json, d, org), CollectRefs(NormalizeDesired(d, org)))
  {
    hide Slots, NormalizeDesired, CollectRefs, RefsOf, Usable, HasLive, PushSlots;
    var before, after := Slots(d, org), Slots(NormalizeDesired(d, org), org);
    NormalizedSlots(d, org);
    SlotsUsable(d, org);
    SlotRefs(NormalizeDesired(d, org), org);
    forall k | 0 <= k < |before| && HasLive(before[k].field)
      ensures StoredName(before[k].field.env, before[k].auto) in RefsOf(FieldsOf(after))
    {
      LiveNamed(before[k]);
      assert FieldsOf(after)[k] == NormalizeField(before[k].field, before[k].auto);
      RefListed(FieldsOf(after), k);
    }
    PushedNames(json, before, RefsOf(FieldsOf(after)));
  }

  lemma LiveNamed(slot: Slot)
    requires HasLive(slot.field) && Usable(slot.auto)
    ensures var env := NormalizeField(slot.field, slot.auto).env;
            !EnvBlank(env) && Trim(env.value) == StoredName(slot.field.env, slot.auto)
  {
  }

  lemma RefListed(fs: seq<Field>, k: nat)
    requires k < |fs| && !EnvBlank(fs[k].env)
    ensures Trim(fs[k].env.value) in RefsOf(fs)
  {
  }

  /** So the pruning that follows an apply never deletes a secret the same apply stored. */
  lemma PruneSparesWrites(json: Json, d: Desired, org: Option<string>, previous: set<string>)
    ensures forall i :: 0 <= i < |Writes(json, d, org)| ==>
              Writes(json, d, org)[i].name !in StaleSecrets(previous, CollectRefs(NormalizeDesired(d, org)), org)
  {
    hide CollectRefs, NormalizeDesired, Writes, IsUiManaged;
    WritesReferenced(json, d, org);
  }
}
