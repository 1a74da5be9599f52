/**
 The configuration data model: what a desired-state document holds, what the
 bootstrap file holds, and the secret-bearing fields the two share.

 A source or notifier is its identifying attributes plus a fixed list of secret
 fields (`Fields`); every operation on secrets acts field by field.  Attributes
 that no modelled operation reads are carried in an opaque `other`.
 */
module Settings {
  import opened Text

  // ---------------------------------------------------------------- secrets

  /** One secret-bearing field: an inline value and the name of an env var or vault entry. */
  datatype Field =
    | Token(token: Option<string>, env: Option<string>)
    | Plain(inline: string, env: Option<string>)
    | Hook(inline: string, env: Option<string>)
    | Broker(inline: string, env: Option<string>)
    | Urls(urls: seq<string>, env: Option<string>, configKey: Option<string>)
    | Headers(headers: map<string, string>, env: Option<string>)

  type TokenField = f: Field | f.Token? witness Token(None, None)
  type PlainField = f: Field | f.Plain? witness Plain("", None)
  type HookField = f: Field | f.Hook? witness Hook("", None)
  type BrokerField = f: Field | f.Broker? witness Broker("", None)
  type UrlsField = f: Field | f.Urls? witness Urls([], None, None)
  type HeadersField = f: Field | f.Headers? witness Headers(map[], None)

  predicate EnvBlank(env: Option<string>) {
    env.None? || Blank(env.value)
  }

  /** The two fields are of one kind. */
  predicate SameKind(f: Field, g: Field) {
    match (f, g)
    case (Token(_, _), Token(_, _)) => true
    case (Plain(_, _), Plain(_, _)) => true
    case (Hook(_, _), Hook(_, _)) => true
    case (Broker(_, _), Broker(_, _)) => true
    case (Urls(_, _, _), Urls(_, _, _)) => true
    case (Headers(_, _), Headers(_, _)) => true
    case _ => false
  }

  predicate Conform(fs: seq<Field>, gs: seq<Field>) {
    |fs| == |gs| && forall k :: 0 <= k < |fs| ==> SameKind(fs[k], gs[k])
  }

  /** The inline secret is absent: only the `*_env` reference is kept. */
  predicate RefsOnlyField(f: Field) {
    match f
    case Token(token, _) => token == None
    case Plain(inline, _) => inline == ""
    case Hook(inline, _) => inline == ""
    case Broker(inline, _) => inline == ""
    case Urls(urls, _, _) => urls == []
    case Headers(headers, _) => headers == map[]
  }

  predicate RefsOnly(fs: seq<Field>) {
    forall k :: 0 <= k < |fs| ==> RefsOnlyField(fs[k])
  }

  // ---------------------------------------------------------------- sources

  /** Source kinds that carry an access token. */
  datatype AuthKind = Github | Codeberg | Gitea | Gitlab | Bitbucket | Docker | Ghcr | Quay | Ecr

  /** Source kinds that carry none. */
  datatype OpenKind =
    Feed | Pypi | Npm | Cargo | Maven | Nuget | Hex | Rubygems | Packagist | Yarn | Cpan | Artifacthub

  /** Settings shared by every source; unset ones are inherited. */
  datatype Common = Common(
    preset: Option<string>,
    routingTag: Option<string>,
    intervalSecs: Option<nat>,
    jitterSecs: Option<nat>,
    pollOnStartup: Option<bool>,
    notifySchedule: Option<string>,
    other: string)

  /** `locator` is the repo, project, image, feed URL or package name; `host` is read for Gitea only. */
  datatype Source =
    | AuthSource(kind: AuthKind, id: Option<string>, host: string, locator: string, token: TokenField,
                 common: Common, other: string)
    | OpenSource(openKind: OpenKind, id: Option<string>, locator: string, common: Common, other: string)

  function SourceFields(s: Source): seq<Field> {
    if s.AuthSource? then [s.token] else []
  }

  function WithSourceFields(s: Source, fs: seq<Field>): Source
    requires Conform(fs, SourceFields(s))
  {
    if s.AuthSource? then assert SameKind(fs[0], s.token); s.(token := fs[0]) else s
  }

  // -------------------------------------------------------------- notifiers

  datatype Notifier =
    | Apprise(tags: seq<string>, endpoint: string, urls: UrlsField, tag: Option<string>, other: string)
    | Webhook(name: Option<string>, tags: seq<string>, url: HookField, signing: PlainField, headers: HeadersField,
              other: string)
    | Express(name: Option<string>, tags: seq<string>, accessToken: PlainField, groupChatId: string, other: string)
    | Novu(name: Option<string>, tags: seq<string>, apiKey: PlainField, workflow: string, topicKey: Option<string>,
           subscriberId: Option<string>, other: string)
    | Slack(name: Option<string>, tags: seq<string>, webhookUrl: PlainField, slackBot: PlainField, channel: string,
            other: string)
    | Telegram(name: Option<string>, tags: seq<string>, botToken: PlainField, chatId: string, other: string)
    | Smtp(name: Option<string>, tags: seq<string>, password: PlainField, smtpHost: string, other: string)
    | Kafka(name: Option<string>, tags: seq<string>, topic: string, other: string)
    | Nats(name: Option<string>, tags: seq<string>, natsUrl: BrokerField, subject: string, other: string)
    | Rabbitmq(name: Option<string>, tags: seq<string>, amqpUrl: BrokerField, routingKey: string, other: string)

  function NotifierFields(n: Notifier): seq<Field> {
    match n
    case Apprise(_, _, urls, _, _) => [urls]
    case Webhook(_, _, url, signing, headers, _) => [url, signing, headers]
    case Express(_, _, token, _, _) => [token]
    case Novu(_, _, key, _, _, _, _) => [key]
    case Slack(_, _, url, bot, _, _) => [url, bot]
    case Telegram(_, _, bot, _, _) => [bot]
    case Smtp(_, _, password, _, _) => [password]
    case Kafka(_, _, _, _) => []
    case Nats(_, _, url, _, _) => [url]
    case Rabbitmq(_, _, url, _, _) => [url]
  }

  function WithNotifierFields(n: Notifier, fs: seq<Field>): Notifier
    requires Conform(fs, NotifierFields(n))
  {
    assert forall k :: 0 <= k < |fs| ==> SameKind(fs[k], NotifierFields(n)[k]);
    match n
    case Apprise(_, _, _, _, _) => n.(urls := fs[0])
    case Webhook(_, _, _, _, _, _) => n.(url := fs[0], signing := fs[1], headers := fs[2])
    case Express(_, _, _, _, _) => n.(accessToken := fs[0])
    case Novu(_, _, _, _, _, _, _) => n.(apiKey := fs[0])
    case Slack(_, _, _, _, _, _) => n.(webhookUrl := fs[0], slackBot := fs[1])
    case Telegram(_, _, _, _, _) => n.(botToken := fs[0])
    case Smtp(_, _, _, _, _) => n.(password := fs[0])
    case Kafka(_, _, _, _) => n
    case Nats(_, _, _, _, _) => n.(natsUrl := fs[0])
    case Rabbitmq(_, _, _, _, _) => n.(amqpUrl := fs[0])
  }

  lemma NotifierFieldsRoundTrip(n: Notifier, fs: seq<Field>)
    requires Conform(fs, NotifierFields(n))
    ensures NotifierFields(WithNotifierFields(n, fs)) == fs
    ensures WithNotifierFields(n, NotifierFields(n)) == n
  {
  }

  lemma SourceFieldsRoundTrip(s: Source, fs: seq<Field>)
    requires Conform(fs, SourceFields(s))
    ensures SourceFields(WithSourceFields(s, fs)) == fs
    ensures WithSourceFields(s, SourceFields(s)) == s
  {
  }

  // -------------------------------------------------------------- documents

  datatype Team = Team(tag: string, name: Option<string>)

  /** A named bundle of shared source settings; `filters` stands for its release filters. */
  datatype Preset = Preset(
    routingTag: Option<string>,
    intervalSecs: Option<nat>,
    jitterSecs: Option<nat>,
    pollOnStartup: Option<bool>,
    notifySchedule: Option<string>,
    filters: string)

  datatype NamedPreset = NamedPreset(name: string, preset: Preset)

  datatype Defaults = Defaults(
    intervalSecs: nat,
    jitterSecs: nat,
    upstreamRpm: nat,
    pollOnStartup: bool,
    notifySchedule: Option<string>,
    opsRoutingTag: Option<string>,
    other: string)

  const DEFAULTS := Defaults(86_400, 3_600, 0, true, None, None, "")

  /** The application layer of a configuration; `presets` is a map, as a list with one entry per name. */
  datatype Desired = Desired(
    defaults: Defaults,
    notifiers: seq<Notifier>,
    teams: seq<Team>,
    presets: seq<NamedPreset>,
    sources: seq<Source>)

  const NOTHING_DESIRED := Desired(DEFAULTS, [], [], [], [])

  /** `contains_app_sections` / `has_desired_state` */
  predicate HasDesiredState(d: Desired) {
    d.sources != [] || d.notifiers != [] || d.teams != [] || d.presets != [] || d.defaults != DEFAULTS
  }

  /** Every secret field of the document is a reference. */
  predicate RefsOnlyDesired(d: Desired) {
    && (forall i :: 0 <= i < |d.sources| ==> RefsOnly(SourceFields(d.sources[i])))
    && (forall i :: 0 <= i < |d.notifiers| ==> RefsOnly(NotifierFields(d.notifiers[i])))
  }

  datatype Database = Database(postgresUrl: string, other: string)
  datatype Api = Api(
    apiKey: Option<string>,
    webhookSecret: Option<string>,
    sessionSecret: Option<string>,
    adminPassword: Option<string>,
    other: string)

  /** `[config_api].source`: which store is authoritative for desired state. */
  datatype Authority = LocalFiles | ApiLedger

  /** The infrastructure layer; bootstrap-only. */
  datatype Infra = Infra(database: Database, log: string, api: Api, authority: Authority, advisories: string)

  const DEFAULT_INFRA := Infra(Database("", ""), "", Api(None, None, None, None, ""), LocalFiles, "")

  /** One `[[organizations]]` entry. */
  datatype Organization = Organization(id: string, app: Option<string>)

  datatype Config = Config(infra: Infra, organizations: seq<Organization>, apprise: string, desired: Desired)

  /** A desired-state document as a configuration: nothing but the application layer. */
  function DesiredOnly(d: Desired): Config {
    Config(DEFAULT_INFRA, [], "", d)
  }

  /** `ensure_desired_only` */
  predicate IsDesiredOnly(c: Config) {
    c.infra == DEFAULT_INFRA && c.organizations == [] && c.apprise == ""
  }

  /** `merge_bootstrap_over_desired` */
  function MergeBootstrap(bootstrap: Config, c: Config): Config {
    c.(infra := bootstrap.infra, organizations := bootstrap.organizations)
  }

  // ------------------------------------------------------------ environment

  /** The values `apply_env_overrides` takes from `XRELEASE_*` variables, once parsed. */
  datatype Overlay = Overlay(
    databaseUrl: Option<string>,
    apiKey: Option<string>,
    webhookSecret: Option<string>,
    sessionSecret: Option<string>,
    adminPassword: Option<string>,
    log: Option<string>,
    upstreamRpm: Option<nat>)

  function Or<T>(o: Option<T>, value: T): T {
    if o.Some? then o.value else value
  }

  function OrKeep(o: Option<string>, value: Option<string>): Option<string> {
    if o.Some? then o else value
  }

  function OverlayInfra(o: Overlay, i: Infra): Infra {
    i.(database := i.database.(postgresUrl := Or(o.databaseUrl, i.database.postgresUrl)),
       log := Or(o.log, i.log),
       api := i.api.(apiKey := OrKeep(o.apiKey, i.api.apiKey),
                     webhookSecret := OrKeep(o.webhookSecret, i.api.webhookSecret),
                     sessionSecret := OrKeep(o.sessionSecret, i.api.sessionSecret),
                     adminPassword := OrKeep(o.adminPassword, i.api.adminPassword)))
  }

  function OverlayDesired(o: Overlay, d: Desired): Desired {
    d.(defaults := d.defaults.(upstreamRpm := Or(o.upstreamRpm, d.defaults.upstreamRpm)))
  }

  /** `apply_env_overrides` */
  function OverlayConfig(o: Overlay, c: Config): Config {
    c.(infra := OverlayInfra(o, c.infra), desired := OverlayDesired(o, c.desired))
  }
}
