/**
 Undoing redaction on apply: fields a client sends back blank or masked are
 filled from the live configuration (`restore_redacted_secrets` in
 src/config_apply/redact.rs).
 */
module Restoration {
  import opened Text
  import opened Settings

  predicate IsPlaceholder(value: string) {
    Blank(value) || Trim(value) == REDACTED
  }

  predicate UrlNeedsRestore(value: string) {
    IsPlaceholder(value) || Contains(value, REDACTED)
  }

  function RestoreEnv(prev: Option<string>, next: Option<string>): Option<string> {
    if EnvBlank(next) && !EnvBlank(prev) then prev else next
  }

  /** `restore_inline`, then the clearing of a placeholder that a reference covers. */
  function RestoreInline(prev: string, next: string, env: Option<string>): string {
    var value := if IsPlaceholder(next) && !IsPlaceholder(prev) then prev else next;
    if !EnvBlank(env) && IsPlaceholder(value) then "" else value
  }

  function RestoreUrl(prev: string, next: string, env: Option<string>): string {
    var value := if UrlNeedsRestore(next) && !UrlNeedsRestore(prev) then prev else next;
    if !EnvBlank(env) && UrlNeedsRestore(value) then "" else value
  }

  /** `restore_source_token` */
  function RestoreToken(prev: Option<string>, next: Option<string>, env: Option<string>): Option<string> {
    var needs := next.None? || IsPlaceholder(next.value);
    var value := if needs && prev.Some? && !IsPlaceholder(prev.value) then prev else next;
    if !EnvBlank(env) && value == Some(REDACTED) then None else value
  }

  function RestoreUrls(prev: seq<string>, next: seq<string>, key: Option<string>, env: Option<string>): seq<string> {
    var missing := forall i :: 0 <= i < |next| ==> IsPlaceholder(next[i]);
    if missing && key.None? && prev != [] && (forall i :: 0 <= i < |prev| ==> !IsPlaceholder(prev[i])) then prev
    else if missing && !EnvBlank(env) then []
    else next
  }

  function RestoreHeaders(prev: map<string, string>, next: map<string, string>, env: Option<string>)
    : map<string, string>
  {
    var value :=
      if next == map[] && prev != map[] then prev
      else map key | key in next :: if key in prev && IsPlaceholder(next[key]) then prev[key] else next[key];
    if !EnvBlank(env) && (forall key :: key in value ==> IsPlaceholder(value[key])) then map[] else value
  }

  function RestoreField(prev: Field, next: Field): (r: Field)
    requires SameKind(prev, next)
    ensures SameKind(r, next) && r.env == RestoreEnv(prev.env, next.env)
  {
    var env := RestoreEnv(prev.env, next.env);
    match next
    case Token(token, _) => Token(RestoreToken(prev.token, token, env), env)
    case Plain(inline, _) => Plain(RestoreInline(prev.inline, inline, env), env)
    case Hook(inline, _) => Hook(RestoreUrl(prev.inline, inline, env), env)
    case Broker(inline, _) => Broker(RestoreUrl(prev.inline, inline, env), env)
    case Urls(urls, _, key) => Urls(RestoreUrls(prev.urls, urls, key, env), env, key)
    case Headers(headers, _) => Headers(RestoreHeaders(prev.headers, headers, env), env)
  }

  function RestoreFields(prev: seq<Field>, next: seq<Field>): (r: seq<Field>)
    requires Conform(prev, next)
    ensures Conform(r, next)
  {
    seq(|next|, k requires 0 <= k < |next| => RestoreField(prev[k], next[k]))
  }

  // ---------------------------------------------------------------- sources

  function KindSlug(kind: AuthKind): string {
    match kind
    case Github => "github"
    case Codeberg => "codeberg"
    case Gitea => "gitea"
    case Gitlab => "gitlab"
    case Bitbucket => "bitbucket"
    case Docker => "docker"
    case Ghcr => "ghcr"
    case Quay => "quay"
    case Ecr => "ecr"
  }

  /** `source_key`: what a source is recognised by. */
  function SourceKey(s: Source): Option<string> {
    if s.OpenSource? then None
    else if s.kind == Gitea then Some(KindSlug(s.kind) + ":" + s.host + ":" + s.locator)
    else Some(KindSlug(s.kind) + ":" + s.locator)
  }

  /** The first source of `prevs` with the key of `s`. */
  function FindSource(prevs: seq<Source>, s: Source): (r: Option<Source>)
    ensures r.Some? ==> r.value in prevs && SourceKey(r.value) == SourceKey(s)
  {
    if prevs == [] then None
    else if SourceKey(prevs[0]) == SourceKey(s) then Some(prevs[0])
    else FindSource(prevs[1..], s)
  }

  /** The source a restored one takes its secret from. */
  function SourceDonor(prevs: seq<Source>, s: Source): (r: Option<Source>)
    ensures r.Some? ==> r.value in prevs && Conform(SourceFields(r.value), SourceFields(s))
  {
    if s.OpenSource? then None
    else match FindSource(prevs, s)
      case None => None
      case Some(prev) => if prev.AuthSource? && prev.kind == s.kind then Some(prev) else None
  }

  function RestoreSource(prevs: seq<Source>, s: Source): Source {
    match SourceDonor(prevs, s)
    case None => s
    case Some(prev) => WithSourceFields(s, RestoreFields(SourceFields(prev), SourceFields(s)))
  }

  /** Position `i` holds the first source with the key of `s`. */
  predicate FirstWithKey(prevs: seq<Source>, s: Source, i: nat) {
    && i < |prevs| && SourceKey(prevs[i]) == SourceKey(s)
    && forall j :: 0 <= j < i ==> SourceKey(prevs[j]) != SourceKey(s)
  }

  lemma {:induction false} FindSourceIsFirst(prevs: seq<Source>, s: Source)
    ensures FindSource(prevs, s).None? <==> forall i :: 0 <= i < |prevs| ==> SourceKey(prevs[i]) != SourceKey(s)
    ensures FindSource(prevs, s).Some? ==> exists i: nat :: FirstWithKey(prevs, s, i) && prevs[i] == FindSource(prevs, s).value
    decreases |prevs|
  {
    hide SourceKey;
    if prevs == [] {
    } else if SourceKey(prevs[0]) == SourceKey(s) {
      assert FirstWithKey(prevs, s, 0);
    } else {
      FindSourceIsFirst(prevs[1..], s);
      assert forall i :: 0 < i < |prevs| ==> prevs[i] == prevs[1..][i - 1];
      if FindSource(prevs, s).Some? {
        var i: nat :| FirstWithKey(prevs[1..], s, i) && prevs[1..][i] == FindSource(prevs, s).value;
        assert FirstWithKey(prevs, s, i + 1);
      }
    }
  }

  /**
   A source is restored from the first live one with its key if that one is of its
   kind, and from none if there is no such first one; sources without a token are
   never restored.
   */
  lemma SourceDonorIsFirst(prevs: seq<Source>, s: Source, i: nat)
    ensures s.OpenSource? ==> SourceDonor(prevs, s) == None
    ensures s.AuthSource? && FirstWithKey(prevs, s, i) ==>
              SourceDonor(prevs, s) == if prevs[i].AuthSource? && prevs[i].kind == s.kind then Some(prevs[i]) else None
    ensures (forall j :: 0 <= j < |prevs| ==> SourceKey(prevs[j]) != SourceKey(s)) ==> SourceDonor(prevs, s) == None
  {
    hide SourceKey;
    FindSourceIsFirst(prevs, s);
    if s.AuthSource? && FirstWithKey(prevs, s, i) {
      var j: nat :| FirstWithKey(prevs, s, j) && prevs[j] == FindSource(prevs, s).value;
      assert i == j;
    }
  }

  // -------------------------------------------------------------- notifiers

  /** Whether the live notifier `prev` is recognised as the candidate `next`. */
  predicate SameSink(prev: Notifier, next: Notifier) {
    match (prev, next)
    case (Apprise(_, _, _, _, _), Apprise(_, _, _, _, _)) => prev.endpoint == next.endpoint
    case (Webhook(_, _, _, _, _, _), Webhook(_, _, _, _, _, _)) =>
      || (next.name.Some? && prev.name == next.name)
      || (!UrlNeedsRestore(next.url.inline) && prev.url.inline == next.url.inline)
    case (Express(_, _, _, _, _), Express(_, _, _, _, _)) => prev.groupChatId == next.groupChatId
    case (Novu(_, _, _, _, _, _, _), Novu(_, _, _, _, _, _, _)) =>
      prev.workflow == next.workflow && prev.topicKey == next.topicKey && prev.subscriberId == next.subscriberId
    case (Slack(_, _, _, _, _, _), Slack(_, _, _, _, _, _)) =>
      if Blank(next.channel) then prev.name == next.name else prev.channel == next.channel
    case (Telegram(_, _, _, _, _), Telegram(_, _, _, _, _)) => prev.chatId == next.chatId
    case (Smtp(_, _, _, _, _), Smtp(_, _, _, _, _)) => prev.smtpHost == next.smtpHost
    case (Nats(_, _, _, _, _), Nats(_, _, _, _, _)) => prev.subject == next.subject && prev.name == next.name
    case (Rabbitmq(_, _, _, _, _), Rabbitmq(_, _, _, _, _)) =>
      prev.routingKey == next.routingKey && prev.name == next.name
    case _ => false
  }

  function FindSink(prevs: seq<Notifier>, n: Notifier): (r: Option<Notifier>)
    ensures r.Some? ==> r.value in prevs && SameSink(r.value, n)
  {
    if prevs == [] then None
    else if SameSink(prevs[0], n) then Some(prevs[0])
    else FindSink(prevs[1..], n)
  }

  function WebhooksOf(prevs: seq<Notifier>): (r: seq<Notifier>)
    ensures forall n :: n in r ==> n in prevs && n.Webhook?
  {
    if prevs == [] then []
    else if prevs[0].Webhook? then [prevs[0]] + WebhooksOf(prevs[1..])
    else WebhooksOf(prevs[1..])
  }

  /**
   The notifier a restored one takes its secrets from: the first recognised one,
   or the only webhook there is for an unnamed webhook whose URL was masked.
   */
  function SinkDonor(prevs: seq<Notifier>, n: Notifier): (r: Option<Notifier>)
    ensures r.Some? ==> r.value in prevs && Conform(NotifierFields(r.value), NotifierFields(n))
  {
    match FindSink(prevs, n)
    case Some(prev) => Some(prev)
    case None =>
      if n.Webhook? && UrlNeedsRestore(n.url.inline) && n.name.None? && |WebhooksOf(prevs)| == 1
      then assert WebhooksOf(prevs)[0] in WebhooksOf(prevs); Some(WebhooksOf(prevs)[0])
      else None
  }

  /** Position `i` holds the first notifier recognised as `n`. */
  predicate FirstSink(prevs: seq<Notifier>, n: Notifier, i: nat) {
    i < |prevs| && SameSink(prevs[i], n) && forall j :: 0 <= j < i ==> !SameSink(prevs[j], n)
  }

  lemma {:induction false} FindSinkIsFirst(prevs: seq<Notifier>, n: Notifier)
    ensures FindSink(prevs, n).None? <==> forall i :: 0 <= i < |prevs| ==> !SameSink(prevs[i], n)
    ensures FindSink(prevs, n).Some? ==> exists i: nat :: FirstSink(prevs, n, i) && prevs[i] == FindSink(prevs, n).value
    decreases |prevs|
  {
    hide SameSink;
    if prevs == [] {
    } else if SameSink(prevs[0], n) {
      assert FirstSink(prevs, n, 0);
    } else {
      FindSinkIsFirst(prevs[1..], n);
      assert forall i :: 0 < i < |prevs| ==> prevs[i] == prevs[1..][i - 1];
      if FindSink(prevs, n).Some? {
        var i: nat :| FirstSink(prevs[1..], n, i) && prevs[1..][i] == FindSink(prevs, n).value;
        assert FirstSink(prevs, n, i + 1);
      }
    }
  }

  /** Position `i` holds the only webhook. */
  predicate OnlyWebhook(prevs: seq<Notifier>, i: nat) {
    i < |prevs| && prevs[i].Webhook? && forall j :: 0 <= j < |prevs| && prevs[j].Webhook? ==> j == i
  }

  lemma {:induction false} NoWebhooks(prevs: seq<Notifier>)
    ensures WebhooksOf(prevs) == [] <==> forall j :: 0 <= j < |prevs| ==> !prevs[j].Webhook?
    decreases |prevs|
  {
    if prevs != [] {
      NoWebhooks(prevs[1..]);
      assert forall j :: 0 < j < |prevs| ==> prevs[j] == prevs[1..][j - 1];
    }
  }

  lemma {:induction false} OneWebhook(prevs: seq<Notifier>)
    ensures |WebhooksOf(prevs)| == 1 <==> exists i: nat :: OnlyWebhook(prevs, i)
    ensures forall i: nat :: OnlyWebhook(prevs, i) ==> WebhooksOf(prevs) == [prevs[i]]
    decreases |prevs|
  {
    if prevs != [] {
      var rest := prevs[1..];
      assert forall j :: 0 < j < |prevs| ==> prevs[j] == rest[j - 1];
      NoWebhooks(rest);
      OneWebhook(rest);
      if prevs[0].Webhook? {
        if WebhooksOf(rest) == [] {
          assert OnlyWebhook(prevs, 0);
        }
      } else {
        forall i: nat | OnlyWebhook(prevs, i) ensures WebhooksOf(prevs) == [prevs[i]] {
          assert OnlyWebhook(rest, i - 1);
        }
        if i: nat :| OnlyWebhook(rest, i) {
          assert OnlyWebhook(prevs, i + 1);
        }
      }
    }
  }

  /**
   A notifier is restored from the first live one it is recognised as; failing
   that, an unnamed webhook with a masked URL from the only webhook there is; and
   otherwise from none.
   */
  lemma SinkDonorIsFirst(prevs: seq<Notifier>, n: Notifier, i: nat)
    ensures FirstSink(prevs, n, i) ==> SinkDonor(prevs, n) == Some(prevs[i])
    ensures (forall j :: 0 <= j < |prevs| ==> !SameSink(prevs[j], n)) ==>
              var unnamed := n.Webhook? && n.name.None? && UrlNeedsRestore(n.url.inline);
              && (unnamed && OnlyWebhook(prevs, i) ==> SinkDonor(prevs, n) == Some(prevs[i]))
              && (SinkDonor(prevs, n).Some? <==> unnamed && exists j: nat :: OnlyWebhook(prevs, j))
  {
    hide SameSink, UrlNeedsRestore;
    FindSinkIsFirst(prevs, n);
    OneWebhook(prevs);
    if FirstSink(prevs, n, i) {
      var j: nat :| FirstSink(prevs, n, j) && prevs[j] == FindSink(prevs, n).value;
      assert i == j;
    }
  }

  function RestoreNotifier(prevs: seq<Notifier>, n: Notifier): Notifier {
    match SinkDonor(prevs, n)
    case None => n
    case Some(prev) => WithNotifierFields(n, RestoreFields(NotifierFields(prev), NotifierFields(n)))
  }

  // -------------------------------------------------------------- documents

  function RestoreSources(prevs: seq<Source>, sources: seq<Source>): seq<Source> {
    seq(|sources|, i requires 0 <= i < |sources| => RestoreSource(prevs, sources[i]))
  }

  function RestoreNotifiers(prevs: seq<Notifier>, notifiers: seq<Notifier>): seq<Notifier> {
    seq(|notifiers|, i requires 0 <= i < |notifiers| => RestoreNotifier(prevs, notifiers[i]))
  }

  /** `restore_redacted_secrets` on the application layer */
  function RestoreDesired(prev: Desired, next: Desired): Desired {
    next.(sources := RestoreSources(prev.sources, next.sources),
          notifiers := RestoreNotifiers(prev.notifiers, next.notifiers))
  }

  /** The restore loop over sources, in place. */
  method FillSources(prevs: seq<Source>, sources: array<Source>)
    modifies sources
    ensures sources[..] == RestoreSources(prevs, old(sources[..]))
  {
    hide RestoreSource;
    ghost var filled := RestoreSources(prevs, sources[..]);
    var i := 0;
    while i < sources.Length
      invariant 0 <= i <= sources.Length
      invariant forall j :: 0 <= j < i ==> sources[j] == filled[j]
      invariant forall j :: i <= j < sources.Length ==> sources[j] == old(sources[j])
    {
      sources[i] := RestoreSource(prevs, sources[i]);
      i := i + 1;
    }
  }

  /** The restore loop over notifiers, in place. */
  method FillNotifiers(prevs: seq<Notifier>, notifiers: array<Notifier>)
    modifies notifiers
    ensures notifiers[..] == RestoreNotifiers(prevs, old(notifiers[..]))
  {
    hide RestoreNotifier;
    ghost var filled := RestoreNotifiers(prevs, notifiers[..]);
    var i := 0;
    while i < notifiers.Length
      invariant 0 <= i <= notifiers.Length
      invariant forall j :: 0 <= j < i ==> notifiers[j] == filled[j]
      invariant forall j :: i <= j < notifiers.Length ==> notifiers[j] == old(notifiers[j])
    {
      notifiers[i] := RestoreNotifier(prevs, notifiers[i]);
      i := i + 1;
    }
  }
}
