/**
 Which live entry a masked one is restored from, told in the attributes a document
 shows: repository, chat, workflow, host, channel, subject or name
 (`source_key` and the match arms of `restore_redacted_secrets` in
 src/config_apply/redact.rs).
 */
module Matching {
  import opened Text
  import opened Settings
  import opened Redaction
  import opened Restoration
  import opened Namespaces
  import opened RoundTrip
  import opened ReadBack

  // ---------------------------------------------------------------- sources

  /** Two sources are the same repository, image or project; a Gitea one on the same host. */
  predicate SameRepository(s: Source, t: Source)
    requires s.AuthSource? && t.AuthSource?
  {
    s.kind == t.kind && s.locator == t.locator && (s.kind == Gitea ==> s.host == t.host)
  }

  /** Keys are equal exactly for one kind and locator, for Gitea read together with the host. */
  lemma SourceKeyExactly(s: Source, t: Source)
    requires s.AuthSource? && t.AuthSource?
    ensures SourceKey(s) == SourceKey(t) <==>
            s.kind == t.kind
            && (if s.kind == Gitea then s.host + ":" + s.locator == t.host + ":" + t.locator else s.locator == t.locator)
    ensures ':' !in s.locator && ':' !in t.locator ==> (SourceKey(s) == SourceKey(t) <==> SameRepository(s, t))
  {
    if SourceKey(s) == SourceKey(t) {
      KeyDeterminesKind(s, t);
    }
    if s.kind == t.kind {
      var slug := KindSlug(s.kind) + ":";
      SameRest(slug, s.locator, t.locator);
      SameRest(slug, s.host + ":" + s.locator, t.host + ":" + t.locator);
      assert KindSlug(s.kind) + ":" + s.host + ":" + s.locator == slug + (s.host + ":" + s.locator);
      assert KindSlug(t.kind) + ":" + t.host + ":" + t.locator == slug + (t.host + ":" + t.locator);
    }
    if ':' !in s.locator && ':' !in t.locator && s.host + ":" + s.locator == t.host + ":" + t.locator {
      LastColon(s.host, s.locator, t.host, t.locator);
    }
  }

  lemma SameRest(head: string, x: string, y: string)
    ensures head + x == head + y <==> x == y
  {
    assert (head + x)[|head|..] == x && (head + y)[|head|..] == y;
  }

  lemma LastColon(host: string, locator: string, host': string, locator': string)
    requires ':' !in locator && ':' !in locator' && host + ":" + locator == host' + ":" + locator'
    ensures host == host' && locator == locator'
  {
    var a := host + ":" + locator;
    assert a[|host| + 1..] == locator && a[..|host|] == host;
    assert (host' + ":" + locator')[|host'| + 1..] == locator' && (host' + ":" + locator')[..|host'|] == host';
    FindLastAt(a, ':', |host|);
    FindLastAt(a, ':', |host'|);
  }

  /**
   A source takes its token from a live one exactly if there is one of its kind and
   locator, on its host for Gitea, and then from such a one.
   */
  lemma SourceDonorIsSame(prevs: seq<Source>, s: Source)
    requires s.AuthSource? && ':' !in s.locator
    requires forall j :: 0 <= j < |prevs| && prevs[j].AuthSource? ==> ':' !in prevs[j].locator
    ensures SourceDonor(prevs, s).Some? ==>
              SourceDonor(prevs, s).value.AuthSource? && SameRepository(SourceDonor(prevs, s).value, s)
    ensures SourceDonor(prevs, s).Some? <==>
            exists j :: 0 <= j < |prevs| && prevs[j].AuthSource? && SameRepository(prevs[j], s)
  {
    hide SourceKey, SameRepository;
    FindSourceIsFirst(prevs, s);
    forall j | 0 <= j < |prevs|
      ensures SourceKey(prevs[j]) == SourceKey(s) <==> prevs[j].AuthSource? && SameRepository(prevs[j], s)
    {
      KeyOfAuth(s);
      KeyOfAuth(prevs[j]);
      if prevs[j].AuthSource? {
        SourceKeyExactly(prevs[j], s);
      }
    }
    if FindSource(prevs, s).Some? {
      var i: nat :| FirstWithKey(prevs, s, i) && prevs[i] == FindSource(prevs, s).value;
      RepositoryKind(prevs[i], s);
    }
  }

  lemma RepositoryKind(s: Source, t: Source)
    requires s.AuthSource? && t.AuthSource? && SameRepository(s, t)
    ensures s.kind == t.kind
  {
  }

  // -------------------------------------------------------------- notifiers

  /** Whether the live notifier is the one a masked notifier stands for. */
  predicate SameTarget(prev: Notifier, n: Notifier) {
    match n
    case Apprise(_, endpoint, _, _, _) => prev.Apprise? && prev.endpoint == endpoint
    case Webhook(name, _, _, _, _, _) => prev.Webhook? && name.Some? && prev.name == name
    case Express(_, _, _, chat, _) => prev.Express? && prev.groupChatId == chat
    case Novu(_, _, _, workflow, topic, subscriber, _) =>
      prev.Novu? && (prev.workflow, prev.topicKey, prev.subscriberId) == (workflow, topic, subscriber)
    case Slack(name, _, _, _, channel, _) =>
      prev.Slack? && if Blank(channel) then prev.name == name else prev.channel == channel
    case Telegram(_, _, _, chat, _) => prev.Telegram? && prev.chatId == chat
    case Smtp(_, _, _, host, _) => prev.Smtp? && prev.smtpHost == host
    case Kafka(_, _, _, _) => false
    case Nats(name, _, _, subject, _) => prev.Nats? && (prev.name, prev.subject) == (name, subject)
    case Rabbitmq(name, _, _, key, _) => prev.Rabbitmq? && (prev.name, prev.routingKey) == (name, key)
  }

  /** A webhook is also recognised by its URL, if that was sent unmasked. */
  predicate Recognised(prev: Notifier, n: Notifier) {
    || SameTarget(prev, n)
    || (prev.Webhook? && n.Webhook? && !UrlNeedsRestore(n.url.inline) && prev.url.inline == n.url.inline)
  }

  /**
   A notifier takes its secrets from the first live one it stands for, by its own
   attributes; only an unnamed webhook with a masked URL can have another donor, the
   only webhook.
   */
  lemma SinkDonorIsSame(prevs: seq<Notifier>, n: Notifier)
    ensures SinkDonor(prevs, n).Some? ==>
              || Recognised(SinkDonor(prevs, n).value, n)
              || (n.Webhook? && n.name.None? && UrlNeedsRestore(n.url.inline)
                  && exists j: nat :: OnlyWebhook(prevs, j) && SinkDonor(prevs, n) == Some(prevs[j]))
    ensures (exists j :: 0 <= j < |prevs| && Recognised(prevs[j], n)) ==> SinkDonor(prevs, n).Some?
    ensures forall i :: 0 <= i < |prevs| && Recognised(prevs[i], n) && (forall j :: 0 <= j < i ==> !Recognised(prevs[j], n)) ==>
              SinkDonor(prevs, n) == Some(prevs[i])
  {
    forall prev ensures Recognised(prev, n) <==> SameSink(prev, n) {
    }
    hide Recognised, SameSink, UrlNeedsRestore;
    FindSinkIsFirst(prevs, n);
    OneWebhook(prevs);
    forall i | 0 <= i < |prevs| && Recognised(prevs[i], n) && (forall j :: 0 <= j < i ==> !Recognised(prevs[j], n))
      ensures SinkDonor(prevs, n) == Some(prevs[i])
    {
      SinkDonorIsFirst(prevs, n, i);
    }
  }

  // -------------------------------------------------------------- read back

  /** No two entries are for the same repository, chat, workflow, host, channel or name. */
  predicate Apart(d: Desired) {
    && (forall i, j :: 0 <= i < |d.sources| && 0 <= j < |d.sources| && i != j ==>
          d.sources[i].OpenSource? || d.sources[j].OpenSource? || !SameRepository(d.sources[i], d.sources[j]))
    && (forall i :: 0 <= i < |d.sources| && d.sources[i].AuthSource? ==> ':' !in d.sources[i].locator)
    && (forall i, j :: 0 <= i < |d.notifiers| && 0 <= j < |d.notifiers| && i != j ==>
          !SameTarget(d.notifiers[i], d.notifiers[j]))
  }

  lemma MaskedTarget(prev: Notifier, n: Notifier)
    ensures SameSink(prev, RedactNotifier(n)) <==> SameTarget(prev, n)
  {
    MaskedSelf(n);
    hide UrlNeedsRestore, RedactUserinfo;
  }

  /** Entries that are apart in what they show are apart in what restoration matches them on. */
  lemma ApartUnique(d: Desired)
    requires Apart(d)
    ensures UniqueKeys(d)
  {
    hide SameSink, SameTarget, SourceKey, SameRepository, RedactNotifier;
    forall i, j | 0 <= i < |d.sources| && 0 <= j < |d.sources| && i != j
      ensures SourceKey(d.sources[i]).None? || SourceKey(d.sources[i]) != SourceKey(d.sources[j])
    {
      KeyOfAuth(d.sources[i]);
      KeyOfAuth(d.sources[j]);
      if d.sources[i].AuthSource? && d.sources[j].AuthSource? {
        SourceKeyExactly(d.sources[i], d.sources[j]);
      }
    }
    forall i, j | 0 <= i < |d.notifiers| && 0 <= j < |d.notifiers| && i != j
      ensures !SameSink(d.notifiers[i], RedactNotifier(d.notifiers[j]))
    {
      MaskedTarget(d.notifiers[i], d.notifiers[j]);
    }
  }

  /** So a document whose entries are apart comes back from an unedited read exactly when its fields do. */
  lemma ApartReadBack(d: Desired)
    requires Apart(d)
    ensures RestoreDesired(d, RedactDesired(d)) == d <==> ReadsBack(d)
  {
    ApartUnique(d);
    DocumentReadBack(d);
  }

  // -------------------------------------------------------------------- ids

  /** The registry a source's default id names; GitHub and Codeberg are not told apart. */
  function Forge(s: Source): string {
    match s
    case AuthSource(kind, _, _, _, _, _, _) => if kind == Codeberg then "github" else KindSlug(kind)
    case OpenSource(kind, _, _, _, _) => OpenSlug(kind)
  }

  /** Two sources without ids of their own share one exactly if forge and locator agree, and for Gitea the host. */
  lemma DefaultIdExactly(s: Source, t: Source)
    requires ':' !in s.locator && ':' !in t.locator
    ensures DefaultId(s) == DefaultId(t) <==>
            Forge(s) == Forge(t) && s.locator == t.locator && (Forge(s) == "gitea" ==> s.host == t.host)
  {
    ForgePlain(s);
    ForgePlain(t);
    IdParts(s);
    IdParts(t);
    if DefaultId(s) == DefaultId(t) {
      PrefixUnique(':', Forge(s), Forge(t), Rest(s), Rest(t));
    }
    if Forge(s) == "gitea" && Forge(t) == "gitea" && Rest(s) == Rest(t) {
      LastColon(s.host, s.locator, t.host, t.locator);
    }
  }

  function Rest(s: Source): string {
    if s.AuthSource? && s.kind == Gitea then s.host + ":" + s.locator else s.locator
  }

  lemma ForgePlain(s: Source)
    ensures ':' !in Forge(s) && (Forge(s) == "gitea" <==> s.AuthSource? && s.kind == Gitea)
  {
  }

  lemma IdParts(s: Source)
    ensures DefaultId(s) == Forge(s) + [':'] + Rest(s)
  {
    if s.AuthSource? && s.kind == Gitea {
      assert "gitea:" + s.host + ":" + s.locator == "gitea" + [':'] + (s.host + ":" + s.locator);
    }
  }

  /** An id of a source's own is kept inside the organization, unless it carries a shared legacy prefix. */
  lemma OwnIdKept(org: string, s: Source, id: string)
    requires s.id == Some(id)
    ensures !Contains(id, SEPARATOR) && !("package:" <= id) && !("registry:" <= id) ==> NamespaceId(org, s) == Scoped(org, id)
    ensures !Contains(id, SEPARATOR) && ("package:" <= id || "registry:" <= id) ==>
              NamespaceId(org, s) == Scoped(org, DefaultId(s))
  {
    ContainsIffFound(id, SEPARATOR);
  }
}
