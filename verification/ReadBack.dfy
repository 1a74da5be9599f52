/**
 Restoring undoes redacting: what a read hides comes back when the document is
 sent unchanged, inline secrets included (src/config_apply/redact.rs).
 */
module ReadBack {
  import opened Text
  import opened Settings
  import opened Redaction
  import opened Restoration
  import opened RoundTrip

  // ------------------------------------------------------------- one field

  /** The field holds a secret that can be told from a mask, or none at all. */
  predicate Honest(f: Field) {
    match f
    case Token(token, env) =>
      token.None? || !IsPlaceholder(token.value) || (EnvBlank(env) && (Blank(token.value) || token.value == REDACTED))
    case Plain(inline, env) => inline == "" || !IsPlaceholder(inline) || (EnvBlank(env) && inline == REDACTED)
    case Hook(inline, env) => inline == "" || !UrlNeedsRestore(inline) || (EnvBlank(env) && inline == REDACTED)
    case Broker(inline, env) =>
      inline == "" || !UrlNeedsRestore(inline) || (EnvBlank(env) && RedactUserinfo(inline) == inline)
    case Urls(urls, env, key) =>
      || urls == []
      || (key.None? && forall i :: 0 <= i < |urls| ==> !IsPlaceholder(urls[i]))
      || (EnvBlank(env) && urls == [REDACTED])
    case Headers(headers, env) =>
      headers == map[] || EnvBlank(env) || exists key :: key in headers && !IsPlaceholder(headers[key])
  }

  lemma MaskIsPlaceholder()
    ensures IsPlaceholder("") && IsPlaceholder(REDACTED) && UrlNeedsRestore("") && UrlNeedsRestore(REDACTED)
    ensures RedactUserinfo("") == "" && !Blank(REDACTED) && Blank("")
  {
    BlankEmpty();
    var marker := REDACTED;
    assert marker[0] == '<' && !IsSpace('<');
    VisibleNotBlank(marker, 0);
    var s := "";
    assert Find(s, SCHEME_END) == None;
  }

  lemma {:induction false} ContainsInside(a: string, part: string, b: string)
    ensures Contains(a + part + b, part)
    decreases |a|
  {
    var s := a + part + b;
    if a == "" {
      assert s == part + b;
      assert s[..|part|] == part;
    } else {
      assert s[1..] == a[1..] + part + b;
      ContainsInside(a[1..], part, b);
    }
  }

  lemma RestMaskedOrSame(rest: string)
    ensures MaskRest(rest) == rest || exists tail :: MaskRest(rest) == REDACTED + tail
  {
    hide FindLast;
    match FindLast(Redaction.Authority(rest), '@')
    case None =>
    case Some(at) =>
      Associate(REDACTED, "@", rest[at + 1..]);
  }

  lemma Associate(a: string, b: string, c: string)
    ensures a + b + c == a + (b + c)
  {
  }

  lemma MarkerInside(head: string, tail: string)
    ensures Contains(head + (REDACTED + tail), REDACTED)
  {
    assert head + (REDACTED + tail) == head + REDACTED + tail;
    ContainsInside(head, REDACTED, tail);
  }

  /** Masking a URL either leaves it alone or leaves the marker in it. */
  lemma MaskedOrSame(url: string)
    ensures RedactUserinfo(url) == url || Contains(RedactUserinfo(url), REDACTED)
  {
    hide Contains, MaskRest, Find;
    match Find(url, SCHEME_END)
    case None =>
    case Some(i) =>
      RestMaskedOrSame(url[i + 3..]);
      if MaskRest(url[i + 3..]) == url[i + 3..] {
        assert url == url[..i + 3] + url[i + 3..];
      } else {
        var tail :| MaskRest(url[i + 3..]) == REDACTED + tail;
        MarkerInside(url[..i + 3], tail);
      }
  }

  /** A field sent back as it was shown is restored to what it was, exactly for honest fields. */
  lemma FieldReadBack(f: Field)
    ensures SameKind(f, RedactField(f))
    ensures RestoreField(f, RedactField(f)) == f <==> Honest(f)
  {
    MaskIsPlaceholder();
    hide Trim, Contains, RedactUserinfo;
    match f
    case Broker(inline, env) => MaskedOrSame(inline);
    case Urls(urls, env, key) => UrlsReadBack(f);
    case Headers(headers, env) => HeadersReadBack(f);
    case _ =>
  }

  lemma UrlsReadBack(f: Field)
    requires f.Urls?
    ensures RestoreField(f, RedactField(f)) == f <==> Honest(f)
  {
    MaskIsPlaceholder();
    hide Trim, Contains;
    var sent := RedactField(f);
    assert f.urls == [] || sent.urls == [REDACTED];
    assert forall i :: 0 <= i < |sent.urls| ==> IsPlaceholder(sent.urls[i]);
  }

  lemma HeadersReadBack(f: Field)
    requires f.Headers?
    ensures RestoreField(f, RedactField(f)) == f <==> Honest(f)
  {
    MaskIsPlaceholder();
    hide Trim, Contains;
    var headers, sent := f.headers, RedactField(f).headers;
    if headers == map[] {
      assert sent == map[] || sent == map["Authorization" := REDACTED];
    } else {
      assert sent.Keys == headers.Keys;
      var key :| key in headers;
      assert key in sent;
      assert forall k :: k in sent ==> sent[k] == REDACTED;
      assert RestoreHeaders(headers, sent, None) == headers;
    }
  }

  // ---------------------------------------------------------- whole documents

  predicate HonestFields(fs: seq<Field>) {
    forall k :: 0 <= k < |fs| ==> Honest(fs[k])
  }

  lemma FieldsReadBack(fs: seq<Field>)
    ensures Conform(fs, RedactFields(fs))
    ensures RestoreFields(fs, RedactFields(fs)) == fs <==> HonestFields(fs)
  {
    hide RedactField, RestoreField, Honest;
    var back := RedactFields(fs);
    forall k | 0 <= k < |fs|
      ensures SameKind(fs[k], RedactField(fs[k])) && (RestoreField(fs[k], RedactField(fs[k])) == fs[k] <==> Honest(fs[k]))
    {
      FieldReadBack(fs[k]);
    }
    var restored := RestoreFields(fs, back);
    assert forall k :: 0 <= k < |fs| ==> restored[k] == RestoreField(fs[k], RedactField(fs[k]));
  }

  /** A webhook without a name among several: once its URL is masked, nothing recognises it. */
  predicate Anonymous(notifiers: seq<Notifier>, n: Notifier) {
    n.Webhook? && n.name.None? && |WebhooksOf(notifiers)| != 1
  }

  lemma {:induction false} FindSinkTotal(notifiers: seq<Notifier>, n: Notifier, j: nat)
    requires j < |notifiers| && SameSink(notifiers[j], n)
    ensures FindSink(notifiers, n).Some?
    decreases |notifiers|
  {
    hide SameSink;
    if j > 0 {
      FindSinkTotal(notifiers[1..], n, j - 1);
    }
  }

  /** A masked notifier is still recognised as the one it came from. */
  lemma MaskedSelf(n: Notifier)
    ensures n.Kafka? || (n.Webhook? && n.name.None?) || SameSink(n, RedactNotifier(n))
    ensures n.Webhook? ==> UrlNeedsRestore(RedactNotifier(n).url.inline)
    ensures RedactNotifier(n).Webhook? == n.Webhook? && (n.Webhook? ==> RedactNotifier(n).name == n.name)
    ensures n.Kafka? ==> RedactNotifier(n) == n && NotifierFields(n) == []
  {
    MaskIsPlaceholder();
    hide Contains, Trim, RedactUserinfo;
  }

  lemma OwnDonorFound(notifiers: seq<Notifier>, j: nat)
    requires j < |notifiers| && !Anonymous(notifiers, notifiers[j]) && !notifiers[j].Kafka?
    requires forall i :: 0 <= i < |notifiers| && i != j ==> !SameSink(notifiers[i], RedactNotifier(notifiers[j]))
    ensures SinkDonor(notifiers, RedactNotifier(notifiers[j])) == Some(notifiers[j])
  {
    hide SameSink, RedactNotifier, UrlNeedsRestore;
    var n := notifiers[j];
    MaskedSelf(n);
    OwnSinkDonor(notifiers, j);
    if SameSink(n, RedactNotifier(n)) {
      FindSinkTotal(notifiers, RedactNotifier(n), j);
    }
  }

  /** What decides whether a notifier comes back: an anonymous webhook only if nothing of it was masked. */
  predicate ComesBack(notifiers: seq<Notifier>, n: Notifier) {
    if Anonymous(notifiers, n) then RedactNotifier(n) == n else HonestFields(NotifierFields(n))
  }

  /** Nothing is recognised as an anonymous webhook, so it is not restored at all. */
  lemma {:induction false} AnonymousUnmatched(notifiers: seq<Notifier>, n: Notifier)
    requires n.Webhook? && n.name.None?
    ensures FindSink(notifiers, RedactNotifier(n)).None?
    ensures Anonymous(notifiers, n) ==> RestoreNotifier(notifiers, RedactNotifier(n)) == RedactNotifier(n)
    decreases |notifiers|
  {
    MaskedSelf(n);
    hide UrlNeedsRestore, RedactNotifier;
    if notifiers != [] {
      AnonymousUnmatched(notifiers[1..], n);
    }
  }

  /** A notifier told apart from the others by its match key comes back exactly under `ComesBack`. */
  lemma NotifierReadBack(notifiers: seq<Notifier>, j: nat)
    requires j < |notifiers|
    requires forall i :: 0 <= i < |notifiers| && i != j ==> !SameSink(notifiers[i], RedactNotifier(notifiers[j]))
    ensures RestoreNotifier(notifiers, RedactNotifier(notifiers[j])) == notifiers[j]
            <==> ComesBack(notifiers, notifiers[j])
  {
    var n := notifiers[j];
    var fs := NotifierFields(n);
    if Anonymous(notifiers, n) {
      AnonymousUnmatched(notifiers, n);
    } else {
      MaskedSelf(n);
      FieldsReadBack(fs);
      NotifierFieldsRoundTrip(n, RedactFields(fs));
      NotifierFieldsRoundTrip(n, RestoreFields(fs, RedactFields(fs)));
      if n.Kafka? {
        KafkaReadBack(notifiers, n);
      } else {
        OwnDonorFound(notifiers, j);
        hide NotifierFields, WithNotifierFields, SameSink, Honest, RestoreField, RedactField, SinkDonor;
        WithTwice(n, RedactFields(fs), RestoreFields(fs, RedactFields(fs)));
      }
    }
  }

  lemma WithTwice(n: Notifier, fs: seq<Field>, gs: seq<Field>)
    requires Conform(fs, NotifierFields(n)) && Conform(gs, fs)
    ensures Conform(gs, NotifierFields(n))
    ensures Conform(gs, NotifierFields(WithNotifierFields(n, fs)))
    ensures WithNotifierFields(WithNotifierFields(n, fs), gs) == WithNotifierFields(n, gs)
  {
    assert forall k :: 0 <= k < |gs| ==> SameKind(gs[k], fs[k]) && SameKind(fs[k], NotifierFields(n)[k]);
    NotifierFieldsRoundTrip(n, fs);
  }

  lemma KafkaReadBack(notifiers: seq<Notifier>, n: Notifier)
    requires n.Kafka?
    ensures RestoreNotifier(notifiers, n) == n
  {
  }

  lemma SourceReadBack(sources: seq<Source>, i: nat)
    requires i < |sources|
    requires forall j :: 0 <= j < |sources| && j != i ==>
               SourceKey(sources[i]).None? || SourceKey(sources[j]) != SourceKey(sources[i])
    ensures RestoreSource(sources, RedactSource(sources[i])) == sources[i] <==> HonestFields(SourceFields(sources[i]))
  {
    hide SourceKey, Honest, RestoreField, RedactField;
    var s := sources[i];
    if s.AuthSource? {
      FieldReadBack(s.token);
      SentKeepsKey(sources, s);
      OwnDonor(sources, i);
      KeyOfAuth(s);
      assert SourceDonor(sources, s) == Some(s);
      assert RestoreFields(SourceFields(s), RedactFields(SourceFields(s)))[0] == RestoreField(s.token, RedactField(s.token));
      assert SourceFields(s)[0] == s.token;
    }
  }

  lemma KeyOfAuth(s: Source)
    ensures SourceKey(s).Some? <==> s.AuthSource?
  {
  }

  /** Every source is honest and every notifier comes back. */
  predicate ReadsBack(d: Desired) {
    && (forall i :: 0 <= i < |d.sources| ==> HonestFields(SourceFields(d.sources[i])))
    && (forall j :: 0 <= j < |d.notifiers| ==> ComesBack(d.notifiers, d.notifiers[j]))
  }

  /**
   For every document whose entries are told apart by their match keys, a read
   followed by an apply of what was shown restores every secret, inline or by
   reference, exactly when its fields are honest and each anonymous webhook had
   nothing to mask.
   */
  lemma DocumentReadBack(d: Desired)
    requires UniqueKeys(d)
    ensures RestoreDesired(d, RedactDesired(d)) == d <==> ReadsBack(d)
  {
    hide RestoreSource, RestoreNotifier, RedactSource, RedactNotifier, SameSink, SourceKey, HonestFields, SourceFields;
    hide NotifierFields, ComesBack;
    var back := RestoreDesired(d, RedactDesired(d));
    forall i | 0 <= i < |d.sources|
      ensures back.sources[i] == d.sources[i] <==> HonestFields(SourceFields(d.sources[i]))
    {
      SourceReadBack(d.sources, i);
    }
    forall j | 0 <= j < |d.notifiers|
      ensures back.notifiers[j] == d.notifiers[j] <==> ComesBack(d.notifiers, d.notifiers[j])
    {
      NotifierReadBack(d.notifiers, j);
    }
    if ReadsBack(d) {
      assert back.sources == d.sources && back.notifiers == d.notifiers;
    }
  }

  /**
   An anonymous webhook with an inline URL never comes back, whatever else the
   document holds: an unedited read sent back leaves the mask where its URL was.
   */
  lemma AnonymousWebhookLosesUrl(d: Desired, j: nat)
    requires j < |d.notifiers| && Anonymous(d.notifiers, d.notifiers[j]) && d.notifiers[j].url.inline != ""
    ensures var back := RestoreDesired(d, RedactDesired(d)).notifiers[j]; back.Webhook? && back.url.inline == REDACTED
  {
    hide WebhooksOf, Trim;
    AnonymousUnmatched(d.notifiers, d.notifiers[j]);
  }
}
