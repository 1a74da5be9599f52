/**
 Restoring never loses a secret that was sent: every inline secret of a pushed
 document is still there, in its place, after masked fields are filled from the
 live one (src/config_apply/redact.rs).
 */
module SecretCarry {
  import opened Text
  import opened Settings
  import opened Restoration
  import opened SecretRefs

  /** The restored field still holds the secret that was sent; only further headers may have been added. */
  predicate Carries(sent: Field, restored: Field) {
    && SameKind(restored, sent) && HasLive(restored)
    && match sent
       case Token(token, _) => restored.token == token
       case Plain(inline, _) => restored.inline == inline
       case Hook(inline, _) => restored.inline == inline
       case Broker(inline, _) => restored.inline == inline
       case Urls(urls, _, _) => restored.urls == urls
       case Headers(headers, _) =>
         forall key :: key in LiveHeaders(headers) ==>
           key in LiveHeaders(restored.headers) && restored.headers[key] == headers[key]
  }

  lemma DeadWhenMasked(value: string)
    ensures IsPlaceholder(value) ==> IsDead(value)
    ensures UrlNeedsRestore(value) ==> IsDead(value)
  {
    if Contains(value, REDACTED) {
      assert !IsSpace('<') && !IsSpace('>');
      assert REDACTED[0] == '<' && REDACTED[|REDACTED| - 1] == '>';
      TrimKeeps(value, REDACTED);
    }
  }

  lemma {:induction false} SomeUrlLive(urls: seq<string>)
    ensures LiveUrls(urls) != [] ==> exists i :: 0 <= i < |urls| && !IsDead(urls[i])
    decreases |urls|
  {
    hide IsDead;
    if urls != [] && IsDead(urls[0]) {
      SomeUrlLive(urls[1..]);
      if LiveUrls(urls) != [] {
        var i :| 0 <= i < |urls[1..]| && !IsDead(urls[1..][i]);
        assert !IsDead(urls[i + 1]);
      }
    }
  }

  /** A live field survives restoration, whatever the live configuration held in its place. */
  lemma FieldCarried(prev: Field, next: Field)
    requires SameKind(prev, next) && HasLive(next)
    ensures Carries(next, RestoreField(prev, next))
  {
    match next
    case Token(token, _) => DeadWhenMasked(token.value); hide IsDead;
      assert token.value != REDACTED by { DeadMarker(); }
    case Plain(inline, _) => DeadWhenMasked(inline); hide IsDead;
    case Hook(inline, _) => DeadWhenMasked(inline); hide IsDead;
    case Broker(inline, _) => DeadWhenMasked(inline); hide IsDead;
    case Urls(urls, _, _) => UrlsCarried(prev, next);
    case Headers(headers, _) => HeadersCarried(prev, next);
  }

  lemma DeadMarker()
    ensures IsDead(REDACTED)
  {
    var marker := REDACTED;
    assert !IsSpace('<') && !IsSpace('>');
    assert Trimmed(marker);
  }

  lemma UrlsCarried(prev: Field, next: Field)
    requires SameKind(prev, next) && next.Urls? && HasLive(next)
    ensures Carries(next, RestoreField(prev, next))
  {
    hide IsDead, IsPlaceholder;
    SomeUrlLive(next.urls);
    var i :| 0 <= i < |next.urls| && !IsDead(next.urls[i]);
    DeadWhenMasked(next.urls[i]);
  }

  lemma HeadersCarried(prev: Field, next: Field)
    requires SameKind(prev, next) && next.Headers? && HasLive(next)
    ensures Carries(next, RestoreField(prev, next))
  {
    hide IsDead, IsPlaceholder;
    var restored := RestoreField(prev, next).headers;
    forall key | key in LiveHeaders(next.headers)
      ensures key in LiveHeaders(restored) && restored[key] == next.headers[key]
    {
      DeadWhenMasked(next.headers[key]);
    }
    assert exists key :: key in LiveHeaders(next.headers);
    var key :| key in LiveHeaders(next.headers);
    assert key in LiveHeaders(restored);
  }

  lemma CarriesItself(f: Field)
    requires HasLive(f)
    ensures Carries(f, f)
  {
    hide IsDead;
  }

  // ----------------------------------------------------------- slot by slot

  predicate SlotsCarried(sent: seq<Slot>, restored: seq<Slot>) {
    && |restored| == |sent|
    && forall k :: 0 <= k < |sent| && HasLive(sent[k].field) ==> Carries(sent[k].field, restored[k].field)
  }

  lemma SlotsCarriedConcat(a: seq<Slot>, a': seq<Slot>, b: seq<Slot>, b': seq<Slot>)
    requires SlotsCarried(a, a') && SlotsCarried(b, b')
    ensures SlotsCarried(a + b, a' + b')
  {
    hide HasLive, Carries;
  }

  lemma NothingCarried()
    ensures SlotsCarried([], [])
  {
  }

  lemma SourceCarried(prevs: seq<Source>, s: Source, index: nat, org: Option<string>)
    ensures SlotsCarried(SlotsOfSource(s, index, org), SlotsOfSource(RestoreSource(prevs, s), index, org))
  {
    hide HasLive, Carries, RestoreField, AutoName, SourceIdentity, SourceKey;
    if s.AuthSource? && HasLive(s.token) {
      match SourceDonor(prevs, s)
      case None => CarriesItself(s.token);
      case Some(prev) =>
        assert Conform(SourceFields(prev), SourceFields(s));
        assert SourceFields(prev)[0] == prev.token && SourceFields(s)[0] == s.token;
        FieldCarried(prev.token, s.token);
    }
  }

  lemma NotifierCarried(prevs: seq<Notifier>, n: Notifier, index: nat, org: Option<string>)
    ensures SlotsCarried(SlotsOfNotifier(n, index, org), SlotsOfNotifier(RestoreNotifier(prevs, n), index, org))
  {
    hide HasLive, Carries, RestoreField, SlotsOfNotifier, SinkDonor, SameSink;
    var fs := NotifierFields(n);
    forall k | 0 <= k < |fs| && HasLive(fs[k]) ensures Carries(fs[k], fs[k]) {
      CarriesItself(fs[k]);
    }
    match SinkDonor(prevs, n)
    case None =>
    case Some(prev) =>
      var restored := RestoreFields(NotifierFields(prev), fs);
      NotifierFieldsRoundTrip(n, restored);
      hide NotifierFields, WithNotifierFields;
      forall k | 0 <= k < |fs| && HasLive(fs[k]) ensures Carries(fs[k], restored[k]) {
        FieldCarried(NotifierFields(prev)[k], fs[k]);
      }
  }

  lemma {:induction false} SourcesCarried(prevs: seq<Source>, sources: seq<Source>, org: Option<string>)
    ensures SlotsCarried(SourceSlots(sources, org), SourceSlots(RestoreSources(prevs, sources), org))
    decreases |sources|
  {
    hide SlotsCarried, SlotsOfSource, RestoreSource;
    if sources == [] {
      NothingCarried();
    } else {
      var last := |sources| - 1;
      var restored := RestoreSources(prevs, sources);
      assert restored[..last] == RestoreSources(prevs, sources[..last]);
      SourcesCarried(prevs, sources[..last], org);
      SourceCarried(prevs, sources[last], last, org);
      SlotsCarriedConcat(SourceSlots(sources[..last], org), SourceSlots(restored[..last], org),
                         SlotsOfSource(sources[last], last, org), SlotsOfSource(restored[last], last, org));
    }
  }

  lemma {:induction false} NotifiersCarried(prevs: seq<Notifier>, notifiers: seq<Notifier>, org: Option<string>)
    ensures SlotsCarried(NotifierSlots(notifiers, org), NotifierSlots(RestoreNotifiers(prevs, notifiers), org))
    decreases |notifiers|
  {
    hide SlotsCarried, SlotsOfNotifier, RestoreNotifier;
    if notifiers == [] {
      NothingCarried();
    } else {
      var last := |notifiers| - 1;
      var restored := RestoreNotifiers(prevs, notifiers);
      assert restored[..last] == RestoreNotifiers(prevs, notifiers[..last]);
      NotifiersCarried(prevs, notifiers[..last], org);
      NotifierCarried(prevs, notifiers[last], last, org);
      SlotsCarriedConcat(NotifierSlots(notifiers[..last], org), NotifierSlots(restored[..last], org),
                         SlotsOfNotifier(notifiers[last], last, org), SlotsOfNotifier(restored[last], last, org));
    }
  }

  /** Every inline secret of a document is carried through restoration, in its place. */
  lemma DocumentCarried(prev: Desired, next: Desired, org: Option<string>)
    ensures SlotsCarried(Slots(next, org), Slots(RestoreDesired(prev, next), org))
  {
    hide SlotsCarried, SourceSlots, NotifierSlots, RestoreSources, RestoreNotifiers;
    SourcesCarried(prev.sources, next.sources, org);
    NotifiersCarried(prev.notifiers, next.notifiers, org);
    SlotsCarriedConcat(SourceSlots(next.sources, org), SourceSlots(RestoreSources(prev.sources, next.sources), org),
                       NotifierSlots(next.notifiers, org),
                       NotifierSlots(RestoreNotifiers(prev.notifiers, next.notifiers), org));
  }

  lemma {:induction false} SlotsCarriedSelf(slots: seq<Slot>)
    ensures SlotsCarried(slots, slots)
  {
    hide HasLive, Carries;
    forall k | 0 <= k < |slots| && HasLive(slots[k].field) ensures Carries(slots[k].field, slots[k].field) {
      CarriesItself(slots[k].field);
    }
  }

  // --------------------------------------------------------- what is filled in

  predicate AllMasked(values: seq<string>) {
    forall i :: 0 <= i < |values| ==> IsPlaceholder(values[i])
  }

  predicate AllShown(values: seq<string>) {
    forall i :: 0 <= i < |values| ==> !IsPlaceholder(values[i])
  }

  /** A field sent without its secret, or with a mask in its place, gets the live one's, where there is one to give. */
  lemma MissingFilled(prev: Field, next: Field)
    requires SameKind(prev, next)
    ensures var r := RestoreField(prev, next);
            && (EnvBlank(next.env) && !EnvBlank(prev.env) ==> r.env == prev.env)
            && (!EnvBlank(next.env) ==> r.env == next.env)
            && match next
               case Token(token, _) =>
                 (token.None? || IsPlaceholder(token.value)) && prev.token.Some? && !IsPlaceholder(prev.token.value)
                 ==> r.token == prev.token
               case Plain(inline, _) => IsPlaceholder(inline) && !IsPlaceholder(prev.inline) ==> r.inline == prev.inline
               case Hook(inline, _) => UrlNeedsRestore(inline) && !UrlNeedsRestore(prev.inline) ==> r.inline == prev.inline
               case Broker(inline, _) => UrlNeedsRestore(inline) && !UrlNeedsRestore(prev.inline) ==> r.inline == prev.inline
               case Urls(urls, _, key) =>
                 AllMasked(urls) && key.None? && prev.urls != [] && AllShown(prev.urls) ==> r.urls == prev.urls
               case Headers(headers, _) =>
                 && (headers == map[] && (exists key :: key in prev.headers && !IsPlaceholder(prev.headers[key])) ==>
                       r.headers == prev.headers)
                 && (forall key | key in headers && key in prev.headers
                                  && IsPlaceholder(headers[key]) && !IsPlaceholder(prev.headers[key]) ::
                       key in r.headers && r.headers[key] == prev.headers[key])
  {
    MarkerMasked();
    hide Trim, Contains;
  }

  lemma MarkerMasked()
    ensures IsPlaceholder(REDACTED)
  {
    assert Trim(REDACTED) == REDACTED by { assert Trimmed(REDACTED); }
  }
}
