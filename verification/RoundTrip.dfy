/**
 Redaction, restoration and normalisation together: when applying a document
 that was read from the API, or an older ledger body, reproduces that document.
 */
module RoundTrip {
  import opened Text
  import opened Settings
  import opened Redaction
  import opened Restoration
  import opened SecretRefs

  /** No inline secret: what normalisation leaves. A refused token is left as the empty string. */
  predicate SealedField(f: Field) {
    RefsOnlyField(f) || (f.Token? && f.token == Some(""))
  }

  predicate Sealed(fs: seq<Field>) {
    forall k :: 0 <= k < |fs| ==> SealedField(fs[k])
  }

  predicate SealedDesired(d: Desired) {
    && (forall i :: 0 <= i < |d.sources| ==> Sealed(SourceFields(d.sources[i])))
    && (forall i :: 0 <= i < |d.notifiers| ==> Sealed(NotifierFields(d.notifiers[i])))
  }

  // ------------------------------------------------------------- agreement

  /** No blank reference of `next` would be filled from `prev`. */
  predicate EnvsAgree(prev: seq<Field>, next: seq<Field>)
    requires |prev| == |next|
  {
    forall k :: 0 <= k < |next| ==> EnvBlank(next[k].env) ==> EnvBlank(prev[k].env)
  }

  predicate SourceAgrees(prevs: seq<Source>, s: Source) {
    match SourceDonor(prevs, s)
    case None => true
    case Some(prev) => EnvsAgree(SourceFields(prev), SourceFields(s))
  }

  predicate NotifierAgrees(prevs: seq<Notifier>, n: Notifier) {
    match SinkDonor(prevs, n)
    case None => true
    case Some(prev) => EnvsAgree(NotifierFields(prev), NotifierFields(n))
  }

  /**
   What a client can check before it applies `next` over the live `prev`: every
   entry that leaves a reference blank is matched to a live entry that leaves it
   blank too.
   */
  predicate Agrees(prev: Desired, next: Desired) {
    && (forall i :: 0 <= i < |next.sources| ==> SourceAgrees(prev.sources, next.sources[i]))
    && (forall i :: 0 <= i < |next.notifiers| ==> NotifierAgrees(prev.notifiers, next.notifiers[i]))
  }

  // ------------------------------------------------------------- one field

  lemma DeadMarkers()
    ensures IsDead("") && IsDead(REDACTED) && IsPlaceholder("") && IsPlaceholder(REDACTED)
    ensures UrlNeedsRestore("") && UrlNeedsRestore(REDACTED) && RedactUserinfo("") == ""
  {
    BlankEmpty();
  }

  /** Restoring and normalising a sealed field, masked or not. */
  lemma FieldReproduced(prev: Field, next: Field, sent: Field, auto: string)
    requires SameKind(prev, next) && SealedField(prev)
    requires (sent == next && SealedField(next)) || (sent == RedactField(next) && RefsOnlyField(next))
    ensures SameKind(prev, sent)
    ensures var restored := RestoreField(prev, sent);
            && !HasLive(restored)
            && (NormalizeField(restored, auto) == next <==> (EnvBlank(next.env) ==> EnvBlank(prev.env)))
  {
    DeadMarkers();
    if next.Urls? {
      assert sent.urls == [] || sent.urls == [REDACTED];
      assert forall i :: 0 <= i < |sent.urls| ==> IsPlaceholder(sent.urls[i]);
    }
    if next.Headers? {
      assert forall key :: key in sent.headers ==> sent.headers[key] == REDACTED;
      assert LiveHeaders(map[]) == map[];
      assert LiveHeaders(sent.headers) == map[];
      assert RestoreHeaders(map[], sent.headers, None) == sent.headers;
    }
  }

  /** A masked notifier field that nothing restores is still reproduced: its mask is refused as a secret. */
  lemma FieldSurvivesAlone(next: Field, sent: Field, auto: string)
    requires (sent == next && SealedField(next)) || (sent == RedactField(next) && RefsOnlyField(next) && !next.Token?)
    ensures !HasLive(sent) && NormalizeField(sent, auto) == next
  {
    DeadMarkers();
    if next.Urls? {
      assert sent.urls == [] || sent.urls == [REDACTED];
    }
    if next.Headers? {
      assert forall key :: key in sent.headers ==> sent.headers[key] == REDACTED;
      assert LiveHeaders(sent.headers) == map[];
    }
  }

  // ------------------------------------------------------------- one entry

  /** What a client sends back for a stored entry's fields: the fields themselves, or their masks. */
  predicate SentFor(sent: seq<Field>, next: seq<Field>) {
    (sent == next && Sealed(next)) || (sent == RedactFields(next) && RefsOnly(next))
  }

  predicate NoneLive(slots: seq<Slot>) {
    forall k :: 0 <= k < |slots| ==> !HasLive(slots[k].field)
  }

  lemma FieldsReproduced(prev: seq<Field>, next: seq<Field>, sent: seq<Field>, slots: seq<Slot>)
    requires Conform(prev, next) && Sealed(prev) && SentFor(sent, next)
    requires Conform(prev, sent) && FieldsOf(slots) == RestoreFields(prev, sent)
    ensures NoneLive(slots)
    ensures NormalizeFields(slots) == next <==> EnvsAgree(prev, sent)
  {
    forall k | 0 <= k < |next|
      ensures !HasLive(slots[k].field) && EnvBlank(sent[k].env) == EnvBlank(next[k].env)
      ensures NormalizeFields(slots)[k] == next[k] <==> (EnvBlank(sent[k].env) ==> EnvBlank(prev[k].env))
    {
      assert slots[k].field == FieldsOf(slots)[k] == RestoreField(prev[k], sent[k]);
      FieldReproduced(prev[k], next[k], sent[k], slots[k].auto);
    }
    if EnvsAgree(prev, sent) {
      assert NormalizeFields(slots) == next;
    }
  }

  /** The two notifiers differ in their secret fields only. */
  predicate SameNotifier(m: Notifier, n: Notifier) {
    Conform(NotifierFields(m), NotifierFields(n)) && m == WithNotifierFields(n, NotifierFields(m))
  }

  lemma SameNotifierWith(m: Notifier, n: Notifier, fs: seq<Field>)
    requires SameNotifier(m, n) && Conform(fs, NotifierFields(m))
    ensures Conform(fs, NotifierFields(n))
    ensures NotifierFields(WithNotifierFields(m, fs)) == fs && SameNotifier(WithNotifierFields(m, fs), n)
    ensures WithNotifierFields(m, fs) == n <==> fs == NotifierFields(n)
  {
    assert forall k :: 0 <= k < |fs| ==> SameKind(fs[k], NotifierFields(m)[k]);
  }

  /** What a client sends back for a stored notifier. */
  predicate SentNotifier(sent: Notifier, n: Notifier) {
    SameNotifier(sent, n) && SentFor(NotifierFields(sent), NotifierFields(n))
  }

  lemma NotifierSent(n: Notifier)
    ensures Sealed(NotifierFields(n)) ==> SentNotifier(n, n)
    ensures RefsOnly(NotifierFields(n)) ==> SentNotifier(RedactNotifier(n), n)
  {
    hide RedactField;
    NotifierFieldsRoundTrip(n, NotifierFields(n));
    NotifierFieldsRoundTrip(n, RedactFields(NotifierFields(n)));
  }

  lemma SlotFields(n: Notifier, index: nat, org: Option<string>)
    ensures FieldsOf(SlotsOfNotifier(n, index, org)) == NotifierFields(n)
  {
  }

  lemma NotifierUnmatched(n: Notifier, sent: Notifier, index: nat, org: Option<string>)
    requires SentNotifier(sent, n)
    ensures NoneLive(SlotsOfNotifier(sent, index, org)) && NormalizeNotifier(sent, index, org) == n
  {
    hide WithNotifierFields, NormalizeField, HasLive, SlotsOfNotifier, RedactField;
    var next, masked, slots := NotifierFields(n), NotifierFields(sent), SlotsOfNotifier(sent, index, org);
    SlotFields(sent, index, org);
    forall k | 0 <= k < |next|
      ensures !HasLive(slots[k].field) && NormalizeFields(slots)[k] == next[k]
    {
      NotifierHasNoToken(n, k);
      assert slots[k].field == FieldsOf(slots)[k] == masked[k];
      FieldSurvivesAlone(next[k], masked[k], slots[k].auto);
    }
    assert NormalizeFields(slots) == next;
    SameNotifierWith(sent, n, NormalizeFields(slots));
  }

  lemma NotifierMatched(prev: Notifier, n: Notifier, sent: Notifier, restored: Notifier,
                        index: nat, org: Option<string>)
    requires SentNotifier(sent, n) && Sealed(NotifierFields(prev))
    requires Conform(NotifierFields(prev), NotifierFields(sent))
    requires restored == WithNotifierFields(sent, RestoreFields(NotifierFields(prev), NotifierFields(sent)))
    ensures NoneLive(SlotsOfNotifier(restored, index, org))
    ensures NormalizeNotifier(restored, index, org) == n <==>
            EnvsAgree(NotifierFields(prev), NotifierFields(sent))
  {
    hide WithNotifierFields, NormalizeField, HasLive, SlotsOfNotifier, RedactField, NotifierFields, RestoreField;
    var live, next, masked := NotifierFields(prev), NotifierFields(n), NotifierFields(sent);
    assert Conform(live, next) by {
      assert forall k :: 0 <= k < |live| ==> SameKind(live[k], masked[k]) && SameKind(masked[k], next[k]);
      KindsCompose(live, masked, next);
    }
    SameNotifierWith(sent, n, RestoreFields(live, masked));
    var slots := SlotsOfNotifier(restored, index, org);
    SlotFields(restored, index, org);
    FieldsReproduced(live, next, masked, slots);
    SameNotifierWith(restored, n, NormalizeFields(slots));
  }

  lemma KindsCompose(fs: seq<Field>, gs: seq<Field>, hs: seq<Field>)
    requires Conform(fs, gs) && Conform(gs, hs)
    ensures Conform(fs, hs)
  {
    forall k | 0 <= k < |fs| ensures SameKind(fs[k], hs[k]) {
      assert SameKind(fs[k], gs[k]) && SameKind(gs[k], hs[k]);
    }
  }

  /**
   One notifier, sent back as stored or masked, comes out of restoration and
   normalisation as it was stored exactly when its blank references stay blank.
   */
  lemma NotifierReproduced(prevs: seq<Notifier>, n: Notifier, sent: Notifier, index: nat, org: Option<string>)
    requires forall i :: 0 <= i < |prevs| ==> Sealed(NotifierFields(prevs[i]))
    requires SentNotifier(sent, n)
    ensures NoneLive(SlotsOfNotifier(RestoreNotifier(prevs, sent), index, org))
    ensures NormalizeNotifier(RestoreNotifier(prevs, sent), index, org) == n <==> NotifierAgrees(prevs, sent)
  {
    hide WithNotifierFields, NormalizeNotifier, SlotsOfNotifier, NotifierFields;
    match SinkDonor(prevs, sent)
    case None => NotifierUnmatched(n, sent, index, org);
    case Some(prev) => NotifierMatched(prev, n, sent, RestoreNotifier(prevs, sent), index, org);
  }

  lemma NotifierHasNoToken(n: Notifier, k: nat)
    requires k < |NotifierFields(n)|
    ensures !NotifierFields(n)[k].Token?
  {
  }

  /** One source: it is matched by its own key, so a stored list always supplies a donor. */
  lemma SourceReproduced(prevs: seq<Source>, s: Source, sent: Source, index: nat, org: Option<string>)
    requires forall i :: 0 <= i < |prevs| ==> Sealed(SourceFields(prevs[i]))
    requires (sent == s && Sealed(SourceFields(s)))
             || (sent == RedactSource(s) && RefsOnly(SourceFields(s)) && (s.AuthSource? ==> SourceDonor(prevs, s).Some?))
    ensures NoneLive(SlotsOfSource(RestoreSource(prevs, sent), index, org))
    ensures NormalizeSource(RestoreSource(prevs, sent), index, org) == s <==> SourceAgrees(prevs, sent)
  {
    if s.AuthSource? {
      hide NormalizeField, HasLive, RedactField, RestoreField;
      var auto := AutoName(org, "SRC", SourceIdentity(RestoreSource(prevs, sent), index), "TOKEN");
      SentKeepsKey(prevs, s);
      match SourceDonor(prevs, sent)
      case None => FieldSurvivesAlone(s.token, sent.token, auto);
      case Some(prev) =>
        assert Sealed(SourceFields(prev)) && SealedField(SourceFields(prev)[0]);
        FieldReproduced(prev.token, s.token, sent.token, auto);
    }
  }

  lemma {:induction false} SentKeepsKey(prevs: seq<Source>, s: Source)
    ensures SourceDonor(prevs, RedactSource(s)) == SourceDonor(prevs, s)
    decreases |prevs|
  {
    assert SourceKey(RedactSource(s)) == SourceKey(s);
    if prevs != [] && s.AuthSource? {
      SentKeepsKey(prevs[1..], s);
    }
  }

  // ------------------------------------------------------- whole documents

  lemma {:induction false} NothingToPush(json: Json, writes: seq<SecretWrite>, slots: seq<Slot>)
    requires NoneLive(slots)
    ensures PushSlots(json, writes, slots) == writes
    decreases |slots|
  {
    if slots != [] {
      NothingToPush(json, writes, slots[..|slots| - 1]);
    }
  }

  lemma {:induction false} SourceSlotsNotLive(sources: seq<Source>, org: Option<string>)
    requires forall i :: 0 <= i < |sources| ==> NoneLive(SlotsOfSource(sources[i], i, org))
    ensures NoneLive(SourceSlots(sources, org))
    decreases |sources|
  {
    hide SlotsOfSource, HasLive;
    if sources != [] {
      SourceSlotsNotLive(sources[..|sources| - 1], org);
    }
  }

  lemma {:induction false} NotifierSlotsNotLive(notifiers: seq<Notifier>, org: Option<string>)
    requires forall i :: 0 <= i < |notifiers| ==> NoneLive(SlotsOfNotifier(notifiers[i], i, org))
    ensures NoneLive(NotifierSlots(notifiers, org))
    decreases |notifiers|
  {
    hide SlotsOfNotifier, HasLive;
    if notifiers != [] {
      NotifierSlotsNotLive(notifiers[..|notifiers| - 1], org);
    }
  }

  /** What a client sends back for the stored document `d`: the document, or what the API showed for it. */
  predicate Sent(prev: Desired, d: Desired, sent: Desired) {
    || (sent == d && SealedDesired(d))
    || (sent == RedactDesired(d) && RefsOnlyDesired(d)
        && forall i :: 0 <= i < |d.sources| ==>
             d.sources[i].AuthSource? ==> SourceDonor(prev.sources, d.sources[i]).Some?)
  }

  lemma SentAsIs(prev: Desired, d: Desired)
    requires SealedDesired(d)
    ensures Sent(prev, d, d)
  {
    hide SealedDesired;
  }

  /**
   Restoring `sent` from the live document and normalising it never produces a
   secret write, and gives back the stored document exactly when the two agree
   on which references are blank.
   */
  lemma DocumentReproduced(json: Json, prev: Desired, d: Desired, sent: Desired, org: Option<string>)
    requires SealedDesired(prev) && Sent(prev, d, sent)
    ensures Writes(json, RestoreDesired(prev, sent), org) == []
    ensures NormalizeDesired(RestoreDesired(prev, sent), org) == d <==> Agrees(prev, sent)
  {
    hide RestoreSource, RestoreNotifier, NormalizeSource, NormalizeNotifier, SlotsOfSource, SlotsOfNotifier;
    hide RedactSource, RedactNotifier, SourceAgrees, NotifierAgrees, SourceDonor, SentNotifier, PushSlots;
    var restored := RestoreDesired(prev, sent);
    var result := NormalizeDesired(restored, org);
    forall i | 0 <= i < |d.sources|
      ensures NoneLive(SlotsOfSource(restored.sources[i], i, org))
      ensures result.sources[i] == d.sources[i] <==> SourceAgrees(prev.sources, sent.sources[i])
    {
      SourceReproduced(prev.sources, d.sources[i], sent.sources[i], i, org);
    }
    forall i | 0 <= i < |d.notifiers|
      ensures NoneLive(SlotsOfNotifier(restored.notifiers[i], i, org))
      ensures result.notifiers[i] == d.notifiers[i] <==> NotifierAgrees(prev.notifiers, sent.notifiers[i])
    {
      NotifierSent(d.notifiers[i]);
      NotifierReproduced(prev.notifiers, d.notifiers[i], sent.notifiers[i], i, org);
    }
    SourceSlotsNotLive(restored.sources, org);
    NotifierSlotsNotLive(restored.notifiers, org);
    NothingToPush(json, [], Slots(restored, org));
    if Agrees(prev, sent) {
      assert result.sources == d.sources;
      assert result.notifiers == d.notifiers;
    }
  }

  lemma NormalizedFieldsSealed(slots: seq<Slot>)
    ensures Sealed(NormalizeFields(slots))
  {
    hide HasLive;
  }

  /** Normalisation leaves no inline secret anywhere. */
  lemma NormalizedSealed(d: Desired, org: Option<string>)
    ensures SealedDesired(NormalizeDesired(d, org))
  {
    hide NormalizeField, SlotsOfSource, SlotsOfNotifier;
    var sealed := NormalizeDesired(d, org);
    forall i | 0 <= i < |d.sources| ensures Sealed(SourceFields(sealed.sources[i])) {
      NormalizedFieldsSealed(SlotsOfSource(d.sources[i], i, org));
      SourceFieldsRoundTrip(d.sources[i], NormalizeFields(SlotsOfSource(d.sources[i], i, org)));
    }
    forall i | 0 <= i < |d.notifiers| ensures Sealed(NotifierFields(sealed.notifiers[i])) {
      NormalizedFieldsSealed(SlotsOfNotifier(d.notifiers[i], i, org));
      NotifierFieldsRoundTrip(d.notifiers[i], NormalizeFields(SlotsOfNotifier(d.notifiers[i], i, org)));
    }
  }

  lemma SealedSource(s: Source, index: nat, org: Option<string>)
    requires Sealed(SourceFields(s))
    ensures NoneLive(SlotsOfSource(s, index, org)) && NormalizeSource(s, index, org) == s
  {
    hide HasLive, NormalizeField;
    if s.AuthSource? {
      assert SealedField(SourceFields(s)[0]);
      FieldSurvivesAlone(s.token, s.token, AutoName(org, "SRC", SourceIdentity(s, index), "TOKEN"));
    }
  }

  /** A document without inline secrets is a fixed point of normalisation and yields no writes. */
  lemma SealedFixed(json: Json, d: Desired, org: Option<string>)
    requires SealedDesired(d)
    ensures NormalizeDesired(d, org) == d && Writes(json, d, org) == [] && NoneLive(Slots(d, org))
  {
    hide NormalizeSource, NormalizeNotifier, SlotsOfSource, SlotsOfNotifier, PushSlots, SentNotifier;
    forall i | 0 <= i < |d.sources|
      ensures NoneLive(SlotsOfSource(d.sources[i], i, org)) && NormalizeSource(d.sources[i], i, org) == d.sources[i]
    {
      SealedSource(d.sources[i], i, org);
    }
    forall i | 0 <= i < |d.notifiers|
      ensures NoneLive(SlotsOfNotifier(d.notifiers[i], i, org))
      ensures NormalizeNotifier(d.notifiers[i], i, org) == d.notifiers[i]
    {
      NotifierSent(d.notifiers[i]);
      NotifierUnmatched(d.notifiers[i], d.notifiers[i], i, org);
    }
    SourceSlotsNotLive(d.sources, org);
    NotifierSlotsNotLive(d.notifiers, org);
    NothingToPush(json, [], Slots(d, org));
    assert NormalizeSources(d.sources, org) == d.sources;
    assert NormalizeNotifiers(d.notifiers, org) == d.notifiers;
  }

  /** Normalising twice adds nothing, whichever scope normalises again. */
  lemma NormalizationIdempotent(json: Json, d: Desired, org: Option<string>, org': Option<string>)
    ensures NormalizeDesired(NormalizeDesired(d, org), org') == NormalizeDesired(d, org)
    ensures Writes(json, NormalizeDesired(d, org), org') == []
  {
    hide NormalizeDesired, Writes, SealedDesired;
    NormalizedSealed(d, org);
    SealedFixed(json, NormalizeDesired(d, org), org');
  }

  lemma SlugsDiffer(a: AuthKind, b: AuthKind)
    requires KindSlug(a) == KindSlug(b)
    ensures a == b
  {
    var s := KindSlug(a);
    assert |s| == 6 ==> s[0] == 'd' || s[3] == 'h' || s[3] == 'l';
    assert |s| == 4 ==> s[0] == 'g' || s[0] == 'q';
  }

  /** Source keys of different kinds never collide. */
  lemma KeyDeterminesKind(s: Source, t: Source)
    requires s.AuthSource? && t.AuthSource? && SourceKey(s) == SourceKey(t)
    ensures s.kind == t.kind
  {
    var a, b := KindSlug(s.kind), KindSlug(t.kind);
    var x := if s.kind == Gitea then s.host + ":" + s.locator else s.locator;
    var y := if t.kind == Gitea then t.host + ":" + t.locator else t.locator;
    assert SourceKey(s).value == a + [':'] + x by {
      assert a + ":" + s.host + ":" + s.locator == a + ":" + (s.host + ":" + s.locator);
    }
    assert SourceKey(t).value == b + [':'] + y by {
      assert b + ":" + t.host + ":" + t.locator == b + ":" + (t.host + ":" + t.locator);
    }
    SlugPlain(s.kind);
    SlugPlain(t.kind);
    PrefixUnique(':', a, b, x, y);
    SlugsDiffer(s.kind, t.kind);
  }

  lemma SlugPlain(kind: AuthKind)
    ensures ':' !in KindSlug(kind)
  {
  }

  lemma {:induction false} FindSourceTotal(sources: seq<Source>, i: nat)
    requires i < |sources| && sources[i].AuthSource?
    ensures FindSource(sources, sources[i]).Some?
    decreases |sources|
  {
    hide SourceKey;
    if i > 0 {
      assert sources[1..][i - 1] == sources[i];
      FindSourceTotal(sources[1..], i - 1);
    }
  }

  /** A stored source list always holds a donor for each of its own sources. */
  lemma OwnDonor(sources: seq<Source>, i: nat)
    requires i < |sources| && sources[i].AuthSource?
    ensures SourceDonor(sources, sources[i]).Some?
  {
    FindSourceTotal(sources, i);
    var donor := FindSource(sources, sources[i]).value;
    assert donor.AuthSource?;
    KeyDeterminesKind(donor, sources[i]);
  }

  /**
   The GET-then-apply round trip: sending back what the API shows for a
   references-only document, over a runtime that runs it, gives that document
   and no secret writes, exactly when the document agrees with itself.
   */
  lemma GetThenApply(json: Json, live: Desired, stored: Desired, org: Option<string>)
    requires RefsOnlyDesired(stored)
    requires live.sources == stored.sources && live.notifiers == stored.notifiers
    ensures Writes(json, RestoreDesired(live, RedactDesired(stored)), org) == []
    ensures NormalizeDesired(RestoreDesired(live, RedactDesired(stored)), org) == stored
            <==> Agrees(stored, RedactDesired(stored))
  {
    hide RedactSource, RedactNotifier, SourceDonor, SourceFields, NotifierFields;
    forall i | 0 <= i < |stored.sources| && stored.sources[i].AuthSource?
      ensures SourceDonor(live.sources, stored.sources[i]).Some?
    {
      OwnDonor(stored.sources, i);
    }
    DocumentReproduced(json, live, stored, RedactDesired(stored), org);
  }

  /** Entries are told apart by what restoration matches them on. */
  predicate UniqueKeys(d: Desired) {
    && (forall i, j :: 0 <= i < |d.sources| && 0 <= j < |d.sources| && i != j ==>
          SourceKey(d.sources[i]).None? || SourceKey(d.sources[i]) != SourceKey(d.sources[j]))
    && (forall i, j :: 0 <= i < |d.notifiers| && 0 <= j < |d.notifiers| && i != j ==>
          !SameSink(d.notifiers[i], RedactNotifier(d.notifiers[j])))
  }

  lemma OwnSinkDonor(notifiers: seq<Notifier>, j: nat)
    requires j < |notifiers|
    requires forall i :: 0 <= i < |notifiers| && i != j ==> !SameSink(notifiers[i], RedactNotifier(notifiers[j]))
    ensures var donor := SinkDonor(notifiers, RedactNotifier(notifiers[j]));
            donor == None || donor == Some(notifiers[j])
  {
    hide SameSink;
    var sent := RedactNotifier(notifiers[j]);
    if FindSink(notifiers, sent).None? && SinkDonor(notifiers, sent).Some? {
      WebhookCounted(notifiers, j);
    }
  }

  lemma {:induction false} WebhookCounted(notifiers: seq<Notifier>, j: nat)
    requires j < |notifiers| && notifiers[j].Webhook?
    ensures notifiers[j] in WebhooksOf(notifiers)
    decreases |notifiers|
  {
    if j > 0 {
      WebhookCounted(notifiers[1..], j - 1);
    }
  }

  /** Unique match keys are enough for the round trip. */
  lemma UniqueKeysAgree(d: Desired)
    requires UniqueKeys(d)
    ensures Agrees(d, RedactDesired(d))
  {
    hide RedactField, SameSink;
    var sent := RedactDesired(d);
    forall i | 0 <= i < |d.sources| ensures SourceAgrees(d.sources, sent.sources[i]) {
      hide SourceKey;
      if d.sources[i].AuthSource? {
        SentKeepsKey(d.sources, d.sources[i]);
        OwnDonor(d.sources, i);
        RedactFieldKind(d.sources[i].token);
      }
    }
    forall j | 0 <= j < |d.notifiers| ensures NotifierAgrees(d.notifiers, sent.notifiers[j]) {
      OwnSinkDonor(d.notifiers, j);
      NotifierMaskKeepsEnvs(d.notifiers[j]);
    }
  }

  lemma NotifierMaskKeepsEnvs(n: Notifier)
    ensures |NotifierFields(RedactNotifier(n))| == |NotifierFields(n)|
    ensures forall k :: 0 <= k < |NotifierFields(n)| ==>
              NotifierFields(RedactNotifier(n))[k].env == NotifierFields(n)[k].env
  {
    NotifierFieldsRoundTrip(n, RedactFields(NotifierFields(n)));
  }

  /**
   Without unique keys the round trip fails: a second chat with the same id and
   no reference of its own comes back carrying the first one's reference.
   */
  lemma SharedKeyChangesDocument(json: Json)
    ensures var first := Telegram(None, ["a"], Plain("", Some("BOT")), "-100", "");
            var second := Telegram(None, ["b"], Plain("", None), "-100", "");
            var d := NOTHING_DESIRED.(notifiers := [first, second]);
            RefsOnlyDesired(d) && NormalizeDesired(RestoreDesired(d, RedactDesired(d)), None) != d
  {
    var first := Telegram(None, ["a"], Plain("", Some("BOT")), "-100", "");
    var second := Telegram(None, ["b"], Plain("", None), "-100", "");
    var d := NOTHING_DESIRED.(notifiers := [first, second]);
    var name := "BOT";
    VisibleNotBlank(name, 0);
    var sent := RedactDesired(d);
    assert sent.notifiers[1] == second;
    assert SinkDonor(d.notifiers, second) == Some(first);
    assert !NotifierAgrees(d.notifiers, sent.notifiers[1]);
    GetThenApply(json, d, d, None);
  }
}
