/**
 When two entries of a document are given one generated secret name
 (`auto_name`, `source_identity` and `notifier_identity` in src/config/secrets.rs).
 */
module SecretNames {
  import opened Text
  import opened Settings
  import opened SecretRefs

  // ------------------------------------------------------------------ parts

  predicate Plain(c: char) {
    'A' <= c <= 'Z' || '0' <= c <= '9' || c == '_'
  }

  predicate AllPlain(s: string) {
    forall i :: 0 <= i < |s| ==> Plain(s[i])
  }

  lemma PlainSanitized(s: string)
    requires AllPlain(s)
    ensures Sanitize(s) == s
  {
  }

  lemma SanitizedPlain(s: string)
    ensures AllPlain(Sanitize(s))
  {
  }

  lemma {:induction false} CollapsedPlain(s: string)
    requires AllPlain(s)
    ensures AllPlain(Collapse(s))
    decreases |s|
  {
    if s != "" {
      CollapsedPlain(s[1..]);
    }
  }

  lemma {:induction false} UnderscoresTrimmed(s: string)
    requires AllPlain(s)
    ensures AllPlain(TrimUnderscores(s))
    decreases |s|
  {
    if s != "" && s[0] == '_' {
      UnderscoresTrimmed(s[1..]);
    } else if s != "" && s[|s| - 1] == '_' {
      UnderscoresTrimmed(s[..|s| - 1]);
    }
  }

  lemma SlugPlain(raw: string, max: nat)
    ensures AllPlain(Slug(raw, max))
  {
    SanitizedPlain(raw);
    CollapsedPlain(Sanitize(raw));
    UnderscoresTrimmed(Collapse(Sanitize(raw)));
  }

  lemma {:induction false} DecimalPlain(n: nat)
    ensures AllPlain(Decimal(n)) && Decimal(n) != ""
    decreases n
  {
    if n >= 10 {
      DecimalPlain(n / 10);
    }
  }

  /** Positions are printed apart. */
  lemma {:induction false} DecimalApart(m: nat, n: nat)
    ensures Decimal(m) == Decimal(n) <==> m == n
    decreases m
  {
    if Decimal(m) == Decimal(n) {
      var a, b := Decimal(m), Decimal(n);
      assert a[|a| - 1] == (m % 10 + '0' as int) as char && b[|b| - 1] == (n % 10 + '0' as int) as char;
      assert a[..|a| - 1] == if m < 10 then "" else Decimal(m / 10);
      assert b[..|b| - 1] == if n < 10 then "" else Decimal(n / 10);
      DecimalPlain(m / 10);
      DecimalPlain(n / 10);
      if m >= 10 && n >= 10 {
        DecimalApart(m / 10, n / 10);
      }
    }
  }

  /** Inside a scope and for one field, names are equal exactly if the sanitised identities are. */
  lemma NamesBySlug(org: Option<string>, group: string, a: string, b: string, suffix: string)
    ensures AutoName(org, group, a, suffix) == AutoName(org, group, b, suffix) <==> Sanitize(a) == Sanitize(b)
  {
    var head, tail := ScopePrefix(org) + Sanitize(group) + "_", "_" + Sanitize(suffix);
    SameMiddle(head, Sanitize(a), Sanitize(b), tail);
    assert head + Sanitize(a) + tail == AutoName(org, group, a, suffix);
    assert head + Sanitize(b) + tail == AutoName(org, group, b, suffix);
  }

  // ---------------------------------------------------------------- sources

  lemma PositionPlain(i: nat)
    ensures AllPlain("I" + Decimal(i))
  {
    DecimalPlain(i);
  }

  lemma SourceIdentityPlain(s: Source, i: nat)
    ensures AllPlain(SourceIdentity(s, i))
  {
    hide Slug, AllPlain, Decimal;
    SlugPlain(s.locator, 48);
    PositionPlain(i);
  }

  /**
   Two sources get one generated name exactly if their locators are slugged alike, or,
   where nothing is left of a locator, by their positions: neither kind nor host is
   part of the name.
   */
  lemma SourceNamesCollide(org: Option<string>, s: Source, i: nat, t: Source, j: nat)
    ensures var x, y := Slug(s.locator, 48), Slug(t.locator, 48);
            AutoName(org, "SRC", SourceIdentity(s, i), "TOKEN") == AutoName(org, "SRC", SourceIdentity(t, j), "TOKEN")
            <==>
            (if x == "" && y == "" then i == j
             else if x == "" then y == "I" + Decimal(i)
             else if y == "" then x == "I" + Decimal(j)
             else x == y)
  {
    hide Slug, AllPlain, Decimal, Sanitize;
    SourceIdentityPlain(s, i);
    SourceIdentityPlain(t, j);
    PlainSanitized(SourceIdentity(s, i));
    PlainSanitized(SourceIdentity(t, j));
    NamesBySlug(org, "SRC", SourceIdentity(s, i), SourceIdentity(t, j), "TOKEN");
    DecimalApart(i, j);
    SameHead("I", Decimal(i), Decimal(j));
  }

  lemma SameHead(head: string, x: string, y: string)
    ensures head + x == head + y <==> x == y
  {
    assert (head + x)[|head|..] == x && (head + y)[|head|..] == y;
  }

  /** So a repository watched on two forges has one generated name for two tokens. */
  lemma ForgesShareName(org: Option<string>, s: Source, t: Source, i: nat, j: nat)
    requires s.AuthSource? && t.AuthSource? && s.locator == t.locator && Slug(s.locator, 48) != ""
    ensures SlotsOfSource(s, i, org)[0].auto == SlotsOfSource(t, j, org)[0].auto
  {
    hide Slug, AutoName;
    SourceNamesCollide(org, s, i, t, j);
  }

  // -------------------------------------------------------------- notifiers

  /** What stands for the notifier in its generated names, when it has no label. */
  function TipPart(n: Notifier, index: nat): string {
    if IsDead(NotifierTip(n)) then "I" + Decimal(index) else Slug(Trim(NotifierTip(n)), 24)
  }

  lemma TipPlain(n: Notifier, index: nat)
    ensures AllPlain(TipPart(n, index))
  {
    hide Slug, AllPlain, Decimal, IsDead, Trim;
    SlugPlain(Trim(NotifierTip(n)), 24);
    PositionPlain(index);
  }

  lemma PlainConcat(a: string, b: string)
    requires AllPlain(a) && AllPlain(b)
    ensures AllPlain(a + b)
  {
  }

  lemma KindPlain(n: Notifier)
    ensures AllPlain(NotifierKindSlug(n))
  {
  }

  lemma UnderscorePlain()
    ensures AllPlain("_") && AllPlain("")
  {
  }

  lemma IdentityPlain(n: Notifier, index: nat)
    ensures AllPlain(NotifierIdentity(n, index))
  {
    hide Slug, AllPlain, Decimal, IsDead, Trim, NotifierKindSlug, NotifierTip, FirstTag, NotifierLabel;
    UnderscorePlain();
    KindPlain(n);
    TipPlain(n, index);
    match NotifierLabel(n)
    case Some(name) => SlugPlain(name, 40);
    case None =>
      var tag := match FirstTag(n.tags) case Some(tag) => Slug(tag, 24) + "_" case None => "";
      if FirstTag(n.tags).Some? {
        SlugPlain(FirstTag(n.tags).value, 24);
        PlainConcat(Slug(FirstTag(n.tags).value, 24), "_");
      }
      PlainConcat(tag, NotifierKindSlug(n));
      PlainConcat(tag + NotifierKindSlug(n), "_");
      PlainConcat(tag + NotifierKindSlug(n) + "_", TipPart(n, index));
  }

  /** Two notifiers get one generated name for a field exactly if their identities are equal. */
  lemma NotifierNamesCollide(org: Option<string>, n: Notifier, i: nat, m: Notifier, j: nat, suffix: string)
    ensures AutoName(org, "N", NotifierIdentity(n, i), suffix) == AutoName(org, "N", NotifierIdentity(m, j), suffix)
            <==> NotifierIdentity(n, i) == NotifierIdentity(m, j)
  {
    hide NotifierIdentity, AllPlain, Sanitize, AutoName;
    IdentityPlain(n, i);
    IdentityPlain(m, j);
    PlainSanitized(NotifierIdentity(n, i));
    PlainSanitized(NotifierIdentity(m, j));
    NamesBySlug(org, "N", NotifierIdentity(n, i), NotifierIdentity(m, j), suffix);
  }

  /** Labelled notifiers share their names exactly if their labels are slugged alike. */
  lemma LabelledNames(n: Notifier, i: nat, m: Notifier, j: nat)
    requires !n.Apprise? && !m.Apprise? && n.name.Some? && m.name.Some? && !Blank(n.name.value) && !Blank(m.name.value)
    ensures NotifierIdentity(n, i) == NotifierIdentity(m, j) <==>
            Slug(Trim(n.name.value), 40) == Slug(Trim(m.name.value), 40)
  {
    hide Slug, Trim;
  }

  /**
   Notifiers of one kind without labels and with one first tag share their names exactly
   if what stands for them is slugged alike, or, where nothing does, by position: so
   reordering keeps the names of those that something stands for.
   */
  lemma UnlabelledNames(n: Notifier, i: nat, m: Notifier, j: nat)
    requires n.Apprise? || n.name.None? || Blank(n.name.value)
    requires m.Apprise? || m.name.None? || Blank(m.name.value)
    requires FirstTag(n.tags) == FirstTag(m.tags) && NotifierKindSlug(n) == NotifierKindSlug(m)
    ensures NotifierIdentity(n, i) == NotifierIdentity(m, j) <==>
            (if IsDead(NotifierTip(n)) && IsDead(NotifierTip(m)) then i == j else TipPart(n, i) == TipPart(m, j))
    ensures !IsDead(NotifierTip(n)) ==> NotifierIdentity(n, i) == NotifierIdentity(n, j)
  {
    hide Slug, Decimal, IsDead, Trim, NotifierKindSlug, NotifierTip, FirstTag;
    var tag := match FirstTag(n.tags) case Some(tag) => Slug(tag, 24) + "_" case None => "";
    var head := tag + NotifierKindSlug(n) + "_";
    assert NotifierIdentity(n, i) == head + TipPart(n, i);
    assert NotifierIdentity(m, j) == head + TipPart(m, j);
    assert NotifierIdentity(n, j) == head + TipPart(n, j);
    SameHead(head, TipPart(n, i), TipPart(m, j));
    DecimalApart(i, j);
    SameHead("I", Decimal(i), Decimal(j));
  }

  /** The secrets of one notifier are stored under different names. */
  lemma FieldsNamedApart(n: Notifier, index: nat, org: Option<string>, k: nat, l: nat)
    requires k < l < |NotifierFields(n)|
    ensures SlotsOfNotifier(n, index, org)[k].auto != SlotsOfNotifier(n, index, org)[l].auto
  {
    hide NotifierIdentity, Sanitize, ScopePrefix;
    var labels, identity := NotifierFieldLabels(n), NotifierIdentity(n, index);
    LabelsApart(n, k, l);
    PlainSanitized(labels[k]);
    PlainSanitized(labels[l]);
    var head := ScopePrefix(org) + Sanitize("N") + "_" + Sanitize(identity) + "_";
    SameHead(head, labels[k], labels[l]);
    assert AutoName(org, "N", identity, labels[k]) == head + labels[k];
    assert AutoName(org, "N", identity, labels[l]) == head + labels[l];
  }

  lemma LabelsApart(n: Notifier, k: nat, l: nat)
    requires k < l < |NotifierFields(n)|
    ensures NotifierFieldLabels(n)[k] != NotifierFieldLabels(n)[l]
    ensures AllPlain(NotifierFieldLabels(n)[k]) && AllPlain(NotifierFieldLabels(n)[l])
  {
    match n
    case Webhook(_, _, _, _, _, _) =>
      assert |"WEBHOOK_URL"| < |"WEBHOOK_SECRET"| < |"WEBHOOK_HEADERS"|;
    case Slack(_, _, _, _, _, _) =>
      assert |"SLACK_BOT"| < |"SLACK_WEBHOOK"|;
    case _ =>
  }

  /** Every kind of notifier falls back on variables of its own. */
  lemma FallbacksApart(n: Notifier, m: Notifier, k: nat, l: nat)
    requires k < |NotifierFields(n)| && l < |NotifierFields(m)|
    requires NotifierGlobals(n)[k] == NotifierGlobals(m)[l] != ""
    ensures NotifierKindSlug(n) == NotifierKindSlug(m) && k == l
  {
    var a, b := NotifierGlobals(n)[k], NotifierGlobals(m)[l];
    assert |a| == |b|;
    assert |a| > 10 ==> a[9] == b[9] && a[10] == b[10];
    assert |a| > 15 ==> a[15] == b[15];
  }

  /** The tag that is part of a name is the first that is not blank, trimmed. */
  lemma {:induction false} FirstTagIsFirst(tags: seq<string>, k: nat)
    ensures k < |tags| && !Blank(tags[k]) && (forall i :: 0 <= i < k ==> Blank(tags[i])) ==> FirstTag(tags) == Some(Trim(tags[k]))
    ensures (forall i :: 0 <= i < |tags| ==> Blank(tags[i])) ==> FirstTag(tags) == None
    decreases |tags|
  {
    hide Trim;
    if tags != [] && Blank(tags[0]) {
      FirstTagIsFirst(tags[1..], if k > 0 then k - 1 else 0);
      assert forall i :: 0 <= i < |tags| - 1 ==> tags[1..][i] == tags[i + 1];
    }
  }

  /** Unlabelled notifiers of one kind that the same thing stands for share their names exactly if their first tags are slugged alike. */
  lemma TagsNameApart(n: Notifier, i: nat, m: Notifier, j: nat)
    requires n.Apprise? || n.name.None? || Blank(n.name.value)
    requires m.Apprise? || m.name.None? || Blank(m.name.value)
    requires TipPart(n, i) == TipPart(m, j) && NotifierKindSlug(n) == NotifierKindSlug(m)
    ensures NotifierIdentity(n, i) == NotifierIdentity(m, j) <==>
            match (FirstTag(n.tags), FirstTag(m.tags))
            case (Some(a), Some(b)) => Slug(a, 24) == Slug(b, 24)
            case (None, None) => true
            case _ => false
  {
    hide Slug, Decimal, IsDead, Trim, NotifierKindSlug, NotifierTip, FirstTag;
    var tail := NotifierKindSlug(n) + "_" + TipPart(n, i);
    var a := match FirstTag(n.tags) case Some(tag) => Slug(tag, 24) + "_" case None => "";
    var b := match FirstTag(m.tags) case Some(tag) => Slug(tag, 24) + "_" case None => "";
    assert NotifierIdentity(n, i) == a + tail by { assert a + NotifierKindSlug(n) + "_" + TipPart(n, i) == a + tail; }
    assert NotifierIdentity(m, j) == b + tail by { assert b + NotifierKindSlug(n) + "_" + TipPart(n, i) == b + tail; }
    SameMiddle("", a, b, tail);
    assert "" + a + tail == a + tail && "" + b + tail == b + tail;
    if FirstTag(n.tags).Some? && FirstTag(m.tags).Some? {
      SameMiddle("", Slug(FirstTag(n.tags).value, 24), Slug(FirstTag(m.tags).value, 24), "_");
    }
  }
}
