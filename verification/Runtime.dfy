/**
 What a swap builds: watches and sinks that hold the secrets they were built with,
 resolved once from the process variables and the vault
 (src/config/mod.rs, src/config/notifiers.rs, src/notify).
 */
module Runtime {
  import opened Text
  import opened Settings
  import opened SecretRefs
  import opened SecretMeaning
  import opened Composition

  // ------------------------------------------------------------------ lookups

  /** The stored value a field falls back on: that of its reference, else that of its kind's variable. */
  function Answer(vars: Vars, vault: map<string, string>, f: Field, global: string): Option<string> {
    match f
    case Token(_, env) =>
      if env.Some? && EnvToken(vars, vault, env.value).Some? then EnvToken(vars, vault, env.value)
      else EnvToken(vars, vault, global)
    case Urls(_, env, _) => if EnvBlank(env) then None else EnvToken(vars, vault, Trim(env.value))
    case Headers(_, env) => if EnvBlank(env) then None else EnvToken(vars, vault, Trim(env.value))
    case _ =>
      if !EnvBlank(f.env) && EnvToken(vars, vault, Trim(f.env.value)).Some? then EnvToken(vars, vault, Trim(f.env.value))
      else if Blank(global) then None
      else EnvToken(vars, vault, global)
  }

  /** What a field of this kind makes of a stored value. */
  function Read(json: Json, f: Field, answer: Option<string>): Meaning {
    match f
    case Token(_, _) => Bearer(answer)
    case Urls(_, _, _) =>
      Targets(match answer
              case None => []
              case Some(raw) =>
                match json.parseUrls(raw)
                case Some(parsed) => LiveUrls(parsed)
                case None => if IsDead(raw) then [] else [raw])
    case Headers(_, _) =>
      Table(match answer
            case None => map[]
            case Some(raw) => match json.parseHeaders(raw) case Some(parsed) => LiveHeaders(parsed) case None => map[])
    case _ => Text(match answer case None => "" case Some(value) => Sanitized(value))
  }

  /** A field means what it holds inline, or what it reads from the one stored value it falls back on. */
  lemma ResolveReads(json: Json, vars: Vars, vault: map<string, string>, vault': map<string, string>, f: Field,
                     global: string)
    ensures HasLive(f) ==> ResolveField(json, vars, vault, f, global) == ResolveField(json, vars, vault', f, global)
    ensures !HasLive(f) ==> ResolveField(json, vars, vault, f, global) == Read(json, f, Answer(vars, vault, f, global))
  {
    hide EnvToken, IsDead, LiveUrls, LiveHeaders, Trim, Blank;
  }

  // -------------------------------------------------------------------- sinks

  function TextOf(m: Meaning): string {
    if m.Text? then m.value else ""
  }

  /** What a notifier's constructor is given for its secret fields. */
  function Used(w: World, n: Notifier, vault: map<string, string>): (used: seq<Meaning>)
    ensures |used| == |NotifierFields(n)|
  {
    seq(|NotifierFields(n)|, k requires 0 <= k < |NotifierFields(n)| =>
      ResolveField(w.json, w.vars, vault, NotifierFields(n)[k], NotifierGlobals(n)[k]))
  }

  /** The credentials a constructor demands: a blank one is refused, and Slack takes exactly one of two. */
  predicate Credentialed(n: Notifier, used: seq<Meaning>)
    requires |used| == |NotifierFields(n)|
  {
    match n
    case Apprise(_, _, urls, _, _) => urls.configKey.Some? || (used[0].Targets? && used[0].targets != [])
    case Slack(_, _, _, _, channel, _) =>
      var hook, bot := !Blank(TextOf(used[0])), !Blank(TextOf(used[1]));
      hook != bot && (bot ==> !Blank(channel))
    case Smtp(_, _, _, _, _) => true
    case Kafka(_, _, _, _) => true
    case _ => !Blank(TextOf(used[0]))
  }

  predicate SinkBuilds(w: World, n: Notifier, vault: map<string, string>) {
    Credentialed(n, Used(w, n, vault)) && w.fits(n, Used(w, n, vault))
  }

  /** `to_watches` and `build_notifiers` both succeed. */
  predicate Builds(w: World, c: Config, vault: map<string, string>) {
    && (forall i :: 0 <= i < |c.desired.sources| ==>
          w.watchable(c.desired.defaults, c.desired.presets, c.desired.sources[i]))
    && (forall i :: 0 <= i < |c.desired.notifiers| ==> SinkBuilds(w, c.desired.notifiers[i], vault))
  }

  function SlotMeanings(w: World, slots: seq<Slot>, vault: map<string, string>): (r: seq<Meaning>)
    ensures |r| == |slots|
  {
    seq(|slots|, k requires 0 <= k < |slots| => ResolveField(w.json, w.vars, vault, slots[k].field, slots[k].global))
  }

  /** What the watches and sinks of a document hold once built, source by source and notifier by notifier. */
  function Meanings(w: World, d: Desired, vault: map<string, string>): seq<Meaning> {
    SlotMeanings(w, Slots(d, None), vault)
  }

  /** `to_watches`: every source becomes a watch with its token, or none does. */
  method BuildWatches(w: World, d: Desired, vault: map<string, string>) returns (watches: Option<seq<Meaning>>)
    ensures watches.Some? <==> forall i :: 0 <= i < |d.sources| ==> w.watchable(d.defaults, d.presets, d.sources[i])
    ensures watches.Some? ==> watches.value == SlotMeanings(w, SourceSlots(d.sources, None), vault)
  {
    hide ResolveField, SourceSlots, SlotsOfSource;
    var built: seq<Meaning> := [];
    NoSlots();
    var i := 0;
    while i < |d.sources|
      invariant 0 <= i <= |d.sources|
      invariant forall j :: 0 <= j < i ==> w.watchable(d.defaults, d.presets, d.sources[j])
      invariant built == SlotMeanings(w, SourceSlots(d.sources[..i], None), vault)
    {
      if !w.watchable(d.defaults, d.presets, d.sources[i]) {
        return None;
      }
      built := built + SlotMeanings(w, SlotsOfSource(d.sources[i], i, None), vault);
      NextSource(d.sources, i);
      i := i + 1;
    }
    assert d.sources[..|d.sources|] == d.sources;
    return Some(built);
  }

  /** `build_notifiers`: every notifier becomes a sink with its secrets, or none does. */
  method BuildSinks(w: World, notifiers: seq<Notifier>, vault: map<string, string>) returns (sinks: Option<seq<Meaning>>)
    ensures sinks.Some? <==> forall i :: 0 <= i < |notifiers| ==> SinkBuilds(w, notifiers[i], vault)
    ensures sinks.Some? ==> sinks.value == SlotMeanings(w, NotifierSlots(notifiers, None), vault)
  {
    hide SinkBuilds, ResolveField, NotifierSlots, SlotsOfNotifier, Used;
    var built: seq<Meaning> := [];
    NoSlots();
    var i := 0;
    while i < |notifiers|
      invariant 0 <= i <= |notifiers|
      invariant forall j :: 0 <= j < i ==> SinkBuilds(w, notifiers[j], vault)
      invariant built == SlotMeanings(w, NotifierSlots(notifiers[..i], None), vault)
    {
      if !SinkBuilds(w, notifiers[i], vault) {
        return None;
      }
      built := built + Used(w, notifiers[i], vault);
      NextNotifier(notifiers, i);
      UsedSlots(w, notifiers[i], i, vault);
      i := i + 1;
    }
    assert notifiers[..|notifiers|] == notifiers;
    return Some(built);
  }

  /** What a swap needs: all watches and all sinks, or nothing. */
  method Build(w: World, c: Config, vault: map<string, string>) returns (live: Option<seq<Meaning>>)
    ensures live == if Builds(w, c, vault) then Some(Meanings(w, c.desired, vault)) else None
  {
    hide SinkBuilds, ResolveField, SourceSlots, NotifierSlots;
    var watches := BuildWatches(w, c.desired, vault);
    if watches.None? {
      return None;
    }
    var sinks := BuildSinks(w, c.desired.notifiers, vault);
    if sinks.None? {
      return None;
    }
    assert watches.value + sinks.value == Meanings(w, c.desired, vault);
    return Some(watches.value + sinks.value);
  }

  lemma NoSlots()
    ensures SourceSlots([], None) == [] && NotifierSlots([], None) == []
  {
  }

  lemma NextSource(sources: seq<Source>, i: nat)
    requires i < |sources|
    ensures SourceSlots(sources[..i + 1], None) == SourceSlots(sources[..i], None) + SlotsOfSource(sources[i], i, None)
  {
    assert sources[..i + 1][..i] == sources[..i];
  }

  lemma NextNotifier(notifiers: seq<Notifier>, i: nat)
    requires i < |notifiers|
    ensures NotifierSlots(notifiers[..i + 1], None)
            == NotifierSlots(notifiers[..i], None) + SlotsOfNotifier(notifiers[i], i, None)
  {
    assert notifiers[..i + 1][..i] == notifiers[..i];
  }

  /** A sink is built with what its slots mean. */
  lemma UsedSlots(w: World, n: Notifier, index: nat, vault: map<string, string>)
    ensures Used(w, n, vault) == SlotMeanings(w, SlotsOfNotifier(n, index, None), vault)
  {
    hide ResolveField, NotifierFields, NotifierGlobals, NotifierFieldLabels, AutoName;
  }

  // -------------------------------------------------- what a lost secret does

  /** The notifier cannot be built once this field resolves to nothing. */
  predicate Demands(n: Notifier, k: nat) {
    match n
    case Apprise(_, _, urls, _, _) => k == 0 && urls.configKey.None?
    case Slack(_, _, _, _, _, _) => false
    case Smtp(_, _, _, _, _) => false
    case Kafka(_, _, _, _) => false
    case _ => k == 0
  }

  /** Nothing answers the field's lookup. */
  predicate Unanswered(w: World, vault: map<string, string>, f: Field, global: string) {
    !HasLive(f) && Answer(w.vars, vault, f, global).None?
  }

  /** A sink whose demanded secret is gone cannot be built, nor can any configuration with it. */
  lemma LostSecretBlocks(w: World, c: Config, i: nat, k: nat, vault: map<string, string>)
    requires i < |c.desired.notifiers|
    requires var n := c.desired.notifiers[i];
             k < |NotifierFields(n)| && Demands(n, k)
             && Unanswered(w, vault, NotifierFields(n)[k], NotifierGlobals(n)[k])
    ensures !Builds(w, c, vault)
  {
    hide ResolveField, HasLive, Answer, NotifierGlobals;
    var n := c.desired.notifiers[i];
    ResolveReads(w.json, w.vars, vault, vault, NotifierFields(n)[k], NotifierGlobals(n)[k]);
    BlankEmpty();
    assert !Credentialed(n, Used(w, n, vault));
    assert !SinkBuilds(w, n, vault);
  }

  /** A Slack sink is built exactly with one of its two credentials, so losing the only one blocks it too. */
  lemma SlackNeedsOne(w: World, n: Notifier, vault: map<string, string>)
    requires n.Slack?
    requires forall k :: 0 <= k < 2 ==> Unanswered(w, vault, NotifierFields(n)[k], NotifierGlobals(n)[k])
    ensures !SinkBuilds(w, n, vault)
  {
    hide ResolveField, HasLive, Answer, NotifierGlobals;
    ResolveReads(w.json, w.vars, vault, vault, NotifierFields(n)[0], NotifierGlobals(n)[0]);
    BlankEmpty();
    ResolveReads(w.json, w.vars, vault, vault, NotifierFields(n)[1], NotifierGlobals(n)[1]);
  }

  // ------------------------------------------------ when two vaults mean the same

  /** The slot means the same under both vaults: it holds its secret, or reads the same from what answers it. */
  predicate SlotSteady(w: World, slot: Slot, vault: map<string, string>, vault': map<string, string>) {
    || HasLive(slot.field)
    || Read(w.json, slot.field, Answer(w.vars, vault, slot.field, slot.global))
       == Read(w.json, slot.field, Answer(w.vars, vault', slot.field, slot.global))
  }

  /** A document's runtime is the same under two vaults exactly if every one of its slots is steady. */
  lemma MeaningsSame(w: World, d: Desired, vault: map<string, string>, vault': map<string, string>)
    ensures Meanings(w, d, vault) == Meanings(w, d, vault') <==>
            forall k :: 0 <= k < |Slots(d, None)| ==> SlotSteady(w, Slots(d, None)[k], vault, vault')
  {
    hide ResolveField, HasLive, Answer, Slots, Read;
    var slots := Slots(d, None);
    var a, b := Meanings(w, d, vault), Meanings(w, d, vault');
    forall k | 0 <= k < |slots| ensures a[k] == b[k] <==> SlotSteady(w, slots[k], vault, vault') {
      ResolveReads(w.json, w.vars, vault, vault', slots[k].field, slots[k].global);
      ResolveReads(w.json, w.vars, vault', vault, slots[k].field, slots[k].global);
    }
    if a == b {
      forall k | 0 <= k < |slots| ensures SlotSteady(w, slots[k], vault, vault') {
        assert a[k] == b[k];
      }
    }
  }

  /** The stored names a field looks up, those that a process variable answers left out. */
  predicate Consults(vars: Vars, f: Field, global: string, name: string) {
    && Unset(vars, name)
    && ((!EnvBlank(f.env) && name == Trim(f.env.value)) || (f.Token? && f.env == Some(name)) || name == global)
  }

  /** A slot is steady if no stored name it looks up, unshadowed, answers differently. */
  lemma SteadyIfUntouched(w: World, slot: Slot, vault: map<string, string>, vault': map<string, string>)
    requires forall name :: Consults(w.vars, slot.field, slot.global, name) ==> VaultGet(vault, name) == VaultGet(vault', name)
    ensures SlotSteady(w, slot, vault, vault')
  {
    hide VaultGet, Read, HasLive, Trim, Blank;
    var f := slot.field;
    forall name | name == slot.global || (!EnvBlank(f.env) && name == Trim(f.env.value)) || (f.Token? && f.env == Some(name))
      ensures EnvToken(w.vars, vault, name) == EnvToken(w.vars, vault', name)
    {
      assert Consults(w.vars, f, slot.global, name) || !Unset(w.vars, name);
    }
  }

  /** A bearer token is outdated by every change of what answers it; a text field by every change to or from a usable value. */
  lemma SteadyExactly(w: World, slot: Slot, vault: map<string, string>, vault': map<string, string>)
    requires !HasLive(slot.field) && !slot.field.Urls? && !slot.field.Headers?
    requires var a, b := Answer(w.vars, vault, slot.field, slot.global), Answer(w.vars, vault', slot.field, slot.global);
             slot.field.Token? || ((a.Some? ==> !IsDead(a.value)) && (b.Some? ==> !IsDead(b.value)))
    ensures SlotSteady(w, slot, vault, vault') <==>
            Answer(w.vars, vault, slot.field, slot.global) == Answer(w.vars, vault', slot.field, slot.global)
  {
    hide Answer, HasLive;
    BlankEmpty();
  }

  // --------------------------------------------------- which sinks are built

  /** What a notifier's k-th secret means under a vault. */
  function Means(w: World, n: Notifier, k: nat, vault: map<string, string>): Meaning
    requires k < |NotifierFields(n)|
  {
    ResolveField(w.json, w.vars, vault, NotifierFields(n)[k], NotifierGlobals(n)[k])
  }

  predicate Given(m: Meaning) {
    m.Text? && !Blank(m.value)
  }

  /**
   A sink is built exactly if its options fit and its credential is there: a text that
   is not blank, for Slack a hook or else a bot with a channel, for Apprise some URL
   unless a key stands for them; mail and Kafka demand none.
   */
  lemma SinkBuildsExactly(w: World, n: Notifier, vault: map<string, string>)
    ensures SinkBuilds(w, n, vault) <==>
            && w.fits(n, Used(w, n, vault))
            && match n
               case Apprise(_, _, urls, _, _) => urls.configKey.Some? || Means(w, n, 0, vault) != Targets([])
               case Slack(_, _, _, _, channel, _) =>
                 if Given(Means(w, n, 0, vault)) then !Given(Means(w, n, 1, vault))
                 else Given(Means(w, n, 1, vault)) && !Blank(channel)
               case Smtp(_, _, _, _, _) => true
               case Kafka(_, _, _, _) => true
               case _ => Given(Means(w, n, 0, vault))
  {
    hide ResolveSecret, ResolveToken, ResolveUrls, ResolveHeaders, Trim, NotifierGlobals;
    BlankEmpty();
  }
}
