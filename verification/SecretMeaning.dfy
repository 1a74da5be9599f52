/**
 What a secret field resolves to at run time, and that normalising a document
 into references plus vault writes does not change it
 (src/config/notifiers.rs, src/config/vault.rs, src/config/secrets.rs).
 */
module SecretMeaning {
  import opened Text
  import opened Settings
  import opened SecretRefs

  type Vars = map<string, string>

  // ------------------------------------------------------------------ vault

  function VaultUpsert(vault: map<string, string>, name: string, value: string): map<string, string> {
    if Blank(name) || Blank(value) then vault else vault[name := value]
  }

  function VaultRemove(vault: map<string, string>, name: string): map<string, string> {
    if Blank(name) then vault else vault - {Trim(name)}
  }

  function VaultGet(vault: map<string, string>, name: string): Option<string> {
    var key := Trim(name);
    if key == "" || key !in vault || Blank(vault[key]) then None else Some(vault[key])
  }

  /** The process vault: one map behind a lock (src/config/vault.rs). */
  class Vault {
    var entries: map<string, string>

    constructor ()
      ensures entries == map[]
    {
      entries := map[];
    }

    method ReplaceAll(loaded: map<string, string>)
      modifies this
      ensures entries == loaded
    {
      entries := loaded;
    }

    /** Stores a usable value so that a lookup returns it, and changes no other lookup. */
    method Upsert(name: string, value: string)
      modifies this
      ensures entries == VaultUpsert(old(entries), name, value)
      ensures Usable(name) && !Blank(value) ==> VaultGet(entries, name) == Some(value)
      ensures forall other :: Trim(other) != name ==> VaultGet(entries, other) == VaultGet(old(entries), other)
    {
      if !Blank(name) && !Blank(value) {
        entries := entries[name := value];
      }
    }

    method Remove(name: string)
      modifies this
      ensures entries == VaultRemove(old(entries), name)
      ensures VaultGet(entries, name) == None
      ensures forall other :: Trim(other) != Trim(name) ==> VaultGet(entries, other) == VaultGet(old(entries), other)
    {
      if !Blank(name) {
        entries := entries - {Trim(name)};
      }
    }

    /** `delete_app_secrets`, as far as the vault is concerned. */
    method RemoveAll(names: set<string>)
      requires forall name :: name in names ==> Usable(name)
      modifies this
      ensures entries == old(entries) - names
    {
      var left := names;
      while left != {}
        invariant left <= names
        invariant entries - left == old(entries) - names
        decreases |left|
      {
        var name :| name in left;
        assert Usable(name);
        Remove(name);
        left := left - {name};
      }
    }

    /** `upsert_app_secrets`, as far as the vault is concerned. */
    method Load(writes: seq<SecretWrite>)
      modifies this
      ensures entries == LoadWrites(old(entries), writes)
    {
      var i := 0;
      while i < |writes|
        invariant 0 <= i <= |writes|
        invariant LoadWrites(entries, writes[i..]) == LoadWrites(old(entries), writes)
      {
        assert writes[i..][1..] == writes[i + 1..];
        Upsert(Trim(writes[i].name), writes[i].value);
        i := i + 1;
      }
    }
  }

  /** The vault after the writes, each stored under its trimmed name. */
  function LoadWrites(vault: map<string, string>, writes: seq<SecretWrite>): map<string, string>
    decreases |writes|
  {
    if writes == [] then vault
    else LoadWrites(VaultUpsert(vault, Trim(writes[0].name), writes[0].value), writes[1..])
  }

  // ------------------------------------------------------------- resolution

  /** `env_token`: the process environment first, then the vault. */
  function EnvToken(vars: Vars, vault: map<string, string>, name: string): Option<string> {
    if name in vars && !Blank(vars[name]) then Some(vars[name]) else VaultGet(vault, name)
  }

  /** `sanitize_secret` */
  function Sanitized(value: string): string {
    if IsDead(value) then "" else value
  }

  /** `resolve_secret` */
  function ResolveSecret(vars: Vars, vault: map<string, string>, inline: string, env: Option<string>, global: string)
    : string
  {
    if !IsDead(inline) then inline
    else if !EnvBlank(env) && EnvToken(vars, vault, Trim(env.value)).Some?
    then Sanitized(EnvToken(vars, vault, Trim(env.value)).value)
    else if Blank(global) then ""
    else match EnvToken(vars, vault, global) case Some(value) => Sanitized(value) case None => ""
  }

  /** `resolve_token` of a source */
  function ResolveToken(vars: Vars, vault: map<string, string>, token: Option<string>, env: Option<string>,
                        global: string): Option<string>
  {
    if token.Some? && !IsDead(token.value) then token
    else if env.Some? && EnvToken(vars, vault, env.value).Some? then EnvToken(vars, vault, env.value)
    else EnvToken(vars, vault, global)
  }

  /** `resolve_apprise_urls` */
  function ResolveUrls(json: Json, vars: Vars, vault: map<string, string>, urls: seq<string>, env: Option<string>)
    : seq<string>
  {
    if LiveUrls(urls) != [] then LiveUrls(urls)
    else if EnvBlank(env) || EnvToken(vars, vault, Trim(env.value)).None? then []
    else
      var raw := EnvToken(vars, vault, Trim(env.value)).value;
      match json.parseUrls(raw)
      case Some(parsed) => LiveUrls(parsed)
      case None => if IsDead(raw) then [] else [raw]
  }

  /** `resolve_webhook_headers` */
  function ResolveHeaders(json: Json, vars: Vars, vault: map<string, string>, headers: map<string, string>,
                          env: Option<string>): map<string, string>
  {
    if LiveHeaders(headers) != map[] then LiveHeaders(headers)
    else if EnvBlank(env) || EnvToken(vars, vault, Trim(env.value)).None? then map[]
    else match json.parseHeaders(EnvToken(vars, vault, Trim(env.value)).value)
      case Some(parsed) => LiveHeaders(parsed)
      case None => map[]
  }

  datatype Meaning =
    | Text(value: string)
    | Bearer(bearer: Option<string>)
    | Targets(targets: seq<string>)
    | Table(table: map<string, string>)

  /** What the running process uses for a secret field. */
  function ResolveField(json: Json, vars: Vars, vault: map<string, string>, f: Field, global: string): Meaning {
    match f
    case Token(token, env) => Bearer(ResolveToken(vars, vault, token, env, global))
    case Plain(inline, env) => Text(ResolveSecret(vars, vault, inline, env, global))
    case Hook(inline, env) => Text(ResolveSecret(vars, vault, inline, env, global))
    case Broker(inline, env) => Text(ResolveSecret(vars, vault, inline, env, global))
    case Urls(urls, env, _) => Targets(ResolveUrls(json, vars, vault, urls, env))
    case Headers(headers, env) => Table(ResolveHeaders(json, vars, vault, headers, env))
  }

  // ------------------------------------------------- the vault after writes

  /** The vault after storing the live slots in order: later values replace earlier ones. */
  function LoadSlots(json: Json, vault: map<string, string>, slots: seq<Slot>): map<string, string> {
    if slots == [] then vault
    else
      var last := |slots| - 1;
      var loaded := LoadSlots(json, vault, slots[..last]);
      if HasLive(slots[last].field)
      then loaded[NameOf(slots[last]) := StoredValue(json, slots[last].field)]
      else loaded
  }

  function NameOf(slot: Slot): string {
    StoredName(slot.field.env, slot.auto)
  }

  predicate UsableWrites(writes: seq<SecretWrite>) {
    && (forall i :: 0 <= i < |writes| ==> Usable(writes[i].name) && !Blank(writes[i].value))
    && (forall i, j :: 0 <= i < j < |writes| ==> writes[i].name != writes[j].name)
  }

  lemma {:induction false} LoadCommutes(vault: map<string, string>, writes: seq<SecretWrite>,
                                        name: string, value: string)
    requires UsableWrites(writes) && forall i :: 0 <= i < |writes| ==> writes[i].name != name
    ensures LoadWrites(vault[name := value], writes) == LoadWrites(vault, writes)[name := value]
    decreases |writes|
  {
    if writes != [] {
      var first := writes[0];
      assert vault[name := value][first.name := first.value] == vault[first.name := first.value][name := value];
      LoadCommutes(vault[first.name := first.value], writes[1..], name, value);
    }
  }

  lemma {:induction false} UpsertKeepsUsable(writes: seq<SecretWrite>, name: string, value: string)
    requires UsableWrites(writes) && Usable(name) && !Blank(value)
    ensures var upserted := SecretRefs.Upsert(writes, name, value);
            UsableWrites(upserted) && forall i :: 0 <= i < |upserted| ==>
              upserted[i].name == name || exists j :: 0 <= j < |writes| && upserted[i] == writes[j]
    decreases |writes|
  {
    hide Usable, Blank;
    if writes != [] && writes[0].name != name {
      UpsertKeepsUsable(writes[1..], name, value);
      var upserted := SecretRefs.Upsert(writes, name, value);
      forall i | 0 <= i < |upserted|
        ensures upserted[i].name == name || exists j :: 0 <= j < |writes| && upserted[i] == writes[j]
      {
        if i == 0 {
          assert upserted[0] == writes[0];
        } else if upserted[i].name != name {
          var j :| 0 <= j < |writes[1..]| && upserted[i] == writes[1..][j];
          assert upserted[i] == writes[j + 1];
        }
      }
    } else if writes != [] {
      var upserted := SecretRefs.Upsert(writes, name, value);
      assert forall i :: 1 <= i < |upserted| ==> upserted[i] == writes[i];
    }
  }

  lemma LoadFirst(vault: map<string, string>, first: SecretWrite, rest: seq<SecretWrite>)
    requires Usable(first.name) && !Blank(first.value)
    ensures LoadWrites(vault, [first] + rest) == LoadWrites(vault[first.name := first.value], rest)
  {
    assert ([first] + rest)[1..] == rest;
  }

  lemma {:induction false} LoadUpsert(vault: map<string, string>, writes: seq<SecretWrite>,
                                      name: string, value: string)
    requires UsableWrites(writes) && Usable(name) && !Blank(value)
    ensures LoadWrites(vault, SecretRefs.Upsert(writes, name, value)) == LoadWrites(vault, writes)[name := value]
    decreases |writes|
  {
    hide Usable, Blank, LoadWrites;
    if writes == [] {
      LoadFirst(vault, SecretWrite(name, value), []);
      assert [SecretWrite(name, value)] + [] == [SecretWrite(name, value)];
      NoWrites(vault);
      NoWrites(vault[name := value]);
    } else {
      var first, rest := writes[0], writes[1..];
      assert writes == [first] + rest;
      LoadFirst(vault, first, rest);
      if first.name == name {
        LoadFirst(vault, SecretWrite(name, value), rest);
        LoadCommutes(vault, rest, name, value);
        LoadCommutes(vault, rest, name, first.value);
      } else {
        LoadFirst(vault, first, SecretRefs.Upsert(rest, name, value));
        LoadUpsert(vault[first.name := first.value], rest, name, value);
      }
    }
  }

  lemma {:induction false} LoadedValue(vault: map<string, string>, writes: seq<SecretWrite>, i: nat)
    requires UsableWrites(writes) && i < |writes|
    ensures writes[i].name in LoadWrites(vault, writes) && LoadWrites(vault, writes)[writes[i].name] == writes[i].value
    decreases |writes|
  {
    var first := writes[0];
    assert VaultUpsert(vault, Trim(first.name), first.value) == vault[first.name := first.value];
    if i == 0 {
      LoadCommutes(vault, writes[1..], first.name, first.value);
    } else {
      LoadedValue(vault[first.name := first.value], writes[1..], i - 1);
    }
  }

  /** A vault filled by distinct writes holds nothing but them. */
  lemma {:induction false} LoadedFrom(writes: seq<SecretWrite>, name: string)
    requires UsableWrites(writes) && name in LoadWrites(map[], writes)
    ensures exists i :: 0 <= i < |writes| && writes[i] == SecretWrite(name, LoadWrites(map[], writes)[name])
    decreases |writes|
  {
    hide Usable;
    var first, rest := writes[0], writes[1..];
    UsableNotBlank(first.name);
    assert Trim(first.name) == first.name by { UsableTrimmed(first.name); }
    LoadCommutes(map[], rest, first.name, first.value);
    if name != first.name {
      LoadedFrom(rest, name);
      var i :| 0 <= i < |rest| && rest[i] == SecretWrite(name, LoadWrites(map[], rest)[name]);
      assert writes[i + 1] == rest[i];
    }
  }

  lemma UsableTrimmed(name: string)
    requires Usable(name)
    ensures Trim(name) == name
  {
  }

  lemma StoredUsable(json: Json, slot: Slot)
    requires JsonInverse(json) && Usable(slot.auto) && HasLive(slot.field)
    ensures Usable(NameOf(slot)) && !Blank(StoredValue(json, slot.field))
  {
    if !EnvBlank(slot.field.env) {
      TrimIdempotent(slot.field.env.value);
    }
  }

  /** The accumulated write list stores exactly the last live value of each name. */
  lemma {:induction false} LoadPushed(json: Json, vault: map<string, string>, slots: seq<Slot>)
    requires JsonInverse(json) && UsableSlots(slots)
    ensures UsableWrites(PushSlots(json, [], slots))
    ensures LoadWrites(vault, PushSlots(json, [], slots)) == LoadSlots(json, vault, slots)
    decreases |slots|
  {
    hide StoredValue, HasLive, StoredName, Usable, UsableWrites, LoadWrites;
    if slots == [] {
      NoWrites(vault);
    } else {
      var last := |slots| - 1;
      LoadPushed(json, vault, slots[..last]);
      if HasLive(slots[last].field) {
        StoredUsable(json, slots[last]);
        UsableNotBlank(NameOf(slots[last]));
        UpsertKeepsUsable(PushSlots(json, [], slots[..last]), NameOf(slots[last]),
                          StoredValue(json, slots[last].field));
        LoadUpsert(vault, PushSlots(json, [], slots[..last]), NameOf(slots[last]),
                   StoredValue(json, slots[last].field));
      }
    }
  }

  lemma NoWrites(vault: map<string, string>)
    ensures UsableWrites([]) && LoadWrites(vault, []) == vault
  {
  }

  lemma UsableNotBlank(name: string)
    requires Usable(name)
    ensures !Blank(name)
  {
  }

  lemma {:induction false} LoadSlotsElsewhere(json: Json, vault: map<string, string>, slots: seq<Slot>, name: string)
    requires forall k :: 0 <= k < |slots| && HasLive(slots[k].field) ==> NameOf(slots[k]) != name
    ensures name in LoadSlots(json, vault, slots) <==> name in vault
    ensures name in vault ==> LoadSlots(json, vault, slots)[name] == vault[name]
    decreases |slots|
  {
    hide StoredValue, HasLive, StoredName;
    if slots != [] {
      LoadSlotsElsewhere(json, vault, slots[..|slots| - 1], name);
    }
  }

  /** Last writer wins: a name holds the value of the last live slot that stores under it. */
  lemma {:induction false} LastWriterWins(json: Json, vault: map<string, string>, slots: seq<Slot>, k: nat)
    requires k < |slots| && HasLive(slots[k].field)
    requires forall j :: k < j < |slots| && HasLive(slots[j].field) ==> NameOf(slots[j]) != NameOf(slots[k])
    ensures var loaded := LoadSlots(json, vault, slots);
            NameOf(slots[k]) in loaded && loaded[NameOf(slots[k])] == StoredValue(json, slots[k].field)
    decreases |slots|
  {
    hide StoredValue, HasLive, StoredName;
    var last := |slots| - 1;
    if k < last {
      LastWriterWins(json, vault, slots[..last], k);
    }
  }

  /** The write list holds the last live value of each name. */
  lemma LastWritten(json: Json, slots: seq<Slot>, k: nat)
    requires JsonInverse(json) && UsableSlots(slots) && k < |slots| && HasLive(slots[k].field)
    requires forall j :: k < j < |slots| && HasLive(slots[j].field) ==> NameOf(slots[j]) != NameOf(slots[k])
    ensures exists i :: 0 <= i < |PushSlots(json, [], slots)|
              && PushSlots(json, [], slots)[i] == SecretWrite(NameOf(slots[k]), StoredValue(json, slots[k].field))
  {
    hide StoredValue, HasLive, StoredName, Usable, LoadWrites, LoadSlots, PushSlots;
    LoadPushed(json, map[], slots);
    LastWriterWins(json, map[], slots, k);
    LoadedFrom(PushSlots(json, [], slots), NameOf(slots[k]));
  }

  // ---------------------------------------------------- meaning is preserved

  predicate Unset(vars: Vars, name: string) {
    name !in vars || Blank(vars[name])
  }

  /** No process variable takes precedence over the stored secret of this slot. */
  predicate Unshadowed(vars: Vars, slot: Slot) {
    Unset(vars, NameOf(slot)) && (slot.field.Token? ==> Unset(vars, Named(slot.field.env, slot.auto).value))
  }

  /** The slot looks the name up, by its reference or by its process-wide fallback. */
  predicate LooksUp(slot: Slot, name: string) {
    || (!EnvBlank(slot.field.env) && Trim(slot.field.env.value) == name)
    || (HasLive(slot.field) && NameOf(slot) == name)
    || Trim(slot.global) == name
  }

  /** Stored secrets are not shadowed, and no other field looks at the name one is stored under. */
  predicate NoInterference(vars: Vars, slots: seq<Slot>) {
    && (forall k :: 0 <= k < |slots| && HasLive(slots[k].field) ==> Unshadowed(vars, slots[k]))
    && (forall k, j :: 0 <= k < |slots| && 0 <= j < |slots| && j != k && HasLive(slots[k].field) ==>
          !LooksUp(slots[j], NameOf(slots[k])))
  }

  lemma {:induction false} LiveUrlsAgain(urls: seq<string>)
    ensures LiveUrls(LiveUrls(urls)) == LiveUrls(urls)
  {
  }

  /** A live field resolves to whatever field of its kind was stored under its name. */
  lemma DonorResolves(json: Json, vars: Vars, before: map<string, string>, after: map<string, string>,
                      slot: Slot, donor: Slot)
    requires JsonInverse(json) && Usable(slot.auto) && Usable(donor.auto) && SameKind(slot.field, donor.field)
    requires HasLive(slot.field) && HasLive(donor.field) && Unshadowed(vars, slot)
    requires NameOf(slot) in after && after[NameOf(slot)] == StoredValue(json, donor.field)
    ensures ResolveField(json, vars, after, NormalizeField(slot.field, slot.auto), slot.global)
            == ResolveField(json, vars, before, donor.field, donor.global)
  {
    StoredUsable(json, donor);
    var f := donor.field;
    EnvFinds(vars, after, slot, StoredValue(json, f));
    EmptyDead();
    hide EnvToken, VaultGet, Trim, Contains, Usable, StoredName;
    match f
    case Urls(urls, _, _) => LiveUrlsAgain(urls);
    case Headers(headers, _) => LiveHeadersAgain(headers);
    case _ =>
  }

  /** A live field means the same after its secret moved to the vault. */
  lemma LiveFieldPreserved(json: Json, vars: Vars, before: map<string, string>, after: map<string, string>, slot: Slot)
    requires JsonInverse(json) && Usable(slot.auto) && HasLive(slot.field) && Unshadowed(vars, slot)
    requires NameOf(slot) in after && after[NameOf(slot)] == StoredValue(json, slot.field)
    ensures ResolveField(json, vars, after, NormalizeField(slot.field, slot.auto), slot.global)
            == ResolveField(json, vars, before, slot.field, slot.global)
  {
    hide ResolveField, NormalizeField, Usable, HasLive, StoredName, StoredValue, Unshadowed;
    DonorResolves(json, vars, before, after, slot, slot) by { KindReflexive(slot.field); }
  }

  lemma KindReflexive(f: Field)
    ensures SameKind(f, f)
  {
  }

  lemma EnvFinds(vars: Vars, vault: map<string, string>, slot: Slot, value: string)
    requires Usable(slot.auto) && Unshadowed(vars, slot) && !Blank(value)
    requires NameOf(slot) in vault && vault[NameOf(slot)] == value
    ensures var env := Named(slot.field.env, slot.auto);
            && env.Some? && !EnvBlank(env)
            && EnvToken(vars, vault, Trim(env.value)) == Some(value)
            && (slot.field.Token? ==> EnvToken(vars, vault, env.value) == Some(value))
  {
    var env := Named(slot.field.env, slot.auto);
    TrimIdempotent(env.value);
    assert Trim(env.value) == NameOf(slot);
  }

  lemma LiveHeadersAgain(headers: map<string, string>)
    ensures LiveHeaders(LiveHeaders(headers)) == LiveHeaders(headers)
  {
    hide IsDead;
  }

  lemma EmptyDead()
    ensures IsDead("") && LiveUrls([]) == [] && LiveHeaders(map[]) == map[]
  {
  }

  /** A field without an inline secret means the same if the names it looks up were not written. */
  lemma QuietFieldPreserved(json: Json, vars: Vars, before: map<string, string>, after: map<string, string>, slot: Slot)
    requires !HasLive(slot.field)
    requires !EnvBlank(slot.field.env) ==> VaultGet(after, Trim(slot.field.env.value))
                                           == VaultGet(before, Trim(slot.field.env.value))
    requires VaultGet(after, slot.global) == VaultGet(before, slot.global)
    ensures ResolveField(json, vars, after, NormalizeField(slot.field, slot.auto), slot.global)
            == ResolveField(json, vars, before, slot.field, slot.global)
  {
    EmptyDead();
    if slot.field.env.Some? {
      TrimIdempotent(slot.field.env.value);
      assert VaultGet(after, slot.field.env.value) == VaultGet(before, slot.field.env.value);
    }
    hide VaultGet, Trim, Contains, IsDead;
  }

  lemma NotWritten(json: Json, vault: map<string, string>, slots: seq<Slot>, k: nat, name: string)
    requires k < |slots| && !HasLive(slots[k].field)
    requires forall j :: 0 <= j < |slots| && j != k && HasLive(slots[j].field) ==> NameOf(slots[j]) != Trim(name)
    ensures VaultGet(LoadSlots(json, vault, slots), name) == VaultGet(vault, name)
  {
    hide HasLive, StoredName, LoadSlots;
    LoadSlotsElsewhere(json, vault, slots, Trim(name));
  }

  lemma SlotPreserved(json: Json, vars: Vars, vault: map<string, string>, slots: seq<Slot>, k: nat)
    requires JsonInverse(json) && UsableSlots(slots) && NoInterference(vars, slots) && k < |slots|
    ensures ResolveField(json, vars, LoadSlots(json, vault, slots), NormalizeField(slots[k].field, slots[k].auto),
                    slots[k].global)
            == ResolveField(json, vars, vault, slots[k].field, slots[k].global)
  {
    hide ResolveField, NormalizeField, HasLive, StoredName, LoadSlots, Unshadowed, Usable;
    var loaded := LoadSlots(json, vault, slots);
    if HasLive(slots[k].field) {
      LastWriterWins(json, vault, slots, k);
      LiveFieldPreserved(json, vars, vault, loaded, slots[k]);
    } else {
      var slot := slots[k];
      if !EnvBlank(slot.field.env) {
        TrimIdempotent(slot.field.env.value);
        NotWritten(json, vault, slots, k, Trim(slot.field.env.value));
      }
      NotWritten(json, vault, slots, k, slot.global);
      QuietFieldPreserved(json, vars, vault, loaded, slot);
    }
  }

  /**
   Normalisation preserves meaning: with its writes in the vault, every secret
   field of the normalised document resolves to what it resolved to before,
   whatever the vault held, as long as no field interferes with another.
   */
  lemma NormalizationPreservesMeaning(json: Json, vars: Vars, vault: map<string, string>, d: Desired,
                                      org: Option<string>)
    requires JsonInverse(json) && NoInterference(vars, Slots(d, org))
    ensures var before, after := Slots(d, org), Slots(NormalizeDesired(d, org), org);
            var loaded := LoadWrites(vault, Writes(json, d, org));
            && |after| == |before|
            && forall k :: 0 <= k < |after| ==>
                 ResolveField(json, vars, loaded, after[k].field, after[k].global)
                 == ResolveField(json, vars, vault, before[k].field, before[k].global)
  {
    hide ResolveField, NormalizeField, Slots, NormalizeDesired, PushSlots, LoadWrites, LoadSlots, NoInterference, Usable;
    var slots := Slots(d, org);
    NormalizedSlots(d, org);
    SlotsUsable(d, org);
    LoadPushed(json, vault, slots);
    forall k | 0 <= k < |slots|
      ensures ResolveField(json, vars, LoadSlots(json, vault, slots), NormalizeField(slots[k].field, slots[k].auto),
                      slots[k].global)
              == ResolveField(json, vars, vault, slots[k].field, slots[k].global)
    {
      SlotPreserved(json, vars, vault, slots, k);
    }
  }

  /**
   Two secrets of one kind stored under one name: the earlier field ends up meaning
   what the later one meant, so it keeps its own meaning exactly if the two agree.
   */
  lemma SharedNameMeaning(json: Json, vars: Vars, vault: map<string, string>, slots: seq<Slot>, j: nat, k: nat)
    requires JsonInverse(json) && UsableSlots(slots) && j < k < |slots| && SameKind(slots[j].field, slots[k].field)
    requires HasLive(slots[j].field) && HasLive(slots[k].field)
    requires NameOf(slots[j]) == NameOf(slots[k]) && Unshadowed(vars, slots[j])
    requires forall i :: k < i < |slots| && HasLive(slots[i].field) ==> NameOf(slots[i]) != NameOf(slots[k])
    ensures ResolveField(json, vars, LoadSlots(json, vault, slots), NormalizeField(slots[j].field, slots[j].auto),
                         slots[j].global)
            == ResolveField(json, vars, vault, slots[k].field, slots[k].global)
  {
    hide ResolveField, NormalizeField, Usable, HasLive, StoredName, StoredValue, Unshadowed, LoadSlots, SameKind;
    LastWriterWins(json, vault, slots, k);
    DonorResolves(json, vars, vault, LoadSlots(json, vault, slots), slots[j], slots[k]);
  }

  /**
   Generated names are made from labels: two chats with one label share a name, and
   the earlier one ends up with the later one's token.
   */
  lemma SharedLabelLosesSecret(json: Json, vault: map<string, string>, title: string,
                               first: string, second: string, chat: string, chat': string)
    requires JsonInverse(json) && !Blank(title) && !IsDead(first) && !IsDead(second)
    ensures var d := NOTHING_DESIRED.(notifiers := [
                       Telegram(Some(title), [], Plain(first, None), chat, ""),
                       Telegram(Some(title), [], Plain(second, None), chat', "")]);
            var loaded := LoadWrites(vault, Writes(json, d, None));
            var after := Slots(NormalizeDesired(d, None), None);
            && |after| == 2
            && ResolveField(json, map[], loaded, after[0].field, after[0].global) == Text(second)
            && ResolveField(json, map[], vault, Slots(d, None)[0].field, after[0].global) == Text(first)
  {
    hide AutoName, LoadSlots, PushSlots, LoadWrites, Slots, NormalizeDesired, Trim, Contains, ResolveField, Slug, Usable;
    hide NormalizeField, IsDead, Blank, JsonInverse;
    var a := Telegram(Some(title), [], Plain(first, None), chat, "");
    var b := Telegram(Some(title), [], Plain(second, None), chat', "");
    var d := NOTHING_DESIRED.(notifiers := [a, b]);
    var name := AutoName(None, "N", Slug(Trim(title), 40), "TELEGRAM_BOT");
    TwoSlots(a, b, title, name, "XRELEASE_TELEGRAM_BOT_TOKEN");
    NormalizedSlots(d, None);
    SlotsUsable(d, None);
    LoadPushed(json, vault, Slots(d, None));
    SharedNameMeaning(json, map[], vault, Slots(d, None), 0, 1);
    InlineMeaning(json, vault, Slots(d, None)[0]);
    InlineMeaning(json, vault, Slots(d, None)[1]);
  }

  lemma InlineMeaning(json: Json, vault: map<string, string>, slot: Slot)
    requires slot.field.Plain? && HasLive(slot.field)
    ensures ResolveField(json, map[], vault, slot.field, slot.global) == Text(slot.field.inline)
  {
    hide Trim, Contains;
  }

  lemma TwoSlots(a: Notifier, b: Notifier, title: string, name: string, global: string)
    requires a.Telegram? && b.Telegram? && global == "XRELEASE_TELEGRAM_BOT_TOKEN"
    requires a.name == Some(title) && b.name == Some(title) && !Blank(title)
    requires name == AutoName(None, "N", Slug(Trim(title), 40), "TELEGRAM_BOT")
    ensures Slots(NOTHING_DESIRED.(notifiers := [a, b]), None)
            == [Slot(a.botToken, name, global), Slot(b.botToken, name, global)]
  {
    hide AutoName, Slug, Trim;
    assert NotifierIdentity(a, 0) == Slug(Trim(title), 40) && NotifierIdentity(b, 1) == Slug(Trim(title), 40);
    assert [a, b][..1] == [a] && [a][..0] == [];
    assert NotifierSlots([a], None) == [Slot(a.botToken, name, global)];
  }

  lemma OneSlot(n: Notifier, org: Option<string>, title: string)
    requires n.Telegram? && n.name == Some(title) && !Blank(title)
    ensures Slots(NOTHING_DESIRED.(notifiers := [n]), org)
            == [Slot(n.botToken, AutoName(org, "N", Slug(Trim(title), 40), "TELEGRAM_BOT"), "XRELEASE_TELEGRAM_BOT_TOKEN")]
  {
    hide AutoName, Slug, Trim;
    var slot := Slot(n.botToken, AutoName(org, "N", Slug(Trim(title), 40), "TELEGRAM_BOT"), "XRELEASE_TELEGRAM_BOT_TOKEN");
    assert NotifierIdentity(n, 0) == Slug(Trim(title), 40);
    assert SlotsOfNotifier(n, 0, org) == [slot];
    assert [n][..0] == [] && NotifierSlots([], org) == [];
    assert NotifierSlots([n], org) == [slot];
  }

  /**
   Organizations do not keep generated names apart either: if two ids sanitise
   alike, one organization's secret replaces the other's of the same label.
   */
  lemma TwinOrganizationsLoseSecret(json: Json, vault: map<string, string>, a: string, b: string, title: string,
                                    first: string, second: string, chat: string)
    requires JsonInverse(json) && !Blank(title) && !IsDead(first) && !IsDead(second)
    requires !Blank(a) && !Blank(b) && Sanitize(Trim(a)) == Sanitize(Trim(b))
    ensures var d := NOTHING_DESIRED.(notifiers := [Telegram(Some(title), [], Plain(first, None), chat, "")]);
            var e := NOTHING_DESIRED.(notifiers := [Telegram(Some(title), [], Plain(second, None), chat, "")]);
            var own := LoadWrites(vault, Writes(json, d, Some(a)));
            var loaded := LoadWrites(own, Writes(json, e, Some(b)));
            var after := Slots(NormalizeDesired(d, Some(a)), Some(a));
            && |after| == 1
            && ResolveField(json, map[], own, after[0].field, after[0].global) == Text(first)
            && ResolveField(json, map[], loaded, after[0].field, after[0].global) == Text(second)
  {
    hide AutoName, PushSlots, LoadWrites, Slots, NormalizeDesired, Trim, Contains, ResolveField, Slug, Usable, LoadSlots;
    hide NormalizeField, Sanitize, JsonInverse, Blank, IsDead;
    var m := Telegram(Some(title), [], Plain(first, None), chat, "");
    var n := Telegram(Some(title), [], Plain(second, None), chat, "");
    var d, e := NOTHING_DESIRED.(notifiers := [m]), NOTHING_DESIRED.(notifiers := [n]);
    OneSlot(m, Some(a), title);
    OneSlot(n, Some(b), title);
    ScopesShareNames(a, b, "N", Slug(Trim(title), 40), "TELEGRAM_BOT");
    NormalizedSlots(d, Some(a));
    SlotsUsable(d, Some(a));
    SlotsUsable(e, Some(b));
    var x, y := Slots(d, Some(a))[0], Slots(e, Some(b))[0];
    LoadPushed(json, vault, [x]);
    LoadPushed(json, LoadWrites(vault, Writes(json, d, Some(a))), [y]);
    TwinSlots(json, vault, x, y);
  }

  /** Two live slots under one name: the first keeps its meaning until the second is stored. */
  lemma TwinSlots(json: Json, vault: map<string, string>, x: Slot, y: Slot)
    requires JsonInverse(json) && UsableSlots([x]) && UsableSlots([y]) && x.field.Plain? && y.field.Plain?
    requires HasLive(x.field) && HasLive(y.field) && NameOf(x) == NameOf(y)
    ensures var own := LoadSlots(json, vault, [x]);
            var sealed := NormalizeField(x.field, x.auto);
            && ResolveField(json, map[], own, sealed, x.global) == Text(x.field.inline)
            && ResolveField(json, map[], LoadSlots(json, own, [y]), sealed, x.global) == Text(y.field.inline)
  {
    hide Trim, Contains, ResolveField, Usable, LoadSlots, NormalizeField, HasLive, StoredName, StoredValue, JsonInverse;
    assert UsableSlots([x, y]) by { assert Usable([x][0].auto) && Usable([y][0].auto); }
    assert [x, y][0] == x && [x, y][1] == y && [x][0] == x;
    LoadTwo(json, vault, x, y);
    SharedNameMeaning(json, map[], vault, [x, y], 0, 1);
    LastWriterWins(json, vault, [x], 0);
    LiveFieldPreserved(json, map[], vault, LoadSlots(json, vault, [x]), x);
    InlineMeaning(json, vault, x);
    InlineMeaning(json, vault, y);
  }

  lemma LoadTwo(json: Json, vault: map<string, string>, x: Slot, y: Slot)
    ensures LoadSlots(json, vault, [x, y]) == LoadSlots(json, LoadSlots(json, vault, [x]), [y])
  {
    hide StoredValue, HasLive, StoredName;
    assert [x, y][..1] == [x] && [y][..0] == [];
  }
}
