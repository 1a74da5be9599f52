# xrelease verification model

xrelease watches release feeds and notifies teams. Its desired state is a document that is pushed over HTTP, recorded
in an append-only ledger, and swapped into the running process. This project models that apply engine in Dafny and
proves what it keeps over every run, together with the four transformations it is built from (redact, restore,
normalise, namespace) and four smaller state machines beside it (circuit breaker, advisory cache, advisory sweep,
watch index) and the release comparator.

`dafny verify dfyconfig.toml` checks the whole project. Nothing here runs the program; every statement is about the
model.

## How the model is laid out

| file | what it holds |
|---|---|
| `Text.dfy` | trimming, substring search, the redaction marker |
| `Settings.dfy` | documents, sources, notifiers, their secret fields, bootstrap merge, environment overlay |
| `Redaction.dfy` | what a read shows |
| `Restoration.dfy` | filling masked secrets from the live configuration |
| `SecretRefs.dfy` | moving inline secrets into named references and writes; collecting and pruning references |
| `SecretNames.dfy` | when two entries are given one generated name |
| `RoundTrip.dfy` | when redact, restore and normalise together give a document back |
| `ReadBack.dfy` | when restoring undoes redacting, inline secrets included |
| `Matching.dfy` | which live entry a masked one is restored from, in the attributes a document shows |
| `SecretCarry.dfy` | that restoring never drops a secret that was sent |
| `SecretMeaning.dfy` | what a secret field resolves to, and that normalising keeps it; the process vault |
| `Namespaces.dfy`, `Presets.dfy` | per-organization prefixes, and what a preset reference finds in the merged catalogue |
| `Tenancy.dfy`, `ComposedTenancy.dfy` | delivery in the merged configuration, and in the one that composing organizations builds |
| `Composition.dfy` | ledger streams, authority, composing organizations, identity, upstream cap, boot |
| `Origins.dfy` | what a started process runs, in rows, files and parsed documents |
| `Runtime.dfy` | what a swap builds: watches and sinks with the secrets resolved for them, and when they cannot be built |
| `ApplyEngine.dfy` | the state, every fallible step, the apply/rollback/reload routes, as functions and as a class |
| `ApplyRuns.dfy` | the invariant over all runs |
| `ApplyLaws.dfy`, `Rotations.dfy` | failure atomicity and repair; secret rotation and compensation |
| `Retention.dfy` | what an apply may delete from the store and keep in the ledger |
| `LiveSecrets.dfy` | the secrets that run against those a restart would use |
| `Undo.dfy`, `IfMatch.dfy` | rollback and round trips, optimistic concurrency |
| `CircuitBreaker.dfy`, `Advisories.dfy`, `AdvisorySweep.dfy` | breaker, advisory cache, background sweep |
| `Releases.dfy`, `WatchLookup.dfy` | release ordering, lookup tables |

The state of the engine is the ledger, the running configuration, the secrets its watches and sinks were built with,
the sealed secrets in the database, the process vault, the published identity and the revision metadata. `Faults` picks
an outcome for every call of an apply that can fail; a swap also fails, of itself, when the configuration cannot be built
from the vault (`Runtime.Builds`). `Event` is a served request, a reload or a restart, so a crash is a `Restart` at the
state it left; a process whose restart cannot build its sinks is down. Code that changes things step by
step is a method proved equal to a specification function; the laws are lemmas about those functions.

What the libraries do enters through laws that the lemmas name as premises (`Lawful`, `JsonInverse`, `SemverLaws`,
`HexDigests`, `RejectsNul`): SHA-256 is injective and prints as lower-case hex, printing and parsing a desired document
are inverse (presets are a map in key order, `Canonical`), JSON printing and parsing are inverse, semver versions are
totally ordered and three 64-bit numbers are one, neither TOML nor YAML admits a raw NUL. `valid`
(validation), `watchable` (a source becomes a watch) and `fits` (a sink takes its options) are arbitrary predicates.

## What was found

Each of these is a lemma, with the exact condition where there is one.

- Compensation can be impossible. Secrets are sealed and pruned before the append, and a swap builds its sinks from the
  vault: after a failed append the old configuration runs again exactly if it can be built from the vault that is left,
  and a restart starts exactly if it can be built from the store (`Rotations.ComesBackExactly`). An apply that drops a
  sink whose generated secret was stored cannot be taken back either way (`Rotations.DroppedSinkStrands`). Store and vault
  are as before the apply exactly if they held every secret sent and none that the candidate drops
  (`Rotations.CompensationRestoresSecrets`).
- The log message at `src/config_apply/mod.rs:554-558` advises a restart, or re-applying the last known-good document,
  once the process is ahead of its ledger. An apply repairs it exactly if it is recorded: the document is valid, can be
  built, and neither its text nor its normalised body is the latest row's (`ApplyLaws.HealsExactly`); the latest row's
  text never does (`ApplyLaws.ReapplyDoesNotHeal`). A restart does exactly if what the ledger holds can be built from the
  store (`ApplyLaws.RestartHeals`).
- A rotation reaches the vault but not the sinks: they keep the secret they were built with until the next swap, although
  the comment at `src/config_apply/mod.rs:486-487` says memory is refreshed (`LiveSecrets.RotationWaits`). Over every run,
  what runs uses the secrets a restart would use exactly if every secret field reads the same from the store as from the
  vault of the last swap (`LiveSecrets.RunMatchesRestart`).
- A rotation whose transaction fails reaches the vault in part and the store not at all, and sending it again is answered
  as unchanged exactly if the secrets that were not reached had been in the vault already (`Rotations.RetryMaskedExactly`).
- A rollback, or sending back what a read shows, gives the stored document back exactly when every blank reference is
  matched to an entry whose reference is blank too (`Undo.RowReproduced`, `Undo.ShownThenApplied`); otherwise a
  rollback can stall (`Undo.RollbackStalls`).
- A webhook without a name, unless it is the only webhook, loses its inline URL when an unedited read is applied
  (`ReadBack.AnonymousWebhookLosesUrl`; exactly when a document comes back is `ReadBack.DocumentReadBack`).
- Two notifiers with one label share a generated secret name, and the earlier one ends up with the later one's secret
  (`SecretMeaning.SharedLabelLosesSecret`). So do two organizations whose ids sanitise alike, such as `a-b` and `a_b`
  (`SecretMeaning.TwinOrganizationsLoseSecret`).
- A repository watched on two forges has one generated name for two tokens, since neither kind nor host is part of it
  (`SecretNames.ForgesShareName`; exactly when names collide is `SecretNames.SourceNamesCollide`).
- URL userinfo is masked exactly when it holds no slash (`Redaction.MaskedIffSlashFree`).
- Isolation holds in every composed configuration, whatever any tenant writes (`ComposedTenancy.ComposedIsolation`).
  Preset routing does not survive merging: delivery agrees with the document alone exactly if the source decides its own
  tag, or the sink is a catch-all, or the sink did not take the event (`Tenancy.MergedDelivery`, with
  `Tenancy.PresetTagLost` as an instance); nor does a preset's interval (`Tenancy.PresetIntervalKept`).
- A source whose document names no notification schedule is held to the first organization's in the merged configuration
  (`Tenancy.SchedulesKept`, exactly when; `Origins.ComposedFromTexts` for whose defaults are merged), and operator alerts
  reach the first organization's sinks only (`Tenancy.OpsAlertsStayFirst`).
- A reference spelled with an organization's prefix borrows that organization's preset, although the comment at
  `src/config/sources/mod.rs:761-762` says it fails. It keeps its meaning exactly when that organization does not hold
  the name, or holds what the built-ins hold (`Presets.ForeignReference`, with `Tenancy.ForeignPresetBorrowed` as an
  instance).
- A GitHub and a Codeberg repository of one path share an id (`Tenancy.ForgeIdsCollide`; the exact law is
  `Tenancy.SourceIdsCollide`).
- `If-Match` accepts weak tags, where section 13.1.1 of RFC 9110 asks for the strong comparison
  (`IfMatch.WeakTagPasses`). A whole-document read takes tag and content one after the other: a stale content passes
  exactly if the authority is back at the text of the tag and the content read was another (`IfMatch.SplitRead`, with
  `IfMatch.TornReadPasses` as an instance). Even in one step they belong together exactly if the revision metadata knows
  of the ledger, there is none, or the app file has its text (`IfMatch.ReadBelongs`).
- `compare_releases` is not transitive: a release lies on a circle exactly when its tag goes on with white space after
  its leading `v` and is numeric after that (`Releases.CircleIffIrregular`).
- A sweep leaves a queue as it was exactly if every round fails on the batch at its head, which hides everything
  behind it (`AdvisorySweep.FailingHeadBlocks`); a batch of blank versions always does
  (`AdvisorySweep.BlankHeadBlocks`), and the count it reports includes versions it could not mark
  (`AdvisorySweep.CountOverstates`). If only the findings fail to be written the version counts as checked, and its
  findings are missing until another delivery of it writes them or its marker expires, although the comment at
  `src/pipeline/outbox.rs:520-522` says the only consequence is another lookup (`AdvisorySweep.LostFindingsStayLost`).

## Model

| member | source | states |
|---|---|---|
| Redaction.UserinfoMasked | src/config_apply/redact.rs:792-805 | slash-free userinfo, with or without `@` inside, is replaced by the marker and the rest of the URL is kept |
| Redaction.MaskedIffSlashFree | src/config_apply/redact.rs:792-805 | the userinfo of a URL is hidden exactly when it holds no slash |
| Redaction.RedactUserinfoIdempotent | src/config_apply/redact.rs:792-805 | masking a masked URL changes nothing, for every string |
| Redaction.RedactionIgnoresSecrets | src/config_apply/redact.rs:162-338 | fields that differ in nothing but a secret are shown alike: any contents under a reference, any two visible tokens, any two non-empty texts or URL lists, any values of the same headers, any userinfo without a slash |
| Redaction.FieldShown | src/config_apply/redact.rs:162-338 | what is shown of any field: the marker exactly where something is configured, inline or by reference, and otherwise nothing, under the same reference and header names |
| Redaction.NoSecretShown | src/config_apply/redact.rs:117-338 | whatever a configuration holds, a read shows no inline secret of any source or notifier, no header value, no API secret and no slash-free URL userinfo |
| Redaction.RedactionKeepsShape | src/config_apply/redact.rs:162-338 | conversely, fields shown alike differ in nothing but that, broker URLs apart |
| Redaction.RedactionKeepsBrokers | src/config_apply/redact.rs:162-338 | for broker URLs: fields shown alike have one reference and differ at most before one `@`, or are blank or the marker itself under a reference |
| Redaction.RedactConfigIgnoresSecrets | src/config_apply/redact.rs:117-338 | whole configurations that differ in such secrets only are shown alike |
| Redaction.RedactConfigIdempotent | src/config_apply/redact.rs:117-338 | a redacted configuration is a fixed point |
| Redaction.MaskSources | src/config_apply/redact.rs:162-190 | the in-place loop over sources masks every token and nothing else |
| Redaction.MaskNotifiers | src/config_apply/redact.rs:192-338 | the in-place loop over notifiers leaves the array that `Redaction.NoSecretShown` is about |
| Restoration.SourceDonorIsFirst | src/config_apply/redact.rs:393-449 | a source is restored from the first live source with its key if that one is of its kind, and otherwise from none |
| Restoration.SinkDonorIsFirst | src/config_apply/redact.rs:500-787 | a notifier is restored from the first live one it is recognised as, failing that an unnamed masked webhook from the only one there is, and otherwise from none |
| Restoration.FillSources | src/config_apply/redact.rs:435-498 | the restore loop over sources fills each one from its donor and keeps the order |
| Restoration.FillNotifiers | src/config_apply/redact.rs:500-787 | the restore loop over notifiers fills each one from its donor, which `Matching.SinkDonorIsSame` describes, and keeps the order |
| Matching.SourceKeyExactly | src/config_apply/redact.rs:393-406 | sources are matched exactly on kind and locator, Gitea ones on the host too |
| Matching.SourceDonorIsSame | src/config_apply/redact.rs:435-449 | a source takes its token from a live one of its kind, locator and host, exactly if there is one |
| Matching.SinkDonorIsSame | src/config_apply/redact.rs:500-787 | a notifier takes its secrets from the first live one with its endpoint, name, chat, workflow with topic and subscriber, channel, host, subject or routing key, or unmasked URL, and gets them if there is one; only an unnamed masked webhook has another donor |
| Matching.ApartReadBack | src/config_apply/redact.rs:347-787 | a document whose entries differ in those attributes comes back from an unedited read exactly when its fields do |
| SecretRefs.SqueezeUnderscores | src/config/secrets.rs:311-322 | however many replacement passes it takes, the loop ends with every run of underscores as one |
| SecretRefs.AutoNameUsable | src/config/secrets.rs:181-202 | every generated name is non-blank and unchanged by trimming, so what is stored under it is found |
| SecretRefs.AutoNameManaged | src/config/secrets.rs:101-116 | every generated name is one its own scope may prune, which `Retention.StaleExactly` tells in names |
| SecretRefs.ScopesShareNames | src/config/secrets.rs:181-202 | two organizations generate the same name for the same entry exactly when their ids sanitise alike |
| SecretNames.SourceNamesCollide | src/config/secrets.rs:283-309 | two sources get one generated name exactly if their locators are slugged alike, or by position where nothing is left of them |
| SecretNames.ForgesShareName | src/config/secrets.rs:283-309 | so one repository on two forges has one name for two tokens |
| SecretNames.NotifierNamesCollide | src/config/secrets.rs:206-232 | two notifiers get one generated name for a field exactly if their identities are equal |
| SecretNames.LabelledNames | src/config/secrets.rs:206-210 | labelled notifiers share it exactly if their labels are slugged alike |
| SecretNames.UnlabelledNames | src/config/secrets.rs:211-232 | unlabelled ones of a kind and tag share it exactly if what stands for them is slugged alike, or by position; so reordering keeps the names of those something stands for |
| SecretNames.TagsNameApart | src/config/secrets.rs:211-222 | and, where the same thing stands for them, exactly if their first visible tags are slugged alike |
| SecretNames.FieldsNamedApart | src/config/secrets.rs:364-500 | the secrets of one notifier are stored under different names |
| SecretNames.FallbacksApart | src/config/notifiers.rs:519-722 | every kind of notifier, and every field of it, falls back on a variable of its own |
| SecretRefs.SealSources | src/config/secrets.rs:335-362 | the source loop leaves each source normalised and pushes exactly the live tokens, in order |
| SecretRefs.SealNotifiers | src/config/secrets.rs:364-500 | the notifier loop leaves each notifier normalised and pushes exactly the live secrets, in order |
| SecretRefs.NormalizeSecretsToRefs | src/config/secrets.rs:30-42 | both loops together give the normalised document and its write list |
| SecretRefs.CollectSecretEnvRefs | src/config/secrets.rs:46-96 | collects every non-blank reference of every entry, trimmed, and nothing else |
| SecretRefs.SlotRefs | src/config/secrets.rs:46-96 | the references collected are those of the fields that normalisation visits |
| SecretRefs.NormalizedSlots | src/config/secrets.rs:335-500 | normalising a document normalises each of its secret fields, in place and in order |
| SecretRefs.ReferenceKept | src/config/secrets.rs:170-181 | a field's own reference is kept as it is and names what is stored for it; without one a live secret gets the generated name and any other field none |
| SecretRefs.WritesReferenced | src/config/secrets.rs:324-500 | every stored secret is referenced by the document left behind |
| SecretRefs.PruneSparesWrites | src/config/secrets.rs:120-133 | pruning never deletes a secret that the same apply stored |
| RoundTrip.FieldReproduced | src/config_apply/redact.rs:347-430 | a sealed field, sent as stored or masked, restores and normalises to itself exactly when a blank reference stays blank, and stores nothing |
| RoundTrip.NotifierReproduced | src/config_apply/redact.rs:500-787 | the same for a whole notifier of any kind and the live one it is matched to |
| RoundTrip.SourceReproduced | src/config_apply/redact.rs:408-498 | the same for a source |
| RoundTrip.DocumentReproduced | src/config_apply/mod.rs:282-301 | restoring from a sealed live document and normalising gives no writes, and gives the document back exactly when the two agree on blank references |
| RoundTrip.NormalizedSealed | src/config/secrets.rs:151-192 | normalisation leaves no inline secret |
| RoundTrip.SealedFixed | src/config/secrets.rs:335-500 | a document without inline secrets is a fixed point, with no writes and no live field |
| RoundTrip.NormalizationIdempotent | src/config/secrets.rs:30-42 | normalising twice adds nothing, whichever scope does it again |
| RoundTrip.KeyDeterminesKind | src/config_apply/redact.rs:393-406 | source keys of different kinds never collide |
| RoundTrip.GetThenApply | src/config_apply/mod.rs:425-452 | for every references-only document, redact then restore then normalise is the identity exactly when the document agrees with itself |
| RoundTrip.UniqueKeysAgree | src/config_apply/redact.rs:393-406 | unique match keys are enough for that |
| RoundTrip.SharedKeyChangesDocument | src/config_apply/redact.rs:500-787 | two chats with one id and one reference between them do not survive the round trip |
| ReadBack.FieldReadBack | src/config_apply/redact.rs:347-430 | a secret field of any kind, inline or by reference, sent back as it was shown is restored to what it was, exactly for fields whose secret can be told from a mask |
| ReadBack.NotifierReadBack | src/config_apply/redact.rs:500-787 | a notifier that its match key tells apart comes back exactly when its fields are honest, or, for an unnamed webhook among several, when there was nothing to mask |
| ReadBack.DocumentReadBack | src/config_apply/redact.rs:347-787 | for every document with unique match keys, restoring what a read shows from the live document gives that document, secrets included, exactly when its fields are honest and each unnamed webhook among several had nothing to mask |
| ReadBack.AnonymousWebhookLosesUrl | src/config_apply/redact.rs:630-670 | in any document, an unnamed webhook that is not the only one keeps the mask in place of its inline URL |
| SecretCarry.FieldCarried | src/config_apply/redact.rs:347-430 | a field sent with a live secret is restored with that secret, whatever the live configuration holds in its place |
| SecretCarry.MissingFilled | src/config_apply/redact.rs:347-430 | conversely a field sent blank or masked gets the live one's secret wherever there is one to give, header by header, and its reference |
| SecretCarry.DocumentCarried | src/config_apply/redact.rs:347-787 | every inline secret of a document survives restoration, in its place |
| SecretMeaning.Vault.Upsert | src/config/vault.rs:24-34 | a usable value is found again, and no other lookup changes |
| SecretMeaning.Vault.Remove | src/config/vault.rs:36-46 | the name is gone, and no other lookup changes |
| SecretMeaning.Vault.Load | src/store/postgres/app_secret.rs:44-73 | the vault after the upsert loop is the fold of the writes |
| SecretMeaning.LoadPushed | src/config/secrets.rs:324-333 | the accumulated write list stores exactly the last live value of each name, for any number of repeats |
| SecretMeaning.LastWriterWins | src/config/secrets.rs:324-333 | a name holds the value of the last field that stores under it |
| SecretMeaning.NormalizationPreservesMeaning | src/config/notifiers.rs:730-776 | with the writes in the vault every secret field resolves to what it resolved to before, whatever the vault held, if names do not interfere and no variable shadows them |
| SecretMeaning.SharedNameMeaning | src/config/notifiers.rs:730-745 | of two secrets of one kind stored under one name the earlier resolves to what the later one meant |
| SecretMeaning.SharedLabelLosesSecret | src/config/secrets.rs:206-244 | two notifiers with one label lose a secret |
| SecretMeaning.TwinOrganizationsLoseSecret | src/config/secrets.rs:181-202 | with such ids, one organization's stored secret replaces the other's of the same label |
| Runtime.Build | src/config/mod.rs:274-347 | the loops over sources and notifiers build every watch and sink with its resolved secrets, or nothing at the first that cannot be built |
| Runtime.BuildSinks | src/config/notifiers.rs:519-684 | a sink is refused for a blank credential, Slack unless exactly one of its two is there |
| Runtime.SinkBuildsExactly | src/config/notifiers.rs:519-684 | a sink is built exactly if its options fit and its credential resolves: a text, for Slack a hook or else a bot with a channel, for Apprise a URL or a key; mail and Kafka demand none |
| Runtime.ResolveReads | src/config/notifiers.rs:730-777 | a secret field means what it holds inline, or what it makes of the one stored value that answers it |
| Runtime.LostSecretBlocks | src/notify/telegram.rs:51-66 | a configuration with a sink whose demanded credential nothing answers cannot be built |
| Runtime.SlackNeedsOne | src/notify/slack.rs:64-104 | a Slack sink that loses both credentials cannot be built |
| Runtime.MeaningsSame | src/config/mod.rs:274-347 | two vaults give a document the same runtime exactly if every secret field holds its secret or reads the same from both |
| Runtime.SteadyIfUntouched | src/config/mod.rs:98-103 | it does if no stored name it looks up, and no process variable shadows, answers differently |
| Runtime.SteadyExactly | src/config/sources/mod.rs:118-130 | for tokens, and for text fields over usable values, it does exactly if the answer is the same |
| Namespaces.ScopedCollides | src/config/organizations.rs:61-69 | two prefixed names are equal exactly when they are the same name inside the organization |
| Namespaces.OwnerReadBack | src/config/organizations.rs:99-110 | the owner is read back from a prefixed id exactly for non-empty ids that form no separator |
| Namespaces.OwnersDisjoint | src/config/organizations.rs:61-110 | prefixed names of different organizations never meet |
| Namespaces.NestedIdsMeet | src/config/organizations.rs:61-69 | that needs ids that form no separator: otherwise two organizations share a name |
| Namespaces.ScopedTrimmed | src/notify/routing.rs:9-17 | a prefixed tag is already trimmed and not blank, so routing compares it as it is |
| Namespaces.NamespaceInPlace | src/config/organizations.rs:116-176 | the loops that rewrite teams, notifiers, defaults, presets and sources in place give the namespaced document |
| Tenancy.ScopedDelivery | src/config/organizations.rs:116-176 | a namespaced sink takes a namespaced event exactly when it was a catch-all or lists the event's tag once prefixes are stripped |
| Tenancy.OwnTagDelivery | src/notify/routing.rs:9-17 | routing by a source's own tag is the same before and after namespacing |
| Presets.PresetKept | src/config/sources/mod.rs:757-814 | for all documents, a preset reference resolves to the same preset in the merged catalogue as alone exactly if it is declared and no later declared preset has its inner name, or it is not and no organization holds it differently from the built-ins |
| Presets.ResolvesAlike | src/config/sources/mod.rs:757-814 | and it resolves merged just when it does alone exactly under a condition on blank and foreign names |
| Presets.ForeignReference | src/config/sources/mod.rs:757-769 | a name the document does not declare that carries an organization's prefix keeps its meaning exactly if that organization does not hold it, or holds the built-in |
| Presets.PlainReferenceKept | src/config/sources/mod.rs:757-814 | references without a separator to presets with trimmed, different, unprefixed names meet both conditions |
| Presets.PresetFillsUnset | src/config/sources/mod.rs:797-804 | a source that resolves has its own settings where it has any, and its preset's where not |
| Tenancy.MergedEventTag | src/config/sources/mod.rs:797-804 | whatever its document holds, a merged source that resolves emits its namespaced tag, and it resolves as it did alone exactly under the condition of `Presets.ResolvesAlike` |
| Tenancy.ForeignSinkDeaf | src/config/organizations.rs:116-176 | whatever the documents hold, the event a merged source really emits reaches no sink of another organization |
| Tenancy.DeliveryLaw | src/config/organizations.rs:116-176 | for all documents, a merged event reaches a sink exactly when both belong to one organization and the sink is a catch-all there or lists the source's tag up to the prefix |
| Tenancy.MergedDelivery | src/config/organizations.rs:116-176 | for clean tags of source and sink, merged delivery agrees with delivery in the document alone exactly if the source decides its own tag, or the sink is a catch-all, or the sink did not take it; across organizations it never happens |
| Tenancy.PresetTagLost | src/config/sources/mod.rs:797-804 | an instance of the failing half: a tag that only a preset supplies reaches no sink that lists it |
| Tenancy.PresetIntervalKept | src/config/sources/mod.rs:784-796 | a preset's interval is kept exactly when the source sets its own, the preset sets none, or it equals the default |
| Tenancy.SchedulesKept | src/config/sources/mod.rs:784-796 | a source without a preset keeps interval, jitter and polling whatever defaults are merged, and its notification schedule exactly if it or its document names one or the merged defaults name none |
| Tenancy.OpsAlertsStayFirst | src/engine.rs:255-285 | an operator alert reaches a merged sink exactly if that is the first organization's and a catch-all or lists the tag there |
| Tenancy.NamespacingKeeps | src/config/organizations.rs:116-176 | everything of a sink but its tags, and of a source but its id and shared settings, is left as it was |
| Tenancy.ForeignPresetBorrowed | src/config/sources/mod.rs:757-769 | an instance: a reference spelled with a foreign prefix resolves to the foreign preset, whatever else the borrower declares |
| Tenancy.ForgeIdsCollide | src/config/sources/mod.rs:830-853 | GitHub and Codeberg sources of one path get one id inside an organization |
| Tenancy.SourceIdsCollide | src/config/sources/mod.rs:772-783 | two sources of an organization share an id exactly when their inner names agree up to the prefix |
| Matching.DefaultIdExactly | src/config/sources/mod.rs:826-853 | sources without ids share one exactly if forge and locator agree, GitHub and Codeberg counting as one, and for Gitea the host |
| Matching.OwnIdKept | src/config/sources/mod.rs:772-783 | a source's own id is kept inside the organization unless it carries a shared legacy prefix |
| Tenancy.SourcesCredited | src/config/sources/mod.rs:772-783 | every merged source id names the organization that declares it |
| ComposedTenancy.CompositionMerges | src/config/resolve.rs:357-438 | the composed configuration is the namespaced documents one after the other, under pairwise different ids |
| ComposedTenancy.ComposedIsolation | src/config/resolve.rs:342-478 | in any composition, whatever any tenant's document holds, an event of a merged source reaches a merged sink exactly when both come from one organization's document and the sink takes the source's tag there |
| ComposedTenancy.ComposedDelivery | src/config/resolve.rs:342-478 | and it reaches a clean sink of its own document as in that document alone exactly under the condition of `Tenancy.MergedDelivery` |
| Composition.ComposeOrganizations | src/config/resolve.rs:342-478 | the loop with its early exits computes the composition, which `Origins.ComposesExactly` and `Origins.ComposedFromTexts` describe without it |
| Origins.ComposesExactly | src/config/resolve.rs:262-478 | composing succeeds exactly if the ids are there and different, every organization's deciding text (its row, else its file, else the empty document) is there, parses, holds no infrastructure and says something, and something is left to do or may come |
| Origins.ComposedFromTexts | src/config/resolve.rs:342-478 | the composition runs bootstrap's infrastructure with the sinks, sources, teams and presets of those texts in order, the first one's defaults up to the cap, under an identity made of those texts |
| Origins.MissingFileFails | src/config/resolve.rs:276-283 | a named file that is missing keeps a process from starting, unless the organization has a row |
| Origins.FirstStartRunsFiles | src/config/resolve.rs:262-302 | on an empty ledger every organization that names a file runs what the file says |
| Origins.SingleDocumentStarts | src/config/resolve.rs:183-251 | a single-document process starts with its newest row if rows count, else with the app file, else idle if documents may still come, and otherwise not |
| Composition.OverrideIsNextAuthority | src/config/resolve.rs:342-478 | composing with an override gives the configuration and identity of composing once that document is the organization's newest applied row |
| Composition.UnknownOrganizationFails | src/config/resolve.rs:439-444 | an override for an organization outside the catalogue never composes |
| Composition.ComposeIgnoresRow | src/config/resolve.rs:262-302 | rejected rows and rows of the single-document stream are not read |
| Composition.IdentityInjective | src/config/resolve.rs:380-386 | for NUL-free documents over one catalogue the hashed encoding determines every document |
| Composition.EqualIdentityEqualDocuments | src/config/resolve.rs:328-333 | identities are equal exactly when every organization contributes the same document |
| Composition.IdentityDeterminesDocuments | src/config/resolve.rs:328-333 | for compositions that succeed the premise holds, since no text with a NUL parses: identities are equal exactly when every organization contributes the same text |
| Composition.NulForgesIdentity | src/config/resolve.rs:380-386 | the encoding alone needs that premise: with a NUL inside, two different pairs of texts are encoded alike |
| Composition.CapIsStrictest | src/config/resolve.rs:404-454 | the merged upstream cap is the least non-zero cap of any organization, 0 if none |
| Composition.StrictestIgnoresOrder | src/config/resolve.rs:358-361 | so the order of the catalogue does not matter |
| Composition.PushedIsBooted | src/config/resolve.rs:183-251 | what a push merges is what a boot builds from the same text: overlay and bootstrap merge commute |
| ApplyEngine.Engine.UpsertSecrets | src/store/postgres/app_secret.rs:28-76 | the vault is updated write by write, the store only by the commit, for every point of failure |
| ApplyEngine.Engine.DeleteStale | src/config_apply/mod.rs:786-809 | deletes the names that `Retention.StaleExactly` describes from store and vault, and can fail reading an organization's previous references |
| Retention.StaleExactly | src/config/secrets.rs:101-133 | exactly those names are stale that the scope's document referenced before, the new one does not, and that start as the scope's own generated names do |
| Retention.StoreAfter | src/config_apply/mod.rs:508-535 | the secret store after an apply, name by name: what was sent is there, what was there stays with its value unless it is stale |
| Retention.ApplySpares | src/config_apply/mod.rs:786-809 | for every choice of faults an apply leaves every name in store and vault that does not start as its scope's generated names do |
| Retention.RunSpares | src/config/secrets.rs:99-116 | over every run, for every choice of faults, a stored name that no served scope may delete stays in store and vault |
| Retention.OwnNamesSpared | src/config/secrets.rs:99-116 | such is every name that does not start with XRELEASE_UI_ |
| Retention.SingleDocumentSpares | src/config/secrets.rs:113-115 | and on a single-document instance every name that is not of its sources or notifiers |
| Retention.ForeignNamesSpared | src/config/secrets.rs:106-112 | one organization's applies spare another's generated names unless one sanitised id starts the other |
| Retention.CandidateHarmless | src/config_apply/mod.rs:263-323 | a candidate's body is printed in the claimed format, else the detected one, from a document without inline secrets |
| Retention.RecordsWhatWasSent | src/config_apply/mod.rs:203-243 | a candidate's document is the pushed one, entry by entry, in all but its secret fields and the environment's cap: nothing of another organization gets into a row |
| Retention.RunHarmless | src/config_apply/mod.rs:768-784 | over every run no row of the ledger holds an inline secret, neither an applied one nor a rejected one |
| ApplyEngine.Engine.ApplyDocument | src/config_apply/mod.rs:362-574 | the apply with its early exits, its swap and its compensating swap moves the whole state as specified, for every choice of faults; both swaps build from the vault as it then is |
| ApplyEngine.Engine.ApplyRuntime | src/api/config.rs:469-485 | a swap builds everything first and then replaces what runs, or fails and replaces nothing |
| ApplyEngine.Engine.RollBack | src/config_apply/mod.rs:713-737 | re-applies the second-newest applied row of the stream |
| ApplyEngine.Engine.Serve | src/api/config.rs:492-541 | one request under the apply lock, with the published identity of its tail |
| ApplyEngine.Engine.ReloadFromDisk | src/api/config.rs:561-641 | reload in both modes, refused where the ledger is authoritative |
| ApplyRuns.ApplyShape | src/config_apply/mod.rs:362-574 | everything an apply can do to ledger and runtime, by how far it got: what is recorded, which configuration runs, and from which vault it was built |
| ApplyRuns.LedgerAppendOnly | src/store/postgres/config_revision.rs:160-193 | every event adds at most one row and changes none |
| ApplyRuns.CandidateSealed | src/config_apply/mod.rs:263-323 | a candidate's body holds no inline secret and parses to its document |
| ApplyRuns.WholeCandidateBoots | src/config_apply/mod.rs:275-303 | what a whole-document apply swaps in is what its row boots into |
| ApplyRuns.RecordedConverges | src/config_apply/mod.rs:362-574 | after a recorded apply, in either scope, the process runs what a restart would run |
| ApplyRuns.ApplyKeepsInv | src/config_apply/mod.rs:362-574 | one apply keeps the invariant for every choice of faults, unless it strands the process on an unrecorded candidate |
| ApplyRuns.ReloadConverged | src/config_apply/mod.rs:604-700 | a reload never leaves the configuration a restart would give |
| ApplyRuns.RunKeepsInv | src/config_apply/mod.rs:6-13 | over every run in which no apply is stranded, the process runs the configuration a restart would, row digests are those of their contents, applied rows hold no secret, neighbouring applied rows differ, and the published identity is the one a restart would publish |
| ApplyRuns.RunKeepsRowsFixed | src/config_apply/mod.rs:275-303 | over every run, rows recorded under one environment are left alone by its overlay |
| ApplyRuns.BootEstablishesInv | src/config/resolve.rs:183-251 | a process started on a sound ledger starts inside the invariant, with the secrets of the store |
| ApplyRuns.FreshStart | src/config/resolve.rs:183-251 | an instance on an empty ledger without an app file starts idle, inside the invariant |
| ApplyLaws.FailureIsAtomic | src/config_apply/mod.rs:389-423 | for every choice of faults a request that does not succeed leaves identity and the applied rows of all streams as they were and adds at most one rejected row; the configuration stays exactly unless the process is stranded; what the sinks hold stays unless the append was reached, after which they are built anew from the vault that is left |
| ApplyLaws.ReapplyDoesNotHeal | src/config_apply/mod.rs:375-387 | in particular re-applying the latest row's text changes nothing, whatever is running |
| ApplyLaws.AheadOfLedger | src/config_apply/mod.rs:538-561 | a process that ran what its ledger says still does after an apply, for every choice of faults, exactly unless it is stranded on a different candidate |
| ApplyLaws.HealsExactly | src/config_apply/mod.rs:362-574 | without faults an apply repairs that exactly if it is recorded: the document resolves, is valid, can be built, and neither its text nor its candidate's body is the latest row's |
| ApplyLaws.RestartHeals | src/runtime.rs:166-262 | a restart repairs it exactly if what the ledger holds can be built from the stored secrets, and otherwise the process is down |
| ApplyLaws.ValidPushTakesEffect | src/config_apply/mod.rs:500-574 | without faults a document that differs from the latest one is recorded and runs, in agreement with what a restart would run, exactly if it is valid and can be built |
| ApplyLaws.RefusedExactly | src/api/config.rs:280-300 | a request is refused, and changes nothing, exactly if the files are the authority or the scope is not one the instance serves |
| ApplyLaws.OutcomeExactly | src/config_apply/mod.rs:362-574 | how a fault-free apply ends, in every case |
| ApplyLaws.RejectionRecorded | src/config_apply/mod.rs:389-423 | a rejection is always recorded in its scope's stream, for every choice of faults, and nothing else happens |
| ApplyLaws.DocumentJudged | src/config_apply/mod.rs:203-224 | a document is rejected for its shape exactly if it does not parse, holds more than application sections, or says nothing for an organization |
| ApplyLaws.InfrastructureNotPushed | src/config/resolve.rs:72-98 | a pushed document with infrastructure in it is rejected and changes neither what runs nor any secret |
| ApplyLaws.RunKeepsInfra | src/config/resolve.rs:127-138 | over every run the infrastructure that runs is the bootstrap's |
| ApplyLaws.EnvironmentWins | src/config/resolve.rs:165-178 | and in it every value the environment sets is the environment's |
| ApplyLaws.RunCapped | src/config/resolve.rs:183-478 | over every run, whatever is pushed, the upstream cap is the environment's if it sets one and anything is configured |
| ApplyLaws.ReloadHealsExactly | src/config_apply/mod.rs:658-700 | a reload of several organizations brings a process back to its authorities exactly if they compose to a new identity and the result is valid and can be built |
| Rotations.RepushWritesNothing | src/config_apply/mod.rs:375-387 | the raw-digest exit never skips a secret: the latest row's text carries none |
| Rotations.NoRotationLost | src/config_apply/mod.rs:430-496 | after every successful apply, by whichever exit, each secret write of its document is in the vault under a name the latest row references, and a new text becomes that row |
| Rotations.NoSecretLost | src/config_apply/mod.rs:430-496 | on the pushed document itself: the vault answers the reference at the place of each inline secret that is the last of its name with the value sent |
| Rotations.ComesBackExactly | src/config_apply/mod.rs:536-561 | after a failed append the old configuration runs again exactly if it can still be built from the vault (or the candidate is no different), and a restart starts exactly if it can be built from the store |
| Rotations.DroppedSinkStrands | src/config_apply/mod.rs:508-561 | an apply that drops a sink whose stored generated credential nothing else answers, and whose append fails, leaves the candidate running unrecorded, and a restart does not start |
| Rotations.CompensationKeepsPrune | src/config_apply/mod.rs:508-561 | in either scope, a failed append leaves the store as sealing did exactly if it held none of the dropped names, and the vault exactly if it held none of those the store held |
| Rotations.CompensationRestoresSecrets | src/config_apply/mod.rs:508-561 | and it leaves the store or the vault as it was exactly if that already held every secret sent and none that the candidate drops |
| Rotations.RetryMaskedExactly | src/store/postgres/app_secret.rs:28-76 | after a transaction that failed at any of its secrets, sending the rotation again is answered as unchanged exactly if every secret not reached was in the vault already, and otherwise rotates if it is still valid |
| Rotations.LostCommitIsMasked | src/store/postgres/app_secret.rs:28-76 | in particular when only the commit fails: the rotation is answered as unchanged while the store lacks it |
| Rotations.VaultMirrorsStore | src/store/postgres/app_secret.rs:28-98 | in every run without a failed commit the vault equals the store, so a restart loses no secret |
| LiveSecrets.LiveAfterRun | src/engine.rs:207-236 | over every run, what runs holds the secrets of the vault at the last swap |
| LiveSecrets.RunMatchesRestart | src/config_apply/mod.rs:486-488 | over every run, a restart starts exactly if the running configuration can be built from the store, it runs the same configuration, and the same secrets exactly if every secret field reads the same from the store as from the vault of the last swap |
| LiveSecrets.RecordedRestarts | src/config_apply/mod.rs:500-574 | after a recorded apply whose transactions commit a restart starts, with the same configuration and the same secrets |
| LiveSecrets.RotationWaits | src/config_apply/mod.rs:430-496 | after a rotation a sink keeps the secret it was built with while a restart would use the one sent, so it is up to date exactly if it had that one before |
| Undo.RowReproduced | src/config_apply/mod.rs:703-737 | re-applying an applied row rotates nothing and gives its own text back exactly under a condition on text, overlay and blank references |
| Undo.RollbackSucceeds | src/config_apply/mod.rs:713-737 | a fault-free rollback to a repeatable row is never answered as unchanged: it is rejected if invalid, and otherwise recorded exactly if it can be built |
| Undo.ReferencedAgrees | src/config_apply/redact.rs:347-430 | a document that names a reference for every secret field always meets the last one |
| Undo.RollbackToggles | src/config_apply/mod.rs:703-737 | two recorded rollbacks append the two newest rows again and restore configuration, latest row and identity |
| Undo.RollbackStalls | src/config_apply/mod.rs:713-737 | over a chat that gained a reference, a rollback changes nothing |
| Undo.ShownThenApplied | src/config_apply/mod.rs:425-452 | sending back what a read shows leaves the whole state untouched exactly when the document agrees with itself |
| IfMatch.TagListPasses | src/api/config.rs:383-419 | a list of entity tags passes exactly when the current tag is one of them |
| IfMatch.TagPasses | src/api/config.rs:383-419 | the tag of a read passes exactly while it is current |
| IfMatch.WeakTagPasses | src/api/config.rs:405-408 | a weak tag passes too |
| IfMatch.UnguardedPasses | src/api/config.rs:383-400 | without the header every apply passes, with a star it does exactly while a document is published |
| IfMatch.MalformedExactly | src/api/config.rs:388-396 | a header is malformed exactly if it holds anything but tabs and visible ASCII |
| IfMatch.TagIsDigest | src/api/config.rs:492-518 | the published tag is the digest of the document that applies replace |
| IfMatch.NoLostUpdate | src/api/config.rs:307-327 | whatever happens between a read and a guarded apply, the apply is served exactly when the document it replaces still has the text it had at the read, and otherwise changes nothing |
| IfMatch.ReadBelongs | src/api/config.rs:33-90 | tag and content of one read belong together exactly if the revision metadata knows of the ledger, the ledger has no row, or the app file has the same text |
| IfMatch.RunShowsAuthority | src/api/config.rs:492-518 | as long as every metadata refresh succeeds they do, over every run |
| IfMatch.SplitRead | src/api/config.rs:33-90 | with anything between tag and content and anything behind, a guarded apply replaces another document than the one read exactly if the authority is back at the text of the tag and the content read was another |
| IfMatch.TornReadPasses | src/api/config.rs:33-90 | an instance: rollbacks around the second half of a read let content pass that is not the one being replaced |
| CircuitBreaker.Breaker.Record | src/breaker.rs:60-78 | the state and the report after an outcome, with the saturating counter; what they mean is `CircuitBreaker.AllowedExactly` and `CircuitBreaker.ReportedExactly` |
| CircuitBreaker.StreakDecides | src/breaker.rs:40-78 | the state is a function of the failure streak the history ends with and the time of its last failure |
| CircuitBreaker.AllowedExactly | src/breaker.rs:40-45 | after every history a call is let through exactly if no full streak stands or its last failure is a cooldown ago; so no breaker stays open for good |
| CircuitBreaker.ReportedExactly | src/breaker.rs:60-78 | a failure is reported exactly if it completes a streak, or adds to a full one a cooldown after its last failure |
| CircuitBreaker.GatedAttemptsBounded | src/breaker.rs:40-78 | a gated caller makes at most threshold + span / cooldown attempts in a success-free stretch |
| CircuitBreaker.ReportsBounded | src/breaker.rs:60-78 | even ungated, and after whatever history, at most 1 + span / cooldown openings are reported |
| Advisories.AdvisoryLookup.Lookup | src/advisory/mod.rs:402-465 | a lookup is skipped, answered from the cache or asked; unverified outcomes are empty |
| Advisories.AdvisoryLookup.RecordSuccess | src/advisory/mod.rs:481-508 | stores the answer, evicting stale entries or all at the cap |
| Advisories.AdvisoryLookup.RecordFailure | src/advisory/mod.rs:510-523 | counts the failure with the floored threshold |
| Advisories.HitIsRecentAnswer | src/advisory/mod.rs:467-475 | in every interleaving a cached answer is the last OSV gave for that ecosystem and trimmed name and version, younger than the lifetime |
| Advisories.RecentAnswerServed | src/advisory/mod.rs:467-508 | conversely, below the cap a coordinate answered less than a lifetime ago is served from the cache with that answer |
| Advisories.CacheBounded | src/advisory/mod.rs:481-508 | the cache never exceeds 4096 entries and stays empty when the lifetime is 0 |
| Advisories.FreshKeptAtCap | src/advisory/mod.rs:481-508 | at the cap stale answers make room, and fresh ones only if all are fresh |
| Advisories.EcosystemsApart | src/advisory/mod.rs:129-143 | two registries share their answers exactly if they are one, or npm and Yarn |
| Advisories.AskedExactly | src/advisory/mod.rs:402-435 | a coordinate is asked about, by its trimmed name and version, exactly if lookups are on, it is one, no fresh answer is cached, and no full streak of failures stands or its last is a cooldown ago |
| AdvisorySweep.AdvisoryStore.PersistAdvisoryResult | src/pipeline/outbox.rs:526-555 | two independent best-effort writes |
| AdvisorySweep.AdvisoryStore.SweepOnce | src/scheduler.rs:425-483 | one round over all targets: the tables and the reported count |
| AdvisorySweep.OnlyVerifiedMarked | src/scheduler.rs:465-479 | the checked set grows, and only by verified answers to seen versions |
| AdvisorySweep.CheckedIsFinal | src/store/postgres/advisory.rs:165-200 | a round never asks about a checked version again |
| AdvisorySweep.PageRecords | src/api/observability.rs:496-600 | a source page records what it looks up, and looks up only versions with neither marker nor findings |
| AdvisorySweep.CheckedHistory | src/store/postgres/mod.rs:843-859 | over every history, while its marker stands, a version's findings are what a delivery last wrote and retention has not dropped |
| AdvisorySweep.LostFindingsStayLost | src/pipeline/outbox.rs:475-555 | over every history of rounds, deliveries, page lookups and retention, a version marked without its findings stays marked and without them until a delivery writes them, while its marker is kept |
| AdvisorySweep.RecordedInFull | src/pipeline/outbox.rs:526-555 | a marked answer is stored in full unless exactly that happens |
| AdvisorySweep.TurnProgress | src/scheduler.rs:437-479 | a target's turn whose answers are all verified takes exactly its batch off the head of its queue |
| AdvisorySweep.RoundsProgress | src/scheduler.rs:425-483 | after r such rounds at most n - r * batch of n versions are left, whatever other targets do |
| AdvisorySweep.BacklogCovered | src/scheduler.rs:425-483 | n versions are covered in n / batch rounds, rounded up |
| AdvisorySweep.RoundLeaves | src/scheduler.rs:425-483 | one round leaves a package's queue as it was, in order, but for exactly the versions it marks |
| AdvisorySweep.FailingHeadBlocks | src/store/postgres/advisory.rs:150-200 | over any number of rounds a queue stays as it was exactly if every round fails to reach the package or to mark any of the batch at its head |
| AdvisorySweep.BlankHeadBlocks | src/advisory/mod.rs:414-416 | a head of blank versions blocks its queue in every run of rounds whose replies come from lookups |
| AdvisorySweep.VerifiableExactly | src/advisory/mod.rs:402-416 | some state and answer verify a version exactly when lookups are on, the registry has an ecosystem, and neither package nor version is blank |
| AdvisorySweep.TurnMarks | src/scheduler.rs:465-479 | a turn marks as many versions as answers whose marker was saved |
| AdvisorySweep.CountOverstates | src/scheduler.rs:478-482 | the reported count equals that exactly when every marker of a verified answer was saved |
| AdvisorySweep.RoundCount | src/scheduler.rs:425-483 | the count of a whole round bounds the versions newly marked, and is their number exactly if every marker of a verified answer was saved |
| Releases.LenientParse | src/model.rs:165-172 | the padding loop keeps the components and fills with zeros |
| Releases.ParsersAgree | src/model.rs:158-195 | for every built release, a version is present exactly when numeric components are, unless the tag goes on with white space and is numeric after a second trim |
| Releases.PlainTagTidy | src/model.rs:158-195 | a trimmed tag without white space inside is never the exception |
| Releases.TotalPreorder | src/model.rs:121-149 | on such releases the comparator is reflexive, reversed by swapping, and transitive in every mix of ties and strict steps |
| Releases.BuiltPreorder | src/model.rs:121-195 | in particular on all releases built from tags without white space inside |
| Releases.NumericTagsCompare | src/model.rs:121-195 | of two numeric tags with equally many components, however many, the one with the greater numbers from the left is the newer, and equal ones are told apart by publication |
| Releases.StrictTagsCompare | src/model.rs:158-163 | strict semantic versions are ordered as the library orders them, pre-releases included |
| Releases.VersionsFirst | src/model.rs:121-149 | a numeric tag is newer than any without a version, and among those the later publication is |
| Releases.PickLatest | src/model.rs:109-114 | returns a maximum, the last of several |
| Releases.PickedTiesWithHead | src/model.rs:116-119 | it ties with the head of any newest-first sorted permutation |
| Releases.IrregularTagMakesCircle | src/model.rs:121-195 | every irregular release, dated or not, closes a circle with two regular ones |
| Releases.CircleIffIrregular | src/model.rs:121-195 | so a built release lies on a circle of the comparator exactly when its tag is irregular |
| WatchLookup.WatchIndex.constructor | src/watch_lookup.rs:33-62 | the tables hold exactly what scans of the watch list find |
| WatchLookup.WatchIndex.FindById | src/watch_lookup.rs:75-80 | the last watch with the id |
| WatchLookup.WatchIndex.FindRepos | src/watch_lookup.rs:82-87 | all watches of the kind and normalised repo, in declaration order |
| WatchLookup.WatchIndex.FindReposAny | src/watch_lookup.rs:89-103 | the same for several kinds, one kind after the other |
| WatchLookup.WatchIndex.FindImagesAny | src/watch_lookup.rs:105-120 | the same for images, over container kinds only |
| WatchLookup.ScanAny | src/watch_lookup.rs:89-103 | holds a position exactly when its watch has one of the kinds and the normalised name |
| WatchLookup.NoWatchTwice | src/watch_lookup.rs:89-120 | no watch is returned twice exactly when no kind that has a match is listed twice |
| WatchLookup.NormaliseExactly | src/watch_lookup.rs:129-137 | names are looked up alike exactly if they are the same once trimmed, but for the case of ASCII letters |

## Left out

- Text formats: TOML, YAML and JSON syntax and format sniffing are a print/parse pair with an inverse law; printed webhook headers are taken to have one text, where `HashMap` order may vary between runs.
- Validation: `validate_full` is an arbitrary predicate on the merged configuration and the vault, and its reports and warnings are not modelled.
- Files and environment: bootstrap, app files and variables are fixed during a run; editing a file between two reloads is not modelled.
- Undo.RowReproduced: assumes the stream has a latest row; before the first one there is nothing to roll back to.
- ApplyRuns.RunKeepsInv: assumes that no apply of the run strands the process on its candidate; when that happens and what then repairs it is in `ApplyLaws.AheadOfLedger`, `Rotations.ComesBackExactly` and `ApplyLaws.HealsExactly`.
- LiveSecrets.RotationWaits: one whole-document instance; for organizations `LiveSecrets.RunMatchesRestart` covers rotations.
- Runtime.Build: whether a source's preset, filters and schedule make a watch, and what a sink's constructor asks of its options, are the predicates `watchable` and `fits`; a constructor that fails of itself, such as Kafka's producer, is a fault of the swap.
- ApplyEngine.Engine.ApplyDocument: revision numbers, labels, authors, times and the source diff of the response are not modelled; ledger order is insertion order.
- ApplyEngine.Engine.DeleteStale: the stale names are a set; the code sorts them into a list first, which only fixes the order of the deletes.
- SecretMeaning.NormalizationPreservesMeaning: fields whose names interfere are excluded; what happens to two fields of one kind that share a name is `SecretMeaning.SharedNameMeaning`.
- Redaction.RedactionKeepsShape: broker URLs are excluded, because userinfo with a slash is shown in part; what is kept of them is `Redaction.RedactionKeepsBrokers`.
- Tenancy.MergedDelivery: agreement with the document alone is stated for tags that do not carry the organization's own prefix and are not the reserved broadcast tag; for all other tags `Tenancy.DeliveryLaw` says what is delivered.
- ComposedTenancy.ComposedIsolation: organization ids are trimmed, non-empty and form no separator; `Namespaces.NestedIdsMeet` shows that this is needed.
- IfMatch.NoLostUpdate: one `If-Match` field line; it is about the authority's text at the read, which the content shown is under `IfMatch.ReadBelongs` and `IfMatch.SplitRead`.
- CircuitBreaker.GatedAttemptsBounded: one caller at a time; the extra probes of concurrent callers that the code accepts are not counted. Overflow of a clock reading plus a cooldown is not modelled.
- Advisories.AdvisoryLookup.Lookup: one clock reading per locked section; HTTP, JSON decoding and the request deadline are one answer-or-failure.
- AdvisorySweep.LostFindingsStayLost: the source page's lookups are taken one version at a time, and which rows retention drops is arbitrary.
- AdvisorySweep.AdvisoryStore.SweepOnce: the lookups of a batch are given by their replies; which of them OSV answers depends on the breaker as in `Advisories`.
- Releases.TotalPreorder: the semver library's parser and order enter by their laws; publication times are integers.
- Releases.PickedTiesWithHead: the standard library's sort is any newest-first permutation; its stability is not used.
- WatchLookup.WatchIndex.FindImagesAny: the image table is one map over pairs of kind and image, where the code nests two maps.
- Preset release filters, source settings that no modelled operation reads, and notifier transport options are opaque.
- Secret sealing (AES-GCM), authentication, roles, rate limits, routes and CORS.
- PostgreSQL itself, the outbox and the delivery pipeline beyond the calls named above.
- The role ladder, configuration diff, percent-encoding, backoff and sleep loops: correct but easy.
