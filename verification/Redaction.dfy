/**
 What `GET /api/v1/config` shows: every secret replaced by a marker
 (src/config_apply/redact.rs).
 */
module Redaction {
  import opened Text
  import opened Settings

  // ------------------------------------------------------------------- URLs

  const SCHEME_END := "://"

  /** What follows the scheme, cut at the first slash. */
  function Authority(rest: string): string {
    match FindChar(rest, '/')
    case None => rest
    case Some(end) => rest[..end]
  }

  /** Masks what stands before the last `@` of the authority. */
  function MaskRest(rest: string): string {
    match FindLast(Authority(rest), '@')
    case None => rest
    case Some(at) => REDACTED + "@" + rest[at + 1..]
  }

  /** `redact_url_userinfo` */
  function RedactUserinfo(url: string): string {
    match Find(url, SCHEME_END)
    case None => url
    case Some(i) => url[..i + 3] + MaskRest(url[i + 3..])
  }

  /** `scheme://user@host` followed by a path, query or nothing. */
  function Url(scheme: string, user: string, host: string, path: string): string {
    scheme + SCHEME_END + AfterScheme(user, host, path)
  }

  function AfterScheme(user: string, host: string, path: string): string {
    user + "@" + host + path
  }

  /** The parts of section 3.2 of RFC 3986 that the masking relies on. */
  predicate UrlParts(scheme: string, host: string, path: string) {
    && ':' !in scheme
    && '/' !in host && '@' !in host
    && (path == "" || path[0] == '/')
  }

  lemma {:induction false} SchemeFound(scheme: string, rest: string)
    requires ':' !in scheme
    ensures Find(scheme + SCHEME_END + rest, SCHEME_END) == Some(|scheme|)
    decreases |scheme|
  {
    var url := scheme + SCHEME_END + rest;
    if scheme == "" {
      assert SCHEME_END <= url;
    } else {
      assert url[0] == scheme[0] && SCHEME_END[0] == ':';
      assert !(SCHEME_END <= url);
      assert url[1..] == scheme[1..] + SCHEME_END + rest;
      SchemeFound(scheme[1..], rest);
    }
  }

  lemma RedactAfterScheme(scheme: string, rest: string)
    requires ':' !in scheme
    ensures RedactUserinfo(scheme + SCHEME_END + rest) == scheme + SCHEME_END + MaskRest(rest)
  {
    var url := scheme + SCHEME_END + rest;
    SchemeFound(scheme, rest);
    assert url[|scheme| + 3..] == rest;
  }

  lemma AuthorityCut(authority: string, path: string)
    requires '/' !in authority && (path == "" || path[0] == '/')
    ensures Authority(authority + path) == authority
  {
    if path == "" {
      assert authority + path == authority;
    } else {
      assert (authority + path)[..|authority|] == authority;
      FindCharAt(authority + path, '/', |authority|);
    }
  }

  /** The last `@` of an authority separates userinfo from host. */
  lemma MaskSplit(user: string, host: string, path: string)
    requires '/' !in user && '/' !in host && '@' !in host && (path == "" || path[0] == '/')
    ensures MaskRest(AfterScheme(user, host, path)) == AfterScheme(REDACTED, host, path)
  {
    var authority := user + "@" + host;
    var rest := AfterScheme(user, host, path);
    assert rest == authority + path;
    AuthorityCut(authority, path);
    LastAt(user, host);
    assert rest[|user| + 1..] == host + path;
    AppendThree(REDACTED, "@", host, path);
  }

  lemma LastAt(user: string, host: string)
    requires '@' !in host
    ensures FindLast(user + "@" + host, '@') == Some(|user|)
  {
    assert (user + "@" + host)[|user| + 1..] == host;
    FindLastAt(user + "@" + host, '@', |user|);
  }

  lemma AppendThree(a: string, b: string, c: string, d: string)
    ensures a + b + (c + d) == a + b + c + d
  {
  }

  /** Slash-free userinfo is masked, whatever it is, and nothing else of the URL changes. */
  lemma UserinfoMasked(scheme: string, user: string, host: string, path: string)
    requires UrlParts(scheme, host, path) && '/' !in user
    ensures RedactUserinfo(Url(scheme, user, host, path)) == Url(scheme, REDACTED, host, path)
  {
    RedactAfterScheme(scheme, AfterScheme(user, host, path));
    MaskSplit(user, host, path);
  }

  /** Userinfo with a slash in it is never masked as a whole. */
  lemma SlashEscapesMask(head: string, tail: string, host: string, path: string)
    requires '/' !in head
    ensures MaskRest(AfterScheme(head + "/" + tail, host, path)) != AfterScheme(REDACTED, host, path)
  {
    var user := head + "/" + tail;
    var rest := AfterScheme(user, host, path);
    var after := "/" + tail + "@" + host + path;
    assert rest == head + after;
    AuthorityCut(head, after);
    var masked := AfterScheme(REDACTED, host, path);
    match FindLast(head, '@')
    case None =>
      assert |rest| == |user| + 1 + |host| + |path| && |masked| == |REDACTED| + 1 + |host| + |path|;
      if |user| == |REDACTED| {
        assert rest[|head|] == '/';
        assert masked[|head|] == REDACTED[|head|] != '/';
      }
    case Some(at) =>
      assert |MaskRest(rest)| >= |masked| + 2;
  }

  /** The masking hides the userinfo of a URL exactly when that userinfo holds no slash. */
  lemma MaskedIffSlashFree(scheme: string, user: string, host: string, path: string)
    requires UrlParts(scheme, host, path)
    ensures RedactUserinfo(Url(scheme, user, host, path)) == Url(scheme, REDACTED, host, path)
            <==> '/' !in user
  {
    if '/' !in user {
      UserinfoMasked(scheme, user, host, path);
    } else {
      var cut := FindChar(user, '/').value;
      var head, tail := user[..cut], user[cut + 1..];
      assert user == head + "/" + tail;
      RedactAfterScheme(scheme, AfterScheme(user, host, path));
      SlashEscapesMask(head, tail, host, path);
      AppendCancel(scheme + SCHEME_END, MaskRest(AfterScheme(user, host, path)), AfterScheme(REDACTED, host, path));
    }
  }

  lemma AppendCancel(prefix: string, a: string, b: string)
    requires a != b
    ensures prefix + a != prefix + b
  {
    assert (prefix + a)[|prefix|..] == a && (prefix + b)[|prefix|..] == b;
  }

  /** Any text with an `@` in its authority splits into userinfo, host and path. */
  lemma SplitRest(rest: string) returns (user: string, host: string, path: string)
    requires FindLast(Authority(rest), '@').Some?
    ensures rest == AfterScheme(user, host, path)
    ensures '/' !in user && '/' !in host && '@' !in host && (path == "" || path[0] == '/')
  {
    var authority := Authority(rest);
    var at := FindLast(authority, '@').value;
    user, host, path := authority[..at], authority[at + 1..], rest[|authority|..];
    assert authority == user + "@" + host;
    assert rest == authority + path;
  }

  lemma MaskRestIdempotent(rest: string)
    ensures MaskRest(MaskRest(rest)) == MaskRest(rest)
  {
    if FindLast(Authority(rest), '@').Some? {
      var user, host, path := SplitRest(rest);
      MaskSplit(user, host, path);
      MaskSplit(REDACTED, host, path);
    }
  }

  /** Masking is idempotent on every string. */
  lemma RedactUserinfoIdempotent(url: string)
    ensures RedactUserinfo(RedactUserinfo(url)) == RedactUserinfo(url)
  {
    if Find(url, SCHEME_END).Some? {
      var i := Find(url, SCHEME_END).value;
      var masked := RedactUserinfo(url);
      assert masked[..i + 3] == url[..i + 3];
      FindStable(url, masked, SCHEME_END, i);
      assert masked[i + 3..] == MaskRest(url[i + 3..]);
      MaskRestIdempotent(url[i + 3..]);
    }
  }

  lemma RedactUserinfoVisible(url: string)
    requires !Blank(url)
    ensures !Blank(RedactUserinfo(url))
  {
    var r := RedactUserinfo(url);
    if r != url {
      var i := Find(url, SCHEME_END).value;
      assert url == url[..i + 3] + url[i + 3..];
      assert r[i + 3] == '<';
      VisibleNotBlank(r, i + 3);
    }
  }

  // ----------------------------------------------------------------- fields

  /** A secret is configured, inline or by reference. */
  predicate Present(f: Field) {
    || !EnvBlank(f.env)
    || (match f
        case Token(token, _) => token.Some? && !Blank(token.value)
        case Plain(inline, _) => inline != ""
        case Hook(inline, _) => inline != ""
        case Broker(inline, _) => inline != ""
        case Urls(urls, _, _) => urls != []
        case Headers(headers, _) => headers != map[])
  }

  function RedactField(f: Field): Field {
    match f
    case Token(_, _) => if Present(f) then f.(token := Some(REDACTED)) else f
    case Plain(_, env) => if Present(f) then Plain(REDACTED, env) else f
    case Hook(_, env) => if Present(f) then Hook(REDACTED, env) else f
    case Broker(inline, env) =>
      if !EnvBlank(env) && Blank(inline) then Broker(REDACTED, env) else Broker(RedactUserinfo(inline), env)
    case Urls(_, env, key) => if Present(f) then Urls([REDACTED], env, key) else f
    case Headers(headers, env) =>
      if headers == map[] && !EnvBlank(env) then Headers(map["Authorization" := REDACTED], env)
      else Headers(map key | key in headers :: REDACTED, env)
  }

  /**
   The two fields differ at most in a secret: the same reference, and under it any
   contents whatever; without one, two visible tokens, two non-empty texts or URL
   lists, two header tables with the same names, or two URLs that are the same
   outside their userinfo.
   */
  ghost predicate DifferInSecretOnly(f: Field, g: Field) {
    && SameKind(f, g)
    && f.env == g.env
    && match f
       case Token(token, _) =>
         || !EnvBlank(f.env) || token == g.token
         || (token.Some? && g.token.Some? && !Blank(token.value) && !Blank(g.token.value))
       case Plain(inline, _) => !EnvBlank(f.env) || (inline == "" <==> g.inline == "")
       case Hook(inline, _) => !EnvBlank(f.env) || (inline == "" <==> g.inline == "")
       case Broker(inline, _) => inline == g.inline || SameOutsideUserinfo(inline, g.inline)
       case Urls(urls, _, key) => key == g.configKey && (!EnvBlank(f.env) || (urls == [] <==> g.urls == []))
       case Headers(headers, _) => headers.Keys == g.headers.Keys
  }

  ghost predicate SameOutsideUserinfo(a: string, b: string) {
    exists scheme, user, user', host, path ::
      && UrlParts(scheme, host, path) && '/' !in user && '/' !in user'
      && a == Url(scheme, user, host, path) && b == Url(scheme, user', host, path)
  }

  lemma MaskIgnoresUserinfo(a: string, b: string)
    requires SameOutsideUserinfo(a, b)
    ensures RedactUserinfo(a) == RedactUserinfo(b) && !Blank(a) && !Blank(b)
  {
    var scheme, user, user', host, path :|
      && UrlParts(scheme, host, path) && '/' !in user && '/' !in user'
      && a == Url(scheme, user, host, path) && b == Url(scheme, user', host, path);
    UserinfoMasked(scheme, user, host, path);
    UserinfoMasked(scheme, user', host, path);
    assert a[|scheme|] == ':' && b[|scheme|] == ':';
    VisibleNotBlank(a, |scheme|);
    VisibleNotBlank(b, |scheme|);
  }

  /** Redaction depends on no secret's contents. */
  lemma RedactionIgnoresSecrets(f: Field, g: Field)
    requires DifferInSecretOnly(f, g)
    ensures RedactField(f) == RedactField(g)
  {
    hide Blank, SameOutsideUserinfo, RedactUserinfo;
    match f
    case Broker(inline, env) =>
      if inline != g.inline {
        MaskIgnoresUserinfo(inline, g.inline);
      }
    case Headers(headers, _) =>
      assert headers == map[] <==> headers.Keys == {};
      assert g.headers == map[] <==> g.headers.Keys == {};
    case _ =>
  }

  /**
   Redaction hides no more than that: apart from broker URLs, fields that redact
   alike differ in the contents of a configured secret only.
   */
  lemma RedactionKeepsShape(f: Field, g: Field)
    requires SameKind(f, g) && !f.Broker? && RedactField(f) == RedactField(g)
    requires f.Headers? && f.headers == map[] <==> g.Headers? && g.headers == map[]
    ensures DifferInSecretOnly(f, g)
  {
    BlankEmpty();
    if f.Headers? && f.headers != map[] {
      assert RedactField(f).headers.Keys == f.headers.Keys;
      assert RedactField(g).headers.Keys == g.headers.Keys;
    }
  }

  lemma MarkerHasNoScheme()
    ensures RedactUserinfo(REDACTED) == REDACTED
  {
    var marker := REDACTED;
    FindNeedsHead(marker, SCHEME_END);
  }

  function Around(head: string, user: string, tail: string): string {
    head + (user + "@" + tail)
  }

  /** The two texts differ at most in what stands before one `@`. */
  ghost predicate SameAroundAt(a: string, b: string) {
    exists head, user, user', tail :: a == Around(head, user, tail) && b == Around(head, user', tail)
  }

  /** A masked URL keeps everything around its marker. */
  lemma MaskedShape(url: string) returns (head: string, user: string, tail: string)
    requires RedactUserinfo(url) != url
    ensures url == Around(head, user, tail) && RedactUserinfo(url) == Around(head, REDACTED, tail)
    ensures |head| >= 3 && Find(RedactUserinfo(url), SCHEME_END) == Some(|head| - 3)
  {
    hide MaskRest;
    var i := Find(url, SCHEME_END).value;
    var rest := url[i + 3..];
    head := url[..i + 3];
    assert url == head + rest;
    user, tail := MaskedRestShape(rest);
    FindStable(url, RedactUserinfo(url), SCHEME_END, i) by {
      assert RedactUserinfo(url)[..i + 3] == head;
    }
  }

  lemma MaskedRestShape(rest: string) returns (user: string, tail: string)
    requires MaskRest(rest) != rest
    ensures rest == user + "@" + tail && MaskRest(rest) == REDACTED + "@" + tail
  {
    var host, path;
    user, host, path := SplitRest(rest);
    tail := host + path;
    hide MaskRest;
    MaskSplit(user, host, path);
    AppendThree(user, "@", host, path);
    AppendThree(REDACTED, "@", host, path);
  }

  lemma SameAroundMarker(head: string, tail: string, head': string, tail': string)
    requires |head| == |head'| && Around(head, REDACTED, tail) == Around(head', REDACTED, tail')
    ensures head == head' && tail == tail'
  {
    var masked, n := Around(head, REDACTED, tail), |head| + |REDACTED| + 1;
    assert head == masked[..|head|] == head';
    assert tail == masked[n..] == tail';
  }

  /** URLs that are masked alike differ in nothing but what stands before one `@`. */
  lemma MaskKeepsRest(a: string, b: string)
    requires RedactUserinfo(a) == RedactUserinfo(b)
    ensures a == b || SameAroundAt(a, b)
  {
    hide RedactUserinfo, Find, Around;
    if RedactUserinfo(a) != a {
      var head, user, tail := MaskedShape(a);
      if RedactUserinfo(b) != b {
        var head', user', tail' := MaskedShape(b);
        SameAroundMarker(head, tail, head', tail');
      }
    } else if RedactUserinfo(b) != b {
      var head, user, tail := MaskedShape(b);
    }
  }

  lemma MaskedNotMarker(url: string)
    requires RedactUserinfo(url) == REDACTED
    ensures url == REDACTED
  {
    hide RedactUserinfo, Around;
    var marker := REDACTED;
    FindNeedsHead(marker, SCHEME_END);
    if RedactUserinfo(url) != url {
      var head, user, tail := MaskedShape(url);
    }
  }

  /**
   The same for broker URLs: fields shown alike have one reference and differ at most
   before one `@`, or are each blank or the marker itself under a reference.
   */
  lemma RedactionKeepsBrokers(f: Field, g: Field)
    requires f.Broker? && g.Broker? && RedactField(f) == RedactField(g)
    ensures f.env == g.env
    ensures || f.inline == g.inline || SameAroundAt(f.inline, g.inline)
            || (!EnvBlank(f.env) && forall h :: h in {f, g} ==> Blank(h.inline) || h.inline == REDACTED)
  {
    hide RedactUserinfo, SameAroundAt;
    if EnvBlank(f.env) || (!Blank(f.inline) && !Blank(g.inline)) {
      MaskKeepsRest(f.inline, g.inline);
    } else if !Blank(f.inline) {
      MaskedNotMarker(f.inline);
    } else if !Blank(g.inline) {
      MaskedNotMarker(g.inline);
    }
  }

  lemma RedactFieldIdempotent(f: Field)
    ensures RedactField(RedactField(f)) == RedactField(f)
  {
    BlankEmpty();
    match f
    case Broker(inline, env) =>
      if EnvBlank(env) {
        RedactUserinfoIdempotent(inline);
      } else if Blank(inline) {
        MarkerHasNoScheme();
      } else {
        RedactUserinfoIdempotent(inline);
        RedactUserinfoVisible(inline);
      }
    case Headers(headers, env) =>
      var shown := RedactField(f).headers;
      assert forall key :: key in shown ==> shown[key] == REDACTED;
      assert shown == map[] ==> headers == map[];
      assert (map key | key in shown :: REDACTED) == shown;
    case _ =>
  }

  // ------------------------------------------------------- nothing is shown

  /** What a reader sees of a field: the marker or nothing where a secret can stand, and header names. */
  ghost predicate ShowsNoSecret(f: Field) {
    match f
    case Token(token, _) => token.None? || token.value == REDACTED || Blank(token.value)
    case Plain(inline, _) => inline == REDACTED || inline == ""
    case Hook(inline, _) => inline == REDACTED || inline == ""
    case Urls(urls, _, _) => urls == [REDACTED] || urls == []
    case Headers(headers, _) => forall key :: key in headers ==> headers[key] == REDACTED
    case Broker(inline, _) => HidesUserinfo(inline)
  }

  /** A URL whose slash-free userinfo, if it has one, is the marker. */
  ghost predicate HidesUserinfo(url: string) {
    forall scheme, user, host, path :: UrlParts(scheme, host, path) && '/' !in user && url == Url(scheme, user, host, path)
      ==> user == REDACTED
  }

  lemma MaskedHidesUserinfo(url: string)
    ensures HidesUserinfo(RedactUserinfo(url))
  {
    hide RedactUserinfo, Url;
    forall scheme, user, host, path
      | UrlParts(scheme, host, path) && '/' !in user && RedactUserinfo(url) == Url(scheme, user, host, path)
      ensures user == REDACTED
    {
      RedactUserinfoIdempotent(url);
      UserinfoMasked(scheme, user, host, path);
      SameUser(scheme, user, REDACTED, host, path);
    }
  }

  lemma SameUser(scheme: string, user: string, user': string, host: string, path: string)
    requires Url(scheme, user, host, path) == Url(scheme, user', host, path)
    ensures user == user'
  {
    var a, b := Url(scheme, user, host, path), Url(scheme, user', host, path);
    var n := |scheme| + |SCHEME_END|;
    assert |user| == |user'|;
    assert a[n..n + |user|] == user && b[n..n + |user'|] == user';
  }

  lemma MarkerHidesUserinfo()
    ensures HidesUserinfo(REDACTED)
  {
    MaskedHidesUserinfo(REDACTED);
    MarkerHasNoScheme();
  }

  /**
   What a read shows of a field, whatever it holds: no secret, the same reference, the
   same header names, and the marker exactly where something is configured, inline or
   by reference.
   */
  lemma FieldShown(f: Field)
    ensures ShowsNoSecret(RedactField(f)) && SameKind(RedactField(f), f) && RedactField(f).env == f.env
    ensures match f
            case Token(token, env) =>
              RedactField(f).token == Some(REDACTED) <==>
              !EnvBlank(env) || (token.Some? && (!Blank(token.value) || token.value == REDACTED))
            case Plain(inline, env) => RedactField(f).inline == REDACTED <==> inline != "" || !EnvBlank(env)
            case Hook(inline, env) => RedactField(f).inline == REDACTED <==> inline != "" || !EnvBlank(env)
            case Urls(urls, env, key) =>
              RedactField(f).urls == [REDACTED] && RedactField(f).configKey == key
              <==> (urls != [] || !EnvBlank(env))
            case Headers(headers, env) =>
              if headers == map[] && !EnvBlank(env) then RedactField(f).headers == map["Authorization" := REDACTED]
              else RedactField(f).headers.Keys == headers.Keys
            case Broker(inline, env) =>
              if !EnvBlank(env) && Blank(inline) then RedactField(f).inline == REDACTED
              else RedactField(f).inline == RedactUserinfo(inline)
  {
    hide RedactUserinfo, HidesUserinfo, Trim;
    match f
    case Broker(inline, env) =>
      MaskedHidesUserinfo(inline);
      MarkerHidesUserinfo();
    case _ =>
  }

  lemma RedactFieldKind(f: Field)
    ensures SameKind(RedactField(f), f) && RedactField(f).env == f.env
  {
  }

  // -------------------------------------------------------------- documents

  function RedactFields(fs: seq<Field>): (r: seq<Field>)
    ensures Conform(r, fs)
  {
    seq(|fs|, k requires 0 <= k < |fs| => RedactField(fs[k]))
  }

  function RedactSource(s: Source): Source {
    WithSourceFields(s, RedactFields(SourceFields(s)))
  }

  function RedactNotifier(n: Notifier): Notifier {
    WithNotifierFields(n, RedactFields(NotifierFields(n)))
  }

  function RedactSources(sources: seq<Source>): seq<Source> {
    seq(|sources|, i requires 0 <= i < |sources| => RedactSource(sources[i]))
  }

  function RedactNotifiers(notifiers: seq<Notifier>): seq<Notifier> {
    seq(|notifiers|, i requires 0 <= i < |notifiers| => RedactNotifier(notifiers[i]))
  }

  function RedactDesired(d: Desired): Desired {
    d.(sources := RedactSources(d.sources), notifiers := RedactNotifiers(d.notifiers))
  }

  function RedactOptional(value: Option<string>): Option<string> {
    if value.Some? && value.value != "" then Some(REDACTED) else value
  }

  function RedactInfra(i: Infra): Infra {
    i.(database := i.database.(postgresUrl :=
         if Blank(i.database.postgresUrl) then i.database.postgresUrl
         else RedactUserinfo(i.database.postgresUrl)),
       api := i.api.(apiKey := RedactOptional(i.api.apiKey),
                     webhookSecret := RedactOptional(i.api.webhookSecret),
                     sessionSecret := RedactOptional(i.api.sessionSecret),
                     adminPassword := RedactOptional(i.api.adminPassword)))
  }

  /** `redact_config` */
  function RedactConfig(c: Config): Config {
    c.(infra := RedactInfra(c.infra), desired := RedactDesired(c.desired))
  }

  ghost predicate FieldsAlike(fs: seq<Field>, gs: seq<Field>) {
    |fs| == |gs| && forall k :: 0 <= k < |fs| ==> DifferInSecretOnly(fs[k], gs[k])
  }

  ghost predicate SourceAlike(s: Source, t: Source) {
    FieldsAlike(SourceFields(s), SourceFields(t)) && t == WithSourceFields(s, SourceFields(t))
  }

  ghost predicate NotifierAlike(n: Notifier, m: Notifier) {
    FieldsAlike(NotifierFields(n), NotifierFields(m)) && m == WithNotifierFields(n, NotifierFields(m))
  }

  predicate OptionalAlike(a: Option<string>, b: Option<string>) {
    a == b || (a.Some? && b.Some? && a.value != "" && b.value != "")
  }

  ghost predicate InfraAlike(i: Infra, j: Infra) {
    && (i.database.postgresUrl == j.database.postgresUrl
        || SameOutsideUserinfo(i.database.postgresUrl, j.database.postgresUrl))
    && OptionalAlike(i.api.apiKey, j.api.apiKey)
    && OptionalAlike(i.api.webhookSecret, j.api.webhookSecret)
    && OptionalAlike(i.api.sessionSecret, j.api.sessionSecret)
    && OptionalAlike(i.api.adminPassword, j.api.adminPassword)
    && j == i.(database := i.database.(postgresUrl := j.database.postgresUrl),
               api := j.api.(other := i.api.other))
  }

  /** The two configurations differ in the contents of configured secrets only. */
  ghost predicate ConfigsAlike(c: Config, e: Config) {
    && InfraAlike(c.infra, e.infra)
    && |c.desired.sources| == |e.desired.sources| && |c.desired.notifiers| == |e.desired.notifiers|
    && (forall i :: 0 <= i < |c.desired.sources| ==> SourceAlike(c.desired.sources[i], e.desired.sources[i]))
    && (forall i :: 0 <= i < |c.desired.notifiers| ==>
          NotifierAlike(c.desired.notifiers[i], e.desired.notifiers[i]))
    && e == c.(infra := e.infra,
               desired := c.desired.(sources := e.desired.sources, notifiers := e.desired.notifiers))
  }

  ghost predicate FieldsShowNoSecret(fs: seq<Field>) {
    forall k :: 0 <= k < |fs| ==> ShowsNoSecret(fs[k])
  }

  ghost predicate OptionalHidden(value: Option<string>) {
    value.None? || value.value == "" || value.value == REDACTED
  }

  /** No secret of any entry, of the API section or of the database URL can be read. */
  ghost predicate ConfigShowsNoSecret(c: Config) {
    && (forall i :: 0 <= i < |c.desired.sources| ==> FieldsShowNoSecret(SourceFields(c.desired.sources[i])))
    && (forall i :: 0 <= i < |c.desired.notifiers| ==> FieldsShowNoSecret(NotifierFields(c.desired.notifiers[i])))
    && OptionalHidden(c.infra.api.apiKey) && OptionalHidden(c.infra.api.webhookSecret)
    && OptionalHidden(c.infra.api.sessionSecret) && OptionalHidden(c.infra.api.adminPassword)
    && (Blank(c.infra.database.postgresUrl) || HidesUserinfo(c.infra.database.postgresUrl))
  }

  lemma FieldsShown(fs: seq<Field>)
    ensures FieldsShowNoSecret(RedactFields(fs))
  {
    hide ShowsNoSecret, RedactField;
    forall k | 0 <= k < |fs| ensures ShowsNoSecret(RedactFields(fs)[k]) {
      FieldShown(fs[k]);
    }
  }

  /** Confidentiality: whatever a configuration holds, what a read shows of it holds no secret. */
  lemma NoSecretShown(c: Config)
    ensures ConfigShowsNoSecret(RedactConfig(c))
  {
    hide ShowsNoSecret, RedactFields, HidesUserinfo, RedactUserinfo, SourceFields, NotifierFields;
    hide WithSourceFields, WithNotifierFields;
    forall i | 0 <= i < |c.desired.sources|
      ensures FieldsShowNoSecret(SourceFields(RedactSource(c.desired.sources[i])))
    {
      var s := c.desired.sources[i];
      FieldsShown(SourceFields(s));
      SourceFieldsRoundTrip(s, RedactFields(SourceFields(s)));
    }
    forall i | 0 <= i < |c.desired.notifiers|
      ensures FieldsShowNoSecret(NotifierFields(RedactNotifier(c.desired.notifiers[i])))
    {
      var n := c.desired.notifiers[i];
      FieldsShown(NotifierFields(n));
      NotifierFieldsRoundTrip(n, RedactFields(NotifierFields(n)));
    }
    MaskedHidesUserinfo(c.infra.database.postgresUrl);
  }

  lemma FieldsAlikeRedact(fs: seq<Field>, gs: seq<Field>)
    requires FieldsAlike(fs, gs)
    ensures RedactFields(fs) == RedactFields(gs)
  {
    forall k | 0 <= k < |fs| ensures RedactField(fs[k]) == RedactField(gs[k]) {
      RedactionIgnoresSecrets(fs[k], gs[k]);
    }
  }

  lemma RedactInfraIgnoresSecrets(i: Infra, j: Infra)
    requires InfraAlike(i, j)
    ensures RedactInfra(i) == RedactInfra(j)
  {
    if SameOutsideUserinfo(i.database.postgresUrl, j.database.postgresUrl) {
      MaskIgnoresUserinfo(i.database.postgresUrl, j.database.postgresUrl);
    }
  }

  /** Noninterference: what a reader is shown is a function of everything but the secrets. */
  lemma RedactConfigIgnoresSecrets(c: Config, e: Config)
    requires ConfigsAlike(c, e)
    ensures RedactConfig(c) == RedactConfig(e)
  {
    RedactInfraIgnoresSecrets(c.infra, e.infra);
    forall i | 0 <= i < |c.desired.sources|
      ensures RedactSource(c.desired.sources[i]) == RedactSource(e.desired.sources[i])
    {
      FieldsAlikeRedact(SourceFields(c.desired.sources[i]), SourceFields(e.desired.sources[i]));
    }
    forall i | 0 <= i < |c.desired.notifiers|
      ensures RedactNotifier(c.desired.notifiers[i]) == RedactNotifier(e.desired.notifiers[i])
    {
      FieldsAlikeRedact(NotifierFields(c.desired.notifiers[i]), NotifierFields(e.desired.notifiers[i]));
    }
    assert RedactSources(c.desired.sources) == RedactSources(e.desired.sources);
    assert RedactNotifiers(c.desired.notifiers) == RedactNotifiers(e.desired.notifiers);
  }

  lemma RedactFieldsIdempotent(fs: seq<Field>)
    ensures RedactFields(RedactFields(fs)) == RedactFields(fs)
  {
    forall k | 0 <= k < |fs| ensures RedactField(RedactField(fs[k])) == RedactField(fs[k]) {
      RedactFieldIdempotent(fs[k]);
    }
  }

  lemma RedactSourceIdempotent(s: Source)
    ensures RedactSource(RedactSource(s)) == RedactSource(s)
  {
    SourceFieldsRoundTrip(s, RedactFields(SourceFields(s)));
    RedactFieldsIdempotent(SourceFields(s));
  }

  lemma RedactNotifierIdempotent(n: Notifier)
    ensures RedactNotifier(RedactNotifier(n)) == RedactNotifier(n)
  {
    NotifierFieldsRoundTrip(n, RedactFields(NotifierFields(n)));
    RedactFieldsIdempotent(NotifierFields(n));
    NotifierFieldsRoundTrip(RedactNotifier(n), RedactFields(NotifierFields(n)));
  }

  lemma RedactInfraIdempotent(i: Infra)
    ensures RedactInfra(RedactInfra(i)) == RedactInfra(i)
  {
    RedactUserinfoIdempotent(i.database.postgresUrl);
    if !Blank(i.database.postgresUrl) {
      RedactUserinfoVisible(i.database.postgresUrl);
    }
  }

  /** A redacted configuration is a fixed point of redaction. */
  lemma RedactConfigIdempotent(c: Config)
    ensures RedactConfig(RedactConfig(c)) == RedactConfig(c)
  {
    RedactInfraIdempotent(c.infra);
    var d := c.desired;
    forall i | 0 <= i < |d.sources| ensures RedactSource(RedactSource(d.sources[i])) == RedactSource(d.sources[i]) {
      RedactSourceIdempotent(d.sources[i]);
    }
    forall i | 0 <= i < |d.notifiers|
      ensures RedactNotifier(RedactNotifier(d.notifiers[i])) == RedactNotifier(d.notifiers[i])
    {
      RedactNotifierIdempotent(d.notifiers[i]);
    }
    assert RedactSources(RedactSources(d.sources)) == RedactSources(d.sources);
    assert RedactNotifiers(RedactNotifiers(d.notifiers)) == RedactNotifiers(d.notifiers);
  }

  // ------------------------------------------------------ in-place redaction

  /** `redact_sources`: masks every source token in place. */
  method MaskSources(sources: array<Source>)
    modifies sources
    ensures sources[..] == RedactSources(old(sources[..]))
  {
    hide RedactSource;
    ghost var masked := RedactSources(sources[..]);
    var i := 0;
    while i < sources.Length
      invariant 0 <= i <= sources.Length
      invariant forall j :: 0 <= j < i ==> sources[j] == masked[j]
      invariant forall j :: i <= j < sources.Length ==> sources[j] == old(sources[j])
    {
      sources[i] := RedactSource(sources[i]);
      i := i + 1;
    }
  }

  /** `redact_notifiers`: masks every notifier secret in place. */
  method MaskNotifiers(notifiers: array<Notifier>)
    modifies notifiers
    ensures notifiers[..] == RedactNotifiers(old(notifiers[..]))
  {
    hide RedactNotifier;
    ghost var masked := RedactNotifiers(notifiers[..]);
    var i := 0;
    while i < notifiers.Length
      invariant 0 <= i <= notifiers.Length
      invariant forall j :: 0 <= j < i ==> notifiers[j] == masked[j]
      invariant forall j :: i <= j < notifiers.Length ==> notifiers[j] == old(notifiers[j])
    {
      notifiers[i] := RedactNotifier(notifiers[i]);
      i := i + 1;
    }
  }
}
