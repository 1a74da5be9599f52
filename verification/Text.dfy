/**
 The string vocabulary the configuration code is written in: Unicode trimming,
 substring search, and the redaction marker the API substitutes for a secret.
 */
module Text {

  datatype Option<+T> = None | Some(value: T)

  /** What `GET /api/v1/config` shows in place of a secret. */
  const REDACTED := "<redacted>"

  /** Unicode White_Space, the class Rust's `str::trim` strips. */
  predicate IsSpace(c: char) {
    || '\t' <= c <= '\r'
    || c in {' ', '\U{85}', '\U{A0}', '\U{1680}', '\U{2028}', '\U{2029}', '\U{202F}', '\U{205F}', '\U{3000}'}
    || '\U{2000}' <= c <= '\U{200A}'
  }

  function TrimStart(s: string): string {
    if s != "" && IsSpace(s[0]) then TrimStart(s[1..]) else s
  }

  function TrimEnd(s: string): (r: string)
    ensures r <= s
  {
    if s != "" && IsSpace(s[|s| - 1]) then TrimEnd(s[..|s| - 1]) else s
  }

  function Trim(s: string): string {
    TrimEnd(TrimStart(s))
  }

  predicate Trimmed(s: string) {
    s == "" || (!IsSpace(s[0]) && !IsSpace(s[|s| - 1]))
  }

  predicate Blank(s: string) {
    Trim(s) == ""
  }

  /** `str::contains` */
  predicate Contains(s: string, part: string) {
    part <= s || (s != "" && Contains(s[1..], part))
  }

  /** `str::find`: the first occurrence. */
  function Find(s: string, part: string): (r: Option<nat>)
    ensures r.Some? ==> r.value + |part| <= |s| && s[r.value..r.value + |part|] == part
  {
    if part <= s then Some(0)
    else if s == "" then None
    else match Find(s[1..], part)
      case None => None
      case Some(i) => Some(i + 1)
  }

  /** `str::find` of one character. */
  function FindChar(s: string, c: char): (r: Option<nat>)
    ensures r.None? ==> c !in s
    ensures r.Some? ==> r.value < |s| && s[r.value] == c && c !in s[..r.value]
  {
    if s == "" then None
    else if s[0] == c then Some(0)
    else match FindChar(s[1..], c)
      case None => None
      case Some(i) => assert s[..i + 1] == [s[0]] + s[1..][..i]; Some(i + 1)
  }

  /** `str::rfind` of one character. */
  function FindLast(s: string, c: char): (r: Option<nat>)
    ensures r.None? ==> c !in s
    ensures r.Some? ==> r.value < |s| && s[r.value] == c && c !in s[r.value + 1..]
  {
    if s == "" then None
    else if s[|s| - 1] == c then Some(|s| - 1)
    else match FindLast(s[..|s| - 1], c)
      case None => None
      case Some(i) => assert s[i + 1..] == s[..|s| - 1][i + 1..] + [s[|s| - 1]]; Some(i)
  }

  lemma {:induction false} TrimStartHead(s: string)
    ensures TrimStart(s) != "" ==> !IsSpace(TrimStart(s)[0])
    ensures |TrimStart(s)| <= |s|
    decreases |s|
  {
    if s != "" && IsSpace(s[0]) {
      TrimStartHead(s[1..]);
    }
  }

  lemma {:induction false} TrimEndLast(s: string)
    ensures TrimEnd(s) != "" ==> !IsSpace(TrimEnd(s)[|TrimEnd(s)| - 1])
    decreases |s|
  {
    if s != "" && IsSpace(s[|s| - 1]) {
      TrimEndLast(s[..|s| - 1]);
    }
  }

  lemma TrimIsTrimmed(s: string)
    ensures Trimmed(Trim(s))
  {
    TrimStartHead(s);
    TrimEndLast(TrimStart(s));
  }

  /** Trimming is idempotent: it fixes exactly the trimmed strings. */
  lemma TrimIdempotent(s: string)
    ensures Trim(Trim(s)) == Trim(s)
  {
    TrimIsTrimmed(s);
  }

  /** A non-blank string is not empty. */
  lemma BlankEmpty()
    ensures Blank("") && Trim(REDACTED) == REDACTED && !Blank(REDACTED)
  {
    assert Trimmed(REDACTED);
  }

  /** A string with a visible character is not blank. */
  lemma {:induction false} VisibleNotBlank(s: string, i: nat)
    requires i < |s| && !IsSpace(s[i])
    ensures !Blank(s)
  {
    VisibleSurvivesTrimStart(s, i);
    var t := TrimStart(s);
    TrimStartHead(s);
    assert !IsSpace(t[0]);
    VisibleSurvivesTrimEnd(t);
  }

  lemma {:induction false} VisibleSurvivesTrimStart(s: string, i: nat)
    requires i < |s| && !IsSpace(s[i])
    ensures TrimStart(s) != ""
    decreases |s|
  {
    if IsSpace(s[0]) {
      VisibleSurvivesTrimStart(s[1..], i - 1);
    }
  }

  lemma {:induction false} VisibleSurvivesTrimEnd(s: string)
    requires s != "" && !IsSpace(s[0])
    ensures TrimEnd(s) != ""
    decreases |s|
  {
    if IsSpace(s[|s| - 1]) {
      VisibleSurvivesTrimEnd(s[..|s| - 1]);
    }
  }

  predicate OccursAt(s: string, part: string, j: nat) {
    j + |part| <= |s| && s[j..j + |part|] == part
  }

  /** `Find` returns the first occurrence: none starts earlier. */
  lemma {:induction false} FindIsFirst(s: string, part: string, j: nat)
    requires OccursAt(s, part, j)
    ensures Find(s, part).Some? && Find(s, part).value <= j
    decreases |s|
  {
    if !(part <= s) {
      assert s[0..|part|] == s[..|part|];
      assert s[1..][j - 1..j - 1 + |part|] == s[j..j + |part|];
      FindIsFirst(s[1..], part, j - 1);
    }
  }

  lemma {:induction false} FindNeedsHead(s: string, part: string)
    requires part != "" && part[0] !in s
    ensures Find(s, part) == None
    decreases |s|
  {
    if s != "" {
      assert part[0] != s[0];
      FindNeedsHead(s[1..], part);
    }
  }

  /** The characterisation of `Find` by position. */
  lemma FindAt(s: string, part: string, i: nat)
    requires OccursAt(s, part, i)
    requires forall j: nat :: j < i ==> !OccursAt(s, part, j)
    ensures Find(s, part) == Some(i)
  {
    FindIsFirst(s, part, i);
    assert OccursAt(s, part, Find(s, part).value);
  }

  /** The first occurrence depends on the text up to its end only. */
  lemma {:induction false} FindStable(s: string, t: string, part: string, i: nat)
    requires Find(s, part) == Some(i)
    requires i + |part| <= |t| && t[..i + |part|] == s[..i + |part|]
    ensures Find(t, part) == Some(i)
    decreases |s|
  {
    var n := i + |part|;
    if i == 0 {
      assert part <= t by { assert t[..n] == part; }
    } else {
      assert s[..|part|] == s[..n][..|part|] && t[..|part|] == t[..n][..|part|];
      assert !(part <= t);
      assert t[1..][..n - 1] == t[..n][1..] == s[..n][1..] == s[1..][..n - 1];
      FindStable(s[1..], t[1..], part, i - 1);
    }
  }

  lemma {:induction false} FindCharAt(s: string, c: char, i: nat)
    requires i < |s| && s[i] == c && c !in s[..i]
    ensures FindChar(s, c) == Some(i)
    decreases |s|
  {
    if i > 0 {
      assert s[..i][0] == s[0];
      assert s[..i] == [s[0]] + s[1..][..i - 1];
      FindCharAt(s[1..], c, i - 1);
    }
  }

  lemma {:induction false} FindLastAt(s: string, c: char, i: nat)
    requires i < |s| && s[i] == c && c !in s[i + 1..]
    ensures FindLast(s, c) == Some(i)
    decreases |s|
  {
    var last := |s| - 1;
    if i < last {
      assert s[i + 1..][last - i - 1] == s[last];
      assert s[i + 1..] == s[..last][i + 1..] + [s[last]];
      FindLastAt(s[..last], c, i);
    }
  }

  /** Trimming keeps every occurrence of a text that starts and ends visibly. */
  lemma TrimKeeps(s: string, part: string)
    requires part != "" && !IsSpace(part[0]) && !IsSpace(part[|part| - 1]) && Contains(s, part)
    ensures Contains(Trim(s), part)
  {
    TrimStartKeeps(s, part);
    TrimEndKeeps(TrimStart(s), part);
  }

  lemma {:induction false} TrimStartKeeps(s: string, part: string)
    requires part != "" && !IsSpace(part[0]) && Contains(s, part)
    ensures Contains(TrimStart(s), part)
    decreases |s|
  {
    if s != "" && IsSpace(s[0]) {
      assert part <= s ==> part[0] == s[0];
      TrimStartKeeps(s[1..], part);
    }
  }

  lemma {:induction false} TrimEndKeeps(s: string, part: string)
    requires part != "" && !IsSpace(part[|part| - 1]) && Contains(s, part)
    ensures Contains(TrimEnd(s), part)
    decreases |s|
  {
    var last := |s| - 1;
    if IsSpace(s[last]) {
      ContainsFront(s, part);
      TrimEndKeeps(s[..last], part);
    }
  }

  lemma {:induction false} ContainsFront(s: string, part: string)
    requires part != "" && Contains(s, part) && s != "" && part[|part| - 1] != s[|s| - 1]
    ensures Contains(s[..|s| - 1], part)
    decreases |s|
  {
    if part <= s {
      assert part == s[..|part|];
      assert |part| < |s|;
      assert s[..|s| - 1][..|part|] == part;
    } else {
      ContainsFront(s[1..], part);
      assert s[1..][..|s| - 2] == s[..|s| - 1][1..];
    }
  }

  /** Text before a separator is determined by the whole when it cannot contain the separator. */
  lemma {:induction false} PrefixUnique(c: char, a: string, b: string, x: string, y: string)
    requires c !in a && c !in b && a + [c] + x == b + [c] + y
    ensures a == b && x == y
  {
    var s := a + [c] + x;
    assert s[..|a|] == a && s[|a|] == c;
    assert s == b + [c] + y;
    assert s[..|b|] == b && s[|b|] == c;
    FindCharAt(s, c, |a|);
    FindCharAt(s, c, |b|);
    assert s[|a| + 1..] == x;
    assert (b + [c] + y)[|b| + 1..] == y;
  }
}
