/**
 Release ordering: version parsing, the hand-written comparator, and picking and
 sorting by it (src/model.rs).  The semver library enters through its laws.
 */
module Releases {
  import opened Text

  // --------------------------------------------------------------- orderings

  datatype Ordering = Less | Equal | Greater

  function Reverse(o: Ordering): Ordering {
    match o case Less => Greater case Equal => Equal case Greater => Less
  }

  function Then(first: Ordering, second: Ordering): Ordering {
    if first == Equal then second else first
  }

  function CmpInt(a: int, b: int): Ordering {
    if a < b then Less else if a == b then Equal else Greater
  }

  /** Lexicographic, a proper prefix first. */
  function CmpSeq(a: seq<int>, b: seq<int>): Ordering {
    if a == [] || b == [] then CmpInt(|a|, |b|)
    else Then(CmpInt(a[0], b[0]), CmpSeq(a[1..], b[1..]))
  }

  function Codes(s: string): seq<int> {
    seq(|s|, i requires 0 <= i < |s| => s[i] as int)
  }

  /** What the orderings of `a, b` and of `b, c` say about that of `a, c`. */
  predicate Composes(ab: Ordering, bc: Ordering, ac: Ordering) {
    && (ab == Equal ==> ac == bc)
    && (bc == Equal ==> ac == ab)
    && (ab == bc ==> ac == ab)
  }

  lemma ThenComposes(ab: Ordering, bc: Ordering, ac: Ordering, ab': Ordering, bc': Ordering, ac': Ordering)
    requires Composes(ab, bc, ac) && Composes(ab', bc', ac')
    ensures Composes(Then(ab, ab'), Then(bc, bc'), Then(ac, ac'))
    ensures Then(Reverse(ab), Reverse(ab')) == Reverse(Then(ab, ab'))
  {
  }

  lemma {:induction false} CmpSeqComposes(a: seq<int>, b: seq<int>, c: seq<int>)
    ensures Composes(CmpSeq(a, b), CmpSeq(b, c), CmpSeq(a, c))
    decreases |a|
  {
    if a != [] && b != [] && c != [] {
      CmpSeqComposes(a[1..], b[1..], c[1..]);
      ThenComposes(CmpInt(a[0], b[0]), CmpInt(b[0], c[0]), CmpInt(a[0], c[0]),
                   CmpSeq(a[1..], b[1..]), CmpSeq(b[1..], c[1..]), CmpSeq(a[1..], c[1..]));
    }
  }

  lemma {:induction false} CmpSeqReverses(a: seq<int>, b: seq<int>)
    ensures CmpSeq(b, a) == Reverse(CmpSeq(a, b)) && CmpSeq(a, a) == Equal
    decreases |a|
  {
    if a != [] {
      CmpSeqReverses(a[1..], a[1..]);
      if b != [] {
        CmpSeqReverses(a[1..], b[1..]);
      }
    }
  }

  // ---------------------------------------------------------------- versions

  const MAX_U64 := 0xFFFF_FFFF_FFFF_FFFF

  predicate Digits(s: string) {
    s != "" && forall c :: c in s ==> '0' <= c <= '9'
  }

  function DecimalValue(s: string): nat {
    if s == "" then 0 else DecimalValue(s[..|s| - 1]) * 10 + DigitValue(s[|s| - 1])
  }

  function DigitValue(c: char): nat {
    if '0' <= c <= '9' then c as int - '0' as int else 0
  }

  /** `trim_start_matches(['v', 'V'])` */
  function WithoutV(s: string): string {
    if s != "" && (s[0] == 'v' || s[0] == 'V') then WithoutV(s[1..]) else s
  }

  function Core(s: string): string {
    if s == "" || s[0] == '-' || s[0] == '+' then "" else [s[0]] + Core(s[1..])
  }

  function SplitDots(s: string): (parts: seq<string>)
    ensures parts != []
    decreases |s|
  {
    match FindChar(s, '.')
    case None => [s]
    case Some(i) => [s[..i]] + SplitDots(s[i + 1..])
  }

  /** The components as `u64`s, if each is one. */
  function Numbers(parts: seq<string>): (nums: Option<seq<int>>)
    ensures nums.Some? ==> |nums.value| == |parts| && forall i :: 0 <= i < |parts| ==> 0 <= nums.value[i] <= MAX_U64
  {
    if parts == [] then Some([])
    else if !Digits(parts[0]) || DecimalValue(parts[0]) > MAX_U64 then None
    else match Numbers(parts[1..])
      case None => None
      case Some(rest) => Some([DecimalValue(parts[0])] + rest)
  }

  /** `numeric_parts` */
  function NumericParts(tag: string): Option<seq<int>> {
    Numbers(SplitDots(Core(WithoutV(Trim(tag)))))
  }

  /** The semver library: parsing, printing a release version, and the order of versions. */
  datatype Semver<!V> = Semver(
    parse: string -> Option<V>,
    print3: (int, int, int) -> string,
    cmp: (V, V) -> Ordering)

  /**
   Versions are totally ordered; a strict version is free of white space and has a
   numeric core of three components; every `u64` triple is one, triples are ordered by
   their numbers, and a strict version that is all core is the one of its numbers.
   */
  ghost predicate SemverLaws<V(!new)>(sv: Semver<V>) {
    && (forall a, b, c :: Composes(sv.cmp(a, b), sv.cmp(b, c), sv.cmp(a, c)))
    && (forall a, b :: sv.cmp(b, a) == Reverse(sv.cmp(a, b)))
    && (forall s :: sv.parse(s).Some? ==> Strict(s))
    && (forall a, b, c :: U64(a) && U64(b) && U64(c) ==> sv.parse(sv.print3(a, b, c)).Some?)
    && (forall a, b, c, a', b', c' ::
          U64(a) && U64(b) && U64(c) && U64(a') && U64(b') && U64(c') ==>
            sv.cmp(sv.parse(sv.print3(a, b, c)).value, sv.parse(sv.print3(a', b', c')).value)
            == CmpSeq([a, b, c], [a', b', c']))
    && (forall s :: sv.parse(s).Some? && Core(s) == s ==>
          sv.parse(s) == sv.parse(ThreeParts(sv, NumericParts(s).value)))
  }

  predicate U64(n: int) {
    0 <= n <= MAX_U64
  }

  predicate Strict(s: string) {
    && (forall c :: c in s ==> !IsSpace(c))
    && NumericParts(s).Some? && |NumericParts(s).value| == 3
  }

  function Component(nums: seq<int>, i: nat): int {
    if i < |nums| then nums[i] else 0
  }

  /** The first three components, missing ones as zero. */
  function ThreeParts<V>(sv: Semver<V>, nums: seq<int>): string {
    sv.print3(Component(nums, 0), Component(nums, 1), Component(nums, 2))
  }

  /** `lenient_parse`, with its padding loop. */
  method LenientParse<V>(sv: Semver<V>, s: string) returns (version: Option<V>)
    ensures version == Lenient(sv, s)
  {
    var parts := NumericParts(s);
    if parts.None? {
      return None;
    }
    var nums := parts.value;
    while |nums| < 3
      invariant forall i: nat :: Component(nums, i) == Component(parts.value, i)
      decreases 3 - |nums|
    {
      ghost var before := nums;
      nums := nums + [0];
      assert forall i: nat :: Component(nums, i) == Component(before, i);
    }
    assert forall i: nat :: i < 3 ==> nums[i] == Component(nums, i);
    version := sv.parse(sv.print3(nums[0], nums[1], nums[2]));
  }

  function Lenient<V>(sv: Semver<V>, s: string): Option<V> {
    match NumericParts(s)
    case None => None
    case Some(nums) => sv.parse(ThreeParts(sv, nums))
  }

  /** `parse_version` */
  function ParseVersion<V>(sv: Semver<V>, tag: string): Option<V> {
    var trimmed := WithoutV(Trim(tag));
    if sv.parse(trimmed).Some? then sv.parse(trimmed) else Lenient(sv, trimmed)
  }

  // ---------------------------------------------------------------- releases

  datatype Release<+V> = Release(
    id: string,
    rawTag: string,
    version: Option<V>,
    published: Option<int>,
    other: string)

  /** `Release::new` */
  function New<V>(sv: Semver<V>, id: string, other: string): Release<V> {
    Release(id, id, ParseVersion(sv, id), None, other)
  }

  /** `Release::with_published` */
  function WithPublished<V>(r: Release<V>, at: Option<int>): Release<V> {
    r.(published := at)
  }

  /** The constructors always derive the version from the tag. */
  predicate Built<V(==)>(sv: Semver<V>, r: Release<V>) {
    r.version == ParseVersion(sv, r.rawTag)
  }

  function ByPublication<V>(a: Release<V>, b: Release<V>): Ordering {
    match (a.published, b.published)
    case (Some(pa), Some(pb)) => CmpInt(pa, pb)
    case (Some(_), None) => Greater
    case (None, Some(_)) => Less
    case (None, None) => CmpSeq(Codes(a.rawTag), Codes(b.rawTag))
  }

  /** `compare_releases` */
  function Compare<V>(sv: Semver<V>, a: Release<V>, b: Release<V>): Ordering {
    match (a.version, b.version)
    case (Some(va), Some(vb)) =>
      var byVersion := sv.cmp(va, vb);
      if byVersion != Equal then byVersion
      else
        (match (NumericParts(a.rawTag), NumericParts(b.rawTag))
         case (Some(na), Some(nb)) =>
           if CmpSeq(na, nb) != Equal then CmpSeq(na, nb) else ByPublication(a, b)
         case _ => ByPublication(a, b))
    case (Some(_), None) => Greater
    case (None, Some(_)) => Less
    case (None, None) => ByPublication(a, b)
  }

  // ------------------------------------------- when the two parsers agree

  /** The tag has a version exactly when it has numeric components. */
  predicate Regular<V>(r: Release<V>) {
    r.version.Some? <==> NumericParts(r.rawTag).Some?
  }

  /** After the leading `v`s, the trimmed tag does not go on with white space. */
  predicate TidyTag(tag: string) {
    var rest := WithoutV(Trim(tag));
    rest == "" || !IsSpace(rest[0])
  }

  lemma {:induction false} WithoutVFacts(s: string)
    ensures WithoutV(WithoutV(s)) == WithoutV(s)
    ensures WithoutV(s) != "" ==> WithoutV(s)[|WithoutV(s)| - 1] == s[|s| - 1]
    decreases |s|
  {
    if s != "" && (s[0] == 'v' || s[0] == 'V') {
      WithoutVFacts(s[1..]);
    }
  }

  lemma TidyFixed(tag: string)
    ensures TidyTag(tag) ==> Trim(WithoutV(Trim(tag))) == WithoutV(Trim(tag))
  {
    var rest := WithoutV(Trim(tag));
    TrimIsTrimmed(tag);
    WithoutVFacts(Trim(tag));
    if TidyTag(tag) {
      assert Trimmed(rest);
    }
  }

  /** A tag that goes on with white space has no numeric components. */
  lemma UntidyNotNumeric(tag: string)
    requires !TidyTag(tag)
    ensures NumericParts(tag) == None
  {
    var rest := WithoutV(Trim(tag));
    var core := Core(rest);
    assert IsSpace(core[0]) && core == [core[0]] + core[1..];
    var first := SplitDots(core)[0];
    assert first[0] == core[0];
    assert first[0] in first;
  }

  /**
   The comparator takes versions from one parse of the tag and its tie-breaker from
   another.  For every release the constructors build, the two agree on whether
   the tag is numeric exactly when the tag is tidy or not numeric even after
   trimming a second time.
   */
  lemma ParsersAgree<V(!new)>(sv: Semver<V>, r: Release<V>)
    requires SemverLaws(sv) && Built(sv, r)
    ensures Regular(r) <==> TidyTag(r.rawTag) || NumericParts(WithoutV(Trim(r.rawTag))).None?
  {
    hide SplitDots, Core, Numbers, Trim;
    var rest := WithoutV(Trim(r.rawTag));
    WithoutVFacts(Trim(r.rawTag));
    TidyFixed(r.rawTag);
    if sv.parse(rest).Some? {
      assert Strict(rest);
    }
    if !TidyTag(r.rawTag) {
      UntidyNotNumeric(r.rawTag);
    }
  }

  /** Without white space inside, a trimmed tag is tidy. */
  lemma {:induction false} PlainTagTidy(tag: string)
    requires forall c :: c in Trim(tag) ==> !IsSpace(c)
    ensures TidyTag(tag)
  {
    WithoutVKeepsChars(Trim(tag));
    var rest := WithoutV(Trim(tag));
    assert rest != "" ==> rest[0] in rest;
  }

  lemma {:induction false} WithoutVKeepsChars(s: string)
    ensures forall c :: c in WithoutV(s) ==> c in s
    decreases |s|
  {
    if s != "" && (s[0] == 'v' || s[0] == 'V') {
      WithoutVKeepsChars(s[1..]);
    }
  }

  // ------------------------------------------------------------ total preorder

  function CmpVersions<V>(sv: Semver<V>, a: Option<V>, b: Option<V>): Ordering {
    match (a, b)
    case (Some(va), Some(vb)) => sv.cmp(va, vb)
    case (Some(_), None) => Greater
    case (None, Some(_)) => Less
    case (None, None) => Equal
  }

  function CmpParts(a: Option<seq<int>>, b: Option<seq<int>>): Ordering {
    match (a, b)
    case (Some(na), Some(nb)) => CmpSeq(na, nb)
    case (Some(_), None) => Greater
    case (None, Some(_)) => Less
    case (None, None) => Equal
  }

  /** For regular releases the comparator is a lexicographic comparison of three keys. */
  lemma CompareIsLexicographic<V(!new)>(sv: Semver<V>, a: Release<V>, b: Release<V>)
    requires Regular(a) && Regular(b)
    ensures Compare(sv, a, b) ==
            Then(CmpVersions(sv, a.version, b.version),
                 Then(CmpParts(NumericParts(a.rawTag), NumericParts(b.rawTag)), ByPublication(a, b)))
  {
    hide NumericParts, CmpSeq, ByPublication;
  }

  lemma PublicationComposes<V>(a: Release<V>, b: Release<V>, c: Release<V>)
    ensures Composes(ByPublication(a, b), ByPublication(b, c), ByPublication(a, c))
    ensures ByPublication(b, a) == Reverse(ByPublication(a, b)) && ByPublication(a, a) == Equal
  {
    hide CmpSeq;
    CmpSeqComposes(Codes(a.rawTag), Codes(b.rawTag), Codes(c.rawTag));
    CmpSeqReverses(Codes(a.rawTag), Codes(b.rawTag));
  }

  lemma PartsCompose(a: Option<seq<int>>, b: Option<seq<int>>, c: Option<seq<int>>)
    ensures Composes(CmpParts(a, b), CmpParts(b, c), CmpParts(a, c))
    ensures CmpParts(b, a) == Reverse(CmpParts(a, b)) && CmpParts(a, a) == Equal
  {
    hide CmpSeq;
    if a.Some? {
      if b.Some? {
        CmpSeqReverses(a.value, b.value);
        if c.Some? {
          CmpSeqComposes(a.value, b.value, c.value);
        }
      } else {
        CmpSeqReverses(a.value, a.value);
      }
    }
  }

  lemma VersionsCompose<V(!new)>(sv: Semver<V>, a: Option<V>, b: Option<V>, c: Option<V>)
    requires SemverLaws(sv)
    ensures Composes(CmpVersions(sv, a, b), CmpVersions(sv, b, c), CmpVersions(sv, a, c))
    ensures CmpVersions(sv, b, a) == Reverse(CmpVersions(sv, a, b)) && CmpVersions(sv, a, a) == Equal
  {
    hide Strict;
    if a.Some? {
      assert sv.cmp(a.value, a.value) == Reverse(sv.cmp(a.value, a.value));
    }
  }

  /**
   On regular releases the comparator is a total preorder: ties are
   interchangeable, it is transitive, and swapping the arguments reverses it.
   */
  lemma TotalPreorder<V(!new)>(sv: Semver<V>, a: Release<V>, b: Release<V>, c: Release<V>)
    requires SemverLaws(sv) && Regular(a) && Regular(b) && Regular(c)
    ensures Composes(Compare(sv, a, b), Compare(sv, b, c), Compare(sv, a, c))
    ensures Compare(sv, b, a) == Reverse(Compare(sv, a, b)) && Compare(sv, a, a) == Equal
  {
    hide Compare, Regular, NumericParts, ByPublication, CmpParts, CmpVersions, Strict;
    CompareIsLexicographic(sv, a, b);
    CompareIsLexicographic(sv, b, c);
    CompareIsLexicographic(sv, a, c);
    CompareIsLexicographic(sv, b, a);
    CompareIsLexicographic(sv, a, a);
    VersionsCompose(sv, a.version, b.version, c.version);
    PartsCompose(NumericParts(a.rawTag), NumericParts(b.rawTag), NumericParts(c.rawTag));
    PublicationComposes(a, b, c);
    ThenComposes(CmpParts(NumericParts(a.rawTag), NumericParts(b.rawTag)),
                 CmpParts(NumericParts(b.rawTag), NumericParts(c.rawTag)),
                 CmpParts(NumericParts(a.rawTag), NumericParts(c.rawTag)),
                 ByPublication(a, b), ByPublication(b, c), ByPublication(a, c));
    ThenComposes(CmpVersions(sv, a.version, b.version), CmpVersions(sv, b.version, c.version),
                 CmpVersions(sv, a.version, c.version), KeyTail(a, b), KeyTail(b, c), KeyTail(a, c));
  }

  function KeyTail<V>(a: Release<V>, b: Release<V>): Ordering {
    Then(CmpParts(NumericParts(a.rawTag), NumericParts(b.rawTag)), ByPublication(a, b))
  }

  // ---------------------------------------------------------- pick and sort

  predicate AllRegular<V>(releases: seq<Release<V>>) {
    forall i :: 0 <= i < |releases| ==> Regular(releases[i])
  }

  /** No release is above number `i`, and none after it ties with it. */
  predicate LastMaximum<V>(sv: Semver<V>, releases: seq<Release<V>>, i: nat) {
    && i < |releases|
    && (forall j :: 0 <= j < |releases| ==> Compare(sv, releases[j], releases[i]) != Greater)
    && (forall j :: i < j < |releases| ==> Compare(sv, releases[j], releases[i]) == Less)
  }

  /** `pick_latest`: one pass that keeps the later of two ties. */
  method PickLatest<V(!new)>(sv: Semver<V>, releases: seq<Release<V>>) returns (latest: Option<Release<V>>)
    requires SemverLaws(sv) && AllRegular(releases)
    ensures latest.None? <==> releases == []
    ensures latest.Some? ==> exists at: nat :: LastMaximum(sv, releases, at) && latest.value == releases[at]
  {
    hide Compare, Regular, SemverLaws;
    if releases == [] {
      return None;
    }
    ghost var at := 0;
    var best := releases[0];
    Reflexive(sv, releases[0]);
    var k := 1;
    while k < |releases|
      invariant 1 <= k <= |releases|
      invariant at < k && best == releases[at] && LastMaximum(sv, releases[..k], at)
    {
      var seen := releases[..k + 1];
      assert seen[..k] == releases[..k] && seen[k] == releases[k];
      Promote(sv, releases[..k], at, releases[k]);
      assert releases[..k] + [releases[k]] == seen;
      if Compare(sv, best, releases[k]) != Greater {
        best := releases[k];
        at := k;
      }
      k := k + 1;
    }
    assert releases[..k] == releases;
    latest := Some(best);
  }

  lemma Reflexive<V(!new)>(sv: Semver<V>, r: Release<V>)
    requires SemverLaws(sv) && Regular(r)
    ensures Compare(sv, r, r) == Equal
  {
    TotalPreorder(sv, r, r, r);
  }

  lemma Promote<V(!new)>(sv: Semver<V>, seen: seq<Release<V>>, at: nat, next: Release<V>)
    requires SemverLaws(sv) && AllRegular(seen) && Regular(next) && LastMaximum(sv, seen, at)
    ensures LastMaximum(sv, seen + [next], if Compare(sv, seen[at], next) != Greater then |seen| else at)
  {
    hide Compare, Regular, SemverLaws;
    var all := seen + [next];
    Reflexive(sv, next);
    forall j | 0 <= j < |seen|
      ensures Composes(Compare(sv, seen[j], seen[at]), Compare(sv, seen[at], next), Compare(sv, seen[j], next))
      ensures Compare(sv, next, seen[at]) == Reverse(Compare(sv, seen[at], next))
    {
      TotalPreorder(sv, seen[j], seen[at], next);
      TotalPreorder(sv, seen[at], next, next);
    }
  }

  /** Sorted newest first, as `sort_releases_newest_first` leaves a slice. */
  predicate NewestFirst<V>(sv: Semver<V>, sorted: seq<Release<V>>) {
    forall i, j :: 0 <= i < j < |sorted| ==> Compare(sv, sorted[j], sorted[i]) != Greater
  }

  /** Whatever the sort, its head ties with the release that is picked as the latest. */
  lemma PickedTiesWithHead<V(!new)>(sv: Semver<V>, releases: seq<Release<V>>, at: nat, sorted: seq<Release<V>>)
    requires SemverLaws(sv) && AllRegular(releases) && LastMaximum(sv, releases, at)
    requires multiset(sorted) == multiset(releases) && NewestFirst(sv, sorted)
    ensures sorted != [] && Compare(sv, sorted[0], releases[at]) == Equal
  {
    hide Compare, Regular, SemverLaws;
    assert releases[at] in multiset(sorted);
    var i :| 0 <= i < |sorted| && sorted[i] == releases[at];
    assert sorted[0] in multiset(releases);
    var j :| 0 <= j < |releases| && releases[j] == sorted[0];
    Reflexive(sv, releases[at]);
    TotalPreorder(sv, releases[j], releases[at], releases[at]);
  }

  /** For releases built from tags without white space inside, however they were built, the comparator is an order. */
  lemma BuiltPreorder<V(!new)>(sv: Semver<V>, a: Release<V>, b: Release<V>, c: Release<V>)
    requires SemverLaws(sv) && Built(sv, a) && Built(sv, b) && Built(sv, c)
    requires forall r, ch :: r in [a, b, c] && ch in Trim(r.rawTag) ==> !IsSpace(ch)
    ensures Composes(Compare(sv, a, b), Compare(sv, b, c), Compare(sv, a, c))
    ensures Compare(sv, b, a) == Reverse(Compare(sv, a, b)) && Compare(sv, a, a) == Equal
  {
    hide Compare, Regular, SemverLaws, Built, TidyTag, NumericParts, Trim;
    forall r | r in [a, b, c] ensures Regular(r) {
      PlainTagTidy(r.rawTag);
      ParsersAgree(sv, r) by { assert Built(sv, r); }
    }
    assert a in [a, b, c] && b in [a, b, c] && c in [a, b, c];
    TotalPreorder(sv, a, b, c);
  }

  // -------------------------------------------------------- the exception

  /** Three releases that the comparator puts in a circle. */
  predicate Circle<V>(sv: Semver<V>, a: Release<V>, b: Release<V>, c: Release<V>) {
    Compare(sv, a, b) == Less && Compare(sv, b, c) == Less && Compare(sv, c, a) == Less
  }

  /** Two well-behaved releases close a circle with the release. */
  ghost predicate InCircle<V(!new)>(sv: Semver<V>, r: Release<V>) {
    exists x, y :: Regular(x) && Regular(y) && Built(sv, x) && Built(sv, y) && Circle(sv, r, x, y)
  }

  predicate DotOrDigit(c: char) {
    c == '.' || '0' <= c <= '9'
  }

  lemma {:induction false} NumericChars(t: string)
    requires Numbers(SplitDots(t)).Some?
    ensures t != "" && '0' <= t[0] <= '9' && forall c :: c in t ==> DotOrDigit(c)
    decreases |t|
  {
    match FindChar(t, '.')
    case None =>
      assert SplitDots(t)[0] == t;
      assert t[0] in t;
    case Some(i) =>
      assert SplitDots(t)[0] == t[..i] && SplitDots(t)[1..] == SplitDots(t[i + 1..]);
      assert t[..i][0] in t[..i];
      NumericChars(t[i + 1..]);
      assert t == t[..i] + ['.'] + t[i + 1..];
  }

  lemma {:induction false} SplitDotsAppend(t: string, s: string)
    ensures SplitDots(t + "." + s) == SplitDots(t) + SplitDots(s)
    decreases |t|
  {
    var all := t + "." + s;
    match FindChar(t, '.')
    case None =>
      assert all[..|t|] == t && all[|t|] == '.' && all[|t| + 1..] == s;
      FindCharAt(all, '.', |t|);
    case Some(i) =>
      assert all[..i] == t[..i] && all[i] == '.' && all[i + 1..] == t[i + 1..] + "." + s;
      FindCharAt(all, '.', i);
      SplitDotsAppend(t[i + 1..], s);
      assert [t[..i]] + (SplitDots(t[i + 1..]) + SplitDots(s)) == [t[..i]] + SplitDots(t[i + 1..]) + SplitDots(s);
  }

  lemma {:induction false} NumbersAppend(a: seq<string>, b: seq<string>)
    requires Numbers(a).Some? && Numbers(b).Some?
    ensures Numbers(a + b) == Some(Numbers(a).value + Numbers(b).value)
    decreases |a|
  {
    hide Digits, DecimalValue;
    if a == [] {
      assert a + b == b && Numbers(a).value + Numbers(b).value == Numbers(b).value;
    } else {
      NumbersAppend(a[1..], b);
      assert (a + b)[0] == a[0] && (a + b)[1..] == a[1..] + b;
      assert [DecimalValue(a[0])] + (Numbers(a[1..]).value + Numbers(b).value)
             == [DecimalValue(a[0])] + Numbers(a[1..]).value + Numbers(b).value;
    }
  }

  lemma {:induction false} CoreKeeps(t: string)
    requires forall c :: c in t ==> DotOrDigit(c)
    ensures Core(t) == t
    decreases |t|
  {
    if t != "" {
      assert t[0] in t;
      CoreKeeps(t[1..]);
    }
  }

  /** One more component, zero. */
  lemma PaddedParts(t: string)
    requires Numbers(SplitDots(t)).Some?
    ensures Numbers(SplitDots(t + ".0")) == Some(Numbers(SplitDots(t)).value + [0])
  {
    hide Trim, WithoutV, Core, FindChar, DecimalValue, Digits, SplitDots, Numbers;
    OneDigit("0");
    SplitDotsAppend(t, "0");
    NumbersAppend(SplitDots(t), ["0"]);
    assert t + "." + "0" == t + ".0";
  }

  /** A dotted numeric text is a tag with exactly those components. */
  lemma NumericTag(t: string)
    requires Numbers(SplitDots(t)).Some?
    ensures WithoutV(Trim(t)) == t && NumericParts(t) == Numbers(SplitDots(t))
  {
    NumericChars(t);
    hide SplitDots, Numbers;
    assert t[0] in t && t[|t| - 1] in t;
    assert Trimmed(t);
    CoreKeeps(t);
  }

  /** A release whose dotted numeric tag has more than three components gets the version of the first three. */
  lemma LongTag<V(!new)>(sv: Semver<V>, t: string, nums: seq<int>)
    requires SemverLaws(sv) && Numbers(SplitDots(t)) == Some(nums) && |nums| > 3
    ensures NumericParts(t) == Some(nums)
    ensures ParseVersion(sv, t) == sv.parse(ThreeParts(sv, nums)) && ParseVersion(sv, t).Some?
    ensures Regular(New(sv, t, ""))
  {
    NumericTag(t);
    hide SplitDots, Numbers, NumericParts, Trim, WithoutV;
    assert !Strict(t);
    assert forall i :: 0 <= i < |nums| ==> U64(nums[i]) by { PartsInRange(t); }
  }

  lemma PartsInRange(t: string)
    ensures NumericParts(t).Some? ==> forall i :: 0 <= i < |NumericParts(t).value| ==> U64(NumericParts(t).value[i])
  {
  }

  lemma {:induction false} LongerIsGreater(a: seq<int>, b: seq<int>)
    ensures b != [] ==> CmpSeq(a, a + b) == Less
    decreases |a|
  {
    if a == [] {
      assert a + b == b;
    } else {
      assert (a + b)[1..] == a[1..] + b && (a + b)[0] == a[0];
      LongerIsGreater(a[1..], b);
    }
  }

  /** The dotted text inside a tag that is numeric only once it is trimmed again. */
  function InnerText(tag: string): string {
    Core(WithoutV(Trim(WithoutV(Trim(tag)))))
  }

  /** An irregular tag has no components of its own, and the version of those inside it. */
  lemma IrregularVersion<V(!new)>(sv: Semver<V>, r: Release<V>) returns (nums: seq<int>)
    requires SemverLaws(sv) && Built(sv, r) && !Regular(r)
    ensures NumericParts(r.rawTag).None? && Numbers(SplitDots(InnerText(r.rawTag))) == Some(nums)
    ensures r.version == sv.parse(ThreeParts(sv, nums)) && r.version.Some?
  {
    var rest := WithoutV(Trim(r.rawTag));
    ParsersAgree(sv, r);
    UntidyNotNumeric(r.rawTag);
    assert sv.parse(rest).None? by { assert !Strict(rest) by { assert rest[0] in rest; } }
    nums := NumericParts(rest).value;
  }

  lemma ThreeMore(text: string, nums: seq<int>)
    requires Numbers(SplitDots(text)) == Some(nums)
    ensures Numbers(SplitDots(text + ".0" + ".0" + ".0")) == Some(nums + [0] + [0] + [0])
    ensures Numbers(SplitDots(text + ".0" + ".0" + ".0" + ".0")) == Some(nums + [0] + [0] + [0] + [0])
  {
    hide SplitDots, Numbers;
    PaddedParts(text);
    PaddedParts(text + ".0");
    PaddedParts(text + ".0" + ".0");
    PaddedParts(text + ".0" + ".0" + ".0");
  }

  lemma SameThree<V>(sv: Semver<V>, nums: seq<int>)
    ensures ThreeParts(sv, nums + [0]) == ThreeParts(sv, nums)
  {
  }

  /** A release without components circles through two that share its version and are told apart by theirs. */
  lemma CircleThroughTies<V(!new)>(sv: Semver<V>, r: Release<V>, x: Release<V>, y: Release<V>)
    requires SemverLaws(sv) && r.version.Some? && x.version == r.version && y.version == r.version
    requires NumericParts(r.rawTag).None? && NumericParts(x.rawTag).Some? && NumericParts(y.rawTag).Some?
    requires CmpSeq(NumericParts(x.rawTag).value, NumericParts(y.rawTag).value) == Less
    requires ByPublication(r, x) == Less && ByPublication(y, r) == Less
    ensures Circle(sv, r, x, y)
  {
    hide NumericParts, CmpSeq, Strict, ByPublication;
    assert sv.cmp(r.version.value, r.version.value) == Reverse(sv.cmp(r.version.value, r.version.value));
  }

  function Tabs(k: nat): string {
    if k == 0 then "" else ['\t'] + Tabs(k - 1)
  }

  lemma {:induction false} TabsTrimmed(k: nat, t: string)
    ensures Trim(Tabs(k) + t) == Trim(t)
    decreases k
  {
    if k == 0 {
      assert Tabs(0) + t == t;
    } else {
      assert (Tabs(k) + t)[1..] == Tabs(k - 1) + t;
      TabsTrimmed(k - 1, t);
    }
  }

  /** The first character that is not a tab sorts after one. */
  predicate AboveTab(tag: string) {
    tag != "" && (if tag[0] == '\t' then AboveTab(tag[1..]) else tag[0] > '\t')
  }

  lemma {:induction false} UntidyAboveTab(tag: string)
    requires !TidyTag(tag)
    ensures AboveTab(tag)
    decreases |tag|
  {
    if tag != "" && IsSpace(tag[0]) {
      if tag[0] == '\t' {
        UntidyAboveTab(tag[1..]);
      }
    } else {
      TrimIsTrimmed(tag);
      assert tag != "" && TrimStart(tag) == tag;
      assert Trim(tag) <= tag;
    }
  }

  lemma {:induction false} TabsFirst(k: nat, t: string, tag: string)
    requires AboveTab(tag) && k > |tag|
    ensures CmpSeq(Codes(Tabs(k) + t), Codes(tag)) == Less
    decreases |tag|
  {
    var a, b := Codes(Tabs(k) + t), Codes(tag);
    assert a[0] == 9;
    if tag[0] == '\t' {
      assert (Tabs(k) + t)[1..] == Tabs(k - 1) + t;
      assert a[1..] == Codes(Tabs(k - 1) + t) && b[1..] == Codes(tag[1..]);
      TabsFirst(k - 1, t, tag[1..]);
    }
  }

  /** The earlier and the later neighbour of an irregular release: its own components, padded with zeros. */
  function Later<V>(sv: Semver<V>, r: Release<V>): Release<V> {
    WithPublished(New(sv, InnerText(r.rawTag) + ".0" + ".0" + ".0", ""),
                  Some(if r.published.Some? then r.published.value + 1 else 0))
  }

  function Earlier<V>(sv: Semver<V>, r: Release<V>): Release<V> {
    var t := InnerText(r.rawTag) + ".0" + ".0" + ".0" + ".0";
    if r.published.Some? then WithPublished(New(sv, t, ""), Some(r.published.value - 1))
    else New(sv, Tabs(|r.rawTag| + 1) + t, "")
  }

  lemma EarlierIsRegular<V(!new)>(sv: Semver<V>, r: Release<V>, nums: seq<int>)
    requires SemverLaws(sv) && !TidyTag(r.rawTag) && |nums| > 3
    requires Numbers(SplitDots(InnerText(r.rawTag) + ".0" + ".0" + ".0" + ".0")) == Some(nums)
    ensures var y := Earlier(sv, r);
            && NumericParts(y.rawTag) == Some(nums) && y.version == sv.parse(ThreeParts(sv, nums)) && Regular(y)
            && ByPublication(y, r) == Less
  {
    hide SplitDots, Numbers, InnerText, ThreeParts, SemverLaws, Trim, Core, TidyTag, CmpSeq;
    var t := InnerText(r.rawTag) + ".0" + ".0" + ".0" + ".0";
    LongTag(sv, t, nums);
    TabsTrimmed(|r.rawTag| + 1, t);
    UntidyAboveTab(r.rawTag);
    TabsFirst(|r.rawTag| + 1, t, r.rawTag);
  }

  /**
   Every irregular release, dated or not, is in a circle with two regular ones:
   its own components followed by three zeros and by four.
   */
  lemma IrregularTagMakesCircle<V(!new)>(sv: Semver<V>, r: Release<V>)
    requires SemverLaws(sv) && Built(sv, r) && !Regular(r)
    ensures Regular(Later(sv, r)) && Regular(Earlier(sv, r)) && Circle(sv, r, Later(sv, r), Earlier(sv, r))
  {
    ParsersAgree(sv, r);
    hide SplitDots, Numbers, NumericParts, InnerText, Circle, ThreeParts, CmpSeq, ParseVersion, SemverLaws, TidyTag;
    hide Earlier;
    var nums := IrregularVersion(sv, r);
    var t := InnerText(r.rawTag) + ".0" + ".0" + ".0";
    var n3 := nums + [0] + [0] + [0];
    ThreeMore(InnerText(r.rawTag), nums);
    LongTag(sv, t, n3);
    EarlierIsRegular(sv, r, n3 + [0]);
    LongerIsGreater(n3, [0]);
    SameThree(sv, nums);
    SameThree(sv, nums + [0]);
    SameThree(sv, nums + [0] + [0]);
    SameThree(sv, n3);
    CircleThroughTies(sv, r, Later(sv, r), Earlier(sv, r));
  }

  lemma NoCircleAmongRegular<V(!new)>(sv: Semver<V>, a: Release<V>, b: Release<V>, c: Release<V>)
    requires SemverLaws(sv) && Regular(a) && Regular(b) && Regular(c)
    ensures !Circle(sv, a, b, c)
  {
    hide Compare, Regular, SemverLaws;
    TotalPreorder(sv, a, b, c);
    TotalPreorder(sv, a, c, a);
  }

  /** So a release is safe to compare exactly when its tag is regular. */
  lemma CircleIffIrregular<V(!new)>(sv: Semver<V>, r: Release<V>)
    requires SemverLaws(sv) && Built(sv, r)
    ensures InCircle(sv, r) <==> !Regular(r)
  {
    hide Compare, Regular, SemverLaws, Circle, ParseVersion, InnerText;
    if Regular(r) {
      forall x, y | Regular(x) && Regular(y) && Built(sv, x) && Built(sv, y) ensures !Circle(sv, r, x, y) {
        NoCircleAmongRegular(sv, r, x, y);
      }
    } else {
      IrregularTagMakesCircle(sv, r);
      assert Built(sv, Later(sv, r)) && Built(sv, Earlier(sv, r));
    }
  }

  lemma OneDigit(s: string)
    requires |s| == 1 && '0' <= s[0] <= '9'
    ensures Trim(s) == s && WithoutV(s) == s && Core(s) == s && SplitDots(s) == [s]
    ensures Digits(s) && DecimalValue(s) == s[0] as int - '0' as int
    ensures Numbers([s]) == Some([DecimalValue(s)])
  {
    assert Trim(s) == s by { assert Trimmed(s); }
    assert s[1..] == "" && s[..0] == "";
    OneNumber(s);
  }

  lemma OneNumber(s: string)
    requires Digits(s) && DecimalValue(s) <= MAX_U64
    ensures Numbers([s]) == Some([DecimalValue(s)])
  {
    hide Digits, DecimalValue;
    assert [s][1..] == [] && [DecimalValue(s)] + [] == [DecimalValue(s)];
  }

  // ------------------------------------------------------ what is newer

  /** A numeric tag without pre-release or build suffix, and its components. */
  predicate PlainlyNumeric(tag: string, nums: seq<int>) {
    var rest := WithoutV(Trim(tag));
    TidyTag(tag) && Core(rest) == rest && NumericParts(tag) == Some(nums)
  }

  /** Its version is the one of its first three components, missing ones as zero. */
  lemma NumericVersion<V(!new)>(sv: Semver<V>, tag: string, nums: seq<int>)
    requires SemverLaws(sv) && PlainlyNumeric(tag, nums)
    ensures ParseVersion(sv, tag) == sv.parse(ThreeParts(sv, nums)) && ParseVersion(sv, tag).Some?
  {
    hide SplitDots, Numbers, Trim;
    var rest := WithoutV(Trim(tag));
    WithoutVFacts(Trim(tag));
    TidyFixed(tag);
    assert NumericParts(rest) == Some(nums);
    ComponentsBounded(tag, nums);
  }

  lemma ComponentsBounded(tag: string, nums: seq<int>)
    requires NumericParts(tag) == Some(nums)
    ensures U64(Component(nums, 0)) && U64(Component(nums, 1)) && U64(Component(nums, 2))
  {
    hide SplitDots, Core, WithoutV, Trim;
  }

  function Three(nums: seq<int>): seq<int> {
    [Component(nums, 0), Component(nums, 1), Component(nums, 2)]
  }

  /** Comparing the first three components first changes nothing where the numbers are equal in number. */
  lemma ThreeFirst(a: seq<int>, b: seq<int>)
    requires |a| == |b|
    ensures Then(CmpSeq(Three(a), Three(b)), CmpSeq(a, b)) == CmpSeq(a, b)
  {
    if |a| > 0 {
      UnfoldsOnce(a, b);
      if |a| > 1 {
        UnfoldsOnce(a[1..], b[1..]);
        if |a| > 2 {
          UnfoldsOnce(a[2..], b[2..]);
          assert a[1..][1..] == a[2..] && b[1..][1..] == b[2..];
        }
      }
    }
    ThreeUnfolds(Three(a), Three(b));
  }

  lemma UnfoldsOnce(a: seq<int>, b: seq<int>)
    requires a != [] && b != []
    ensures CmpSeq(a, b) == Then(CmpInt(a[0], b[0]), CmpSeq(a[1..], b[1..]))
  {
  }

  lemma ThreeUnfolds(a: seq<int>, b: seq<int>)
    requires |a| == 3 && |b| == 3
    ensures CmpSeq(a, b) == Then(CmpInt(a[0], b[0]), Then(CmpInt(a[1], b[1]), CmpInt(a[2], b[2])))
  {
    assert a[1..][1..][1..] == [] && b[1..][1..][1..] == [];
    assert CmpSeq(a[1..][1..], b[1..][1..]) == CmpInt(a[2], b[2]);
  }

  /**
   The comparator means what it should: of two numeric tags with equally many components
   the one whose numbers are greater, read from the left, is the newer, however many
   components there are; equal numbers are told apart by publication.
   */
  lemma NumericTagsCompare<V(!new)>(sv: Semver<V>, a: Release<V>, b: Release<V>, na: seq<int>, nb: seq<int>)
    requires SemverLaws(sv) && Built(sv, a) && Built(sv, b)
    requires PlainlyNumeric(a.rawTag, na) && PlainlyNumeric(b.rawTag, nb) && |na| == |nb|
    ensures Compare(sv, a, b) == if na == nb then ByPublication(a, b) else CmpSeq(na, nb)
    ensures CmpSeq(na, nb) == Greater <==>
            exists k :: 0 <= k < |na| && na[k] > nb[k] && na[..k] == nb[..k]
  {
    hide NumericParts, Trim, Core, WithoutV, TidyTag, ByPublication, CmpSeq;
    NumericVersion(sv, a.rawTag, na);
    NumericVersion(sv, b.rawTag, nb);
    ComponentsBounded(a.rawTag, na);
    ComponentsBounded(b.rawTag, nb);
    ThreeFirst(na, nb);
    EqualSeqs(na, nb);
    GreaterSeqs(na, nb);
  }

  lemma {:induction false} EqualSeqs(a: seq<int>, b: seq<int>)
    ensures CmpSeq(a, b) == Equal <==> a == b
    decreases |a|
  {
    if a != [] && b != [] {
      EqualSeqs(a[1..], b[1..]);
      assert a == [a[0]] + a[1..] && b == [b[0]] + b[1..];
    }
  }

  lemma {:induction false} GreaterSeqs(a: seq<int>, b: seq<int>)
    requires |a| == |b|
    ensures CmpSeq(a, b) == Greater <==> exists k :: 0 <= k < |a| && a[k] > b[k] && a[..k] == b[..k]
    decreases |a|
  {
    if a != [] {
      GreaterSeqs(a[1..], b[1..]);
      if a[0] > b[0] {
        assert a[..0] == b[..0];
      } else if a[0] == b[0] {
        if CmpSeq(a[1..], b[1..]) == Greater {
          var k :| 0 <= k < |a| - 1 && a[1..][k] > b[1..][k] && a[1..][..k] == b[1..][..k];
          assert a[..k + 1] == [a[0]] + a[1..][..k] && b[..k + 1] == [b[0]] + b[1..][..k];
          assert a[k + 1] > b[k + 1];
        }
        if k :| 0 <= k < |a| && a[k] > b[k] && a[..k] == b[..k] {
          assert a[1..][..k - 1] == a[..k][1..] && b[1..][..k - 1] == b[..k][1..];
          assert a[1..][k - 1] > b[1..][k - 1];
        }
      } else {
        assert forall k :: 0 < k <= |a| ==> a[..k][0] == a[0] && b[..k][0] == b[0];
      }
    }
  }

  /** A numeric tag is newer than any that has no version, and among those the later publication is, a missing one last. */
  lemma VersionsFirst<V(!new)>(sv: Semver<V>, a: Release<V>, b: Release<V>, na: seq<int>)
    requires SemverLaws(sv) && Built(sv, a) && PlainlyNumeric(a.rawTag, na) && b.version.None?
    ensures Compare(sv, a, b) == Greater && Compare(sv, b, a) == Less
    ensures forall c: Release<V> :: c.version.None? && b.published.Some? ==>
              (Compare(sv, b, c) == Greater <==>
               c.published.None? || c.published.value < b.published.value)
  {
    hide PlainlyNumeric, ParseVersion, CmpSeq;
    NumericVersion(sv, a.rawTag, na);
  }

  /** A strict semantic version after the leading `v`s is taken as the library reads it, and ordered as it orders it. */
  lemma StrictTagsCompare<V(!new)>(sv: Semver<V>, a: Release<V>, b: Release<V>)
    requires Built(sv, a) && Built(sv, b)
    requires sv.parse(WithoutV(Trim(a.rawTag))).Some? && sv.parse(WithoutV(Trim(b.rawTag))).Some?
    ensures a.version == sv.parse(WithoutV(Trim(a.rawTag)))
    ensures var o := sv.cmp(sv.parse(WithoutV(Trim(a.rawTag))).value, sv.parse(WithoutV(Trim(b.rawTag))).value);
            o != Equal ==> Compare(sv, a, b) == o
  {
    hide WithoutV, Trim, NumericParts, CmpSeq;
  }
}
