/**
 The lookup tables from webhook payloads and API ids to configured watches, against
 a scan of the watch list (src/watch_lookup.rs).
 */
module WatchLookup {
  import opened Text

  /** A configured watch: its source id, its kind and the repo or image it shows. */
  datatype Watch = Watch(id: string, kind: string, display: string, other: string)

  const CONTAINER_KINDS := ["docker", "ghcr", "quay", "ecr"]

  function LowerChar(c: char): char {
    if 'A' <= c <= 'Z' then (c as int + 32) as char else c
  }

  /** `normalise_repo` and `normalise_image` */
  function Normalise(s: string): string {
    var t := Trim(s);
    seq(|t|, i requires 0 <= i < |t| => LowerChar(t[i]))
  }

  predicate IsMatch(w: Watch, kind: string, name: string) {
    w.kind == kind && Normalise(w.display) == name
  }

  // ------------------------------------------------------------ linear scans

  /** The positions of the watches of a kind and normalised name, in order. */
  function Scan(watches: seq<Watch>, kind: string, name: string): (r: seq<nat>)
    ensures forall i :: i in r <==> 0 <= i < |watches| && IsMatch(watches[i], kind, name)
    ensures forall p, q :: 0 <= p < q < |r| ==> r[p] < r[q]
  {
    if watches == [] then []
    else
      var last := |watches| - 1;
      var before := Scan(watches[..last], kind, name);
      assert forall p :: 0 <= p < |before| ==> before[p] in before;
      before + if IsMatch(watches[last], kind, name) then [last] else []
  }

  /** The scans of several kinds, one after the other. */
  function ScanAny(watches: seq<Watch>, kinds: seq<string>, name: string): (r: seq<nat>)
    ensures forall i :: i in r <==> 0 <= i < |watches| && watches[i].kind in kinds && Normalise(watches[i].display) == name
  {
    if kinds == [] then []
    else
      var last := |kinds| - 1;
      assert kinds == kinds[..last] + [kinds[last]];
      ScanAny(watches, kinds[..last], name) + Scan(watches, kinds[last], name)
  }

  function Pick(watches: seq<Watch>, indices: seq<nat>): seq<Watch>
    requires forall i :: i in indices ==> i < |watches|
  {
    seq(|indices|, p requires 0 <= p < |indices| => assert indices[p] in indices; watches[indices[p]])
  }

  /** The container kinds among `kinds`, in order. */
  function Containers(kinds: seq<string>): (r: seq<string>)
    ensures forall k :: k in r <==> k in kinds && k in CONTAINER_KINDS
  {
    if kinds == [] then []
    else
      var last := |kinds| - 1;
      assert kinds == kinds[..last] + [kinds[last]];
      Containers(kinds[..last]) + if kinds[last] in CONTAINER_KINDS then [kinds[last]] else []
  }

  /** The last watch with an id. */
  function LastWithId(watches: seq<Watch>, id: string): (r: Option<nat>)
    ensures r.None? <==> forall i :: 0 <= i < |watches| ==> watches[i].id != id
    ensures r.Some? ==> r.value < |watches| && watches[r.value].id == id
    ensures r.Some? ==> forall i :: r.value < i < |watches| ==> watches[i].id != id
  {
    if watches == [] then None
    else if watches[|watches| - 1].id == id then Some(|watches| - 1)
    else LastWithId(watches[..|watches| - 1], id)
  }

  // ------------------------------------------------------------------ tables

  type Slots = map<(string, string), seq<nat>>

  /** A multi-map holds, for each kind and name, exactly what a scan finds; it has no empty entries. */
  ghost predicate HoldsScans(m: Slots, watches: seq<Watch>, only: seq<string>) {
    forall kind, name ::
      var found := if only == [] || kind in only then Scan(watches, kind, name) else [];
      ((kind, name) in m <==> found != []) && ((kind, name) in m ==> m[(kind, name)] == found)
  }

  ghost predicate HoldsIds(m: map<string, nat>, watches: seq<Watch>) {
    forall id :: (id in m <==> LastWithId(watches, id).Some?) && (id in m ==> LastWithId(watches, id) == Some(m[id]))
  }

  function Entry(m: Slots, kind: string, name: string): seq<nat> {
    if (kind, name) in m then m[(kind, name)] else []
  }

  /** `entry(..).or_default().push(idx)` */
  function Pushed(m: Slots, kind: string, name: string, i: nat): Slots {
    m[(kind, name) := Entry(m, kind, name) + [i]]
  }

  lemma ScanNext(watches: seq<Watch>, w: Watch, kind: string, name: string)
    ensures Scan(watches + [w], kind, name) ==
            Scan(watches, kind, name) + if IsMatch(w, kind, name) then [|watches|] else []
  {
    assert (watches + [w])[..|watches|] == watches;
  }

  lemma PushHolds(m: Slots, watches: seq<Watch>, w: Watch, only: seq<string>)
    requires HoldsScans(m, watches, only)
    ensures HoldsScans(if only == [] || w.kind in only then Pushed(m, w.kind, Normalise(w.display), |watches|) else m,
                       watches + [w], only)
  {
    hide Normalise, Scan;
    forall kind, name
      ensures Scan(watches + [w], kind, name) ==
              Scan(watches, kind, name) + if IsMatch(w, kind, name) then [|watches|] else []
    {
      ScanNext(watches, w, kind, name);
    }
  }

  lemma IdHolds(m: map<string, nat>, watches: seq<Watch>, w: Watch)
    requires HoldsIds(m, watches)
    ensures HoldsIds(m[w.id := |watches|], watches + [w])
  {
    assert (watches + [w])[..|watches|] == watches;
  }

  /** `WatchIndex`; the image table of the code is keyed by kind, then by image. */
  class WatchIndex {
    const watches: seq<Watch>
    var byId: map<string, nat>
    var byRepo: Slots
    var byImage: Slots

    ghost predicate Valid()
      reads this
    {
      && HoldsIds(byId, watches)
      && HoldsScans(byRepo, watches, [])
      && HoldsScans(byImage, watches, CONTAINER_KINDS)
    }

    constructor (watches: seq<Watch>)
      ensures Valid() && this.watches == watches
    {
      this.watches := watches;
      byId := map[];
      byRepo := map[];
      byImage := map[];
      new;
      hide Normalise, Scan, LastWithId, HoldsScans, HoldsIds;
      StartEmpty();
      assert watches[..0] == [];
      var i := 0;
      while i < |watches|
        invariant 0 <= i <= |watches|
        invariant HoldsIds(byId, watches[..i])
        invariant HoldsScans(byRepo, watches[..i], [])
        invariant HoldsScans(byImage, watches[..i], CONTAINER_KINDS)
      {
        var w := watches[i];
        assert watches[..i + 1] == watches[..i] + [w];
        IdHolds(byId, watches[..i], w);
        PushHolds(byRepo, watches[..i], w, []);
        PushHolds(byImage, watches[..i], w, CONTAINER_KINDS);
        byId := byId[w.id := i];
        byRepo := Pushed(byRepo, w.kind, Normalise(w.display), i);
        if w.kind in CONTAINER_KINDS {
          byImage := Pushed(byImage, w.kind, Normalise(w.display), i);
        }
        i := i + 1;
      }
      assert watches[..i] == watches;
    }

    /** `find_by_id`: the last watch with that id, if there is one. */
    method FindById(id: string) returns (r: Option<Watch>)
      requires Valid()
      ensures r == match LastWithId(watches, id) case None => None case Some(i) => Some(watches[i])
    {
      hide HoldsScans, LastWithId;
      r := if id in byId then Some(watches[byId[id]]) else None;
    }

    /** `find_repos` */
    method FindRepos(kind: string, repo: string) returns (found: seq<Watch>)
      requires Valid()
      ensures found == Pick(watches, Scan(watches, kind, Normalise(repo)))
    {
      hide HoldsIds, Normalise;
      found := Pick(watches, Entry(byRepo, kind, Normalise(repo)));
    }

    /** `find_repos_any` */
    method FindReposAny(kinds: seq<string>, repo: string) returns (found: seq<Watch>)
      requires Valid()
      ensures found == Pick(watches, ScanAny(watches, kinds, Normalise(repo)))
    {
      hide HoldsIds, Normalise, Scan, HoldsScans;
      var name := Normalise(repo);
      found := [];
      var k := 0;
      while k < |kinds|
        invariant 0 <= k <= |kinds|
        invariant found == Pick(watches, ScanAny(watches, kinds[..k], name))
      {
        EntryScans(byRepo, watches, [], kinds[k], name);
        ScanAnyNext(watches, kinds[..k], kinds[k], name);
        assert kinds[..k + 1] == kinds[..k] + [kinds[k]];
        found := found + Pick(watches, Entry(byRepo, kinds[k], name));
        k := k + 1;
      }
      assert kinds[..k] == kinds;
    }

    /** `find_images_any`: kinds that are not container kinds are never indexed. */
    method FindImagesAny(kinds: seq<string>, image: string) returns (found: seq<Watch>)
      requires Valid()
      ensures found == Pick(watches, ScanAny(watches, Containers(kinds), Normalise(image)))
    {
      hide HoldsIds, Normalise, Scan, ScanAny, Containers, HoldsScans;
      var name := Normalise(image);
      found := [];
      var k := 0;
      NoKinds(watches, name);
      while k < |kinds|
        invariant 0 <= k <= |kinds|
        invariant found == Pick(watches, ScanAny(watches, Containers(kinds[..k]), name))
      {
        EntryScans(byImage, watches, CONTAINER_KINDS, kinds[k], name);
        ImagesNext(watches, kinds[..k], kinds[k], name, found);
        assert kinds[..k + 1] == kinds[..k] + [kinds[k]];
        found := found + Pick(watches, Entry(byImage, kinds[k], name));
        k := k + 1;
      }
      assert kinds[..k] == kinds;
    }
  }

  lemma StartEmpty()
    ensures HoldsIds(map[], []) && HoldsScans(map[], [], []) && HoldsScans(map[], [], CONTAINER_KINDS)
  {
  }

  lemma EntryScans(m: Slots, watches: seq<Watch>, only: seq<string>, kind: string, name: string)
    requires HoldsScans(m, watches, only)
    ensures Entry(m, kind, name) == if only == [] || kind in only then Scan(watches, kind, name) else []
  {
    hide Scan;
  }

  lemma ScanAnyNext(watches: seq<Watch>, kinds: seq<string>, kind: string, name: string)
    ensures ScanAny(watches, kinds + [kind], name) == ScanAny(watches, kinds, name) + Scan(watches, kind, name)
    ensures Pick(watches, ScanAny(watches, kinds + [kind], name)) ==
            Pick(watches, ScanAny(watches, kinds, name)) + Pick(watches, Scan(watches, kind, name))
  {
    hide Scan;
    assert (kinds + [kind])[..|kinds|] == kinds;
  }

  lemma ContainersNext(kinds: seq<string>, kind: string)
    ensures Containers(kinds + [kind]) == Containers(kinds) + if kind in CONTAINER_KINDS then [kind] else []
  {
    assert (kinds + [kind])[..|kinds|] == kinds;
  }

  lemma NoKinds(watches: seq<Watch>, name: string)
    ensures Containers([]) == [] && ScanAny(watches, [], name) == []
  {
  }

  lemma ImagesNext(watches: seq<Watch>, kinds: seq<string>, kind: string, name: string, found: seq<Watch>)
    requires found == Pick(watches, ScanAny(watches, Containers(kinds), name))
    ensures Pick(watches, ScanAny(watches, Containers(kinds + [kind]), name)) ==
            found + if kind in CONTAINER_KINDS then Pick(watches, Scan(watches, kind, name)) else []
  {
    hide Scan, ScanAny, Containers, Normalise;
    ContainersNext(kinds, kind);
    ScanAnyNext(watches, Containers(kinds), kind, name);
    assert Containers(kinds) + [] == Containers(kinds);
  }

  // -------------------------------------------------------------- duplicates

  predicate NoRepeats<T(==)>(s: seq<T>) {
    forall p, q :: 0 <= p < q < |s| ==> s[p] != s[q]
  }

  /**
   A lookup over several kinds returns every match, and returns none twice exactly
   when no kind that has a match is listed twice.
   */
  lemma {:induction false} NoWatchTwice(watches: seq<Watch>, kinds: seq<string>, name: string)
    ensures NoRepeats(ScanAny(watches, kinds, name)) <==>
            forall p, q :: 0 <= p < q < |kinds| && kinds[p] == kinds[q] ==> Scan(watches, kinds[p], name) == []
    decreases |kinds|
  {
    hide Scan;
    if kinds != [] {
      var last := |kinds| - 1;
      NoWatchTwice(watches, kinds[..last], name);
      RepeatsAcross(watches, kinds[..last], kinds[last], name);
      assert kinds == kinds[..last] + [kinds[last]];
    }
  }

  lemma RepeatsConcat<T>(a: seq<T>, b: seq<T>)
    ensures NoRepeats(a + b) <==> NoRepeats(a) && NoRepeats(b) && forall p, q :: 0 <= p < |a| && 0 <= q < |b| ==> a[p] != b[q]
  {
    var all := a + b;
    assert forall p :: 0 <= p < |a| ==> all[p] == a[p];
    assert forall q :: 0 <= q < |b| ==> b[q] == all[|a| + q];
  }

  lemma RepeatsAcross(watches: seq<Watch>, kinds: seq<string>, kind: string, name: string)
    ensures NoRepeats(ScanAny(watches, kinds, name) + Scan(watches, kind, name)) <==>
            NoRepeats(ScanAny(watches, kinds, name)) && (kind in kinds ==> Scan(watches, kind, name) == [])
  {
    var a, b := ScanAny(watches, kinds, name), Scan(watches, kind, name);
    RepeatsConcat(a, b);
    assert NoRepeats(b);
    hide ScanAny, Scan, Normalise, NoRepeats;
    if kind in kinds {
      forall q | 0 <= q < |b| ensures exists p :: 0 <= p < |a| && a[p] == b[q] {
        assert b[q] in b;
        assert b[q] in a;
      }
      if b != [] {
        var p :| 0 <= p < |a| && a[p] == b[0];
      }
    } else {
      forall p, q | 0 <= p < |a| && 0 <= q < |b| ensures a[p] != b[q] {
        assert a[p] in a && b[q] in b;
      }
    }
  }

  /** Names are looked up alike exactly if they are the same once trimmed, but for the case of ASCII letters. */
  lemma NormaliseExactly(a: string, b: string)
    ensures Normalise(a) == Normalise(b) <==>
            && |Trim(a)| == |Trim(b)|
            && forall i :: 0 <= i < |Trim(a)| ==>
                 || Trim(a)[i] == Trim(b)[i]
                 || ('A' <= Trim(a)[i] <= 'Z' && Trim(b)[i] as int == Trim(a)[i] as int + 32)
                 || ('A' <= Trim(b)[i] <= 'Z' && Trim(a)[i] as int == Trim(b)[i] as int + 32)
  {
    hide Trim;
    if Normalise(a) == Normalise(b) {
      forall i | 0 <= i < |Trim(a)| ensures LowerChar(Trim(a)[i]) == LowerChar(Trim(b)[i]) {
        assert Normalise(a)[i] == Normalise(b)[i];
      }
    }
  }
}
