/**
 The background advisory sweep: each round asks about the next few never-checked
 versions of every watched package (src/scheduler.rs, src/store/postgres/advisory.rs,
 src/pipeline/outbox.rs).
 */
module AdvisorySweep {
  import opened Text
  import opened Advisories

  datatype Coordinate = Coordinate(ecosystem: string, package: string, version: string)

  /** A watched package; `seen` lists its source's versions, newest discovery first, each once. */
  datatype Target = Target(registry: Registry, package: string, seen: seq<string>)

  /** Targets are only made for registries that have an ecosystem. */
  function Ecosystem(t: Target): string {
    match EcosystemOf(t.registry) case Some(name) => name case None => ""
  }

  function At(t: Target, version: string): Coordinate {
    Coordinate(Ecosystem(t), t.package, version)
  }

  predicate SameTarget(t: Target, u: Target) {
    Ecosystem(t) == Ecosystem(u) && t.package == u.package
  }

  predicate Distinct(versions: seq<string>) {
    forall i, j :: 0 <= i < j < |versions| ==> versions[i] != versions[j]
  }

  /** The `release_advisory` and `advisory_check` tables. */
  datatype Book = Book(findings: map<Coordinate, seq<Advisory>>, checked: set<Coordinate>)

  function Findings(b: Book, c: Coordinate): seq<Advisory> {
    if c in b.findings then b.findings[c] else []
  }

  /** The outcome of one lookup and, if it was verified, of the two best-effort writes that record it. */
  datatype Reply = Unverified | Answered(advisories: seq<Advisory>, findingsSaved: bool, markerSaved: bool)

  /** Replies of one round, by position of the target and by version. */
  type Replies = (nat, string) -> Reply

  /** What a round meets: the targets whose queue cannot be read, and the target at which it is told to stop. */
  datatype Round = Round(replies: Replies, unreadable: set<nat>, stopAt: nat)

  // ------------------------------------------------------------------- queue

  /** The never-checked versions among `seen`, in order. */
  function Unchecked(seen: seq<string>, t: Target, checked: set<Coordinate>): (r: seq<string>)
    ensures forall v :: v in r <==> v in seen && At(t, v) !in checked
  {
    if seen == [] then []
    else if At(t, seen[0]) in checked then Unchecked(seen[1..], t, checked)
    else [seen[0]] + Unchecked(seen[1..], t, checked)
  }

  function Queue(t: Target, checked: set<Coordinate>): (r: seq<string>)
    ensures forall v :: v in r <==> v in t.seen && At(t, v) !in checked
  {
    Unchecked(t.seen, t, checked)
  }

  function AtMost(n: nat, limit: nat): nat {
    if n <= limit then n else limit
  }

  /** `unchecked_seen_versions` */
  function Batch(t: Target, checked: set<Coordinate>, batch: nat): (r: seq<string>)
    ensures |r| == AtMost(|Queue(t, checked)|, batch)
    ensures forall v :: v in r ==> v in t.seen && At(t, v) !in checked
  {
    var queue := Queue(t, checked);
    var r := queue[..AtMost(|queue|, batch)];
    assert forall v :: v in r ==> v in queue;
    r
  }

  // ------------------------------------------------------------------- round

  /** `persist_advisory_result`: two writes, neither depending on the other. */
  function Persist(b: Book, c: Coordinate, reply: Reply): Book {
    match reply
    case Unverified => b
    case Answered(advisories, findingsSaved, markerSaved) =>
      Book(if findingsSaved then b.findings[c := advisories] else b.findings,
           if markerSaved then b.checked + {c} else b.checked)
  }

  function PersistAll(b: Book, t: Target, index: nat, versions: seq<string>, replies: Replies): Book {
    if versions == [] then b
    else
      var last := |versions| - 1;
      Persist(PersistAll(b, t, index, versions[..last], replies), At(t, versions[last]), replies(index, versions[last]))
  }

  function CountAnswered(index: nat, versions: seq<string>, replies: Replies): nat {
    if versions == [] then 0
    else
      var last := |versions| - 1;
      CountAnswered(index, versions[..last], replies) + if replies(index, versions[last]).Answered? then 1 else 0
  }

  /** The book after the targets up to `k`. */
  function Swept(b: Book, targets: seq<Target>, k: nat, batch: nat, round: Round): Book
    requires k <= |targets|
  {
    if k == 0 then b
    else
      var before := Swept(b, targets, k - 1, batch, round);
      if round.stopAt < k || k - 1 in round.unreadable then before
      else PersistAll(before, targets[k - 1], k - 1, Batch(targets[k - 1], before.checked, batch), round.replies)
  }

  /** What the round returns: verified answers among the targets up to `k`. */
  function Verified(b: Book, targets: seq<Target>, k: nat, batch: nat, round: Round): nat
    requires k <= |targets|
  {
    if k == 0 then 0
    else
      var before := Swept(b, targets, k - 1, batch, round);
      Verified(b, targets, k - 1, batch, round)
      + if round.stopAt < k || k - 1 in round.unreadable then 0
        else CountAnswered(k - 1, Batch(targets[k - 1], before.checked, batch), round.replies)
  }

  /** The tables the sweep works on. */
  class AdvisoryStore {
    var findings: map<Coordinate, seq<Advisory>>
    var checked: set<Coordinate>

    constructor (b: Book)
      ensures Now() == b
    {
      findings := b.findings;
      checked := b.checked;
    }

    function Now(): Book
      reads this
    {
      Book(findings, checked)
    }

    method PersistAdvisoryResult(c: Coordinate, reply: Reply)
      modifies this
      ensures Now() == Persist(old(Now()), c, reply)
    {
      if reply.Answered? {
        if reply.findingsSaved {
          findings := findings[c := reply.advisories];
        }
        if reply.markerSaved {
          checked := checked + {c};
        }
      }
    }

    /** The recording loop over one target's answers. */
    method RecordAnswers(t: Target, index: nat, versions: seq<string>, replies: Replies) returns (count: nat)
      modifies this
      ensures Now() == PersistAll(old(Now()), t, index, versions, replies)
      ensures count == CountAnswered(index, versions, replies)
    {
      ghost var before := Now();
      count := 0;
      var i := 0;
      while i < |versions|
        invariant 0 <= i <= |versions|
        invariant Now() == PersistAll(before, t, index, versions[..i], replies)
        invariant count == CountAnswered(index, versions[..i], replies)
      {
        assert versions[..i + 1][..i] == versions[..i];
        var reply := replies(index, versions[i]);
        PersistAdvisoryResult(At(t, versions[i]), reply);
        if reply.Answered? {
          count := count + 1;
        }
        i := i + 1;
      }
      assert versions[..i] == versions;
    }

    /** `sweep_advisories_once` */
    method SweepOnce(targets: seq<Target>, batch: nat, round: Round) returns (count: nat)
      modifies this
      ensures Now() == Swept(old(Now()), targets, |targets|, batch, round)
      ensures count == Verified(old(Now()), targets, |targets|, batch, round)
    {
      hide PersistAll, CountAnswered, Batch;
      ghost var b := Now();
      count := 0;
      var k := 0;
      while k < |targets|
        invariant 0 <= k <= |targets|
        invariant Now() == Swept(b, targets, k, batch, round)
        invariant count == Verified(b, targets, k, batch, round)
      {
        if round.stopAt <= k {
          StoppedSweep(b, targets, k, batch, round);
          return;
        }
        if k !in round.unreadable {
          var versions := Batch(targets[k], checked, batch);
          var answered := RecordAnswers(targets[k], k, versions, round.replies);
          count := count + answered;
        }
        k := k + 1;
      }
    }
  }

  lemma {:induction false} StoppedSweep(b: Book, targets: seq<Target>, k: nat, batch: nat, round: Round)
    requires round.stopAt <= k <= |targets|
    ensures Swept(b, targets, |targets|, batch, round) == Swept(b, targets, k, batch, round)
    ensures Verified(b, targets, |targets|, batch, round) == Verified(b, targets, k, batch, round)
    decreases |targets| - k
  {
    if k < |targets| {
      StoppedSweep(b, targets, k + 1, batch, round);
    }
  }

  // ------------------------------------------------ what a round may change

  /** Every coordinate the round newly marks was asked about and verified; nothing is ever unmarked. */
  lemma {:induction false} PersistAllMarks(b: Book, t: Target, index: nat, versions: seq<string>, replies: Replies)
    ensures var after := PersistAll(b, t, index, versions, replies);
            && b.checked <= after.checked
            && forall c :: c in after.checked - b.checked <==>
                 c !in b.checked && SameAs(c, t) && c.version in versions
                 && replies(index, c.version).Answered? && replies(index, c.version).markerSaved
    decreases |versions|
  {
    if versions != [] {
      var last := |versions| - 1;
      PersistAllMarks(b, t, index, versions[..last], replies);
      assert versions == versions[..last] + [versions[last]];
    }
  }

  predicate SameAs(c: Coordinate, t: Target) {
    c.ecosystem == Ecosystem(t) && c.package == t.package
  }

  /** Findings change only for the coordinates asked about. */
  lemma {:induction false} PersistAllKeeps(b: Book, t: Target, index: nat, versions: seq<string>, replies: Replies, c: Coordinate)
    requires !(SameAs(c, t) && c.version in versions)
    ensures Findings(PersistAll(b, t, index, versions, replies), c) == Findings(b, c)
    decreases |versions|
  {
    if versions != [] {
      PersistAllKeeps(b, t, index, versions[..|versions| - 1], replies, c);
    }
  }

  /** The coordinate was asked about in this round, and OSV's answer was marked. */
  predicate MarkedBy(targets: seq<Target>, k: nat, round: Round, c: Coordinate)
    requires k <= |targets|
  {
    exists i :: 0 <= i < k && SameAs(c, targets[i]) && c.version in targets[i].seen
      && round.replies(i, c.version).Answered? && round.replies(i, c.version).markerSaved
  }

  /** The checked set grows, and only by verified answers to versions a watched source has seen. */
  lemma {:induction false} OnlyVerifiedMarked(b: Book, targets: seq<Target>, k: nat, batch: nat, round: Round)
    requires k <= |targets|
    ensures b.checked <= Swept(b, targets, k, batch, round).checked
    ensures forall c :: c in Swept(b, targets, k, batch, round).checked - b.checked ==> MarkedBy(targets, k, round, c)
    decreases k
  {
    if k > 0 {
      OnlyVerifiedMarked(b, targets, k - 1, batch, round);
      var before := Swept(b, targets, k - 1, batch, round);
      var versions := Batch(targets[k - 1], before.checked, batch);
      PersistAllMarks(before, targets[k - 1], k - 1, versions, round.replies);
      forall c | c in Swept(b, targets, k, batch, round).checked - b.checked ensures MarkedBy(targets, k, round, c) {
        if c in before.checked {
          assert MarkedBy(targets, k - 1, round, c);
        }
      }
    }
  }

  /** A checked version is never asked about again: what is stored for it stays as it is. */
  lemma {:induction false} CheckedIsFinal(b: Book, targets: seq<Target>, k: nat, batch: nat, round: Round, c: Coordinate)
    requires k <= |targets| && c in b.checked
    ensures Findings(Swept(b, targets, k, batch, round), c) == Findings(b, c)
    decreases k
  {
    if k > 0 {
      CheckedIsFinal(b, targets, k - 1, batch, round, c);
      OnlyVerifiedMarked(b, targets, k - 1, batch, round);
      var before := Swept(b, targets, k - 1, batch, round);
      PersistAllKeeps(before, targets[k - 1], k - 1, Batch(targets[k - 1], before.checked, batch), round.replies, c);
    }
  }

  // --------------------------------------------------------- whole histories

  /**
   Everything that writes the two tables: a round, the lookup a delivery makes
   whether the version is checked or not, the lookup a source page makes for a
   version without findings or marker, and retention.
   */
  datatype Action =
    | Sweep(round: Round)
    | Deliver(c: Coordinate, reply: Reply)
    | Browse(c: Coordinate, reply: Reply)
    | Prune(findings: set<Coordinate>, checks: set<Coordinate>)

  function After(b: Book, targets: seq<Target>, batch: nat, action: Action): Book {
    match action
    case Sweep(round) => Swept(b, targets, |targets|, batch, round)
    case Deliver(c, reply) => Persist(b, c, reply)
    case Browse(c, reply) => if c in b.checked || Findings(b, c) != [] then b else Persist(b, c, reply)
    case Prune(findings, checks) => Book(b.findings - findings, b.checked - checks)
  }

  function History(b: Book, targets: seq<Target>, batch: nat, actions: seq<Action>): Book {
    if actions == [] then b
    else
      var last := |actions| - 1;
      After(History(b, targets, batch, actions[..last]), targets, batch, actions[last])
  }

  /** The findings a delivery last wrote for the version, if retention has not dropped them since. */
  function LastDelivered(actions: seq<Action>, c: Coordinate, before: seq<Advisory>): seq<Advisory> {
    if actions == [] then before
    else
      var last := |actions| - 1;
      match actions[last]
      case Deliver(c', Answered(advisories, true, _)) =>
        if c' == c then advisories else LastDelivered(actions[..last], c, before)
      case Prune(findings, _) => if c in findings then [] else LastDelivered(actions[..last], c, before)
      case _ => LastDelivered(actions[..last], c, before)
  }

  /** A source page records what it looks up, and looks up only what has neither marker nor findings. */
  lemma PageRecords(b: Book, targets: seq<Target>, batch: nat, c: Coordinate, advisories: seq<Advisory>)
    ensures var after := After(b, targets, batch, Browse(c, Answered(advisories, true, true)));
            if c in b.checked || Findings(b, c) != [] then after == b
            else c in after.checked && Findings(after, c) == advisories
    ensures After(b, targets, batch, Browse(c, Unverified)) == b
  {
  }

  /** While its marker stands, only deliveries write a version's findings; rounds and pages never do. */
  lemma {:induction false} CheckedHistory(b: Book, targets: seq<Target>, batch: nat, actions: seq<Action>, c: Coordinate)
    requires c in b.checked && forall k :: 0 <= k < |actions| && actions[k].Prune? ==> c !in actions[k].checks
    ensures c in History(b, targets, batch, actions).checked
    ensures Findings(History(b, targets, batch, actions), c) == LastDelivered(actions, c, Findings(b, c))
    decreases |actions|
  {
    if actions != [] {
      var last := |actions| - 1;
      CheckedHistory(b, targets, batch, actions[..last], c);
      var before := History(b, targets, batch, actions[..last]);
      if actions[last].Sweep? {
        OnlyVerifiedMarked(before, targets, |targets|, batch, actions[last].round);
        CheckedIsFinal(before, targets, |targets|, batch, actions[last].round, c);
      }
    }
  }

  /**
   When the write of the findings fails and the write of the marker does not, the
   version counts as checked, and its findings stay as they were until a delivery
   of it writes them, for as long as the marker is kept.
   */
  lemma LostFindingsStayLost(b: Book, c: Coordinate, advisories: seq<Advisory>, targets: seq<Target>, batch: nat,
                             actions: seq<Action>)
    requires forall k :: 0 <= k < |actions| && actions[k].Prune? ==> c !in actions[k].checks
    ensures var after := History(Persist(b, c, Answered(advisories, false, true)), targets, batch, actions);
            c in after.checked && Findings(after, c) == LastDelivered(actions, c, Findings(b, c))
  {
    CheckedHistory(Persist(b, c, Answered(advisories, false, true)), targets, batch, actions, c);
  }

  /** A recorded answer is stored in full unless exactly that happens. */
  lemma RecordedInFull(b: Book, c: Coordinate, advisories: seq<Advisory>, findingsSaved: bool, markerSaved: bool)
    requires c !in b.checked && c !in b.findings
    ensures var after := Persist(b, c, Answered(advisories, findingsSaved, markerSaved));
            (c in after.checked ==> Findings(after, c) == advisories)
            <==> (findingsSaved || !markerSaved || advisories == [])
  {
  }

  // ---------------------------------------------------------------- progress

  function Rounds(b: Book, targets: seq<Target>, batch: nat, rounds: seq<Round>): Book {
    if rounds == [] then b
    else
      var last := |rounds| - 1;
      Swept(Rounds(b, targets, batch, rounds[..last]), targets, |targets|, batch, rounds[last])
  }

  /** More checked means less queued, or the same. */
  lemma {:induction false} QueueShrinks(seen: seq<string>, t: Target, checked: set<Coordinate>, checked': set<Coordinate>)
    requires checked <= checked'
    ensures |Unchecked(seen, t, checked')| < |Unchecked(seen, t, checked)|
            || Unchecked(seen, t, checked') == Unchecked(seen, t, checked)
    decreases |seen|
  {
    if seen != [] {
      QueueShrinks(seen[1..], t, checked, checked');
    }
  }

  /** Marking the first `n` queued versions leaves the rest, in order. */
  lemma {:induction false} QueueDrops(seen: seq<string>, t: Target, checked: set<Coordinate>, n: nat, checked': set<Coordinate>)
    requires Distinct(seen) && n <= |Unchecked(seen, t, checked)|
    requires forall v :: v in seen ==>
               (At(t, v) in checked' <==> At(t, v) in checked || v in Unchecked(seen, t, checked)[..n])
    ensures Unchecked(seen, t, checked') == Unchecked(seen, t, checked)[n..]
    decreases |seen|
  {
    if seen != [] {
      var queue, rest := Unchecked(seen, t, checked), Unchecked(seen[1..], t, checked);
      var first := seen[0];
      assert first !in seen[1..] && Distinct(seen[1..]);
      if At(t, first) in checked {
        QueueDrops(seen[1..], t, checked, n, checked');
      } else if n == 0 {
        QueueDrops(seen[1..], t, checked, 0, checked');
      } else {
        assert queue[..n] == [first] + rest[..n - 1];
        assert first in queue[..n];
        QueueDrops(seen[1..], t, checked, n - 1, checked');
      }
    }
  }

  /** Every version the round asks about for the target is answered and marked. */
  predicate AllMarked(t: Target, index: nat, checked: set<Coordinate>, batch: nat, replies: Replies) {
    forall v :: v in Batch(t, checked, batch) ==> replies(index, v).Answered? && replies(index, v).markerSaved
  }

  /** A target's turn in which every answer is verified takes exactly its batch off the head of its queue. */
  lemma TurnProgress(b: Book, t: Target, index: nat, batch: nat, replies: Replies)
    requires Distinct(t.seen) && AllMarked(t, index, b.checked, batch, replies)
    ensures var after := PersistAll(b, t, index, Batch(t, b.checked, batch), replies);
            Queue(t, after.checked) == Queue(t, b.checked)[AtMost(|Queue(t, b.checked)|, batch)..]
  {
    hide PersistAll;
    var n := AtMost(|Queue(t, b.checked)|, batch);
    var versions := Batch(t, b.checked, batch);
    var after := PersistAll(b, t, index, versions, replies);
    PersistAllMarks(b, t, index, versions, replies);
    forall v | v in t.seen ensures At(t, v) in after.checked <==> At(t, v) in b.checked || v in versions {
      assert At(t, v) in after.checked - b.checked <==> At(t, v) !in b.checked && v in versions;
    }
    QueueDrops(t.seen, t, b.checked, n, after.checked);
  }

  lemma {:induction false} SweptGrows(b: Book, targets: seq<Target>, j: nat, k: nat, batch: nat, round: Round)
    requires j <= k <= |targets|
    ensures Swept(b, targets, j, batch, round).checked <= Swept(b, targets, k, batch, round).checked
    decreases k
  {
    if j < k {
      SweptGrows(b, targets, j, k - 1, batch, round);
      var before := Swept(b, targets, k - 1, batch, round);
      PersistAllMarks(before, targets[k - 1], k - 1, Batch(targets[k - 1], before.checked, batch), round.replies);
    }
  }

  /** The target is reached and every answer to it is verified and marked. */
  predicate Served(b: Book, targets: seq<Target>, i: nat, batch: nat, round: Round)
    requires i < |targets|
  {
    && i < round.stopAt && i !in round.unreadable
    && AllMarked(targets[i], i, Swept(b, targets, i, batch, round).checked, batch, round.replies)
  }

  function Less(n: nat, m: nat): nat {
    if n <= m then 0 else n - m
  }

  /** A round in which a target's answers are all verified covers at least a batch of its queue. */
  lemma RoundProgress(b: Book, targets: seq<Target>, i: nat, batch: nat, round: Round)
    requires i < |targets| && Distinct(targets[i].seen) && Served(b, targets, i, batch, round)
    ensures |Queue(targets[i], Swept(b, targets, |targets|, batch, round).checked)|
            <= Less(|Queue(targets[i], b.checked)|, batch)
  {
    hide PersistAll;
    var t := targets[i];
    var mid := Swept(b, targets, i, batch, round);
    SweptGrows(b, targets, 0, i, batch, round);
    SweptGrows(b, targets, i + 1, |targets|, batch, round);
    TurnProgress(mid, t, i, batch, round.replies);
    QueueShrinks(t.seen, t, b.checked, mid.checked);
    QueueShrinks(t.seen, t, Swept(b, targets, i + 1, batch, round).checked,
                 Swept(b, targets, |targets|, batch, round).checked);
  }

  /** After as many such rounds, at most `n - rounds * batch` of `n` versions are left. */
  lemma {:induction false} RoundsProgress(b: Book, targets: seq<Target>, i: nat, batch: nat, rounds: seq<Round>)
    requires i < |targets| && Distinct(targets[i].seen)
    requires forall r :: 0 <= r < |rounds| ==>
               Served(Rounds(b, targets, batch, rounds[..r]), targets, i, batch, rounds[r])
    ensures |Queue(targets[i], Rounds(b, targets, batch, rounds).checked)|
            <= Less(|Queue(targets[i], b.checked)|, |rounds| * batch)
    decreases |rounds|
  {
    hide Swept, Served, Less, Queue;
    if rounds != [] {
      var last := |rounds| - 1;
      forall r | 0 <= r < last
        ensures Served(Rounds(b, targets, batch, rounds[..last][..r]), targets, i, batch, rounds[..last][r])
      {
        assert rounds[..last][..r] == rounds[..r];
      }
      RoundsProgress(b, targets, i, batch, rounds[..last]);
      RoundProgress(Rounds(b, targets, batch, rounds[..last]), targets, i, batch, rounds[last]);
      LessAgain(|Queue(targets[i], Rounds(b, targets, batch, rounds[..last]).checked)|,
                |Queue(targets[i], b.checked)|, last, batch);
    } else {
      LessNothing(|Queue(targets[i], b.checked)|, batch);
    }
  }

  lemma LessNothing(n: nat, batch: nat)
    ensures Less(n, 0 * batch) == n
  {
  }

  lemma LessAgain(left: nat, n: nat, rounds: nat, batch: nat)
    requires left <= Less(n, rounds * batch)
    ensures Less(left, batch) <= Less(n, (rounds + 1) * batch)
  {
    assert (rounds + 1) * batch == rounds * batch + batch;
  }

  /** So `n` versions are covered in `n / batch` rounds, rounded up. */
  lemma BacklogCovered(b: Book, targets: seq<Target>, i: nat, batch: nat, rounds: seq<Round>)
    requires i < |targets| && Distinct(targets[i].seen) && batch > 0
    requires |rounds| >= (|Queue(targets[i], b.checked)| + batch - 1) / batch
    requires forall r :: 0 <= r < |rounds| ==>
               Served(Rounds(b, targets, batch, rounds[..r]), targets, i, batch, rounds[r])
    ensures Queue(targets[i], Rounds(b, targets, batch, rounds).checked) == []
  {
    hide Swept, Served, Rounds;
    RoundsProgress(b, targets, i, batch, rounds);
    CeilingCovers(|Queue(targets[i], b.checked)|, batch, |rounds|);
  }

  lemma CeilingCovers(n: nat, batch: nat, rounds: nat)
    requires batch > 0 && rounds >= (n + batch - 1) / batch
    ensures n <= rounds * batch
  {
    var needed := (n + batch - 1) / batch;
    assert needed * batch <= rounds * batch;
  }

  // -------------------------------------------------------------- starvation

  /** No other target is for the same package. */
  predicate Alone(targets: seq<Target>, i: nat)
    requires i < |targets|
  {
    forall j :: 0 <= j < |targets| && j != i ==> !SameTarget(targets[j], targets[i])
  }

  /** The round reaches the target, asks about the version and marks it. */
  predicate Marks(t: Target, i: nat, checked: set<Coordinate>, batch: nat, round: Round, v: string) {
    && i < round.stopAt && i !in round.unreadable && v in Batch(t, checked, batch)
    && round.replies(i, v).Answered? && round.replies(i, v).markerSaved
  }

  lemma {:induction false} RoundMarks(b: Book, targets: seq<Target>, i: nat, k: nat, batch: nat, round: Round)
    requires i < |targets| && k <= |targets| && Alone(targets, i)
    ensures forall v :: v in targets[i].seen ==>
              (At(targets[i], v) in Swept(b, targets, k, batch, round).checked <==>
               At(targets[i], v) in b.checked || (i < k && Marks(targets[i], i, b.checked, batch, round, v)))
    decreases k
  {
    hide Batch, PersistAll, Ecosystem;
    if k > 0 {
      RoundMarks(b, targets, i, k - 1, batch, round);
      var t, before := targets[i], Swept(b, targets, k - 1, batch, round);
      if k - 1 == i {
        BatchReads(t, b.checked, before.checked, batch);
      }
      PersistAllMarks(before, targets[k - 1], k - 1, Batch(targets[k - 1], before.checked, batch), round.replies);
      forall v | v in t.seen
        ensures At(t, v) in Swept(b, targets, k, batch, round).checked <==>
                At(t, v) in b.checked || (i < k && Marks(t, i, b.checked, batch, round, v))
      {
        assert SameAs(At(t, v), targets[k - 1]) <==> SameTarget(targets[k - 1], t);
      }
    }
  }

  lemma {:induction false} QueueReads(seen: seq<string>, t: Target, checked: set<Coordinate>, checked': set<Coordinate>)
    requires forall v :: v in seen ==> (At(t, v) in checked <==> At(t, v) in checked')
    ensures Unchecked(seen, t, checked) == Unchecked(seen, t, checked')
    decreases |seen|
  {
    if seen != [] {
      QueueReads(seen[1..], t, checked, checked');
    }
  }

  lemma BatchReads(t: Target, checked: set<Coordinate>, checked': set<Coordinate>, batch: nat)
    requires forall v :: v in t.seen ==> (At(t, v) in checked <==> At(t, v) in checked')
    ensures Batch(t, checked, batch) == Batch(t, checked', batch)
  {
    QueueReads(t.seen, t, checked, checked');
  }

  /** The queue without the versions the round marks. */
  function Unmarked(queue: seq<string>, t: Target, i: nat, checked: set<Coordinate>, batch: nat, round: Round): seq<string> {
    if queue == [] then []
    else if Marks(t, i, checked, batch, round, queue[0]) then Unmarked(queue[1..], t, i, checked, batch, round)
    else [queue[0]] + Unmarked(queue[1..], t, i, checked, batch, round)
  }

  lemma {:induction false} UnmarkedIsUnchecked(seen: seq<string>, t: Target, i: nat, checked: set<Coordinate>, batch: nat,
                                               round: Round, checked': set<Coordinate>)
    requires forall v :: v in seen ==>
               (At(t, v) in checked' <==> At(t, v) in checked || Marks(t, i, checked, batch, round, v))
    ensures Unchecked(seen, t, checked') == Unmarked(Unchecked(seen, t, checked), t, i, checked, batch, round)
    decreases |seen|
  {
    hide Marks;
    if seen != [] {
      UnmarkedIsUnchecked(seen[1..], t, i, checked, batch, round, checked');
    }
  }

  /** One round, exactly: what was queued for a package stays queued, in order, but for the versions that are marked. */
  lemma RoundLeaves(b: Book, targets: seq<Target>, i: nat, batch: nat, round: Round)
    requires i < |targets| && Alone(targets, i)
    ensures Queue(targets[i], Swept(b, targets, |targets|, batch, round).checked)
            == Unmarked(Queue(targets[i], b.checked), targets[i], i, b.checked, batch, round)
  {
    hide Swept, Marks, Batch;
    RoundMarks(b, targets, i, |targets|, batch, round);
    UnmarkedIsUnchecked(targets[i].seen, targets[i], i, b.checked, batch, round,
                        Swept(b, targets, |targets|, batch, round).checked);
  }

  /** The round marks nothing of the target: it is not reached, or all of its batch fails. */
  predicate Stuck(t: Target, i: nat, checked: set<Coordinate>, batch: nat, round: Round) {
    || round.stopAt <= i || i in round.unreadable
    || forall v :: v in Batch(t, checked, batch) ==>
         !(round.replies(i, v).Answered? && round.replies(i, v).markerSaved)
  }

  /** A round leaves a queue as it was exactly if it is stuck. */
  lemma RoundStalls(b: Book, targets: seq<Target>, i: nat, batch: nat, round: Round)
    requires i < |targets| && Alone(targets, i)
    ensures Queue(targets[i], Swept(b, targets, |targets|, batch, round).checked) == Queue(targets[i], b.checked)
            <==> Stuck(targets[i], i, b.checked, batch, round)
  {
    hide Swept, Batch;
    var t, after := targets[i], Swept(b, targets, |targets|, batch, round);
    RoundMarks(b, targets, i, |targets|, batch, round);
    if Stuck(t, i, b.checked, batch, round) {
      QueueReads(t.seen, t, b.checked, after.checked);
    } else {
      var v :| v in Batch(t, b.checked, batch) && round.replies(i, v).Answered? && round.replies(i, v).markerSaved;
      assert Marks(t, i, b.checked, batch, round, v);
      BatchQueued(t, b.checked, batch, v);
      assert v in Queue(t, b.checked) && v !in Queue(t, after.checked);
    }
  }

  lemma BatchQueued(t: Target, checked: set<Coordinate>, batch: nat, v: string)
    requires v in Batch(t, checked, batch)
    ensures v in Queue(t, checked)
  {
  }

  lemma {:induction false} RoundsGrow(b: Book, targets: seq<Target>, batch: nat, rounds: seq<Round>)
    ensures b.checked <= Rounds(b, targets, batch, rounds).checked
    decreases |rounds|
  {
    hide Swept;
    if rounds != [] {
      var last := |rounds| - 1;
      var before := Rounds(b, targets, batch, rounds[..last]);
      RoundsGrow(b, targets, batch, rounds[..last]);
      SweptGrows(before, targets, 0, |targets|, batch, rounds[last]);
      NothingSwept(before, targets, batch, rounds[last]);
    }
  }

  lemma NothingSwept(b: Book, targets: seq<Target>, batch: nat, round: Round)
    ensures Swept(b, targets, 0, batch, round) == b
  {
  }

  /**
   Over any number of rounds a queue stays as it was exactly if every round is stuck
   on the batch at its head: the versions behind it are never reached, whatever
   happens to other packages.
   */
  lemma {:induction false} FailingHeadBlocks(b: Book, targets: seq<Target>, i: nat, batch: nat, rounds: seq<Round>)
    requires i < |targets| && Alone(targets, i)
    ensures Queue(targets[i], Rounds(b, targets, batch, rounds).checked) == Queue(targets[i], b.checked)
            <==> forall r :: 0 <= r < |rounds| ==> Stuck(targets[i], i, b.checked, batch, rounds[r])
    decreases |rounds|
  {
    hide Swept, Stuck, Batch, Unchecked;
    if rounds != [] {
      var last := |rounds| - 1;
      var t, before := targets[i], Rounds(b, targets, batch, rounds[..last]);
      var after := Rounds(b, targets, batch, rounds);
      FailingHeadBlocks(b, targets, i, batch, rounds[..last]);
      RoundStalls(before, targets, i, batch, rounds[last]);
      RoundsGrow(b, targets, batch, rounds[..last]);
      SweptGrows(before, targets, 0, |targets|, batch, rounds[last]);
      NothingSwept(before, targets, batch, rounds[last]);
      QueueShrinks(t.seen, t, b.checked, before.checked);
      QueueShrinks(t.seen, t, before.checked, after.checked);
      if Queue(t, before.checked) == Queue(t, b.checked) {
        SameBatch(t, i, b.checked, before.checked, batch, rounds[last]);
        assert rounds == rounds[..last] + [rounds[last]];
      } else {
        var r :| 0 <= r < last && !Stuck(t, i, b.checked, batch, rounds[..last][r]);
        assert rounds[r] == rounds[..last][r];
      }
    }
  }

  lemma SameBatch(t: Target, i: nat, checked: set<Coordinate>, checked': set<Coordinate>, batch: nat, round: Round)
    requires Queue(t, checked) == Queue(t, checked')
    ensures Stuck(t, i, checked, batch, round) <==> Stuck(t, i, checked', batch, round)
  {
    assert Batch(t, checked, batch) == Batch(t, checked', batch);
  }

  /** Some lookup of the version, in some state and at some time, is served or asked. */
  ghost predicate Verifiable(cfg: LookupConfig, t: Target, version: string) {
    exists s, now :: !Decide(cfg, s, t.registry, t.package, version, now).Skip?
  }

  /** The round's verified replies come from lookups. */
  ghost predicate FromLookups(cfg: LookupConfig, targets: seq<Target>, round: Round) {
    forall i, v :: 0 <= i < |targets| && round.replies(i, v).Answered? ==> Verifiable(cfg, targets[i], v)
  }

  /** No version that is blank once trimmed is ever verified, nor any version of a blank package or while switched off. */
  lemma VerifiableExactly(cfg: LookupConfig, t: Target, version: string)
    ensures Verifiable(cfg, t, version) <==>
            cfg.active && EcosystemOf(t.registry).Some? && !Blank(t.package) && !Blank(version)
  {
    hide Trim;
    if cfg.active && EcosystemOf(t.registry).Some? && !Blank(t.package) && !Blank(version) {
      assert !Decide(cfg, FRESH_STATE, t.registry, t.package, version, 0).Skip?;
    }
  }

  /** So a batch of blank versions at the head of a queue blocks everything behind it, in every run of rounds. */
  lemma BlankHeadBlocks(cfg: LookupConfig, b: Book, targets: seq<Target>, i: nat, batch: nat, rounds: seq<Round>)
    requires i < |targets| && forall v :: v in Batch(targets[i], b.checked, batch) ==> Blank(v)
    requires forall r :: 0 <= r < |rounds| ==> FromLookups(cfg, targets, rounds[r])
    requires Alone(targets, i)
    ensures Queue(targets[i], Rounds(b, targets, batch, rounds).checked) == Queue(targets[i], b.checked)
  {
    hide Blank, Verifiable, Rounds, Batch;
    forall r | 0 <= r < |rounds| ensures Stuck(targets[i], i, b.checked, batch, rounds[r]) {
      forall v | v in Batch(targets[i], b.checked, batch) ensures !rounds[r].replies(i, v).Answered? {
        VerifiableExactly(cfg, targets[i], v);
        assert FromLookups(cfg, targets, rounds[r]);
      }
    }
    FailingHeadBlocks(b, targets, i, batch, rounds);
  }

  // ------------------------------------------------------------------- count

  function CountMarked(index: nat, versions: seq<string>, replies: Replies): nat {
    if versions == [] then 0
    else
      var last := |versions| - 1;
      CountMarked(index, versions[..last], replies)
      + if replies(index, versions[last]).Answered? && replies(index, versions[last]).markerSaved then 1 else 0
  }

  /** A turn marks as many versions as answers whose marker was saved. */
  lemma {:induction false} TurnMarks(b: Book, t: Target, index: nat, versions: seq<string>, replies: Replies)
    requires Distinct(versions) && forall v :: v in versions ==> At(t, v) !in b.checked
    ensures |PersistAll(b, t, index, versions, replies).checked| == |b.checked| + CountMarked(index, versions, replies)
    decreases |versions|
  {
    if versions != [] {
      var last := |versions| - 1;
      assert forall v :: v in versions[..last] ==> v in versions;
      TurnMarks(b, t, index, versions[..last], replies);
      PersistAllMarks(b, t, index, versions[..last], replies);
      assert versions[last] !in versions[..last];
      assert At(t, versions[last]) !in PersistAll(b, t, index, versions[..last], replies).checked;
    }
  }

  /**
   The count a turn reports is the number of versions it marks, plus those whose
   answer was verified but whose marker could not be written.
   */
  lemma {:induction false} CountOverstates(index: nat, versions: seq<string>, replies: Replies)
    ensures CountAnswered(index, versions, replies) >= CountMarked(index, versions, replies)
    ensures CountAnswered(index, versions, replies) == CountMarked(index, versions, replies) <==>
            forall v :: v in versions && replies(index, v).Answered? ==> replies(index, v).markerSaved
    decreases |versions|
  {
    if versions != [] {
      var last := |versions| - 1;
      CountOverstates(index, versions[..last], replies);
      assert versions == versions[..last] + [versions[last]];
    }
  }

  /** Every verified answer of the turn was marked. */
  predicate TurnSaved(index: nat, versions: seq<string>, replies: Replies) {
    forall v :: v in versions && replies(index, v).Answered? ==> replies(index, v).markerSaved
  }

  /** Every verified answer of the round's turns so far was marked. */
  predicate AllSaved(b: Book, targets: seq<Target>, k: nat, batch: nat, round: Round)
    requires k <= |targets|
  {
    k == 0 ||
    (&& AllSaved(b, targets, k - 1, batch, round)
     && (round.stopAt < k || k - 1 in round.unreadable
         || TurnSaved(k - 1, Batch(targets[k - 1], Swept(b, targets, k - 1, batch, round).checked, batch), round.replies)))
  }

  lemma {:induction false} QueueDistinct(seen: seq<string>, t: Target, checked: set<Coordinate>)
    requires Distinct(seen)
    ensures Distinct(Unchecked(seen, t, checked))
    decreases |seen|
  {
    if seen != [] {
      assert Distinct(seen[1..]) && seen[0] !in seen[1..];
      QueueDistinct(seen[1..], t, checked);
    }
  }

  /**
   The count a whole round reports bounds the versions it newly marks, and is their
   number exactly if every marker of a verified answer was saved.
   */
  lemma {:induction false} RoundCount(b: Book, targets: seq<Target>, k: nat, batch: nat, round: Round)
    requires k <= |targets| && forall j :: 0 <= j < |targets| ==> Distinct(targets[j].seen)
    ensures |Swept(b, targets, k, batch, round).checked| <= |b.checked| + Verified(b, targets, k, batch, round)
    ensures |Swept(b, targets, k, batch, round).checked| == |b.checked| + Verified(b, targets, k, batch, round)
            <==> AllSaved(b, targets, k, batch, round)
    decreases k
  {
    hide Batch, PersistAll, CountAnswered, CountMarked, Distinct;
    if k > 0 {
      RoundCount(b, targets, k - 1, batch, round);
      var t, before := targets[k - 1], Swept(b, targets, k - 1, batch, round);
      var versions := Batch(t, before.checked, batch);
      BatchDistinct(t, before.checked, batch);
      TurnMarks(before, t, k - 1, versions, round.replies);
      CountOverstates(k - 1, versions, round.replies);
    }
  }

  lemma BatchDistinct(t: Target, checked: set<Coordinate>, batch: nat)
    requires Distinct(t.seen)
    ensures Distinct(Batch(t, checked, batch)) && forall v :: v in Batch(t, checked, batch) ==> At(t, v) !in checked
  {
    QueueDistinct(t.seen, t, checked);
  }
}
