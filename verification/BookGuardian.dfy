/** The read-only guardian of one document: compares its hash with a baseline, and skips
    rehashing while the file's modification time and size stand still. */
module BookGuardian {
  import opened Common

  type Content = seq<char>

  type Hash = Content -> string

  datatype File = File(content: Content, mtimeNs: int)

  datatype Snapshot = Snapshot(sha: string, size: nat, mtimeNs: int, present: bool)

  datatype Stamp = Stamp(mtimeNs: int, size: nat)

  datatype Memo = Memo(key: Option<Stamp>, sha: string)

  datatype Drift = Drift(baseline: Snapshot, current: Snapshot)

  datatype State = State(memo: Memo, baseline: Snapshot, checks: nat, drifts: seq<Drift>)

  const NO_MEMO := Memo(None, "")

  function StampOf(f: File): Stamp {
    Stamp(f.mtimeNs, |f.content|)
  }

  /** What a rehash of the file says. */
  function TrueSnapshot(h: Hash, file: Option<File>): Snapshot {
    match file
    case None => Snapshot("", 0, 0, false)
    case Some(f) => Snapshot(h(f.content), |f.content|, f.mtimeNs, true)
  }

  /** The memoised snapshot; `memoOn` is the environment switch. An empty cached hash
      counts as none. */
  function TakeSnapshot(h: Hash, memo: Memo, file: Option<File>, memoOn: bool): (Memo, Snapshot) {
    match file
    case None => (memo.(key := None), TrueSnapshot(h, None))
    case Some(f) =>
      if memoOn && memo.key == Some(StampOf(f)) && memo.sha != "" then
        (memo, TrueSnapshot(h, file).(sha := memo.sha))
      else (Memo(Some(StampOf(f)), h(f.content)), TrueSnapshot(h, file))
  }

  function Start(h: Hash, file: Option<File>, memoOn: bool): State {
    var (memo, snapshot) := TakeSnapshot(h, NO_MEMO, file, memoOn);
    State(memo, snapshot, 0, [])
  }

  function Check(h: Hash, s: State, file: Option<File>, memoOn: bool): (State, bool) {
    var (memo, current) := TakeSnapshot(h, s.memo, file, memoOn);
    var t := s.(memo := memo, checks := s.checks + 1);
    if !s.baseline.present then (t.(baseline := if current.present then current else s.baseline), true)
    else if !current.present || s.baseline.sha != current.sha then
      (t.(drifts := s.drifts + [Drift(s.baseline, current)]), false)
    else (t, true)
  }

  function UpdateBaseline(h: Hash, s: State, file: Option<File>, memoOn: bool): State {
    var (memo, current) := TakeSnapshot(h, s.memo, file, memoOn);
    s.(memo := memo, baseline := current)
  }

  class Guardian {
    const h: Hash
    var memoKey: Option<Stamp>
    var memoSha: string
    var baseline: Snapshot
    var checkCount: nat
    var drifts: seq<Drift>

    function View(): State
      reads this
    {
      State(Memo(memoKey, memoSha), baseline, checkCount, drifts)
    }

    constructor (h: Hash, file: Option<File>, memoOn: bool)
      ensures this.h == h && View() == Start(h, file, memoOn)
    {
      this.h := h;
      memoKey, memoSha := None, "";
      checkCount, drifts := 0, [];
      baseline := Snapshot("", 0, 0, false);
      new;
      baseline := TakeFileSnapshot(file, memoOn);
    }

    method TakeFileSnapshot(file: Option<File>, memoOn: bool) returns (r: Snapshot)
      modifies this`memoKey, this`memoSha
      ensures (Memo(memoKey, memoSha), r) == TakeSnapshot(h, Memo(old(memoKey), old(memoSha)), file, memoOn)
    {
      if file.None? {
        memoKey := None;
        return Snapshot("", 0, 0, false);
      }
      var key := Stamp(file.value.mtimeNs, |file.value.content|);
      if memoOn {
        if memoKey == Some(key) && memoSha != "" {
          return Snapshot(memoSha, key.size, key.mtimeNs, true);
        }
      }
      memoKey := Some(key);
      memoSha := h(file.value.content);
      return Snapshot(memoSha, key.size, key.mtimeNs, true);
    }

    method CheckFile(file: Option<File>, memoOn: bool) returns (ok: bool)
      modifies this
      ensures View() == Check(h, old(View()), file, memoOn).0
      ensures ok == Check(h, old(View()), file, memoOn).1
    {
      checkCount := checkCount + 1;
      var current := TakeFileSnapshot(file, memoOn);
      if !baseline.present {
        if current.present {
          baseline := current;
        }
        return true;
      }
      if !current.present {
        drifts := drifts + [Drift(baseline, current)];
        return false;
      }
      if baseline.sha != current.sha {
        drifts := drifts + [Drift(baseline, current)];
        return false;
      }
      return true;
    }

    method Rebase(file: Option<File>, memoOn: bool) returns (r: Snapshot)
      modifies this
      ensures View() == UpdateBaseline(h, old(View()), file, memoOn) && r == baseline
    {
      baseline := TakeFileSnapshot(file, memoOn);
      r := baseline;
    }
  }

  // ---- Runs ----

  /** What the guardian looks at when it is asked to: the file as it is at that moment. */
  datatype Look = Look(file: Option<File>, memoOn: bool)

  datatype Event = Checked(look: Look) | Rebased(look: Look)

  function Step(h: Hash, s: State, e: Event): State {
    match e
    case Checked(l) => Check(h, s, l.file, l.memoOn).0
    case Rebased(l) => UpdateBaseline(h, s, l.file, l.memoOn)
  }

  function Run(h: Hash, first: Look, es: seq<Event>): State {
    if es == [] then Start(h, first.file, first.memoOn) else Step(h, Run(h, first, Front(es)), Last(es))
  }

  /** The answer of a check after these events. */
  function Answer(h: Hash, first: Look, es: seq<Event>, l: Look): bool {
    Check(h, Run(h, first, es), l.file, l.memoOn).1
  }

  /** All looks in order, the one at construction first. */
  function Looks(first: Look, es: seq<Event>): (ls: seq<Look>)
    ensures ls != []
  {
    if es == [] then [first] else Looks(first, Front(es)) + [Last(es).look]
  }

  function MemoAfter(h: Hash, looks: seq<Look>): Memo {
    if looks == [] then NO_MEMO
    else TakeSnapshot(h, MemoAfter(h, Front(looks)), Last(looks).file, Last(looks).memoOn).0
  }

  /** The snapshot taken at the last look. */
  function LastSnapshot(h: Hash, looks: seq<Look>): Snapshot
    requires looks != []
  {
    TakeSnapshot(h, MemoAfter(h, Front(looks)), Last(looks).file, Last(looks).memoOn).1
  }

  /** Every snapshot of these looks is what a rehash would have said. */
  predicate AllTrue(h: Hash, looks: seq<Look>) {
    looks == [] ||
    (AllTrue(h, Front(looks)) && LastSnapshot(h, looks) == TrueSnapshot(h, Last(looks).file))
  }

  /** Two successive looks do not fool the memo: if the second may use it and sees the
      stamp of the first, the hash is still the same. */
  predicate Honest(h: Hash, a: Look, b: Look) {
    a.file.Some? && b.file.Some? && b.memoOn && StampOf(a.file.value) == StampOf(b.file.value)
      && h(a.file.value.content) != ""
    ==> h(a.file.value.content) == h(b.file.value.content)
  }

  ghost predicate AllHonest(h: Hash, looks: seq<Look>) {
    forall i :: 0 <= i < |looks| - 1 ==> Honest(h, looks[i], looks[i + 1])
  }

  lemma {:induction false} MemoIsLastLook(h: Hash, looks: seq<Look>)
    requires looks != [] && AllTrue(h, looks)
    ensures
      var f := Last(looks).file;
      if f.None? then MemoAfter(h, looks).key.None?
      else MemoAfter(h, looks) == Memo(Some(StampOf(f.value)), h(f.value.content))
  {
  }

  lemma AllHonestSnoc(h: Hash, looks: seq<Look>)
    requires |looks| >= 2
    ensures AllHonest(h, looks) <==>
      AllHonest(h, Front(looks)) && Honest(h, looks[|looks| - 2], looks[|looks| - 1])
  {
    var before := Front(looks);
    forall i | 0 <= i < |before| - 1
      ensures Honest(h, before[i], before[i + 1]) <==> Honest(h, looks[i], looks[i + 1])
    {
    }
    if AllHonest(h, looks) {
      assert Honest(h, looks[|looks| - 2], looks[(|looks| - 2) + 1]);
      assert forall i :: 0 <= i < |before| - 1 ==> Honest(h, looks[i], looks[i + 1]);
    }
  }

  /** The memo is exact: no snapshot of a run is wrong if and only if no two successive
      looks show the same stamp over a different hash. */
  lemma {:induction false} SnapshotsTrueIff(h: Hash, looks: seq<Look>)
    ensures AllTrue(h, looks) <==> AllHonest(h, looks)
  {
    if |looks| == 1 {
      assert Front(looks) == [];
    } else if |looks| >= 2 {
      SnapshotsTrueIff(h, Front(looks));
      AllHonestSnoc(h, looks);
      if AllTrue(h, Front(looks)) {
        MemoIsLastLook(h, Front(looks));
      }
    }
  }

  // ---- The memoised run against one that always rehashes ----

  function Rehashing(l: Look): Look {
    l.(memoOn := false)
  }

  function RehashingEvent(e: Event): Event {
    e.(look := Rehashing(e.look))
  }

  function RehashingRun(es: seq<Event>): seq<Event> {
    if es == [] then [] else RehashingRun(Front(es)) + [RehashingEvent(Last(es))]
  }

  lemma {:induction false} RunKeepsMemo(h: Hash, first: Look, es: seq<Event>)
    ensures Run(h, first, es).memo == MemoAfter(h, Looks(first, es))
  {
    if es == [] {
      assert Front([first]) == [];
    } else {
      RunKeepsMemo(h, first, Front(es));
      assert Front(Looks(first, es)) == Looks(first, Front(es));
    }
  }

  lemma {:induction false} RehashingAgrees(h: Hash, first: Look, es: seq<Event>)
    requires AllTrue(h, Looks(first, es))
    ensures Run(h, Rehashing(first), RehashingRun(es)) == Run(h, first, es)
  {
    if es != [] {
      var looks := Looks(first, es);
      assert Front(looks) == Looks(first, Front(es));
      assert Front(RehashingRun(es)) == RehashingRun(Front(es));
      RehashingAgrees(h, first, Front(es));
      RunKeepsMemo(h, first, Front(es));
      MemoIsLastLook(h, looks);
    }
  }

  /** With honest stamps the memo changes nothing at all: baseline, counts, drift reports
      and the answer to the next check are those of a guardian that always rehashes. */
  lemma MemoAgreement(h: Hash, first: Look, es: seq<Event>, next: Look)
    requires AllHonest(h, Looks(first, es + [Checked(next)]))
    ensures Run(h, Rehashing(first), RehashingRun(es)) == Run(h, first, es)
    ensures Answer(h, Rehashing(first), RehashingRun(es), Rehashing(next)) == Answer(h, first, es, next)
  {
    var all := es + [Checked(next)];
    assert Front(all) == es;
    assert Front(Looks(first, all)) == Looks(first, es);
    SnapshotsTrueIff(h, Looks(first, all));
    RehashingAgrees(h, first, es);
    RunKeepsMemo(h, first, es);
  }

  /** It is enough that modification time and size determine the content throughout. */
  lemma StampsDetermineContent(h: Hash, looks: seq<Look>)
    requires forall i, j ::
      (&& 0 <= i < |looks| && 0 <= j < |looks| && looks[i].file.Some? && looks[j].file.Some?
       && StampOf(looks[i].file.value) == StampOf(looks[j].file.value))
      ==> looks[i].file == looks[j].file
    ensures AllHonest(h, looks)
  {
  }

  // ---- What a check means ----

  /** The file the baseline was taken from. */
  function BaselineFile(first: Look, es: seq<Event>): Option<File> {
    if es == [] then first.file
    else
      var before := BaselineFile(first, Front(es));
      if Last(es).Rebased? || before.None? then Last(es).look.file else before
  }

  lemma {:induction false} BaselineIsTrue(h: Hash, first: Look, es: seq<Event>)
    requires AllTrue(h, Looks(first, es))
    ensures Run(h, first, es).baseline == TrueSnapshot(h, BaselineFile(first, es))
  {
    if es == [] {
      assert Front([first]) == [];
    } else {
      assert Front(Looks(first, es)) == Looks(first, Front(es));
      BaselineIsTrue(h, first, Front(es));
      RunKeepsMemo(h, first, Front(es));
    }
  }

  /** With honest stamps a check fails exactly when the document of the baseline is gone
      or hashes differently. */
  lemma CheckDetectsDrift(h: Hash, first: Look, es: seq<Event>, next: Look)
    requires AllHonest(h, Looks(first, es + [Checked(next)]))
    ensures
      var was := BaselineFile(first, es);
      !Answer(h, first, es, next) <==>
        was.Some? && (next.file.None? || h(next.file.value.content) != h(was.value.content))
  {
    var all := es + [Checked(next)];
    assert Front(all) == es;
    assert Front(Looks(first, all)) == Looks(first, es);
    SnapshotsTrueIff(h, Looks(first, all));
    BaselineIsTrue(h, first, es);
    RunKeepsMemo(h, first, es);
  }

  /** What a file looks like in a drift report. */
  function Shown(h: Hash, f: Option<File>): Snapshot {
    if f.None? then Snapshot("", 0, 0, false)
    else Snapshot(h(f.value.content), |f.value.content|, f.value.mtimeNs, true)
  }

  /** One report per check that found the document gone or changed: what it was when the
      baseline was taken, and what it is. */
  function DriftsSeen(h: Hash, first: Look, es: seq<Event>): seq<Drift> {
    if es == [] then []
    else
      var was, now := BaselineFile(first, Front(es)), Last(es).look.file;
      DriftsSeen(h, first, Front(es))
      + (if && Last(es).Checked? && was.Some?
            && (now.None? || h(now.value.content) != h(was.value.content))
         then [Drift(Shown(h, was), Shown(h, now))] else [])
  }

  lemma {:induction false} TrueRunReports(h: Hash, first: Look, es: seq<Event>)
    requires AllTrue(h, Looks(first, es))
    ensures Run(h, first, es).drifts == DriftsSeen(h, first, es)
  {
    if es != [] {
      assert Front(Looks(first, es)) == Looks(first, Front(es));
      TrueRunReports(h, first, Front(es));
      BaselineIsTrue(h, first, Front(es));
      RunKeepsMemo(h, first, Front(es));
      assert DriftsSeen(h, first, Front(es)) + [] == DriftsSeen(h, first, Front(es));
    }
  }

  /** With honest stamps the drift reports of a run are exactly those. */
  lemma DriftReportsExact(h: Hash, first: Look, es: seq<Event>)
    requires AllHonest(h, Looks(first, es))
    ensures Run(h, first, es).drifts == DriftsSeen(h, first, es)
  {
    SnapshotsTrueIff(h, Looks(first, es));
    TrueRunReports(h, first, es);
  }

  /** Without them it misses a change: same stamp, another content, and the check says all
      is well. */
  lemma DishonestStampHidesDrift(h: Hash, a: File, b: File)
    requires StampOf(a) == StampOf(b) && h(a.content) != h(b.content) && h(a.content) != ""
    ensures Answer(h, Look(Some(a), true), [], Look(Some(b), true))
    ensures !Answer(h, Look(Some(a), false), [], Look(Some(b), false))
  {
  }

  function FailedAnswers(h: Hash, first: Look, es: seq<Event>): nat {
    if es == [] then 0
    else
      FailedAnswers(h, first, Front(es))
      + (if Last(es).Checked? && !Answer(h, first, Front(es), Last(es).look) then 1 else 0)
  }

  function Checks(es: seq<Event>): nat {
    if es == [] then 0 else Checks(Front(es)) + (if Last(es).Checked? then 1 else 0)
  }

  /** The drift reports count the failed checks, rebasing or not. */
  lemma {:induction false} DriftsCountFailures(h: Hash, first: Look, es: seq<Event>)
    ensures |Run(h, first, es).drifts| == FailedAnswers(h, first, es)
    ensures Run(h, first, es).checks == Checks(es)
  {
    if es != [] {
      DriftsCountFailures(h, first, Front(es));
    }
  }
}
