/** Deciding whether an agent's claims explain a before/after difference of its files. */
module FileVerification {
  import opened Common

  type Content = seq<char>
  type Disk = map<string, Content>

  /** The content hash; nothing is assumed of it except where a lemma asks for injectivity. */
  type Hash = Content -> string

  datatype Snapshot = Snapshot(sha: string, size: nat, present: bool)

  type Snapshots = map<string, Snapshot>

  datatype Action = MODIFIED | FIXED | CREATED | DELETED | NOOP

  datatype Claim = Claim(path: string, action: Action)

  datatype Kind =
    | NO_ACTUAL_CHANGE | PHANTOM_FILE | FILE_NOT_IN_SNAPSHOT
    | UNEXPECTED_DELETION | UNEXPECTED_CREATION | SIZE_MISMATCH

  datatype Finding = Finding(
    kind: Kind, path: string, claim: Option<Claim>, shaBefore: Option<string>, shaAfter: Option<string>)

  datatype Verdict = VERIFIED | HALLUCINATION | PARTIAL | NO_CLAIMS

  datatype Report = Report(
    verdict: Verdict, claimsTotal: nat, claimsVerified: nat, claimsFailed: nat,
    findings: seq<Finding>, blocked: bool)

  // ---- Snapshots ----

  function SnapshotFile(h: Hash, disk: Disk, path: string): Snapshot {
    if path in disk then Snapshot(h(disk[path]), |disk[path]|, true) else Snapshot("", 0, false)
  }

  function SnapshotFiles(h: Hash, disk: Disk, paths: set<string>): Snapshots {
    map p | p in paths :: SnapshotFile(h, disk, p)
  }

  function Look<V>(m: map<string, V>, path: string): Option<V> {
    if path in m then Some(m[path]) else None
  }

  function Paths(claims: seq<Claim>): set<string> {
    set c | c in claims :: c.path
  }

  // ---- One claim ----

  predicate Present(s: Option<Snapshot>) {
    s.Some? && s.value.present
  }

  function Sha(s: Option<Snapshot>): Option<string> {
    if s.Some? then Some(s.value.sha) else None
  }

  function CheckModification(c: Claim, before: Option<Snapshot>, after: Option<Snapshot>): Option<Finding> {
    if !Present(after) then Some(Finding(PHANTOM_FILE, c.path, Some(c), Sha(before), None))
    else if !Present(before) then Some(Finding(PHANTOM_FILE, c.path, Some(c), None, Sha(after)))
    else if before.value.sha == after.value.sha then
      Some(Finding(NO_ACTUAL_CHANGE, c.path, Some(c), Sha(before), Sha(after)))
    else None
  }

  function CheckCreation(c: Claim, before: Option<Snapshot>, after: Option<Snapshot>): Option<Finding> {
    if !Present(after) then Some(Finding(PHANTOM_FILE, c.path, Some(c), None, None))
    else if Present(before) && before.value.sha == after.value.sha then
      Some(Finding(NO_ACTUAL_CHANGE, c.path, Some(c), Sha(before), Sha(after)))
    else None
  }

  function CheckDeletion(c: Claim, before: Option<Snapshot>, after: Option<Snapshot>): Option<Finding> {
    if !Present(before) then Some(Finding(PHANTOM_FILE, c.path, Some(c), None, None))
    else if Present(after) then Some(Finding(NO_ACTUAL_CHANGE, c.path, Some(c), Sha(before), Sha(after)))
    else None
  }

  function CheckNoop(c: Claim, before: Option<Snapshot>, after: Option<Snapshot>): Option<Finding> {
    if Present(before) && !Present(after) then
      Some(Finding(UNEXPECTED_DELETION, c.path, Some(c), Sha(before), None))
    else if Present(before) && Present(after) && before.value.sha != after.value.sha then
      Some(Finding(FILE_NOT_IN_SNAPSHOT, c.path, Some(c), Sha(before), Sha(after)))
    else None
  }

  function CheckClaim(c: Claim, before: Option<Snapshot>, after: Option<Snapshot>): Option<Finding> {
    match c.action
    case MODIFIED => CheckModification(c, before, after)
    case FIXED => CheckModification(c, before, after)
    case CREATED => CheckCreation(c, before, after)
    case DELETED => CheckDeletion(c, before, after)
    case NOOP => CheckNoop(c, before, after)
  }

  /** The findings of the claim loop, in claim order. */
  function ClaimFindings(claims: seq<Claim>, before: Snapshots, after: Snapshots): seq<Finding> {
    if claims == [] then []
    else
      var c := Last(claims);
      var f := CheckClaim(c, Look(before, c.path), Look(after, c.path));
      ClaimFindings(Front(claims), before, after) + (if f.Some? then [f.value] else [])
  }

  // ---- Unclaimed paths ----

  /** What the later loops look for on an unclaimed path. */
  predicate Applies(kind: Kind, path: string, before: Snapshots, after: Snapshots) {
    var b, a := Look(before, path), Look(after, path);
    match kind
    case FILE_NOT_IN_SNAPSHOT => Present(b) && Present(a) && b.value.sha != a.value.sha
    case UNEXPECTED_DELETION => Present(b) && !Present(a)
    case UNEXPECTED_CREATION => Present(a) && !Present(b)
    case SIZE_MISMATCH =>
      && Present(b) && Present(a) && b.value.size != 0
      && 10 * (if a.value.size >= b.value.size then a.value.size - b.value.size else b.value.size - a.value.size)
           > b.value.size
    case _ => false
  }

  function Mark(kind: Kind, path: string, before: Snapshots, after: Snapshots): Finding {
    Finding(kind, path, None,
            if kind.UNEXPECTED_CREATION? then None else Sha(Look(before, path)),
            if kind.UNEXPECTED_DELETION? then None else Sha(Look(after, path)))
  }

  function Marked(kind: Kind, paths: set<string>, before: Snapshots, after: Snapshots): set<Finding> {
    set p | p in paths && Applies(kind, p, before, after) :: Mark(kind, p, before, after)
  }

  /** All findings about unclaimed paths; no two are equal, so a set holds them. */
  function DiffFindings(before: Snapshots, after: Snapshots, claimed: set<string>): set<Finding> {
    Marked(FILE_NOT_IN_SNAPSHOT, before.Keys - claimed, before, after)
    + Marked(UNEXPECTED_DELETION, before.Keys - claimed, before, after)
    + Marked(UNEXPECTED_CREATION, after.Keys - claimed, before, after)
    + Marked(SIZE_MISMATCH, before.Keys - claimed, before, after)
  }

  function AllPaths(before: Snapshots, claims: seq<Claim>, watch: set<string>): set<string> {
    before.Keys + Paths(claims) + watch
  }

  function Judge(total: nat, verified: nat, findings: seq<Finding>): Verdict {
    if total == 0 then NO_CLAIMS
    else if findings == [] then VERIFIED
    else if verified > 0 then PARTIAL
    else HALLUCINATION
  }

  /** The loops over unclaimed paths, in the order in which they run. */
  function Stage(kind: Kind): nat {
    match kind
    case UNEXPECTED_CREATION => 1
    case SIZE_MISMATCH => 2
    case _ => 0
  }

  predicate ByStage(fs: seq<Finding>) {
    forall i, j :: 0 <= i < j < |fs| ==> Stage(fs[i].kind) <= Stage(fs[j].kind)
  }

  /** What a report says. The claims' findings come first, in claim order, then the other
      findings loop by loop; within a loop their order is left open, as the loops walk
      dictionaries and a set. */
  ghost predicate Reports(r: Report, failClosed: bool, claims: seq<Claim>, before: Snapshots, after: Snapshots) {
    && ClaimFindings(claims, before, after) <= r.findings
    && Others(r.findings[|ClaimFindings(claims, before, after)|..], DiffFindings(before, after, Paths(claims)))
    && r.claimsTotal == |claims|
    && r.claimsVerified == |claims| - |ClaimFindings(claims, before, after)|
    && r.claimsFailed == |r.findings|
    && r.verdict == Judge(r.claimsTotal, r.claimsVerified, r.findings)
    && r.blocked == (r.findings != [] && failClosed)
  }

  ghost predicate Others(fs: seq<Finding>, diffs: set<Finding>) {
    multiset(fs) == multiset(diffs) && ByStage(fs)
  }

  /** All findings of a report, as a multiset. */
  lemma ReportParts(r: Report, failClosed: bool, claims: seq<Claim>, before: Snapshots, after: Snapshots)
    requires Reports(r, failClosed, claims, before, after)
    ensures multiset(r.findings)
         == multiset(ClaimFindings(claims, before, after)) + multiset(DiffFindings(before, after, Paths(claims)))
  {
    Halves(ClaimFindings(claims, before, after), r.findings);
  }

  lemma Halves<T>(first: seq<T>, all: seq<T>)
    requires first <= all
    ensures multiset(all) == multiset(first) + multiset(all[|first|..])
  {
    assert all == first + all[|first|..];
  }

  lemma MarkedOneMore(kind: Kind, done: set<string>, p: string, before: Snapshots, after: Snapshots)
    requires p !in done
    ensures multiset(Marked(kind, done + {p}, before, after))
         == multiset(Marked(kind, done, before, after))
            + (if Applies(kind, p, before, after) then multiset{Mark(kind, p, before, after)} else multiset{})
  {
    var marksBefore, marksAfter := Marked(kind, done, before, after), Marked(kind, done + {p}, before, after);
    var m := Mark(kind, p, before, after);
    assert m !in marksBefore;
    if Applies(kind, p, before, after) {
      assert marksAfter == marksBefore + {m};
    } else {
      assert marksAfter == marksBefore;
    }
  }

  lemma OneClaimMore(claims: seq<Claim>, i: nat, before: Snapshots, after: Snapshots)
    requires i < |claims|
    ensures
      var f := CheckClaim(claims[i], Look(before, claims[i].path), Look(after, claims[i].path));
      ClaimFindings(claims[..i + 1], before, after)
        == ClaimFindings(claims[..i], before, after) + (if f.Some? then [f.value] else [])
  {
    assert Front(claims[..i + 1]) == claims[..i];
  }

  lemma ReportHolds(
      r: Report, claimed: seq<Finding>, others: seq<Finding>, failClosed: bool, claims: seq<Claim>,
      before: Snapshots, after: Snapshots)
    requires claimed == ClaimFindings(claims, before, after) && r.findings == claimed + others
    requires Others(others, DiffFindings(before, after, Paths(claims)))
    requires r.claimsTotal == |claims| && r.claimsVerified == |claims| - |claimed|
    requires r.claimsFailed == |r.findings| && r.blocked == (r.findings != [] && failClosed)
    requires r.verdict == Judge(r.claimsTotal, r.claimsVerified, r.findings)
    ensures Reports(r, failClosed, claims, before, after)
  {
    assert (claimed + others)[|claimed|..] == others;
  }

  class Layer {
    const h: Hash
    const failClosed: bool
    var history: seq<Report>

    constructor (h: Hash, failClosed: bool)
      ensures this.h == h && this.failClosed == failClosed && history == []
    {
      this.h := h;
      this.failClosed := failClosed;
      history := [];
    }

    /** The loop over known unclaimed paths: what changed or disappeared. */
    method SweepKnown(paths: set<string>, before: Snapshots, after: Snapshots) returns (found: seq<Finding>)
      ensures multiset(found)
           == multiset(Marked(FILE_NOT_IN_SNAPSHOT, paths, before, after))
              + multiset(Marked(UNEXPECTED_DELETION, paths, before, after))
      ensures forall f :: f in found ==> Stage(f.kind) == 0
    {
      found := [];
      var todo := paths;
      while todo != {}
        invariant todo <= paths
        invariant multiset(found)
               == multiset(Marked(FILE_NOT_IN_SNAPSHOT, paths - todo, before, after))
                  + multiset(Marked(UNEXPECTED_DELETION, paths - todo, before, after))
        invariant forall f :: f in found ==> Stage(f.kind) == 0
      {
        var p :| p in todo;
        MarkedOneMore(FILE_NOT_IN_SNAPSHOT, paths - todo, p, before, after);
        MarkedOneMore(UNEXPECTED_DELETION, paths - todo, p, before, after);
        assert paths - (todo - {p}) == paths - todo + {p};
        todo := todo - {p};
        if Applies(FILE_NOT_IN_SNAPSHOT, p, before, after) {
          found := found + [Mark(FILE_NOT_IN_SNAPSHOT, p, before, after)];
        } else if Applies(UNEXPECTED_DELETION, p, before, after) {
          found := found + [Mark(UNEXPECTED_DELETION, p, before, after)];
        }
      }
      assert paths - {} == paths;
    }

    /** One loop over unclaimed paths, looking for one kind. */
    method Sweep(kind: Kind, paths: set<string>, before: Snapshots, after: Snapshots) returns (found: seq<Finding>)
      ensures multiset(found) == multiset(Marked(kind, paths, before, after))
      ensures forall f :: f in found ==> f.kind == kind
    {
      found := [];
      var todo := paths;
      while todo != {}
        invariant todo <= paths
        invariant multiset(found) == multiset(Marked(kind, paths - todo, before, after))
        invariant forall f :: f in found ==> f.kind == kind
      {
        var p :| p in todo;
        MarkedOneMore(kind, paths - todo, p, before, after);
        assert paths - (todo - {p}) == paths - todo + {p};
        todo := todo - {p};
        if Applies(kind, p, before, after) {
          found := found + [Mark(kind, p, before, after)];
        }
      }
      assert paths - {} == paths;
    }

    method VerifyChanges(disk: Disk, claims: seq<Claim>, before: Snapshots, watch: set<string>)
      returns (r: Report)
      modifies this
      ensures Reports(r, failClosed, claims, before, SnapshotFiles(h, disk, AllPaths(before, claims, watch)))
      ensures history == old(history) + [r]
    {
      var after := SnapshotFiles(h, disk, AllPaths(before, claims, watch));
      var findings, verified := [], 0;
      for i := 0 to |claims|
        invariant findings == ClaimFindings(claims[..i], before, after)
        invariant verified == i - |findings|
        invariant history == old(history)
      {
        var c := claims[i];
        OneClaimMore(claims, i, before, after);
        var f := CheckClaim(c, Look(before, c.path), Look(after, c.path));
        if f.Some? {
          findings := findings + [f.value];
        } else {
          verified := verified + 1;
        }
      }
      assert claims[..|claims|] == claims;
      var known := before.Keys - Paths(claims);
      var changed := SweepKnown(known, before, after);
      var created := Sweep(UNEXPECTED_CREATION, after.Keys - Paths(claims), before, after);
      var resized := Sweep(SIZE_MISMATCH, known, before, after);
      SweepsAddUp(changed, created, resized, before, after, Paths(claims));
      ghost var claimed := findings;
      findings := findings + (changed + created + resized);
      r := Report(Judge(|claims|, verified, findings), |claims|, verified, |findings|, findings,
                  findings != [] && failClosed);
      ReportHolds(r, claimed, changed + created + resized, failClosed, claims, before, after);
      history := history + [r];
    }
  }

  lemma SweepsAddUp(
      changed: seq<Finding>, created: seq<Finding>, resized: seq<Finding>,
      before: Snapshots, after: Snapshots, claimed: set<string>)
    requires
      var known := before.Keys - claimed;
      && multiset(changed) == multiset(Marked(FILE_NOT_IN_SNAPSHOT, known, before, after))
                              + multiset(Marked(UNEXPECTED_DELETION, known, before, after))
      && multiset(created) == multiset(Marked(UNEXPECTED_CREATION, after.Keys - claimed, before, after))
      && multiset(resized) == multiset(Marked(SIZE_MISMATCH, known, before, after))
    requires
      && (forall f :: f in changed ==> Stage(f.kind) == 0)
      && (forall f :: f in created ==> f.kind == UNEXPECTED_CREATION)
      && (forall f :: f in resized ==> f.kind == SIZE_MISMATCH)
    ensures Others(changed + created + resized, DiffFindings(before, after, claimed))
  {
    DiffParts(before, after, claimed);
    ThreeStages(changed, created, resized);
  }

  lemma DiffParts(before: Snapshots, after: Snapshots, claimed: set<string>)
    ensures
      var known := before.Keys - claimed;
      multiset(DiffFindings(before, after, claimed))
        == multiset(Marked(FILE_NOT_IN_SNAPSHOT, known, before, after))
           + multiset(Marked(UNEXPECTED_DELETION, known, before, after))
           + multiset(Marked(UNEXPECTED_CREATION, after.Keys - claimed, before, after))
           + multiset(Marked(SIZE_MISMATCH, known, before, after))
  {
  }

  lemma ThreeStages(first: seq<Finding>, second: seq<Finding>, third: seq<Finding>)
    requires forall f :: f in first ==> Stage(f.kind) == 0
    requires forall f :: f in second ==> f.kind == UNEXPECTED_CREATION
    requires forall f :: f in third ==> f.kind == SIZE_MISMATCH
    ensures ByStage(first + second + third)
  {
    var all := first + second + third;
    forall i | 0 <= i < |all|
      ensures Stage(all[i].kind) == if i < |first| then 0 else if i < |first| + |second| then 1 else 2
    {
      var f := all[i];
      assert if i < |first| then f in first else if i < |first| + |second| then f in second else f in third;
    }
  }

  // ---- The guard around the layer ----

  function PathSet(paths: seq<string>): set<string> {
    set p | p in paths
  }

  /** The snapshots taken before an iteration: declared files and watched ones. */
  function BeforeIteration(h: Hash, disk: Disk, declared: seq<string>, watch: seq<string>): Snapshots {
    SnapshotFiles(h, disk, PathSet(declared + watch))
  }

  function TotalFindings(rs: seq<Report>): nat {
    if rs == [] then 0 else TotalFindings(Front(rs)) + |Last(rs).findings|
  }

  function TotalBlocked(rs: seq<Report>): nat {
    if rs == [] then 0 else TotalBlocked(Front(rs)) + (if Last(rs).blocked then 1 else 0)
  }

  lemma TotalsSnoc(rs: seq<Report>, r: Report)
    ensures TotalFindings(rs + [r]) == TotalFindings(rs) + |r.findings|
    ensures TotalBlocked(rs + [r]) == TotalBlocked(rs) + (if r.blocked then 1 else 0)
  {
    assert Front(rs + [r]) == rs;
  }

  class HallucinationGuard {
    const layer: Layer
    var totalIterations: nat
    var totalHallucinations: nat
    var totalBlocked: nat
    var results: seq<Report>

    /** The running totals are those of the reports kept. */
    ghost predicate Valid()
      reads this
    {
      && totalIterations == |results|
      && totalHallucinations == TotalFindings(results)
      && totalBlocked == TotalBlocked(results)
    }

    constructor (layer: Layer)
      ensures Valid() && this.layer == layer && results == []
    {
      this.layer := layer;
      totalIterations, totalHallucinations, totalBlocked, results := 0, 0, 0, [];
    }

    method AfterIteration(disk: Disk, claims: seq<Claim>, snapshots: Snapshots, watch: seq<string>)
      returns (r: Report)
      requires Valid()
      modifies this, layer
      ensures Valid() && results == old(results) + [r]
      ensures Reports(r, layer.failClosed, claims, snapshots,
                SnapshotFiles(layer.h, disk, AllPaths(snapshots, claims, PathSet(watch))))
    {
      totalIterations := totalIterations + 1;
      r := layer.VerifyChanges(disk, claims, snapshots, PathSet(watch));
      TotalsSnoc(results, r);
      results := results + [r];
      if r.findings != [] {
        totalHallucinations := totalHallucinations + |r.findings|;
        if r.blocked {
          totalBlocked := totalBlocked + 1;
        }
      }
    }
  }

  // ---- Clean iff explained ----

  ghost predicate Injective(h: Hash) {
    forall a, b :: h(a) == h(b) ==> a == b
  }

  /** What an action says about the content before and after, told in contents. */
  predicate Explains(action: Action, before: Option<Content>, after: Option<Content>) {
    match action
    case MODIFIED => before.Some? && after.Some? && before != after
    case FIXED => before.Some? && after.Some? && before != after
    case CREATED => after.Some? && before != after
    case DELETED => before.Some? && after.None?
    case NOOP => before.Some? ==> before == after
  }

  /** The content the guard knows of: a path outside its scope counts as absent before. */
  function Known(disk: Disk, scope: set<string>, path: string): Option<Content> {
    if path in scope then Look(disk, path) else None
  }

  lemma ClaimPassesIff(h: Hash, was: Disk, now: Disk, scope: set<string>, c: Claim)
    requires Injective(h)
    ensures
      CheckClaim(c, Look(SnapshotFiles(h, was, scope), c.path), Some(SnapshotFile(h, now, c.path))).None?
      <==> Explains(c.action, Known(was, scope, c.path), Look(now, c.path))
  {
    if c.path in scope && c.path in was && c.path in now {
      assert h(was[c.path]) == h(now[c.path]) <==> was[c.path] == now[c.path];
    }
  }

  lemma {:induction false} NoClaimFindingsIff(claims: seq<Claim>, before: Snapshots, after: Snapshots)
    ensures ClaimFindings(claims, before, after) == []
       <==> forall c :: c in claims ==> CheckClaim(c, Look(before, c.path), Look(after, c.path)).None?
  {
    if claims != [] {
      NoClaimFindingsIff(Front(claims), before, after);
      assert claims == Front(claims) + [Last(claims)];
    }
  }

  /** The kinds of finding an unclaimed path can draw, told in contents. */
  lemma PathQuietIff(h: Hash, was: Disk, now: Disk, scope: set<string>, after: Snapshots, p: string)
    requires Injective(h) && p in after && after[p] == SnapshotFile(h, now, p)
    ensures
      var before := SnapshotFiles(h, was, scope);
      (&& !Applies(FILE_NOT_IN_SNAPSHOT, p, before, after) && !Applies(UNEXPECTED_DELETION, p, before, after)
       && !Applies(UNEXPECTED_CREATION, p, before, after) && !Applies(SIZE_MISMATCH, p, before, after))
      <==> Known(was, scope, p) == Look(now, p)
  {
    if p in scope && p in was && p in now {
      assert h(was[p]) == h(now[p]) <==> was[p] == now[p];
    }
  }

  lemma NoDiffFindingsIff(before: Snapshots, after: Snapshots, claimed: set<string>)
    requires before.Keys <= after.Keys
    ensures DiffFindings(before, after, claimed) == {} <==>
      forall p :: p in after.Keys - claimed ==>
        && !Applies(FILE_NOT_IN_SNAPSHOT, p, before, after) && !Applies(UNEXPECTED_DELETION, p, before, after)
        && !Applies(UNEXPECTED_CREATION, p, before, after) && !Applies(SIZE_MISMATCH, p, before, after)
  {
    MarkedEmptyIff(FILE_NOT_IN_SNAPSHOT, before.Keys - claimed, before, after);
    MarkedEmptyIff(UNEXPECTED_DELETION, before.Keys - claimed, before, after);
    MarkedEmptyIff(UNEXPECTED_CREATION, after.Keys - claimed, before, after);
    MarkedEmptyIff(SIZE_MISMATCH, before.Keys - claimed, before, after);
  }

  lemma MarkedEmptyIff(kind: Kind, paths: set<string>, before: Snapshots, after: Snapshots)
    ensures Marked(kind, paths, before, after) == {} <==> forall p :: p in paths ==> !Applies(kind, p, before, after)
  {
    forall p | p in paths && Applies(kind, p, before, after)
      ensures Mark(kind, p, before, after) in Marked(kind, paths, before, after)
    {
    }
  }

  lemma SilentIff(r: Report, failClosed: bool, claims: seq<Claim>, before: Snapshots, after: Snapshots)
    requires Reports(r, failClosed, claims, before, after)
    ensures r.findings == [] <==>
      ClaimFindings(claims, before, after) == [] && DiffFindings(before, after, Paths(claims)) == {}
  {
    ReportParts(r, failClosed, claims, before, after);
    PartSizes(r.findings, ClaimFindings(claims, before, after), DiffFindings(before, after, Paths(claims)));
  }

  /** No finding at all exactly when every claim tells the truth about the contents the
      guard knew and every other path in its sight is as it was. */
  lemma CleanIffExplained(
      h: Hash, was: Disk, now: Disk, scope: set<string>, claims: seq<Claim>, watch: set<string>,
      failClosed: bool, r: Report)
    requires Injective(h)
    requires
      var before := SnapshotFiles(h, was, scope);
      Reports(r, failClosed, claims, before, SnapshotFiles(h, now, AllPaths(before, claims, watch)))
    ensures r.findings == [] <==>
      && (forall c :: c in claims ==> Explains(c.action, Known(was, scope, c.path), Look(now, c.path)))
      && (forall p :: p in scope + watch - Paths(claims) ==> Known(was, scope, p) == Look(now, p))
  {
    var before := SnapshotFiles(h, was, scope);
    var after := SnapshotFiles(h, now, AllPaths(before, claims, watch));
    assert after.Keys - Paths(claims) == scope + watch - Paths(claims);
    CleanIffAfter(h, was, now, scope, claims, after, failClosed, r);
  }

  lemma CleanIffAfter(
      h: Hash, was: Disk, now: Disk, scope: set<string>, claims: seq<Claim>, after: Snapshots,
      failClosed: bool, r: Report)
    requires Injective(h) && scope <= after.Keys && Paths(claims) <= after.Keys
    requires forall p :: p in after ==> after[p] == SnapshotFile(h, now, p)
    requires Reports(r, failClosed, claims, SnapshotFiles(h, was, scope), after)
    ensures r.findings == [] <==>
      && (forall c :: c in claims ==> Explains(c.action, Known(was, scope, c.path), Look(now, c.path)))
      && (forall p :: p in after.Keys - Paths(claims) ==> Known(was, scope, p) == Look(now, p))
  {
    SilentIff(r, failClosed, claims, SnapshotFiles(h, was, scope), after);
    ClaimsTrueIff(h, was, now, scope, claims, after);
    OthersUnchangedIff(h, was, now, scope, after, Paths(claims));
  }

  lemma ClaimsTrueIff(h: Hash, was: Disk, now: Disk, scope: set<string>, claims: seq<Claim>, after: Snapshots)
    requires Injective(h) && Paths(claims) <= after.Keys
    requires forall p :: p in after ==> after[p] == SnapshotFile(h, now, p)
    ensures ClaimFindings(claims, SnapshotFiles(h, was, scope), after) == [] <==>
      forall c :: c in claims ==> Explains(c.action, Known(was, scope, c.path), Look(now, c.path))
  {
    var before := SnapshotFiles(h, was, scope);
    NoClaimFindingsIff(claims, before, after);
    forall c | c in claims
      ensures CheckClaim(c, Look(before, c.path), Look(after, c.path)).None?
         <==> Explains(c.action, Known(was, scope, c.path), Look(now, c.path))
    {
      assert c.path in Paths(claims);
      ClaimPassesIff(h, was, now, scope, c);
    }
  }

  lemma OthersUnchangedIff(
      h: Hash, was: Disk, now: Disk, scope: set<string>, after: Snapshots, claimed: set<string>)
    requires Injective(h) && scope <= after.Keys
    requires forall p :: p in after ==> after[p] == SnapshotFile(h, now, p)
    ensures DiffFindings(SnapshotFiles(h, was, scope), after, claimed) == {} <==>
      forall p :: p in after.Keys - claimed ==> Known(was, scope, p) == Look(now, p)
  {
    var before := SnapshotFiles(h, was, scope);
    NoDiffFindingsIff(before, after, claimed);
    forall p | p in after.Keys - claimed
      ensures
        (&& !Applies(FILE_NOT_IN_SNAPSHOT, p, before, after) && !Applies(UNEXPECTED_DELETION, p, before, after)
         && !Applies(UNEXPECTED_CREATION, p, before, after) && !Applies(SIZE_MISMATCH, p, before, after))
        <==> Known(was, scope, p) == Look(now, p)
    {
      PathQuietIff(h, was, now, scope, after, p);
    }
  }

  /** One guarded iteration, from its declared files to its report: clean exactly when the
      claims are true and every other declared or watched path is as it was. */
  lemma IterationCleanIffExplained(
      h: Hash, was: Disk, now: Disk, declared: seq<string>, watch: seq<string>, claims: seq<Claim>,
      failClosed: bool, r: Report)
    requires Injective(h)
    requires
      var before := BeforeIteration(h, was, declared, watch);
      Reports(r, failClosed, claims, before,
              SnapshotFiles(h, now, AllPaths(before, claims, PathSet(watch))))
    ensures
      var scope := PathSet(declared + watch);
      r.findings == [] <==>
        && (forall c :: c in claims ==> Explains(c.action, Known(was, scope, c.path), Look(now, c.path)))
        && (forall p :: p in scope - Paths(claims) ==> Look(was, p) == Look(now, p))
  {
    var scope := PathSet(declared + watch);
    CleanIffExplained(h, was, now, scope, claims, PathSet(watch), failClosed, r);
    assert scope + PathSet(watch) == scope;
  }

  /** A report calls itself clean if its verdict is VERIFIED or NO_CLAIMS. With no claims
      at all that happens whatever was found. */
  lemma CleanVerdictIff(r: Report, failClosed: bool, claims: seq<Claim>, before: Snapshots, after: Snapshots)
    requires Reports(r, failClosed, claims, before, after)
    ensures r.verdict in {VERIFIED, NO_CLAIMS} <==> r.findings == [] || claims == []
  {
  }

  /** For example, one watched file that changed, and nobody claiming anything. */
  lemma CleanDespiteChange(h: Hash, path: string, a: Content, b: Content, failClosed: bool, r: Report)
    requires Injective(h) && a != b
    requires
      var before := BeforeIteration(h, map[path := a], [], [path]);
      Reports(r, failClosed, [], before,
              SnapshotFiles(h, map[path := b], AllPaths(before, [], PathSet([path]))))
    ensures r.verdict == NO_CLAIMS && r.findings != [] && r.blocked == failClosed
  {
    IterationCleanIffExplained(h, map[path := a], map[path := b], [], [path], [], failClosed, r);
    var scope := PathSet([] + [path]);
    assert path in scope - Paths([]);
  }

  // ---- What a verdict and a finding mean ----

  /** The claims that are true of the contents the guard knew, and knows now. */
  function TrueClaims(was: Disk, now: Disk, scope: set<string>, claims: seq<Claim>): nat {
    if claims == [] then 0
    else
      var c := Last(claims);
      TrueClaims(was, now, scope, Front(claims))
      + (if Explains(c.action, Known(was, scope, c.path), Look(now, c.path)) then 1 else 0)
  }

  lemma {:induction false} TrueClaimsExtremes(was: Disk, now: Disk, scope: set<string>, claims: seq<Claim>)
    ensures TrueClaims(was, now, scope, claims) > 0
       <==> exists c :: c in claims && Explains(c.action, Known(was, scope, c.path), Look(now, c.path))
  {
    if claims != [] {
      TrueClaimsExtremes(was, now, scope, Front(claims));
      assert claims == Front(claims) + [Last(claims)];
      assert Last(claims) in claims && forall c :: c in Front(claims) ==> c in claims;
    }
  }

  lemma {:induction false} TrueClaimsPass(
      h: Hash, was: Disk, now: Disk, scope: set<string>, claims: seq<Claim>, after: Snapshots)
    requires Injective(h)
    requires forall c :: c in claims ==> Look(after, c.path) == Some(SnapshotFile(h, now, c.path))
    ensures |ClaimFindings(claims, SnapshotFiles(h, was, scope), after)|
         == |claims| - TrueClaims(was, now, scope, claims)
  {
    if claims != [] {
      assert Last(claims) in claims && forall c :: c in Front(claims) ==> c in claims;
      TrueClaimsPass(h, was, now, scope, Front(claims), after);
      ClaimPassesIff(h, was, now, scope, Last(claims));
    }
  }

  lemma VerdictByNumbers(
      r: Report, failClosed: bool, claims: seq<Claim>, before: Snapshots, after: Snapshots, passing: nat)
    requires Reports(r, failClosed, claims, before, after)
    requires |ClaimFindings(claims, before, after)| == |claims| - passing
    ensures r.verdict == NO_CLAIMS <==> claims == []
    ensures r.verdict == VERIFIED <==> claims != [] && r.findings == []
    ensures r.verdict == PARTIAL <==> r.findings != [] && passing > 0
    ensures r.verdict == HALLUCINATION <==> claims != [] && passing == 0
    ensures r.claimsVerified == passing && r.claimsTotal == |claims| && r.claimsFailed == |r.findings|
    ensures r.blocked <==> failClosed && r.findings != []
  {
    ReportParts(r, failClosed, claims, before, after);
    PartSizes(r.findings, ClaimFindings(claims, before, after), DiffFindings(before, after, Paths(claims)));
  }

  /** The verdict of one guarded iteration, from its claims and the contents: PARTIAL if
      something was found and some claim is true, HALLUCINATION if none is. */
  lemma IterationVerdict(
      h: Hash, was: Disk, now: Disk, declared: seq<string>, watch: seq<string>, claims: seq<Claim>,
      failClosed: bool, r: Report)
    requires Injective(h)
    requires
      var before := BeforeIteration(h, was, declared, watch);
      Reports(r, failClosed, claims, before, SnapshotFiles(h, now, AllPaths(before, claims, PathSet(watch))))
    ensures
      var scope := PathSet(declared + watch);
      && (r.verdict == NO_CLAIMS <==> claims == [])
      && (r.verdict == VERIFIED <==> claims != [] && r.findings == [])
      && (r.verdict == PARTIAL <==>
            && r.findings != []
            && exists c :: c in claims && Explains(c.action, Known(was, scope, c.path), Look(now, c.path)))
      && (r.verdict == HALLUCINATION <==>
            && claims != []
            && forall c :: c in claims ==> !Explains(c.action, Known(was, scope, c.path), Look(now, c.path)))
      && r.claimsTotal == |claims| && r.claimsVerified == TrueClaims(was, now, scope, claims)
      && r.claimsFailed == |r.findings| && (r.blocked <==> failClosed && r.findings != [])
  {
    var scope := PathSet(declared + watch);
    var before := BeforeIteration(h, was, declared, watch);
    var after := SnapshotFiles(h, now, AllPaths(before, claims, PathSet(watch)));
    forall c | c in claims ensures Look(after, c.path) == Some(SnapshotFile(h, now, c.path)) {
      assert c.path in Paths(claims);
    }
    TrueClaimsPass(h, was, now, scope, claims, after);
    TrueClaimsExtremes(was, now, scope, claims);
    VerdictByNumbers(r, failClosed, claims, before, after, TrueClaims(was, now, scope, claims));
  }

  /** What an unclaimed path draws, told in contents. */
  predicate Draw(kind: Kind, before: Option<Content>, after: Option<Content>) {
    match kind
    case FILE_NOT_IN_SNAPSHOT => before.Some? && after.Some? && before != after
    case UNEXPECTED_DELETION => before.Some? && after.None?
    case UNEXPECTED_CREATION => before.None? && after.Some?
    case SIZE_MISMATCH =>
      && before.Some? && after.Some? && |before.value| > 0
      && (10 * |after.value| > 11 * |before.value| || 10 * |after.value| < 9 * |before.value|)
    case _ => false
  }

  function HashOf(h: Hash, content: Option<Content>): Option<string> {
    if content.Some? then Some(h(content.value)) else None
  }

  lemma AppliesIffDraw(
      h: Hash, was: Disk, now: Disk, scope: set<string>, after: Snapshots, kind: Kind, p: string)
    requires Injective(h) && p in after && after[p] == SnapshotFile(h, now, p)
    ensures
      var before := SnapshotFiles(h, was, scope);
      var b, a := Known(was, scope, p), Look(now, p);
      && (Applies(kind, p, before, after) <==> Draw(kind, b, a))
      && (Draw(kind, b, a) ==> Mark(kind, p, before, after) == Finding(kind, p, None, HashOf(h, b), HashOf(h, a)))
  {
    if p in scope && p in was && p in now {
      assert h(was[p]) == h(now[p]) <==> was[p] == now[p];
    }
  }

  lemma InDiffIff(before: Snapshots, after: Snapshots, claimed: set<string>, f: Finding)
    requires before.Keys <= after.Keys
    ensures f in DiffFindings(before, after, claimed) <==>
      && f.path in after.Keys - claimed && Applies(f.kind, f.path, before, after)
      && f == Mark(f.kind, f.path, before, after)
  {
    InMarkedIff(FILE_NOT_IN_SNAPSHOT, before.Keys - claimed, before, after, f);
    InMarkedIff(UNEXPECTED_DELETION, before.Keys - claimed, before, after, f);
    InMarkedIff(UNEXPECTED_CREATION, after.Keys - claimed, before, after, f);
    InMarkedIff(SIZE_MISMATCH, before.Keys - claimed, before, after, f);
  }

  lemma InMarkedIff(kind: Kind, paths: set<string>, before: Snapshots, after: Snapshots, f: Finding)
    ensures f in Marked(kind, paths, before, after) <==>
      f.path in paths && Applies(kind, f.path, before, after) && f == Mark(kind, f.path, before, after)
  {
  }

  lemma CountUnclaimed(
      r: Report, failClosed: bool, claims: seq<Claim>, before: Snapshots, after: Snapshots, f: Finding)
    requires Reports(r, failClosed, claims, before, after) && f.claim.None?
    ensures multiset(r.findings)[f] == if f in DiffFindings(before, after, Paths(claims)) then 1 else 0
  {
    ReportParts(r, failClosed, claims, before, after);
    ClaimFindingCounts(claims, before, after, f);
  }

  /** The findings of one guarded iteration that carry no claim: each kind on exactly the
      unclaimed paths in sight that draw it, once, with the hashes of the contents. */
  lemma UnclaimedFindingsExact(
      h: Hash, was: Disk, now: Disk, declared: seq<string>, watch: seq<string>, claims: seq<Claim>,
      failClosed: bool, r: Report, f: Finding)
    requires Injective(h) && f.claim.None?
    requires
      var before := BeforeIteration(h, was, declared, watch);
      Reports(r, failClosed, claims, before, SnapshotFiles(h, now, AllPaths(before, claims, PathSet(watch))))
    ensures
      var b, a := Look(was, f.path), Look(now, f.path);
      multiset(r.findings)[f] ==
        if && f.path in declared + watch && f.path !in Paths(claims)
           && Draw(f.kind, b, a) && f == Finding(f.kind, f.path, None, HashOf(h, b), HashOf(h, a))
        then 1 else 0
  {
    var scope := PathSet(declared + watch);
    var before := BeforeIteration(h, was, declared, watch);
    var after := SnapshotFiles(h, now, AllPaths(before, claims, PathSet(watch)));
    IterationSight(h, was, now, declared, watch, claims);
    CountUnclaimed(r, failClosed, claims, before, after, f);
    InDiffIff(before, after, Paths(claims), f);
    if f.path in after {
      AppliesIffDraw(h, was, now, scope, after, f.kind, f.path);
    }
  }

  /** The finding a claim draws: PHANTOM_FILE where a file it speaks of is missing,
      NO_ACTUAL_CHANGE where both are there and nothing happened to them, and for a claim
      of no change what happened instead. */
  lemma ClaimFindingKind(h: Hash, was: Disk, now: Disk, scope: set<string>, c: Claim)
    requires Injective(h)
    ensures
      var f := CheckClaim(c, Look(SnapshotFiles(h, was, scope), c.path), Some(SnapshotFile(h, now, c.path)));
      var b, a := Known(was, scope, c.path), Look(now, c.path);
      f.Some? ==>
        && f.value.path == c.path && f.value.claim == Some(c)
        && (f.value.kind == PHANTOM_FILE <==>
              || (c.action in {MODIFIED, FIXED, DELETED} && b.None?)
              || (c.action in {MODIFIED, FIXED, CREATED} && a.None?))
        && (f.value.kind == NO_ACTUAL_CHANGE <==>
              c.action != NOOP && b.Some? && a.Some? && (c.action == DELETED || a == b))
        && (f.value.kind == UNEXPECTED_DELETION <==> c.action == NOOP && a.None?)
        && (f.value.kind == FILE_NOT_IN_SNAPSHOT <==> c.action == NOOP && a.Some?)
        && (f.value.kind != PHANTOM_FILE ==> f.value.shaBefore == HashOf(h, b) && f.value.shaAfter == HashOf(h, a))
  {
    if c.path in scope && c.path in was && c.path in now {
      assert h(was[c.path]) == h(now[c.path]) <==> was[c.path] == now[c.path];
    }
  }

  /** The hashes a phantom shows are those of the contents, or empty, or left out. */
  lemma PhantomHashes(h: Hash, was: Disk, now: Disk, scope: set<string>, c: Claim)
    ensures
      var f := CheckClaim(c, Look(SnapshotFiles(h, was, scope), c.path), Some(SnapshotFile(h, now, c.path)));
      var b, a := Known(was, scope, c.path), Look(now, c.path);
      f.Some? && f.value.kind == PHANTOM_FILE ==>
        if c.action in {CREATED, DELETED} then f.value.shaBefore.None? && f.value.shaAfter.None?
        else
          && f.value.shaAfter == HashOf(h, a)
          && f.value.shaBefore ==
               (if a.Some? then None else if b.Some? then HashOf(h, b)
                else if c.path in scope then Some("") else None)
  {
  }

  // ---- Conservation and order ----

  /** The findings that carry a claim. */
  function Carrying(fs: seq<Finding>): seq<Finding> {
    if fs == [] then [] else Carrying(Front(fs)) + (if Last(fs).claim.Some? then [Last(fs)] else [])
  }

  lemma {:induction false} CarryingCounts(fs: seq<Finding>, f: Finding)
    ensures multiset(Carrying(fs))[f] == if f.claim.Some? then multiset(fs)[f] else 0
  {
    if fs != [] {
      CarryingCounts(Front(fs), f);
      assert fs == Front(fs) + [Last(fs)];
    }
  }

  lemma CountLast<T>(s: seq<T>, x: T)
    requires s != []
    ensures multiset(s)[x] == multiset(Front(s))[x] + (if Last(s) == x then 1 else 0)
  {
    assert s == Front(s) + [Last(s)];
  }

  lemma CountOption<T>(s: seq<T>, more: Option<T>, x: T)
    ensures multiset(s + (if more.Some? then [more.value] else []))[x]
         == multiset(s)[x] + (if more == Some(x) then 1 else 0)
  {
  }

  /** The finding that this claim should carry, drawn from these snapshots. */
  predicate Draws(c: Option<Claim>, before: Snapshots, after: Snapshots, f: Finding) {
    c.Some? && CheckClaim(c.value, Look(before, c.value.path), Look(after, c.value.path)) == Some(f)
  }

  /** A claim's own finding: the loop over claims makes it once per copy of the claim. */
  lemma {:induction false} ClaimFindingCounts(
      claims: seq<Claim>, before: Snapshots, after: Snapshots, f: Finding)
    ensures multiset(ClaimFindings(claims, before, after))[f]
         == if Draws(f.claim, before, after, f) then multiset(claims)[f.claim.value] else 0
  {
    if claims != [] {
      var c := Last(claims);
      ClaimFindingCounts(Front(claims), before, after, f);
      FindingCarriesClaim(c, Look(before, c.path), Look(after, c.path));
      CountOption(ClaimFindings(Front(claims), before, after),
                  CheckClaim(c, Look(before, c.path), Look(after, c.path)), f);
      if f.claim.Some? {
        CountLast(claims, f.claim.value);
      }
    }
  }

  lemma FindingCarriesClaim(c: Claim, before: Option<Snapshot>, after: Option<Snapshot>)
    ensures CheckClaim(c, before, after).Some? ==> CheckClaim(c, before, after).value.claim == Some(c)
  {
  }

  lemma DiffsCarryNoClaim(before: Snapshots, after: Snapshots, claimed: set<string>)
    ensures forall d :: d in DiffFindings(before, after, claimed) ==> d.claim.None?
  {
  }

  lemma CarryingAreClaimFindings(
      fs: seq<Finding>, claims: seq<Claim>, before: Snapshots, after: Snapshots, others: set<Finding>)
    requires multiset(fs) == multiset(ClaimFindings(claims, before, after)) + multiset(others)
    requires forall d :: d in others ==> d.claim.None?
    ensures multiset(Carrying(fs)) == multiset(ClaimFindings(claims, before, after))
  {
    forall f ensures multiset(Carrying(fs))[f] == multiset(ClaimFindings(claims, before, after))[f] {
      CarryingCounts(fs, f);
      ClaimFindingCounts(claims, before, after, f);
    }
  }

  lemma PartSizes(fs: seq<Finding>, cf: seq<Finding>, df: set<Finding>)
    requires multiset(fs) == multiset(cf) + multiset(df)
    ensures |fs| == |cf| + |df|
    ensures fs == [] <==> cf == [] && df == {}
  {
    assert |multiset(fs)| == |multiset(cf)| + |multiset(df)|;
    assert |multiset(fs)| == |fs| && |multiset(cf)| == |cf|;
    assert |multiset(df)| == |df|;
  }

  /** Every claim is accounted for once: verified, or carried by exactly one finding.
      (The report's own `claims_failed` counts unclaimed findings too, so it completes
      the total only when there are none.) */
  lemma ClaimsConserved(r: Report, failClosed: bool, claims: seq<Claim>, before: Snapshots, after: Snapshots)
    requires Reports(r, failClosed, claims, before, after)
    ensures r.claimsVerified + |Carrying(r.findings)| == r.claimsTotal
    ensures r.claimsVerified + r.claimsFailed == r.claimsTotal
       <==> DiffFindings(before, after, Paths(claims)) == {}
  {
    var cf, df := ClaimFindings(claims, before, after), DiffFindings(before, after, Paths(claims));
    ReportParts(r, failClosed, claims, before, after);
    DiffsCarryNoClaim(before, after, Paths(claims));
    CarryingAreClaimFindings(r.findings, claims, before, after, df);
    PartSizes(r.findings, cf, df);
    SameLength(Carrying(r.findings), cf);
  }

  lemma PermutedFindings(
      r: Report, q: Report, failClosed: bool, claims: seq<Claim>, permuted: seq<Claim>,
      before: Snapshots, after: Snapshots)
    requires multiset(claims) == multiset(permuted) && Paths(claims) == Paths(permuted)
    requires Reports(r, failClosed, claims, before, after) && Reports(q, failClosed, permuted, before, after)
    ensures multiset(q.findings) == multiset(r.findings)
    ensures |ClaimFindings(claims, before, after)| == |ClaimFindings(permuted, before, after)|
  {
    ReportParts(r, failClosed, claims, before, after);
    ReportParts(q, failClosed, permuted, before, after);
    ClaimFindingsPermuted(claims, permuted, before, after);
    SameLength(ClaimFindings(claims, before, after), ClaimFindings(permuted, before, after));
  }

  /** The rest of a report is fixed by how many findings it has and how many carry a claim. */
  lemma SameNumbers(
      r: Report, q: Report, failClosed: bool, claims: seq<Claim>, permuted: seq<Claim>,
      before: Snapshots, after: Snapshots)
    requires Reports(r, failClosed, claims, before, after) && Reports(q, failClosed, permuted, before, after)
    requires |claims| == |permuted| && |r.findings| == |q.findings|
    requires |ClaimFindings(claims, before, after)| == |ClaimFindings(permuted, before, after)|
    ensures q == r.(findings := q.findings)
  {
    assert r.findings == [] <==> q.findings == [];
  }

  /** Permuting the claims changes nothing but the order of the findings. */
  lemma OrderIndependent(
      h: Hash, disk: Disk, before: Snapshots, watch: set<string>, failClosed: bool,
      claims: seq<Claim>, permuted: seq<Claim>, r: Report, q: Report)
    requires multiset(claims) == multiset(permuted)
    requires Reports(r, failClosed, claims, before, SnapshotFiles(h, disk, AllPaths(before, claims, watch)))
    requires Reports(q, failClosed, permuted, before, SnapshotFiles(h, disk, AllPaths(before, permuted, watch)))
    ensures multiset(q.findings) == multiset(r.findings)
    ensures q == r.(findings := q.findings)
  {
    SamePaths(claims, permuted);
    var after := SnapshotFiles(h, disk, AllPaths(before, claims, watch));
    PermutedFindings(r, q, failClosed, claims, permuted, before, after);
    SameLength(claims, permuted);
    SameLength(r.findings, q.findings);
    SameNumbers(r, q, failClosed, claims, permuted, before, after);
  }

  lemma ClaimFindingsPermuted(claims: seq<Claim>, permuted: seq<Claim>, before: Snapshots, after: Snapshots)
    requires multiset(claims) == multiset(permuted)
    ensures multiset(ClaimFindings(claims, before, after)) == multiset(ClaimFindings(permuted, before, after))
  {
    var cf, cq := ClaimFindings(claims, before, after), ClaimFindings(permuted, before, after);
    forall f ensures multiset(cf)[f] == multiset(cq)[f] {
      ClaimFindingCounts(claims, before, after, f);
      ClaimFindingCounts(permuted, before, after, f);
    }
  }

  lemma SamePaths(claims: seq<Claim>, permuted: seq<Claim>)
    requires multiset(claims) == multiset(permuted)
    ensures Paths(claims) == Paths(permuted)
  {
    assert forall c :: c in claims <==> c in multiset(claims);
    assert forall c :: c in permuted <==> c in multiset(permuted);
  }

  // ---- More paths to watch ----

  /** With the snapshots fixed, watching more paths never removes a finding, and what it
      adds are creations on new, unclaimed paths that exist. */
  lemma WatchingMoreOnlyAdds(
      h: Hash, disk: Disk, before: Snapshots, claims: seq<Claim>, watch: set<string>, more: set<string>)
    ensures
      var a := SnapshotFiles(h, disk, AllPaths(before, claims, watch));
      var b := SnapshotFiles(h, disk, AllPaths(before, claims, watch + more));
      && ClaimFindings(claims, before, a) == ClaimFindings(claims, before, b)
      && DiffFindings(before, b, Paths(claims))
           == DiffFindings(before, a, Paths(claims))
              + Marked(UNEXPECTED_CREATION, more - before.Keys - Paths(claims), before, b)
  {
    var a := SnapshotFiles(h, disk, AllPaths(before, claims, watch));
    var b := SnapshotFiles(h, disk, AllPaths(before, claims, watch + more));
    SameFindings(claims, before, before, a, b);
    var known, claimed := before.Keys - Paths(claims), Paths(claims);
    SameMarks(FILE_NOT_IN_SNAPSHOT, known, before, before, a, b);
    SameMarks(UNEXPECTED_DELETION, known, before, before, a, b);
    SameMarks(SIZE_MISMATCH, known, before, before, a, b);
    SameMarks(UNEXPECTED_CREATION, a.Keys - claimed, before, before, a, b);
    var added := more - before.Keys - claimed;
    MarksUnion(UNEXPECTED_CREATION, a.Keys - claimed, added, before, b);
    MarksUnion(UNEXPECTED_CREATION, (a.Keys - claimed) + added, more * before.Keys - claimed, before, b);
    assert b.Keys - claimed == (a.Keys - claimed) + added + (more * before.Keys - claimed);
    MarksUnion(UNEXPECTED_CREATION, a.Keys - claimed, more * before.Keys - claimed, before, b);
    assert (a.Keys - claimed) + (more * before.Keys - claimed) == a.Keys - claimed;
  }

  lemma MarksUnion(kind: Kind, p: set<string>, q: set<string>, before: Snapshots, after: Snapshots)
    ensures Marked(kind, p + q, before, after) == Marked(kind, p, before, after) + Marked(kind, q, before, after)
  {
  }

  lemma SameMarks(
      kind: Kind, paths: set<string>, b1: Snapshots, b2: Snapshots, a1: Snapshots, a2: Snapshots)
    requires forall p :: p in paths ==> Look(b1, p) == Look(b2, p) && Look(a1, p) == Look(a2, p)
    ensures Marked(kind, paths, b1, a1) == Marked(kind, paths, b2, a2)
  {
  }

  lemma {:induction false} SameFindings(
      claims: seq<Claim>, b1: Snapshots, b2: Snapshots, a1: Snapshots, a2: Snapshots)
    requires forall c :: c in claims ==> Look(b1, c.path) == Look(b2, c.path) && Look(a1, c.path) == Look(a2, c.path)
    ensures ClaimFindings(claims, b1, a1) == ClaimFindings(claims, b2, a2)
  {
    if claims != [] {
      assert Last(claims) in claims;
      SameFindings(Front(claims), b1, b2, a1, a2);
    }
  }

  /** Around the guard, though, a watched path is snapshotted as well. Then a claim on a
      path not in scope before can turn from a finding into a verified one: exactly a
      true modification or deletion of an existing file. */
  lemma WatchingClearsClaimIff(h: Hash, was: Disk, now: Disk, scope: set<string>, c: Claim)
    requires Injective(h) && c.path !in scope
    ensures
      var after := Some(SnapshotFile(h, now, c.path));
      (&& CheckClaim(c, Look(SnapshotFiles(h, was, scope), c.path), after).Some?
       && CheckClaim(c, Look(SnapshotFiles(h, was, scope + {c.path}), c.path), after).None?)
      <==>
      (&& c.path in was
       && (if c.action in {MODIFIED, FIXED} then c.path in now && was[c.path] != now[c.path]
           else c.action == DELETED && c.path !in now))
  {
    ClaimPassesIff(h, was, now, scope, c);
    ClaimPassesIff(h, was, now, scope + {c.path}, c);
  }

  /** With more in sight around the guard, no finding about an unclaimed path goes away. */
  lemma GuardDiffsKept(
      h: Hash, was: Disk, now: Disk, scope: set<string>, more: set<string>, claims: seq<Claim>)
    ensures
      var b1, b2 := SnapshotFiles(h, was, scope), SnapshotFiles(h, was, scope + more);
      var a1 := SnapshotFiles(h, now, scope + Paths(claims));
      var a2 := SnapshotFiles(h, now, scope + more + Paths(claims));
      DiffFindings(b1, a1, Paths(claims)) <= DiffFindings(b2, a2, Paths(claims))
  {
    var b1, b2 := SnapshotFiles(h, was, scope), SnapshotFiles(h, was, scope + more);
    var a1 := SnapshotFiles(h, now, scope + Paths(claims));
    var a2 := SnapshotFiles(h, now, scope + more + Paths(claims));
    var claimed := Paths(claims);
    MoreMarks(FILE_NOT_IN_SNAPSHOT, scope - claimed, scope + more - claimed, b1, b2, a1, a2);
    MoreMarks(UNEXPECTED_DELETION, scope - claimed, scope + more - claimed, b1, b2, a1, a2);
    MoreMarks(SIZE_MISMATCH, scope - claimed, scope + more - claimed, b1, b2, a1, a2);
    MoreMarks(UNEXPECTED_CREATION, a1.Keys - claimed, a2.Keys - claimed, b1, b2, a1, a2);
    assert b1.Keys == scope && b2.Keys == scope + more;
  }

  /** If nobody claims the new paths, the claims' findings are the same as well. */
  lemma GuardWatchingMoreOnlyAdds(
      h: Hash, was: Disk, now: Disk, scope: set<string>, more: set<string>, claims: seq<Claim>)
    requires more !! Paths(claims)
    ensures
      var b1, b2 := SnapshotFiles(h, was, scope), SnapshotFiles(h, was, scope + more);
      var a1 := SnapshotFiles(h, now, scope + Paths(claims));
      var a2 := SnapshotFiles(h, now, scope + more + Paths(claims));
      && ClaimFindings(claims, b1, a1) == ClaimFindings(claims, b2, a2)
      && DiffFindings(b1, a1, Paths(claims)) <= DiffFindings(b2, a2, Paths(claims))
  {
    GuardDiffsKept(h, was, now, scope, more, claims);
    SameFindings(claims, SnapshotFiles(h, was, scope), SnapshotFiles(h, was, scope + more),
                 SnapshotFiles(h, now, scope + Paths(claims)), SnapshotFiles(h, now, scope + more + Paths(claims)));
  }

  lemma MoreMarks(
      kind: Kind, some: set<string>, all: set<string>, b1: Snapshots, b2: Snapshots, a1: Snapshots, a2: Snapshots)
    requires some <= all
    requires forall p :: p in some ==> Look(b1, p) == Look(b2, p) && Look(a1, p) == Look(a2, p)
    ensures Marked(kind, some, b1, a1) <= Marked(kind, all, b2, a2)
  {
    forall p | p in some && Applies(kind, p, b1, a1)
      ensures Mark(kind, p, b1, a1) in Marked(kind, all, b2, a2)
    {
      assert Applies(kind, p, b2, a2) && Mark(kind, p, b1, a1) == Mark(kind, p, b2, a2);
    }
  }

  /** A claim's finding, if any, is drawn under both pairs of snapshots. */
  predicate KeepsFinding(c: Claim, b1: Snapshots, a1: Snapshots, b2: Snapshots, a2: Snapshots) {
    var f := CheckClaim(c, Look(b1, c.path), Look(a1, c.path));
    f.Some? ==> CheckClaim(c, Look(b2, c.path), Look(a2, c.path)) == f
  }

  lemma KeptCounts(claims: seq<Claim>, b1: Snapshots, a1: Snapshots, b2: Snapshots, a2: Snapshots, f: Finding)
    requires f.claim.Some? && f.claim.value in claims ==> KeepsFinding(f.claim.value, b1, a1, b2, a2)
    ensures multiset(ClaimFindings(claims, b1, a1))[f] <= multiset(ClaimFindings(claims, b2, a2))[f]
  {
    ClaimFindingCounts(claims, b1, a1, f);
    ClaimFindingCounts(claims, b2, a2, f);
  }

  lemma ChangedFindingMissing(
      claims: seq<Claim>, b1: Snapshots, a1: Snapshots, b2: Snapshots, a2: Snapshots, c: Claim)
    requires c in claims && !KeepsFinding(c, b1, a1, b2, a2)
    ensures
      var f := CheckClaim(c, Look(b1, c.path), Look(a1, c.path)).value;
      multiset(ClaimFindings(claims, b1, a1))[f] > 0 == multiset(ClaimFindings(claims, b2, a2))[f]
  {
    var f := CheckClaim(c, Look(b1, c.path), Look(a1, c.path)).value;
    FindingCarriesClaim(c, Look(b1, c.path), Look(a1, c.path));
    ClaimFindingCounts(claims, b1, a1, f);
    ClaimFindingCounts(claims, b2, a2, f);
  }

  lemma ClaimFindingsContainedIff(
      claims: seq<Claim>, b1: Snapshots, a1: Snapshots, b2: Snapshots, a2: Snapshots)
    ensures multiset(ClaimFindings(claims, b1, a1)) <= multiset(ClaimFindings(claims, b2, a2))
       <==> forall c :: c in claims ==> KeepsFinding(c, b1, a1, b2, a2)
  {
    var some, all := multiset(ClaimFindings(claims, b1, a1)), multiset(ClaimFindings(claims, b2, a2));
    if forall c :: c in claims ==> KeepsFinding(c, b1, a1, b2, a2) {
      forall f ensures some[f] <= all[f] {
        KeptCounts(claims, b1, a1, b2, a2, f);
      }
    } else {
      var c :| c in claims && !KeepsFinding(c, b1, a1, b2, a2);
      ChangedFindingMissing(claims, b1, a1, b2, a2, c);
    }
  }

  /** Claims whose finding changes when their path comes into sight: it goes away, becomes
      another kind or, of a modified file that is missing now, records another hash. */
  predicate Redrawn(was: Disk, now: Disk, c: Claim) {
    match c.action
    case MODIFIED => c.path in was || c.path !in now
    case FIXED => c.path in was || c.path !in now
    case DELETED => c.path in was
    case _ => false
  }

  lemma KeptIffNotRedrawn(h: Hash, was: Disk, now: Disk, c: Claim)
    ensures
      var after := Some(SnapshotFile(h, now, c.path));
      var f := CheckClaim(c, None, after);
      Redrawn(was, now, c)
      <==> f.Some? && CheckClaim(c, Some(SnapshotFile(h, was, c.path)), after) != f
  {
  }

  lemma SightedClaims(h: Hash, was: Disk, now: Disk, scope: set<string>, more: set<string>, claims: seq<Claim>)
    ensures
      var b1, b2 := SnapshotFiles(h, was, scope), SnapshotFiles(h, was, scope + more);
      var a1 := SnapshotFiles(h, now, scope + Paths(claims));
      var a2 := SnapshotFiles(h, now, scope + more + Paths(claims));
      forall c :: c in claims ==>
        (KeepsFinding(c, b1, a1, b2, a2) <==> !(c.path in more - scope && Redrawn(was, now, c)))
  {
    var b1, b2 := SnapshotFiles(h, was, scope), SnapshotFiles(h, was, scope + more);
    var a1 := SnapshotFiles(h, now, scope + Paths(claims));
    var a2 := SnapshotFiles(h, now, scope + more + Paths(claims));
    forall c | c in claims
      ensures KeepsFinding(c, b1, a1, b2, a2) <==> !(c.path in more - scope && Redrawn(was, now, c))
    {
      assert c.path in Paths(claims);
      KeptIffNotRedrawn(h, was, now, c);
    }
  }

  /** Sums of findings with and without a claim compare part by part. */
  lemma PartsContainedIff(
      all1: multiset<Finding>, all2: multiset<Finding>, cf1: multiset<Finding>, cf2: multiset<Finding>,
      df1: set<Finding>, df2: set<Finding>)
    requires all1 == cf1 + multiset(df1) && all2 == cf2 + multiset(df2)
    requires forall f :: f in cf1 || f in cf2 ==> f.claim.Some?
    requires forall f :: f in df1 || f in df2 ==> f.claim.None?
    ensures all1 <= all2 <==> cf1 <= cf2 && df1 <= df2
  {
    if all1 <= all2 {
      forall f ensures cf1[f] <= cf2[f] {
        assert all1[f] <= all2[f];
      }
      forall f | f in df1 ensures f in df2 {
        assert all1[f] <= all2[f];
      }
    }
  }

  lemma ClaimFindingsCarry(claims: seq<Claim>, before: Snapshots, after: Snapshots)
    ensures forall f :: f in multiset(ClaimFindings(claims, before, after)) ==> f.claim.Some?
  {
    forall f | f in multiset(ClaimFindings(claims, before, after)) ensures f.claim.Some? {
      ClaimFindingCounts(claims, before, after, f);
    }
  }

  lemma ReportContainedIff(
      r: Report, q: Report, failClosed: bool, claims: seq<Claim>,
      b1: Snapshots, a1: Snapshots, b2: Snapshots, a2: Snapshots)
    requires Reports(r, failClosed, claims, b1, a1) && Reports(q, failClosed, claims, b2, a2)
    ensures multiset(r.findings) <= multiset(q.findings)
       <==> && (forall c :: c in claims ==> KeepsFinding(c, b1, a1, b2, a2))
            && DiffFindings(b1, a1, Paths(claims)) <= DiffFindings(b2, a2, Paths(claims))
  {
    ReportParts(r, failClosed, claims, b1, a1);
    ReportParts(q, failClosed, claims, b2, a2);
    ClaimFindingsCarry(claims, b1, a1);
    ClaimFindingsCarry(claims, b2, a2);
    DiffsCarryNoClaim(b1, a1, Paths(claims));
    DiffsCarryNoClaim(b2, a2, Paths(claims));
    ClaimFindingsContainedIff(claims, b1, a1, b2, a2);
    PartsContainedIff(multiset(r.findings), multiset(q.findings),
      multiset(ClaimFindings(claims, b1, a1)), multiset(ClaimFindings(claims, b2, a2)),
      DiffFindings(b1, a1, Paths(claims)), DiffFindings(b2, a2, Paths(claims)));
  }

  lemma SightKeepsFindingsIff(
      h: Hash, was: Disk, now: Disk, scope: set<string>, more: set<string>, claims: seq<Claim>,
      failClosed: bool, r: Report, q: Report)
    requires
      Reports(r, failClosed, claims, SnapshotFiles(h, was, scope), SnapshotFiles(h, now, scope + Paths(claims)))
    requires
      Reports(q, failClosed, claims, SnapshotFiles(h, was, scope + more),
              SnapshotFiles(h, now, scope + more + Paths(claims)))
    ensures multiset(r.findings) <= multiset(q.findings)
       <==> forall c :: c in claims && c.path in more - scope ==> !Redrawn(was, now, c)
  {
    ReportContainedIff(r, q, failClosed, claims,
      SnapshotFiles(h, was, scope), SnapshotFiles(h, now, scope + Paths(claims)),
      SnapshotFiles(h, was, scope + more), SnapshotFiles(h, now, scope + more + Paths(claims)));
    SightedClaims(h, was, now, scope, more, claims);
    GuardDiffsKept(h, was, now, scope, more, claims);
  }

  lemma MoreInSight(declared: seq<string>, watch: seq<string>, more: seq<string>)
    ensures PathSet(declared + (watch + more)) == PathSet(declared + watch) + PathSet(more)
    ensures forall p :: p in PathSet(more) - PathSet(declared + watch) <==> p in more && p !in declared + watch
  {
  }

  lemma IterationSight(h: Hash, was: Disk, now: Disk, declared: seq<string>, watch: seq<string>, claims: seq<Claim>)
    ensures
      var before, scope := BeforeIteration(h, was, declared, watch), PathSet(declared + watch);
      && before == SnapshotFiles(h, was, scope)
      && SnapshotFiles(h, now, AllPaths(before, claims, PathSet(watch)))
           == SnapshotFiles(h, now, scope + Paths(claims))
  {
    var scope := PathSet(declared + watch);
    assert AllPaths(SnapshotFiles(h, was, scope), claims, PathSet(watch)) == scope + Paths(claims);
  }

  /** One guarded iteration, run with some watched files and with more of them: the second
      report has every finding of the first exactly if, among the claims on files that
      only then come into sight, no modification is claimed of a file that existed before
      or is missing now, and no deletion of one that existed. */
  lemma WatchingMoreKeepsFindingsIff(
      h: Hash, was: Disk, now: Disk, declared: seq<string>, watch: seq<string>, more: seq<string>,
      claims: seq<Claim>, failClosed: bool, r: Report, q: Report)
    requires
      var before := BeforeIteration(h, was, declared, watch);
      Reports(r, failClosed, claims, before,
              SnapshotFiles(h, now, AllPaths(before, claims, PathSet(watch))))
    requires
      var before := BeforeIteration(h, was, declared, watch + more);
      Reports(q, failClosed, claims, before,
              SnapshotFiles(h, now, AllPaths(before, claims, PathSet(watch + more))))
    ensures multiset(r.findings) <= multiset(q.findings)
       <==> forall c :: c in claims && c.path in more && c.path !in declared + watch ==> !Redrawn(was, now, c)
  {
    var scope, extra := PathSet(declared + watch), PathSet(more);
    IterationSight(h, was, now, declared, watch, claims);
    IterationSight(h, was, now, declared, watch + more, claims);
    MoreInSight(declared, watch, more);
    SightKeepsFindingsIff(h, was, now, scope, extra, claims, failClosed, r, q);
  }

  /** A modification claimed of an existing, unchanged file: once the file is watched, the
      phantom turns into a missing change. */
  lemma WatchingTradesFinding(h: Hash, path: string, content: Content)
    ensures
      var disk, c := map[path := content], Claim(path, MODIFIED);
      var b1, b2, after := SnapshotFiles(h, disk, {}), SnapshotFiles(h, disk, {path}), SnapshotFiles(h, disk, {path});
      && ClaimFindings([c], b1, after) == [Finding(PHANTOM_FILE, path, Some(c), None, Some(h(content)))]
      && ClaimFindings([c], b2, after)
           == [Finding(NO_ACTUAL_CHANGE, path, Some(c), Some(h(content)), Some(h(content)))]
  {
    assert Front([Claim(path, MODIFIED)]) == [];
  }
}
