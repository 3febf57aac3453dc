/** The daily cost cap: an accumulator that survives restarts and rolls over with the day.
    Days are numbered; the state files are one abstract record per day. */
module BudgetGuard {
  import opened Common

  datatype Config = Config(cap: real, warnAt: real)

  datatype Entry = Entry(agent: string, stage: string, cost: real)

  datatype Daily = Daily(total: real, entries: seq<Entry>, exceeded: bool, warned: bool)

  /** Opening a file for writing empties it, so that a write cut short leaves something no
      longer readable. */
  datatype Stored = Readable(daily: Daily) | Unreadable

  type Disk = map<int, Stored>

  datatype Write = Written | NotOpened | CutShort

  datatype Memory = Memory(today: int, daily: Daily, pipelineCost: real)

  datatype World = World(memory: Memory, disk: Disk)

  /** `ZeroDivision` is the exception of a zero cap, raised after the cost was booked. */
  datatype Outcome = Within | Exceeded | ZeroDivision

  /** `archived` and `saved` say how the write of a rollover and of the record itself went. */
  datatype Event =
    | Record(entry: Entry, day: int, archived: Write, saved: Write)
    | Restart(day: int)

  const NOTHING := Daily(0.0, [], false, false)

  function Save(disk: Disk, m: Memory, write: Write): Disk {
    match write
    case Written => disk[m.today := Readable(m.daily)]
    case NotOpened => disk
    case CutShort => disk[m.today := Unreadable]
  }

  /** What a day's file holds; nothing if it is missing or cannot be read. */
  function Filed(disk: Disk, day: int): Daily {
    if day in disk && disk[day].Readable? then disk[day].daily else NOTHING
  }

  function Load(disk: Disk, day: int): Memory {
    Memory(day, Filed(disk, day), 0.0)
  }

  function RotateDay(w: World, day: int, archived: Write): World {
    World(Memory(day, NOTHING, 0.0), Save(w.disk, w.memory, archived))
  }

  function Book(m: Memory, e: Entry): Memory {
    m.(daily := m.daily.(entries := m.daily.entries + [e], total := m.daily.total + e.cost),
       pipelineCost := m.pipelineCost + e.cost)
  }

  /** The checks behind the save: the flags they set reach the file one record late. */
  function CheckCap(cfg: Config, m: Memory): (Memory, Outcome) {
    if cfg.cap == 0.0 then (m, ZeroDivision)
    else
      var warned := m.daily.warned || m.daily.total / cfg.cap >= cfg.warnAt;
      var over := m.daily.total >= cfg.cap;
      (m.(daily := m.daily.(warned := warned, exceeded := m.daily.exceeded || over)),
       if over then Exceeded else Within)
  }

  function RecordCost(cfg: Config, w: World, e: Entry, day: int, archived: Write, saved: Write): (World, Outcome) {
    var rotated := if day != w.memory.today then RotateDay(w, day, archived) else w;
    var booked := Book(rotated.memory, e);
    var (checked, outcome) := CheckCap(cfg, booked);
    (World(checked, Save(rotated.disk, booked, saved)), outcome)
  }

  function Step(cfg: Config, w: World, e: Event): World {
    match e
    case Record(entry, day, archived, saved) => RecordCost(cfg, w, entry, day, archived, saved).0
    case Restart(day) => World(Load(w.disk, day), w.disk)
  }

  /** A run from an empty directory. */
  function Run(cfg: Config, first: int, es: seq<Event>): World {
    if es == [] then World(Load(map[], first), map[]) else Step(cfg, Run(cfg, first, Front(es)), Last(es))
  }

  /** The state files. */
  class Store {
    var records: Disk

    constructor ()
      ensures records == map[]
    {
      records := map[];
    }
  }

  class Guard {
    const cfg: Config
    const store: Store
    var today: int
    var daily: Daily
    var pipelineCost: real

    function View(): World
      reads this, store
    {
      World(Memory(today, daily, pipelineCost), store.records)
    }

    /** Starting and restarting are the same: load the day's file if it can be read. */
    constructor (cfg: Config, store: Store, day: int)
      ensures this.cfg == cfg && this.store == store
      ensures View() == World(Load(store.records, day), store.records)
    {
      this.cfg := cfg;
      this.store := store;
      today := day;
      daily := NOTHING;
      if day in store.records && store.records[day].Readable? {
        daily := store.records[day].daily;
      }
      pipelineCost := 0.0;
    }

    method SaveDailyState(write: Write)
      modifies store
      ensures store.records == Save(old(store.records), Memory(today, daily, pipelineCost), write)
    {
      if write == NotOpened {
        return;
      }
      store.records := store.records[today := Unreadable];
      if write == Written {
        store.records := store.records[today := Readable(daily)];
      }
    }

    method Rotate(day: int, archived: Write)
      modifies this, store
      ensures View() == RotateDay(old(View()), day, archived)
    {
      SaveDailyState(archived);
      today := day;
      daily := NOTHING;
      pipelineCost := 0.0;
    }

    method Record(e: Entry, day: int, archived: Write, saved: Write) returns (outcome: Outcome)
      modifies this, store
      ensures View() == RecordCost(cfg, old(View()), e, day, archived, saved).0
      ensures outcome == RecordCost(cfg, old(View()), e, day, archived, saved).1
    {
      if day != today {
        Rotate(day, archived);
      }
      daily := daily.(entries := daily.entries + [e], total := daily.total + e.cost);
      pipelineCost := pipelineCost + e.cost;
      SaveDailyState(saved);
      if cfg.cap == 0.0 {
        return ZeroDivision;
      }
      var ratio := daily.total / cfg.cap;
      if ratio >= cfg.warnAt && !daily.warned {
        daily := daily.(warned := true);
      }
      if daily.total >= cfg.cap {
        daily := daily.(exceeded := true);
        return Exceeded;
      }
      return Within;
    }

    method CostBy(key: Entry -> string) returns (costs: map<string, real>)
      ensures Breakdown(costs, daily.entries, key)
    {
      costs := map[];
      var entries := daily.entries;
      for i := 0 to |entries|
        invariant Breakdown(costs, entries[..i], key)
      {
        assert entries[..i + 1] == entries[..i] + [entries[i]];
        BreakdownStep(costs, entries[..i], key, entries[i]);
        costs := Added(costs, key(entries[i]), entries[i].cost);
      }
      assert entries[..|entries|] == entries;
    }

    method GetCostByAgent() returns (costs: map<string, real>)
      ensures Breakdown(costs, daily.entries, AgentOf)
      ensures forall name :: name in costs <==> exists e :: e in daily.entries && e.agent == name
    {
      costs := CostBy(AgentOf);
    }

    method GetCostByStage() returns (costs: map<string, real>)
      ensures Breakdown(costs, daily.entries, StageOf)
      ensures forall name :: name in costs <==> exists e :: e in daily.entries && e.stage == name
    {
      costs := CostBy(StageOf);
    }
  }

  // ---- Sums ----

  function Sum(entries: seq<Entry>): real {
    if entries == [] then 0.0 else Sum(Front(entries)) + Last(entries).cost
  }

  /** What the entries of one name cost. */
  function SumFor(entries: seq<Entry>, key: Entry -> string, name: string): real {
    if entries == [] then 0.0
    else SumFor(Front(entries), key, name) + (if key(Last(entries)) == name then Last(entries).cost else 0.0)
  }

  function AgentOf(e: Entry): string {
    e.agent
  }

  function StageOf(e: Entry): string {
    e.stage
  }

  /** One sum for every name that occurs, and no other; together they are the total. */
  ghost predicate Breakdown(costs: map<string, real>, entries: seq<Entry>, key: Entry -> string) {
    && (forall e :: e in entries ==> key(e) in costs)
    && (forall name :: name in costs ==>
          (exists e :: e in entries && key(e) == name) && costs[name] == SumFor(entries, key, name))
    && MapSum(costs) == Sum(entries)
  }

  /** `costs[name] = costs.get(name, 0) + cost`. */
  function Added(costs: map<string, real>, name: string, cost: real): map<string, real> {
    costs[name := (if name in costs then costs[name] else 0.0) + cost]
  }

  lemma SumForSnoc(entries: seq<Entry>, key: Entry -> string, name: string, e: Entry)
    ensures SumFor(entries + [e], key, name)
         == SumFor(entries, key, name) + (if key(e) == name then e.cost else 0.0)
    ensures Sum(entries + [e]) == Sum(entries) + e.cost
  {
    assert Front(entries + [e]) == entries;
  }

  lemma NamesStep(costs: map<string, real>, entries: seq<Entry>, key: Entry -> string, e: Entry, name: string)
    requires Breakdown(costs, entries, key) && name in Added(costs, key(e), e.cost)
    ensures exists x :: x in entries + [e] && key(x) == name
    ensures Added(costs, key(e), e.cost)[name] == SumFor(entries + [e], key, name)
  {
    SumForSnoc(entries, key, name, e);
    if name in costs {
      var x :| x in entries && key(x) == name;
      assert x in entries + [e];
    } else {
      assert e in entries + [e];
      SumForAbsent(entries, key, name);
    }
  }

  lemma BreakdownStep(costs: map<string, real>, entries: seq<Entry>, key: Entry -> string, e: Entry)
    requires Breakdown(costs, entries, key)
    ensures Breakdown(Added(costs, key(e), e.cost), entries + [e], key)
  {
    MapSumUpdate(costs, key(e), e.cost);
    SumForSnoc(entries, key, key(e), e);
    forall name | name in Added(costs, key(e), e.cost)
      ensures exists x :: x in entries + [e] && key(x) == name
      ensures Added(costs, key(e), e.cost)[name] == SumFor(entries + [e], key, name)
    {
      NamesStep(costs, entries, key, e, name);
    }
  }

  lemma {:induction false} SumForAbsent(entries: seq<Entry>, key: Entry -> string, name: string)
    ensures (forall e :: e in entries ==> key(e) != name) ==> SumFor(entries, key, name) == 0.0
  {
    if entries != [] {
      SumForAbsent(Front(entries), key, name);
      assert entries == Front(entries) + [Last(entries)];
    }
  }

  ghost function MapSum(m: map<string, real>): real {
    if m == map[] then 0.0
    else
      var k :| k in m;
      m[k] + MapSum(m - {k})
  }

  /** The sum does not depend on the order in which the names are taken. */
  lemma {:induction false} MapSumPick(m: map<string, real>, k: string)
    requires k in m
    ensures MapSum(m) == m[k] + MapSum(m - {k})
  {
    var j :| j in m && MapSum(m) == m[j] + MapSum(m - {j});
    if j != k {
      MapSumPick(m - {j}, k);
      MapSumPick(m - {k}, j);
      assert m - {j} - {k} == m - {k} - {j};
    }
  }

  lemma MapSumUpdate(m: map<string, real>, k: string, more: real)
    ensures MapSum(Added(m, k, more)) == MapSum(m) + more
  {
    var updated := Added(m, k, more);
    MapSumPick(updated, k);
    assert updated - {k} == m - {k};
    if k in m {
      MapSumPick(m, k);
    } else {
      assert m - {k} == m;
    }
  }

  // ---- The same run, told by its costs alone ----

  function EntriesOn(es: seq<Event>, day: int): seq<Entry> {
    if es == [] then []
    else
      EntriesOn(Front(es), day)
      + (if Last(es).Record? && Last(es).day == day then [Last(es).entry] else [])
  }

  /** Everything recorded for a day, whatever happened to the process meanwhile. */
  function SpentOn(es: seq<Event>, day: int): real {
    Sum(EntriesOn(es, day))
  }

  function Today(first: int, es: seq<Event>): int {
    if es == [] then first else Last(es).day
  }

  /** Days never run backwards. */
  ghost predicate Orderly(first: int, es: seq<Event>) {
    es == [] || (Orderly(first, Front(es)) && Last(es).day >= Today(first, Front(es)))
  }

  /** The day's latest record, if there is one, reached its file. */
  predicate LatestWritten(es: seq<Event>, day: int) {
    es == [] ||
    if Last(es).Record? && Last(es).day == day then Last(es).saved.Written? else LatestWritten(Front(es), day)
  }

  /** Event `k` is not a restart that finds its day's latest record unwritten. */
  predicate FindsLatest(es: seq<Event>, k: nat)
    requires k < |es|
  {
    es[k].Restart? ==> LatestWritten(es[..k], es[k].day)
  }

  /** Every restart of the day finds the day's latest record. */
  ghost predicate Intact(es: seq<Event>, day: int) {
    forall k :: 0 <= k < |es| && es[k].day == day ==> FindsLatest(es, k)
  }

  lemma IntactStep(es: seq<Event>, day: int)
    requires es != []
    ensures Intact(es, day) <==> Intact(Front(es), day) && (Last(es).day == day ==> FindsLatest(es, |es| - 1))
  {
    forall k | 0 <= k < |es| - 1 ensures FindsLatest(Front(es), k) <==> FindsLatest(es, k) {
      assert Front(es)[..k] == es[..k];
    }
  }

  lemma {:induction false} NothingAhead(first: int, es: seq<Event>, day: int)
    requires Orderly(first, es) && day > Today(first, es)
    ensures EntriesOn(es, day) == [] && LatestWritten(es, day) && Intact(es, day)
  {
    if es != [] {
      NothingAhead(first, Front(es), day);
      IntactStep(es, day);
    }
  }

  /** Totals are sums, the file has no more entries than the memory, and no later day has
      a file. */
  ghost predicate Ledger(w: World) {
    var m, filed := w.memory.daily, Filed(w.disk, w.memory.today);
    && m.total == Sum(m.entries) && filed.total == Sum(filed.entries)
    && |filed.entries| <= |m.entries|
    && (forall d :: d in w.disk ==> d <= w.memory.today)
  }

  /** What memory and file know of `all` the day's entries, by whether every restart found
      the latest record and whether the latest is written. */
  ghost predicate Books(w: World, all: seq<Entry>, intact: bool, written: bool) {
    var m, filed := w.memory.daily, Filed(w.disk, w.memory.today);
    && Ledger(w)
    && (if intact then m.entries == all else |m.entries| < |all|)
    && (intact ==> if written then filed.entries == all else |filed.entries| < |all|)
  }

  lemma FiledAfterSave(disk: Disk, m: Memory, write: Write)
    ensures Filed(Save(disk, m, write), m.today) ==
      match write
      case Written => m.daily
      case NotOpened => Filed(disk, m.today)
      case CutShort => NOTHING
  {
  }

  /** The day's record that the next entry is added to. */
  function Base(w: World, day: int): Daily {
    if day == w.memory.today then w.memory.daily else NOTHING
  }

  /** What a record leaves of the books, whatever the cap says. */
  lemma RecordBooks(cfg: Config, w: World, e: Event)
    requires e.Record?
    ensures
      var t, base := Step(cfg, w, e), Base(w, e.day);
      && t.memory.today == e.day
      && t.memory.daily.entries == base.entries + [e.entry]
      && t.memory.daily.total == base.total + e.entry.cost
      && (forall d :: d in t.disk ==> d in w.disk || d == e.day || d == w.memory.today)
  {
  }

  lemma RecordFile(cfg: Config, w: World, e: Event)
    requires e.Record?
    ensures
      var filed, base := Filed(Step(cfg, w, e).disk, e.day), Base(w, e.day);
      match e.saved
      case Written =>
        && filed.entries == base.entries + [e.entry] && filed.total == base.total + e.entry.cost
        && filed.exceeded == base.exceeded && filed.warned == base.warned
      case NotOpened => filed == Filed(w.disk, e.day)
      case CutShort => filed == NOTHING
  {
    var rotated := if e.day != w.memory.today then RotateDay(w, e.day, e.archived) else w;
    FiledAfterSave(rotated.disk, Book(rotated.memory, e.entry), e.saved);
  }

  lemma SumSnoc(entries: seq<Entry>, e: Entry)
    ensures Sum(entries + [e]) == Sum(entries) + e.cost
  {
    assert Front(entries + [e]) == entries;
  }

  lemma RecordKeepsLedger(cfg: Config, w: World, e: Event)
    requires e.Record? && Ledger(w) && e.day >= w.memory.today
    ensures Ledger(Step(cfg, w, e))
  {
    RecordBooks(cfg, w, e);
    RecordFile(cfg, w, e);
    SumSnoc(Base(w, e.day).entries, e.entry);
  }

  lemma RecordKeepsBooks(cfg: Config, w: World, all: seq<Entry>, intact: bool, written: bool, e: Event)
    requires e.Record? && Books(w, all, intact, written) && e.day == w.memory.today
    ensures Books(Step(cfg, w, e), all + [e.entry], intact, e.saved.Written?)
  {
    RecordKeepsLedger(cfg, w, e);
    RecordBooks(cfg, w, e);
    RecordFile(cfg, w, e);
  }

  lemma RecordOpensBooks(cfg: Config, w: World, e: Event)
    requires e.Record? && Ledger(w) && e.day > w.memory.today
    ensures Books(Step(cfg, w, e), [] + [e.entry], true, e.saved.Written?)
  {
    RecordKeepsLedger(cfg, w, e);
    RecordBooks(cfg, w, e);
    RecordFile(cfg, w, e);
  }

  lemma RestartKeepsBooks(cfg: Config, w: World, all: seq<Entry>, intact: bool, written: bool, e: Event)
    requires e.Restart? && Books(w, all, intact, written) && e.day == w.memory.today
    ensures Books(Step(cfg, w, e), all, intact && written, written)
  {
  }

  lemma RestartOpensBooks(cfg: Config, w: World, e: Event)
    requires e.Restart? && Ledger(w) && e.day > w.memory.today
    ensures Books(Step(cfg, w, e), [], true, true)
  {
  }

  lemma EventKeepsBooks(cfg: Config, w: World, all: seq<Entry>, intact: bool, written: bool, e: Event)
    requires Books(w, all, intact, written) && e.day >= w.memory.today
    ensures
      var sameDay := e.day == w.memory.today;
      var before := if sameDay then all else [];
      Books(Step(cfg, w, e), before + (if e.Record? then [e.entry] else []),
            !sameDay || (intact && (e.Restart? ==> written)),
            if e.Record? then e.saved.Written? else !sameDay || written)
    ensures Step(cfg, w, e).memory.today == e.day
  {
    assert all + [] == all;
    if e.day == w.memory.today {
      if e.Record? {
        RecordKeepsBooks(cfg, w, all, intact, written, e);
      } else {
        RestartKeepsBooks(cfg, w, all, intact, written, e);
      }
    } else if e.Record? {
      RecordOpensBooks(cfg, w, e);
    } else {
      RestartOpensBooks(cfg, w, e);
    }
    if e.Record? {
      RecordBooks(cfg, w, e);
    }
  }

  /** Over restarts, rollovers and writes that end in any way: what memory and today's
      file hold of today's entries. */
  lemma {:induction false} RunKeepsBooks(cfg: Config, first: int, es: seq<Event>)
    requires Orderly(first, es)
    ensures
      var day := Today(first, es);
      && Run(cfg, first, es).memory.today == day
      && Books(Run(cfg, first, es), EntriesOn(es, day), Intact(es, day), LatestWritten(es, day))
  {
    if es != [] {
      var before, e := Front(es), Last(es);
      var was := Today(first, before);
      RunKeepsBooks(cfg, first, before);
      IntactStep(es, e.day);
      if e.day > was {
        NothingAhead(first, before, e.day);
      }
      EventKeepsBooks(cfg, Run(cfg, first, before), EntriesOn(before, was),
                      Intact(before, was), LatestWritten(before, was), e);
    }
  }

  /** The guard knows all of today's spending exactly if every restart today found the
      latest record before it written. A failed write repaired in time does no harm. */
  lemma EntriesKeptIff(cfg: Config, first: int, es: seq<Event>)
    requires Orderly(first, es)
    ensures
      var day, daily := Today(first, es), Run(cfg, first, es).memory.daily;
      && (daily.entries == EntriesOn(es, day) <==> Intact(es, day))
      && (Intact(es, day) ==> daily.total == SpentOn(es, day))
  {
    RunKeepsBooks(cfg, first, es);
  }

  /** What a restart finds after one last record, by the fate of its write: all that memory
      held, what it would have found before the record, or nothing. */
  lemma RestartAfterWrite(cfg: Config, first: int, es: seq<Event>, e: Event)
    requires e.Record?
    ensures
      var found := Run(cfg, first, es + [e] + [Restart(e.day)]).memory.daily;
      match e.saved
      case Written =>
        var held := Run(cfg, first, es + [e]).memory.daily;
        found.entries == held.entries && found.total == held.total
      case NotOpened => found == Run(cfg, first, es + [Restart(e.day)]).memory.daily
      case CutShort => found == NOTHING
  {
    var w := Run(cfg, first, es);
    assert Front(es + [e] + [Restart(e.day)]) == es + [e] && Front(es + [e]) == es;
    assert Front(es + [Restart(e.day)]) == es;
    RecordBooks(cfg, w, e);
    RecordFile(cfg, w, e);
  }

  /** One cost not saved, a restart, one saved, a restart: only the second is known, although
      the latest record was written. */
  lemma EarlierFailureStillLoses(cfg: Config, day: int, a: Entry, b: Entry)
    ensures
      var es := [] + [Record(a, day, Written, NotOpened)] + [Restart(day)]
                   + [Record(b, day, Written, Written)] + [Restart(day)];
      && Run(cfg, day, es).memory.daily.entries == [b] && EntriesOn(es, day) == [a, b]
      && LatestWritten(es, day) && !Intact(es, day)
  {
    var r, q, again := Record(a, day, Written, NotOpened), Record(b, day, Written, Written), Restart(day);
    var e1 := [] + [r];
    var e2 := e1 + [again];
    var e3 := e2 + [q];
    var e4 := e3 + [again];
    assert Front(e1) == [] && Front(e2) == e1 && Front(e3) == e2 && Front(e4) == e3;
    assert EntriesOn(e1, day) == [] + [a];
    assert EntriesOn(e2, day) == EntriesOn(e1, day) + [];
    assert EntriesOn(e3, day) == [a] + [b] == [a, b];
    assert EntriesOn(e4, day) == EntriesOn(e3, day) + [];
    assert e4[..1] == e1 && !FindsLatest(e4, 1);
    var w0 := Run(cfg, day, []);
    var w1 := Step(cfg, w0, r);
    assert Run(cfg, day, e1) == w1;
    RecordFile(cfg, w0, r);
    var w2 := Step(cfg, w1, again);
    assert Run(cfg, day, e2) == w2 && w2.memory.daily == NOTHING;
    RecordBooks(cfg, w2, q);
    RecordFile(cfg, w2, q);
    assert Run(cfg, day, e3) == Step(cfg, w2, q) && [] + [b] == [b];
  }

  /** What was recorded since the process started or the day changed, by whichever came
      later. */
  function CostSinceStart(first: int, es: seq<Event>): real {
    if es == [] || Last(es).Restart? then 0.0
    else
      (if Last(es).day == Today(first, Front(es)) then CostSinceStart(first, Front(es)) else 0.0)
      + Last(es).entry.cost
  }

  lemma {:induction false} PipelineCostExact(cfg: Config, first: int, es: seq<Event>)
    ensures Run(cfg, first, es).memory.pipelineCost == CostSinceStart(first, es)
    ensures Run(cfg, first, es).memory.today == Today(first, es)
  {
    if es != [] {
      PipelineCostExact(cfg, first, Front(es));
      if Last(es).Record? {
        RecordBooks(cfg, Run(cfg, first, Front(es)), Last(es));
      }
    }
  }

  /** The first record of a new day saves the old one once more, flags included, as its
      write goes; and a day that is over keeps its file whatever happens later. */
  lemma RolloverArchives(cfg: Config, first: int, es: seq<Event>, e: Event)
    requires Orderly(first, es) && e.Record? && e.day > Today(first, es)
    ensures
      var day := Today(first, es);
      Filed(Run(cfg, first, es + [e]).disk, day) ==
        match e.archived
        case Written => Run(cfg, first, es).memory.daily
        case NotOpened => Filed(Run(cfg, first, es).disk, day)
        case CutShort => NOTHING
  {
    assert Front(es + [e]) == es;
    RunKeepsBooks(cfg, first, es);
  }

  lemma OtherFilesStay(cfg: Config, w: World, e: Event, day: int)
    requires day != w.memory.today && day != e.day
    ensures Filed(Step(cfg, w, e).disk, day) == Filed(w.disk, day)
  {
  }

  lemma {:induction false} PastFilesStay(cfg: Config, first: int, es: seq<Event>, more: seq<Event>, day: int)
    requires Orderly(first, es + more) && day < Today(first, es)
    ensures Filed(Run(cfg, first, es + more).disk, day) == Filed(Run(cfg, first, es).disk, day)
    ensures Today(first, es + more) >= Today(first, es)
  {
    if more == [] {
      assert es + more == es;
    } else {
      var before := es + Front(more);
      assert Front(es + more) == before;
      PastFilesStay(cfg, first, es, Front(more), day);
      PipelineCostExact(cfg, first, before);
      OtherFilesStay(cfg, Run(cfg, first, before), Last(more), day);
    }
  }

  function Result(cfg: Config, first: int, es: seq<Event>, e: Event): Outcome
    requires e.Record?
  {
    RecordCost(cfg, Run(cfg, first, es), e.entry, e.day, e.archived, e.saved).1
  }

  /** The verdict that the day's spending deserves. */
  function Deserved(cfg: Config, spent: real): Outcome {
    if cfg.cap == 0.0 then ZeroDivision else if spent >= cfg.cap then Exceeded else Within
  }

  lemma ResultByTotal(cfg: Config, w: World, e: Event)
    requires e.Record?
    ensures RecordCost(cfg, w, e.entry, e.day, e.archived, e.saved).1
         == Deserved(cfg, Step(cfg, w, e).memory.daily.total)
  {
  }

  /** Whatever restarts, rollovers and harmless failures came before, a record is answered
      by what has been recorded for its day so far, itself included. */
  lemma ResultIsDeserved(cfg: Config, first: int, es: seq<Event>, e: Event)
    requires e.Record? && Orderly(first, es + [e]) && Intact(es + [e], e.day)
    ensures Result(cfg, first, es, e) == Deserved(cfg, SpentOn(es + [e], e.day))
  {
    assert Front(es + [e]) == es;
    ResultByTotal(cfg, Run(cfg, first, es), e);
    EntriesKeptIff(cfg, first, es + [e]);
  }

  /** The results of a run, record by record. */
  function Results(cfg: Config, first: int, es: seq<Event>): seq<Outcome> {
    if es == [] then []
    else
      Results(cfg, first, Front(es))
      + (if Last(es).Record? then [Result(cfg, first, Front(es), Last(es))] else [])
  }

  /** The same run on a guard that never stops. */
  function Uninterrupted(es: seq<Event>): seq<Event> {
    if es == [] then [] else Uninterrupted(Front(es)) + (if Last(es).Record? then [Last(es)] else [])
  }

  lemma {:induction false} UninterruptedSpends(es: seq<Event>, day: int)
    ensures EntriesOn(Uninterrupted(es), day) == EntriesOn(es, day)
  {
    if es != [] {
      UninterruptedSpends(Front(es), day);
      assert Uninterrupted(Front(es)) + [] == Uninterrupted(Front(es));
      if Last(es).Record? {
        assert Front(Uninterrupted(es)) == Uninterrupted(Front(es));
      }
    }
  }

  lemma {:induction false} UninterruptedOrderly(first: int, es: seq<Event>)
    requires Orderly(first, es)
    ensures Orderly(first, Uninterrupted(es)) && Today(first, Uninterrupted(es)) <= Today(first, es)
    ensures forall e :: e in Uninterrupted(es) ==> e.Record?
  {
    if es != [] {
      UninterruptedOrderly(first, Front(es));
      assert Uninterrupted(Front(es)) + [] == Uninterrupted(Front(es));
      if Last(es).Record? {
        assert Front(Uninterrupted(es)) == Uninterrupted(Front(es));
      }
    }
  }

  lemma RecordsAlwaysIntact(es: seq<Event>, day: int)
    requires forall e :: e in es ==> e.Record?
    ensures Intact(es, day)
  {
    forall k | 0 <= k < |es| ensures FindsLatest(es, k) {
      assert es[k] in es;
    }
  }

  /** Every restart finds its day's latest record, on every day. */
  ghost predicate AllIntact(es: seq<Event>) {
    forall k :: 0 <= k < |es| ==> FindsLatest(es, k)
  }

  lemma AllIntactFront(es: seq<Event>)
    requires es != [] && AllIntact(es)
    ensures AllIntact(Front(es))
  {
    forall k | 0 <= k < |es| - 1 ensures FindsLatest(Front(es), k) {
      assert Front(es)[..k] == es[..k] && FindsLatest(es, k);
    }
  }

  lemma UninterruptedSnoc(es: seq<Event>)
    requires es != []
    ensures Uninterrupted(es) == Uninterrupted(Front(es)) + (if Last(es).Record? then [Last(es)] else [])
  {
  }

  lemma SameAnswer(cfg: Config, first: int, es: seq<Event>)
    requires es != [] && Last(es).Record? && Orderly(first, es) && AllIntact(es)
    ensures Result(cfg, first, Front(es), Last(es)) == Result(cfg, first, Uninterrupted(Front(es)), Last(es))
  {
    var e, calm := Last(es), Uninterrupted(Front(es));
    assert es == Front(es) + [e];
    UninterruptedOrderly(first, es);
    UninterruptedSpends(es, e.day);
    UninterruptedSnoc(es);
    RecordsAlwaysIntact(calm + [e], e.day);
    ResultIsDeserved(cfg, first, Front(es), e);
    ResultIsDeserved(cfg, first, calm, e);
  }

  /** Then restarts are invisible in the results, over any number of days. */
  lemma {:induction false} RestartsTransparent(cfg: Config, first: int, es: seq<Event>)
    requires Orderly(first, es) && AllIntact(es)
    ensures Results(cfg, first, es) == Results(cfg, first, Uninterrupted(es))
  {
    if es != [] {
      var calm := Uninterrupted(Front(es));
      AllIntactFront(es);
      RestartsTransparent(cfg, first, Front(es));
      UninterruptedSnoc(es);
      if Last(es).Record? {
        SameAnswer(cfg, first, es);
        assert Front(calm + [Last(es)]) == calm;
      } else {
        assert calm + [] == calm;
      }
    }
  }

  /** And in the day's total and entries, exactly if no restart today lost any - unless the
      restart itself was the first to see a new day: the running guard notices that at its
      next record. */
  lemma TotalsTransparent(cfg: Config, first: int, es: seq<Event>)
    requires Orderly(first, es) && Today(first, Uninterrupted(es)) == Today(first, es)
    ensures
      var day := Today(first, es);
      var a, b := Run(cfg, first, es).memory.daily, Run(cfg, first, Uninterrupted(es)).memory.daily;
      && (a.entries == b.entries <==> Intact(es, day))
      && (Intact(es, day) ==> a.total == b.total == SpentOn(es, day))
  {
    UninterruptedOrderly(first, es);
    UninterruptedSpends(es, Today(first, es));
    RecordsAlwaysIntact(Uninterrupted(es), Today(first, es));
    EntriesKeptIff(cfg, first, es);
    EntriesKeptIff(cfg, first, Uninterrupted(es));
  }

  ghost predicate NoRefunds(es: seq<Event>) {
    forall e :: e in es && e.Record? ==> e.entry.cost >= 0.0
  }

  lemma {:induction false} SpendingGrows(es: seq<Event>, more: seq<Event>, day: int)
    requires NoRefunds(es + more)
    ensures SpentOn(es + more, day) >= SpentOn(es, day)
  {
    if more == [] {
      assert es + more == es;
    } else {
      assert Front(es + more) == es + Front(more);
      assert Last(es + more) in es + more;
      assert es + more == (es + Front(more)) + [Last(more)];
      assert forall e :: e in es + Front(more) ==> e in es + more;
      SpendingGrows(es, Front(more), day);
      var entries := EntriesOn(es + Front(more), day);
      assert entries + [] == entries;
      if Last(more).Record? {
        assert Front(entries + [Last(more).entry]) == entries;
      }
    }
  }

  lemma RefusedIffSpent(cfg: Config, first: int, es: seq<Event>)
    requires es != [] && Last(es).Record? && Orderly(first, es) && Intact(es, Last(es).day)
    ensures Result(cfg, first, Front(es), Last(es)) == Exceeded
       <==> cfg.cap != 0.0 && SpentOn(es, Last(es).day) >= cfg.cap
  {
    assert es == Front(es) + [Last(es)];
    ResultIsDeserved(cfg, first, Front(es), Last(es));
  }

  lemma IntactPrefix(es: seq<Event>, more: seq<Event>, day: int)
    requires Intact(es + more, day)
    ensures Intact(es, day)
  {
    var all := es + more;
    forall k | 0 <= k < |es| && es[k].day == day ensures FindsLatest(es, k) {
      assert all[k] == es[k] && all[..k] == es[..k] && FindsLatest(all, k);
    }
  }

  /** With costs that are never negative and none lost, once a record of a day is refused
      every later record of that day is refused too. Both runs end with the record in
      question. */
  lemma RefusalsPersist(cfg: Config, first: int, es: seq<Event>, more: seq<Event>)
    requires es != [] && Last(es).Record? && more != [] && Last(more).Record? && Last(more).day == Last(es).day
    requires Orderly(first, es) && Orderly(first, es + more) && NoRefunds(es + more)
    requires Intact(es + more, Last(es).day)
    requires Result(cfg, first, Front(es), Last(es)) == Exceeded
    ensures Result(cfg, first, Front(es + more), Last(es + more)) == Exceeded
  {
    IntactPrefix(es, more, Last(es).day);
    RefusedIffSpent(cfg, first, es);
    RefusedIffSpent(cfg, first, es + more);
    SpendingGrows(es, more, Last(es).day);
  }

  // ---- The flag that is saved one record late ----

  /** Event `k` is a record of this day that was refused. */
  predicate Refused(cfg: Config, first: int, es: seq<Event>, day: int, k: nat)
    requires k < |es|
  {
    es[k].Record? && es[k].day == day && Result(cfg, first, es[..k], es[k]) == Exceeded
  }

  /** The two flags of a day's record. */
  datatype Flag = EXCEEDED | WARNED

  predicate Up(d: Daily, flag: Flag) {
    if flag == EXCEEDED then d.exceeded else d.warned
  }

  /** A total that is warned of: a share of the cap of at least the threshold, in products. */
  predicate Warns(cfg: Config, total: real) {
    (cfg.cap > 0.0 && total >= cfg.warnAt * cfg.cap) || (cfg.cap < 0.0 && total <= cfg.warnAt * cfg.cap)
  }

  lemma WarnsIffShare(cfg: Config, total: real)
    requires cfg.cap != 0.0
    ensures Warns(cfg, total) <==> total / cfg.cap >= cfg.warnAt
  {
    if cfg.cap > 0.0 {
      ShareAtLeast(total, cfg.cap, cfg.warnAt);
    } else {
      ShareAtLeast(-total, -cfg.cap, cfg.warnAt);
      assert -total / -cfg.cap == total / cfg.cap;
    }
  }

  lemma ShareAtLeast(total: real, cap: real, warnAt: real)
    requires cap > 0.0
    ensures total / cap >= warnAt <==> total >= warnAt * cap
  {
    if total / cap < warnAt {
      ShareBelow(total, cap, warnAt);
    }
  }

  lemma ShareBelow(total: real, cap: real, warnAt: real)
    requires cap > 0.0 && total / cap < warnAt
    ensures total < warnAt * cap
  {
  }

  /** Event `k` is a record of this day that was refused, or that reached the warning. */
  predicate Marks(cfg: Config, flag: Flag, first: int, es: seq<Event>, day: int, k: nat)
    requires k < |es|
  {
    if flag == EXCEEDED then Refused(cfg, first, es, day, k)
    else Warned(cfg, first, es, day, k)
  }

  predicate MarksLast(cfg: Config, flag: Flag, w: World, e: Event)
    requires e.Record?
  {
    if flag == EXCEEDED then RecordCost(cfg, w, e.entry, e.day, e.archived, e.saved).1 == Exceeded
    else Warns(cfg, Step(cfg, w, e).memory.daily.total)
  }

  /** The day's file holds a write that came after event `k`. */
  predicate HoldsLater(es: seq<Event>, day: int, k: nat) {
    |es| > k + 1 &&
    if Last(es).Record? && Last(es).day == day && !Last(es).saved.NotOpened? then Last(es).saved.Written?
    else HoldsLater(Front(es), day, k)
  }

  /** Every restart of the day after event `k` finds such a write. */
  predicate Survives(es: seq<Event>, day: int, k: nat)
    requires k < |es|
  {
    |es| == k + 1 ||
    (&& Survives(Front(es), day, k)
     && (Last(es).Restart? && Last(es).day == day ==> HoldsLater(Front(es), day, k)))
  }

  /** A mark of this day that memory still has. */
  predicate FlagKept(cfg: Config, flag: Flag, first: int, es: seq<Event>, day: int, k: nat)
    requires k < |es|
  {
    Marks(cfg, flag, first, es, day, k) && Survives(es, day, k)
  }

  ghost predicate MemoryFlag(cfg: Config, flag: Flag, first: int, es: seq<Event>, day: int) {
    exists k :: 0 <= k < |es| && FlagKept(cfg, flag, first, es, day, k)
  }

  ghost predicate FileFlag(cfg: Config, flag: Flag, first: int, es: seq<Event>, day: int) {
    exists k :: 0 <= k < |es| && FlagKept(cfg, flag, first, es, day, k) && HoldsLater(es, day, k)
  }

  lemma MarksPrefix(cfg: Config, flag: Flag, first: int, es: seq<Event>, day: int, k: nat)
    requires k < |es| - 1
    ensures Marks(cfg, flag, first, Front(es), day, k) <==> Marks(cfg, flag, first, es, day, k)
  {
    assert Front(es)[..k] == es[..k];
  }

  /** How the flags that should be up change with one more event of the day. */
  lemma RecordFlagStep(cfg: Config, flag: Flag, first: int, es: seq<Event>, day: int)
    requires es != [] && Last(es).Record? && Last(es).day == day
    ensures MemoryFlag(cfg, flag, first, es, day)
       <==> MemoryFlag(cfg, flag, first, Front(es), day) || MarksLast(cfg, flag, Run(cfg, first, Front(es)), Last(es))
    ensures FileFlag(cfg, flag, first, es, day) <==>
      match Last(es).saved
      case Written => MemoryFlag(cfg, flag, first, Front(es), day)
      case NotOpened => FileFlag(cfg, flag, first, Front(es), day)
      case CutShort => false
  {
    var n := |es| - 1;
    assert es[..n] == Front(es) && es[n] == Last(es);
    assert FlagKept(cfg, flag, first, es, day, n) <==> MarksLast(cfg, flag, Run(cfg, first, Front(es)), Last(es));
    forall k | 0 <= k < n
      ensures FlagKept(cfg, flag, first, es, day, k) <==> FlagKept(cfg, flag, first, Front(es), day, k)
    {
      MarksPrefix(cfg, flag, first, es, day, k);
    }
  }

  lemma RestartFlagStep(cfg: Config, flag: Flag, first: int, es: seq<Event>, day: int)
    requires es != [] && Last(es).Restart? && Last(es).day == day
    ensures MemoryFlag(cfg, flag, first, es, day) <==> FileFlag(cfg, flag, first, Front(es), day)
    ensures FileFlag(cfg, flag, first, es, day) <==> FileFlag(cfg, flag, first, Front(es), day)
  {
    var n := |es| - 1;
    assert !FlagKept(cfg, flag, first, es, day, n);
    forall k | 0 <= k < n
      ensures FlagKept(cfg, flag, first, es, day, k)
         <==> FlagKept(cfg, flag, first, Front(es), day, k) && HoldsLater(Front(es), day, k)
      ensures HoldsLater(es, day, k) <==> HoldsLater(Front(es), day, k)
    {
      MarksPrefix(cfg, flag, first, es, day, k);
    }
  }

  lemma {:induction false} DaysUpToToday(first: int, es: seq<Event>, k: nat)
    requires Orderly(first, es) && k < |es|
    ensures es[k].day <= Today(first, es)
  {
    if k < |es| - 1 {
      DaysUpToToday(first, Front(es), k);
    }
  }

  lemma NewDayUnflagged(cfg: Config, flag: Flag, first: int, es: seq<Event>, day: int)
    requires Orderly(first, es) && day > Today(first, es)
    ensures !MemoryFlag(cfg, flag, first, es, day) && !FileFlag(cfg, flag, first, es, day)
  {
    forall k | 0 <= k < |es| ensures es[k].day != day {
      DaysUpToToday(first, es, k);
    }
  }

  /** What a record does to the flag in memory. */
  lemma RecordFlag(cfg: Config, flag: Flag, w: World, e: Event)
    requires e.Record?
    ensures Up(Step(cfg, w, e).memory.daily, flag) <==> Up(Base(w, e.day), flag) || MarksLast(cfg, flag, w, e)
  {
    if cfg.cap != 0.0 {
      WarnsIffShare(cfg, Base(w, e.day).total + e.entry.cost);
    }
  }

  ghost predicate FlagsFit(cfg: Config, flag: Flag, first: int, es: seq<Event>, day: int) {
    && (Up(Run(cfg, first, es).memory.daily, flag) <==> MemoryFlag(cfg, flag, first, es, day))
    && (Up(Filed(Run(cfg, first, es).disk, day), flag) <==> FileFlag(cfg, flag, first, es, day))
  }

  /** Memory and file flag before the last event, as its day sees them. */
  lemma FlagsBefore(cfg: Config, flag: Flag, first: int, es: seq<Event>, day: int)
    requires Orderly(first, es) && day >= Today(first, es)
    requires FlagsFit(cfg, flag, first, es, Today(first, es))
    ensures Up(Base(Run(cfg, first, es), day), flag) <==> MemoryFlag(cfg, flag, first, es, day)
    ensures Up(Filed(Run(cfg, first, es).disk, day), flag) <==> FileFlag(cfg, flag, first, es, day)
  {
    RunKeepsBooks(cfg, first, es);
    if day > Today(first, es) {
      NewDayUnflagged(cfg, flag, first, es, day);
    }
  }

  lemma {:induction false} FlagExact(cfg: Config, flag: Flag, first: int, es: seq<Event>)
    requires Orderly(first, es)
    ensures FlagsFit(cfg, flag, first, es, Today(first, es))
  {
    if es != [] {
      var before, e := Front(es), Last(es);
      FlagExact(cfg, flag, first, before);
      FlagsBefore(cfg, flag, first, before, e.day);
      if e.Record? {
        RecordFlag(cfg, flag, Run(cfg, first, before), e);
        RecordFile(cfg, Run(cfg, first, before), e);
        RecordFlagStep(cfg, flag, first, es, e.day);
      } else {
        RestartFlagStep(cfg, flag, first, es, e.day);
      }
    }
  }

  /** However the writes end, `is_exceeded` is set exactly when there is a refused record of
      today after which every restart today found a file written later than the refusal:
      the flag is saved by the next record only, so that a restart right after a refusal
      forgets it, over and over if need be. */
  lemma ExceededFlagExact(cfg: Config, first: int, es: seq<Event>)
    requires Orderly(first, es)
    ensures
      var day := Today(first, es);
      Run(cfg, first, es).memory.daily.exceeded <==>
        exists k :: 0 <= k < |es| && Refused(cfg, first, es, day, k) && Survives(es, day, k)
  {
    var day := Today(first, es);
    FlagExact(cfg, EXCEEDED, first, es);
    forall k | 0 <= k < |es|
      ensures FlagKept(cfg, EXCEEDED, first, es, day, k)
         <==> Refused(cfg, first, es, day, k) && Survives(es, day, k)
    {
    }
  }

  /** Event `k` is a record of this day that took the total to the warning threshold. */
  predicate Warned(cfg: Config, first: int, es: seq<Event>, day: int, k: nat)
    requires k < |es|
  {
    es[k].Record? && es[k].day == day && Warns(cfg, Step(cfg, Run(cfg, first, es[..k]), es[k]).memory.daily.total)
  }

  /** The same for the warning, which is issued once per flag. */
  lemma WarnedFlagExact(cfg: Config, first: int, es: seq<Event>)
    requires Orderly(first, es)
    ensures
      var day := Today(first, es);
      Run(cfg, first, es).memory.daily.warned <==>
        exists k :: 0 <= k < |es| && Warned(cfg, first, es, day, k) && Survives(es, day, k)
  {
    var day := Today(first, es);
    FlagExact(cfg, WARNED, first, es);
    forall k | 0 <= k < |es|
      ensures FlagKept(cfg, WARNED, first, es, day, k)
         <==> Warned(cfg, first, es, day, k) && Survives(es, day, k)
    {
    }
  }

  /** With writes that succeed: a refusal of the day survives all later events of that day
      exactly if it is the last event or the next one is a record. */
  lemma {:induction false} SurvivesIffRecordFollows(es: seq<Event>, day: int, k: nat)
    requires k < |es|
    requires forall j :: k < j < |es| ==> es[j].day == day && (es[j].Record? ==> es[j].saved.Written?)
    ensures Survives(es, day, k) <==> |es| == k + 1 || es[k + 1].Record?
    ensures |es| > k + 1 && es[k + 1].Record? ==> HoldsLater(es, day, k)
  {
    if |es| > k + 1 {
      SurvivesIffRecordFollows(Front(es), day, k);
    }
  }

  /** One refused record and a restart: the cap is passed, yet the flag is down. */
  lemma RestartForgetsRefusal(cfg: Config, day: int, e: Entry)
    requires cfg.cap > 0.0 && e.cost >= cfg.cap
    ensures
      var es := [Record(e, day, Written, Written)] + [Restart(day)];
      var daily := Run(cfg, day, es).memory.daily;
      Results(cfg, day, es) == [Exceeded] && daily.total >= cfg.cap && !daily.exceeded
  {
    var r, es := Record(e, day, Written, Written), [Record(e, day, Written, Written)] + [Restart(day)];
    assert Front(es) == [r] && Front([r]) == [];
    assert Run(cfg, day, [r]) == Step(cfg, Run(cfg, day, []), r);
    assert Result(cfg, day, [], r) == Exceeded;
    assert Results(cfg, day, [r]) == [] + [Exceeded];
    assert Results(cfg, day, es) == Results(cfg, day, [r]) + [];
  }
}
