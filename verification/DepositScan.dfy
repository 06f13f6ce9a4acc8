/**
 * Concurrent deposit scanning (scan_deposits in processor.rs). Each scanner
 * reads the cursor, fetches one contiguous page of the ordered ledger log and
 * delivers it record by record; scanners overlap, fail and restart freely.
 */
module DepositScan {
  import opened Outcomes
  import opened StateStores

  /** A ledger record; operations that are not direct asset payments carry no observation. */
  datatype Entry = Entry(cursor: nat, payment: Option<Payment>)

  datatype Scanner =
    | Fetching(from: Option<nat>)
    | Delivering(start: nat, next: nat, stop: nat)

  /** A mint quote created by the run, with the cursor of memory at that moment. */
  datatype Creation = Creation(quote: MintQuote, at: Option<nat>)

  /**
   * `memMade` and `diskMade` list, in order, the quote creations that memory and the file have taken up; a
   * creation whose file was replaced but whose call failed is in the file alone.
   */
  datatype System = System(
    store: Store, log: seq<Entry>, scanners: map<nat, Scanner>, memMade: seq<Creation>, diskMade: seq<Creation>)

  datatype Action =
    | LedgerAppends(entry: Entry)
    | Snapshot(scanner: nat)
    | Fetch(scanner: nat, start: nat, stop: nat)
    | Deliver(scanner: nat, persist: Persist)
    | Abandon(scanner: nat)
    | OtherCall(update: Update, persist: Persist)
    | CrashAndReopen

  predicate Ordered(log: seq<Entry>) {
    && (forall i, k :: 0 <= i < k < |log| ==> log[i].cursor < log[k].cursor)
    && (forall i :: 0 <= i < |log| && log[i].payment.Some? ==> log[i].payment.value.cursor == log[i].cursor)
  }

  /** The records after a cursor start at `start`. */
  predicate StartsAfter(log: seq<Entry>, from: Option<nat>, start: nat) {
    && start <= |log|
    && (forall i :: 0 <= i < start ==> from.Some? && log[i].cursor <= from.value)
    && (forall i :: start <= i < |log| && from.Some? ==> from.value < log[i].cursor)
  }

  ghost predicate Enabled(s: System, a: Action) {
    match a
    case LedgerAppends(entry) => Ordered(s.log + [entry])
    case Snapshot(id) => id !in s.scanners
    case Fetch(id, start, stop) =>
      id in s.scanners && s.scanners[id].Fetching?
      && StartsAfter(s.log, s.scanners[id].from, start) && start <= stop <= |s.log|
    case Deliver(id, _) => id in s.scanners && s.scanners[id].Delivering?
    case Abandon(id) => id in s.scanners
    case OtherCall(u, _) => WellFormed(u) && !u.Observe? && !u.Advance?
    case CrashAndReopen => true
  }

  /** One store call, with the creations it makes. */
  ghost function Called(s: System, u: Update, p: Persist): System {
    var made := s.memMade + if u.InsertMint? then [Creation(u.quote, s.store.mem.cursor)] else [];
    s.(store := Commit(s.store, u, p).0,
       memMade := if Commit(s.store, u, p).1.Ok? then made else s.memMade,
       diskMade := if Apply(s.store.mem, u).Ok? && p != FailedBeforeReplace then made else s.diskMade)
  }

  /** One store call of a scanner: any error ends that scan. */
  ghost function Observing(s: System, id: nat, u: Update, p: Persist, then_: map<nat, Scanner>): System {
    Called(s, u, p).(scanners := if Commit(s.store, u, p).1.Ok? then then_ else s.scanners - {id})
  }

  ghost function DeliverNext(s: System, profile: Profile, id: nat, p: Persist): System
    requires id in s.scanners && s.scanners[id].Delivering?
  {
    var Delivering(start, next, stop) := s.scanners[id];
    if next < stop && next < |s.log| then
      var rest := s.scanners[id := Delivering(start, next + 1, stop)];
      if s.log[next].payment.None? then s.(scanners := rest)
      else Observing(s, id, Observe(profile, s.log[next].payment.value), p, rest)
    else if start < stop <= |s.log| then
      Observing(s, id, Advance(s.log[stop - 1].cursor), p, s.scanners - {id})
    else s.(scanners := s.scanners - {id})
  }

  ghost function Next(s: System, profile: Profile, a: Action): System
    requires Enabled(s, a)
  {
    match a
    case LedgerAppends(entry) => s.(log := s.log + [entry])
    case Snapshot(id) => s.(scanners := s.scanners[id := Fetching(s.store.mem.cursor)])
    case Fetch(id, start, stop) => s.(scanners := s.scanners[id := Delivering(start, start, stop)])
    case Deliver(id, p) => DeliverNext(s, profile, id, p)
    case Abandon(id) => s.(scanners := s.scanners - {id})
    case OtherCall(u, p) => Called(s, u, p)
    case CrashAndReopen => s.(store := Store(s.store.disk, s.store.disk), scanners := map[], memMade := s.diskMade)
  }

  function CursorAt(log: seq<Entry>, k: nat): Option<nat>
    requires k <= |log|
  {
    if k == 0 then None else Some(log[k - 1].cursor)
  }

  /** A run starts from a store opened on journal `base`, whose cursor lies after `k0` ledger records. */
  ghost predicate StartsFrom(s: System, base: Journal, k0: nat) {
    && Consistent(base) && s.store == Store(base, base)
    && Ordered(s.log) && k0 <= |s.log| && base.cursor == CursorAt(s.log, k0)
    && s.scanners == map[] && s.memMade == [] && s.diskMade == []
  }

  ghost predicate IsRun(trace: seq<System>, actions: seq<Action>, profile: Profile, base: Journal, k0: nat) {
    && |trace| == |actions| + 1
    && StartsFrom(trace[0], base, k0)
    && forall i :: 0 <= i < |actions| ==>
         Enabled(trace[i], actions[i]) && trace[i + 1] == Next(trace[i], profile, actions[i])
  }

  // ------------------------------------------------- the sequential reference

  /** What one left-to-right pass does with a record: evaluate it once, then stand on it. */
  ghost function PassEntry(j: Journal, profile: Profile, e: Entry): Journal {
    (if e.payment.Some? then Evaluate(j, profile, e.payment.value).0 else j).(cursor := Some(e.cursor))
  }

  ghost function Pass(j: Journal, profile: Profile, entries: seq<Entry>): Journal {
    if entries == [] then j
    else PassEntry(Pass(j, profile, entries[..|entries| - 1]), profile, entries[|entries| - 1])
  }

  /** A sequential history: quotes created between the records of the pass. */
  datatype Item = Created(quote: MintQuote) | Passed(entry: Entry)

  ghost function ReplayItem(j: Journal, profile: Profile, item: Item): Journal {
    match item
    case Created(quote) => if Apply(j, InsertMint(quote)).Ok? then Apply(j, InsertMint(quote)).value.0 else j
    case Passed(entry) => PassEntry(j, profile, entry)
  }

  ghost function Replay(j: Journal, profile: Profile, history: seq<Item>): Journal {
    if history == [] then j
    else ReplayItem(Replay(j, profile, history[..|history| - 1]), profile, history[|history| - 1])
  }

  function Records(history: seq<Item>): seq<Entry> {
    if history == [] then []
    else
      var rest := Records(history[..|history| - 1]);
      var last := history[|history| - 1];
      if last.Passed? then rest + [last.entry] else rest
  }

  /** The deposit half of a journal: everything but the payouts. */
  function Deposits(j: Journal): Journal {
    j.(melt := map[])
  }

  function CursorAfter(start: Option<nat>, records: seq<Entry>): Option<nat> {
    if records == [] then start else Some(records[|records| - 1].cursor)
  }

  /** The creations of a history, each with the cursor that the records before it leave. */
  function Creations(start: Option<nat>, history: seq<Item>): seq<Creation> {
    if history == [] then []
    else
      var front, last := history[..|history| - 1], history[|history| - 1];
      if last.Created? then Creations(start, front) + [Creation(last.quote, CursorAfter(start, Records(front)))]
      else Creations(start, front)
  }

  /**
   * `history` passes the records from the `k0`-th to the `k`-th and creates what the run created, in the run's
   * order and between the same records, and it leads from `base` to `j`.
   */
  ghost predicate Explains(log: seq<Entry>, made: seq<Creation>, profile: Profile, base: Journal, k0: nat,
                           j: Journal, k: nat, history: seq<Item>)
  {
    && k0 <= k <= |log|
    && base.cursor == CursorAt(log, k0) && j.cursor == CursorAt(log, k)
    && Records(history) == log[k0..k]
    && Creations(base.cursor, history) == made
    && Deposits(Replay(base, profile, history)) == Deposits(j)
  }

  /** Journal `j` is what one sequential pass up to its own cursor produces. */
  ghost predicate IsOnePass(log: seq<Entry>, made: seq<Creation>, profile: Profile, base: Journal, k0: nat,
                            j: Journal)
  {
    exists k: nat, history :: Explains(log, made, profile, base, k0, j, k, history)
  }

  // -------------------------------------------------------------- invariants

  ghost predicate GoodScanner(s: System, scanner: Scanner) {
    match scanner
    case Fetching(from) => from.Some? ==> IsStale(s.store.mem, from.value)
    case Delivering(start, next, stop) =>
      && start <= next <= stop <= |s.log|
      && forall i :: 0 <= i < next && (i < start || s.log[i].payment.Some?) ==>
           IsStale(s.store.mem, s.log[i].cursor)
  }

  ghost predicate Invariant(s: System, profile: Profile, base: Journal, k0: nat) {
    && StoreInvariant(s.store) && Ordered(s.log)
    && IsOnePass(s.log, s.memMade, profile, base, k0, s.store.mem)
    && IsOnePass(s.log, s.diskMade, profile, base, k0, s.store.disk)
    && forall id :: id in s.scanners ==> GoodScanner(s, s.scanners[id])
  }

  // -------------------------------------------------- lemmas about the pass

  /** Evaluation neither reads nor changes the payouts or the cursor. */
  lemma EvaluateIgnoresRest(a: Journal, b: Journal, profile: Profile, payment: Payment)
    requires a.mint == b.mint && a.operations == b.operations && a.transactions == b.transactions
    ensures var x, y := Evaluate(a, profile, payment), Evaluate(b, profile, payment);
            && x.1 == y.1
            && x.0.mint == y.0.mint && x.0.operations == y.0.operations && x.0.transactions == y.0.transactions
            && x.0.melt == a.melt && y.0.melt == b.melt && x.0.cursor == a.cursor
  {
    hide ValidatePayment;
  }

  lemma PassEntryIgnoresPayouts(a: Journal, b: Journal, profile: Profile, e: Entry)
    requires Deposits(a) == Deposits(b)
    ensures Deposits(PassEntry(a, profile, e)) == Deposits(PassEntry(b, profile, e))
    ensures PassEntry(b, profile, e).cursor == Some(e.cursor)
  {
    hide Evaluate;
    if e.payment.Some? { EvaluateIgnoresRest(a, b, profile, e.payment.value); }
  }

  lemma HistoryGrows(base: Journal, profile: Profile, history: seq<Item>, item: Item)
    ensures Replay(base, profile, history + [item]) == ReplayItem(Replay(base, profile, history), profile, item)
    ensures Records(history + [item]) == Records(history) + if item.Passed? then [item.entry] else []
    ensures Creations(base.cursor, history + [item])
            == Creations(base.cursor, history)
               + if item.Created? then [Creation(item.quote, CursorAfter(base.cursor, Records(history)))] else []
  {
    assert (history + [item])[..|history|] == history;
  }

  lemma {:induction false} RecordsExtend(start: Option<nat>, history: seq<Item>, entries: seq<Entry>)
    ensures var more := seq(|entries|, i requires 0 <= i < |entries| => Passed(entries[i]));
            Records(history + more) == Records(history) + entries
            && Creations(start, history + more) == Creations(start, history)
  {
    var more := seq(|entries|, i requires 0 <= i < |entries| => Passed(entries[i]));
    if entries == [] {
      assert history + more == history;
    } else {
      var front := entries[..|entries| - 1];
      var frontItems := seq(|front|, i requires 0 <= i < |front| => Passed(front[i]));
      RecordsExtend(start, history, front);
      assert (history + more)[..|history + more| - 1] == history + frontItems;
      assert front + [entries[|entries| - 1]] == entries;
    }
  }

  /** Records without an observation only move the cursor. */
  lemma {:induction false} SkippingMovesCursor(base: Journal, profile: Profile, history: seq<Item>, entries: seq<Entry>)
    requires forall i :: 0 <= i < |entries| ==> entries[i].payment.None?
    ensures var items := seq(|entries|, i requires 0 <= i < |entries| => Passed(entries[i]));
            Replay(base, profile, history + items)
            == if entries == [] then Replay(base, profile, history)
               else Replay(base, profile, history).(cursor := Some(entries[|entries| - 1].cursor))
  {
    var items := seq(|entries|, i requires 0 <= i < |entries| => Passed(entries[i]));
    if entries == [] {
      assert history + items == history;
    } else {
      var front := entries[..|entries| - 1];
      var frontItems := seq(|front|, i requires 0 <= i < |front| => Passed(front[i]));
      SkippingMovesCursor(base, profile, history, front);
      assert (history + items)[..|history + items| - 1] == history + frontItems;
    }
  }

  /** With no quote created on the way, the history is the plain pass. */
  lemma {:induction false} ReplayOfRecordsIsPass(base: Journal, profile: Profile, history: seq<Item>)
    requires forall i :: 0 <= i < |history| ==> history[i].Passed?
    ensures Replay(base, profile, history) == Pass(base, profile, Records(history))
  {
    if history != [] {
      var front := history[..|history| - 1];
      ReplayOfRecordsIsPass(base, profile, front);
      var records := Records(history);
      assert records[..|records| - 1] == Records(front);
    }
  }

  // ------------------------------------------- one-pass journals are kept

  /** Walking over records without an observation only moves the cursor of the explained journal. */
  lemma ExplainGap(log: seq<Entry>, made: seq<Creation>, profile: Profile, base: Journal, k0: nat,
                   j: Journal, k: nat, history: seq<Item>, m: nat)
    returns (longer: seq<Item>)
    requires Explains(log, made, profile, base, k0, j, k, history)
    requires k <= m <= |log|
    requires forall i :: k <= i < m ==> log[i].payment.None?
    ensures Explains(log, made, profile, base, k0, j.(cursor := CursorAt(log, m)), m, longer)
  {
    hide Records, Replay, Creations;
    var gap := log[k..m];
    var items := seq(|gap|, i requires 0 <= i < |gap| => Passed(gap[i]));
    longer := history + items;
    RecordsExtend(base.cursor, history, gap);
    SkippingMovesCursor(base, profile, history, gap);
    assert log[k0..m] == log[k0..k] + gap;
  }

  lemma ExplainPayment(log: seq<Entry>, made: seq<Creation>, profile: Profile, base: Journal, k0: nat,
                       j: Journal, m: nat, history: seq<Item>)
    requires Explains(log, made, profile, base, k0, j, m, history)
    requires m < |log| && log[m].payment.Some?
    ensures Explains(log, made, profile, base, k0, PassEntry(j, profile, log[m]), m + 1,
                     history + [Passed(log[m])])
  {
    hide PassEntry, Deposits, Replay, Records, Creations;
    HistoryGrows(base, profile, history, Passed(log[m]));
    assert log[k0..m + 1] == log[k0..m] + [log[m]];
    assert made + [] == made;
    PassEntryIgnoresPayouts(Replay(base, profile, history), j, profile, log[m]);
    assert PassEntry(j, profile, log[m]).cursor == CursorAt(log, m + 1);
  }

  /** Delivering the payment at `m`, when everything between the cursor and it carries no observation. */
  lemma PassExtendsToPayment(log: seq<Entry>, made: seq<Creation>, profile: Profile, base: Journal, k0: nat,
                             j: Journal, k: nat, history: seq<Item>, m: nat)
    requires Explains(log, made, profile, base, k0, j, k, history)
    requires k <= m < |log| && log[m].payment.Some?
    requires forall i :: k <= i < m ==> log[i].payment.None?
    ensures IsOnePass(log, made, profile, base, k0, PassEntry(j, profile, log[m]))
  {
    hide Explains, Evaluate;
    var longer := ExplainGap(log, made, profile, base, k0, j, k, history, m);
    var moved := j.(cursor := CursorAt(log, m));
    ExplainPayment(log, made, profile, base, k0, moved, m, longer);
    EvaluateIgnoresRest(moved, j, profile, log[m].payment.value);
  }

  lemma PassExtendsToCursor(log: seq<Entry>, made: seq<Creation>, profile: Profile, base: Journal, k0: nat,
                            j: Journal, k: nat, history: seq<Item>, m: nat)
    requires Explains(log, made, profile, base, k0, j, k, history)
    requires k < m <= |log|
    requires forall i :: k <= i < m ==> log[i].payment.None?
    ensures IsOnePass(log, made, profile, base, k0, j.(cursor := Some(log[m - 1].cursor)))
  {
    hide Explains;
    var longer := ExplainGap(log, made, profile, base, k0, j, k, history, m);
  }

  lemma OnePassMonotone(log: seq<Entry>, more: seq<Entry>, made: seq<Creation>, profile: Profile, base: Journal, k0: nat,
                        j: Journal)
    requires IsOnePass(log, made, profile, base, k0, j)
    ensures IsOnePass(log + more, made, profile, base, k0, j)
  {
    var k: nat, history :| Explains(log, made, profile, base, k0, j, k, history);
    assert (log + more)[k0..k] == log[k0..k];
    assert Explains(log + more, made, profile, base, k0, j, k, history);
  }

  lemma InsertIgnoresRest(a: Journal, b: Journal, quote: MintQuote)
    requires Deposits(a) == Deposits(b)
    ensures Apply(a, InsertMint(quote)).Ok? == Apply(b, InsertMint(quote)).Ok?
    ensures Apply(a, InsertMint(quote)).Ok? ==>
              Deposits(Apply(a, InsertMint(quote)).value.0) == Deposits(Apply(b, InsertMint(quote)).value.0)
              && Apply(b, InsertMint(quote)).value.0.cursor == b.cursor
  {
  }

  lemma PayoutUpdateKeepsDeposits(j: Journal, u: Update)
    requires u.InsertMelt? || u.UpdateSettlement?
    requires Apply(j, u).Ok?
    ensures Deposits(Apply(j, u).value.0) == Deposits(j) && Apply(j, u).value.0.cursor == j.cursor
  {
    hide RunChange;
  }

  lemma OtherUpdateKeepsOnePass(log: seq<Entry>, made: seq<Creation>, profile: Profile, base: Journal, k0: nat,
                                j: Journal, u: Update)
    requires IsOnePass(log, made, profile, base, k0, j)
    requires !u.Observe? && !u.Advance? && Apply(j, u).Ok?
    ensures IsOnePass(log, made + if u.InsertMint? then [Creation(u.quote, j.cursor)] else [], profile, base, k0,
                      Apply(j, u).value.0)
  {
    hide Apply, Replay, Records, Creations;
    var k: nat, history :| Explains(log, made, profile, base, k0, j, k, history);
    if u.InsertMint? {
      InsertIgnoresRest(Replay(base, profile, history), j, u.quote);
      HistoryGrows(base, profile, history, Created(u.quote));
      assert CursorAfter(base.cursor, log[k0..k]) == j.cursor;
      assert Explains(log, made + [Creation(u.quote, j.cursor)], profile, base, k0, Apply(j, u).value.0, k,
                      history + [Created(u.quote)]);
    } else {
      PayoutUpdateKeepsDeposits(j, u);
      assert made + [] == made;
      assert Explains(log, made, profile, base, k0, Apply(j, u).value.0, k, history);
    }
  }

  /** A record at or after the `k`-th is not yet covered by a cursor standing on record `k - 1`. */
  lemma BeyondCursorIsNotStale(log: seq<Entry>, j: Journal, k: nat, i: nat)
    requires Ordered(log) && k <= |log| && j.cursor == CursorAt(log, k) && i < |log|
    ensures IsStale(j, log[i].cursor) <==> i < k
  {
  }

  lemma ObserveKeepsOnePass(s: System, profile: Profile, base: Journal, k0: nat, id: nat)
    requires Invariant(s, profile, base, k0)
    requires id in s.scanners && s.scanners[id].Delivering?
    requires var m := s.scanners[id].next; m < s.scanners[id].stop && s.log[m].payment.Some?
    ensures var payment := s.log[s.scanners[id].next].payment.value;
            IsOnePass(s.log, s.memMade, profile, base, k0, ObserveStep(s.store.mem, profile, payment).0)
            && IsStale(ObserveStep(s.store.mem, profile, payment).0, payment.cursor)
  {
    hide StoreInvariant, Evaluate;
    var j, log, m := s.store.mem, s.log, s.scanners[id].next;
    if !IsStale(j, log[m].cursor) {
      var k: nat, history :| Explains(log, s.memMade, profile, base, k0, j, k, history);
      assert GoodScanner(s, s.scanners[id]);
      BeyondCursorIsNotStale(log, j, k, m);
      forall i | k <= i < m ensures log[i].payment.None? {
        BeyondCursorIsNotStale(log, j, k, i);
      }
      PassExtendsToPayment(log, s.memMade, profile, base, k0, j, k, history, m);
    }
  }

  lemma AdvanceKeepsOnePass(s: System, profile: Profile, base: Journal, k0: nat, id: nat)
    requires Invariant(s, profile, base, k0)
    requires id in s.scanners && s.scanners[id].Delivering?
    requires var Delivering(start, next, stop) := s.scanners[id]; start < stop && next == stop
    ensures IsOnePass(s.log, s.memMade, profile, base, k0,
                      AdvanceTo(s.store.mem, s.log[s.scanners[id].stop - 1].cursor))
  {
    hide StoreInvariant, Evaluate;
    var j, log, m := s.store.mem, s.log, s.scanners[id].stop;
    if !IsStale(j, log[m - 1].cursor) {
      var k: nat, history :| Explains(log, s.memMade, profile, base, k0, j, k, history);
      assert GoodScanner(s, s.scanners[id]);
      BeyondCursorIsNotStale(log, j, k, m - 1);
      forall i | k <= i < m ensures log[i].payment.None? {
        BeyondCursorIsNotStale(log, j, k, i);
      }
      PassExtendsToCursor(log, s.memMade, profile, base, k0, j, k, history, m);
    }
  }

  // ------------------------------------------------------------ step by step

  lemma GrowthKeepsScanner(s: System, t: System, scanner: Scanner)
    requires GoodScanner(s, scanner)
    requires Extends(s.store.mem, t.store.mem) && s.log <= t.log
    ensures GoodScanner(t, scanner)
  {
    forall i | 0 <= i < |s.log| ensures t.log[i] == s.log[i] {
    }
  }

  lemma GrowthKeepsInvariant(s: System, t: System, profile: Profile, base: Journal, k0: nat)
    requires Invariant(s, profile, base, k0)
    requires StoreInvariant(t.store) && Extends(s.store.mem, t.store.mem)
    requires Ordered(t.log) && s.log <= t.log
    requires IsOnePass(t.log, t.memMade, profile, base, k0, t.store.mem)
    requires IsOnePass(t.log, t.diskMade, profile, base, k0, t.store.disk)
    requires forall id :: id in t.scanners ==>
               (id in s.scanners && t.scanners[id] == s.scanners[id]) || GoodScanner(t, t.scanners[id])
    ensures Invariant(t, profile, base, k0)
  {
    hide StoreInvariant, Extends, IsOnePass, Ordered, GoodScanner;
    forall id | id in t.scanners ensures GoodScanner(t, t.scanners[id]) {
      if id in s.scanners && t.scanners[id] == s.scanners[id] {
        GrowthKeepsScanner(s, t, s.scanners[id]);
      }
    }
  }

  lemma CommitKeepsStore(s: Store, u: Update, p: Persist)
    requires StoreInvariant(s) && WellFormed(u)
    ensures StoreInvariant(Commit(s, u, p).0) && Extends(s.mem, Commit(s, u, p).0.mem)
  {
    AfterKeeps(s, Call(u, p));
  }

  lemma ObservingKeepsInvariant(s: System, profile: Profile, base: Journal, k0: nat, id: nat, u: Update, p: Persist,
                                then_: map<nat, Scanner>)
    requires Invariant(s, profile, base, k0) && WellFormed(u)
    requires !u.InsertMint? && Apply(s.store.mem, u).Ok?
    requires IsOnePass(s.log, s.memMade, profile, base, k0, Apply(s.store.mem, u).value.0)
    requires forall k :: k in then_ ==>
               || (k in s.scanners && then_[k] == s.scanners[k])
               || GoodScanner(s.(store := Store(Apply(s.store.mem, u).value.0, Apply(s.store.mem, u).value.0)), then_[k])
    ensures Invariant(Observing(s, id, u, p, then_), profile, base, k0)
  {
    hide StoreInvariant, Extends, IsOnePass, Ordered, Apply;
    CommitKeepsStore(s.store, u, p);
    assert s.memMade + [] == s.memMade;
    var t := Observing(s, id, u, p, then_);
    GrowthKeepsInvariant(s, t, profile, base, k0);
  }

  lemma DeliverKeepsInvariant(s: System, profile: Profile, base: Journal, k0: nat, id: nat, p: Persist)
    requires Invariant(s, profile, base, k0)
    requires id in s.scanners && s.scanners[id].Delivering?
    ensures Invariant(DeliverNext(s, profile, id, p), profile, base, k0)
  {
    hide StoreInvariant, IsOnePass, Evaluate, StaleOutcome;
    var Delivering(start, next, stop) := s.scanners[id];
    var t := DeliverNext(s, profile, id, p);
    assert GoodScanner(s, s.scanners[id]);
    ExtendsIsReflexive(s.store.mem);
    if next < stop {
      var rest := s.scanners[id := Delivering(start, next + 1, stop)];
      if s.log[next].payment.None? {
        GrowthKeepsInvariant(s, t, profile, base, k0);
      } else {
        var u := Observe(profile, s.log[next].payment.value);
        ObserveKeepsOnePass(s, profile, base, k0, id);
        ObserveKeeps(s.store.mem, profile, s.log[next].payment.value) by { StoreIsConsistent(s.store); }
        var after := Apply(s.store.mem, u).value.0;
        var moved := s.(store := Store(after, after));
        GrowthKeepsScanner(s, moved, s.scanners[id]);
        assert GoodScanner(moved, Delivering(start, next + 1, stop));
        ObservingKeepsInvariant(s, profile, base, k0, id, u, p, rest);
      }
    } else if start < stop {
      AdvanceKeepsOnePass(s, profile, base, k0, id);
      ObservingKeepsInvariant(s, profile, base, k0, id, Advance(s.log[stop - 1].cursor), p, s.scanners - {id});
    } else {
      GrowthKeepsInvariant(s, t, profile, base, k0);
    }
  }

  lemma StoreIsConsistent(s: Store)
    requires StoreInvariant(s)
    ensures Consistent(s.mem)
  {
  }

  lemma OtherCallKeepsInvariant(s: System, profile: Profile, base: Journal, k0: nat, u: Update, p: Persist)
    requires Invariant(s, profile, base, k0) && Enabled(s, OtherCall(u, p))
    ensures Invariant(Next(s, profile, OtherCall(u, p)), profile, base, k0)
  {
    hide StoreInvariant, Extends, IsOnePass, Apply, GoodScanner;
    var t := Next(s, profile, OtherCall(u, p));
    CommitKeepsStore(s.store, u, p);
    if Apply(s.store.mem, u).Ok? {
      OtherUpdateKeepsOnePass(s.log, s.memMade, profile, base, k0, s.store.mem, u);
    }
    GrowthKeepsInvariant(s, t, profile, base, k0);
  }

  lemma NextKeepsInvariant(s: System, profile: Profile, base: Journal, k0: nat, a: Action)
    requires Invariant(s, profile, base, k0) && Enabled(s, a)
    ensures Invariant(Next(s, profile, a), profile, base, k0)
  {
    hide StoreInvariant, IsOnePass, Apply, Commit, DeliverNext;
    var t := Next(s, profile, a);
    ExtendsIsReflexive(s.store.mem);
    match a
    case LedgerAppends(entry) =>
      OnePassMonotone(s.log, [entry], s.memMade, profile, base, k0, s.store.mem);
      OnePassMonotone(s.log, [entry], s.diskMade, profile, base, k0, s.store.disk);
      GrowthKeepsInvariant(s, t, profile, base, k0);
    case Snapshot(id) => GrowthKeepsInvariant(s, t, profile, base, k0);
    case Fetch(id, start, stop) =>
      assert GoodScanner(s, s.scanners[id]);
      GrowthKeepsInvariant(s, t, profile, base, k0);
    case Deliver(id, p) => DeliverKeepsInvariant(s, profile, base, k0, id, p);
    case Abandon(id) => GrowthKeepsInvariant(s, t, profile, base, k0);
    case OtherCall(u, p) => OtherCallKeepsInvariant(s, profile, base, k0, u, p);
    case CrashAndReopen =>
      AfterKeeps(s.store, Crash);
  }

  lemma StartIsGood(s: System, profile: Profile, base: Journal, k0: nat)
    requires StartsFrom(s, base, k0)
    ensures Invariant(s, profile, base, k0)
  {
    ExtendsIsReflexive(base);
    assert s.log[k0..k0] == [];
    assert Explains(s.log, [], profile, base, k0, base, k0, []);
  }

  lemma {:induction false} RunInvariant(trace: seq<System>, actions: seq<Action>, profile: Profile, base: Journal,
                                        k0: nat, i: nat)
    requires IsRun(trace, actions, profile, base, k0) && i < |trace|
    ensures Invariant(trace[i], profile, base, k0)
  {
    hide Invariant;
    if i == 0 {
      StartIsGood(trace[0], profile, base, k0);
    } else {
      RunInvariant(trace, actions, profile, base, k0, i - 1);
      NextKeepsInvariant(trace[i - 1], profile, base, k0, actions[i - 1]);
    }
  }

  // --------------------------------------------------- one history, and only one

  predicate Rising(start: Option<nat>, records: seq<Entry>) {
    && (forall i, k :: 0 <= i < k < |records| ==> records[i].cursor < records[k].cursor)
    && (forall i :: 0 <= i < |records| && start.Some? ==> start.value < records[i].cursor)
  }

  predicate StandsAt(start: Option<nat>, records: seq<Entry>, at: Option<nat>) {
    at == start || exists k :: 0 <= k < |records| && at == Some(records[k].cursor)
  }

  /** A creation stands at the start or at some record of its history. */
  lemma {:induction false} CreationsStandAtRecords(start: Option<nat>, history: seq<Item>, i: nat)
    requires i < |Creations(start, history)|
    ensures StandsAt(start, Records(history), Creations(start, history)[i].at)
  {
    var front := history[..|history| - 1];
    if i < |Creations(start, front)| {
      CreationsStandAtRecords(start, front, i);
      StandsAtMore(start, Records(front), Records(history), Creations(start, front)[i].at);
    } else if Records(front) != [] {
      assert Records(history)[|Records(front)| - 1] == Records(front)[|Records(front)| - 1];
    }
  }

  lemma StandsAtMore(start: Option<nat>, few: seq<Entry>, many: seq<Entry>, at: Option<nat>)
    requires few <= many && StandsAt(start, few, at)
    ensures StandsAt(start, many, at)
  {
    if at != start {
      var k :| 0 <= k < |few| && at == Some(few[k].cursor);
      assert many[k] == few[k];
    }
  }

  /** A history ends in a creation when its last creation stands at its last record. */
  lemma LastCreationIsLast(start: Option<nat>, history: seq<Item>, made: seq<Creation>)
    requires Rising(start, Records(history)) && history != [] && history[|history| - 1].Passed?
    requires made == Creations(start, history) && made != []
    ensures made[|made| - 1].at != CursorAfter(start, Records(history))
  {
    var front := history[..|history| - 1];
    assert Creations(start, front) == made;
    CreationsStandAtRecords(start, front, |made| - 1);
    assert Records(history)[..|Records(front)|] == Records(front);
  }

  /** The last item of a history is its last record or its last creation. */
  lemma LastItem(start: Option<nat>, history: seq<Item>)
    requires history != []
    ensures var last, records, made := history[|history| - 1], Records(history), Creations(start, history);
            if last.Passed? then records != [] && records[|records| - 1] == last.entry
            else made != [] && made[|made| - 1] == Creation(last.quote, CursorAfter(start, records))
  {
  }

  /** Histories with the same records and placed creations end alike. */
  lemma SameLastItem(start: Option<nat>, a: seq<Item>, b: seq<Item>)
    requires a != [] && b != []
    requires Records(a) == Records(b) && Creations(start, a) == Creations(start, b) && Rising(start, Records(a))
    ensures a[|a| - 1] == b[|b| - 1]
  {
    hide Records, Creations, Rising, CursorAfter;
    LastItem(start, a);
    LastItem(start, b);
    if a[|a| - 1].Passed? != b[|b| - 1].Passed? {
      LastCreationIsLast(start, if a[|a| - 1].Passed? then a else b, Creations(start, a));
    }
  }

  lemma SameFront(start: Option<nat>, a: seq<Item>, b: seq<Item>)
    requires a != [] && b != [] && a[|a| - 1] == b[|b| - 1]
    requires Records(a) == Records(b) && Creations(start, a) == Creations(start, b) && Rising(start, Records(a))
    ensures var fa, fb := a[..|a| - 1], b[..|b| - 1];
            Records(fa) == Records(fb) && Creations(start, fa) == Creations(start, fb) && Rising(start, Records(fa))
  {
    var fa, fb := a[..|a| - 1], b[..|b| - 1];
    if a[|a| - 1].Passed? {
      assert Records(a)[..|Records(a)| - 1] == Records(fa) && Records(b)[..|Records(b)| - 1] == Records(fb);
    } else {
      var made := Creations(start, a);
      assert made[..|made| - 1] == Creations(start, fa) && made[..|made| - 1] == Creations(start, fb);
    }
  }

  /** Records and placed creations determine the history. */
  lemma {:induction false} HistoryIsDetermined(start: Option<nat>, a: seq<Item>, b: seq<Item>)
    requires Records(a) == Records(b) && Creations(start, a) == Creations(start, b) && Rising(start, Records(a))
    ensures a == b
    decreases |a|
  {
    if a != [] && b != [] {
      hide Records, Creations, Rising;
      SameLastItem(start, a, b);
      SameFront(start, a, b);
      HistoryIsDetermined(start, a[..|a| - 1], b[..|b| - 1]);
      assert a == a[..|a| - 1] + [a[|a| - 1]] && b == b[..|b| - 1] + [b[|b| - 1]];
    }
  }

  // ------------------------------------------------------------ main results

  /**
   * Whatever the interleaving, memory and the file each hold what one sequential pass leaves: every ledger
   * record up to the durable cursor evaluated once, in order, none skipped, with the quotes created in the
   * order and between the records in which the run created them.
   */
  lemma ScanningIsOnePass(trace: seq<System>, actions: seq<Action>, profile: Profile, base: Journal, k0: nat, i: nat)
    requires IsRun(trace, actions, profile, base, k0) && i < |trace|
    ensures IsOnePass(trace[i].log, trace[i].memMade, profile, base, k0, trace[i].store.mem)
    ensures IsOnePass(trace[i].log, trace[i].diskMade, profile, base, k0, trace[i].store.disk)
  {
    RunInvariant(trace, actions, profile, base, k0, i);
  }

  /** With a fixed quote set the claims are those of the plain left-to-right pass over the log. */
  lemma ScanningFixedQuotes(trace: seq<System>, actions: seq<Action>, profile: Profile, base: Journal, k0: nat, i: nat)
    requires IsRun(trace, actions, profile, base, k0) && i < |trace| && trace[i].memMade == []
    ensures exists k: nat :: k0 <= k <= |trace[i].log|
              && trace[i].store.mem.cursor == CursorAt(trace[i].log, k)
              && Deposits(trace[i].store.mem) == Deposits(Pass(base, profile, trace[i].log[k0..k]))
  {
    hide Invariant;
    ScanningIsOnePass(trace, actions, profile, base, k0, i);
    var s := trace[i];
    var k: nat, history :| Explains(s.log, s.memMade, profile, base, k0, s.store.mem, k, history);
    NoCreationMeansRecordsOnly(base.cursor, history);
    ReplayOfRecordsIsPass(base, profile, history);
  }

  lemma {:induction false} NoCreationMeansRecordsOnly(start: Option<nat>, history: seq<Item>)
    requires Creations(start, history) == []
    ensures forall i :: 0 <= i < |history| ==> history[i].Passed?
  {
    if history != [] { NoCreationMeansRecordsOnly(start, history[..|history| - 1]); }
  }

  /**
   * Two runs over one ledger that created the same quotes at the same places agree whenever their cursors agree,
   * however they were scheduled and wherever they crashed.
   */
  lemma ScanningIsConfluent(ta: seq<System>, aa: seq<Action>, tb: seq<System>, ab: seq<Action>,
                            profile: Profile, base: Journal, k0: nat, i: nat, j: nat)
    requires IsRun(ta, aa, profile, base, k0) && i < |ta|
    requires IsRun(tb, ab, profile, base, k0) && j < |tb|
    requires ta[i].log <= tb[j].log && ta[i].store.mem.cursor == tb[j].store.mem.cursor
    requires ta[i].memMade == tb[j].memMade
    ensures Deposits(ta[i].store.mem) == Deposits(tb[j].store.mem)
  {
    hide IsRun, Invariant, Replay, Records, Creations;
    ScanningIsOnePass(ta, aa, profile, base, k0, i);
    ScanningIsOnePass(tb, ab, profile, base, k0, j);
    var la, lb := ta[i].log, tb[j].log;
    var k: nat, ha :| Explains(la, ta[i].memMade, profile, base, k0, ta[i].store.mem, k, ha);
    var l: nat, hb :| Explains(lb, tb[j].memMade, profile, base, k0, tb[j].store.mem, l, hb);
    assert Ordered(lb) by { LogStaysOrdered(tb, ab, profile, base, k0, j); }
    assert k == l;
    assert la[k0..k] == lb[k0..k];
    assert Rising(base.cursor, lb[k0..k]);
    HistoryIsDetermined(base.cursor, ha, hb);
  }

  lemma LogStaysOrdered(trace: seq<System>, actions: seq<Action>, profile: Profile, base: Journal, k0: nat, i: nat)
    requires IsRun(trace, actions, profile, base, k0) && i < |trace|
    ensures Ordered(trace[i].log)
  {
    hide IsRun;
    RunInvariant(trace, actions, profile, base, k0, i);
  }
}
