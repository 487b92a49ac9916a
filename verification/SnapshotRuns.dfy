/**
 The apply loop and one snapshot requester, as two threads that share the progress flag.
 A move is one access to what they share: the flag, the indices, the log, the store.
 The consensus code around them may append, replace entries that are not committed, and
 commit more at any time, and the process may crash between any two moves.
 */
module SnapshotRuns {
  import opened RaftTypes
  import opened RaftNode
  import opened Replays
  import opened LogStore

  datatype Progress = Begin | Processing | Done

  /** Where the apply loop stands. From `AtApply` on it carries the commit index it read.
      `Stopped` is where the code panics or reads an entry that is not there. */
  datatype LoopAt =
    | Waiting | AtCheck | SawBegin | AtSkip | AtCommit
    | AtApply(commit: nat) | AtCount(commit: nat) | AtSave(commit: nat) | Stopped

  /** Where the requester stands. */
  datatype AskAt = Out | Asked | Running | Located(term: nat) | Copied(index: nat) | Cutting(index: nat)

  /** `reflects` is history: how many entries the content is the replay of. */
  datatype Snapshot = Snapshot(index: nat, term: nat, content: Store, reflects: nat)

  /** `all` (every entry there ever was, compacted or not) and `written` (how many entries
      the store reflects) are history: no move depends on them. */
  datatype Machine = Machine(
    log: Window,
    commit: nat,        // on disk
    saved: nat,         // the apply index on disk
    applied: nat,       // the apply index in memory
    store: Store,
    progress: Progress,
    loop: LoopAt,
    ask: AskAt,
    snapshot: Option<Snapshot>,
    all: Log,
    written: nat)

  datatype Move =
    | LoopMove                // the apply loop goes on
    | AskMove                 // the requester goes on
    | Commit(c: nat)          // the commit index advances
    | Rewrite(all: Log)       // entries are appended, or replaced past the commit index; the log holds them all
    | Refill(last: nat)       // a log that lost its entries gets the first of them back
    | Crash                   // and restart

  function StepLoop(s: Machine): Machine {
    match s.loop
    case Waiting => s.(loop := AtCheck)
    case AtCheck => s.(loop := if s.progress == Begin then SawBegin else AtSkip)
    case SawBegin => s.(progress := Processing, loop := AtSkip)
    case AtSkip => s.(loop := if s.progress == Processing then Waiting else AtCommit)
    case AtCommit =>
      s.(loop := if s.commit < s.applied then Stopped else if s.commit == s.applied then Waiting else AtApply(s.commit))
    case AtApply(c) =>
      if s.log.Holds(s.applied + 1) then
        s.(store := ApplyEntry(s.store, s.log.At(s.applied + 1)), written := s.applied + 1, loop := AtCount(c))
      else
        s.(loop := Stopped)
    case AtCount(c) => s.(applied := s.applied + 1, loop := AtSave(c))
    case AtSave(c) => s.(saved := s.applied, loop := if c > s.applied then AtCheck else Waiting)
    case Stopped => s
  }

  function StepAsk(s: Machine): Machine {
    match s.ask
    case Out => s.(progress := Begin, ask := Asked)
    case Asked => if s.progress == Processing then s.(ask := Running) else s
    case Running =>
      if s.applied == 0 then s.(progress := Done, ask := Cutting(0))
      else if s.log.Holds(s.applied) then s.(ask := Located(s.log.At(s.applied).term))
      else s.(progress := Done, ask := Out)
    case Located(term) =>
      s.(snapshot := Some(Snapshot(s.applied, term, s.store, s.written)), ask := Copied(s.applied))
    case Copied(index) => s.(progress := Done, ask := Cutting(index))
    case Cutting(index) => s.(log := CutPrefix(s.log, index + 1), ask := Out)
  }

  /** A restart finds again what is on disk, except that a log without entries is found as a new one. */
  function Restarted(s: Machine): Machine {
    s.(log := if s.log.entries == [] then Window(1, []) else s.log,
       applied := s.saved, progress := Done, loop := Waiting, ask := Out)
  }

  /** The log ends before the entries that were there once. */
  predicate Short(s: Machine) {
    s.log.Next() <= |s.all|
  }

  predicate Enabled(s: Machine, m: Move) {
    match m
    case Commit(c) => s.commit <= c <= |s.all|
    case Rewrite(all) => s.commit <= |all| && s.commit <= |s.all| && all[..s.commit] == s.all[..s.commit]
      && 1 <= s.log.start <= |all| + 1
    case Refill(last) => Short(s) && s.log.start == 1 && last < |s.all|
    case _ => true
  }

  function Next(s: Machine, m: Move): Machine
    requires Enabled(s, m)
  {
    match m
    case LoopMove => StepLoop(s)
    case AskMove => StepAsk(s)
    case Commit(c) => s.(commit := c)
    case Rewrite(all) => s.(all := all, log := Window(s.log.start, all[s.log.start - 1..]))
    case Refill(last) => s.(log := Window(1, s.all[..last]))
    case Crash => Restarted(s)
  }

  const FRESH := Machine(Window(1, []), 0, 0, 0, map[], Done, Waiting, Out, None, [], 0)

  ghost predicate Run(run: seq<Machine>, moves: seq<Move>) {
    && |run| == |moves| + 1 && run[0] == FRESH
    && (forall k :: 0 <= k < |moves| ==> Enabled(run[k], moves[k]) && run[k + 1] == Next(run[k], moves[k]))
  }

  // ----- what every move keeps -----

  /** The log is the part of `all` from its start on, and begins at most one past the saved apply index. Or it
      has lost entries: then it is some first part of `all`, all of which was applied. */
  ghost predicate LogOk(log: Window, saved: nat, all: Log) {
    WholeLog(log, saved, all) || ShortLog(log, saved, all)
  }

  ghost predicate WholeLog(log: Window, saved: nat, all: Log) {
    1 <= log.start <= saved + 1 <= |all| + 1 && log.entries == all[log.start - 1..]
  }

  ghost predicate ShortLog(log: Window, saved: nat, all: Log) {
    log.start == 1 && log.entries < all && saved == |all|
  }

  /** The store is the replay of what was applied, or of one entry more. */
  ghost predicate StoreOk(saved: nat, applied: nat, written: nat, commit: nat, all: Log, store: Store) {
    && saved <= applied <= written <= saved + 1
    && written <= commit <= |all|
    && store == Replay(all, written)
  }

  ghost predicate LoopOk(loop: LoopAt, saved: nat, applied: nat, written: nat, commit: nat) {
    match loop
    case AtApply(c) => saved == applied < c <= commit
    case AtCount(c) => saved == applied < c <= commit && written == applied + 1
    case AtSave(c) => saved + 1 == applied == written && applied <= c <= commit
    case Stopped => false
    case _ => saved == applied
  }

  predicate Taken(ask: AskAt) {
    ask.Running? || ask.Located? || ask.Copied?
  }

  predicate Aside(loop: LoopAt) {
    loop.Waiting? || loop.AtCheck? || loop.AtSkip?
  }

  /** While a snapshot is taken the flag says so and the loop is nowhere near the store. */
  ghost predicate FlagOk(progress: Progress, loop: LoopAt, ask: AskAt) {
    match progress
    case Begin => ask.Asked?
    case Processing => (ask.Asked? || Taken(ask)) && Aside(loop)
    case Done => !ask.Asked? && !Taken(ask) && !loop.SawBegin?
  }

  /** Once the requester has found its entry, the log reaches as far as was applied. */
  ghost predicate AskOk(ask: AskAt, log: Window, saved: nat, applied: nat, snapshot: Option<Snapshot>) {
    match ask
    case Located(term) => saved < log.Next() && applied >= 1 && log.Holds(applied) && log.At(applied).term == term
    case Copied(index) => saved < log.Next() && snapshot.Some? && snapshot.value.index == index
    case Cutting(index) => index == 0 || (saved < log.Next() && snapshot.Some? && snapshot.value.index == index)
    case _ => true
  }

  /** The log begins no later than right after the snapshot, whose content is the
      replay of the entries it covers, or of one more. What a log has lost, the snapshot covers. */
  ghost predicate SnapshotOk(snapshot: Option<Snapshot>, log: Window, saved: nat, commit: nat, all: Log) {
    match snapshot
    case None => log.start == 1 && log.Next() > |all|
    case Some(p) =>
      && 1 <= p.index <= saved && log.start <= p.index + 1
      && (log.Next() <= |all| ==> p.index == |all|)
      && p.index <= p.reflects <= p.index + 1 && p.reflects <= commit <= |all|
      && p.term == all[p.index - 1].term
      && p.content == Replay(all, p.reflects)
  }

  ghost predicate Ok(s: Machine) {
    && LogOk(s.log, s.saved, s.all)
    && StoreOk(s.saved, s.applied, s.written, s.commit, s.all, s.store)
    && LoopOk(s.loop, s.saved, s.applied, s.written, s.commit)
    && FlagOk(s.progress, s.loop, s.ask)
    && AskOk(s.ask, s.log, s.saved, s.applied, s.snapshot)
    && SnapshotOk(s.snapshot, s.log, s.saved, s.commit, s.all)
  }

  ghost predicate Taking(s: Machine) {
    Taken(s.ask)
  }

  /** Whether the entry was written before or not, the store now reflects it. */
  lemma ApplyNext(s: Machine)
    requires LogOk(s.log, s.saved, s.all) && StoreOk(s.saved, s.applied, s.written, s.commit, s.all, s.store)
    requires s.applied == s.saved && s.applied < s.commit
    ensures s.log.Holds(s.applied + 1)
    ensures ApplyEntry(s.store, s.log.At(s.applied + 1)) == Replay(s.all, s.applied + 1)
  {
    hide ApplyEntry;
    if s.written == s.applied + 1 {
      ApplyTwice(Replay(s.all, s.applied), s.all[s.applied]);
    }
  }

  lemma LoopKeeps(s: Machine)
    requires Ok(s)
    ensures Ok(StepLoop(s))
  {
    hide Replay, ApplyEntry, LogOk, SnapshotOk;
    if s.loop.AtApply? {
      ApplyNext(s);
    } else if s.loop.AtSave? {
      SavedMore(s, s.applied);
    }
  }

  lemma SavedMore(s: Machine, saved: nat)
    requires LogOk(s.log, s.saved, s.all) && SnapshotOk(s.snapshot, s.log, s.saved, s.commit, s.all)
    requires s.saved < saved <= |s.all|
    ensures LogOk(s.log, saved, s.all) && SnapshotOk(s.snapshot, s.log, saved, s.commit, s.all) && saved < s.log.Next()
  {
    hide Replay;
  }

  lemma AskKeeps(s: Machine)
    requires Ok(s)
    ensures Ok(StepAsk(s))
  {
    hide Replay, LogOk, StoreOk, SnapshotOk;
    if s.ask.Located? {
      hide LogOk, SnapshotOk;
      CopyOk(s);
    } else if s.ask.Cutting? {
      CutOk(s, s.ask.index);
    }
  }

  lemma CopyOk(s: Machine)
    requires Ok(s) && s.ask.Located?
    ensures SnapshotOk(Some(Snapshot(s.applied, s.ask.term, s.store, s.written)), s.log, s.saved, s.commit, s.all)
  {
    hide Replay, LogOk, WholeLog;
    LogAt(s.log, s.saved, s.all, s.applied);
    Reaches(s.log, s.saved, s.all);
  }

  /** A log that reaches as far as was applied holds everything from its start on. */
  lemma Reaches(log: Window, saved: nat, all: Log)
    requires LogOk(log, saved, all) && saved < log.Next()
    ensures WholeLog(log, saved, all) && log.Next() == |all| + 1
  {
  }

  lemma LogAt(log: Window, saved: nat, all: Log, i: nat)
    requires LogOk(log, saved, all) && log.Holds(i)
    ensures 1 <= i <= |all| && log.At(i) == all[i - 1]
  {
  }

  lemma CutOk(s: Machine, index: nat)
    requires LogOk(s.log, s.saved, s.all) && SnapshotOk(s.snapshot, s.log, s.saved, s.commit, s.all)
    requires index == 0 || (s.saved < s.log.Next() && s.snapshot.Some? && s.snapshot.value.index == index)
    ensures
      var log := CutPrefix(s.log, index + 1);
      LogOk(log, s.saved, s.all) && SnapshotOk(s.snapshot, log, s.saved, s.commit, s.all)
  {
    hide Replay, WholeLog, ShortLog;
    LogBegins(s.log, s.saved, s.all);
    if index > 0 {
      Reaches(s.log, s.saved, s.all);
      CutWhole(s.log, s.saved, s.all, index);
    }
  }

  lemma LogBegins(log: Window, saved: nat, all: Log)
    requires LogOk(log, saved, all)
    ensures log.start >= 1
  {
  }

  lemma CutWhole(log: Window, saved: nat, all: Log, index: nat)
    requires WholeLog(log, saved, all) && index <= saved
    ensures var cut := CutPrefix(log, index + 1); WholeLog(cut, saved, all) && cut.Next() == |all| + 1
    ensures CutPrefix(log, index + 1).start == Max(log.start, index + 1)
  {
  }

  lemma CommitKeeps(s: Machine, c: nat)
    requires Ok(s) && Enabled(s, Commit(c))
    ensures Ok(Next(s, Commit(c)))
  {
    hide Replay, LogOk, FlagOk, AskOk;
  }

  lemma RewriteKeeps(s: Machine, all: Log)
    requires Ok(s) && Enabled(s, Rewrite(all))
    ensures Ok(Next(s, Rewrite(all)))
  {
    hide Replay, FlagOk, LoopOk, AskOk, LogOk, SnapshotOk;
    SamePrefix(all, s.all, s.commit, s.written);
    RewriteLog(s, all);
    RewriteSnapshot(s, all);
  }

  lemma RewriteLog(s: Machine, all: Log)
    requires LogOk(s.log, s.saved, s.all) && AskOk(s.ask, s.log, s.saved, s.applied, s.snapshot)
    requires Enabled(s, Rewrite(all)) && s.saved <= s.applied <= s.commit
    ensures
      var log := Window(s.log.start, all[s.log.start - 1..]);
      LogOk(log, s.saved, all) && log.Next() == |all| + 1 && AskOk(s.ask, log, s.saved, s.applied, s.snapshot)
  {
    if s.ask.Located? {
      LogAt(s.log, s.saved, s.all, s.applied);
      SameEntry(all, s.all, s.commit, s.applied - 1);
    }
  }

  lemma RewriteSnapshot(s: Machine, all: Log)
    requires SnapshotOk(s.snapshot, s.log, s.saved, s.commit, s.all) && s.saved <= s.commit && Enabled(s, Rewrite(all))
    ensures SnapshotOk(s.snapshot, Window(s.log.start, all[s.log.start - 1..]), s.saved, s.commit, all)
  {
    hide Replay;
    if s.snapshot.Some? {
      SamePrefix(all, s.all, s.commit, s.snapshot.value.reflects);
      SameEntry(all, s.all, s.commit, s.snapshot.value.index - 1);
    }
  }

  lemma SameEntry(a: Log, b: Log, n: nat, k: nat)
    requires k < n <= |a| && n <= |b| && a[..n] == b[..n]
    ensures a[k] == b[k]
  {
    assert a[..n][k] == b[..n][k];
  }

  lemma RefillKeeps(s: Machine, last: nat)
    requires Ok(s) && Enabled(s, Refill(last))
    ensures Ok(Next(s, Refill(last)))
  {
    hide Replay, StoreOk, FlagOk, LoopOk;
    assert s.all[..last] < s.all;
  }

  lemma SamePrefix(a: Log, b: Log, n: nat, k: nat)
    requires k <= n <= |a| && n <= |b| && a[..n] == b[..n]
    ensures Replay(a, k) == Replay(b, k)
  {
    assert a[..k] == a[..n][..k] && b[..k] == b[..n][..k];
    ReplayPrefix(a, b, k);
  }

  lemma CrashKeeps(s: Machine)
    requires Ok(s)
    ensures Ok(Restarted(s))
  {
    hide Replay, SnapshotOk, LogOk;
    CrashLog(s);
  }

  lemma CrashLog(s: Machine)
    requires LogOk(s.log, s.saved, s.all) && SnapshotOk(s.snapshot, s.log, s.saved, s.commit, s.all)
    ensures
      var log := Restarted(s).log;
      LogOk(log, s.saved, s.all) && SnapshotOk(s.snapshot, log, s.saved, s.commit, s.all)
  {
    hide Replay;
    if s.log.entries == [] && s.all != [] {
      assert [] < s.all;
    }
  }

  lemma MoveKeeps(s: Machine, m: Move)
    requires Ok(s) && Enabled(s, m)
    ensures Ok(Next(s, m))
  {
    hide Ok, StepLoop, StepAsk;
    match m
    case LoopMove => LoopKeeps(s);
    case AskMove => AskKeeps(s);
    case Commit(c) => CommitKeeps(s, c);
    case Rewrite(all) => RewriteKeeps(s, all);
    case Refill(last) => RefillKeeps(s, last);
    case Crash => CrashKeeps(s);
  }

  lemma {:induction false} RunOk(run: seq<Machine>, moves: seq<Move>, k: nat)
    requires Run(run, moves) && k < |run|
    ensures Ok(run[k])
  {
    if k == 0 {
      assert FRESH.log.entries == FRESH.all[0..];
    } else {
      hide Ok, Next, Enabled;
      RunOk(run, moves, k - 1);
      MoveKeeps(run[k - 1], moves[k - 1]);
    }
  }

  // ----- the theorems -----

  lemma FrozenStep(s: Machine, m: Move)
    requires FlagOk(s.progress, s.loop, s.ask) && Taking(s) && Enabled(s, m) && Taking(Next(s, m))
    ensures var s' := Next(s, m); s.applied == s'.applied && s.saved == s'.saved && s.store == s'.store
  {
  }

  /** Under every interleaving, nothing is applied while a snapshot is taken. */
  lemma {:induction false} FrozenWhileTaken(run: seq<Machine>, moves: seq<Move>, a: nat, b: nat)
    requires Run(run, moves) && a <= b < |run|
    requires forall k :: a <= k <= b ==> Taking(run[k])
    ensures run[a].applied == run[b].applied && run[a].saved == run[b].saved && run[a].store == run[b].store
  {
    hide LogOk, StoreOk, LoopOk, FlagOk, AskOk, SnapshotOk, Next, Enabled, Taking;
    if a < b {
      FrozenWhileTaken(run, moves, a, b - 1);
      RunOk(run, moves, b - 1);
      assert Taking(run[b - 1]) && Taking(run[b]);
      FrozenStep(run[b - 1], moves[b - 1]);
    }
  }

  /** With a crash between any two moves: the loop never stops on a missing entry or a commit
      index behind the apply index; the store is the replay of k entries where k is the saved
      apply index or one more; and no entry is cut from the log before it was applied. */
  lemma ApplySurvivesCrashes(run: seq<Machine>, moves: seq<Move>, j: nat)
    requires Run(run, moves) && j < |run|
    ensures !run[j].loop.Stopped?
    ensures run[j].saved <= run[j].written <= run[j].saved + 1 && run[j].written <= run[j].commit <= |run[j].all|
    ensures run[j].store == Replay(run[j].all, run[j].written)
    ensures forall i :: run[j].saved < i <= |run[j].all| ==>
      run[j].log.Holds(i) && run[j].log.At(i) == run[j].all[i - 1]
  {
    hide Replay, SnapshotOk, AskOk, FlagOk;
    RunOk(run, moves, j);
    LogFacts(run[j].log, run[j].saved, run[j].all);
  }

  lemma LogFacts(log: Window, saved: nat, all: Log)
    requires LogOk(log, saved, all)
    ensures forall i :: saved < i <= |all| ==> log.Holds(i) && log.At(i) == all[i - 1]
  {
  }

  /** The entries after i, up to n, that a log holds. */
  function Kept(log: Window, i: nat, n: nat): seq<Entry>
    requires log.start <= i + 1 <= n + 1
  {
    if log.Next() <= i + 1 then [] else log.entries[i + 1 - log.start..Min(n + 1, log.Next()) - log.start]
  }

  /** If the snapshot covers what the log has lost, nothing is missing between the two. */
  lemma KeptIsSuffix(log: Window, saved: nat, all: Log, i: nat, n: nat)
    requires LogOk(log, saved, all) && log.start <= i + 1 && i <= n <= |all| && (log.Next() <= |all| ==> i == |all|)
    ensures Kept(log, i, n) == all[i..n]
  {
  }

  /** The snapshot and the entries kept after it mean the same as the whole log, at every index past the snapshot; at
      its own index they do if the store was not ahead. This holds even after the log has lost its entries. */
  lemma SnapshotAndSuffix(run: seq<Machine>, moves: seq<Move>, j: nat, n: nat)
    requires Run(run, moves) && j < |run| && run[j].snapshot.Some?
    requires run[j].snapshot.value.index <= n <= |run[j].all|
    ensures
      var s := run[j];
      var p := s.snapshot.value;
      && s.log.start <= p.index + 1
      && (n > p.index || p.reflects == p.index ==> Fold(p.content, Kept(s.log, p.index, n)) == Replay(s.all, n))
  {
    hide Replay, Fold, LogOk, Kept;
    RunOk(run, moves, j);
    var s := run[j];
    var p := s.snapshot.value;
    KeptIsSuffix(s.log, s.saved, s.all, p.index, n);
    if p.reflects == p.index {
      ReplayResumes(s.all, p.index, n);
    } else if n > p.index {
      ReplayOverlaps(s.all, p.index, n);
    }
  }

  // ----- when a log has lost its entries -----

  /** At step k the process crashes with its log compacted away entirely. */
  ghost predicate Loses(run: seq<Machine>, moves: seq<Move>, k: nat) {
    k < |moves| && k < |run| && moves[k].Crash? && run[k].log.entries == [] && run[k].log.start > 1
  }

  ghost predicate Rewrites(moves: seq<Move>, k: nat) {
    k < |moves| && moves[k].Rewrite?
  }

  /** There was such a crash before j, and the log has not been brought back since. */
  ghost predicate Lost(run: seq<Machine>, moves: seq<Move>, j: nat) {
    exists c: nat :: c < j && Loses(run, moves, c) && forall k: nat :: c < k < j ==> !Rewrites(moves, k)
  }

  lemma LostStep(run: seq<Machine>, moves: seq<Move>, j: nat)
    requires j < |moves| && j < |run|
    ensures Lost(run, moves, j + 1) <==> Loses(run, moves, j) || (Lost(run, moves, j) && !Rewrites(moves, j))
  {
    hide Loses, Rewrites;
    if Lost(run, moves, j) && !Rewrites(moves, j) {
      var c: nat :| c < j && Loses(run, moves, c) && forall k: nat :: c < k < j ==> !Rewrites(moves, k);
      assert forall k: nat :: c < k < j + 1 ==> !Rewrites(moves, k);
    }
  }

  lemma ShortStep(s: Machine, m: Move)
    requires LogOk(s.log, s.saved, s.all) && AskOk(s.ask, s.log, s.saved, s.applied, s.snapshot) && Enabled(s, m)
    requires SnapshotOk(s.snapshot, s.log, s.saved, s.commit, s.all)
    ensures Short(Next(s, m)) <==>
      (m.Crash? && s.log.entries == [] && s.log.start > 1) || (Short(s) && !m.Rewrite?)
  {
    hide LogOk, SnapshotOk, AskOk, StepLoop, StepAsk, Restarted, Short;
    match m
    case LoopMove => ShortLoop(s);
    case AskMove => ShortAsk(s);
    case Commit(c) => ShortSame(s, s.(commit := c));
    case Rewrite(all) => ShortRewrite(s, all);
    case Refill(last) => ShortRefill(s, last);
    case Crash => ShortCrash(s);
  }

  /** Only the log and what was there once decide. */
  lemma ShortSame(s: Machine, s': Machine)
    requires s'.log == s.log && s'.all == s.all
    ensures Short(s') <==> Short(s)
  {
  }

  lemma ShortAsk(s: Machine)
    requires LogOk(s.log, s.saved, s.all) && AskOk(s.ask, s.log, s.saved, s.applied, s.snapshot)
    requires SnapshotOk(s.snapshot, s.log, s.saved, s.commit, s.all)
    ensures Short(StepAsk(s)) <==> Short(s)
  {
    hide LogOk, SnapshotOk;
    if s.ask.Cutting? {
      CutShort(s, s.ask.index);
    }
  }

  lemma ShortRewrite(s: Machine, all: Log)
    requires Enabled(s, Rewrite(all))
    ensures !Short(Next(s, Rewrite(all)))
  {
    assert |all[s.log.start - 1..]| == |all| + 1 - s.log.start;
  }

  lemma ShortRefill(s: Machine, last: nat)
    requires Enabled(s, Refill(last))
    ensures Short(s) && Short(Next(s, Refill(last)))
  {
  }

  lemma ShortCrash(s: Machine)
    requires LogOk(s.log, s.saved, s.all)
    ensures Short(Restarted(s)) <==> (s.log.entries == [] && s.log.start > 1) || Short(s)
  {
    hide LogOk;
    CrashShort(s.log, s.saved, s.all);
  }

  lemma ShortLoop(s: Machine)
    ensures Short(StepLoop(s)) <==> Short(s)
  {
  }

  lemma CrashShort(log: Window, saved: nat, all: Log)
    requires LogOk(log, saved, all)
    ensures log.entries == [] ==> (1 <= |all| <==> log.start > 1 || log.Next() <= |all|)
    ensures log.entries == [] && log.start == 1 ==> log == Window(1, [])
    ensures log.start >= 1 && (log.start > 1 ==> log.Next() > |all|)
  {
  }

  lemma CutShort(s: Machine, index: nat)
    requires LogOk(s.log, s.saved, s.all) && SnapshotOk(s.snapshot, s.log, s.saved, s.commit, s.all)
    requires index == 0 || (s.saved < s.log.Next() && s.snapshot.Some? && s.snapshot.value.index == index)
    ensures s.log.Next() <= |s.all| <==> CutPrefix(s.log, index + 1).Next() <= |s.all|
  {
    hide Replay, WholeLog, ShortLog;
    LogBegins(s.log, s.saved, s.all);
    if index > 0 {
      Reaches(s.log, s.saved, s.all);
      CutWhole(s.log, s.saved, s.all, index);
    }
  }

  /** In every run, the log ends before the entries that were there once if and only if the process crashed with its
      log compacted away entirely and the log has not been brought back since. */
  lemma {:induction false} ShortIffLost(run: seq<Machine>, moves: seq<Move>, j: nat)
    requires Run(run, moves) && j < |run|
    ensures Short(run[j]) <==> Lost(run, moves, j)
  {
    hide LogOk, StoreOk, LoopOk, FlagOk, AskOk, SnapshotOk, Next, Enabled, Lost, Short;
    if j == 0 {
      NothingLost(run, moves);
    } else {
      ShortIffLost(run, moves, j - 1);
      RunOk(run, moves, j - 1);
      LostStep(run, moves, j - 1);
      ShortStep(run[j - 1], moves[j - 1]);
    }
  }

  lemma NothingLost(run: seq<Machine>, moves: seq<Move>)
    ensures !Lost(run, moves, 0) && !Short(FRESH)
  {
  }

  // ----- when a snapshot is exactly what it says -----

  /** The loop writes an entry to the store at step k. */
  ghost predicate Writes(run: seq<Machine>, moves: seq<Move>, k: nat) {
    k < |moves| && k < |run| && moves[k].LoopMove? && run[k].loop.AtApply?
  }

  /** The loop writes the apply index at step k. */
  ghost predicate Saves(run: seq<Machine>, moves: seq<Move>, k: nat) {
    k < |moves| && k < |run| && moves[k].LoopMove? && run[k].loop.AtSave?
  }

  /** Before j, the last write to the store was not followed by the write of its index. */
  ghost predicate Unsaved(run: seq<Machine>, moves: seq<Move>, j: nat) {
    exists w: nat :: w < j && Writes(run, moves, w) && forall k: nat :: w < k < j ==> !Saves(run, moves, k)
  }

  lemma NothingUnsaved(run: seq<Machine>, moves: seq<Move>)
    ensures !Unsaved(run, moves, 0)
  {
  }

  lemma UnsavedStep(run: seq<Machine>, moves: seq<Move>, j: nat)
    requires j < |moves| && j < |run|
    ensures Unsaved(run, moves, j + 1) <==>
      Writes(run, moves, j) || (Unsaved(run, moves, j) && !Saves(run, moves, j))
  {
    hide Writes, Saves;
    if Unsaved(run, moves, j) && !Saves(run, moves, j) {
      var w: nat :| w < j && Writes(run, moves, w) && forall k: nat :: w < k < j ==> !Saves(run, moves, k);
      assert forall k: nat :: w < k < j + 1 ==> !Saves(run, moves, k);
    }
  }

  lemma WrittenStep(s: Machine, m: Move)
    requires LogOk(s.log, s.saved, s.all) && StoreOk(s.saved, s.applied, s.written, s.commit, s.all, s.store)
    requires LoopOk(s.loop, s.saved, s.applied, s.written, s.commit) && Enabled(s, m)
    ensures
      var s' := Next(s, m);
      if m.LoopMove? && s.loop.AtApply? then s'.written == s'.saved + 1
      else if m.LoopMove? && s.loop.AtSave? then s'.written == s'.saved
      else s'.written == s.written && s'.saved == s.saved
  {
    hide Replay, ApplyEntry;
    if s.loop.AtApply? {
      ApplyNext(s);
    }
  }

  /** In every run, whatever crashes: the store is one entry ahead of the saved apply index exactly
      while its last write has not been followed by the write of its index. */
  lemma {:induction false} AheadIffUnsaved(run: seq<Machine>, moves: seq<Move>, j: nat)
    requires Run(run, moves) && j < |run|
    ensures run[j].written == run[j].saved + if Unsaved(run, moves, j) then 1 else 0
  {
    hide LogOk, StoreOk, LoopOk, FlagOk, AskOk, SnapshotOk, Next, Enabled, Unsaved;
    if j == 0 {
      NothingUnsaved(run, moves);
    } else {
      AheadIffUnsaved(run, moves, j - 1);
      RunOk(run, moves, j - 1);
      UnsavedStep(run, moves, j - 1);
      WrittenStep(run[j - 1], moves[j - 1]);
    }
  }

  /** The requester copies the store at step k. */
  ghost predicate Copies(run: seq<Machine>, moves: seq<Move>, k: nat) {
    k < |moves| && k < |run| && moves[k].AskMove? && run[k].ask.Located?
  }

  /** The snapshot of run[j] is the one copied at step k. */
  ghost predicate CopiedAt(run: seq<Machine>, moves: seq<Move>, k: nat, j: nat) {
    k < j && Copies(run, moves, k) && forall i: nat :: k < i < j ==> !Copies(run, moves, i)
  }

  lemma OnlyCopies(s: Machine, m: Move)
    requires Enabled(s, m) && !(m.AskMove? && s.ask.Located?)
    ensures Next(s, m).snapshot == s.snapshot
  {
  }

  lemma {:induction false} SnapshotStays(run: seq<Machine>, moves: seq<Move>, k: nat, j: nat)
    requires Run(run, moves) && j < |run| && CopiedAt(run, moves, k, j)
    ensures run[j].snapshot == run[k + 1].snapshot
  {
    if j > k + 1 {
      hide Next, Enabled;
      SnapshotStays(run, moves, k, j - 1);
      assert !Copies(run, moves, j - 1);
      OnlyCopies(run[j - 1], moves[j - 1]);
    }
  }

  /** Every snapshot was copied at some step. */
  lemma {:induction false} CopyOf(run: seq<Machine>, moves: seq<Move>, j: nat) returns (k: nat)
    requires Run(run, moves) && j < |run| && run[j].snapshot.Some?
    ensures CopiedAt(run, moves, k, j)
  {
    hide Next, Enabled;
    if Copies(run, moves, j - 1) {
      k := j - 1;
    } else {
      OnlyCopies(run[j - 1], moves[j - 1]);
      k := CopyOf(run, moves, j - 1);
    }
  }

  lemma CopyReflects(run: seq<Machine>, moves: seq<Move>, k: nat)
    requires Run(run, moves) && Copies(run, moves, k)
    ensures run[k + 1].snapshot.Some?
    ensures
      var p := run[k + 1].snapshot.value;
      p.index == run[k].saved && p.reflects == run[k].written
  {
    hide LogOk, StoreOk, AskOk, SnapshotOk;
    RunOk(run, moves, k);
  }

  /** A snapshot holds exactly the entries it says if and only if, when it was copied, the last write to the
      store had been followed by the write of its index. If not, it holds one entry more, and its content is
      right at its own index if and only if that entry changes nothing. */
  lemma SnapshotExactIff(run: seq<Machine>, moves: seq<Move>, k: nat, j: nat)
    requires Run(run, moves) && j < |run| && CopiedAt(run, moves, k, j)
    ensures run[j].snapshot.Some?
    ensures
      var p := run[j].snapshot.value;
      && 1 <= p.index <= |run[j].all|
      && (p.reflects == p.index <==> !Unsaved(run, moves, k))
      && (Unsaved(run, moves, k) ==> p.index < |run[j].all|)
      && (p.content == Replay(run[j].all, p.index) <==>
          !Unsaved(run, moves, k) || Replay(run[j].all, p.index + 1) == Replay(run[j].all, p.index))
  {
    hide LogOk, StoreOk, LoopOk, FlagOk, AskOk, Replay, Unsaved, Next, Enabled;
    SnapshotStays(run, moves, k, j);
    CopyReflects(run, moves, k);
    AheadIffUnsaved(run, moves, k);
    RunOk(run, moves, j);
  }

  /** Without a crash, the loop is never anywhere else between its two writes. */
  lemma {:induction false} UnsavedInside(run: seq<Machine>, moves: seq<Move>, j: nat)
    requires Run(run, moves) && j < |run| && Unsaved(run, moves, j)
    requires forall k :: 0 <= k < j ==> !moves[k].Crash?
    ensures run[j].loop.AtCount? || run[j].loop.AtSave?
  {
    hide LogOk, StoreOk, LoopOk, FlagOk, AskOk, SnapshotOk, Unsaved, Enabled;
    if j == 0 {
      NothingUnsaved(run, moves);
      assert false;
    }
    UnsavedStep(run, moves, j - 1);
    RunOk(run, moves, j);
    StopsNever(run[j]);
    if Writes(run, moves, j - 1) {
      assert run[j] == StepLoop(run[j - 1]);
    } else {
      UnsavedInside(run, moves, j - 1);
      assert run[j] == Next(run[j - 1], moves[j - 1]) && !moves[j - 1].Crash?;
    }
  }

  lemma StopsNever(s: Machine)
    requires LoopOk(s.loop, s.saved, s.applied, s.written, s.commit)
    ensures !s.loop.Stopped?
  {
  }

  /** So without a crash every snapshot is exactly the replay of the entries it says. */
  lemma ExactWithoutCrash(run: seq<Machine>, moves: seq<Move>, j: nat)
    requires Run(run, moves) && j < |run| && run[j].snapshot.Some?
    requires forall k :: 0 <= k < j ==> !moves[k].Crash?
    ensures run[j].snapshot.value.index <= |run[j].all|
    ensures run[j].snapshot.value.content == Replay(run[j].all, run[j].snapshot.value.index)
  {
    hide LogOk, StoreOk, LoopOk, AskOk, SnapshotOk, Replay, Unsaved, Next, Enabled;
    var k := CopyOf(run, moves, j);
    SnapshotExactIff(run, moves, k, j);
    RunOk(run, moves, k);
    if Unsaved(run, moves, k) {
      UnsavedInside(run, moves, k);
      assert false;
    }
  }

  // ----- a snapshot that holds more than it says -----

  ghost predicate Reached(s: Machine) {
    exists run, moves :: Run(run, moves) && run[|moves|] == s
  }

  lemma Go(s: Machine, m: Move, s': Machine)
    requires Reached(s) && Enabled(s, m) && s' == Next(s, m)
    ensures Reached(s')
  {
    hide Enabled, Next;
    var run, moves :| Run(run, moves) && run[|moves|] == s;
    assert Run(run + [s'], moves + [m]);
  }

  /** The apply loop takes one entry as far as the store. */
  lemma ReachStore(s: Machine)
    requires Reached(s) && s.progress == Done && s.loop.AtCheck? && s.applied < s.commit && s.log.Holds(s.applied + 1)
    ensures Reached(s.(store := ApplyEntry(s.store, s.log.At(s.applied + 1)), written := s.applied + 1,
        loop := AtCount(s.commit)))
  {
    hide Reached, ApplyEntry;
    Go(s, LoopMove, s.(loop := AtSkip));
    Go(s.(loop := AtSkip), LoopMove, s.(loop := AtCommit));
    Go(s.(loop := AtCommit), LoopMove, s.(loop := AtApply(s.commit)));
    var e := s.log.At(s.applied + 1);
    Go(s.(loop := AtApply(s.commit)), LoopMove,
       s.(store := ApplyEntry(s.store, e), written := s.applied + 1, loop := AtCount(s.commit)));
  }

  /** A snapshot is asked for while the loop waits, and copied. */
  lemma ReachCopy(s: Machine)
    requires Reached(s) && s.loop.Waiting? && s.ask.Out? && s.applied > 0 && s.log.Holds(s.applied)
    ensures
      var p := Snapshot(s.applied, s.log.At(s.applied).term, s.store, s.written);
      Reached(s.(progress := Processing, loop := AtSkip, ask := Copied(s.applied), snapshot := Some(p)))
  {
    hide Reached;
    var s1 := s.(progress := Begin, ask := Asked);
    Go(s, AskMove, s1);
    Go(s1, LoopMove, s1.(loop := AtCheck));
    Go(s1.(loop := AtCheck), LoopMove, s1.(loop := SawBegin));
    var s2 := s1.(progress := Processing, loop := AtSkip);
    Go(s1.(loop := SawBegin), LoopMove, s2);
    Go(s2, AskMove, s2.(ask := Running));
    var term := s.log.At(s.applied).term;
    Go(s2.(ask := Running), AskMove, s2.(ask := Located(term)));
    Go(s2.(ask := Located(term)), AskMove,
       s2.(ask := Copied(s.applied), snapshot := Some(Snapshot(s.applied, term, s.store, s.written))));
  }

  /** A snapshot that was asked for right after a crash between the write to the store and
      the write of the apply index includes one entry more than it says. */
  lemma AheadAfterCrash(key: string, value: string) returns (s: Machine)
    ensures Reached(s) && s.snapshot.Some? && s.snapshot.value.index == 1 <= |s.all|
    ensures s.snapshot.value.content == map[key := value] && Replay(s.all, 1) == map[]
  {
    var none: seq<Move> := [];
    assert Run([FRESH], none) && [FRESH][|none|] == FRESH;
    hide Reached;
    var all := [Entry(1, Noop), Entry(1, Normal(Write(key, value)))];
    var s1 := FRESH.(all := all, log := Window(1, all));
    Go(FRESH, Rewrite(all), s1);
    var s2 := s1.(commit := 2);
    Go(s1, Commit(2), s2);
    var s3 := s2.(loop := AtCheck);
    Go(s2, LoopMove, s3);
    ReachStore(s3);
    var s4 := s3.(written := 1, loop := AtCount(2));
    Go(s4, LoopMove, s4.(applied := 1, loop := AtSave(2)));
    var s5 := s4.(applied := 1, saved := 1, loop := AtCheck);
    Go(s4.(applied := 1, loop := AtSave(2)), LoopMove, s5);
    ReachStore(s5);
    var s6 := s5.(written := 2, store := map[key := value], loop := AtCount(2));
    var s7 := s6.(loop := Waiting);
    Go(s6, Crash, s7);
    ReachCopy(s7);
    s := s7.(progress := Processing, loop := AtSkip, ask := Copied(1), snapshot := Some(Snapshot(1, 1,
        map[key := value], 2)));
    assert Replay(all, 1) == ApplyEntry(Replay(all, 0), all[0]);
  }

  // ----- a log that loses its entries -----

  /** The apply loop finishes one entry, the last committed one. */
  lemma ReachSave(s: Machine)
    requires Reached(s) && s.loop == AtCount(s.applied + 1)
    ensures Reached(s.(applied := s.applied + 1, saved := s.applied + 1, loop := Waiting))
  {
    hide Reached;
    var s1 := s.(applied := s.applied + 1, loop := AtSave(s.applied + 1));
    Go(s, LoopMove, s1);
    Go(s1, LoopMove, s1.(saved := s1.applied, loop := Waiting));
  }

  /** A snapshot of a log with one entry cuts all of it; after a crash the log is a new one, although the commit
      index is 1. */
  lemma LogIsLost(e: Entry) returns (s: Machine)
    ensures Reached(s) && s.all == [e] && s.commit == 1 && s.log == Window(1, []) && Short(s)
  {
    var none: seq<Move> := [];
    assert Run([FRESH], none) && [FRESH][|none|] == FRESH;
    hide Reached, ApplyEntry;
    var s1 := FRESH.(all := [e], log := Window(1, [e]));
    Go(FRESH, Rewrite([e]), s1);
    var s2 := s1.(commit := 1);
    Go(s1, Commit(1), s2);
    var s3 := s2.(loop := AtCheck);
    Go(s2, LoopMove, s3);
    ReachStore(s3);
    var s4 := s3.(store := ApplyEntry(map[], e), written := 1, loop := AtCount(1));
    ReachSave(s4);
    var s5 := s4.(applied := 1, saved := 1, loop := Waiting);
    ReachCopy(s5);
    var p := Snapshot(1, e.term, s5.store, 1);
    var s6 := s5.(progress := Processing, loop := AtSkip, ask := Copied(1), snapshot := Some(p));
    var s7 := s6.(progress := Done, ask := Cutting(1));
    Go(s6, AskMove, s7);
    var s8 := s7.(log := Window(2, []), ask := Out);
    Go(s7, AskMove, s8);
    s := Restarted(s8);
    Go(s8, Crash, s);
  }
}
