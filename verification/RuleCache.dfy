/**
 The generation-stamped rule cache under concurrency (src/config/veysrule.rs): any number of threads load rule files
 and clear the cache, one atomic step at a time, in any interleaving, while the files themselves change.
 A version of a file carries the generation at which it was read, so that how old a result is can be stated.
 */
module RuleCache {
  import opened Base

  type Key = nat
  type ThreadId = nat
  type Content = nat

  /** File content, and the generation current when it was read. */
  datatype Version = Version(content: Content, stamp: nat)

  datatype Entry = Entry(version: Version, mtime: Option<nat>, generation: nat)

  /** `load_dir_config`, `load_dir_config_beneath` and `clear_cache`. */
  datatype Job = Load(key: Key, dev: bool) | LoadBeneath(key: Key, dev: bool) | Clear

  /** Where a thread is between two atomic steps. */
  datatype Phase =
    | Begun
    | Noted(mtime: Option<nat>)
    | Held(mtime: Option<nat>, version: Version)
    | Looking(mtime: Option<nat>, gen: nat, held: Option<Version>)
    | Missed(mtime: Option<nat>, gen: nat)
    | Parsed(mtime: Option<nat>, gen: nat, version: Version)
    | Locked(mtime: Option<nat>, gen: nat, version: Version)
    | Checked(mtime: Option<nat>, gen: nat, version: Version)
    | Bumped
    | Clearing
    | Finished(result: Option<Version>)

  /** A thread with its job, and the generation current when the job began. */
  datatype Thread = Thread(job: Job, began: nat, phase: Phase)

  datatype State = State(
    generation: nat, cache: map<Key, Entry>, writer: Option<ThreadId>, threads: map<ThreadId, Thread>,
    files: map<Key, Content>)

  const START := State(0, map[], None, map[], map[])

  /** What the environment decides: metadata, whether a file can be used, and edits of files. */
  datatype Action =
    | Begin(tid: ThreadId, job: Job)
    | Advance(tid: ThreadId, usable: bool, mtime: Option<nat>)
    | Edit(key: Key, content: Content)

  // ---------------------------------------------------------------- steps

  function FileNow(s: State, key: Key): Version {
    Version(if key in s.files then s.files[key] else 0, s.generation)
  }

  /** The entry is of this generation, and in development mode of this modification time. */
  predicate Hit(s: State, key: Key, dev: bool, gen: nat, mtime: Option<nat>) {
    && key in s.cache && s.cache[key].generation == gen
    && (dev ==> mtime.Some? && s.cache[key].mtime == mtime)
  }

  function At(s: State, tid: ThreadId, phase: Phase): State
    requires tid in s.threads
  {
    s.(threads := s.threads[tid := s.threads[tid].(phase := phase)])
  }

  /** One atomic step of a load; the two loaders differ in whether the file or the generation is read first. */
  function LoadStep(s: State, tid: ThreadId, usable: bool, mtime: Option<nat>): State
    requires tid in s.threads && !s.threads[tid].job.Clear?
  {
    var job := s.threads[tid].job;
    match s.threads[tid].phase
    case Begun =>
      if !usable then At(s, tid, Finished(None))
      else if job.Load? then At(s, tid, Noted(mtime))
      else At(s, tid, Held(mtime, FileNow(s, job.key)))
    case Noted(m) => At(s, tid, Looking(m, s.generation, None))
    case Held(m, v) => At(s, tid, Looking(m, s.generation, Some(v)))
    case Looking(m, g, held) =>
      if s.writer.Some? then s
      else if Hit(s, job.key, job.dev, g, m) then At(s, tid, Finished(Some(s.cache[job.key].version)))
      else if held.None? then At(s, tid, Missed(m, g))
      else if usable then At(s, tid, Parsed(m, g, held.value))
      else At(s, tid, Finished(None))
    case Missed(m, g) => At(s, tid, if usable then Parsed(m, g, FileNow(s, job.key)) else Finished(None))
    case Parsed(m, g, v) => if s.writer.Some? then s else At(s, tid, Locked(m, g, v)).(writer := Some(tid))
    case Locked(m, g, v) =>
      if s.generation == g then At(s, tid, Checked(m, g, v)) else At(s, tid, Finished(Some(v))).(writer := None)
    case Checked(m, g, v) =>
      At(s, tid, Finished(Some(v))).(writer := None, cache := s.cache[job.key := Entry(v, m, g)])
    case _ => s
  }

  /** One atomic step of `clear_cache`: the generation moves before the lock is taken. */
  function ClearStep(s: State, tid: ThreadId): State
    requires tid in s.threads
  {
    match s.threads[tid].phase
    case Begun => At(s, tid, Bumped).(generation := s.generation + 1)
    case Bumped => if s.writer.Some? then s else At(s, tid, Clearing).(writer := Some(tid))
    case Clearing => At(s, tid, Finished(None)).(writer := None, cache := map[])
    case _ => s
  }

  function Apply(s: State, a: Action): State {
    match a
    case Begin(tid, job) =>
      if tid in s.threads && !s.threads[tid].phase.Finished? then s
      else s.(threads := s.threads[tid := Thread(job, s.generation, Begun)])
    case Advance(tid, usable, mtime) =>
      if tid !in s.threads then s
      else if s.threads[tid].job.Clear? then ClearStep(s, tid)
      else LoadStep(s, tid, usable, mtime)
    case Edit(key, content) => s.(files := s.files[key := content])
  }

  function Run(actions: seq<Action>): State {
    if actions == [] then START else Apply(Run(actions[..|actions| - 1]), actions[|actions| - 1])
  }

  // ---------------------------------------------------------------- freshness

  /** A result is no older than the load that returns it. */
  ghost predicate FreshResults(s: State, key: Key) {
    forall tid :: tid in s.threads && !s.threads[tid].job.Clear? && s.threads[tid].job.key == key
                  && s.threads[tid].phase.Finished? && s.threads[tid].phase.result.Some? ==>
      s.threads[tid].phase.result.value.stamp >= s.threads[tid].began
  }

  /**
   What is known of a thread on the way: its generation is no older than its start, its version no older than that.
   */
  ghost predicate ThreadOk(t: Thread, generation: nat) {
    && t.began <= generation
    && match t.phase
       case Held(_, v) => t.began <= v.stamp <= generation
       case Looking(_, g, held) => t.began <= g <= generation && (held.Some? ==> held.value.stamp >= g)
       case Missed(_, g) => t.began <= g <= generation
       case Parsed(_, g, v) => t.began <= g <= v.stamp
       case Locked(_, g, v) => t.began <= g <= v.stamp
       case Checked(_, g, v) => t.began <= g <= v.stamp
       case Finished(r) => r.Some? ==> r.value.stamp >= t.began
       case _ => true
  }

  ghost predicate About(t: Thread, key: Key) {
    !t.job.Clear? && t.job.key == key
  }

  ghost predicate KeyOk(s: State, key: Key) {
    && (key in s.cache ==> s.cache[key].version.stamp >= s.cache[key].generation)
    && (forall tid :: tid in s.threads && About(s.threads[tid], key) ==> ThreadOk(s.threads[tid], s.generation))
  }

  /**
   The one thing that may go wrong: a load that read its file first sees the generation move before it looks at it.
   */
  ghost predicate Disturbed(s: State, a: Action, key: Key) {
    && a.Advance? && a.tid in s.threads && About(s.threads[a.tid], key) && s.threads[a.tid].phase.Held?
    && s.threads[a.tid].phase.version.stamp != s.generation
  }

  /** A load moves its own thread only. */
  lemma LoadTouches(s: State, tid: ThreadId, usable: bool, mtime: Option<nat>)
    requires tid in s.threads && !s.threads[tid].job.Clear?
    ensures var s' := LoadStep(s, tid, usable, mtime);
            && s'.generation == s.generation && tid in s'.threads
            && s'.threads == s.threads[tid := s.threads[tid].(phase := s'.threads[tid].phase)]
            && (s'.threads[tid].phase.Held? && s.threads[tid].job.Load? ==> s.threads[tid].phase.Held?)
  {
    assert s.threads == s.threads[tid := s.threads[tid].(phase := s.threads[tid].phase)];
  }

  /** Putting a thread at a phase puts it there. */
  lemma AtPhase(s: State, tid: ThreadId)
    requires tid in s.threads
    ensures forall phase: Phase ::
              tid in At(s, tid, phase).threads && At(s, tid, phase).threads[tid] == s.threads[tid].(phase := phase)
  {
  }

  lemma LoadOwn(s: State, tid: ThreadId, usable: bool, mtime: Option<nat>, key: Key)
    requires tid in s.threads && About(s.threads[tid], key) && ThreadOk(s.threads[tid], s.generation)
    requires key in s.cache ==> s.cache[key].version.stamp >= s.cache[key].generation
    requires !Disturbed(s, Advance(tid, usable, mtime), key)
    ensures tid in LoadStep(s, tid, usable, mtime).threads
    ensures ThreadOk(LoadStep(s, tid, usable, mtime).threads[tid], s.generation)
  {
    AtPhase(s, tid);
    hide At;
  }

  lemma LoadCaches(s: State, tid: ThreadId, usable: bool, mtime: Option<nat>, key: Key)
    requires tid in s.threads && !s.threads[tid].job.Clear?
    requires About(s.threads[tid], key) ==> ThreadOk(s.threads[tid], s.generation)
    requires key in s.cache ==> s.cache[key].version.stamp >= s.cache[key].generation
    ensures var s' := LoadStep(s, tid, usable, mtime);
            key in s'.cache ==> s'.cache[key].version.stamp >= s'.cache[key].generation
  {
  }

  lemma LoadKeeps(s: State, tid: ThreadId, usable: bool, mtime: Option<nat>, key: Key)
    requires KeyOk(s, key) && tid in s.threads && !s.threads[tid].job.Clear?
             && !Disturbed(s, Advance(tid, usable, mtime), key)
    ensures KeyOk(LoadStep(s, tid, usable, mtime), key)
  {
    hide LoadStep, ThreadOk;
    LoadTouches(s, tid, usable, mtime);
    LoadCaches(s, tid, usable, mtime, key);
    if About(s.threads[tid], key) {
      LoadOwn(s, tid, usable, mtime, key);
    }
  }

  lemma ClearKeeps(s: State, tid: ThreadId, key: Key)
    requires KeyOk(s, key) && tid in s.threads && s.threads[tid].job.Clear?
    ensures KeyOk(ClearStep(s, tid), key)
  {
  }

  lemma ActionKeeps(s: State, a: Action, key: Key)
    requires KeyOk(s, key) && !Disturbed(s, a, key)
    ensures KeyOk(Apply(s, a), key)
  {
    match a
    case Advance(tid, usable, mtime) =>
      if tid in s.threads {
        if s.threads[tid].job.Clear? {
          ClearKeeps(s, tid, key);
        } else {
          LoadKeeps(s, tid, usable, mtime, key);
        }
      }
    case Begin(tid, job) =>
    case Edit(_, _) =>
  }

  /** No load that reads its file first was overtaken by a new generation. */
  ghost predicate Undisturbed(actions: seq<Action>, key: Key) {
    actions == [] ||
    (var n := |actions| - 1; Undisturbed(actions[..n], key) && !Disturbed(Run(actions[..n]), actions[n], key))
  }

  lemma {:induction false} UndisturbedOk(actions: seq<Action>, key: Key)
    requires Undisturbed(actions, key)
    ensures KeyOk(Run(actions), key)
  {
    if actions != [] {
      var n := |actions| - 1;
      UndisturbedOk(actions[..n], key);
      ActionKeeps(Run(actions[..n]), actions[n], key);
    }
  }

  /**
   Under every interleaving, a load never returns content read before the generation at which the load began, as
   long as no file-first load of the same key was overtaken between its two reads.
   */
  lemma NeverStale(actions: seq<Action>, key: Key)
    requires Undisturbed(actions, key)
    ensures FreshResults(Run(actions), key)
  {
    hide Run, Undisturbed;
    UndisturbedOk(actions, key);
    var s := Run(actions);
    forall tid | tid in s.threads && !s.threads[tid].job.Clear? && s.threads[tid].job.key == key
                 && s.threads[tid].phase.Finished? && s.threads[tid].phase.result.Some?
      ensures s.threads[tid].phase.result.value.stamp >= s.threads[tid].began
    {
      assert About(s.threads[tid], key) && ThreadOk(s.threads[tid], s.generation);
    }
  }

  // ---------------------------------------------------------------- generation-first loads alone

  predicate NoBeneath(actions: seq<Action>, key: Key) {
    forall i :: 0 <= i < |actions| ==> actions[i].Begin? && actions[i].job.LoadBeneath? ==> actions[i].job.key != key
  }

  /** Nobody holds a file of this key without having looked at the generation. */
  ghost predicate NobodyHolds(s: State, key: Key) {
    forall tid :: tid in s.threads && About(s.threads[tid], key) ==>
        s.threads[tid].job.Load? && !s.threads[tid].phase.Held?
  }

  lemma {:induction false} NoBeneathUndisturbed(actions: seq<Action>, key: Key)
    requires NoBeneath(actions, key)
    ensures Undisturbed(actions, key) && NobodyHolds(Run(actions), key)
  {
    if actions != [] {
      var n := |actions| - 1;
      NoBeneathUndisturbed(actions[..n], key);
      HoldsKept(Run(actions[..n]), actions[n], key);
    }
  }

  lemma HoldsKept(s: State, a: Action, key: Key)
    requires NobodyHolds(s, key) && (a.Begin? && a.job.LoadBeneath? ==> a.job.key != key)
    ensures NobodyHolds(Apply(s, a), key) && !Disturbed(s, a, key)
  {
    hide LoadStep;
    if a.Advance? && a.tid in s.threads && !s.threads[a.tid].job.Clear? {
      LoadTouches(s, a.tid, a.usable, a.mtime);
    }
  }

  /** For keys filled by `load_dir_config` only, every result of every run is fresh. */
  lemma LoadNeverStale(actions: seq<Action>, key: Key)
    requires NoBeneath(actions, key)
    ensures FreshResults(Run(actions), key)
  {
    hide Run, Undisturbed, FreshResults;
    NoBeneathUndisturbed(actions, key);
    NeverStale(actions, key);
  }

  // ---------------------------------------------------------------- the file-first loader overtaken

  /** Thread 0 reads its file; thread 1 clears the cache; thread 0 goes on and caches; thread 2 loads. */
  function Overtaken(key: Key): seq<Action> {
    [Begin(0, LoadBeneath(key, false)), Advance(0, true, None),
     Begin(1, Clear), Advance(1, true, None), Advance(1, true, None), Advance(1, true, None),
     Advance(0, true, None), Advance(0, true, None), Advance(0, true, None), Advance(0, true, None),
     Advance(0, true, None),
     Begin(2, Load(key, false)), Advance(2, true, None), Advance(2, true, None), Advance(2, true, None)]
  }

  lemma {:induction false} RunSnoc(actions: seq<Action>, a: Action)
    ensures Run(actions + [a]) == Apply(Run(actions), a)
  {
  }

  /** The state after the first `n` actions of the scenario. */
  function Scene(key: Key, n: nat): State
    requires n <= 15
  {
    Run(Overtaken(key)[..n])
  }

  lemma SceneStep(key: Key, n: nat)
    requires n < 15
    ensures Scene(key, n + 1) == Apply(Scene(key, n), Overtaken(key)[n])
  {
    assert Overtaken(key)[..n + 1] == Overtaken(key)[..n] + [Overtaken(key)[n]];
    RunSnoc(Overtaken(key)[..n], Overtaken(key)[n]);
  }

  lemma FirstRead(key: Key)
    ensures Scene(key, 2) == State(0, map[], None,
            map[0 := Thread(LoadBeneath(key, false), 0, Held(None, Version(0, 0)))], map[])
  {
    SceneStep(key, 0);
    SceneStep(key, 1);
  }

  lemma Cleared(key: Key)
    ensures var s := Scene(key, 6);
            && s.generation == 1 && s.cache == map[] && s.writer == None && s.files == map[] && 2 !in s.threads
            && 0 in s.threads && s.threads[0] == Thread(LoadBeneath(key, false), 0, Held(None, Version(0, 0)))
  {
    FirstRead(key);
    hide Scene;
    SceneStep(key, 2);
    SceneStep(key, 3);
    SceneStep(key, 4);
    SceneStep(key, 5);
  }

  lemma Cached(key: Key)
    ensures var s := Scene(key, 11);
            && s.generation == 1 && s.writer == None && 2 !in s.threads
            && s.cache == map[key := Entry(Version(0, 0), None, 1)]
  {
    Cleared(key);
    hide Scene;
    SceneStep(key, 6);
    SceneStep(key, 7);
    SceneStep(key, 8);
    SceneStep(key, 9);
    SceneStep(key, 10);
  }

  lemma AboutToLook(key: Key)
    ensures var s := Scene(key, 14);
            && s.generation == 1 && s.writer == None && s.cache == map[key := Entry(Version(0, 0), None, 1)]
            && 2 in s.threads && s.threads[2] == Thread(Load(key, false), 1, Looking(None, 1, None))
  {
    Cached(key);
    hide Scene, Run;
    SceneStep(key, 11);
    SceneStep(key, 12);
    SceneStep(key, 13);
  }

  lemma StaleServed(key: Key)
    ensures var s := Run(Overtaken(key));
            2 in s.threads && s.threads[2] == Thread(Load(key, false), 1, Finished(Some(Version(0, 0))))
  {
    AboutToLook(key);
    assert Scene(key, 15) == Run(Overtaken(key)) by { assert Overtaken(key)[..15] == Overtaken(key); }
    hide Scene, Run;
    SceneStep(key, 14);
  }

  /**
   Overtaken between its two reads, the file-first loader poisons the cache: a later load gets what was read before.
   */
  lemma OvertakenIsStale(key: Key)
    ensures !FreshResults(Run(Overtaken(key)), key) && !Undisturbed(Overtaken(key), key)
  {
    hide Run, Undisturbed, Overtaken;
    StaleServed(key);
    if Undisturbed(Overtaken(key), key) {
      NeverStale(Overtaken(key), key);
    }
  }

  // ---------------------------------------------------------------- exactly when results are fresh

  /** Every result of every run of loads and clears is fresh; `beneath` says whether file-first loads are among them. */
  ghost predicate AlwaysFresh(key: Key, beneath: bool) {
    forall actions :: beneath || NoBeneath(actions, key) ==> FreshResults(Run(actions), key)
  }

  /** A key's results are fresh in every run exactly if it is never filled by the file-first loader. */
  lemma FreshExactly(key: Key, beneath: bool)
    ensures AlwaysFresh(key, beneath) <==> !beneath
  {
    hide Run, FreshResults;
    if beneath {
      OvertakenIsStale(key);
    } else {
      forall actions | NoBeneath(actions, key) ensures FreshResults(Run(actions), key) {
        LoadNeverStale(actions, key);
      }
    }
  }

  /** An entry stamped with a later generation than the one its content was read in. */
  predicate Poisoned(e: Entry) {
    e.version.stamp < e.generation
  }

  /** The step hands a poisoned entry to a load that began after the entry's content was read. */
  ghost predicate ServesPoison(s: State, a: Action, key: Key) {
    && a.Advance? && a.tid in s.threads && About(s.threads[a.tid], key) && s.threads[a.tid].phase.Looking?
    && s.writer.None?
    && var t := s.threads[a.tid];
       && Hit(s, key, t.job.dev, t.phase.gen, t.phase.mtime)
       && Poisoned(s.cache[key]) && s.cache[key].version.stamp < t.began
  }

  /** All results along a run are fresh. */
  ghost predicate EverFresh(actions: seq<Action>, key: Key) {
    forall n :: 0 <= n <= |actions| ==> FreshResults(Run(actions[..n]), key)
  }

  ghost predicate NeverPoisoned(actions: seq<Action>, key: Key) {
    forall n :: 0 <= n < |actions| ==> !ServesPoison(Run(actions[..n]), actions[n], key)
  }

  /** What holds of every thread on its way, overtaken or not: its own reading is no older than its start. */
  ghost predicate OnItsWay(t: Thread, generation: nat) {
    && t.began <= generation
    && match t.phase
       case Held(_, v) => t.began <= v.stamp
       case Looking(_, g, held) => t.began <= g <= generation && (held.Some? ==> held.value.stamp >= t.began)
       case Missed(_, g) => t.began <= g <= generation
       case Parsed(_, _, v) => t.began <= v.stamp
       case Locked(_, _, v) => t.began <= v.stamp
       case Checked(_, _, v) => t.began <= v.stamp
       case _ => true
  }

  ghost predicate AllOnTheirWay(s: State, key: Key) {
    forall tid :: tid in s.threads && About(s.threads[tid], key) ==> OnItsWay(s.threads[tid], s.generation)
  }

  lemma OwnWay(s: State, tid: ThreadId, usable: bool, mtime: Option<nat>, key: Key)
    requires tid in s.threads && About(s.threads[tid], key) && OnItsWay(s.threads[tid], s.generation)
    ensures tid in LoadStep(s, tid, usable, mtime).threads
            && OnItsWay(LoadStep(s, tid, usable, mtime).threads[tid], s.generation)
  {
    AtPhase(s, tid);
    hide At;
  }

  lemma WayKept(s: State, a: Action, key: Key)
    requires AllOnTheirWay(s, key)
    ensures AllOnTheirWay(Apply(s, a), key)
  {
    hide LoadStep;
    if a.Advance? && a.tid in s.threads && !s.threads[a.tid].job.Clear? {
      hide OnItsWay;
      LoadTouches(s, a.tid, a.usable, a.mtime);
      if About(s.threads[a.tid], key) {
        OwnWay(s, a.tid, a.usable, a.mtime, key);
      }
    }
  }

  /** A load's own result is fresh unless the step serves poison. */
  lemma OwnResult(s: State, tid: ThreadId, usable: bool, mtime: Option<nat>, key: Key)
    requires tid in s.threads && About(s.threads[tid], key) && OnItsWay(s.threads[tid], s.generation)
    requires !s.threads[tid].phase.Finished?
    ensures var s' := LoadStep(s, tid, usable, mtime);
            && tid in s'.threads
            && (s'.threads[tid].phase.Finished? && s'.threads[tid].phase.result.Some? ==>
                  (s'.threads[tid].phase.result.value.stamp < s.threads[tid].began <==>
                      ServesPoison(s, Advance(tid, usable, mtime), key)))
            && (ServesPoison(s, Advance(tid, usable, mtime), key) ==>
                  s'.threads[tid].phase.Finished? && s'.threads[tid].phase.result.Some?)
  {
  }

  lemma FreshStep(s: State, a: Action, key: Key)
    requires AllOnTheirWay(s, key) && FreshResults(s, key)
    ensures FreshResults(Apply(s, a), key) <==> !ServesPoison(s, a, key)
  {
    hide LoadStep, OnItsWay, Hit, Poisoned;
    var s' := Apply(s, a);
    if a.Advance? && a.tid in s.threads && !s.threads[a.tid].job.Clear? {
      LoadTouches(s, a.tid, a.usable, a.mtime);
      if About(s.threads[a.tid], key) && !s.threads[a.tid].phase.Finished? {
        OwnResult(s, a.tid, a.usable, a.mtime, key);
        hide ServesPoison;
        var t' := s'.threads[a.tid];
        if ServesPoison(s, a, key) {
          assert t'.phase.result.value.stamp < t'.began;
        }
      } else {
        FinishedStays(s, a.tid, a.usable, a.mtime);
      }
    }
  }

  lemma FinishedStays(s: State, tid: ThreadId, usable: bool, mtime: Option<nat>)
    requires tid in s.threads && !s.threads[tid].job.Clear?
    ensures s.threads[tid].phase.Finished? ==> LoadStep(s, tid, usable, mtime) == s
  {
  }

  /** A run is fresh throughout, or free of poison, if all of it but the last step is, and the last step too. */
  lemma LastAction(actions: seq<Action>, key: Key)
    requires actions != []
    ensures var n := |actions| - 1; var before := actions[..n];
            && (EverFresh(actions, key) <==> EverFresh(before, key) && FreshResults(Run(actions), key))
            && (NeverPoisoned(actions, key) <==>
               NeverPoisoned(before, key) && !ServesPoison(Run(before), actions[n], key))
            && (EverFresh(before, key) ==> FreshResults(Run(before), key))
  {
    hide FreshResults, ServesPoison, Run;
    var n := |actions| - 1;
    var before := actions[..n];
    assert forall k :: 0 <= k <= n ==> before[..k] == actions[..k];
    assert actions[..n + 1] == actions && before[..n] == before;
    if EverFresh(actions, key) {
      assert FreshResults(Run(actions[..n + 1]), key);
    }
    if EverFresh(before, key) {
      assert FreshResults(Run(before[..n]), key);
    }
    if NeverPoisoned(actions, key) {
      assert !ServesPoison(Run(actions[..n]), actions[n], key);
    }
  }

  lemma {:induction false} FreshRun(actions: seq<Action>, key: Key)
    ensures AllOnTheirWay(Run(actions), key)
    ensures EverFresh(actions, key) <==> NeverPoisoned(actions, key)
    decreases |actions|
  {
    hide FreshResults, ServesPoison, AllOnTheirWay, Apply, EverFresh, NeverPoisoned;
    if actions == [] {
      NothingStale(key);
    } else {
      var n := |actions| - 1;
      var before := actions[..n];
      FreshRun(before, key);
      LastAction(actions, key);
      var s := Run(before);
      WayKept(s, actions[n], key);
      if EverFresh(before, key) {
        FreshStep(s, actions[n], key);
      }
    }
  }

  lemma NothingStale(key: Key)
    ensures AllOnTheirWay(START, key) && EverFresh([], key) && NeverPoisoned([], key)
  {
  }

  /** In any run of any loads, all results are fresh exactly if no load is served an entry poisoned before it began. */
  lemma FreshRunExactly(actions: seq<Action>, key: Key)
    ensures EverFresh(actions, key) <==> NeverPoisoned(actions, key)
  {
    FreshRun(actions, key);
  }
}
