/**
 What the loads of the rule cache return: content that the key's own file had, read after its modification time was
 noted. In development mode that modification time is the one the load itself was told.
 */
module RuleCacheContent {
  import opened Base
  import opened RuleCache

  /** At step `i` a load of the key is told the modification time of its file. */
  ghost predicate Told(actions: seq<Action>, i: nat, key: Key, mtime: Option<nat>) {
    && i < |actions| && actions[i].Advance? && actions[i].usable && actions[i].mtime == mtime
    && var s := Run(actions[..i]);
       && actions[i].tid in s.threads && About(s.threads[actions[i].tid], key)
       && s.threads[actions[i].tid].phase.Begun?
  }

  /** After `k` steps the key's file has this content, in this generation. */
  ghost predicate There(actions: seq<Action>, k: nat, key: Key, v: Version) {
    k <= |actions| && FileNow(Run(actions[..k]), key) == v
  }

  ghost predicate Noting(actions: seq<Action>, key: Key, mtime: Option<nat>) {
    exists i :: Told(actions, i, key, mtime)
  }

  /** The modification time was noted and then, or in the same step, the version read. */
  ghost predicate NotedThenRead(actions: seq<Action>, key: Key, mtime: Option<nat>, v: Version) {
    exists i, k :: Told(actions, i, key, mtime) && There(actions, k, key, v) && i <= k
  }

  ghost predicate ReadOnce(actions: seq<Action>, key: Key, v: Version) {
    exists mtime :: NotedThenRead(actions, key, mtime, v)
  }

  /** What is known of where a thread's modification time and version come from. */
  ghost predicate Sourced(actions: seq<Action>, key: Key, p: Phase) {
    match p
    case Noted(m) => Noting(actions, key, m)
    case Held(m, v) => NotedThenRead(actions, key, m, v)
    case Looking(m, _, held) =>
      Noting(actions, key, m) && (held.Some? ==> NotedThenRead(actions, key, m, held.value))
    case Missed(m, _) => Noting(actions, key, m)
    case Parsed(m, _, v) => NotedThenRead(actions, key, m, v)
    case Locked(m, _, v) => NotedThenRead(actions, key, m, v)
    case Checked(m, _, v) => NotedThenRead(actions, key, m, v)
    case Finished(r) => r.Some? ==> ReadOnce(actions, key, r.value)
    case _ => true
  }

  ghost predicate AllSourced(actions: seq<Action>, s: State, key: Key) {
    && (key in s.cache ==> NotedThenRead(actions, key, s.cache[key].mtime, s.cache[key].version))
    && (forall tid :: tid in s.threads && About(s.threads[tid], key) ==> Sourced(actions, key, s.threads[tid].phase))
  }

  // ---------------------------------------------------------------- longer runs

  lemma Earlier(actions: seq<Action>, a: Action, i: nat)
    requires i <= |actions|
    ensures (actions + [a])[..i] == actions[..i]
  {
  }

  lemma NotingGrows(actions: seq<Action>, a: Action, key: Key, mtime: Option<nat>)
    requires Noting(actions, key, mtime)
    ensures Noting(actions + [a], key, mtime)
  {
    var i :| Told(actions, i, key, mtime);
    Earlier(actions, a, i);
    assert Told(actions + [a], i, key, mtime);
  }

  lemma ReadGrows(actions: seq<Action>, a: Action, key: Key, mtime: Option<nat>, v: Version)
    requires NotedThenRead(actions, key, mtime, v)
    ensures NotedThenRead(actions + [a], key, mtime, v)
  {
    hide Run;
    var i, k :| Told(actions, i, key, mtime) && There(actions, k, key, v) && i <= k;
    Earlier(actions, a, i);
    Earlier(actions, a, k);
    assert Told(actions + [a], i, key, mtime) && There(actions + [a], k, key, v);
  }

  lemma SourcedGrows(actions: seq<Action>, a: Action, key: Key, p: Phase)
    requires Sourced(actions, key, p)
    ensures Sourced(actions + [a], key, p)
  {
    hide Noting, NotedThenRead;
    match p
    case Noted(m) => NotingGrows(actions, a, key, m);
    case Held(m, v) => ReadGrows(actions, a, key, m, v);
    case Looking(m, _, held) =>
      NotingGrows(actions, a, key, m);
      if held.Some? {
        ReadGrows(actions, a, key, m, held.value);
      }
    case Missed(m, _) => NotingGrows(actions, a, key, m);
    case Parsed(m, _, v) => ReadGrows(actions, a, key, m, v);
    case Locked(m, _, v) => ReadGrows(actions, a, key, m, v);
    case Checked(m, _, v) => ReadGrows(actions, a, key, m, v);
    case Finished(r) =>
      if r.Some? {
        var m :| NotedThenRead(actions, key, m, r.value);
        ReadGrows(actions, a, key, m, r.value);
      }
    case _ =>
  }

  lemma AllGrows(actions: seq<Action>, a: Action, s: State, key: Key)
    requires AllSourced(actions, s, key)
    ensures AllSourced(actions + [a], s, key)
  {
    hide Sourced, NotedThenRead;
    if key in s.cache {
      ReadGrows(actions, a, key, s.cache[key].mtime, s.cache[key].version);
    }
    forall tid | tid in s.threads && About(s.threads[tid], key)
      ensures Sourced(actions + [a], key, s.threads[tid].phase)
    {
      SourcedGrows(actions, a, key, s.threads[tid].phase);
    }
  }

  // ---------------------------------------------------------------- one step

  /** What is noted and read in a step can be seen in the run that has it. */
  lemma JustTold(actions: seq<Action>, a: Action, key: Key)
    requires a.Advance? && a.usable
    requires var s := Run(actions);
             a.tid in s.threads && About(s.threads[a.tid], key) && s.threads[a.tid].phase.Begun?
    ensures Noting(actions + [a], key, a.mtime)
    ensures NotedThenRead(actions + [a], key, a.mtime, FileNow(Run(actions), key))
  {
    hide Run;
    var n := |actions|;
    assert (actions + [a])[..n] == actions;
    assert Told(actions + [a], n, key, a.mtime) && There(actions + [a], n, key, FileNow(Run(actions), key));
  }

  lemma JustRead(actions: seq<Action>, a: Action, key: Key, mtime: Option<nat>)
    requires Noting(actions, key, mtime)
    ensures NotedThenRead(actions + [a], key, mtime, FileNow(Run(actions), key))
  {
    hide Run;
    var i :| Told(actions, i, key, mtime);
    var n := |actions|;
    Earlier(actions, a, i);
    assert (actions + [a])[..n] == actions;
    assert Told(actions + [a], i, key, mtime) && There(actions + [a], n, key, FileNow(Run(actions), key));
  }

  lemma ReadNoted(actions: seq<Action>, key: Key, mtime: Option<nat>, v: Version)
    requires NotedThenRead(actions, key, mtime, v)
    ensures Noting(actions, key, mtime)
  {
    hide Told, There;
  }

  lemma OwnSource(actions: seq<Action>, a: Action, key: Key)
    requires a.Advance? && AllSourced(actions, Run(actions), key) && AllSourced(actions + [a], Run(actions), key)
    requires a.tid in Run(actions).threads && About(Run(actions).threads[a.tid], key)
    ensures var s' := LoadStep(Run(actions), a.tid, a.usable, a.mtime);
            a.tid in s'.threads && Sourced(actions + [a], key, s'.threads[a.tid].phase)
  {
    hide Run, Noting, NotedThenRead, FileNow;
    var s := Run(actions);
    AtPhase(s, a.tid);
    hide At;
    if s.threads[a.tid].phase.Begun? && a.usable {
      JustTold(actions, a, key);
    }
    if s.threads[a.tid].phase.Held? {
      ReadNoted(actions + [a], key, s.threads[a.tid].phase.mtime, s.threads[a.tid].phase.version);
    }
    if s.threads[a.tid].phase.Missed? {
      JustRead(actions, a, key, s.threads[a.tid].phase.mtime);
    }
  }

  lemma CacheSource(actions: seq<Action>, a: Action, key: Key)
    requires a.Advance? && AllSourced(actions + [a], Run(actions), key)
    requires a.tid in Run(actions).threads && !Run(actions).threads[a.tid].job.Clear?
    ensures var s' := LoadStep(Run(actions), a.tid, a.usable, a.mtime);
            key in s'.cache ==> NotedThenRead(actions + [a], key, s'.cache[key].mtime, s'.cache[key].version)
  {
    hide Run, Noting, NotedThenRead, FileNow;
  }

  lemma LoadSourced(actions: seq<Action>, a: Action, key: Key)
    requires a.Advance? && AllSourced(actions, Run(actions), key) && AllSourced(actions + [a], Run(actions), key)
    requires a.tid in Run(actions).threads && !Run(actions).threads[a.tid].job.Clear?
    ensures AllSourced(actions + [a], LoadStep(Run(actions), a.tid, a.usable, a.mtime), key)
  {
    hide Run, NotedThenRead, Sourced, LoadStep;
    var s := Run(actions);
    LoadTouches(s, a.tid, a.usable, a.mtime);
    CacheSource(actions, a, key);
    if About(s.threads[a.tid], key) {
      OwnSource(actions, a, key);
    }
  }

  lemma ActionSourced(actions: seq<Action>, a: Action, key: Key)
    requires AllSourced(actions, Run(actions), key)
    ensures AllSourced(actions + [a], Apply(Run(actions), a), key)
  {
    hide Run, NotedThenRead, LoadStep;
    var s := Run(actions);
    AllGrows(actions, a, s, key);
    if a.Advance? && a.tid in s.threads && !s.threads[a.tid].job.Clear? {
      LoadSourced(actions, a, key);
    }
  }

  // ---------------------------------------------------------------- whole runs

  lemma {:induction false} RunSourced(actions: seq<Action>, key: Key)
    ensures AllSourced(actions, Run(actions), key)
  {
    hide AllSourced, Apply;
    if actions == [] {
      NothingSourced(key);
    } else {
      var n := |actions| - 1;
      RunSourced(actions[..n], key);
      ActionSourced(actions[..n], actions[n], key);
      assert actions[..n] + [actions[n]] == actions;
    }
  }

  lemma NothingSourced(key: Key)
    ensures AllSourced([], START, key)
  {
  }

  /**
   Under every interleaving, what a load returns is content that the key's own file had at some moment of the run, in
   the generation of its stamp.
   */
  lemma ResultsWereThere(actions: seq<Action>, tid: ThreadId)
    requires var s := Run(actions);
             tid in s.threads && !s.threads[tid].job.Clear? && s.threads[tid].phase.Finished?
                 && s.threads[tid].phase.result.Some?
    ensures var t := Run(actions).threads[tid];
            exists k: nat :: There(actions, k, t.job.key, t.phase.result.value)
  {
    hide Run, There, Told;
    var t := Run(actions).threads[tid];
    RunSourced(actions, t.job.key);
    assert About(t, t.job.key) && Sourced(actions, t.job.key, t.phase);
    var m :| NotedThenRead(actions, t.job.key, m, t.phase.result.value);
    var i, k :| Told(actions, i, t.job.key, m) && There(actions, k, t.job.key, t.phase.result.value) && i <= k;
  }

  /** The modification time a thread goes by, once it has been told. */
  function GoesBy(p: Phase): Option<nat> {
    match p
    case Noted(m) => m
    case Held(m, _) => m
    case Looking(m, _, _) => m
    case Missed(m, _) => m
    case Parsed(m, _, _) => m
    case Locked(m, _, _) => m
    case Checked(m, _, _) => m
    case _ => None
  }

  /**
   In development mode, whatever the step that ends a load, the result was read no earlier than some load of the key was
   told the very modification time this load goes by: a cached version of another modification time is never returned.
   */
  lemma DevResults(actions: seq<Action>, a: Action)
    requires a.Advance? && a.tid in Run(actions).threads
    requires var t := Run(actions).threads[a.tid]; !t.job.Clear? && t.job.dev && !t.phase.Finished?
    ensures var t, s' := Run(actions).threads[a.tid], Run(actions + [a]);
            a.tid in s'.threads && s'.threads[a.tid].phase.Finished? && s'.threads[a.tid].phase.result.Some? ==>
              NotedThenRead(actions, t.job.key, GoesBy(t.phase), s'.threads[a.tid].phase.result.value)
  {
    RunSnoc(actions, a);
    hide Run, NotedThenRead, Noting, FileNow;
    var s := Run(actions);
    var t := s.threads[a.tid];
    RunSourced(actions, t.job.key);
    assert About(t, t.job.key) && Sourced(actions, t.job.key, t.phase);
    AtPhase(s, a.tid);
    hide At;
  }
}
