/** The install transaction of `get_vim_plugins`: a staging loop that builds
    a `<dest><new suffix>` directory for every destination, and a swap loop
    that retires each live directory to `<dest><old suffix>` and promotes
    the staged one. The filesystem is the set of entries under the plugin
    root, by name, each with its contents; a name is one key even when it
    contains `/`, so the results about where directories end up require
    entry names directly under the root (NoCollision). */
module Install {
  import opened Basics
  import opened Paths
  import opened Fetch

  type Bytes = seq<bv8>

  /** The contents of one directory tree: files by path inside it. */
  datatype Dir = Dir(files: map<string, Bytes>)

  const EmptyDir := Dir(map[])

  /** The entries under the plugin root, by name relative to it. */
  type FileSystem = map<string, Dir>

  /** The effect of carrying out a fetch plan on the staging directory it
      targets (downloading, unpacking, running a command). The model lets
      it change that directory and nothing else, although an absolute
      `name`, `extract` or `remove_dir`, or the shell command itself, could
      reach further in the script. */
  type Fetcher = (FetchPlan, Dir) -> Dir

  /** The plugin root, the two suffixes and the declared plugins and
      getters. */
  datatype Settings = Settings(vimDir: string, newSuffix: string, oldSuffix: string,
                               plugins: seq<Plugin>, getters: seq<Getter>)

  /** The getter that a plugin of get type t uses, if any, formats a
      template without `%`. */
  predicate GetterOk(gs: seq<Getter>, t: string)
  {
    match FirstGetter(gs, t)
    case None => true
    case Some(k) => TemplatesOk(gs[k])
  }

  /** Every template the run formats is free of `%`; getters no plugin
      reaches, and templates `get_plugin` does not read, are unconstrained. */
  predicate SettingsOk(c: Settings)
  {
    forall i :: 0 <= i < |c.plugins| ==> GetterOk(c.getters, c.plugins[i].getType)
  }

  /** The staging directory of destination d, as passed to `get_plugin`. */
  function StagingDir(c: Settings, d: string): (r: string)
  {
    Join(c.vimDir, d + c.newSuffix)
  }

  /** For a plugin root such as `/home/u/.vim` and a staging name that is a
      single segment, the staging directory is root/name, a directory path
      without a trailing `/` that the path lemmas of `get_plugin` apply to. */
  lemma StagingDirName(c: Settings, d: string)
    requires DirName(c.vimDir) && Segment(d + c.newSuffix)
    ensures StagingDir(c, d) == c.vimDir + "/" + (d + c.newSuffix)
    ensures DirName(StagingDir(c, d))
  {
    DirJoin(c.vimDir, d + c.newSuffix);
  }

  /** A plan applied to a staging directory; Skip leaves it as it is. */
  function Apply(fetch: Fetcher, plan: FetchPlan, content: Dir): (r: Dir)
  {
    if plan.Skip? then content else fetch(plan, content)
  }

  /** What staging plugin p does to its staging directory when a getter
      matches and `get_plugin` succeeds. A template with `%` is outside the
      model and is given no effect; SettingsOk keeps every plugin of a run
      away from that case. */
  function PluginEffect(c: Settings, fetch: Fetcher, p: Plugin, content: Dir): (r: Dir)
  {
    match FirstGetter(c.getters, p.getType)
    case None => content
    case Some(k) =>
      if !TemplatesOk(c.getters[k]) then content
      else match GetPlugin(p, c.getters[k], StagingDir(c, p.dest))
      case Fail(_) => content
      case Ok(plan) => Apply(fetch, plan, content)
  }

  /** The staging directory of destination d after the plugins ps are
      staged: the empty directory, written by every plugin of ps with
      destination d, in declared order. */
  function StagedContent(c: Settings, fetch: Fetcher, ps: seq<Plugin>, d: string): (r: Dir)
    decreases |ps|
  {
    if ps == [] then EmptyDir
    else
      var prev := StagedContent(c, fetch, ps[..|ps| - 1], d);
      if ps[|ps| - 1].dest == d then PluginEffect(c, fetch, ps[|ps| - 1], prev) else prev
  }

  /** The destinations of a plugin sequence. */
  function Dests(ps: seq<Plugin>): (r: set<string>)
  {
    set p | p in ps :: p.dest
  }

  /** The names ds with a suffix appended. */
  function Suffixed(ds: set<string>, suffix: string): (r: set<string>)
  {
    set d | d in ds :: d + suffix
  }

  /** The exit code plugin j causes when every plugin before it succeeded,
      against the filesystem fs0 before the run: 2 when its destination is
      new and its staging directory already exists, 3 when no getter has its
      get type, 4 when the getter needs a working name and the locator has
      none (exactly when GetPlugin fails), 0 otherwise. */
  function PluginCode(c: Settings, fs0: FileSystem, j: nat): (r: int)
    requires SettingsOk(c) && j < |c.plugins|
  {
    var p := c.plugins[j];
    if p.dest !in Dests(c.plugins[..j]) && p.dest + c.newSuffix in fs0 then ExitConflict
    else
      match FirstGetter(c.getters, p.getType)
      case None => ExitNoGetter
      case Some(k) =>
        if NeedsWorkingName(c.getters[k]) && WorkingName(p.url).Fail? then ExitBadName else 0
  }

  /** Plugin j is the first that stops the run. */
  ghost predicate FirstFailure(c: Settings, fs0: FileSystem, j: nat)
    requires SettingsOk(c)
  {
    j < |c.plugins| && PluginCode(c, fs0, j) != 0 &&
    forall i :: 0 <= i < j ==> PluginCode(c, fs0, i) == 0
  }

  /** The destinations whose staging directory exists when plugin j stops
      the run: those before it, and its own unless the stop is a conflict. */
  function StoppedSeen(c: Settings, fs0: FileSystem, j: nat): (r: set<string>)
    requires SettingsOk(c) && j < |c.plugins|
  {
    if PluginCode(c, fs0, j) == ExitConflict then Dests(c.plugins[..j])
    else Dests(c.plugins[..j + 1])
  }

  ghost predicate Untouched(fs0: FileSystem, fs: FileSystem, k: string)
  {
    (k in fs <==> k in fs0) && (k in fs ==> fs[k] == fs0[k])
  }

  /** fs is fs0 with a staging directory added for every destination in
      seen, holding what the plugins ps wrote to it, and nothing else
      changed; none of those staging directories existed in fs0. */
  ghost predicate StagedState(c: Settings, fetch: Fetcher, fs0: FileSystem, fs: FileSystem,
                              seen: set<string>, ps: seq<Plugin>)
    requires SettingsOk(c)
  {
    fs.Keys == fs0.Keys + Suffixed(seen, c.newSuffix) &&
    (forall d :: d in seen ==> d + c.newSuffix !in fs0) &&
    (forall d :: d in seen ==> fs[d + c.newSuffix] == StagedContent(c, fetch, ps, d)) &&
    (forall k :: k in fs0 ==> fs[k] == fs0[k])
  }

  /** The outcome of the staging loop. */
  datatype StageOutcome =
    | Staged(fs: FileSystem, staged: set<string>)
    | Stopped(code: int, fs: FileSystem)

  lemma SuffixInjective(a: string, b: string, s: string)
    requires a + s == b + s
    ensures a == b
  {
    assert a == (a + s)[..|a|];
    assert b == (b + s)[..|b|];
  }

  lemma DestsSnoc(ps: seq<Plugin>, p: Plugin)
    ensures Dests(ps + [p]) == Dests(ps) + {p.dest}
  {
    var qs := ps + [p];
    forall d | d in Dests(qs) ensures d in Dests(ps) + {p.dest} {
      var q :| q in qs && q.dest == d;
    }
    forall d | d in Dests(ps) ensures d in Dests(qs) {
      var q :| q in ps && q.dest == d;
      assert q in qs;
    }
    assert p in qs;
  }

  /** No plugin of ps has destination d: its staging directory is still
      the empty directory it was created as. */
  lemma {:induction false} StagedContentUnseen(c: Settings, fetch: Fetcher, ps: seq<Plugin>, d: string)
    requires SettingsOk(c) && d !in Dests(ps)
    ensures StagedContent(c, fetch, ps, d) == EmptyDir
    decreases |ps|
  {
    if ps != [] {
      var qs := ps[..|ps| - 1];
      DestsSnoc(qs, ps[|ps| - 1]);
      assert qs + [ps[|ps| - 1]] == ps;
      StagedContentUnseen(c, fetch, qs, d);
    }
  }

  /** Before a destination is first seen its staging directory exists in
      the staged state exactly when it did before the run. */
  lemma UnseenStagingName(c: Settings, fetch: Fetcher, fs0: FileSystem, fs: FileSystem,
                          seen: set<string>, ps: seq<Plugin>, d: string)
    requires SettingsOk(c) && StagedState(c, fetch, fs0, fs, seen, ps) && d !in seen
    ensures d + c.newSuffix in fs <==> d + c.newSuffix in fs0
  {
    forall e | e in seen ensures e + c.newSuffix != d + c.newSuffix {
      if e + c.newSuffix == d + c.newSuffix { SuffixInjective(e, d, c.newSuffix); }
    }
  }

  /** Creating the empty staging directory of a new destination. */
  lemma StageCreate(c: Settings, fetch: Fetcher, fs0: FileSystem, fs: FileSystem,
                    ps: seq<Plugin>, d: string)
    requires SettingsOk(c) && StagedState(c, fetch, fs0, fs, Dests(ps), ps)
    requires d !in Dests(ps) && d + c.newSuffix !in fs0
    ensures StagedState(c, fetch, fs0, fs[d + c.newSuffix := EmptyDir], Dests(ps) + {d}, ps)
  {
    StagedContentUnseen(c, fetch, ps, d);
    var fs' := fs[d + c.newSuffix := EmptyDir];
    forall e | e in Dests(ps) ensures fs'[e + c.newSuffix] == StagedContent(c, fetch, ps, e) {
      if e + c.newSuffix == d + c.newSuffix { SuffixInjective(e, d, c.newSuffix); }
    }
    assert Suffixed(Dests(ps) + {d}, c.newSuffix) == Suffixed(Dests(ps), c.newSuffix) + {d + c.newSuffix};
  }

  /** Running plugin i's getter into the staging directory of its (already
      seen) destination. */
  lemma StageWrite(c: Settings, fetch: Fetcher, fs0: FileSystem, fs: FileSystem,
                   seen: set<string>, i: nat)
    requires SettingsOk(c) && i < |c.plugins|
    requires StagedState(c, fetch, fs0, fs, seen, c.plugins[..i]) && c.plugins[i].dest in seen
    ensures var p := c.plugins[i];
            var next := p.dest + c.newSuffix;
            StagedState(c, fetch, fs0, fs[next := PluginEffect(c, fetch, p, fs[next])], seen, c.plugins[..i + 1])
  {
    var p := c.plugins[i];
    var next := p.dest + c.newSuffix;
    var fs' := fs[next := PluginEffect(c, fetch, p, fs[next])];
    var qs := c.plugins[..i + 1];
    assert qs[..|qs| - 1] == c.plugins[..i] && qs[|qs| - 1] == p;
    forall e | e in seen ensures fs'[e + c.newSuffix] == StagedContent(c, fetch, qs, e) {
      if e + c.newSuffix == next { SuffixInjective(e, p.dest, c.newSuffix); }
    }
  }

  /** The first half of an iteration of the staging loop
      (update_bundles.py:122-129): a destination seen for the first time gets
      an empty staging directory, unless that name is already taken. */
  method OpenStaging(c: Settings, fetch: Fetcher, fs0: FileSystem, fs: FileSystem,
                     backup: set<string>, i: nat)
    returns (conflict: bool, fs': FileSystem, backup': set<string>)
    requires SettingsOk(c) && i < |c.plugins|
    requires backup == Dests(c.plugins[..i]) && StagedState(c, fetch, fs0, fs, backup, c.plugins[..i])
    ensures conflict <==>
              c.plugins[i].dest !in Dests(c.plugins[..i]) && c.plugins[i].dest + c.newSuffix in fs0
    ensures conflict ==> fs' == fs
    ensures !conflict ==>
              backup' == Dests(c.plugins[..i + 1]) &&
              StagedState(c, fetch, fs0, fs', backup', c.plugins[..i])
  {
    var p := c.plugins[i];
    var next := p.dest + c.newSuffix;
    assert c.plugins[..i + 1] == c.plugins[..i] + [p];
    DestsSnoc(c.plugins[..i], p);
    fs', backup' := fs, backup;
    if p.dest !in backup' {
      UnseenStagingName(c, fetch, fs0, fs', backup', c.plugins[..i], p.dest);
      if next in fs' {
        return true, fs', backup';
      }
      StageCreate(c, fetch, fs0, fs', c.plugins[..i], p.dest);
      fs' := fs'[next := EmptyDir];
      backup' := backup' + {p.dest};
    }
    conflict := false;
  }

  /** One iteration of the staging loop, for plugin i, after every plugin
      before it succeeded: open the staging directory (exit 2 on a
      conflict), find the getter (exit 3 if none), and run it into that
      directory (exit 4 if it needs a name the locator lacks). The code it
      stops with is the one PluginCode predicts. */
  method StagePlugin(c: Settings, fetch: Fetcher, fs0: FileSystem, fs: FileSystem,
                     backup: set<string>, i: nat)
    returns (code: int, fs': FileSystem, backup': set<string>)
    requires SettingsOk(c) && i < |c.plugins|
    requires backup == Dests(c.plugins[..i]) && StagedState(c, fetch, fs0, fs, backup, c.plugins[..i])
    ensures code == PluginCode(c, fs0, i)
    ensures code == 0 ==>
              backup' == Dests(c.plugins[..i + 1]) &&
              StagedState(c, fetch, fs0, fs', backup', c.plugins[..i + 1])
    ensures code == ExitConflict ==> StagedState(c, fetch, fs0, fs', Dests(c.plugins[..i]), c.plugins[..i])
    ensures code != 0 && code != ExitConflict ==>
              StagedState(c, fetch, fs0, fs', Dests(c.plugins[..i + 1]), c.plugins[..i])
  {
    var p := c.plugins[i];
    var conflict;
    conflict, fs', backup' := OpenStaging(c, fetch, fs0, fs, backup, i);
    if conflict {
      return ExitConflict, fs', backup';
    }
    var k := FindGetter(c.getters, p.getType);
    if k.None? {
      return ExitNoGetter, fs', backup';
    }
    var plan := GetPlugin(p, c.getters[k.value], StagingDir(c, p.dest));
    if plan.Fail? {
      return plan.code, fs', backup';
    }
    StageWrite(c, fetch, fs0, fs', backup', i);
    fs' := fs'[p.dest + c.newSuffix := Apply(fetch, plan.value, fs'[p.dest + c.newSuffix])];
    code := 0;
  }

  /** Every one of the first n plugins succeeds. */
  ghost predicate AllSucceed(c: Settings, fs0: FileSystem, n: nat)
    requires SettingsOk(c) && n <= |c.plugins|
  {
    n == 0 || (AllSucceed(c, fs0, n - 1) && PluginCode(c, fs0, n - 1) == 0)
  }

  lemma {:induction false} AllSucceedMeans(c: Settings, fs0: FileSystem, n: nat)
    requires SettingsOk(c) && n <= |c.plugins|
    ensures AllSucceed(c, fs0, n) <==> forall j :: 0 <= j < n ==> PluginCode(c, fs0, j) == 0
  {
    if n > 0 {
      AllSucceedMeans(c, fs0, n - 1);
    }
  }

  /** The staging loop of `get_vim_plugins` (update_bundles.py:120-136).
      It succeeds exactly when every plugin does, and then every destination
      has a fresh staging directory holding what its plugins fetched, with
      nothing else changed. Otherwise it stops at the first failing plugin
      with that plugin's code, leaving the directories staged so far. */
  method Stage(c: Settings, fetch: Fetcher, fs0: FileSystem) returns (res: StageOutcome)
    requires SettingsOk(c)
    ensures res.Staged? <==> forall j :: 0 <= j < |c.plugins| ==> PluginCode(c, fs0, j) == 0
    ensures res.Staged? ==>
              res.staged == Dests(c.plugins) && StagedState(c, fetch, fs0, res.fs, res.staged, c.plugins)
    ensures res.Stopped? ==>
              exists j: nat :: FirstFailure(c, fs0, j) && res.code == PluginCode(c, fs0, j) &&
                StagedState(c, fetch, fs0, res.fs, StoppedSeen(c, fs0, j), c.plugins[..j])
  {
    var fs := fs0;
    var backup: set<string> := {};
    for i := 0 to |c.plugins|
      invariant backup == Dests(c.plugins[..i])
      invariant AllSucceed(c, fs0, i)
      invariant StagedState(c, fetch, fs0, fs, backup, c.plugins[..i])
    {
      var code;
      code, fs, backup := StagePlugin(c, fetch, fs0, fs, backup, i);
      if code != 0 {
        AllSucceedMeans(c, fs0, i);
        assert FirstFailure(c, fs0, i);
        return Stopped(code, fs);
      }
    }
    assert c.plugins[..|c.plugins|] == c.plugins;
    AllSucceedMeans(c, fs0, |c.plugins|);
    return Staged(fs, backup);
  }

  /** `os.rename(src, dst)` on entries of the plugin root. */
  function Rename(fs: FileSystem, src: string, dst: string): (r: FileSystem)
    requires src in fs
    ensures dst in r && r[dst] == fs[src]
    ensures src != dst ==> src !in r
    ensures forall k :: k != src && k != dst ==> Untouched(fs, r, k)
  {
    if src == dst then fs else (fs - {src})[dst := fs[src]]
  }

  /** dst holds exactly what src held in fs0 (it is absent if src was). */
  ghost predicate Moved(fs0: FileSystem, fs: FileSystem, src: string, dst: string)
  {
    (dst in fs <==> src in fs0) && (dst in fs ==> fs[dst] == fs0[src])
  }

  /** The swap of destination d from fs0 to fs: the staged directory is
      live, the previous live directory is retired to the old name, and the
      staging name is gone. */
  ghost predicate SwappedAt(fs0: FileSystem, fs: FileSystem, d: string, newSuffix: string, oldSuffix: string)
  {
    Moved(fs0, fs, d + newSuffix, d) && Moved(fs0, fs, d, d + oldSuffix) && d + newSuffix !in fs
  }

  /** k is a destination of ds or the staging or old name of one. */
  ghost predicate Derived(k: string, ds: set<string>, newSuffix: string, oldSuffix: string)
  {
    exists d :: d in ds && (k == d || k == d + newSuffix || k == d + oldSuffix)
  }

  /** s names an entry directly under the plugin root: `join(vim_dir, s)`
      is neither the root itself, nor its parent, nor a path inside another
      entry. */
  predicate EntryName(s: string)
  {
    s != "" && s != "." && s != ".." && '/' !in s
  }

  /** The live, staging and old names of the destinations ds are entries
      directly under the plugin root, and they are pairwise distinct. */
  ghost predicate NoCollision(ds: set<string>, newSuffix: string, oldSuffix: string)
  {
    (forall d :: d in ds ==> EntryName(d) && EntryName(d + newSuffix) && EntryName(d + oldSuffix)) &&
    forall d, e :: d in ds && e in ds ==>
      d + newSuffix != e && d + oldSuffix != e && d + newSuffix != e + oldSuffix
  }

  /** fs' differs from fs at most at the names of destination d. */
  ghost predicate OnlyAt(fs: FileSystem, fs': FileSystem, d: string, newSuffix: string, oldSuffix: string)
  {
    forall k :: k != d && k != d + newSuffix && k != d + oldSuffix ==> Untouched(fs, fs', k)
  }

  /** One step of the swap loop (update_bundles.py:141-149) for destination
      d: remove its old directory, retire the live one, promote the staged
      one, each only if it exists. */
  method SwapOne(fs: FileSystem, d: string, newSuffix: string, oldSuffix: string)
    returns (fs': FileSystem)
    ensures OnlyAt(fs, fs', d, newSuffix, oldSuffix)
    ensures d != d + newSuffix && d != d + oldSuffix && d + newSuffix != d + oldSuffix ==>
              SwappedAt(fs, fs', d, newSuffix, oldSuffix)
  {
    fs' := fs;
    var oldDir := d + oldSuffix;
    if oldDir in fs' {
      fs' := fs' - {oldDir};
    }
    if d in fs' {
      fs' := Rename(fs', d, oldDir);
    }
    var newDir := d + newSuffix;
    if newDir in fs' {
      fs' := Rename(fs', newDir, d);
    }
  }

  /** The three names of a destination are distinct from each other and,
      for two different destinations, from those of the other. */
  lemma NamesApart(ds: set<string>, d: string, e: string, newSuffix: string, oldSuffix: string)
    requires NoCollision(ds, newSuffix, oldSuffix) && d in ds && e in ds
    ensures d != d + newSuffix && d != d + oldSuffix && d + newSuffix != d + oldSuffix
    ensures d != e ==>
              e != d && e != d + newSuffix && e != d + oldSuffix &&
              e + newSuffix != d && e + newSuffix != d + newSuffix && e + newSuffix != d + oldSuffix &&
              e + oldSuffix != d && e + oldSuffix != d + newSuffix && e + oldSuffix != d + oldSuffix
  {
    if e + newSuffix == d + newSuffix { SuffixInjective(e, d, newSuffix); }
    if e + oldSuffix == d + oldSuffix { SuffixInjective(e, d, oldSuffix); }
  }

  /** A swap step keeps every name not derived from a staged destination. */
  lemma SwapStepFrame(fs0: FileSystem, fs: FileSystem, fs': FileSystem, staged: set<string>,
                      d: string, newSuffix: string, oldSuffix: string)
    requires d in staged && OnlyAt(fs, fs', d, newSuffix, oldSuffix)
    requires forall k :: !Derived(k, staged, newSuffix, oldSuffix) ==> Untouched(fs0, fs, k)
    ensures forall k :: !Derived(k, staged, newSuffix, oldSuffix) ==> Untouched(fs0, fs', k)
  {
    forall k | !Derived(k, staged, newSuffix, oldSuffix) ensures Untouched(fs0, fs', k) {
      assert Untouched(fs, fs', k);
    }
  }

  /** After the swap step for d, d is swapped, the destinations swapped
      before stay swapped and those still to do stay untouched. */
  lemma SwapStepDone(fs0: FileSystem, fs: FileSystem, fs': FileSystem, staged: set<string>,
                     done: set<string>, todo: set<string>, d: string, newSuffix: string, oldSuffix: string)
    requires NoCollision(staged, newSuffix, oldSuffix)
    requires d in todo && done <= staged && todo <= staged && d !in done
    requires OnlyAt(fs, fs', d, newSuffix, oldSuffix) && SwappedAt(fs, fs', d, newSuffix, oldSuffix)
    requires forall e :: e in done ==> SwappedAt(fs0, fs, e, newSuffix, oldSuffix)
    requires forall e :: e in todo ==>
               Untouched(fs0, fs, e) && Untouched(fs0, fs, e + newSuffix) && Untouched(fs0, fs, e + oldSuffix)
    ensures forall e :: e in done + {d} ==> SwappedAt(fs0, fs', e, newSuffix, oldSuffix)
    ensures forall e :: e in todo - {d} ==>
              Untouched(fs0, fs', e) && Untouched(fs0, fs', e + newSuffix) && Untouched(fs0, fs', e + oldSuffix)
  {
    forall e | e in done + {d} ensures SwappedAt(fs0, fs', e, newSuffix, oldSuffix) {
      NamesApart(staged, d, e, newSuffix, oldSuffix);
      if e == d {
        assert Untouched(fs0, fs, d) && Untouched(fs0, fs, d + newSuffix);
      } else {
        assert SwappedAt(fs0, fs, e, newSuffix, oldSuffix);
        assert Untouched(fs, fs', e) && Untouched(fs, fs', e + newSuffix) && Untouched(fs, fs', e + oldSuffix);
      }
    }
    forall e | e in todo - {d}
      ensures Untouched(fs0, fs', e) && Untouched(fs0, fs', e + newSuffix) && Untouched(fs0, fs', e + oldSuffix)
    {
      NamesApart(staged, d, e, newSuffix, oldSuffix);
      assert Untouched(fs, fs', e) && Untouched(fs, fs', e + newSuffix) && Untouched(fs, fs', e + oldSuffix);
    }
  }

  /** The swap loop of `get_vim_plugins` (update_bundles.py:140-149): pops
      the staged destinations in an arbitrary order, returned as `order`,
      and swaps each. Every destination is processed exactly once, nothing
      outside their names changes, and when the names do not collide each
      destination ends up swapped. */
  method Swap(fs0: FileSystem, staged: set<string>, newSuffix: string, oldSuffix: string)
    returns (fs: FileSystem, order: seq<string>)
    ensures |order| == |staged| && forall d :: d in order <==> d in staged
    ensures forall k :: !Derived(k, staged, newSuffix, oldSuffix) ==> Untouched(fs0, fs, k)
    ensures NoCollision(staged, newSuffix, oldSuffix) ==>
              forall d :: d in staged ==> SwappedAt(fs0, fs, d, newSuffix, oldSuffix)
  {
    fs, order := fs0, [];
    var remaining := staged;
    ghost var done: set<string> := {};
    while remaining != {}
      invariant remaining <= staged && done <= staged
      invariant forall d :: d in order <==> d in done
      invariant forall d :: d in staged <==> d in remaining || d in done
      invariant forall d :: d in done ==> d !in remaining
      invariant |order| + |remaining| == |staged|
      invariant forall k :: !Derived(k, staged, newSuffix, oldSuffix) ==> Untouched(fs0, fs, k)
      invariant NoCollision(staged, newSuffix, oldSuffix) ==>
                  forall d :: d in done ==> SwappedAt(fs0, fs, d, newSuffix, oldSuffix)
      invariant NoCollision(staged, newSuffix, oldSuffix) ==>
                  forall d :: d in remaining ==>
                    Untouched(fs0, fs, d) && Untouched(fs0, fs, d + newSuffix) && Untouched(fs0, fs, d + oldSuffix)
      decreases |remaining|
    {
      var d :| d in remaining;
      var fs' := SwapOne(fs, d, newSuffix, oldSuffix);
      SwapStepFrame(fs0, fs, fs', staged, d, newSuffix, oldSuffix);
      if NoCollision(staged, newSuffix, oldSuffix) {
        NamesApart(staged, d, d, newSuffix, oldSuffix);
        SwapStepDone(fs0, fs, fs', staged, done, remaining, d, newSuffix, oldSuffix);
      }
      fs := fs';
      order := order + [d];
      done := done + {d};
      remaining := remaining - {d};
    }
  }

  /** `backup_dir(dir, backup)` (update_bundles.py:50-56): stop with exit
      code 2 when the backup name is taken, otherwise move dir (if present)
      to it. */
  method BackupDir(fs: FileSystem, dir: string, backup: string) returns (r: Result<FileSystem>)
    ensures backup in fs ==> r == Fail(ExitConflict)
    ensures backup !in fs ==>
              r.Ok? && Moved(fs, r.value, dir, backup) && dir !in r.value &&
              forall k :: k != dir && k != backup ==> Untouched(fs, r.value, k)
  {
    if backup in fs {
      return Fail(ExitConflict);
    }
    var fs' := fs;
    if dir in fs' {
      fs' := Rename(fs', dir, backup);
    }
    return Ok(fs');
  }

  /** While staging only staging names change: every other entry is as it
      was before the run. */
  lemma StagingFrame(c: Settings, fetch: Fetcher, fs0: FileSystem, fs: FileSystem,
                     seen: set<string>, ps: seq<Plugin>)
    requires SettingsOk(c) && StagedState(c, fetch, fs0, fs, seen, ps)
    ensures forall k :: k !in Suffixed(seen, c.newSuffix) ==> Untouched(fs0, fs, k)
  {
  }

  /** Staging, finished or stopped, leaves every live directory and every
      old directory of a destination as it was, provided the names are
      distinct entries directly under the root. */
  lemma StagingKeepsLiveAndOld(c: Settings, fetch: Fetcher, fs0: FileSystem, fs: FileSystem,
                               seen: set<string>, ps: seq<Plugin>)
    requires SettingsOk(c) && StagedState(c, fetch, fs0, fs, seen, ps)
    requires seen <= Dests(c.plugins) && NoCollision(Dests(c.plugins), c.newSuffix, c.oldSuffix)
    ensures forall d :: d in Dests(c.plugins) ==>
              Untouched(fs0, fs, d) && Untouched(fs0, fs, d + c.oldSuffix)
  {
    StagingFrame(c, fetch, fs0, fs, seen, ps);
    forall d | d in Dests(c.plugins)
      ensures d !in Suffixed(seen, c.newSuffix) && d + c.oldSuffix !in Suffixed(seen, c.newSuffix)
    {
      assert forall e :: e in seen ==> e + c.newSuffix != d && e + c.newSuffix != d + c.oldSuffix;
    }
  }

  /** The stopping point of a run is one of its plugins' destinations. */
  lemma StoppedSeenDests(c: Settings, fs0: FileSystem, j: nat)
    requires SettingsOk(c) && j < |c.plugins|
    ensures StoppedSeen(c, fs0, j) <= Dests(c.plugins)
  {
    forall d | d in StoppedSeen(c, fs0, j) ensures d in Dests(c.plugins) {
      var p :| p in c.plugins[..j + 1] && p.dest == d;
      assert p in c.plugins;
    }
  }

  /** Destination d after a successful run: it holds what its plugins
      fetched, its previous contents are under the old name (which is absent
      if there were none), and no staging directory is left. */
  ghost predicate Installed(c: Settings, fetch: Fetcher, fs0: FileSystem, fs: FileSystem, d: string)
    requires SettingsOk(c)
  {
    d in fs && fs[d] == StagedContent(c, fetch, c.plugins, d) &&
    Moved(fs0, fs, d, d + c.oldSuffix) && d + c.newSuffix !in fs
  }

  lemma SwapInstalls(c: Settings, fetch: Fetcher, fs0: FileSystem, fs1: FileSystem, fs: FileSystem, d: string)
    requires SettingsOk(c) && StagedState(c, fetch, fs0, fs1, Dests(c.plugins), c.plugins)
    requires NoCollision(Dests(c.plugins), c.newSuffix, c.oldSuffix) && d in Dests(c.plugins)
    requires SwappedAt(fs1, fs, d, c.newSuffix, c.oldSuffix)
    ensures Installed(c, fetch, fs0, fs, d)
  {
    StagingKeepsLiveAndOld(c, fetch, fs0, fs1, Dests(c.plugins), c.plugins);
    assert d + c.newSuffix in Suffixed(Dests(c.plugins), c.newSuffix);
  }

  lemma SwapFrame(c: Settings, fetch: Fetcher, fs0: FileSystem, fs1: FileSystem, fs: FileSystem)
    requires SettingsOk(c) && StagedState(c, fetch, fs0, fs1, Dests(c.plugins), c.plugins)
    requires forall k :: !Derived(k, Dests(c.plugins), c.newSuffix, c.oldSuffix) ==> Untouched(fs1, fs, k)
    ensures forall k :: !Derived(k, Dests(c.plugins), c.newSuffix, c.oldSuffix) ==> Untouched(fs0, fs, k)
  {
    StagingFrame(c, fetch, fs0, fs1, Dests(c.plugins), c.plugins);
    forall k | !Derived(k, Dests(c.plugins), c.newSuffix, c.oldSuffix) ensures Untouched(fs0, fs, k) {
      assert k !in Suffixed(Dests(c.plugins), c.newSuffix);
    }
  }

  /** `get_vim_plugins` (update_bundles.py:108-149), without copying the
      local plugins: stage every plugin, and only when all succeed swap
      every destination. A stopped run returns the first failing plugin's
      code and has swapped nothing. A successful run changes nothing but
      the destinations' names and installs every destination. */
  method Run(c: Settings, fetch: Fetcher, fs0: FileSystem) returns (code: int, fs: FileSystem)
    requires SettingsOk(c)
    ensures code == 0 <==> forall j :: 0 <= j < |c.plugins| ==> PluginCode(c, fs0, j) == 0
    ensures code != 0 ==>
              exists j: nat :: FirstFailure(c, fs0, j) && code == PluginCode(c, fs0, j) &&
                StagedState(c, fetch, fs0, fs, StoppedSeen(c, fs0, j), c.plugins[..j])
    ensures code == 0 ==>
              forall k :: !Derived(k, Dests(c.plugins), c.newSuffix, c.oldSuffix) ==> Untouched(fs0, fs, k)
    ensures code == 0 && NoCollision(Dests(c.plugins), c.newSuffix, c.oldSuffix) ==>
              forall d :: d in Dests(c.plugins) ==> Installed(c, fetch, fs0, fs, d)
  {
    var res := Stage(c, fetch, fs0);
    if res.Stopped? {
      return res.code, res.fs;
    }
    var order;
    fs, order := Swap(res.fs, res.staged, c.newSuffix, c.oldSuffix);
    SwapFrame(c, fetch, fs0, res.fs, fs);
    if NoCollision(Dests(c.plugins), c.newSuffix, c.oldSuffix) {
      forall d | d in Dests(c.plugins) ensures Installed(c, fetch, fs0, fs, d) {
        SwapInstalls(c, fetch, fs0, res.fs, fs, d);
      }
    }
    code := 0;
  }

  /** A plugin whose destination an earlier plugin already has never stops
      the run with a conflict. */
  lemma SharedDestinationNoConflict(c: Settings, fs0: FileSystem, i: nat, j: nat)
    requires SettingsOk(c) && i < j < |c.plugins| && c.plugins[i].dest == c.plugins[j].dest
    ensures PluginCode(c, fs0, j) != ExitConflict
  {
    assert c.plugins[i] in c.plugins[..j];
  }

  /** After a successful run no staging directory is left, so running
      again with the same plugins meets no conflict. */
  lemma RerunNoConflict(c: Settings, fetch: Fetcher, fs0: FileSystem, fs: FileSystem)
    requires SettingsOk(c)
    requires forall d :: d in Dests(c.plugins) ==> Installed(c, fetch, fs0, fs, d)
    ensures forall j :: 0 <= j < |c.plugins| ==> PluginCode(c, fs, j) != ExitConflict
  {
    forall j | 0 <= j < |c.plugins| ensures PluginCode(c, fs, j) != ExitConflict {
      assert c.plugins[j] in c.plugins;
      assert Installed(c, fetch, fs0, fs, c.plugins[j].dest);
    }
  }

  /** A run stopped with exit code 3 or 4 leaves the staging directory of
      the failing plugin's destination behind, and it is empty when that
      destination was new: the directory is created before the getter is
      looked up. */
  lemma StoppedLeavesStaging(c: Settings, fetch: Fetcher, fs0: FileSystem, fs: FileSystem, j: nat)
    requires SettingsOk(c) && FirstFailure(c, fs0, j) && PluginCode(c, fs0, j) != ExitConflict
    requires StagedState(c, fetch, fs0, fs, StoppedSeen(c, fs0, j), c.plugins[..j])
    ensures c.plugins[j].dest + c.newSuffix in fs
    ensures c.plugins[j].dest !in Dests(c.plugins[..j]) ==>
              fs[c.plugins[j].dest + c.newSuffix] == EmptyDir
  {
    var p := c.plugins[j];
    assert c.plugins[..j + 1] == c.plugins[..j] + [p];
    DestsSnoc(c.plugins[..j], p);
    assert p.dest + c.newSuffix in Suffixed(StoppedSeen(c, fs0, j), c.newSuffix);
    if p.dest !in Dests(c.plugins[..j]) {
      StagedContentUnseen(c, fetch, c.plugins[..j], p.dest);
    }
  }
}
