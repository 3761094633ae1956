# Vim plugin updater: the install transaction

This project models, in Dafny, the core of `update_bundles.py`, a script that
brings a set of Vim plugins up to date. It reads a list of plugins and a list
of getters from `plugins.cfg`. It then fetches every plugin into a staging
directory `<dest><new suffix>` under the plugin root, and finally swaps
each staged directory into place, retiring the previous one to
`<dest><old suffix>`.

The model has five modules, one file each:

- `basics.dfy` (`Basics`): `Option`, `Result` and the exit codes 2, 3 and 4.
- `format.dfy` (`Format`): the `format` helper. It has two passes. A loop
  that rewrites `{i}` into `%(i)s` with `str.replace` is a `method` with loop
  invariants. The single application of Python's `%` operator is the
  function `PercentFormat`. The method is proved equal to `Expand`, an
  independent reference definition of positional substitution read left to
  right. The properties of the helper are proved about `Expand`.
- `paths.dfy` (`Paths`): POSIX `os.path.join`, `split('/')[-1]`,
  `rpartition('.')[0]`, and the working name of a command getter.
- `getplugin.dfy` (`Fetch`): plugin and getter entries, and the getter lookup
  of the staging loop (a scan method proved to return the first match).
  `get_plugin` becomes a function from a plugin, a getter and a staging
  directory to a plan. The plan says what to create, download, run and
  remove, or it is the exit code 4.
- `install.dfy` (`Install`): the filesystem and the two loops of
  `get_vim_plugins`.
  - The filesystem is a map from names under the plugin root to opaque
    directory contents.
  - The staging loop is the method `Stage`. Each iteration is the method
    `StagePlugin`.
  - The swap loop is the method `Swap`. It pops destinations in an arbitrary
    order, chosen with `:|`, and returns that order. Each swap step is the
    method `SwapOne`.
  - `backup_dir` is the method `BackupDir`.
  - `Run` composes staging and swapping.

The byte-level effect of a plan is a parameter `fetch: (FetchPlan, Dir) -> Dir`.
This covers downloading, unzipping, running the shell command, removing
`remove_dir` and flattening. It is applied to the plugin's own staging
directory and to nothing else; that is a choice of the model, listed
under "Left out". What a staged directory holds is the function
`StagedContent`: the empty directory, rewritten by every plugin with that
destination in declared order. `PluginCode` gives the exit code each plugin
causes, from the filesystem before the run.

## Model

| member | source | states |
|---|---|---|
| Format.Format | update_bundles.py:40-48 | the rewrite loop followed by `%` yields exactly the simultaneous left-to-right substitution `Expand(template, args)` |
| Format.DecimalString | update_bundles.py:44-45 | `str(i)` is a non-empty string of decimal digits |
| Format.DecimalStringInjective | update_bundles.py:44-45 | different argument positions get different dictionary keys `str(i)` |
| Format.FirstPlaceholderIsFirst | update_bundles.py:43-44 | the placeholder recognised at a position is the first `{k}`, k < n, that starts there, and none is recognised when no `{k}` in range starts there |
| Format.Replace | update_bundles.py:44 | `str.replace`: every non-overlapping occurrence, found left to right, is replaced; its effect on the rewrite is stated by `Format.ReplaceStep` |
| Format.ReplaceStep | update_bundles.py:44 | one `str.replace` of `{n}` by `%(n)s` on the text with the first n placeholders rewritten rewrites the first n+1 |
| Format.PercentFormat | update_bundles.py:48 | `%` with a dictionary, for `%(key)s` (a missing key is an error) and `%%`; `Format.MarkerFills` and `Format.FormatFillsMarkers` state what it yields on the rewritten template |
| Format.MarkerFills | update_bundles.py:48 | `%` turns a leading `%(k)s` into the value stored under `str(k)` |
| Format.FormatFillsMarkers | update_bundles.py:48 | `%` applied to the fully rewritten template succeeds and fills every marker with its argument |
| Format.PlaceholderUnique | update_bundles.py:44 | `{j}` never matches at a place where `{k}` starts, for j != k |
| Format.ExpandArgument | update_bundles.py:40-48 | `{k}` with k < n becomes exactly the k-th argument, and the argument's own text is not substituted again |
| Format.ExpandSingle | update_bundles.py:40-48 | a template that is just `{k}` becomes the k-th argument |
| Format.ExpandLeavesHighPlaceholder | update_bundles.py:40-48 | `{k}` with k >= n is left as it is |
| Format.ExpandBraceFree | update_bundles.py:40-48 | a template without `{` comes back unchanged |
| Format.DotJoin | update_bundles.py:69 | `format('{0}.{1}', name, ext)` is `name.ext` |
| Paths.Join | update_bundles.py:64-67 | POSIX `join`: an absolute second part replaces the first; otherwise the second is appended, with a `/` unless the first is empty or already ends in one; the closed form is `Paths.JoinSegment` and `Fetch.DirJoin` |
| Paths.JoinSegment | update_bundles.py:63-67 | `join(a, b)` for a non-empty directory a (absolute or relative) without a trailing `/` and a relative b is `a/b` |
| Paths.LastSegment | update_bundles.py:86 | `split('/')[-1]`; characterised completely by `Paths.LastSegmentShape` |
| Paths.LastSegmentShape | update_bundles.py:86 | `split('/')[-1]` is a suffix without `/` that starts the string or follows its last `/` |
| Paths.BeforeLastDot | update_bundles.py:88 | `rpartition('.')[0]` for a string with a `.`; characterised completely by `Paths.BeforeLastDotShape` |
| Paths.BeforeLastDotShape | update_bundles.py:88 | `rpartition('.')[0]` is the prefix that the last `.` follows |
| Paths.LastSegmentOf | update_bundles.py:86 | the last segment of `dir/seg` is seg |
| Paths.BeforeLastDotOf | update_bundles.py:88 | for `base.ext` with no `.` in ext, the part before the last dot is base |
| Paths.WorkingName | update_bundles.py:86-91 | the name derivation fails only with exit code 4 |
| Paths.WorkingNameShape | update_bundles.py:86-91 | a derived name is non-empty and contains no `/` |
| Paths.WorkingNameWithExtension | update_bundles.py:86-91 | for a locator `dir/base.ext` the name is exactly base, or exit code 4 when base is empty |
| Paths.WorkingNameWithoutExtension | update_bundles.py:86-91 | for a locator `dir/seg` with no `.` in seg the name is seg, or exit code 4 when seg is empty |
| Paths.WorkingNameTrailingSlash | update_bundles.py:86-91 | a locator ending in `/` gives exit code 4 |
| Fetch.DownloadPlan | update_bundles.py:60-83 | the download branch fetches the url template filled with the locator, and creates the `name/type` directories exactly when `no_sub_dirs` is absent |
| Fetch.CommandPlan | update_bundles.py:92-104 | the command run is the `run` template filled with the locator and the working directory; it creates that directory exactly without `no_sub_dirs` and flattens exactly with it |
| Fetch.GetPlugin | update_bundles.py:58-106 | a getter with `url` downloads, with exactly the download plan of lines 61-80; otherwise one with `run` runs a command; otherwise nothing is done. It fails (with exit code 4) exactly when it takes the command branch and no working name exists, and the command then uses that name |
| Fetch.FirstGetter | update_bundles.py:130-134 | the chosen getter has the plugin's get type, no earlier getter has it, and none is chosen only when no getter has it |
| Fetch.FindGetter | update_bundles.py:130-136 | the scan with `break`/`else` returns the first getter of the right type |
| Fetch.DirJoin | update_bundles.py:63-64 | joining a directory without a trailing `/` and a segment gives `a/b`, again such a directory |
| Fetch.DownloadFile | update_bundles.py:61-70 | for any staging directory such as `/home/u/.vim/bundle-new`, the file goes to `to_dir/name.ext` with `no_sub_dirs` (for any name not starting with `/`, whatever the type), else to `to_dir/name/type/name.ext`, and only the latter creates `to_dir/name/type` |
| Fetch.ExtractTarget | update_bundles.py:74-80 | for any staging directory, absolute or relative, extraction targets `to_dir/name` (`to_dir` with `no_sub_dirs`, whatever the name), with `/extract` appended when the value is non-empty |
| Fetch.CommandWorkDir | update_bundles.py:85-104 | for any staging directory, absolute or relative, the command branch works in `to_dir/name` for the derived name (`to_dir` with `no_sub_dirs`) and runs the template on the locator and that directory; `remove_dir` and the flattened `dest` are `work/<value>` when relative and the value itself when absolute |
| Install.Rename | update_bundles.py:146-149 | after a rename the target holds the source's contents, the source is gone and nothing else changes |
| Install.StagingDir | update_bundles.py:123 | the staging directory `join(vim_dir, dest + new suffix)`; its closed form is `Install.StagingDirName` |
| Install.PluginEffect | update_bundles.py:130-132 | the effect of calling `get_plugin` with the first getter of the plugin's type on its staging directory: nothing when no getter matches or `get_plugin` stops with code 4; `Install.StageWrite` and `Install.StagePlugin` state that only that directory changes |
| Install.StagingDirName | update_bundles.py:123 | under an absolute plugin root such as `/home/u/.vim`, the staging directory is `root/<dest><new suffix>`, a directory the download and command path lemmas apply to |
| Install.SuffixInjective | update_bundles.py:123 | two destinations with the same staging name are the same destination |
| Install.DestsSnoc | update_bundles.py:129 | adding a plugin adds its destination to the set of destinations |
| Install.StagedContentUnseen | update_bundles.py:128 | a staging directory that no plugin has written to yet is still the empty directory it was created as |
| Install.UnseenStagingName | update_bundles.py:124-125 | for a destination not yet in `backup_set`, the staging directory exists exactly when it existed before the run |
| Install.StageCreate | update_bundles.py:128-129 | creating the empty staging directory of a new destination keeps the staged state |
| Install.StageWrite | update_bundles.py:130-132 | running a plugin's getter into its staging directory keeps the staged state, now including that plugin |
| Install.OpenStaging | update_bundles.py:122-129 | the conflict is raised exactly when the destination is new and its staging directory already exists; otherwise `backup_set` gains the destination and the staged state is kept |
| Install.StagePlugin | update_bundles.py:122-136 | one iteration stops with exactly the code `PluginCode` predicts (2, 3, 4 or 0); on success the plugin's output is in its staging directory; on a stop the staged state is the one left at that point |
| Install.AllSucceedMeans | update_bundles.py:122-136 | all of the first n plugins succeed exactly when each of them has code 0 |
| Install.Stage | update_bundles.py:120-136 | staging succeeds exactly when every plugin's code is 0, and then `backup_set` is the set of all destinations; each has a new staging directory holding `StagedContent`, and nothing else changed. Otherwise it stops at the first failing plugin with its code, and only the staging directories created so far differ from the state before the run |
| Install.StagingFrame | update_bundles.py:122-136 | during staging only staging directories are created or written |
| Install.StagingKeepsLiveAndOld | update_bundles.py:122-149 | staging, finished or stopped, leaves every live directory and every old directory unchanged when the names are distinct entries directly under the root |
| Install.StoppedSeenDests | update_bundles.py:124-129 | every staging directory left by a stopped run belongs to a declared destination |
| Install.StoppedLeavesStaging | update_bundles.py:128-136 | a run stopped with code 3 or 4 leaves the failing plugin's staging directory behind, empty if the destination was new |
| Install.SharedDestinationNoConflict | update_bundles.py:124-127 | a plugin whose destination an earlier plugin already has never causes exit code 2 |
| Install.SwapOne | update_bundles.py:141-149 | one swap step changes only the three names of its destination; when these differ it makes the staged content live, moves the previous live content to the old name and removes the staging name |
| Install.NamesApart | update_bundles.py:142-147 | without collisions, the live, old and staging names of different destinations are all different |
| Install.SwapStepFrame | update_bundles.py:140-149 | a swap step keeps every name not derived from a staged destination |
| Install.SwapStepDone | update_bundles.py:140-149 | after the step for d, d is swapped, earlier destinations stay swapped and later ones untouched |
| Install.Swap | update_bundles.py:140-149 | the loop processes every staged destination exactly once, in some order; only names derived from them change; without collisions every destination ends swapped |
| Install.BackupDir | update_bundles.py:50-56 | exit code 2 when the backup name exists; otherwise the directory, if present, moves to the backup name and nothing else changes |
| Install.SwapInstalls | update_bundles.py:140-149 | after staging everything and swapping d, d holds its staged content, the old name holds d's previous content and no staging directory is left |
| Install.SwapFrame | update_bundles.py:120-149 | a full run changes no name that is not derived from a destination |
| Install.Run | update_bundles.py:108-149 | exit code 0 exactly when every plugin's code is 0; a stopped run returns the first failing plugin's code and has swapped nothing; a successful run changes only destination-derived names and installs every destination |
| Install.RerunNoConflict | update_bundles.py:124-127 | after a successful run a second run with the same plugins meets no staging conflict |

## Left out

- Network download (`urlretrieve`), zip checking and extraction
  (`is_zipfile`, `ZipFile`, `extractall`), the shell command (`system`),
  `rmtree` of `remove_dir` and the flattening copy loop
  (update_bundles.py:17-38, 72-83, 96-104). These are the `fetch` parameter.
  It is a total function, so a failed download, a bad archive or a failing
  command is not distinguished from a successful one. The source does not
  check `system`'s return code either.
- The `fetch` step is assumed to change only the plugin's own staging
  directory. The source leaves that directory whenever `join` meets an
  absolute `name`, `extract` or `remove_dir` (update_bundles.py:64, 80, 98),
  including an `rmtree` of an absolute `remove_dir`, and the shell command
  run by `system` may write anywhere. `Install.StagingFrame`,
  `Install.StagingKeepsLiveAndOld` and `Install.StageWrite` rest on this
  assumption.
- `makedirs` raising when a directory inside a staging directory already
  exists is not modelled: two plugins of one destination with the same name
  and type do not stop the run in the model.
- `remove_readonly` and the `chmod` permission handling: removal deletes a
  map key.
- `copy_local_plugins` (update_bundles.py:138, 151-166): it depends on
  `argv[0]` and on `copytree` over existing targets.
- Platform detection and `expanduser` (update_bundles.py:110-115):
  `vimDir` is a field of `Settings`. Reading `plugins.cfg`
  (update_bundles.py:117-118): the plugins, getters and suffixes are inputs.
- `print` logging, including the warning for a getter with neither `url` nor
  `run`, which the model turns into the plan `Skip`.
- `Install.Rename` overwrites an existing target, where `os.rename` would
  fail on a non-empty directory. In the modelled runs the target never
  exists unless destination names collide.
- The filesystem is flat: every name under the plugin root, including a
  destination containing `/`, is one map key. `join(vim_dir, ...)` is
  applied to the root, and only POSIX `join` is modelled. `NoCollision`
  therefore also asks every live, staging and old name to be an entry
  directly under the root (`Install.EntryName`: non-empty, not `.` or
  `..`, no `/`).
- `backup_dir` is modelled by `Install.BackupDir`, but the script never calls
  it; `Install.Run` does not use it either.
- The concrete pop order of a Python `set` is left open: `Install.Swap` holds
  for every order.
- Exceptions of the operating system (permissions, missing parent
  directories, a full disk) are not modelled.
- Format.Format: requires that the template contains no `%`. Python's `%`
  operator would read such text as a conversion or raise. `PercentFormat`
  models only `%(key)s` and `%%`.
- Install.Swap: states where each destination's contents end up only when
  the live, old and staging names of all destinations are pairwise distinct
  entries directly under the root (`NoCollision`). Without that it states only the frame and that each
  destination is processed once.
- Install.Run: the installed state is stated under the same `NoCollision`
  condition. The guarantee that live directories survive a stopped run
  (`Install.StagingKeepsLiveAndOld`) needs it too.
- Install.Run: says nothing about nested destinations. For a destination
  such as `a/b` next to `a`, the script's `makedirs` at
  update_bundles.py:128 writes inside the live `a` (or creates it), and the
  rename of `a` at line 146 carries `a/b-new` along into `a-old`, so `a/b`
  is never installed. `NoCollision` excludes such names. The frame lemmas
  `Install.StagingFrame` and `Install.SwapFrame`, which do not require
  `NoCollision`, hold for the flat map but not for the directory tree of
  such a configuration.

## Behaviour to note

- The staging directory of a new destination is created before the getter
  is looked up (update_bundles.py:128 before 130-136). A run stopped with
  exit code 3 or 4 therefore leaves that directory, empty, behind
  (`Install.StoppedLeavesStaging`).
- The swap keeps the previous live contents under `<dest><old suffix>`
  after a successful run (update_bundles.py:145-146); only the `-old`
  directory of an earlier run is removed. `Install.Installed` states that
  the old name holds the previous contents, and that it is absent only
  when there were none.
- When the live, old and staging names of the destinations are distinct
  entries directly under the plugin root (`NoCollision`),
  a second run with the same plugins does not stop with exit code 2: the
  staging names are gone after a successful swap (`Install.RerunNoConflict`).
  With colliding names, such as destinations `a` and `a-new` under the
  suffix `-new`, a staging name can survive the swap.
- Extraction for a plugin with subdirectories targets `to_dir/name`
  (update_bundles.py:78-80), not the staging directory itself.
