/** Plugin and getter entries, the choice of getter for a plugin, and what
    `get_plugin` does with them, as a plan of filesystem effects whose paths
    the model computes exactly and whose byte-level effect (download,
    extraction, shell command) is left to a caller-supplied step. */
module Fetch {
  import opened Basics
  import opened Format
  import opened Paths

  /** One plugin entry. `extract` is present when the entry has an `extract`
      key (possibly empty); `noSubDirs` when it has `no_sub_dirs`. */
  datatype Plugin = Plugin(name: string, typ: string, ext: string, dest: string,
                           getType: string, url: string,
                           extract: Option<string>, noSubDirs: bool)

  /** One getter entry: a download locator template (`url`), a shell command
      template (`run`), either, both or neither, and an optional
      `remove_dir`. */
  datatype Getter = Getter(typ: string, url: Option<string>, run: Option<string>,
                           removeDir: Option<string>)

  /** The one template `get_plugin` formats with this getter, its `url` if
      it has one and its `run` otherwise, contains no `%`, which Python's
      `%` operator would otherwise interpret. */
  predicate TemplatesOk(g: Getter)
  {
    (g.url.Some? ==> '%' !in g.url.value) &&
    (g.url.None? && g.run.Some? ==> '%' !in g.run.value)
  }

  /** The getter takes the command branch, which needs a working name. */
  predicate NeedsWorkingName(g: Getter)
  {
    g.url.None? && g.run.Some?
  }

  /** What `get_plugin` does inside the staging directory it is given:
      - Download: create `makeDir` (when present), fetch `source` into
        `file`, and unpack it into `extractTo` when asked to;
      - Command: create `makeDir` (when present), run `command`, then remove
        `removeDir` and flatten `flattenFrom` into `workDir` when present;
      - Skip: a getter with neither template only logs a warning. */
  datatype FetchPlan =
    | Download(makeDir: Option<string>, file: string, source: string, extractTo: Option<string>)
    | Command(makeDir: Option<string>, workDir: string, command: string,
              removeDir: Option<string>, flattenFrom: Option<string>)
    | Skip

  /** The download branch (update_bundles.py:61-83). */
  function DownloadPlan(p: Plugin, template: string, toDir: string): (r: FetchPlan)
    requires '%' !in template
    ensures r.Download? && r.source == Expand(template, [p.url])
    ensures r.makeDir.Some? <==> !p.noSubDirs
  {
    var base := if p.noSubDirs then toDir else Join(toDir, p.name);
    var localDir := if p.noSubDirs then toDir else Join(base, p.typ);
    Download(if p.noSubDirs then None else Some(localDir),
             Join(localDir, Expand("{0}.{1}", [p.name, p.ext])),
             Expand(template, [p.url]),
             match p.extract
             case None => None
             case Some(e) => Some(if e == "" then base else Join(base, e)))
  }

  /** The command branch after a working name was derived
      (update_bundles.py:92-104). */
  function CommandPlan(p: Plugin, run: string, removeDir: Option<string>, name: string,
                       toDir: string): (r: FetchPlan)
    requires '%' !in run
    ensures r.Command? && r.command == Expand(run, [p.url, r.workDir])
    ensures r.makeDir.Some? <==> !p.noSubDirs
    ensures r.flattenFrom.Some? <==> p.noSubDirs
  {
    var workDir := if p.noSubDirs then toDir else Join(toDir, name);
    Command(if p.noSubDirs then None else Some(workDir),
            workDir,
            Expand(run, [p.url, workDir]),
            match removeDir
            case None => None
            case Some(d) => Some(Join(workDir, d)),
            if p.noSubDirs then Some(Join(workDir, p.dest)) else None)
  }

  /** `get_plugin(p, g, toDir)`: the download branch when the getter has a
      `url`, else the command branch when it has a `run`, else nothing. The
      only fatal error is a locator without a working name, and it is
      raised before any command is built. */
  function GetPlugin(p: Plugin, g: Getter, toDir: string): (r: Result<FetchPlan>)
    requires TemplatesOk(g)
    ensures r.Fail? <==> NeedsWorkingName(g) && WorkingName(p.url).Fail?
    ensures r.Fail? ==> r.code == ExitBadName
    ensures r.Ok? ==> (r.value.Download? <==> g.url.Some?)
    ensures r.Ok? ==> (r.value.Command? <==> NeedsWorkingName(g))
    ensures r.Ok? && g.url.Some? ==> r.value == DownloadPlan(p, g.url.value, toDir)
    ensures r.Ok? && r.value.Command? ==>
              r.value == CommandPlan(p, g.run.value, g.removeDir, WorkingName(p.url).value, toDir)
  {
    if g.url.Some? then Ok(DownloadPlan(p, g.url.value, toDir))
    else if g.run.Some? then
      match WorkingName(p.url)
      case Fail(code) => Fail(code)
      case Ok(name) => Ok(CommandPlan(p, g.run.value, g.removeDir, name, toDir))
    else Ok(Skip)
  }

  /** The index of the first getter, in declared order, whose type is t. */
  function FirstGetter(gs: seq<Getter>, t: string): (r: Option<nat>)
    ensures r.Some? ==> r.value < |gs| && gs[r.value].typ == t
    ensures r.Some? ==> forall j :: 0 <= j < r.value ==> gs[j].typ != t
    ensures r.None? ==> forall j :: 0 <= j < |gs| ==> gs[j].typ != t
  {
    if gs == [] then None
    else if gs[0].typ == t then Some(0)
    else match FirstGetter(gs[1..], t)
      case None => None
      case Some(k) => Some(k + 1)
  }

  /** The getter lookup of the staging loop: a scan that stops at the first
      match (the `for ... break ... else` of update_bundles.py:130-136). */
  method FindGetter(gs: seq<Getter>, t: string) returns (r: Option<nat>)
    ensures r == FirstGetter(gs, t)
  {
    var i := 0;
    while i < |gs|
      invariant 0 <= i <= |gs|
      invariant forall j :: 0 <= j < i ==> gs[j].typ != t
    {
      if gs[i].typ == t {
        return Some(i);
      }
      i := i + 1;
    }
    return None;
  }

  /** A directory joined with a segment is `a/b`, again a directory without
      a trailing `/`. */
  lemma DirJoin(a: string, b: string)
    requires DirName(a) && Segment(b)
    ensures DirName(a + "/" + b) && Join(a, b) == a + "/" + b
  {
    var s := a + "/" + b;
    assert s[|s| - 1] == b[|b| - 1];
  }

  /** In the download branch the file goes to toDir/name.ext with
      `no_sub_dirs`, and to toDir/name/type/name.ext otherwise. */
  lemma DownloadFile(p: Plugin, template: string, toDir: string)
    requires '%' !in template
    requires DirName(toDir)
    requires p.noSubDirs ==> p.name == [] || p.name[0] != '/'
    requires !p.noSubDirs ==> Segment(p.name) && Segment(p.typ)
    ensures DownloadPlan(p, template, toDir).file ==
              if p.noSubDirs then toDir + "/" + (p.name + "." + p.ext)
              else toDir + "/" + p.name + "/" + p.typ + "/" + (p.name + "." + p.ext)
    ensures DownloadPlan(p, template, toDir).makeDir ==
              if p.noSubDirs then None else Some(toDir + "/" + p.name + "/" + p.typ)
  {
    DotJoin(p.name, p.ext);
    var file := p.name + "." + p.ext;
    assert file[0] == if p.name == [] then '.' else p.name[0];
    if p.noSubDirs {
      JoinSegment(toDir, file);
    } else {
      DirJoin(toDir, p.name);
      DirJoin(toDir + "/" + p.name, p.typ);
      JoinSegment(toDir + "/" + p.name + "/" + p.typ, file);
    }
  }

  /** Extraction targets toDir/name (toDir with `no_sub_dirs`), followed by
      /extract when the `extract` value is non-empty. */
  lemma ExtractTarget(p: Plugin, template: string, toDir: string)
    requires '%' !in template
    requires DirName(toDir) && (!p.noSubDirs ==> Segment(p.name))
    requires p.extract.Some? && (p.extract.value == "" || p.extract.value[0] != '/')
    ensures DownloadPlan(p, template, toDir).extractTo ==
              var base := if p.noSubDirs then toDir else toDir + "/" + p.name;
              Some(if p.extract.value == "" then base else base + "/" + p.extract.value)
  {
    if !p.noSubDirs {
      DirJoin(toDir, p.name);
      if p.extract.value != "" {
        JoinSegment(toDir + "/" + p.name, p.extract.value);
      }
    } else if p.extract.value != "" {
      JoinSegment(toDir, p.extract.value);
    }
  }

  /** The command branch works in toDir/name, where name is the working name
      of the locator, or in toDir itself with `no_sub_dirs`; the command is
      the `run` template with the locator and that directory. `remove_dir`
      and the flattened `dest` are taken inside that directory when they are
      relative, and as they are when they are absolute. */
  lemma CommandWorkDir(p: Plugin, g: Getter, toDir: string)
    requires TemplatesOk(g) && g.url.None? && g.run.Some?
    requires DirName(toDir) && WorkingName(p.url).Ok?
    ensures var work := if p.noSubDirs then toDir else toDir + "/" + WorkingName(p.url).value;
            var r := GetPlugin(p, g, toDir);
            r.Ok? && r.value.Command? && r.value.workDir == work &&
            r.value.makeDir == (if p.noSubDirs then None else Some(work)) &&
            r.value.command == Expand(g.run.value, [p.url, work])
    ensures var work := if p.noSubDirs then toDir else toDir + "/" + WorkingName(p.url).value;
            GetPlugin(p, g, toDir).value.removeDir ==
              match g.removeDir
              case None => None
              case Some(d) => Some(if d != [] && d[0] == '/' then d else work + "/" + d)
    ensures var work := if p.noSubDirs then toDir else toDir + "/" + WorkingName(p.url).value;
            GetPlugin(p, g, toDir).value.flattenFrom ==
              if !p.noSubDirs then None
              else Some(if p.dest != [] && p.dest[0] == '/' then p.dest else work + "/" + p.dest)
  {
    var name := WorkingName(p.url).value;
    WorkingNameShape(p.url);
    assert name[0] != '/' && name[|name| - 1] != '/';
    DirJoin(toDir, name);
  }
}
