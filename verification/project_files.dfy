// Replacing the configuration and the Dockerfile as one unit. Any file operation can
// fail; operations that clean up or roll back are counted when they fail.
module ProjectFiles {
  import opened Wrappers

  type Path = string

  datatype Node = File(contents: string, mode: nat) | Dir | Link(target: Path)

  datatype IoError = NotFound | AlreadyExists | InvalidInput | Other

  datatype Lookup = Found(node: Node) | Missing | TooManyLinks

  const MAX_LINKS: nat := 40
  const PRIVATE: nat := 0x180   // 0o600, the mode of a temporary file
  const ORDINARY: nat := 0x1a4  // 0o644

  type Entries = map<Path, Node>

  function Follow(entries: Entries, path: Path, links: nat): Lookup
    decreases links
  {
    if path !in entries then Missing
    else if !entries[path].Link? then Found(entries[path])
    else if links == 0 then TooManyLinks
    else Follow(entries, entries[path].target, links - 1)
  }

  // ---- What is promised --------------------------------------------------------------------

  // An existing file keeps its permissions.
  function ModeFor(entries: Entries, target: Path): nat
  {
    var found := Follow(entries, target, MAX_LINKS);
    if found.Found? && found.node.File? then found.node.mode else ORDINARY
  }

  function Replaced(before: Entries, config: Path, text: string, dockerfile: Option<(Path, string)>): Entries
  {
    var first :=
      if dockerfile.None? then before
      else before[dockerfile.value.0 := File(dockerfile.value.1, ModeFor(before, dockerfile.value.0))];
    first[config := File(text, ModeFor(before, config))]
  }

  // A name that the tempfile library can draw: nothing has it, nothing refers to it,
  // and the caller did not give it.
  predicate Unused(entries: Entries, named: set<Path>, path: Path)
  {
    path !in entries && path !in named && forall p :: p in entries ==> entries[p] != Link(path)
  }

  lemma {:induction false} FollowIgnoresUnused(entries: Entries, named: set<Path>, path: Path, node: Node, p: Path, links: nat)
    requires Unused(entries, named, path) && p != path
    decreases links
    ensures Follow(entries[path := node], p, links) == Follow(entries, p, links)
  {
    if p in entries && entries[p].Link? && links > 0 {
      assert entries[p] != Link(path);
      FollowIgnoresUnused(entries, named, path, node, entries[p].target, links - 1);
    }
  }

  // ---- The file system -----------------------------------------------------------------------

  class FileSystem {
    var entries: Entries
    ghost var botched: nat  // failed cleanups and rollbacks, where there was something to do
    ghost var misled: nat   // failed existence checks on names that exist

    constructor (entries: Entries)
      ensures this.entries == entries && botched == 0 && misled == 0
    {
      this.entries, botched, misled := entries, 0, 0;
    }

    // Random names are assumed to be unused; a draw that is not ends in a failure.
    method CreateTemp(named: set<Path>) returns (r: Result<Path, IoError>)
      modifies this`entries
      ensures r.Success? ==> Unused(old(entries), named, r.value)
      ensures entries == if r.Success? then old(entries)[r.value := File("", PRIVATE)] else old(entries)
    {
      var path: Path := *;
      var ok: bool := *;
      if ok && Unused(entries, named, path) {
        entries := entries[path := File("", PRIVATE)];
        r := Success(path);
      } else {
        r := Failure(Other);
      }
    }

    // A failed write can leave any contents.
    method WriteAll(path: Path, contents: string) returns (r: Result<(), IoError>)
      requires path in entries && entries[path].File?
      modifies this`entries
      ensures exists written ::
        entries == old(entries)[path := old(entries)[path].(contents := written)] && (r.Success? ==> written == contents)
    {
      var ok: bool := *;
      var partial: string := *;
      var written := if ok then contents else partial;
      entries := entries[path := entries[path].(contents := written)];
      r := if ok then Success(()) else Failure(Other);
    }

    // Follows links.
    method Metadata(path: Path) returns (r: Result<Node, IoError>)
      ensures r.Success? ==> Follow(entries, path, MAX_LINKS) == Found(r.value)
      ensures r == Failure(NotFound) ==> Follow(entries, path, MAX_LINKS).Missing?
    {
      var ok: bool := *;
      var found := Follow(entries, path, MAX_LINKS);
      r := if !ok || found.TooManyLinks? then Failure(Other)
           else if found.Missing? then Failure(NotFound) else Success(found.node);
    }

    method SymlinkMetadata(path: Path) returns (r: Result<Node, IoError>)
      ensures r.Success? ==> path in entries && r.value == entries[path]
      ensures r == Failure(NotFound) ==> path !in entries
    {
      var ok: bool := *;
      r := if !ok then Failure(Other) else if path in entries then Success(entries[path]) else Failure(NotFound);
    }

    method SetPermissions(path: Path, mode: nat) returns (r: Result<(), IoError>)
      requires path in entries && entries[path].File?
      modifies this`entries
      ensures entries == if r.Success? then old(entries)[path := old(entries)[path].(mode := mode)] else old(entries)
    {
      var ok: bool := *;
      if ok {
        entries := entries[path := entries[path].(mode := mode)];
        r := Success(());
      } else {
        r := Failure(Other);
      }
    }

    // rename(2) replaces a destination that is not a directory.
    method Rename(source: Path, destination: Path) returns (r: Result<(), IoError>)
      modifies this`entries
      ensures r.Success? ==> source in old(entries) && (destination in old(entries) ==> !old(entries)[destination].Dir?)
      ensures entries ==
        if r.Success? then (old(entries) - {source})[destination := old(entries)[source]] else old(entries)
    {
      var ok: bool := *;
      if source !in entries {
        r := Failure(NotFound);
      } else if !ok || (destination in entries && entries[destination].Dir?) {
        r := Failure(Other);
      } else {
        entries := (entries - {source})[destination := entries[source]];
        r := Success(());
      }
    }

    method RemoveFile(path: Path) returns (r: Result<(), IoError>)
      modifies this`entries
      ensures entries == if r.Success? then old(entries) - {path} else old(entries)
      ensures r.Success? ==> path in old(entries)
    {
      var ok: bool := *;
      if path !in entries {
        r := Failure(NotFound);
      } else if !ok || entries[path].Dir? {
        r := Failure(Other);
      } else {
        entries := entries - {path};
        r := Success(());
      }
    }

    // Dropping a temporary path removes what is there, and ignores a failure.
    method Drop(path: Path)
      requires path in entries ==> !entries[path].Dir?
      modifies this`entries, this`botched
      ensures if botched == old(botched) then entries == old(entries) - {path}
              else botched == old(botched) + 1 && path in entries && entries == old(entries)
    {
      var removed := RemoveFile(path);
      if removed.Failure? && path in entries {
        botched := botched + 1;
      }
    }
  }

  // ---- The code ------------------------------------------------------------------------------

  // Leaves the new contents with the target's mode in a new file, and on a failure
  // nothing, unless the removal failed.
  method StageFile(fs: FileSystem, target: Path, contents: string, named: set<Path>)
    returns (r: Result<Path, IoError>)
    requires target in named
    modifies fs
    ensures fs.misled == old(fs.misled)
    ensures r.Success? ==>
      && Unused(old(fs.entries), named, r.value) && fs.botched == old(fs.botched)
      && fs.entries == old(fs.entries)[r.value := File(contents, ModeFor(old(fs.entries), target))]
    ensures r.Failure? ==> Litter(old(fs.entries), old(fs.botched), fs.entries, fs.botched)
  {
    var before := fs.entries;
    var created := fs.CreateTemp(named);
    if created.Failure? {
      return created;
    }
    var staged := created.value;
    var written := fs.WriteAll(staged, contents);
    if written.Failure? {
      fs.Drop(staged);
      return Failure(written.error);
    }
    FollowIgnoresUnused(before, named, staged, fs.entries[staged], target, MAX_LINKS);
    assert fs.entries == before[staged := File(contents, PRIVATE)];
    var metadata := fs.Metadata(target);
    if metadata.Failure? && metadata.error != NotFound {
      fs.Drop(staged);
      return Failure(metadata.error);
    }
    var mode := if metadata.Success? && metadata.value.File? then metadata.value.mode else ORDINARY;
    var set_ := fs.SetPermissions(staged, mode);
    if set_.Failure? {
      fs.Drop(staged);
      return Failure(set_.error);
    }
    return Success(staged);
  }

  // Everything is as before, apart from new files that a failed removal left; they are
  // there exactly if a removal failed.
  ghost predicate Litter(before: Entries, botchedBefore: nat, after: Entries, botched: nat)
  {
    && (forall p :: p in before ==> p in after && after[p] == before[p])
    && botchedBefore <= botched
    && (botched == botchedBefore <==> after == before)
  }

  // `persist`: on a failure the temporary file is dropped.
  method Persist(fs: FileSystem, staged: Path, target: Path) returns (r: Result<(), IoError>)
    requires staged in fs.entries && !fs.entries[staged].Dir? && staged != target
    modifies fs
    ensures fs.misled == old(fs.misled)
    ensures r.Success? ==>
      fs.botched == old(fs.botched) && fs.entries == (old(fs.entries) - {staged})[target := old(fs.entries)[staged]]
    ensures r.Failure? ==>
      if fs.botched == old(fs.botched) then fs.entries == old(fs.entries) - {staged}
      else fs.botched == old(fs.botched) + 1 && fs.entries == old(fs.entries)
  {
    r := fs.Rename(staged, target);
    if r.Failure? {
      fs.Drop(staged);
    }
  }

  // An existing destination is never overwritten, unless looking at it failed.
  method MoveToUnusedPath(fs: FileSystem, source: Path, destination: Path) returns (r: Result<(), IoError>)
    modifies fs
    ensures fs.botched == old(fs.botched)
    ensures fs.misled == old(fs.misled) ==> (r.Success? ==> destination !in old(fs.entries))
    ensures destination in old(fs.entries) && fs.misled == old(fs.misled) ==> r == Failure(AlreadyExists)
    ensures fs.misled != old(fs.misled) ==> destination in old(fs.entries)
    ensures old(fs.misled) <= fs.misled
    ensures r.Success? ==> source in old(fs.entries)
    ensures fs.entries ==
      if r.Success? then (old(fs.entries) - {source})[destination := old(fs.entries)[source]] else old(fs.entries)
  {
    var metadata := fs.SymlinkMetadata(destination);
    if metadata.Success? {
      return Failure(AlreadyExists);
    }
    if destination in fs.entries {
      fs.misled := fs.misled + 1;
    }
    r := fs.Rename(source, destination);
  }

  // `make_in` with random candidates; taken ones are tried again.
  method MakeBackup(fs: FileSystem, path: Path, named: set<Path>) returns (r: Result<Path, IoError>)
    requires path in fs.entries && path in named
    modifies fs
    ensures fs.botched == old(fs.botched) && old(fs.misled) <= fs.misled
    ensures r.Failure? ==> fs.entries == old(fs.entries)
    ensures r.Success? && fs.misled == old(fs.misled) ==> Unused(old(fs.entries), named, r.value)
    ensures r.Success? ==> r.value !in named
    ensures r.Success? ==> fs.entries == (old(fs.entries) - {path})[r.value := old(fs.entries)[path]]
  {
    var attempts: int := *;
    r := Failure(AlreadyExists);
    while attempts > 0 && r == Failure(AlreadyExists)
      invariant fs.botched == old(fs.botched) && old(fs.misled) <= fs.misled
      invariant r.Failure? ==> fs.entries == old(fs.entries)
      invariant r.Success? && fs.misled == old(fs.misled) ==> Unused(old(fs.entries), named, r.value)
      invariant r.Success? ==> r.value !in named
      invariant r.Success? ==> fs.entries == (old(fs.entries) - {path})[r.value := old(fs.entries)[path]]
    {
      attempts := attempts - 1;
      var candidate: Path := *;
      if candidate !in named && forall p :: p in fs.entries ==> fs.entries[p] != Link(candidate) {
        var moved := MoveToUnusedPath(fs, path, candidate);
        r := if moved.Success? then Success(candidate) else Failure(moved.error);
      }
    }
  }

  // The two replacements. `placed` tells whether the Dockerfile was replaced, and `left`
  // which temporary files a failed removal left.
  method ReplacePair(fs: FileSystem, stagedConfig: Path, config: Path, stagedDockerfile: Path, dockerfile: Path)
    returns (r: Result<(), IoError>, ghost placed: bool, ghost left: set<Path>)
    requires stagedConfig in fs.entries && fs.entries[stagedConfig].File?
    requires stagedDockerfile in fs.entries && fs.entries[stagedDockerfile].File?
    requires stagedConfig != stagedDockerfile && {stagedConfig, stagedDockerfile} !! {config, dockerfile}
    modifies fs
    ensures fs.misled == old(fs.misled) && fs.botched == old(fs.botched) + |left|
    ensures r.Success? ==> placed && left == {}
    ensures left <= {stagedConfig, stagedDockerfile} && (placed ==> stagedDockerfile !in left)
    ensures
      var before := old(fs.entries);
      var kept := before - ({stagedConfig, stagedDockerfile} - left);
      var first := if placed then kept[dockerfile := before[stagedDockerfile]] else kept;
      fs.entries == if r.Success? then first[config := before[stagedConfig]] else first
  {
    placed, left := false, {};
    r := Persist(fs, stagedDockerfile, dockerfile);
    if r.Success? {
      placed := true;
      r := Persist(fs, stagedConfig, config);
      if fs.botched != old(fs.botched) {
        left := {stagedConfig};
      }
    } else {
      if fs.botched != old(fs.botched) {
        left := {stagedDockerfile};
      }
      ghost var botched := fs.botched;
      fs.Drop(stagedConfig);
      if fs.botched != botched {
        left := left + {stagedConfig};
      }
    }
  }

  // After a failed replacement: the previous Dockerfile is moved back, or a new one is
  // removed. A rollback that failed with something to do is counted.
  method RollBack(fs: FileSystem, backup: Option<Path>, dockerfile: Path) returns (r: Result<(), IoError>)
    requires backup.Some? ==> backup.value in fs.entries && !fs.entries[backup.value].Dir? && backup.value != dockerfile
    requires dockerfile in fs.entries ==> fs.entries[dockerfile].File?
    modifies fs
    ensures fs.misled == old(fs.misled)
    ensures backup.None? ==>
      if fs.botched == old(fs.botched) then fs.entries == old(fs.entries) - {dockerfile}
      else fs.botched == old(fs.botched) + 1 && dockerfile in old(fs.entries) && fs.entries == old(fs.entries)
    ensures backup.Some? && r.Success? ==>
      fs.botched == old(fs.botched) && fs.entries == (old(fs.entries) - {backup.value})[dockerfile := old(fs.entries)[backup.value]]
    ensures backup.Some? && r.Failure? ==>
      && fs.entries == old(fs.entries)
      && fs.botched == old(fs.botched) +
           if dockerfile in fs.entries && fs.entries[dockerfile] == fs.entries[backup.value] then 0 else 1
  {
    match backup {
      case Some(path) =>
        r := fs.Rename(path, dockerfile);
        if r.Failure? && !(dockerfile in fs.entries && fs.entries[dockerfile] == fs.entries[path]) {
          fs.botched := fs.botched + 1;
        }
      case None =>
        r := Success(());
        var metadata := fs.Metadata(dockerfile);
        if metadata.Success? && metadata.value.File? {
          r := fs.RemoveFile(dockerfile);
        }
        if dockerfile in fs.entries {
          fs.botched := fs.botched + 1;
        }
    }
  }

  // The state between staging and replacing: the new contents in two new files, and
  // the previous Dockerfile, if there is one, in a third.
  datatype Plan = Plan(config: Path, stagedConfig: Path, newConfig: Node,
                       dockerfile: Path, stagedDockerfile: Path, newDockerfile: Node, backup: Option<Path>)

  ghost predicate NewPaths(before: Entries, plan: Plan)
  {
    && {plan.stagedConfig, plan.stagedDockerfile} !! before.Keys + {plan.config, plan.dockerfile}
    && plan.stagedConfig != plan.stagedDockerfile
    && plan.newConfig.File? && plan.newDockerfile.File?
    && (plan.backup.None? <==> plan.dockerfile !in before)
    && (plan.backup.Some? ==>
          && plan.backup.value !in before.Keys + {plan.config, plan.dockerfile, plan.stagedConfig, plan.stagedDockerfile}
          && !before[plan.dockerfile].Dir?)
  }

  ghost function Ready(before: Entries, plan: Plan): Entries
    requires NewPaths(before, plan)
  {
    var staged := before[plan.stagedConfig := plan.newConfig][plan.stagedDockerfile := plan.newDockerfile];
    if plan.backup.None? then staged
    else (staged - {plan.dockerfile})[plan.backup.value := before[plan.dockerfile]]
  }

  ghost function Done(before: Entries, plan: Plan): Entries
  {
    before[plan.dockerfile := plan.newDockerfile][plan.config := plan.newConfig]
  }

  lemma ReplacingIsDone(before: Entries, plan: Plan)
    requires NewPaths(before, plan)
    ensures
      var temps := {plan.stagedConfig, plan.stagedDockerfile};
      var replaced := (Ready(before, plan) - temps)[plan.dockerfile := plan.newDockerfile][plan.config := plan.newConfig];
      match plan.backup
      case None => replaced == Done(before, plan)
      case Some(path) =>
        replaced - {path} == Done(before, plan) && path in replaced && !replaced[path].Dir? && path !in Done(before, plan)
  {
  }

  // What is left of `Ready` when the replacements fail.
  ghost function Given(before: Entries, plan: Plan, placed: bool, left: set<Path>): Entries
    requires NewPaths(before, plan)
  {
    var kept := Ready(before, plan) - ({plan.stagedConfig, plan.stagedDockerfile} - left);
    if placed then kept[plan.dockerfile := plan.newDockerfile] else kept
  }

  lemma GivenShape(before: Entries, plan: Plan, placed: bool, left: set<Path>, p: Path)
    requires NewPaths(before, plan) && left <= {plan.stagedConfig, plan.stagedDockerfile}
    ensures
      var given := Given(before, plan, placed, left);
      if p == plan.dockerfile then
        (p in given <==> placed) && (placed ==> given[p] == plan.newDockerfile)
      else if p in {plan.stagedConfig, plan.stagedDockerfile} then p in given <==> p in left
      else if plan.backup == Some(p) then p in given && given[p] == before[plan.dockerfile]
      else (p in given <==> p in before) && (p in before ==> given[p] == before[p])
  {
  }

  lemma GivenBackIsBefore(before: Entries, plan: Plan, placed: bool, left: set<Path>)
    requires NewPaths(before, plan) && left <= {plan.stagedConfig, plan.stagedDockerfile}
    ensures
      var given := Given(before, plan, placed, left);
      var restored := if plan.backup.None? then given - {plan.dockerfile}
                      else (given - {plan.backup.value})[plan.dockerfile := before[plan.dockerfile]];
      && (left == {} <==> restored == before)
      && (plan.backup.Some? ==> plan.backup.value !in restored)
  {
    var given := Given(before, plan, placed, left);
    var restored := if plan.backup.None? then given - {plan.dockerfile}
                    else (given - {plan.backup.value})[plan.dockerfile := before[plan.dockerfile]];
    forall p ensures p in restored <==> p in before || p in left
             ensures p in before ==> restored[p] == before[p] {
      GivenShape(before, plan, placed, left, p);
    }
  }

  // Replaces, and on a failure rolls back; then drops the backup.
  method Finish(fs: FileSystem, plan: Plan, ghost before: Entries) returns (r: Result<(), IoError>)
    requires NewPaths(before, plan) && fs.entries == Ready(before, plan)
    modifies fs
    ensures fs.misled == old(fs.misled)
    ensures r.Success? ==> (fs.entries == Done(before, plan) <==> fs.botched == old(fs.botched))
    ensures r.Failure? ==> (fs.entries == before <==> fs.botched == old(fs.botched))
  {
    ghost var placed, left;
    r, placed, left := ReplacePair(fs, plan.stagedConfig, plan.config, plan.stagedDockerfile, plan.dockerfile);
    if r.Failure? {
      var undone := Undo(fs, plan, before, placed, left);
      return Failure(if undone.Failure? then undone.error else r.error);
    }
    ReplacingIsDone(before, plan);
    if plan.backup.Some? {
      fs.Drop(plan.backup.value);
    }
  }

  // If moving the previous Dockerfile back fails, dropping the backup deletes it.
  method Undo(fs: FileSystem, plan: Plan, ghost before: Entries, ghost placed: bool, ghost left: set<Path>)
    returns (undone: Result<(), IoError>)
    requires NewPaths(before, plan) && left <= {plan.stagedConfig, plan.stagedDockerfile}
    requires fs.entries == Given(before, plan, placed, left)
    modifies fs
    ensures fs.misled == old(fs.misled) && old(fs.botched) <= fs.botched
    ensures fs.entries == before <==> left == {} && fs.botched == old(fs.botched)
    ensures undone.Failure? && plan.backup.Some? && fs.botched == old(fs.botched) + 1
              && plan.dockerfile !in old(fs.entries) ==>
      fs.entries == old(fs.entries) - {plan.backup.value}
  {
    GivenShape(before, plan, placed, left, plan.dockerfile);
    GivenBackIsBefore(before, plan, placed, left);
    if plan.backup.Some? {
      GivenShape(before, plan, placed, left, plan.backup.value);
    }
    undone := RollBack(fs, plan.backup, plan.dockerfile);
    if plan.backup.Some? {
      fs.Drop(plan.backup.value);
    }
  }

  // Drops both staged files of a call that gives up before the first replacement.
  method DropBoth(fs: FileSystem, stagedConfig: Path, stagedDockerfile: Path, ghost before: Entries)
    requires stagedConfig !in before && stagedDockerfile !in before && stagedConfig != stagedDockerfile
    requires stagedConfig in fs.entries && !fs.entries[stagedConfig].Dir?
    requires stagedDockerfile in fs.entries && !fs.entries[stagedDockerfile].Dir?
    requires fs.entries - {stagedConfig, stagedDockerfile} == before
    modifies fs
    ensures fs.misled == old(fs.misled)
    ensures fs.entries == before <==> fs.botched == old(fs.botched)
  {
    fs.Drop(stagedDockerfile);
    fs.Drop(stagedConfig);
  }

  lemma DropAfterLitter(before: Entries, staged: Path, littered: Entries, dropped: Entries)
    requires staged in before && dropped == littered - {staged}
    requires forall p :: p in before ==> p in littered && littered[p] == before[p]
    ensures dropped == before - {staged} <==> littered == before
  {
    if dropped == before - {staged} {
      forall p ensures p in littered <==> p in before {
        assert p != staged ==> (p in dropped <==> p in littered) && (p in before - {staged} <==> p in before);
      }
    }
  }

  // The one thing beside the pair that a call can destroy: a file that the move to the
  // backup overwrote because looking at it had failed.
  ghost predicate Overwritten(before: Entries, lost: set<Path>, named: set<Path>, misled: bool)
  {
    && |lost| <= 1 && lost <= before.Keys && lost !! named
    && (lost != {} ==> misled)
  }

  // Both files are replaced, or nothing is changed, and no temporary file is left:
  // for every failure of any operations, exactly unless a cleanup or rollback failed.
  // (The names of temporary files are assumed to be unused; `misled` counts the backup
  // candidates that exist although looking at them failed, and `lost` is such a
  // candidate that was overwritten.)
  method WriteProjectFiles(fs: FileSystem, configPath: Path, config: string, dockerfile: Option<(Path, string)>)
    returns (r: Result<(), IoError>, ghost lost: set<Path>)
    modifies fs
    ensures Overwritten(old(fs.entries), lost, Named(configPath, dockerfile), fs.misled > old(fs.misled))
    ensures r.Success? ==>
      (fs.entries == Replaced(old(fs.entries), configPath, config, dockerfile) - lost <==> fs.botched == old(fs.botched))
    ensures r.Failure? ==> (fs.entries == old(fs.entries) - lost <==> fs.botched == old(fs.botched))
  {
    ghost var before := fs.entries;
    lost := {};
    assert before - {} == before;
    var named := Named(configPath, dockerfile);
    var staged := StageFile(fs, configPath, config, named);
    if staged.Failure? {
      return Failure(staged.error), {};
    }
    var stagedConfig := staged.value;
    if dockerfile.None? {
      assert Replaced(before, configPath, config, dockerfile) - {} == Replaced(before, configPath, config, dockerfile);
      r := Persist(fs, stagedConfig, configPath);
      return;
    }
    var path, contents := dockerfile.value.0, dockerfile.value.1;
    FollowIgnoresUnused(before, named, stagedConfig, fs.entries[stagedConfig], path, MAX_LINKS);
    ghost var withConfig := fs.entries;
    staged := StageFile(fs, path, contents, named);
    if staged.Failure? {
      ghost var littered := fs.entries;
      fs.Drop(stagedConfig);
      DropAfterLitter(withConfig, stagedConfig, littered, littered - {stagedConfig});
      assert withConfig - {stagedConfig} == before;
      return Failure(staged.error), {};
    }
    r, lost := ReplaceDockerfileToo(fs, configPath, stagedConfig, path, staged.value, before, named);
  }

  function Named(configPath: Path, dockerfile: Option<(Path, string)>): set<Path>
  {
    if dockerfile.Some? then {configPath, dockerfile.value.0} else {configPath}
  }

  // The backup holds the previous Dockerfile, and what it overwrote is gone.
  lemma BackupIsReady(before: Entries, plan: Plan, staged: Entries, backup: Path)
    requires plan.backup.None? && {plan.stagedConfig, plan.stagedDockerfile} !! before.Keys + {plan.config, plan.dockerfile}
    requires plan.stagedConfig != plan.stagedDockerfile && plan.newConfig.File? && plan.newDockerfile.File?
    requires staged == before[plan.stagedConfig := plan.newConfig][plan.stagedDockerfile := plan.newDockerfile]
    requires plan.dockerfile in before && !before[plan.dockerfile].Dir?
    requires backup !in {plan.config, plan.dockerfile, plan.stagedConfig, plan.stagedDockerfile}
    ensures NewPaths(before - {backup}, plan.(backup := Some(backup)))
    ensures (staged - {plan.dockerfile})[backup := before[plan.dockerfile]]
      == Ready(before - {backup}, plan.(backup := Some(backup)))
    ensures Done(before - {backup}, plan) == Done(before, plan) - {backup}
    ensures backup !in before ==> before - {backup} == before && Done(before, plan) - {backup} == Done(before, plan)
  {
  }

  // The rest, once both contents are staged.
  method ReplaceDockerfileToo(fs: FileSystem, configPath: Path, stagedConfig: Path, path: Path, stagedDockerfile: Path,
                              ghost before: Entries, named: set<Path>)
    returns (r: Result<(), IoError>, ghost lost: set<Path>)
    requires named == {configPath, path}
    requires {stagedConfig, stagedDockerfile} !! before.Keys + named && stagedConfig != stagedDockerfile
    requires stagedConfig in fs.entries && fs.entries[stagedConfig].File?
    requires stagedDockerfile in fs.entries && fs.entries[stagedDockerfile].File?
    requires fs.entries ==
      before[stagedConfig := fs.entries[stagedConfig]][stagedDockerfile := fs.entries[stagedDockerfile]]
    modifies fs
    ensures Overwritten(before, lost, named, fs.misled > old(fs.misled))
    ensures r.Success? ==>
      (fs.entries == before[path := old(fs.entries)[stagedDockerfile]][configPath := old(fs.entries)[stagedConfig]] - lost
       <==> fs.botched == old(fs.botched))
    ensures r.Failure? ==> (fs.entries == before - lost <==> fs.botched == old(fs.botched))
  {
    var newConfig, newDockerfile := fs.entries[stagedConfig], fs.entries[stagedDockerfile];
    lost := {};
    assert fs.entries - {stagedConfig, stagedDockerfile} == before == before - {};
    var existing := fs.SymlinkMetadata(path);
    if existing.Failure? && existing.error != NotFound {
      DropBoth(fs, stagedConfig, stagedDockerfile, before);
      return Failure(existing.error), {};
    }
    if existing.Success? && existing.value.Dir? {
      DropBoth(fs, stagedConfig, stagedDockerfile, before);
      return Failure(InvalidInput), {};
    }
    var plan := Plan(configPath, stagedConfig, newConfig, path, stagedDockerfile, newDockerfile, None);
    if existing.Failure? {
      assert Done(before, plan) - {} == Done(before, plan);
      r := Finish(fs, plan, before);
      return;
    }
    var made := MakeBackup(fs, path, named + {stagedConfig, stagedDockerfile});
    if made.Failure? {
      DropBoth(fs, stagedConfig, stagedDockerfile, before);
      return Failure(made.error), {};
    }
    BackupIsReady(before, plan, old(fs.entries), made.value);
    lost := if made.value in before then {made.value} else {};
    assert before - lost == before - {made.value} && Done(before, plan) - lost == Done(before, plan) - {made.value};
    r := Finish(fs, plan.(backup := Some(made.value)), before - {made.value});
  }
}
