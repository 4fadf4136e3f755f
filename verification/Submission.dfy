/** Exporting a trial workspace as changes against the task fixture and applying them again
    (src/evaluation/workspace.ts, src/evaluation/task.ts). A workspace is a map from path to contents. */
module Submission {
  import opened Ordering
  import opened Strings
  import opened Wrappers

  type Files = map<string, string>

  /** SHA-256 and `extname` are given; nothing but injectivity is assumed of the hash. */
  datatype Env = Env(sha256: string -> string, extname: string -> string)

  ghost predicate Injective(sha256: string -> string) {
    forall a, b :: sha256(a) == sha256(b) ==> a == b
  }

  datatype TaskFile = TaskFile(path: string, sha256: string)

  datatype Task = Task(
    id: string, sourceHash: string, files: seq<TaskFile>, editableDirectories: seq<string>,
    allowedNewFileExtensions: seq<string>, protectedPaths: seq<string>, maxFileBytes: nat)

  datatype Kind = Add | Modify | Delete

  datatype Change = Change(path: string, kind: Kind, sha256: Option<string>, bytes: Option<string>)

  datatype Violation = ProtectedPath(path: string) | TooLarge(path: string) | NewExtension(path: string)

  datatype Export = Export(
    taskId: string, sourceHash: string, accepted: bool, violations: seq<Violation>, changes: seq<Change>,
    submissionHash: string)

  // ----- paths -----

  /** `assertSafeRelativePath`. */
  predicate SafeRelativePath(path: string) {
    && path != "" && path[0] != '/'
    && '\\' !in path && NUL !in path && '\n' !in path && '\r' !in path
    && forall part :: part in Split('/', path) ==> part != "" && part != "." && part != ".."
  }

  const NUL: char := '\0'

  predicate IsEditable(task: Task, path: string) {
    exists i :: 0 <= i < |task.editableDirectories| && task.editableDirectories[i] + "/" <= path
  }

  /** The top-level directories that a scan skips. */
  predicate Skipped(path: string) {
    path == "node_modules" || path == ".git" || "node_modules/" <= path || ".git/" <= path
  }

  function ScanWorkspace(workspace: Files): Option<Files> {
    if exists path :: path in workspace && !Skipped(path) && !SafeRelativePath(path) then None
    else Some(map path | path in workspace && !Skipped(path) :: workspace[path])
  }

  // ----- hashes of lists -----

  function Terminated(fields: seq<string>): string {
    if fields == [] then "" else fields[0] + [NUL] + Terminated(fields[1..])
  }

  function KindName(k: Kind): string {
    match k case Add => "add" case Modify => "modify" case Delete => "delete"
  }

  function ChangeFields(changes: seq<Change>): seq<string> {
    if changes == [] then []
    else
      var c := changes[0];
      [c.path, KindName(c.kind), if c.sha256.Some? then c.sha256.value else ""] + ChangeFields(changes[1..])
  }

  function SubmissionHash(env: Env, changes: seq<Change>): string { env.sha256(Terminated(ChangeFields(changes))) }

  function FileFields(files: seq<TaskFile>): seq<string> {
    if files == [] then [] else [files[0].path, files[0].sha256] + FileFields(files[1..])
  }

  const BY_PATH: (TaskFile, TaskFile) -> bool := (a: TaskFile, b: TaskFile) => StringLe(a.path, b.path)

  function FixtureManifestHash(env: Env, files: seq<TaskFile>): string {
    env.sha256(Terminated(FileFields(Sort(BY_PATH, files))))
  }

  predicate NoNul(s: string) { NUL !in s }

  ghost predicate AllNoNul(fields: seq<string>) { forall i :: 0 <= i < |fields| ==> NoNul(fields[i]) }

  lemma {:induction false} FirstField(a: string, b: string, s: string, t: string)
    requires NoNul(a) && NoNul(b) && a + [NUL] + s == b + [NUL] + t
    ensures a == b && s == t
  {
    var x := a + [NUL] + s;
    assert x[|a|] == NUL && x[|b|] == NUL;
    assert forall i :: 0 <= i < |a| ==> x[i] == a[i] && a[i] in a;
    assert forall i :: 0 <= i < |b| ==> x[i] == b[i] && b[i] in b;
    assert |a| == |b|;
    assert a == x[..|a|] && b == x[..|b|];
    assert s == x[|a| + 1..] && t == x[|b| + 1..];
  }

  /** A NUL-terminated text determines the fields it was made from. */
  lemma {:induction false} TerminatedInjective(a: seq<string>, b: seq<string>)
    requires AllNoNul(a) && AllNoNul(b) && Terminated(a) == Terminated(b)
    ensures a == b
  {
    if a != [] && b != [] {
      FirstField(a[0], b[0], Terminated(a[1..]), Terminated(b[1..]));
      TerminatedInjective(a[1..], b[1..]);
      assert a == [a[0]] + a[1..] && b == [b[0]] + b[1..];
    }
  }

  /** What the hash covers of a change. */
  function Summary(c: Change): (string, Kind, string) {
    (c.path, c.kind, if c.sha256.Some? then c.sha256.value else "")
  }

  ghost predicate SameSummaries(a: seq<Change>, b: seq<Change>) {
    |a| == |b| && forall i :: 0 <= i < |a| ==> Summary(a[i]) == Summary(b[i])
  }

  lemma {:induction false} ChangeFieldsLength(changes: seq<Change>)
    ensures |ChangeFields(changes)| == 3 * |changes|
  {
    if changes != [] {
      ChangeFieldsLength(changes[1..]);
    }
  }

  lemma {:induction false} ChangeFieldsInjective(a: seq<Change>, b: seq<Change>)
    requires ChangeFields(a) == ChangeFields(b)
    ensures SameSummaries(a, b)
  {
    ChangeFieldsLength(a);
    ChangeFieldsLength(b);
    if a != [] {
      var f, g := ChangeFields(a), ChangeFields(b);
      assert f[0] == g[0] && f[1] == g[1] && f[2] == g[2];
      assert f[3..] == ChangeFields(a[1..]) && g[3..] == ChangeFields(b[1..]);
      ChangeFieldsInjective(a[1..], b[1..]);
      forall i | 0 <= i < |a| ensures Summary(a[i]) == Summary(b[i]) {
        if i > 0 {
          assert a[i] == a[1..][i - 1] && b[i] == b[1..][i - 1];
        }
      }
    }
  }

  ghost predicate PlainChanges(changes: seq<Change>) {
    forall i :: 0 <= i < |changes|
      ==> NoNul(changes[i].path) && (changes[i].sha256.Some? ==> NoNul(changes[i].sha256.value))
  }

  lemma {:induction false} PlainFields(changes: seq<Change>)
    requires PlainChanges(changes)
    ensures AllNoNul(ChangeFields(changes))
  {
    if changes != [] {
      PlainFields(changes[1..]);
    }
  }

  /** Equal submission hashes mean equal lists of path, kind and content hash. */
  lemma HashDeterminesChanges(env: Env, a: seq<Change>, b: seq<Change>)
    requires Injective(env.sha256) && PlainChanges(a) && PlainChanges(b)
    requires SubmissionHash(env, a) == SubmissionHash(env, b)
    ensures SameSummaries(a, b)
  {
    PlainFields(a);
    PlainFields(b);
    TerminatedInjective(ChangeFields(a), ChangeFields(b));
    ChangeFieldsInjective(a, b);
  }

  lemma {:induction false} FileFieldsInjective(a: seq<TaskFile>, b: seq<TaskFile>)
    requires FileFields(a) == FileFields(b)
    ensures a == b
  {
    if a != [] && b != [] {
      var f, g := FileFields(a), FileFields(b);
      assert f[0] == g[0] && f[1] == g[1];
      assert f[2..] == FileFields(a[1..]) && g[2..] == FileFields(b[1..]);
      FileFieldsInjective(a[1..], b[1..]);
      assert a == [a[0]] + a[1..] && b == [b[0]] + b[1..];
    }
  }

  ghost predicate PlainFiles(files: seq<TaskFile>) {
    forall f :: f in files ==> NoNul(f.path) && NoNul(f.sha256)
  }

  lemma {:induction false} PlainFileFields(files: seq<TaskFile>)
    requires PlainFiles(files)
    ensures AllNoNul(FileFields(files))
  {
    if files != [] {
      assert files[0] in files && forall f :: f in files[1..] ==> f in files;
      PlainFileFields(files[1..]);
    }
  }

  lemma PathOrder(files: seq<TaskFile>)
    requires forall f, g :: f in files && g in files && f.path == g.path ==> f == g
    ensures TotalPreorder(BY_PATH) && AntisymmetricOn(BY_PATH, files)
  {
    forall x, y ensures BY_PATH(x, y) || BY_PATH(y, x) {
      StringLeTotal(x.path, y.path);
    }
    forall x, y, z | BY_PATH(x, y) && BY_PATH(y, z) ensures BY_PATH(x, z) {
      StringLeTransitive(x.path, y.path, z.path);
    }
    forall x, y | x in files && y in files && BY_PATH(x, y) && BY_PATH(y, x) ensures x == y {
      StringLeTotal(x.path, y.path);
    }
  }

  /** The fixture hash determines the file list up to order, and does not depend on that order. */
  lemma FixtureHashIff(env: Env, a: seq<TaskFile>, b: seq<TaskFile>)
    requires Injective(env.sha256) && PlainFiles(a) && PlainFiles(b)
    requires forall f, g :: f in a && g in a && f.path == g.path ==> f == g
    ensures FixtureManifestHash(env, a) == FixtureManifestHash(env, b) <==> multiset(a) == multiset(b)
  {
    SortPermutes(BY_PATH, a);
    SortPermutes(BY_PATH, b);
    SameMembers(Sort(BY_PATH, a), a);
    SameMembers(Sort(BY_PATH, b), b);
    if FixtureManifestHash(env, a) == FixtureManifestHash(env, b) {
      PlainFileFields(Sort(BY_PATH, a));
      PlainFileFields(Sort(BY_PATH, b));
      TerminatedInjective(FileFields(Sort(BY_PATH, a)), FileFields(Sort(BY_PATH, b)));
      FileFieldsInjective(Sort(BY_PATH, a), Sort(BY_PATH, b));
    }
    if multiset(a) == multiset(b) {
      PathOrder(a);
      SortPermuted(BY_PATH, a, b);
    }
  }

  // ----- export -----

  /** The fixture's hash of a path; a later entry of the same path wins. */
  function Recorded(files: seq<TaskFile>, path: string): Option<string> {
    if files == [] then None
    else if files[|files| - 1].path == path then Some(files[|files| - 1].sha256)
    else Recorded(files[..|files| - 1], path)
  }

  function CurrentHash(env: Env, current: Files, path: string): Option<string> {
    if path in current then Some(env.sha256(current[path])) else None
  }

  datatype Finding = Unchanged | Refused(violation: Violation) | Changed(change: Change)

  /** What the export makes of one path. */
  function Examine(env: Env, task: Task, current: Files, path: string): Finding {
    var original, hash := Recorded(task.files, path), CurrentHash(env, current, path);
    if original == hash then Unchanged
    else if path in task.protectedPaths || !IsEditable(task, path) then Refused(ProtectedPath(path))
    else if path in current && |current[path]| > task.maxFileBytes then Refused(TooLarge(path))
    else if original.None? && path in current && env.extname(path) !in task.allowedNewFileExtensions
    then Refused(NewExtension(path))
    else if path !in current then Changed(Change(path, Delete, None, None))
    else Changed(Change(path, if original.Some? then Modify else Add, hash, Some(current[path])))
  }

  function Violations(env: Env, task: Task, current: Files, paths: seq<string>): seq<Violation> {
    if paths == [] then []
    else
      var finding := Examine(env, task, current, paths[|paths| - 1]);
      Violations(env, task, current, paths[..|paths| - 1]) + (if finding.Refused? then [finding.violation] else [])
  }

  function Changes(env: Env, task: Task, current: Files, paths: seq<string>): seq<Change> {
    if paths == [] then []
    else
      var finding := Examine(env, task, current, paths[|paths| - 1]);
      Changes(env, task, current, paths[..|paths| - 1]) + (if finding.Changed? then [finding.change] else [])
  }

  function FilePaths(files: seq<TaskFile>): seq<string> {
    if files == [] then [] else FilePaths(files[..|files| - 1]) + [files[|files| - 1].path]
  }

  /** All paths of fixture and workspace, sorted; `listing` is the order in which the scan found the files. */
  function AllPaths(task: Task, listing: seq<string>): seq<string> {
    Sort(StringLe, Distinct(FilePaths(task.files) + listing))
  }

  function ExportOf(env: Env, task: Task, current: Files, listing: seq<string>): Export {
    var paths := AllPaths(task, listing);
    var violations := Violations(env, task, current, paths);
    var changes := if violations == [] then Changes(env, task, current, paths) else [];
    Export(task.id, task.sourceHash, violations == [], violations, changes, SubmissionHash(env, changes))
  }

  method ExportSubmission(env: Env, task: Task, current: Files, listing: seq<string>) returns (r: Export)
    ensures r == ExportOf(env, task, current, listing)
  {
    var paths := AllPaths(task, listing);
    var violations, changes := [], [];
    for n := 0 to |paths|
      invariant violations == Violations(env, task, current, paths[..n])
      invariant changes == Changes(env, task, current, paths[..n])
    {
      var path := paths[n];
      assert paths[..n + 1][..n] == paths[..n];
      var original, hash := Recorded(task.files, path), CurrentHash(env, current, path);
      if original == hash {
        continue;
      }
      if path in task.protectedPaths || !IsEditable(task, path) {
        violations := violations + [ProtectedPath(path)];
        continue;
      }
      if path in current && |current[path]| > task.maxFileBytes {
        violations := violations + [TooLarge(path)];
        continue;
      }
      if original.None? && path in current && env.extname(path) !in task.allowedNewFileExtensions {
        violations := violations + [NewExtension(path)];
        continue;
      }
      if path in current {
        changes := changes + [Change(path, if original.Some? then Modify else Add, hash, Some(current[path]))];
      } else {
        changes := changes + [Change(path, Delete, None, None)];
      }
    }
    assert paths[..|paths|] == paths;
    var kept := if violations == [] then changes else [];
    r := Export(task.id, task.sourceHash, violations == [], violations, kept, SubmissionHash(env, kept));
  }

  // ----- apply -----

  datatype ApplyError = RejectedSubmission | OtherFixture | OutsideAllowlist(path: string) | UnsafePath(path: string)

  function ApplyChange(files: Files, c: Change): Files {
    if c.kind.Delete? then files - {c.path} else files[c.path := if c.bytes.Some? then c.bytes.value else ""]
  }

  function ApplyChanges(files: Files, changes: seq<Change>): Files {
    if changes == [] then files else ApplyChange(ApplyChanges(files, changes[..|changes| - 1]), changes[|changes| - 1])
  }

  /** Why a change cannot be applied. */
  function Obstacle(task: Task, c: Change): Option<ApplyError> {
    if !IsEditable(task, c.path) then Some(OutsideAllowlist(c.path))
    else if !SafeRelativePath(c.path) then Some(UnsafePath(c.path))
    else None
  }

  ghost predicate Applicable(task: Task, changes: seq<Change>) {
    forall i :: 0 <= i < |changes| ==> Obstacle(task, changes[i]).None?
  }

  lemma AppliedSnoc(task: Task, files: Files, changes: seq<Change>, n: nat)
    requires n < |changes| && Applicable(task, changes[..n]) && Obstacle(task, changes[n]).None?
    ensures Applicable(task, changes[..n + 1])
    ensures ApplyChanges(files, changes[..n + 1]) == ApplyChange(ApplyChanges(files, changes[..n]), changes[n])
  {
    hide Obstacle, ApplyChange;
    assert changes[..n + 1][..n] == changes[..n];
  }

  class Workspace {
    var files: Files

    constructor (files: Files)
      ensures this.files == files
    {
      this.files := files;
    }

    /** Changes before the first one that cannot be applied stay applied. */
    method ApplySubmission(task: Task, submission: Export) returns (r: Result<nat, ApplyError>)
      requires forall i :: 0 <= i < |submission.changes| ==>
        !submission.changes[i].kind.Delete? ==> submission.changes[i].bytes.Some?
      modifies this
      ensures r == Err(RejectedSubmission) <==> !submission.accepted
      ensures r == Err(OtherFixture) <==>
        submission.accepted && (submission.taskId != task.id || submission.sourceHash != task.sourceHash)
      ensures r.Err? && (r.error.RejectedSubmission? || r.error.OtherFixture?) ==> files == old(files)
      ensures r.Ok? ==> Applicable(task, submission.changes) && files == ApplyChanges(old(files), submission.changes)
      ensures r.Err? && !r.error.RejectedSubmission? && !r.error.OtherFixture? ==>
        exists n :: 0 <= n < |submission.changes| && Obstacle(task, submission.changes[n]) == Some(r.error)
          && Applicable(task, submission.changes[..n]) && files == ApplyChanges(old(files), submission.changes[..n])
    {
      if !submission.accepted {
        return Err(RejectedSubmission);
      }
      if submission.taskId != task.id || submission.sourceHash != task.sourceHash {
        return Err(OtherFixture);
      }
      var changes := submission.changes;
      assert Applicable(task, changes[..0]) && ApplyChanges(files, changes[..0]) == files;
      hide IsEditable, SafeRelativePath, Applicable, ApplyChanges;
      for n := 0 to |changes|
        invariant Applicable(task, changes[..n])
        invariant files == ApplyChanges(old(files), changes[..n])
      {
        var change := changes[n];
        if !IsEditable(task, change.path) {
          return Err(OutsideAllowlist(change.path));
        }
        if !SafeRelativePath(change.path) {
          return Err(UnsafePath(change.path));
        }
        AppliedSnoc(task, old(files), changes, n);
        if change.kind.Delete? {
          files := files - {change.path};
        } else {
          files := files[change.path := change.bytes.value];
        }
      }
      assert changes[..|changes|] == changes;
      r := Ok(|changes|);
    }
  }

  // ----- applying an export to the fixture gives the workspace back -----

  ghost predicate Agree(a: Files, b: Files, path: string) {
    (path in a <==> path in b) && (path in a ==> a[path] == b[path])
  }

  /** The fixture's files on disk: exactly the listed paths, each with its recorded hash. */
  ghost predicate Materialized(env: Env, task: Task, base: Files) {
    && (forall path :: Recorded(task.files, path) == CurrentHash(env, base, path))
    && (forall path :: path in base ==> SafeRelativePath(path))
  }

  /** `listing` names the scanned files, in any order. */
  ghost predicate Lists(listing: seq<string>, current: Files) {
    && (forall path :: path in listing <==> path in current)
    && (forall path :: path in current ==> SafeRelativePath(path))
  }

  lemma {:induction false} RecordedPaths(files: seq<TaskFile>, path: string)
    ensures Recorded(files, path).Some? <==> path in FilePaths(files)
  {
    if files != [] {
      RecordedPaths(files[..|files| - 1], path);
    }
  }

  lemma AllPathsMembers(task: Task, listing: seq<string>, path: string)
    ensures path in AllPaths(task, listing) <==> Recorded(task.files, path).Some? || path in listing
  {
    var all := Distinct(FilePaths(task.files) + listing);
    DistinctMembers(FilePaths(task.files) + listing);
    SortPermutes(StringLe, all);
    SameMembers(Sort(StringLe, all), all);
    RecordedPaths(task.files, path);
  }

  lemma AllPathsDistinct(task: Task, listing: seq<string>)
    ensures NoDuplicates(AllPaths(task, listing))
  {
    DistinctMembers(FilePaths(task.files) + listing);
    SortPermutes(StringLe, Distinct(FilePaths(task.files) + listing));
    PermutationKeepsDistinct(Distinct(FilePaths(task.files) + listing), AllPaths(task, listing));
  }

  /** What one examined path does to the files so far. */
  lemma OnePath(env: Env, task: Task, base: Files, current: Files, files: Files, path: string)
    requires Injective(env.sha256) && Materialized(env, task, base) && Agree(files, base, path)
    requires !Examine(env, task, current, path).Refused?
    ensures var finding := Examine(env, task, current, path);
      var next := if finding.Changed? then ApplyChange(files, finding.change) else files;
      Agree(next, current, path) && forall other :: other != path ==> Agree(next, files, other)
  {
    assert Recorded(task.files, path) == CurrentHash(env, base, path);
  }

  lemma {:induction false} AppliedSoFar(env: Env, task: Task, base: Files, current: Files, paths: seq<string>)
    requires Injective(env.sha256) && Materialized(env, task, base)
    requires NoDuplicates(paths)
    requires Violations(env, task, current, paths) == []
    ensures var r := ApplyChanges(base, Changes(env, task, current, paths));
      forall path :: Agree(r, if path in paths then current else base, path)
  {
    if paths != [] {
      var init, path := paths[..|paths| - 1], paths[|paths| - 1];
      assert paths == init + [path];
      assert path !in init;
      AppliedSoFar(env, task, base, current, init);
      var before := ApplyChanges(base, Changes(env, task, current, init));
      assert Agree(before, if path in init then current else base, path);
      OnePath(env, task, base, current, before, path);
      var finding := Examine(env, task, current, path);
      if finding.Changed? {
        ApplySnoc(base, Changes(env, task, current, init), finding.change);
      } else {
        assert Changes(env, task, current, paths) == Changes(env, task, current, init);
      }
      var r := ApplyChanges(base, Changes(env, task, current, paths));
      forall other ensures Agree(r, if other in paths then current else base, other) {
        assert Agree(before, if other in init then current else base, other);
      }
    }
  }

  lemma ApplySnoc(files: Files, changes: seq<Change>, c: Change)
    ensures ApplyChanges(files, changes + [c]) == ApplyChange(ApplyChanges(files, changes), c)
  {
    assert (changes + [c])[..|changes|] == changes;
  }

  lemma SameFiles(a: Files, b: Files)
    requires forall path :: Agree(a, b, path)
    ensures a == b
  {
    forall path ensures path in a.Keys <==> path in b.Keys {
      assert Agree(a, b, path);
    }
    forall path | path in a ensures a[path] == b[path] {
      assert Agree(a, b, path);
    }
  }

  /** A path that is not examined is in neither file map. */
  lemma Unlisted(env: Env, task: Task, base: Files, current: Files, listing: seq<string>, path: string)
    requires Materialized(env, task, base) && Lists(listing, current)
    ensures path in AllPaths(task, listing) <==> path in base || path in current
  {
    AllPathsMembers(task, listing, path);
    assert Recorded(task.files, path) == CurrentHash(env, base, path);
  }

  /** Materializing the fixture and applying an accepted export gives back the workspace. */
  lemma RoundTrip(env: Env, task: Task, base: Files, current: Files, listing: seq<string>)
    requires Injective(env.sha256) && Materialized(env, task, base) && Lists(listing, current)
    requires ExportOf(env, task, current, listing).accepted
    ensures ApplyChanges(base, ExportOf(env, task, current, listing).changes) == current
  {
    hide AllPaths, Changes, Violations, ApplyChanges, Materialized, Lists;
    var paths := AllPaths(task, listing);
    AllPathsDistinct(task, listing);
    AppliedSoFar(env, task, base, current, paths);
    var r := ApplyChanges(base, Changes(env, task, current, paths));
    forall path ensures Agree(r, current, path) {
      Unlisted(env, task, base, current, listing, path);
      assert Agree(r, if path in paths then current else base, path);
    }
    SameFiles(r, current);
  }

  /** An exported submission, accepted or not, meets no obstacle when it is applied. */
  lemma ExportApplies(env: Env, task: Task, base: Files, current: Files, listing: seq<string>)
    requires Materialized(env, task, base) && Lists(listing, current)
    ensures Applicable(task, ExportOf(env, task, current, listing).changes)
  {
    hide AllPaths, Changes, Violations, Materialized, Lists, SafeRelativePath, IsEditable;
    var changes := ExportOf(env, task, current, listing).changes;
    ChangesAllowed(env, task, current, AllPaths(task, listing));
    SafePaths(env, task, base, current, listing);
    forall i | 0 <= i < |changes| ensures Obstacle(task, changes[i]).None? {
      assert changes[i] in changes;
      assert Examine(env, task, current, changes[i].path) == Changed(changes[i]);
    }
  }

  /** Every exported change is of an examined path, in order, and none was refused. */
  lemma {:induction false} ChangesAllowed(env: Env, task: Task, current: Files, paths: seq<string>)
    ensures forall c :: c in Changes(env, task, current, paths) ==>
      c.path in paths && Examine(env, task, current, c.path) == Changed(c)
  {
    if paths != [] {
      var init := paths[..|paths| - 1];
      ChangesAllowed(env, task, current, init);
      assert paths == init + [paths[|paths| - 1]];
    }
  }

  lemma SafePaths(env: Env, task: Task, base: Files, current: Files, listing: seq<string>)
    requires Materialized(env, task, base) && Lists(listing, current)
    ensures forall path :: path in AllPaths(task, listing) ==> SafeRelativePath(path)
  {
    forall path | path in AllPaths(task, listing) ensures SafeRelativePath(path) {
      AllPathsMembers(task, listing, path);
      assert Recorded(task.files, path) == CurrentHash(env, base, path);
    }
  }

  /** The same from the workspace on disk: what is applied to the fixture holds exactly the files outside
      the two skipped directories, with their contents. */
  lemma WorkspaceRoundTrip(env: Env, task: Task, base: Files, workspace: Files, listing: seq<string>, path: string)
    requires Injective(env.sha256) && Materialized(env, task, base)
    requires ScanWorkspace(workspace).Some? && forall p :: p in listing <==> p in ScanWorkspace(workspace).value
    requires ExportOf(env, task, ScanWorkspace(workspace).value, listing).accepted
    ensures var r := ApplyChanges(base, ExportOf(env, task, ScanWorkspace(workspace).value, listing).changes);
      if Skipped(path) then path !in r else Agree(r, workspace, path)
  {
    hide ExportOf, SafeRelativePath;
    var current := ScanWorkspace(workspace).value;
    assert Lists(listing, current);
    RoundTrip(env, task, base, current, listing);
  }

  // ----- what is accepted -----

  /** A difference that an export may carry. */
  predicate Allowed(env: Env, task: Task, base: Files, current: Files, path: string) {
    && IsEditable(task, path) && path !in task.protectedPaths
    && (path in current ==> |current[path]| <= task.maxFileBytes)
    && (path in current && path !in base ==> env.extname(path) in task.allowedNewFileExtensions)
  }

  lemma {:induction false} NoViolations(env: Env, task: Task, current: Files, paths: seq<string>)
    ensures Violations(env, task, current, paths) == []
      <==> forall path :: path in paths ==> !Examine(env, task, current, path).Refused?
  {
    if paths != [] {
      NoViolations(env, task, current, paths[..|paths| - 1]);
      assert paths == paths[..|paths| - 1] + [paths[|paths| - 1]];
      assert paths[|paths| - 1] in paths;
    }
  }

  lemma RefusedIff(env: Env, task: Task, base: Files, current: Files, path: string)
    requires Injective(env.sha256) && Materialized(env, task, base)
    ensures Examine(env, task, current, path).Refused? <==>
      !Agree(base, current, path) && !Allowed(env, task, base, current, path)
  {
    assert Recorded(task.files, path) == CurrentHash(env, base, path);
  }

  /** An export is accepted exactly when every path that differs from the fixture may differ. */
  lemma AcceptedIff(env: Env, task: Task, base: Files, current: Files, listing: seq<string>)
    requires Injective(env.sha256) && Materialized(env, task, base) && Lists(listing, current)
    ensures ExportOf(env, task, current, listing).accepted
      <==> forall path :: Agree(base, current, path) || Allowed(env, task, base, current, path)
  {
    var paths := AllPaths(task, listing);
    NoViolations(env, task, current, paths);
    forall path ensures Agree(base, current, path) || path in paths {
      AllPathsMembers(task, listing, path);
      assert Recorded(task.files, path) == CurrentHash(env, base, path);
    }
    forall path ensures Examine(env, task, current, path).Refused? <==>
      !Agree(base, current, path) && !Allowed(env, task, base, current, path)
    {
      RefusedIff(env, task, base, current, path);
    }
  }

  /** After a round trip every protected or non-editable path has its fixture content. */
  lemma ProtectedKept(env: Env, task: Task, base: Files, current: Files, listing: seq<string>, path: string)
    requires Injective(env.sha256) && Materialized(env, task, base) && Lists(listing, current)
    requires ExportOf(env, task, current, listing).accepted
    requires path in task.protectedPaths || !IsEditable(task, path)
    ensures Agree(base, current, path)
    ensures Agree(base, ApplyChanges(base, ExportOf(env, task, current, listing).changes), path)
  {
    AcceptedIff(env, task, base, current, listing);
    assert !Allowed(env, task, base, current, path);
    RoundTrip(env, task, base, current, listing);
  }

  // ----- validation of any submission -----

  predicate WellFormedChange(env: Env, c: Change) {
    && SafeRelativePath(c.path)
    && (if c.kind.Delete? then c.sha256.None? && c.bytes.None?
        else c.sha256.Some? && c.bytes.Some? && env.sha256(c.bytes.value) == c.sha256.value)
  }

  ghost predicate DistinctPaths(changes: seq<Change>) {
    forall i, j :: 0 <= i < j < |changes| ==> changes[i].path != changes[j].path
  }

  ghost predicate WellFormed(env: Env, e: Export) {
    && (forall i :: 0 <= i < |e.changes| ==> WellFormedChange(env, e.changes[i]))
    && DistinctPaths(e.changes)
    && SubmissionHash(env, e.changes) == e.submissionHash
  }

  datatype Invalid = UnsafeChange | DuplicatePath | DeleteCarriesBytes | MissingBytes | ContentMismatch
    | AggregateMismatch

  method ValidateSubmissionExport(env: Env, e: Export) returns (r: Option<Invalid>)
    ensures r.None? <==> WellFormed(env, e)
  {
    var seen := {};
    for n := 0 to |e.changes|
      invariant forall i :: 0 <= i < n ==> WellFormedChange(env, e.changes[i])
      invariant forall i, j :: 0 <= i < j < n ==> e.changes[i].path != e.changes[j].path
      invariant forall path :: path in seen <==> exists i :: 0 <= i < n && e.changes[i].path == path
    {
      var change := e.changes[n];
      if !SafeRelativePath(change.path) {
        return Some(UnsafeChange);
      }
      if change.path in seen {
        return Some(DuplicatePath);
      }
      seen := seen + {change.path};
      if change.kind.Delete? {
        if change.sha256.Some? || change.bytes.Some? {
          return Some(DeleteCarriesBytes);
        }
      } else {
        if change.sha256.None? || change.bytes.None? {
          return Some(MissingBytes);
        }
        if env.sha256(change.bytes.value) != change.sha256.value {
          return Some(ContentMismatch);
        }
      }
    }
    r := if SubmissionHash(env, e.changes) != e.submissionHash then Some(AggregateMismatch) else None;
  }

  lemma {:induction false} ChangesDistinct(env: Env, task: Task, current: Files, paths: seq<string>)
    requires NoDuplicates(paths)
    ensures DistinctPaths(Changes(env, task, current, paths))
  {
    if paths != [] {
      var init, path := paths[..|paths| - 1], paths[|paths| - 1];
      ChangesDistinct(env, task, current, init);
      ChangesAllowed(env, task, current, init);
      assert path !in init;
      var finding := Examine(env, task, current, path);
      if finding.Changed? {
        assert finding.change.path == path;
      } else {
        assert Changes(env, task, current, paths) == Changes(env, task, current, init);
      }
    }
  }

  lemma ChangedWellFormed(env: Env, task: Task, current: Files, c: Change)
    requires Examine(env, task, current, c.path) == Changed(c) && SafeRelativePath(c.path)
    ensures WellFormedChange(env, c)
  {
  }

  lemma ChangesWellFormed(env: Env, task: Task, base: Files, current: Files, listing: seq<string>, c: Change)
    requires Materialized(env, task, base) && Lists(listing, current)
    requires c in Changes(env, task, current, AllPaths(task, listing))
    ensures WellFormedChange(env, c)
  {
    hide Examine, SafeRelativePath, WellFormedChange, AllPaths, Changes;
    ChangesAllowed(env, task, current, AllPaths(task, listing));
    SafePaths(env, task, base, current, listing);
    ChangedWellFormed(env, task, current, c);
  }

  /** What is exported passes its own validation. */
  lemma ExportIsWellFormed(env: Env, task: Task, base: Files, current: Files, listing: seq<string>)
    requires Materialized(env, task, base) && Lists(listing, current)
    ensures WellFormed(env, ExportOf(env, task, current, listing))
  {
    hide WellFormedChange, AllPaths, Changes, Violations, Materialized, Lists, SubmissionHash;
    AllPathsDistinct(task, listing);
    ChangesDistinct(env, task, current, AllPaths(task, listing));
    var changes := ExportOf(env, task, current, listing).changes;
    forall i | 0 <= i < |changes| ensures WellFormedChange(env, changes[i]) {
      ChangesWellFormed(env, task, base, current, listing, changes[i]);
    }
  }

  /** The submission hash of a valid submission determines every change, content included. */
  lemma HashDeterminesSubmission(env: Env, a: Export, b: Export)
    requires Injective(env.sha256) && (forall text :: NoNul(env.sha256(text)))
    requires WellFormed(env, a) && WellFormed(env, b) && a.submissionHash == b.submissionHash
    ensures a.changes == b.changes
  {
    HashDeterminesChanges(env, a.changes, b.changes);
    forall i | 0 <= i < |a.changes| ensures a.changes[i] == b.changes[i] {
      assert Summary(a.changes[i]) == Summary(b.changes[i]);
    }
  }

  /** Applying any submission without obstacle leaves every non-editable path alone. */
  lemma {:induction false} OnlyEditableTouched(task: Task, files: Files, changes: seq<Change>, path: string)
    requires Applicable(task, changes) && !IsEditable(task, path)
    ensures Agree(files, ApplyChanges(files, changes), path)
  {
    if changes != [] {
      assert Obstacle(task, changes[|changes| - 1]).None?;
      assert changes[|changes| - 1].path != path;
      OnlyEditableTouched(task, files, changes[..|changes| - 1], path);
    }
  }

  // ----- what an export says -----

  /** A path is editable exactly if it lies below one of the editable directories. */
  lemma EditableIff(task: Task, path: string)
    ensures IsEditable(task, path) <==>
      exists directory, rest :: directory in task.editableDirectories && path == directory + "/" + rest
  {
    if IsEditable(task, path) {
      var i :| 0 <= i < |task.editableDirectories| && task.editableDirectories[i] + "/" <= path;
      var prefix := task.editableDirectories[i] + "/";
      assert path == prefix + path[|prefix|..];
      assert task.editableDirectories[i] in task.editableDirectories;
    }
    if directory, rest :| directory in task.editableDirectories && path == directory + "/" + rest {
      assert directory + "/" <= path;
    }
  }

  /** What a change of a path must say, given the fixture and the workspace. */
  ghost predicate Describes(env: Env, task: Task, current: Files, c: Change) {
    match c.kind
    case Add => c.path in current && (forall f :: f in task.files ==> f.path != c.path)
                && c.bytes == Some(current[c.path]) && c.sha256 == Some(env.sha256(current[c.path]))
    case Modify => c.path in current && (exists f :: f in task.files && f.path == c.path)
                   && c.bytes == Some(current[c.path]) && c.sha256 == Some(env.sha256(current[c.path]))
    case Delete => c.path !in current && (exists f :: f in task.files && f.path == c.path)
                   && c.bytes.None? && c.sha256.None?
  }

  lemma {:induction false} RecordedIff(files: seq<TaskFile>, path: string)
    ensures Recorded(files, path).Some? <==> exists f :: f in files && f.path == path
  {
    if files != [] {
      RecordedIff(files[..|files| - 1], path);
      assert files == files[..|files| - 1] + [files[|files| - 1]];
    }
  }

  lemma ExaminedChange(env: Env, task: Task, current: Files, path: string)
    requires Examine(env, task, current, path).Changed?
    ensures Describes(env, task, current, Examine(env, task, current, path).change)
  {
    RecordedIff(task.files, path);
  }

  /** Every exported change says truly whether its path was added, modified or deleted, and carries the
      workspace's bytes and their hash. */
  lemma {:induction false} ChangesDescribe(env: Env, task: Task, current: Files, paths: seq<string>)
    ensures forall c :: c in Changes(env, task, current, paths) ==> Describes(env, task, current, c)
  {
    if paths != [] {
      ChangesDescribe(env, task, current, paths[..|paths| - 1]);
      if Examine(env, task, current, paths[|paths| - 1]).Changed? {
        ExaminedChange(env, task, current, paths[|paths| - 1]);
      }
    }
  }

  lemma ExportDescribes(env: Env, task: Task, current: Files, listing: seq<string>)
    ensures forall c :: c in ExportOf(env, task, current, listing).changes ==> Describes(env, task, current, c)
  {
    ChangesDescribe(env, task, current, AllPaths(task, listing));
    hide Changes, Describes;
  }

  // ----- which paths are safe -----

  /** The name of a file or directory. */
  predicate PlainName(name: string) {
    && name != "" && name != "." && name != ".."
    && forall c :: c in name ==> c != '/' && c != '\\' && c != '\0' && c != '\n' && c != '\r'
  }

  ghost predicate IsPathOf(path: string, names: seq<string>) {
    names != [] && path == Join('/', names) && forall name :: name in names ==> PlainName(name)
  }

  lemma {:induction false} JoinedCharacters(names: seq<string>, c: char)
    requires names != []
    ensures c in Join('/', names) <==> (c == '/' && |names| > 1) || exists name :: name in names && c in name
  {
    if |names| > 1 {
      JoinedCharacters(names[..|names| - 1], c);
      assert names == names[..|names| - 1] + [names[|names| - 1]];
    } else {
      assert names == [names[0]];
    }
  }

  /** A path is safe exactly if it is one or more plain names with slashes between them. So it never leads
      out of the directory it is taken in. */
  lemma SafePathIff(path: string)
    ensures SafeRelativePath(path) <==> exists names :: IsPathOf(path, names)
  {
    var parts := Split('/', path);
    JoinOfSplit('/', path);
    Unwanted(parts);
    if SafeRelativePath(path) {
      forall part | part in parts ensures PlainName(part) {
        forall c | c in part ensures c != '/' && c != '\\' && c != '\0' && c != '\n' && c != '\r' {
          JoinedCharacters(parts, c);
        }
      }
      assert IsPathOf(path, parts);
    }
    if names :| IsPathOf(path, names) {
      SplitOfJoin('/', names);
      StartsWithName(names);
    }
  }

  /** None of the four unwanted characters is in the whole if none is in a part. */
  lemma Unwanted(parts: seq<string>)
    requires parts != []
    ensures (forall part :: part in parts ==> PlainName(part)) ==>
      var path := Join('/', parts); '\\' !in path && '\0' !in path && '\n' !in path && '\r' !in path
  {
    JoinedCharacters(parts, '\\');
    JoinedCharacters(parts, '\0');
    JoinedCharacters(parts, '\n');
    JoinedCharacters(parts, '\r');
  }

  lemma {:induction false} StartsWithName(names: seq<string>)
    requires names != [] && forall name :: name in names ==> PlainName(name)
    ensures names[0] <= Join('/', names)
    ensures Join('/', names) != "" && Join('/', names)[0] != '/'
  {
    assert names[0] in names && names[0][0] in names[0];
    if |names| > 1 {
      StartsWithName(names[..|names| - 1]);
    }
  }

  /** The scan skips exactly what lies in a top-level `node_modules` or `.git`, or has that name itself. */
  lemma SkippedIff(path: string)
    ensures Skipped(path) <==> Split('/', path)[0] == "node_modules" || Split('/', path)[0] == ".git"
  {
    FirstPart(path, "node_modules");
    FirstPart(path, ".git");
  }

  lemma {:induction false} FirstPart(path: string, name: string)
    requires '/' !in name
    ensures Split('/', path)[0] == name <==> path == name || name + "/" <= path
  {
    if path != "" {
      var init, c := path[..|path| - 1], path[|path| - 1];
      assert path == init + [c];
      FirstPart(init, name);
      JoinOfSplit('/', path);
      JoinOfSplit('/', init);
      FirstIsPrefix(path);
      FirstIsPrefix(init);
    }
  }

  lemma FirstIsPrefix(path: string)
    ensures var first := Split('/', path)[0];
      '/' !in first && (path == first || first + "/" <= path)
  {
    JoinOfSplit('/', path);
    JoinPrefix(Split('/', path));
  }

  lemma {:induction false} JoinPrefix(parts: seq<string>)
    requires parts != []
    ensures |parts| == 1 ==> Join('/', parts) == parts[0]
    ensures |parts| > 1 ==> parts[0] + "/" <= Join('/', parts)
  {
    if |parts| > 2 {
      JoinPrefix(parts[..|parts| - 1]);
    }
  }

  /** A scan is refused exactly if some path outside the two skipped directories is unsafe; else it holds every
      path outside them, with its bytes. */
  lemma ScanIff(workspace: Files)
    ensures var scan := ScanWorkspace(workspace);
      && (scan.None? <==> exists path :: path in workspace && !Skipped(path) && !SafeRelativePath(path))
      && (scan.Some? ==> forall path ::
            && (path in scan.value <==> path in workspace && !Skipped(path))
            && (path in scan.value ==> scan.value[path] == workspace[path]))
  {
  }
}
