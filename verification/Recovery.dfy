/**
 The core activation journal (internal/core/recovery.go and the end of
 installBinaryInline in internal/core/install.go): an undo journal on disk with the
 phases installing, installed, preflight, applying and validated. Every file is
 backed up and recorded before it may change; renaming the journal away commits.
 Each single effect on disk may fail, or the process may die before or after it.
 */
module Recovery {
  import opened Durable

  /** The managed files of one core: its executable, four files beside it, units and configurations. */
  datatype Path = Binary | Trusted | Activate | Policy | Retained | Unit(unit: string) | Config(name: string)

  type Files = map<Path, string>

  datatype Phase = Installing | Installed | Preflight | Applying | Validated

  /** A digest identifies its content. */
  datatype Backup = Backup(index: nat, digest: string)

  /** What a path held when it was recorded; no backup means there was no file. */
  datatype Entry = Entry(path: Path, backup: Option<Backup>)

  datatype UnitRecord = UnitRecord(name: string, active: bool, enabled: bool)

  datatype Journal = Journal(
    phase: Phase, oldPolicy: string, policy: string, retained: string, entries: seq<Entry>, units: seq<UnitRecord>)

  /** The recovery directory; right after its creation it has no journal yet. */
  datatype Dir = Dir(journal: Option<Journal>, backups: map<nat, string>)

  datatype Services = Services(active: set<string>, enabled: set<string>)

  /**
   The host, and two facts about its history: what the files held when the live
   transaction began, and whether the retired directory is still whole.
   */
  datatype World = World(files: Files, live: Option<Dir>, done: Option<Dir>, services: Services, pre: Files, whole: bool)

  function Get(files: Files, p: Path): Option<string> { if p in files then Some(files[p]) else None }

  function Put(files: Files, p: Path, content: Option<string>): Files {
    if content.Some? then files[p := content.value] else files - {p}
  }

  predicate Recorded(j: Journal, p: Path) { exists i :: 0 <= i < |j.entries| && j.entries[i].path == p }

  /** The files that finishing an activation writes besides the recorded ones. */
  predicate Sidecar(p: Path) { p.Activate? || p.Policy? || p.Retained? }

  /** The entry tells what the path held, and its backup verifies. */
  predicate Faithful(e: Entry, files: Files, backups: map<nat, string>) {
    match e.backup
    case None => e.path !in files
    case Some(b) => Get(files, e.path) == Some(b.digest) && b.index in backups && backups[b.index] == b.digest
  }

  // ---------------------------------------------------------------- single effects

  datatype Action =
    | Mkdir
    | FirstJournal(phase: Phase, oldPolicy: string)
    | SaveBackup(copy: string)
    | WriteJournal(journal: Journal)
    | WriteFile(path: Path, content: Option<string>)
    | Retire
    | Reexpose
    | Prune(left: Option<Dir>)
    | Serve(services: Services)

  /** The next entry of a journal: a path not recorded yet, backed up under the next number. */
  predicate Appends(j: Journal, e: Entry, files: Files, backups: map<nat, string>) {
    && !j.phase.Validated? && !Recorded(j, e.path) && Faithful(e, files, backups)
    && (e.backup.Some? ==> e.backup.value.index == |j.entries|)
  }

  /** A journal may take over one more faithful entry, and never leaves the validated phase. */
  predicate Extends(j: Journal, next: Journal, files: Files, backups: map<nat, string>) {
    && next.oldPolicy == j.oldPolicy
    && (j.phase.Validated? ==> next.phase.Validated?)
    && (next.entries == j.entries ||
        (|next.entries| > 0 && var n := |next.entries| - 1; next.entries[..n] == j.entries && Appends(j, next.entries[n], files, backups)))
  }

  /** What the code checks, or has arranged, before it causes each effect. */
  predicate Allowed(w: World, a: Action) {
    match a
    case Mkdir => w.live.None?
    case FirstJournal(phase, _) => w.live.Some? && w.live.value.journal.None? && (phase.Installing? || phase.Installed?)
    case SaveBackup(_) =>
      w.live.Some? && w.live.value.journal.Some? && |w.live.value.journal.value.entries| !in w.live.value.backups
    case WriteJournal(j) =>
      w.live.Some? && w.live.value.journal.Some? && Extends(w.live.value.journal.value, j, w.files, w.live.value.backups)
    case WriteFile(p, _) =>
      && w.live.Some? && w.live.value.journal.Some?
      && (Recorded(w.live.value.journal.value, p) || (w.live.value.journal.value.phase.Validated? && Sidecar(p)))
    case Retire => w.live.Some? && w.done.None?
    case Reexpose => w.live.None? && w.whole
    case Prune(left) => true
    case Serve(_) => true
  }

  function Act(w: World, a: Action): World
    requires Allowed(w, a)
  {
    match a
    case Mkdir => w.(live := Some(Dir(None, map[])), pre := w.files, whole := false)
    case FirstJournal(phase, policy) => w.(live := Some(w.live.value.(journal := Some(Journal(phase, policy, "", "", [], [])))))
    case SaveBackup(content) =>
      var d := w.live.value;
      w.(live := Some(d.(backups := d.backups[|d.journal.value.entries| := content])))
    case WriteJournal(j) => w.(live := Some(w.live.value.(journal := Some(j))))
    case WriteFile(p, content) => w.(files := Put(w.files, p, content))
    case Retire => w.(live := None, done := w.live, whole := true)
    case Reexpose => w.(live := w.done, done := None, whole := false)
    case Prune(left) => w.(done := left, whole := false)
    case Serve(s) => w.(services := s)
  }

  // ---------------------------------------------------------------- what every state keeps

  /** The directory can undo everything that happened since the transaction began. */
  ghost predicate Undoable(d: Dir, files: Files, pre: Files) {
    match d.journal
    case None => files == pre
    case Some(j) =>
      && (forall i :: 0 <= i < |j.entries| ==> Faithful(j.entries[i], pre, d.backups))
      && (forall i, k :: 0 <= i < k < |j.entries| ==> j.entries[i].path != j.entries[k].path)
      && (forall i :: 0 <= i < |j.entries| && j.entries[i].backup.Some? ==> j.entries[i].backup.value.index < |j.entries|)
      && (forall p: Path :: Get(files, p) != Get(pre, p) ==> Recorded(j, p) || (j.phase.Validated? && Sidecar(p)))
  }

  ghost predicate Inv(w: World) {
    && (w.live.Some? ==> Undoable(w.live.value, w.files, w.pre) && !w.whole)
    && (w.whole ==> w.done.Some? && Undoable(w.done.value, w.files, w.pre))
  }

  lemma SameFiles(a: Files, b: Files)
    requires forall p: Path :: Get(a, p) == Get(b, p)
    ensures a == b
  {
    forall p | p in a
      ensures p in b && a[p] == b[p]
    {
      assert Get(a, p) == Get(b, p);
    }
    forall p | p in b
      ensures p in a
    {
      assert Get(a, p) == Get(b, p);
    }
  }

  lemma RecordedGrows(j: Journal, next: Journal, p: Path)
    requires Recorded(j, p) && |j.entries| <= |next.entries| && next.entries[..|j.entries|] == j.entries
    ensures Recorded(next, p)
  {
    var i :| 0 <= i < |j.entries| && j.entries[i].path == p;
    assert next.entries[i] == next.entries[..|j.entries|][i];
  }

  /** An unrecorded path still holds what it held at the start, so a new entry is faithful to that. */
  lemma AppendKeeps(d: Dir, e: Entry, files: Files, pre: Files)
    requires Undoable(d, files, pre) && d.journal.Some? && Appends(d.journal.value, e, files, d.backups)
    ensures Undoable(d.(journal := Some(d.journal.value.(entries := d.journal.value.entries + [e]))), files, pre)
  {
    var j := d.journal.value;
    var next := j.(entries := j.entries + [e]);
    assert next.entries[|j.entries|] == e;
    assert forall i :: 0 <= i < |j.entries| ==> next.entries[i] == j.entries[i];
    assert Get(files, e.path) == Get(pre, e.path);
    forall p: Path | Recorded(j, p)
      ensures Recorded(next, p)
    {
      RecordedGrows(j, next, p);
    }
  }

  /** The other fields of a journal may change as long as it does not leave the validated phase. */
  lemma RelabelKeeps(d: Dir, next: Journal, files: Files, pre: Files)
    requires Undoable(d, files, pre) && d.journal.Some? && next.entries == d.journal.value.entries
    requires d.journal.value.phase.Validated? ==> next.phase.Validated?
    ensures Undoable(d.(journal := Some(next)), files, pre)
  {
    SameEntries(d.journal.value, next);
  }

  lemma WriteJournalKeeps(d: Dir, next: Journal, files: Files, pre: Files)
    requires Undoable(d, files, pre) && d.journal.Some? && Extends(d.journal.value, next, files, d.backups)
    ensures Undoable(d.(journal := Some(next)), files, pre)
  {
    var j := d.journal.value;
    if next.entries == j.entries {
      RelabelKeeps(d, next, files, pre);
    } else {
      var n := |next.entries| - 1;
      assert next.entries == j.entries + [next.entries[n]];
      AppendKeeps(d, next.entries[n], files, pre);
      RelabelKeeps(d.(journal := Some(j.(entries := next.entries))), next, files, pre);
    }
  }

  lemma SaveBackupKeeps(d: Dir, content: string, files: Files, pre: Files)
    requires Undoable(d, files, pre) && d.journal.Some?
    ensures Undoable(d.(backups := d.backups[|d.journal.value.entries| := content]), files, pre)
  {
  }

  lemma WriteFileKeeps(d: Dir, files: Files, pre: Files, p: Path, content: Option<string>)
    requires Undoable(d, files, pre) && d.journal.Some?
    requires Recorded(d.journal.value, p) || (d.journal.value.phase.Validated? && Sidecar(p))
    ensures Undoable(d, Put(files, p, content), pre)
  {
    forall q: Path | q != p
      ensures Get(Put(files, p, content), q) == Get(files, q)
    {
    }
  }

  /** Every single effect keeps the journal able to undo the transaction. */
  lemma ActKeeps(w: World, a: Action)
    requires Inv(w) && Allowed(w, a)
    ensures Inv(Act(w, a))
  {
    match a
    case WriteJournal(j) => WriteJournalKeeps(w.live.value, j, w.files, w.pre);
    case SaveBackup(content) => SaveBackupKeeps(w.live.value, content, w.files, w.pre);
    case WriteFile(p, content) => WriteFileKeeps(w.live.value, w.files, w.pre, p, content);
    case FirstJournal(_, _) =>
    case Mkdir =>
    case Retire =>
    case Reexpose =>
    case Prune(_) =>
    case Serve(_) =>
  }

  /** A host without any transaction. */
  function Idle(files: Files, services: Services): World { World(files, None, None, services, files, false) }

  ghost function Run(w: World, actions: seq<Action>): World {
    if actions == [] then w
    else
      var n := |actions| - 1;
      var v := Run(w, actions[..n]);
      if Allowed(v, actions[n]) then Act(v, actions[n]) else v
  }

  lemma {:induction false} RunKeeps(w: World, actions: seq<Action>)
    requires Inv(w)
    ensures Inv(Run(w, actions))
  {
    if actions != [] {
      var n := |actions| - 1;
      RunKeeps(w, actions[..n]);
      if Allowed(Run(w, actions[..n]), actions[n]) {
        ActKeeps(Run(w, actions[..n]), actions[n]);
      }
    }
  }

  /**
   In every reachable state a managed file that differs from what it held before the
   live transaction has a verified backup in the live journal; the one exception are
   the files finishing writes, if the journal never recorded them.
   */
  lemma ChangedFilesAreBackedUp(files: Files, services: Services, actions: seq<Action>, p: Path)
    requires Run(Idle(files, services), actions).live.Some?
    requires var w := Run(Idle(files, services), actions); Get(w.files, p) != Get(w.pre, p)
    ensures var w := Run(Idle(files, services), actions);
            && w.live.value.journal.Some?
            && var j := w.live.value.journal.value;
               || (exists i :: 0 <= i < |j.entries| && j.entries[i].path == p
                    && match j.entries[i].backup
                       case None => p !in w.pre
                       case Some(b) =>
                         && p in w.pre && w.pre[p] == b.digest
                         && b.index in w.live.value.backups && w.live.value.backups[b.index] == w.pre[p])
               || (j.phase.Validated? && p in {Activate, Policy, Retained} && forall i :: 0 <= i < |j.entries| ==> j.entries[i].path != p)
  {
    RunKeeps(Idle(files, services), actions);
  }

  // ---------------------------------------------------------------- undoing

  function Original(e: Entry): Option<string> { if e.backup.Some? then Some(e.backup.value.digest) else None }

  /** The files after putting back what these entries recorded. */
  function Restored(files: Files, entries: seq<Entry>): Files {
    if entries == [] then files
    else
      var n := |entries| - 1;
      Put(Restored(files, entries[..n]), entries[n].path, Original(entries[n]))
  }

  lemma {:induction false} RestoredElsewhere(files: Files, entries: seq<Entry>, p: Path)
    requires forall i :: 0 <= i < |entries| ==> entries[i].path != p
    ensures Get(Restored(files, entries), p) == Get(files, p)
  {
    if entries != [] {
      RestoredElsewhere(files, entries[..|entries| - 1], p);
    }
  }

  lemma {:induction false} RestoredAt(files: Files, entries: seq<Entry>, i: nat)
    requires i < |entries| && forall k, l :: 0 <= k < l < |entries| ==> entries[k].path != entries[l].path
    ensures Get(Restored(files, entries), entries[i].path) == Original(entries[i])
  {
    var n := |entries| - 1;
    if i < n {
      RestoredAt(files, entries[..n], i);
    }
  }

  /** Restoring puts every recorded path back to the start of the transaction and touches no other. */
  lemma RestoredPath(d: Dir, files: Files, pre: Files, p: Path)
    requires Undoable(d, files, pre) && d.journal.Some?
    ensures var j := d.journal.value;
            Get(Restored(files, j.entries), p) == if Recorded(j, p) then Get(pre, p) else Get(files, p)
  {
    var j := d.journal.value;
    if Recorded(j, p) {
      var i :| 0 <= i < |j.entries| && j.entries[i].path == p;
      RestoredAt(files, j.entries, i);
    } else {
      RestoredElsewhere(files, j.entries, p);
    }
  }

  /** Every file that differs is recorded. */
  ghost predicate Strict(d: Dir, files: Files, pre: Files) {
    d.journal.Some? && forall p: Path :: Get(files, p) != Get(pre, p) ==> Recorded(d.journal.value, p)
  }

  predicate Covered(j: Journal) { Recorded(j, Activate) && Recorded(j, Policy) && Recorded(j, Retained) }

  lemma CoveredIsStrict(d: Dir, files: Files, pre: Files)
    requires Undoable(d, files, pre) && d.journal.Some?
    requires Covered(d.journal.value) || !d.journal.value.phase.Validated?
    ensures Strict(d, files, pre)
  {
  }

  /** Restoring gives back exactly the files of the start, absences included, if and only if all changes were recorded. */
  lemma RestoredIffStrict(d: Dir, files: Files, pre: Files)
    requires Undoable(d, files, pre) && d.journal.Some?
    ensures Restored(files, d.journal.value.entries) == pre <==> Strict(d, files, pre)
  {
    var j := d.journal.value;
    forall p: Path
      ensures Get(Restored(files, j.entries), p) == if Recorded(j, p) then Get(pre, p) else Get(files, p)
    {
      RestoredPath(d, files, pre, p);
    }
    if Strict(d, files, pre) {
      SameFiles(Restored(files, j.entries), pre);
    }
  }

  /**
   In every reachable state with a live journal, also in the middle of an activation or
   of an earlier rollback: rolling back now restores exactly the files of the start if
   and only if no file of the finish was changed unrecorded.
   */
  lemma RollbackRestoresIff(files: Files, services: Services, actions: seq<Action>)
    requires var w := Run(Idle(files, services), actions); w.live.Some? && w.live.value.journal.Some?
    ensures var w := Run(Idle(files, services), actions);
            var j := w.live.value.journal.value;
            Restored(w.files, j.entries) == w.pre <==>
              (forall p: Path :: Sidecar(p) && Get(w.files, p) != Get(w.pre, p) ==> Recorded(j, p))
  {
    var w := Run(Idle(files, services), actions);
    RunKeeps(Idle(files, services), actions);
    RestoredIffStrict(w.live.value, w.files, w.pre);
  }

  function Line(s: string): string { s + ['\n'] }

  /** What finishing a successful activation writes before it retires the journal. */
  function Finished(files: Files, j: Journal): Files {
    var policy := Put(files, Policy, Some(Line(j.policy)));
    var retained := if j.retained == "" then policy else Put(policy, Retained, Some(Line(j.retained)));
    Put(retained, Activate, None)
  }

  lemma FinishedPath(files: Files, j: Journal, p: Path)
    ensures Get(Finished(files, j), p) ==
      if p.Policy? then Some(Line(j.policy))
      else if p.Retained? && j.retained != "" then Some(Line(j.retained))
      else if p.Activate? then None
      else Get(files, p)
  {
  }

  /** Finishing changes no file that the journal does not record. */
  predicate FinishRecorded(j: Journal, files: Files) {
    && (Recorded(j, Policy) || Get(files, Policy) == Some(Line(j.policy)))
    && (Recorded(j, Retained) || j.retained == "" || Get(files, Retained) == Some(Line(j.retained)))
    && (Recorded(j, Activate) || Activate !in files)
  }

  /**
   Exactly when an interrupted commit can be undone: a rollback after finishing wrote
   its files restores the start of the transaction if and only if each file finishing
   changes was recorded. A caller can check this before finishing.
   */
  lemma CommitUndoneIff(d: Dir, files: Files, pre: Files)
    requires Undoable(d, files, pre) && Strict(d, files, pre) && d.journal.value.phase.Validated?
    ensures var j := d.journal.value;
            Restored(Finished(files, j), j.entries) == pre <==> FinishRecorded(j, files)
  {
    var j := d.journal.value;
    var after := Finished(files, j);
    forall p: Path
      ensures Get(after, p) == Get(files, p) || Sidecar(p)
    {
      FinishedPath(files, j, p);
    }
    assert Undoable(d, after, pre);
    RestoredIffStrict(d, after, pre);
    FinishedPath(files, j, Policy);
    FinishedPath(files, j, Retained);
    FinishedPath(files, j, Activate);
    forall p: Path | !Recorded(j, p)
      ensures Get(files, p) == Get(pre, p)
    {
    }
    if FinishRecorded(j, files) {
      forall p: Path | Get(after, p) != Get(pre, p)
        ensures Recorded(j, p)
      {
        FinishedPath(files, j, p);
      }
    }
  }

  /** The journals an activation with one unit and one configuration writes, none of them present before. */
  function UnitJournal(policy: string, u: string): Journal {
    Journal(Installed, "", policy, "", [Entry(Unit(u), None)], [])
  }

  function OpenedJournal(services: Services, policy: string, u: string, c: string): Journal {
    Journal(Preflight, "", policy, "", [Entry(Unit(u), None), Entry(Config(c), None)], UnitStates(services, [u]))
  }

  /**
   What the driver does after a start interrupted behind the first journal: it adopts the
   journal, records its unit and configuration, finds nothing to change, and is killed in
   its commit behind the policy file.
   */
  function InterruptedStart(services: Services, policy: string, u: string, c: string): seq<Action> {
    var begun := OpenedJournal(services, policy, u, c);
    [ Mkdir, FirstJournal(Installed, ""),
      WriteJournal(UnitJournal(policy, u)), WriteJournal(begun.(phase := Installed)), WriteJournal(begun),
      WriteJournal(begun.(phase := Validated)), WriteFile(Policy, Some(Line(policy))) ]
  }

  lemma {:induction false} RunTwo(w: World, a: Action, b: Action)
    requires Allowed(w, a) && Allowed(Act(w, a), b)
    ensures Run(w, [a, b]) == Act(Act(w, a), b)
  {
    assert [a, b][..1] == [a] && [a][..0] == [];
    assert Run(w, [a]) == Act(w, a);
  }

  lemma RunConcat(w: World, a: seq<Action>, b: seq<Action>)
    ensures Run(w, a + b) == Run(Run(w, a), b)
  {
    if b == [] {
      assert a + b == a;
    } else {
      var n := |b| - 1;
      RunConcat(w, a, b[..n]);
      assert (a + b)[..|a + b| - 1] == a + b[..n];
    }
  }

  /** The world behind the interrupted start, with a journal that records nothing yet. */
  function Started(services: Services): World {
    World(map[], Some(Dir(Some(Journal(Installed, "", "", "", [], [])), map[])), None, services, map[], false)
  }

  function WithJournal(services: Services, j: Journal): World {
    Started(services).(live := Some(Dir(Some(j), map[])))
  }

  lemma AdoptsJournal(services: Services, policy: string, u: string, c: string)
    ensures var begun := OpenedJournal(services, policy, u, c);
            Run(Started(services), [WriteJournal(UnitJournal(policy, u)), WriteJournal(begun.(phase := Installed))]) ==
              WithJournal(services, begun.(phase := Installed))
    ensures Opened(OpenedJournal(services, policy, u, c), services, policy, [u], [c])
  {
    var first, begun := UnitJournal(policy, u), OpenedJournal(services, policy, u, c);
    assert first.entries[..0] == [];
    assert begun.entries[..1] == first.entries;
    assert begun.entries[0].path == Unit(u) && begun.entries[1].path == Config(c);
    RunTwo(Started(services), WriteJournal(first), WriteJournal(begun.(phase := Installed)));
  }

  lemma ValidatesJournal(services: Services, policy: string, u: string, c: string)
    ensures Run(Idle(map[], services), InterruptedStart(services, policy, u, c)[..6]) ==
      WithJournal(services, OpenedJournal(services, policy, u, c).(phase := Validated))
  {
    var s0, a, begun := Idle(map[], services), InterruptedStart(services, policy, u, c), OpenedJournal(services, policy, u, c);
    assert a[..2] == [a[0], a[1]] && a[2..4] == [a[2], a[3]] && a[4..6] == [a[4], a[5]];
    RunTwo(s0, a[0], a[1]);
    AdoptsJournal(services, policy, u, c);
    RunTwo(WithJournal(services, begun.(phase := Installed)), a[4], a[5]);
    RunConcat(s0, a[..2], a[2..4]);
    RunConcat(s0, a[..4], a[4..6]);
    assert a[..2] + a[2..4] == a[..4] && a[..4] + a[4..6] == a[..6];
  }

  /**
   A journal created for an activation and interrupted before its first three entries
   is adopted by the next activation as it is: that activation's commit writes the
   policy file unrecorded, and a rollback leaves it changed.
   */
  lemma InterruptedStartLosesPolicy(services: Services, policy: string, u: string, c: string) returns (w: World)
    requires policy != ""
    ensures w == Run(Idle(map[], services), InterruptedStart(services, policy, u, c))
    ensures w.live == Some(Dir(Some(OpenedJournal(services, policy, u, c).(phase := Validated)), map[]))
    ensures Opened(OpenedJournal(services, policy, u, c), services, policy, [u], [c])
    ensures w.pre == map[] && Restored(w.files, w.live.value.journal.value.entries) != w.pre
  {
    var a, begun := InterruptedStart(services, policy, u, c), OpenedJournal(services, policy, u, c);
    AdoptsJournal(services, policy, u, c);
    ValidatesJournal(services, policy, u, c);
    RunSnoc(Idle(map[], services), a[..6], a[6]);
    assert a == a[..6] + [a[6]];
    w := WithJournal(services, begun.(phase := Validated)).(files := map[Policy := Line(policy)]);
    RestoredElsewhere(w.files, begun.entries, Policy);
  }

  lemma RunSnoc(w: World, actions: seq<Action>, a: Action)
    ensures var v := Run(w, actions); Run(w, actions + [a]) == if Allowed(v, a) then Act(v, a) else v
  {
    assert (actions + [a])[..|actions|] == actions;
  }

  /** Every entry of `d` is kept in `e`, and so is every copy it has. */
  ghost predicate Grown(d: Dir, e: Dir) {
    && (forall k :: k in d.backups ==> k in e.backups && e.backups[k] == d.backups[k])
    && (d.journal.Some? ==>
         && e.journal.Some? && |d.journal.value.entries| <= |e.journal.value.entries|
         && e.journal.value.entries[..|d.journal.value.entries|] == d.journal.value.entries)
  }

  lemma ExtendsGrows(d: Dir, e: Dir, j: Journal, files: Files)
    requires Grown(d, e) && e.journal.Some? && Extends(e.journal.value, j, files, e.backups)
    ensures Grown(d, e.(journal := Some(j)))
  {
    if d.journal.Some? && j.entries != e.journal.value.entries {
      var n, m := |d.journal.value.entries|, |e.journal.value.entries|;
      assert j.entries[..n] == j.entries[..m][..n];
    }
  }

  /** Wherever the directory is now, it holds everything that `d` held. */
  ghost predicate Kept(d: Dir, v: World) {
    && (v.live.Some? ==> Grown(d, v.live.value))
    && (v.whole ==> v.done.Some? && Grown(d, v.done.value))
  }

  lemma ActKept(d: Dir, v: World, a: Action)
    requires Kept(d, v) && Allowed(v, a) && !a.Mkdir?
    ensures Kept(d, Act(v, a))
  {
    if a.WriteJournal? {
      ExtendsGrows(d, v.live.value, a.journal, v.files);
    }
  }

  /**
   As long as no new transaction is begun, everything the live directory held stays:
   it grows, it is retired whole, or it comes back whole, whatever is cut short.
   */
  lemma {:induction false} BackupsSurvive(w: World, actions: seq<Action>)
    requires w.live.Some? && !w.whole && Mkdir !in actions
    ensures Kept(w.live.value, Run(w, actions))
  {
    if actions == [] {
      GrownSelf(w.live.value);
    } else {
      var n := |actions| - 1;
      BackupsSurvive(w, actions[..n]);
      if Allowed(Run(w, actions[..n]), actions[n]) {
        ActKept(w.live.value, Run(w, actions[..n]), actions[n]);
      }
    }
  }

  lemma GrownSelf(d: Dir)
    ensures Grown(d, d)
  {
    if d.journal.Some? {
      assert d.journal.value.entries[..|d.journal.value.entries|] == d.journal.value.entries;
    }
  }

  // ---------------------------------------------------------------- stopping and starting services

  datatype Result = Ok | Err | Crashed

  /** How a single call ends, and whether it took effect; a successful call always did. */
  datatype Outcome = Outcome(result: Result, effect: bool)

  /** The old service may run again only under the authorization it had. */
  predicate Restart(j: Journal, policy: string) { j.oldPolicy != "" && j.oldPolicy == policy }

  predicate StopNeeded(j: Journal, policy: string) {
    j.phase.Applying? || j.phase.Validated? || (policy != "" && !Restart(j, policy))
  }

  function Names(units: seq<UnitRecord>): set<string> { set i | 0 <= i < |units| :: units[i].name }

  function ActiveNames(units: seq<UnitRecord>): set<string> { set i | 0 <= i < |units| && units[i].active :: units[i].name }

  function EnabledNames(units: seq<UnitRecord>): set<string> { set i | 0 <= i < |units| && units[i].enabled :: units[i].name }

  function DisabledNames(units: seq<UnitRecord>): set<string> { set i | 0 <= i < |units| && !units[i].enabled :: units[i].name }

  function UnitFiles(files: Files): set<string> { set p | p in files && p.Unit? :: p.unit }

  /** The units a rollback deals with: recorded ones that exist, and all that are listed or have a file if services must stop. */
  function Found(w: World, j: Journal, policy: string, listed: set<string>): set<string> {
    (set u | u in Names(j.units) && (Unit(u) in w.files || u in w.services.active)) +
    (if StopNeeded(j, policy) then listed + UnitFiles(w.files) else {})
  }

  /** Services after everything found is stopped and what must not come back is disabled. */
  function Stopped(s: Services, files: Files, found: set<string>, j: Journal, restart: bool): Services {
    Services(s.active - found, s.enabled - ((if restart then DisabledNames(j.units) else found) * UnitFiles(files)))
  }

  function Restarted(s: Services, j: Journal): Services {
    Services(s.active + ActiveNames(j.units), s.enabled + EnabledNames(j.units))
  }

  function Settled(s: Services, files: Files, found: set<string>, j: Journal, restart: bool): Services {
    var stopped := Stopped(s, files, found, j, restart);
    if restart then Restarted(stopped, j) else stopped
  }

  /** The services a completed rollback leaves. */
  function ServicesAfter(w: World, j: Journal, policy: string, listed: set<string>): Services {
    var found := Found(w, j, policy, listed);
    if found == {} || !StopNeeded(j, policy) then w.services
    else Settled(w.services, w.files, found, j, Restart(j, policy))
  }

  /** No service gains anything it did not have, except recorded ones when a restart is authorized. */
  predicate NoneStarted(before: Services, after: Services, j: Journal, restart: bool) {
    && after.active <= before.active + (if restart then ActiveNames(j.units) else {})
    && after.enabled <= before.enabled + (if restart then EnabledNames(j.units) else {})
  }

  /** Unit by unit: what runs or is enabled afterwards did so before, or was recorded so and may restart. */
  lemma NoneStartedMeans(before: Services, after: Services, j: Journal, restart: bool)
    ensures NoneStarted(before, after, j, restart) <==>
      && (forall u :: u in after.active ==>
           u in before.active || (restart && exists i :: 0 <= i < |j.units| && j.units[i].name == u && j.units[i].active))
      && (forall u :: u in after.enabled ==>
           u in before.enabled || (restart && exists i :: 0 <= i < |j.units| && j.units[i].name == u && j.units[i].enabled))
  {
  }

  /**
   When services must stop and the old authorization is missing or changed, a completed
   rollback leaves every unit found stopped and, where it has a unit file, disabled, and
   starts none; with the same authorization only units active before are started.
   */
  lemma ServicesFenced(w: World, j: Journal, policy: string, listed: set<string>)
    requires StopNeeded(j, policy)
    ensures var after := ServicesAfter(w, j, policy, listed);
            var found := Found(w, j, policy, listed);
            && NoneStarted(w.services, after, j, Restart(j, policy))
            && (!Restart(j, policy) ==>
                 after.active !! found && after.enabled !! (found * UnitFiles(w.files)) && after.active <= w.services.active)
            && (Restart(j, policy) ==> after.active <= (w.services.active - found) + ActiveNames(j.units))
  {
  }

  /** The unit is listed, has a file, or is a recorded one that runs. */
  predicate Present(w: World, j: Journal, listed: set<string>, u: string) {
    u in listed || Unit(u) in w.files || ((exists i :: 0 <= i < |j.units| && j.units[i].name == u) && u in w.services.active)
  }

  lemma PresentIsFound(w: World, j: Journal, policy: string, listed: set<string>, u: string)
    requires StopNeeded(j, policy)
    ensures u in Found(w, j, policy, listed) <==> Present(w, j, listed, u)
  {
    if Unit(u) in w.files {
      assert u in UnitFiles(w.files);
    }
  }

  /**
   A rollback that had begun to change files, or meets any policy at all, without the
   authorization the old services had: every unit present is stopped and, where it has
   a unit file, disabled, recorded or not. Other units are left alone.
   */
  lemma UnauthorizedRollbackSilences(w: World, j: Journal, policy: string, listed: set<string>, u: string)
    requires (j.phase.Applying? || j.phase.Validated? || policy != "") && (j.oldPolicy == "" || j.oldPolicy != policy)
    ensures var after := ServicesAfter(w, j, policy, listed);
            && (Present(w, j, listed, u) ==> u !in after.active && (Unit(u) in w.files ==> u !in after.enabled))
            && (!Present(w, j, listed, u) ==>
                 (u in after.active <==> u in w.services.active) && (u in after.enabled <==> u in w.services.enabled))
  {
    PresentIsFound(w, j, policy, listed, u);
    if Unit(u) in w.files {
      assert u in UnitFiles(w.files);
    }
  }

  /**
   With the same non-empty policy after files were changed, and any unit present: exactly
   the recorded active units run and those that were not present, and the recorded units
   are enabled as they were recorded.
   */
  lemma AuthorizedRollbackRestarts(w: World, j: Journal, policy: string, listed: set<string>, x: string, u: string)
    requires (j.phase.Applying? || j.phase.Validated?) && j.oldPolicy != "" && j.oldPolicy == policy && Present(w, j, listed, x)
    ensures var after := ServicesAfter(w, j, policy, listed);
            && (u in after.active <==>
                 || (exists i :: 0 <= i < |j.units| && j.units[i].name == u && j.units[i].active)
                 || (u in w.services.active && !Present(w, j, listed, u)))
            && (u in after.enabled <==>
                 || (exists i :: 0 <= i < |j.units| && j.units[i].name == u && j.units[i].enabled)
                 || (u in w.services.enabled &&
                     !(Unit(u) in w.files && exists i :: 0 <= i < |j.units| && j.units[i].name == u && !j.units[i].enabled)))
  {
    PresentIsFound(w, j, policy, listed, x);
    PresentIsFound(w, j, policy, listed, u);
    if Unit(u) in w.files {
      assert u in UnitFiles(w.files);
    }
  }

  /** Without any unit present nothing is started either. */
  lemma NothingPresentNothingTouched(w: World, j: Journal, policy: string, listed: set<string>)
    requires (j.phase.Applying? || j.phase.Validated?) && forall x :: !Present(w, j, listed, x)
    ensures ServicesAfter(w, j, policy, listed) == w.services
  {
    forall x
      ensures x !in Found(w, j, policy, listed)
    {
      PresentIsFound(w, j, policy, listed, x);
    }
    assert Found(w, j, policy, listed) == {};
  }

  /** A journal is retired and exposed again as one piece. */
  lemma RetireAndReexpose(w: World)
    requires Inv(w) && Allowed(w, Retire)
    ensures var v := Act(w, Retire);
            v.live.None? && v.done == w.live && v.files == w.files && Allowed(v, Reexpose) && Act(v, Reexpose) == w
  {
  }

  /** Before any file was changed, and without a different policy, no service is touched. */
  lemma EarlyRollbackLeavesServices(w: World, j: Journal, policy: string, listed: set<string>)
    requires (j.phase.Installing? || j.phase.Installed? || j.phase.Preflight?) && (policy == "" || j.oldPolicy == policy)
    ensures ServicesAfter(w, j, policy, listed) == w.services
  {
  }

  // ---------------------------------------------------------------- the operations

  /** The host under the agent: every method is a sequence of single effects, each of which may fail or be the last. */
  class Machine {
    var w: World

    ghost predicate Valid()
      reads this
    {
      Inv(w)
    }

    constructor (files: Files, services: Services)
      ensures Valid() && w == Idle(files, services)
    {
      w := Idle(files, services);
    }

    method Do(a: Action, o: Outcome) returns (r: Result)
      requires Valid() && Allowed(w, a)
      modifies this
      ensures Valid() && r == o.result
      ensures w == if o.result.Ok? || o.effect then Act(old(w), a) else old(w)
    {
      ActKeeps(w, a);
      if o.result.Ok? || o.effect {
        w := Act(w, a);
      }
      r := o.result;
    }

    /** A rename that reports an error did not happen. */
    method Rename(a: Action, o: Outcome) returns (r: Result)
      requires Valid() && Allowed(w, a)
      modifies this
      ensures Valid() && r == o.result
      ensures w == if o.result.Ok? || (o.result.Crashed? && o.effect) then Act(old(w), a) else old(w)
    {
      r := Do(a, if o.result.Err? then o.(effect := false) else o);
    }

    /** Removing the retired directory may stop half-way. */
    method RemoveDone(r: Result, left: Option<Dir>)
      requires Valid()
      modifies this
      ensures Valid() && w == old(w).(done := if r.Ok? then None else left, whole := false)
    {
      var done := Do(Prune(if r.Ok? then None else left), Outcome(Ok, true));
    }

    /** The three injected calls of removeCoreRecoveryWith. */
    method RemoveRecoveryWith(remove: Result, left: Option<Dir>, rename: Outcome, sync: Result, back: Outcome, cleanup: Result)
      returns (r: Result)
      requires Valid() && w.live.Some?
      modifies this
      ensures Valid() && w == old(w).(live := w.live, done := w.done, whole := w.whole)
      // success means retired; the live directory is never seen half deleted
      ensures r.Ok? ==> w.live.None?
      ensures w.live.None? || w.live == old(w.live)
      ensures !r.Ok? && w.live.None? ==> w.done == old(w.live) && w.whole
      // a failed sync re-exposes the whole journal when the reverse rename works
      ensures remove.Ok? && rename.result.Ok? && sync.Err? && back.result.Ok? ==> r.Err? && w.live == old(w.live)
      ensures remove.Err? || (remove.Ok? && rename.result.Err?) ==> r.Err? && w.live == old(w.live)
      ensures r.Ok? <==> remove.Ok? && rename.result.Ok? && sync.Ok?
    {
      RemoveDone(remove, left);
      if !remove.Ok? {
        return remove;
      }
      r := Rename(Retire, rename);
      if !r.Ok? {
        return;
      }
      if sync.Crashed? {
        return Crashed;
      }
      if sync.Err? {
        r := Rename(Reexpose, back);
        return if r.Crashed? then Crashed else Err;
      }
      // the durable rename is the commit point: cleaning up cannot fail the caller
      RemoveDone(cleanup, left);
      r := Ok;
    }

    method RemoveRecovery() returns (r: Result)
      requires Valid() && w.live.Some?
      modifies this
      ensures Valid() && w == old(w).(live := w.live, done := w.done, whole := w.whole)
      ensures (r.Ok? ==> w.live.None?) && (w.live.None? || w.live == old(w.live))
    {
      var remove, sync, cleanup: Result := *, *, *;
      var rename, back: Outcome := *, *;
      var left: Option<Dir> := *;
      r := RemoveRecoveryWith(remove, left, rename, sync, back, cleanup);
    }

    /** loadCoreRecovery: a directory without a journal is refused. */
    method Load() returns (r: Result, j: Option<Journal>)
      requires Valid()
      ensures r.Ok? && j.None? ==> w.live.None?
      ensures r.Ok? && j.Some? ==> w.live.Some? && w.live.value.journal == j
    {
      var unreadable: bool := *;
      if unreadable || (w.live.Some? && w.live.value.journal.None?) {
        return Err, None;
      }
      return Ok, if w.live.Some? then w.live.value.journal else None;
    }

    method SetServices(s: Services) returns (r: Result)
      requires Valid()
      modifies this
      ensures Valid() && w == old(w).(services := w.services) && w.services in {old(w.services), s}
      ensures r.Ok? ==> w.services == s
    {
      var o: Outcome := *;
      r := Do(Serve(s), o);
    }

    /** validateCoreRecovery: every backup is there and has its recorded digest. */
    method Verify(d: Dir, j: Journal) returns (r: Result)
      ensures r.Ok? ==> Verified(d, j)
      ensures r.Ok? ==> forall i :: 0 <= i < |j.entries| && j.entries[i].backup.Some? ==>
        var b := j.entries[i].backup.value; b.index in d.backups && d.backups[b.index] == b.digest
    {
      for i := 0 to |j.entries|
        invariant forall k :: 0 <= k < i ==> EntryVerified(d, j.entries[k])
      {
        var unreadable: bool := *;
        if unreadable || !EntryVerified(d, j.entries[i]) {
          return Err;
        }
      }
      return Ok;
    }

    method RestoreFiles(j: Journal) returns (r: Result)
      requires Valid() && w.live.Some? && w.live.value.journal == Some(j) && Verified(w.live.value, j)
      modifies this
      ensures Valid() && w == old(w).(files := w.files)
      ensures r.Ok? ==> w.files == Restored(old(w.files), j.entries)
    {
      for i := 0 to |j.entries|
        invariant Valid() && w == old(w).(files := Restored(old(w.files), j.entries[..i]))
      {
        var e := j.entries[i];
        assert j.entries[..i + 1][..i] == j.entries[..i];
        assert EntryVerified(w.live.value, e);
        var content := if e.backup.Some? then Some(w.live.value.backups[e.backup.value.index]) else None;
        var o: Outcome := *;
        r := Do(WriteFile(e.path, content), o);
        if !r.Ok? {
          return;
        }
      }
      assert j.entries[..|j.entries|] == j.entries;
      r := Ok;
    }

    /** Stopping may fail with some units stopped already. */
    method StopUnits(units: set<string>) returns (r: Result)
      requires Valid()
      modifies this
      ensures Valid() && w == old(w).(services := w.services)
      ensures w.services.enabled == old(w.services.enabled) && w.services.active <= old(w.services.active)
      ensures r.Ok? ==> w.services.active == old(w.services.active) - units
    {
      r := *;
      var part: set<string> := *;
      var stopped := if r.Ok? then units else units * part;
      var done := Do(Serve(w.services.(active := w.services.active - stopped)), Outcome(Ok, true));
    }

    /** Disables one by one those of the units that have a unit file. */
    method Disable(units: set<string>) returns (r: Result)
      requires Valid()
      modifies this
      ensures Valid() && w == old(w).(services := w.services)
      ensures w.services.active == old(w.services.active) && w.services.enabled <= old(w.services.enabled)
      ensures r.Ok? ==> w.services.enabled == old(w.services.enabled) - (units * UnitFiles(w.files))
    {
      var left := units;
      while left != {}
        invariant Valid() && w == old(w).(services := w.services) && left <= units
        invariant w.services.active == old(w.services.active)
        invariant w.services.enabled == old(w.services.enabled) - ((units - left) * UnitFiles(w.files))
      {
        var u :| u in left;
        left := left - {u};
        if Unit(u) in w.files {
          assert u in UnitFiles(w.files);
          r := SetServices(w.services.(enabled := w.services.enabled - {u}));
          if !r.Ok? {
            return;
          }
        }
      }
      r := Ok;
    }

    /** Enables and starts what the journal says was enabled and running. */
    method StartRecorded(j: Journal) returns (r: Result)
      requires Valid()
      modifies this
      ensures Valid() && w == old(w).(services := w.services)
      ensures NoneStarted(old(w.services), w.services, j, true)
      ensures r.Ok? ==> w.services == Restarted(old(w.services), j)
    {
      for i := 0 to |j.units|
        invariant Valid() && w == old(w).(services := Restarted(old(w.services), j.(units := j.units[..i])))
      {
        StartedOne(j, i);
        if j.units[i].enabled {
          r := SetServices(w.services.(enabled := w.services.enabled + {j.units[i].name}));
          if !r.Ok? {
            return;
          }
        }
        if j.units[i].active {
          r := SetServices(w.services.(active := w.services.active + {j.units[i].name}));
          if !r.Ok? {
            return;
          }
        }
      }
      assert j.units[..|j.units|] == j.units;
      r := Ok;
    }

    /** Stops and disables before anything is restored. */
    method Silence(j: Journal, found: set<string>, restart: bool) returns (r: Result)
      requires Valid()
      modifies this
      ensures Valid() && w == old(w).(services := w.services) && NoneStarted(old(w.services), w.services, j, false)
      ensures r.Ok? ==> w.services == Stopped(old(w.services), old(w.files), found, j, restart)
    {
      r := StopUnits(found);
      if r.Ok? {
        r := Disable(if restart then DisabledNames(j.units) else found);
      }
    }

    /** Reloads the service manager and, if authorized, starts what ran before. */
    method Revive(j: Journal, restart: bool) returns (r: Result)
      requires Valid()
      modifies this
      ensures Valid() && w == old(w).(services := w.services) && NoneStarted(old(w.services), w.services, j, restart)
      ensures r.Ok? ==> w.services == if restart then Restarted(old(w.services), j) else old(w.services)
    {
      r := *;
      if r.Ok? && restart {
        r := StartRecorded(j);
        var failing: bool := *;
        if r.Ok? && failing {
          r := Err;
        }
      }
    }

    /** The part of a rollback before the journal is retired. */
    method Undo(j: Journal, fence: bool, found: set<string>, restart: bool) returns (r: Result)
      requires Valid() && w.live.Some? && w.live.value.journal == Some(j) && Verified(w.live.value, j)
      modifies this
      ensures Valid() && w == old(w).(files := w.files, services := w.services)
      ensures NoneStarted(old(w.services), w.services, j, restart) && (!fence ==> w.services == old(w.services))
      ensures r.Ok? ==> w.files == Restored(old(w.files), j.entries)
      ensures r.Ok? ==> w.services == if fence then Settled(old(w.services), old(w.files), found, j, restart) else old(w.services)
    {
      if fence {
        r := Silence(j, found, restart);
        if !r.Ok? {
          return;
        }
      }
      r := RestoreFiles(j);
      if r.Ok? && fence {
        r := Revive(j, restart);
      }
    }

    /** rollbackCore; without a service manager no service is touched. */
    method Rollback(j: Journal, policy: string, managed: bool, listed: set<string>) returns (r: Result)
      requires Valid() && w.live.Some? && w.live.value.journal == Some(j)
      modifies this
      ensures Valid() && w.pre == old(w.pre)
      // the journal stays whole until everything is restored
      ensures w.live == old(w.live) || (w.live.None? && w.files == Restored(old(w.files), j.entries))
      ensures r.Ok? ==> w.live.None?
      ensures w.live.None? && Strict(old(w.live.value), old(w.files), old(w.pre)) ==> w.files == w.pre
      ensures r.Ok? ==> w.services == if managed then ServicesAfter(old(w), j, policy, listed) else old(w.services)
      ensures NoneStarted(old(w.services), w.services, j, Restart(j, policy))
      ensures !managed || !StopNeeded(j, policy) ==> w.services == old(w.services)
    {
      r := Verify(w.live.value, j);
      if !r.Ok? {
        return;
      }
      RestoredIffStrict(w.live.value, w.files, w.pre);
      var found := Found(w, j, policy, listed);
      r := Undo(j, managed && found != {} && StopNeeded(j, policy), found, Restart(j, policy));
      if r.Ok? {
        r := RemoveRecovery();
      }
    }

    // ------------------------------------------------------------ installing

    /** newCoreRecovery. */
    method NewRecovery(phase: Phase) returns (r: Result, j: Journal)
      requires Valid() && (phase.Installing? || phase.Installed?)
      modifies this
      ensures Valid() && w.files == old(w.files) && w.services == old(w.services)
      ensures j == Journal(phase, OldPolicy(old(w.files)), "", "", [], [])
      ensures w.live == old(w.live) || (old(w.live).None? && w.live.Some? && w.pre == w.files)
      ensures Unstarted(old(w.live)) ==> !r.Ok? && w.live == old(w.live)
      ensures r.Ok? ==> old(w.live).None? && w.live == Some(Dir(Some(j), map[])) && w.pre == w.files
    {
      j := Journal(phase, OldPolicy(w.files), "", "", [], []);
      var removed: Result := *;
      var left: Option<Dir> := *;
      RemoveDone(removed, left);
      if !removed.Ok? {
        return removed, j;
      }
      if w.live.Some? {
        return Err, j;
      }
      var o, p: Outcome := *, *;
      r := Do(Mkdir, o);
      if r.Ok? {
        r := Do(FirstJournal(phase, OldPolicy(w.files)), p);
      }
    }

    /** In memory, the journal may be ahead of the disk in everything but its entries. */
    ghost predicate Backs(j: Journal)
      reads this
    {
      && w.live.Some? && w.live.value.journal.Some?
      && w.live.value.journal.value.entries == j.entries && w.live.value.journal.value.oldPolicy == j.oldPolicy
      && !w.live.value.journal.value.phase.Validated? && !j.phase.Validated?
    }

    /** The copy of a file is written under a name that must not exist; a failed copy may leave anything there. */
    method SaveCopy(j: Journal, p: Path) returns (r: Result, e: Entry)
      requires Valid() && Backs(j) && !Recorded(j, p)
      modifies this
      ensures Valid() && w == old(w).(live := w.live) && Backs(j)
      ensures r.Ok? ==> e.path == p && Appends(j, e, w.files, w.live.value.backups)
    {
      e := Entry(p, None);
      if p !in w.files {
        return Ok, e;
      }
      if |j.entries| in w.live.value.backups {
        return Err, e;
      }
      var copy: string, o: Outcome := *, *;
      r := Do(SaveBackup(if o.result.Ok? then w.files[p] else copy), o);
      e := Entry(p, Some(Backup(|j.entries|, w.files[p])));
    }

    /** The journal with one more entry replaces the old one. */
    method Append(j: Journal, e: Entry) returns (r: Result, next: Journal)
      requires Valid() && Backs(j) && Appends(j, e, w.files, w.live.value.backups)
      modifies this
      ensures Valid() && w == old(w).(live := w.live) && w.live.Some?
      ensures r.Ok? ==> Backs(next) && next == j.(entries := j.entries + [e])
    {
      next := j.(entries := j.entries + [e]);
      assert next.entries[..|j.entries|] == j.entries && next.entries[|j.entries|] == e;
      var o: Outcome := *;
      r := Do(WriteJournal(next), o);
    }

    /** snapshotCoreFile: back up, then record. */
    method Snapshot(j: Journal, p: Path) returns (r: Result, next: Journal)
      requires Valid() && Backs(j)
      modifies this
      ensures Valid() && w == old(w).(live := w.live) && w.live.Some?
      ensures r.Ok? ==> Backs(next) && Recorded(next, p) && next == j.(entries := next.entries)
      ensures r.Ok? ==> |j.entries| <= |next.entries| && next.entries[..|j.entries|] == j.entries
    {
      next := j;
      if Recorded(j, p) {
        return Ok, j;
      }
      var e: Entry;
      r, e := SaveCopy(j, p);
      if r.Ok? {
        r, next := Append(j, e);
        assert (j.entries + [e])[..|j.entries|] == j.entries && (j.entries + [e])[|j.entries|] == e;
      }
    }

    method SnapshotAll(j: Journal, paths: seq<Path>) returns (r: Result, next: Journal)
      requires Valid() && Backs(j)
      modifies this
      ensures Valid() && w == old(w).(live := w.live) && w.live.Some?
      ensures r.Ok? ==> Backs(next) && next == j.(entries := next.entries)
      ensures r.Ok? ==> forall p :: p in paths || Recorded(j, p) ==> Recorded(next, p)
    {
      next, r := j, Ok;
      for i := 0 to |paths|
        invariant Valid() && w == old(w).(live := w.live) && Backs(next) && next == j.(entries := next.entries)
        invariant forall p :: p in paths[..i] || Recorded(j, p) ==> Recorded(next, p)
      {
        var before := next;
        r, next := Snapshot(next, paths[i]);
        if !r.Ok? {
          return;
        }
        forall p | Recorded(before, p)
          ensures Recorded(next, p)
        {
          RecordedGrows(before, next, p);
        }
      }
      r := Ok;
    }

    /** prepareBinaryRecovery. */
    method PrepareBinaryRecovery() returns (r: Result, j: Journal)
      requires Valid()
      modifies this
      ensures Valid() && w.files == old(w.files) && w.services == old(w.services)
      ensures w.live == old(w.live) || (old(w.live).None? && w.live.Some? && w.pre == w.files)
      ensures r.Ok? ==> Backs(j) && j.phase.Installing? && w.pre == w.files && old(w.live).None?
      ensures r.Ok? ==> forall p :: p in SIDE_FILES ==> Recorded(j, p)
    {
      r, j := NewRecovery(Installing);
      if r.Ok? {
        r, j := SnapshotAll(j, SIDE_FILES);
      }
    }

    method Write(p: Path, content: Option<string>) returns (r: Result)
      requires Valid() && Allowed(w, WriteFile(p, content))
      modifies this
      ensures Valid() && w == old(w).(files := w.files)
      ensures w.files in {old(w.files), Put(old(w.files), p, content)}
      ensures r.Ok? ==> w.files == Put(old(w.files), p, content)
    {
      var o: Outcome := *;
      r := Do(WriteFile(p, content), o);
    }

    method SetJournal(j: Journal) returns (r: Result)
      requires Valid() && Allowed(w, WriteJournal(j))
      modifies this
      ensures Valid() && w == old(w).(live := w.live)
      ensures w.live == old(w.live) || w.live == Some(old(w.live).value.(journal := Some(j)))
      ensures r.Ok? ==> w.live == Some(old(w.live).value.(journal := Some(j)))
    {
      var o: Outcome := *;
      r := Do(WriteJournal(j), o);
    }

    /** The three replacements of an installation, in their order. */
    method ReplaceBinary(j: Journal, intent: string, executable: string, receipt: string) returns (r: Result)
      requires Valid() && Backs(j) && (forall p :: p in SIDE_FILES ==> Recorded(j, p)) && j.phase.Installing?
      modifies this
      ensures Valid() && w == old(w).(files := w.files, live := w.live) && w.live.Some?
      ensures w.live.value.journal.Some? && !w.live.value.journal.value.phase.Validated?
      ensures r.Ok? ==> w.files == NewBinary(old(w.files), intent, executable, receipt)
      ensures r.Ok? ==> w.live.value.journal == Some(j.(phase := Installed))
    {
      assert Activate in SIDE_FILES && Binary in SIDE_FILES && Trusted in SIDE_FILES;
      r := Write(Activate, Some(intent));
      if r.Ok? {
        r := Write(Binary, Some(executable));
      }
      if r.Ok? {
        r := Write(Trusted, Some(receipt));
      }
      if r.Ok? {
        r := SetJournal(j.(phase := Installed));
      }
    }

    /** rollbackCoreAfterFailure. */
    method RollbackAfterFailure(policy: string, managed: bool, listed: set<string>) returns (r: Result)
      requires Valid()
      modifies this
      ensures Valid() && w.pre == old(w.pre)
      ensures w == old(w) || (old(w.live).Some? && old(w.live).value.journal.Some?)
      ensures w.live == old(w.live) || w.live.None?
      ensures old(w.live).Some? && w.live.None? && Strict(old(w.live.value), old(w.files), old(w.pre)) ==> w.files == w.pre
      ensures !managed ==> w.services == old(w.services)
    {
      var j;
      r, j := Load();
      if r.Ok? && j.Some? {
        r := Rollback(j.value, policy, managed, listed);
      }
    }

    /** The tail of installBinaryInline: an error, but not the end of the process, rolls the installation back. */
    method Install(intent: string, executable: string, receipt: string) returns (r: Result)
      requires Valid()
      modifies this
      ensures Valid() && w.services == old(w.services)
      // whatever happened, the files are back, or a live journal can bring them back
      ensures old(w.live).Some? ==> w.files == old(w.files) && w.live == old(w.live)
      ensures old(w.live).None? ==> if w.live.Some? then w.pre == old(w.files) else w.files == old(w.files)
      ensures r.Ok? ==> w.files == NewBinary(old(w.files), intent, executable, receipt)
      ensures r.Ok? ==> w.live.Some? && w.live.value.journal.Some?
      ensures r.Ok? ==> w.live.value.journal.value.phase.Installed? && Covered(w.live.value.journal.value)
    {
      var j;
      r, j := PrepareBinaryRecovery();
      if !r.Ok? {
        return;
      }
      assert Activate in SIDE_FILES && Policy in SIDE_FILES && Retained in SIDE_FILES;
      r := ReplaceBinary(j, intent, executable, receipt);
      if r.Err? {
        CoveredIsStrict(w.live.value, w.files, w.pre);
        r := RollbackAfterFailure(j.oldPolicy, false, {});
        r := if r.Crashed? then Crashed else Err;
      }
    }

    // ------------------------------------------------------------ activating

    /** Records every unit file together with the state of its unit. */
    method RecordUnits(j: Journal, units: seq<string>) returns (r: Result, next: Journal)
      requires Valid() && Backs(j) && j.units == []
      modifies this
      ensures Valid() && w == old(w).(live := w.live) && w.live.Some?
      ensures r.Ok? ==> Backs(next) && next == j.(entries := next.entries, units := UnitStates(w.services, units))
      ensures r.Ok? ==> forall p :: Recorded(j, p) || (p.Unit? && p.unit in units) ==> Recorded(next, p)
    {
      next, r := j, Ok;
      for i := 0 to |units|
        invariant Valid() && w == old(w).(live := w.live) && Backs(next)
        invariant next == j.(entries := next.entries, units := UnitStates(w.services, units[..i]))
        invariant forall p :: Recorded(j, p) || (p.Unit? && p.unit in units[..i]) ==> Recorded(next, p)
      {
        var before := next;
        r, next := Snapshot(next, Unit(units[i]));
        if !r.Ok? {
          return;
        }
        forall p | Recorded(before, p)
          ensures Recorded(next, p)
        {
          RecordedGrows(before, next, p);
        }
        next := next.(units := next.units + [UnitState(w.services, units[i])]);
        assert units[..i + 1] == units[..i] + [units[i]];
      }
      assert units[..|units|] == units;
      r := Ok;
    }

    /** A journal for the activation: the staged one as it is, or a new one with the files finishing writes. */
    method OpenJournal(staged: Option<Journal>) returns (r: Result, j: Journal)
      requires Valid() && (staged.None? ==> w.live.None?) && (staged.Some? ==> Backs(staged.value))
      modifies this
      ensures Valid() && w.files == old(w.files) && w.services == old(w.services)
      ensures w.live.None? || old(w.live).Some? || w.pre == w.files
      ensures old(w.live).Some? ==> w == old(w)
      ensures r.Ok? ==> Backs(j) && (staged.Some? ==> j == staged.value) && (staged.None? ==> Covered(j))
    {
      if staged.Some? {
        return Ok, staged.value;
      }
      r, j := NewRecovery(Installed);
      if r.Ok? {
        r, j := SnapshotAll(j, [Activate, Policy, Retained]);
      }
    }

    /** Records what the activation may change and opens the preflight phase. */
    method OpenPreflight(j: Journal, policy: string, units: seq<string>, configs: seq<string>) returns (r: Result)
      requires Valid() && Backs(j)
      modifies this
      ensures Valid() && w == old(w).(live := w.live) && w.live.Some?
      ensures r.Ok? ==> w.live.value.journal.Some? && Opened(w.live.value.journal.value, w.services, policy, units, configs)
      ensures r.Ok? ==> forall p :: Recorded(j, p) ==> Recorded(w.live.value.journal.value, p)
    {
      var next;
      SameEntries(j, j.(policy := policy, units := []));
      r, next := RecordUnits(j.(policy := policy, units := []), units);
      if !r.Ok? {
        return;
      }
      var paths := seq(|configs|, i requires 0 <= i < |configs| => Config(configs[i]));
      r, next := SnapshotAll(next, paths);
      if !r.Ok? {
        return;
      }
      forall c | c in configs
        ensures Config(c) in paths
      {
        var i :| 0 <= i < |configs| && configs[i] == c;
        assert paths[i] == Config(c);
      }
      SameEntries(next, next.(phase := Preflight));
      r := SetJournal(next.(phase := Preflight));
    }

    /**
     beginCoreApply: an unfinished activation is rolled back first and reported; otherwise
     a journal is opened. `units` are the managed units found beside the wanted ones.
     */
    method BeginApply(policy: string, units: seq<string>, configs: seq<string>, listed: set<string>) returns (r: Result)
      requires Valid()
      modifies this
      ensures Valid()
      ensures old(w.live).None? && w.live.Some? ==> w.pre == old(w.files)
      ensures Unstarted(old(w.live)) ==> !r.Ok? && w.live == old(w.live)
      // an unfinished activation is never continued
      ensures old(w.live).Some? && old(w.live).value.journal.Some? && Unfinished(old(w.live).value.journal.value.phase) ==> !r.Ok?
      ensures r.Ok? ==> w.files == old(w.files) && w.services == old(w.services)
      ensures r.Ok? ==> w.live.Some? && w.live.value.journal.Some?
      ensures r.Ok? ==> Opened(w.live.value.journal.value, w.services, policy, units, configs)
      // the files finishing writes are recorded, unless a journal without them was adopted
      ensures r.Ok? && (old(w.live).None? || CoveredDir(old(w.live))) ==> Covered(w.live.value.journal.value)
    {
      var staged;
      r, staged := Load();
      if !r.Ok? {
        return;
      }
      if staged.Some? && Unfinished(staged.value.phase) {
        r := Rollback(staged.value, policy, true, listed);
        return if r.Crashed? then Crashed else Err;
      }
      var j;
      r, j := OpenJournal(staged);
      if r.Ok? {
        r := OpenPreflight(j, policy, units, configs);
      }
    }

    /** markCoreApplying. */
    method MarkApplying() returns (r: Result)
      requires Valid()
      modifies this
      ensures Valid() && w == old(w).(live := w.live)
      ensures r.Ok? ==> w.live.Some? && w.live.value.journal.Some? && w.live.value.journal.value.phase.Applying?
      ensures r.Ok? ==> old(w.live).Some? && old(w.live).value.journal.Some?
      ensures r.Ok? ==> w.live == Some(old(w.live).value.(journal := Some(old(w.live).value.journal.value.(phase := Applying))))
      // mutations begin from preflight only
      ensures r.Ok? ==> old(w.live).value.journal.value.phase.Preflight? || old(w.live).value.journal.value.phase.Applying?
    {
      var j;
      r, j := Load();
      if !r.Ok? || j.None? {
        return if r.Ok? then Err else r;
      }
      if j.value.phase.Applying? {
        return Ok;
      }
      if !j.value.phase.Preflight? {
        return Err;
      }
      r := SetJournal(j.value.(phase := Applying));
    }

    /** A change of the activation itself, to a file recorded for it. */
    method Change(j: Journal, p: Path, content: Option<string>) returns (r: Result)
      requires Valid() && w.live.Some? && w.live.value.journal == Some(j) && j.phase.Applying? && Recorded(j, p)
      modifies this
      ensures Valid() && w == old(w).(files := w.files)
      ensures r.Ok? ==> w.files == Put(old(w.files), p, content)
    {
      r := Write(p, content);
    }

    /** The changes of an activation, in whatever order the driver makes them. */
    method ChangeAll(j: Journal, changes: seq<(Path, Option<string>)>) returns (r: Result)
      requires Valid() && w.live.Some? && w.live.value.journal == Some(j) && j.phase.Applying?
      requires forall i :: 0 <= i < |changes| ==> Recorded(j, changes[i].0)
      modifies this
      ensures Valid() && w == old(w).(files := w.files)
    {
      r := Ok;
      for i := 0 to |changes|
        invariant Valid() && w == old(w).(files := w.files)
      {
        r := Change(j, changes[i].0, changes[i].1);
        if !r.Ok? {
          return;
        }
      }
    }

    /**
     An activation up to its validation, for a driver that names its units and
     configurations beforehand: whatever fails, every file it changed can be put back.
     */
    method RunActivation(policy: string, units: seq<string>, configs: seq<string>, listed: set<string>, changes: seq<(Path, Option<string>)>)
      returns (r: Result)
      requires Valid()
      requires forall i :: 0 <= i < |changes| ==>
        var p := changes[i].0; (p.Unit? && p.unit in units) || (p.Config? && p.name in configs)
      modifies this
      ensures Valid()
      ensures r.Ok? ==> w.live.Some? && w.live.value.journal.Some? && w.live.value.journal.value.phase.Validated?
      ensures r.Ok? ==> Strict(w.live.value, w.files, w.pre)
      ensures old(w.live).None? && w.live.Some? ==> w.pre == old(w.files)
    {
      r := BeginApply(policy, units, configs, listed);
      if !r.Ok? {
        return;
      }
      NamedRecorded(w.live.value.journal.value, w.services, policy, units, configs, changes);
      SameEntries(w.live.value.journal.value, w.live.value.journal.value.(phase := Applying));
      r := MarkApplying();
      if !r.Ok? {
        return;
      }
      r := ChangeAll(w.live.value.journal.value, changes);
      if !r.Ok? {
        return;
      }
      CoveredIsStrict(w.live.value, w.files, w.pre);
      SameEntries(w.live.value.journal.value, w.live.value.journal.value.(phase := Validated));
      r := MarkValidated();
    }

    /** markCoreValidated. */
    method MarkValidated() returns (r: Result)
      requires Valid()
      modifies this
      ensures Valid() && w == old(w).(live := w.live)
      ensures r.Ok? ==> old(w.live).Some? && old(w.live).value.journal.Some?
      ensures r.Ok? ==> w.live == Some(old(w.live).value.(journal := Some(old(w.live).value.journal.value.(phase := Validated))))
    {
      var j;
      r, j := Load();
      if !r.Ok? || j.None? {
        return if r.Ok? then Err else r;
      }
      r := SetJournal(j.value.(phase := Validated));
    }

    /** The writes of a successful finish, up to the commit point. */
    method WriteSidecars(j: Journal) returns (r: Result)
      requires Valid() && w.live.Some? && w.live.value.journal == Some(j) && j.phase.Validated?
      modifies this
      ensures Valid() && w == old(w).(files := w.files)
      ensures r.Ok? ==> w.files == Finished(old(w.files), j)
    {
      r := Write(Policy, Some(Line(j.policy)));
      if r.Ok? && j.retained != "" {
        r := Write(Retained, Some(Line(j.retained)));
      }
      if r.Ok? {
        r := Write(Activate, None);
      }
    }

    /** finishCoreActivation. */
    method Finish(success: bool, listed: set<string>) returns (r: Result)
      requires Valid()
      modifies this
      ensures Valid()
      ensures Unstarted(old(w.live)) ==> !r.Ok? && w.live == old(w.live)
      // only a validated activation is committed
      ensures success && old(w.live).Some? && w.live.None? ==>
        old(w.live).value.journal.Some? && old(w.live).value.journal.value.phase.Validated? &&
        w.files == Finished(old(w.files), old(w.live).value.journal.value)
      ensures success && r.Ok? ==> w.live.None? && (old(w.live).None? ==> w == old(w))
      // a confirmed rollback happened, or there was nothing to roll back
      ensures !success && r.Ok? ==> w.live.None?
      ensures !success && r.Ok? && old(w.live).None? ==> w == old(w) && w.done.None?
      ensures !success && r.Ok? && old(w.live).Some? ==>
        old(w.live).value.journal.Some? && w.files == Restored(old(w.files), old(w.live).value.journal.value.entries)
    {
      var j;
      r, j := Load();
      if !r.Ok? {
        return;
      }
      if j.None? {
        return if !success && w.done.Some? then Err else Ok;
      }
      if !success {
        r := Rollback(j.value, j.value.policy, true, listed);
        return;
      }
      if !j.value.phase.Validated? {
        return Err;
      }
      r := WriteSidecars(j.value);
      if r.Ok? {
        r := RemoveRecovery();
      }
    }

    /** recoverCoreInstallation: only an interrupted installation is undone here. */
    method RecoverInstallation(listed: set<string>) returns (r: Result, pending: bool)
      requires Valid()
      modifies this
      ensures Valid() && w.pre == old(w.pre)
      ensures Unstarted(old(w.live)) ==> !r.Ok? && w.live == old(w.live)
      ensures w.live == old(w.live) || w.live.None?
      ensures r.Ok? && pending ==> w.live.Some? && w.live.value.journal.Some? && Unfinished(w.live.value.journal.value.phase)
      ensures r.Ok? && !pending && w.live.Some? ==> w.live.value.journal.Some? && w.live.value.journal.value.phase.Installed?
      ensures old(w.live).Some? && w.live.None? ==> w.files == w.pre
    {
      pending := false;
      var removed: Result := *;
      var left: Option<Dir> := *;
      RemoveDone(removed, left);
      if !removed.Ok? {
        return removed, false;
      }
      var j;
      r, j := Load();
      if !r.Ok? || j.None? {
        return;
      }
      if j.value.phase.Installing? {
        CoveredIsStrict(w.live.value, w.files, w.pre);
        r := Rollback(j.value, j.value.oldPolicy, true, listed);
        return;
      }
      pending := Unfinished(j.value.phase);
    }

    /** discardStagedCore. */
    method DiscardStaged(listed: set<string>) returns (r: Result)
      requires Valid()
      modifies this
      ensures Valid() && w.pre == old(w.pre)
      ensures Unstarted(old(w.live)) ==> !r.Ok? && w.live == old(w.live)
      ensures w.live == old(w.live) || (w.live.None? && w.files == w.pre)
      ensures r.Ok? ==> w.live.None?
      ensures old(w.live).Some? && w.live.None? ==> old(w.live).value.journal.Some? && old(w.live).value.journal.value.phase.Installed?
    {
      var j;
      r, j := Load();
      if !r.Ok? || j.None? {
        return;
      }
      if !j.value.phase.Installed? {
        return Err;
      }
      CoveredIsStrict(w.live.value, w.files, w.pre);
      r := Rollback(j.value, j.value.oldPolicy, true, listed);
    }
  }

  lemma NamedRecorded(j: Journal, s: Services, policy: string, units: seq<string>, configs: seq<string>, changes: seq<(Path, Option<string>)>)
    requires Opened(j, s, policy, units, configs)
    requires forall i :: 0 <= i < |changes| ==>
      var p := changes[i].0; (p.Unit? && p.unit in units) || (p.Config? && p.name in configs)
    ensures forall i :: 0 <= i < |changes| ==> Recorded(j, changes[i].0)
  {
    forall i | 0 <= i < |changes|
      ensures Recorded(j, changes[i].0)
    {
      var p := changes[i].0;
      assert p == if p.Unit? then Unit(p.unit) else Config(p.name);
    }
  }

  lemma SameEntries(a: Journal, b: Journal)
    requires a.entries == b.entries
    ensures forall p: Path :: Recorded(a, p) ==> Recorded(b, p)
  {
  }

  predicate Unfinished(p: Phase) { p.Preflight? || p.Applying? || p.Validated? }

  /** A directory whose first journal was never written: every operation refuses it and leaves it alone. */
  predicate Unstarted(d: Option<Dir>) { d.Some? && d.value.journal.None? }

  predicate CoveredDir(d: Option<Dir>) { d.Some? && d.value.journal.Some? && Covered(d.value.journal.value) }

  function UnitState(s: Services, u: string): UnitRecord { UnitRecord(u, u in s.active, u in s.enabled) }

  function UnitStates(s: Services, units: seq<string>): seq<UnitRecord> {
    if units == [] then [] else UnitStates(s, units[..|units| - 1]) + [UnitState(s, units[|units| - 1])]
  }

  /** Every unit is recorded in its turn, as it ran and was enabled. */
  lemma {:induction false} UnitStatesAt(s: Services, units: seq<string>, i: nat)
    requires i < |units|
    ensures |UnitStates(s, units)| == |units|
    ensures var u := UnitStates(s, units)[i];
            u.name == units[i] && (u.active <==> units[i] in s.active) && (u.enabled <==> units[i] in s.enabled)
  {
    var n := |units| - 1;
    if i < n {
      UnitStatesAt(s, units[..n], i);
    } else if n > 0 {
      UnitStatesAt(s, units[..n], 0);
    }
  }

  /** The journal of an activation that may start: everything it may change is recorded. */
  ghost predicate Opened(j: Journal, s: Services, policy: string, units: seq<string>, configs: seq<string>) {
    && j.phase.Preflight? && j.policy == policy && j.units == UnitStates(s, units)
    && (forall u :: u in units ==> Recorded(j, Unit(u)))
    && (forall c :: c in configs ==> Recorded(j, Config(c)))
  }

  const SIDE_FILES: seq<Path> := [Binary, Trusted, Activate, Policy, Retained]

  function NewBinary(files: Files, intent: string, executable: string, receipt: string): Files {
    files[Activate := intent][Binary := executable][Trusted := receipt]
  }

  predicate EntryVerified(d: Dir, e: Entry) {
    e.backup.Some? ==> e.backup.value.index in d.backups && d.backups[e.backup.value.index] == e.backup.value.digest
  }

  ghost predicate Verified(d: Dir, j: Journal) { forall i :: 0 <= i < |j.entries| ==> EntryVerified(d, j.entries[i]) }

  lemma StartedOne(j: Journal, i: nat)
    requires i < |j.units|
    ensures var u := j.units[i];
            && ActiveNames(j.units[..i + 1]) == ActiveNames(j.units[..i]) + (if u.active then {u.name} else {})
            && EnabledNames(j.units[..i + 1]) == EnabledNames(j.units[..i]) + (if u.enabled then {u.name} else {})
    ensures ActiveNames(j.units[..i + 1]) <= ActiveNames(j.units) && EnabledNames(j.units[..i + 1]) <= EnabledNames(j.units)
  {
  }

  /** White space in the sense of Unicode. */
  predicate Space(c: char) {
    || c == ' ' || '\t' <= c <= '\r' || c == '\U{85}' || c == '\U{A0}' || c == '\U{1680}' || '\U{2000}' <= c <= '\U{200A}'
    || c == '\U{2028}' || c == '\U{2029}' || c == '\U{202F}' || c == '\U{205F}' || c == '\U{3000}'
  }

  function Trim(s: string): string {
    if s != "" && Space(s[|s| - 1]) then Trim(s[..|s| - 1])
    else if s != "" && Space(s[0]) then Trim(s[1..])
    else s
  }

  predicate Blank(s: string) { forall i :: 0 <= i < |s| ==> Space(s[i]) }

  /** Trimming takes white space, and only that, from both ends. */
  lemma {:induction false} TrimSplits(s: string) returns (a: string, b: string)
    ensures s == a + Trim(s) + b && Blank(a) && Blank(b)
  {
    var n := |s| - 1;
    if s != "" && Space(s[n]) {
      var c: string;
      a, c := TrimSplits(s[..n]);
      b := c + [s[n]];
      assert s == s[..n] + [s[n]];
    } else if s != "" && Space(s[0]) {
      var c: string;
      c, b := TrimSplits(s[1..]);
      a := [s[0]] + c;
      assert s == [s[0]] + s[1..];
    } else {
      a, b := "", "";
    }
  }

  lemma {:induction false} TrimEnds(s: string)
    ensures var t := Trim(s); t == "" || (!Space(t[0]) && !Space(t[|t| - 1]))
  {
    if s != "" && Space(s[|s| - 1]) {
      TrimEnds(s[..|s| - 1]);
    } else if s != "" && Space(s[0]) {
      TrimEnds(s[1..]);
    }
  }

  function OldPolicy(files: Files): string { if Policy in files then Trim(files[Policy]) else "" }

  /** The authorization a commit writes is the one the next transaction finds. */
  lemma PolicyReadsBack(files: Files, j: Journal)
    requires j.policy != "" && !Space(j.policy[0]) && !Space(j.policy[|j.policy| - 1])
    ensures OldPolicy(Finished(files, j)) == j.policy
  {
    FinishedPath(files, j, Policy);
    assert Line(j.policy)[..|j.policy|] == j.policy && Line(j.policy)[|j.policy|] == '\n';
    assert Trim(j.policy) == j.policy;
    assert Trim(Line(j.policy)) == Trim(j.policy);
  }
}
