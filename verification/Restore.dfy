/** Restoring a backup: every store is copied into a new generation, and one atomic replace switches CURRENT.
    A run may be cut off, torn in the middle of a copy, or fail and clean up, at any point. */
module Restore {

  type GenerationId = nat
  type Content = nat

  datatype Option<+T> = None | Some(value: T)

  /** A name in a manifest: the directory part, zero for a plain name, and the last component. */
  datatype FileName = FileName(folder: nat, base: nat)

  /** The copy of a file is named by its last component alone. */
  function Flat(name: FileName): FileName { FileName(0, name.base) }

  datatype Entry = Entry(name: FileName, sha: Content)

  datatype Document = Document(generation: GenerationId, databases: seq<Entry>)

  /** A manifest file; its seal is the document that its hash was taken of. */
  datatype ManifestFile = NoManifest | GarbledManifest | Manifest(document: Document, seal: Document)

  datatype Dir = Dir(files: map<FileName, Content>, manifest: ManifestFile)

  /** The destination directory: installed generations, temporary copies, CURRENT and its replacement link. */
  datatype Disk = Disk(
    generations: map<GenerationId, Dir>,
    temporaries: map<GenerationId, Dir>,
    current: Option<GenerationId>,
    link: Option<GenerationId>)

  /** The backup to restore; `intact` is the database integrity check. */
  datatype Backup = Backup(dir: Dir, intact: Content -> bool)

  predicate NamesUnique(entries: seq<Entry>) {
    forall i, j :: 0 <= i < j < |entries| ==> entries[i].name != entries[j].name
  }

  predicate HasFile(dir: Dir, entry: Entry) { entry.name in dir.files && dir.files[entry.name] == entry.sha }

  predicate HasFirst(dir: Dir, entries: seq<Entry>, n: nat)
    requires n <= |entries|
  {
    forall i :: 0 <= i < n ==> HasFile(dir, entries[i])
  }

  /** What manifest validation accepts. */
  predicate Validates(dir: Dir, intact: Content -> bool) {
    && dir.manifest.Manifest?
    && dir.manifest.seal == dir.manifest.document
    && NamesUnique(dir.manifest.document.databases)
    && HasFirst(dir, dir.manifest.document.databases, |dir.manifest.document.databases|)
    && forall i :: 0 <= i < |dir.manifest.document.databases| ==> intact(dir.manifest.document.databases[i].sha)
  }

  /** Every file of the backup's manifest, and the manifest itself. */
  predicate Complete(dir: Dir, b: Backup) {
    b.dir.manifest.Manifest? && dir.manifest == b.dir.manifest
    && HasFirst(dir, b.dir.manifest.document.databases, |b.dir.manifest.document.databases|)
  }

  /** No later entry among the first m is copied over this one. */
  predicate LastOf(entries: seq<Entry>, i: nat, m: nat)
    requires i < |entries| && m <= |entries|
  {
    forall j :: i < j < m ==> entries[j].name.base != entries[i].name.base
  }

  /** Of the first n entries, those that none of the first m replaces are there under their last component. */
  predicate HoldsLast(dir: Dir, entries: seq<Entry>, n: nat, m: nat)
    requires n <= m <= |entries|
  {
    forall i :: 0 <= i < n && LastOf(entries, i, m) ==> Flat(entries[i].name) in dir.files && dir.files[Flat(entries[i].name)] == entries[i].sha
  }

  predicate AllFlat(dir: Dir) { forall name :: name in dir.files ==> name.folder == 0 }

  /** What copying a backup leaves behind: its manifest, and under each last component the file copied there last. */
  predicate Copied(dir: Dir, b: Backup) {
    && b.dir.manifest.Manifest? && dir.manifest == b.dir.manifest && AllFlat(dir)
    && HoldsLast(dir, b.dir.manifest.document.databases, |b.dir.manifest.document.databases|, |b.dir.manifest.document.databases|)
  }

  predicate PlainNames(entries: seq<Entry>) { forall i :: 0 <= i < |entries| ==> entries[i].name.folder == 0 }

  datatype Pc =
    | Checking | Cleaning | Making | Copying(index: nat) | CopyingManifest | Renaming | Unlinking | Linking | Switching
    | RollingBack | Done | Refused

  datatype Attempt = Attempt(disk: Disk, pc: Pc, overwrite: bool)

  /** The next action goes through, is torn, removes one file of a tree, or raises; or the process dies and the
      restore is started again. */
  datatype Action = Go | Tear(content: Content) | RemoveOne(name: FileName) | Raise | Restart(overwrite: bool)

  function Entries(b: Backup): seq<Entry> { if b.dir.manifest.Manifest? then b.dir.manifest.document.databases else [] }

  function Generation(b: Backup): GenerationId { if b.dir.manifest.Manifest? then b.dir.manifest.document.generation else 0 }

  /** CURRENT resolves strictly. */
  predicate Resolves(d: Disk) { d.current.Some? ==> d.current.value in d.generations }

  function Checked(b: Backup, a: Attempt): Pc {
    var g := Generation(b);
    if !Validates(b.dir, b.intact) || !Resolves(a.disk) || (a.disk.current.Some? && !a.overwrite) then Refused
    else if g in a.disk.generations then
      if !Validates(a.disk.generations[g], b.intact) || a.disk.generations[g].manifest.seal != b.dir.manifest.seal then Refused
      else if a.disk.current == Some(g) then Done
      else Unlinking
    else if g in a.disk.temporaries then Cleaning
    else Making
  }

  function Temporary(b: Backup, d: Disk): Dir { if Generation(b) in d.temporaries then d.temporaries[Generation(b)] else Dir(map[], NoManifest) }

  function WithTemporary(b: Backup, d: Disk, dir: Dir): Disk { d.(temporaries := d.temporaries[Generation(b) := dir]) }

  function WithoutTemporary(b: Backup, d: Disk): Disk { d.(temporaries := d.temporaries - {Generation(b)}) }

  function CopiedTo(b: Backup, d: Disk, index: nat, content: Content): Disk
    requires index < |Entries(b)|
  {
    var dir := Temporary(b, d);
    WithTemporary(b, d, dir.(files := dir.files[Flat(Entries(b)[index].name) := content]))
  }

  function Shorn(b: Backup, d: Disk, name: FileName): Disk {
    var dir := Temporary(b, d);
    WithTemporary(b, d, dir.(files := dir.files - {name}))
  }

  function Step(b: Backup, a: Attempt, action: Action): Attempt {
    var d := a.disk;
    if action.Restart? then Attempt(d, Checking, action.overwrite)
    else match a.pc
      case Checking => a.(pc := Checked(b, a))
      case Cleaning =>
        if action.RemoveOne? then a.(disk := Shorn(b, d, action.name))
        else if action.Raise? then a.(pc := Refused)
        else a.(disk := WithoutTemporary(b, d), pc := Making)
      case Making =>
        if action.Raise? then a.(pc := Refused) else a.(disk := WithTemporary(b, d, Dir(map[], NoManifest)), pc := Copying(0))
      case Copying(i) =>
        if i >= |Entries(b)| then a.(pc := CopyingManifest)
        else if action.Tear? then a.(disk := CopiedTo(b, d, i, action.content))
        else if action.Raise? then a.(pc := RollingBack)
        else a.(disk := CopiedTo(b, d, i, Entries(b)[i].sha), pc := Copying(i + 1))
      case CopyingManifest =>
        if action.Tear? then a.(disk := WithTemporary(b, d, Temporary(b, d).(manifest := GarbledManifest)))
        else if action.Raise? then a.(pc := RollingBack)
        else a.(disk := WithTemporary(b, d, Temporary(b, d).(manifest := b.dir.manifest)), pc := Renaming)
      case Renaming =>
        if action.Raise? then a.(pc := RollingBack)
        else
          var installed := d.(generations := d.generations[Generation(b) := Temporary(b, d)]);
          a.(disk := WithoutTemporary(b, installed), pc := Unlinking)
      case Unlinking => if action.Raise? then a.(pc := Refused) else a.(disk := d.(link := None), pc := Linking)
      case Linking => if action.Raise? then a.(pc := Refused) else a.(disk := d.(link := Some(Generation(b))), pc := Switching)
      case Switching => if action.Raise? then a.(pc := Refused) else a.(disk := d.(current := d.link, link := None), pc := Done)
      case RollingBack =>
        if action.RemoveOne? then a.(disk := Shorn(b, d, action.name))
        else a.(disk := WithoutTemporary(b, d), pc := Refused)
      case Done => a
      case Refused => a
  }

  function Run(b: Backup, a: Attempt, actions: seq<Action>): Attempt {
    if actions == [] then a else Step(b, Run(b, a, actions[..|actions| - 1]), actions[|actions| - 1])
  }

  /* ---------- Crash safety ---------- */

  /** The generation holds every file of the manifest, or what copying the backup leaves behind. */
  predicate Held(dir: Dir, b: Backup) { Complete(dir, b) || Copied(dir, b) }

  /** Nothing installed is lost; CURRENT is as before, or names the requested generation, copied to its end. */
  predicate Safe(before: Disk, b: Backup, d: Disk) {
    var g := Generation(b);
    && (forall h :: h in before.generations ==> h in d.generations && d.generations[h] == before.generations[h])
    && (forall h :: h in d.generations ==> h in before.generations || (h == g && Copied(d.generations[h], b)))
    && (d.current == before.current || (d.current == Some(g) && g in d.generations && Held(d.generations[g], b)))
  }

  /** The entry being copied may be torn, and with it an earlier one of the same last component. */
  function Next(b: Backup, i: nat): nat
    requires i <= |Entries(b)|
  {
    if i < |Entries(b)| then i + 1 else i
  }

  /** What each point of the procedure may rely on. */
  predicate Prepared(b: Backup, a: Attempt) {
    var g := Generation(b);
    var dir := Temporary(b, a.disk);
    match a.pc
    case Cleaning => Validates(b.dir, b.intact) && g !in a.disk.generations
    case Making => Validates(b.dir, b.intact) && g !in a.disk.generations
    case Copying(i) =>
      Validates(b.dir, b.intact) && g !in a.disk.generations && i <= |Entries(b)| && AllFlat(dir) && HoldsLast(dir, Entries(b), i, Next(b, i))
    case CopyingManifest =>
      Validates(b.dir, b.intact) && g !in a.disk.generations && AllFlat(dir) && HoldsLast(dir, Entries(b), |Entries(b)|, |Entries(b)|)
    case Renaming => Validates(b.dir, b.intact) && g !in a.disk.generations && Copied(dir, b)
    case Unlinking => g in a.disk.generations && Held(a.disk.generations[g], b)
    case Linking => g in a.disk.generations && Held(a.disk.generations[g], b)
    case Switching => g in a.disk.generations && Held(a.disk.generations[g], b) && a.disk.link == Some(g)
    case Done => a.disk.current == Some(g)
    case _ => true
  }

  /** A generation that validates and carries the backup's seal holds the backup. */
  lemma ValidatedIsComplete(b: Backup, dir: Dir)
    requires Validates(b.dir, b.intact) && Validates(dir, b.intact) && dir.manifest.seal == b.dir.manifest.seal
    ensures Complete(dir, b)
  {
  }

  lemma CompleteValidates(b: Backup, dir: Dir)
    requires Validates(b.dir, b.intact) && Complete(dir, b)
    ensures Validates(dir, b.intact) && dir.manifest.seal == b.dir.manifest.seal
  {
  }

  lemma CheckedIsPrepared(before: Disk, b: Backup, a: Attempt)
    requires Safe(before, b, a.disk)
    ensures Prepared(b, a.(pc := Checked(b, a)))
  {
    var g := Generation(b);
    if Validates(b.dir, b.intact) && g in a.disk.generations && Validates(a.disk.generations[g], b.intact)
       && a.disk.generations[g].manifest.seal == b.dir.manifest.seal {
      ValidatedIsComplete(b, a.disk.generations[g]);
    }
    hide Validates, Complete;
  }

  /** Copying one file disturbs only an earlier one of the same last component. */
  lemma CopyKeepsFirst(b: Backup, d: Disk, index: nat, content: Content)
    requires index < |Entries(b)| && AllFlat(Temporary(b, d)) && HoldsLast(Temporary(b, d), Entries(b), index, index + 1)
    ensures var dir := Temporary(b, CopiedTo(b, d, index, content));
            && AllFlat(dir) && HoldsLast(dir, Entries(b), index, index + 1)
            && (content == Entries(b)[index].sha ==> HoldsLast(dir, Entries(b), index + 1, Next(b, index + 1)))
  {
    var entries, dir := Entries(b), Temporary(b, CopiedTo(b, d, index, content));
    if content == entries[index].sha {
      forall i | 0 <= i < index + 1 && LastOf(entries, i, Next(b, index + 1))
        ensures Flat(entries[i].name) in dir.files && dir.files[Flat(entries[i].name)] == entries[i].sha
      {
        if i < index { assert LastOf(entries, i, index + 1); }
      }
    }
  }

  /** Only the temporary copy differs. */
  lemma TemporaryIsSafe(before: Disk, b: Backup, d: Disk, temporaries: map<GenerationId, Dir>)
    requires Safe(before, b, d)
    ensures Safe(before, b, d.(temporaries := temporaries))
  {
    hide Complete;
  }

  lemma CopyStepIsSafe(before: Disk, b: Backup, a: Attempt, action: Action)
    requires Safe(before, b, a.disk) && Prepared(b, a) && !action.Restart?
    requires a.pc.Cleaning? || a.pc.Making? || a.pc.Copying? || a.pc.CopyingManifest? || a.pc.RollingBack?
    ensures var after := Step(b, a, action); Safe(before, b, after.disk) && Prepared(b, after)
  {
    hide Checked, Safe, Complete, LastOf, HasFirst, NamesUnique;
    TemporaryIsSafe(before, b, a.disk, Step(b, a, action).disk.temporaries);
    if a.pc.Copying? && a.pc.index < |Entries(b)| {
      CopyKeepsFirst(b, a.disk, a.pc.index, if action.Tear? then action.content else Entries(b)[a.pc.index].sha);
    }
  }

  lemma InstallStepIsSafe(before: Disk, b: Backup, a: Attempt, action: Action)
    requires Safe(before, b, a.disk) && Prepared(b, a) && !action.Restart?
    requires a.pc.Renaming? || a.pc.Unlinking? || a.pc.Linking? || a.pc.Switching?
    ensures var after := Step(b, a, action); Safe(before, b, after.disk) && Prepared(b, after)
  {
    hide Checked, Complete, Validates, HasFirst;
  }

  lemma StepIsSafe(before: Disk, b: Backup, a: Attempt, action: Action)
    requires Safe(before, b, a.disk) && Prepared(b, a)
    ensures var after := Step(b, a, action); Safe(before, b, after.disk) && Prepared(b, after)
  {
    hide Checked, Safe, Complete, Validates, HasFirst, CopiedTo, Shorn, WithTemporary, WithoutTemporary, Temporary;
    if !action.Restart? {
      match a.pc
      case Checking => CheckedIsPrepared(before, b, a);
      case Done =>
      case Refused =>
      case Renaming => InstallStepIsSafe(before, b, a, action);
      case Unlinking => InstallStepIsSafe(before, b, a, action);
      case Linking => InstallStepIsSafe(before, b, a, action);
      case Switching => InstallStepIsSafe(before, b, a, action);
      case _ => CopyStepIsSafe(before, b, a, action);
    }
  }

  lemma {:induction false} RunIsSafe(before: Disk, b: Backup, overwrite: bool, actions: seq<Action>)
    ensures var a := Run(b, Attempt(before, Checking, overwrite), actions); Safe(before, b, a.disk) && Prepared(b, a)
  {
    hide Safe, Prepared, Step;
    if actions == [] {
      StartIsSafe(before, b, overwrite);
    } else {
      RunIsSafe(before, b, overwrite, actions[..|actions| - 1]);
      StepIsSafe(before, b, Run(b, Attempt(before, Checking, overwrite), actions[..|actions| - 1]), actions[|actions| - 1]);
    }
  }

  lemma StartIsSafe(before: Disk, b: Backup, overwrite: bool)
    ensures Safe(before, b, before) && Prepared(b, Attempt(before, Checking, overwrite))
  {
  }

  /** Crash atomicity: wherever a restore stops, whatever was torn, raised or restarted on the way, CURRENT resolves
      and is unchanged, with its generation untouched, or names the requested generation, copied to its end. */
  lemma CurrentIsNeverTorn(before: Disk, b: Backup, overwrite: bool, actions: seq<Action>)
    requires Resolves(before)
    ensures var d := Run(b, Attempt(before, Checking, overwrite), actions).disk;
            && Resolves(d)
            && (d.current != before.current ==> d.current == Some(Generation(b)) && Held(d.generations[Generation(b)], b))
            && (d.current == before.current && d.current.Some? ==>
                  d.generations[d.current.value] == before.generations[d.current.value])
  {
    hide Run, Held, Copied;
    RunIsSafe(before, b, overwrite, actions);
  }

  /** CURRENT is as it was, or names a generation with every file of the validated manifest. */
  predicate NeverPartial(before: Disk, b: Backup, d: Disk) {
    && Resolves(d)
    && (d.current != before.current ==> d.current == Some(Generation(b)) && Complete(d.generations[Generation(b)], b))
    && (d.current == before.current && d.current.Some? ==>
          d.current.value in before.generations && d.generations[d.current.value] == before.generations[d.current.value])
  }

  /** Every name of the manifest is plain, or nothing is ever copied: the backup does not validate, or a generation
      of the requested id is there already. */
  predicate Whole(before: Disk, b: Backup) {
    PlainNames(Entries(b)) || !Validates(b.dir, b.intact) || Generation(b) in before.generations
  }

  /** Copies of plain names are the files that the manifest names. */
  lemma PlainCopyIsComplete(b: Backup, dir: Dir)
    requires Copied(dir, b) && Validates(b.dir, b.intact) && PlainNames(Entries(b))
    ensures Complete(dir, b)
  {
    var entries := Entries(b);
    forall i | 0 <= i < |entries|
      ensures HasFile(dir, entries[i])
    {
      assert Flat(entries[i].name) == entries[i].name;
      assert LastOf(entries, i, |entries|);
    }
  }

  /** The copy of a name with a directory part is not where the manifest says. */
  lemma NestedCopyIsPartial(b: Backup, dir: Dir)
    requires Copied(dir, b) && !PlainNames(Entries(b))
    ensures !Complete(dir, b)
  {
    var entries := Entries(b);
    var i :| 0 <= i < |entries| && entries[i].name.folder != 0;
    assert !HasFile(dir, entries[i]);
  }

  /* ---------- Running again ---------- */

  function Remaining(b: Backup, pc: Pc): nat {
    var n := |Entries(b)|;
    match pc
    case Checking => n + 10
    case Cleaning => n + 9
    case Making => n + 8
    case Copying(i) => 7 + if i < n then n - i else 0
    case CopyingManifest => 6
    case Renaming => 5
    case Unlinking => 4
    case Linking => 3
    case Switching => 2
    case RollingBack => 1
    case Done => 0
    case Refused => 0
  }

  /** The attempt, left alone until it ends. */
  function Finished(b: Backup, a: Attempt): Attempt
    decreases Remaining(b, a.pc)
  {
    if a.pc == Done || a.pc == Refused then a else Finished(b, Step(b, a, Go))
  }

  /** Nothing stands in the way: the check passed, or will. */
  predicate Clear(before: Disk, b: Backup, a: Attempt) {
    && Validates(b.dir, b.intact) && a.overwrite && a.pc != Refused && a.pc != RollingBack
    && (a.pc == Checking ==>
          Resolves(a.disk) && (Generation(b) in a.disk.generations ==> Complete(a.disk.generations[Generation(b)], b)))
  }

  lemma {:induction false} ClearFinishes(before: Disk, b: Backup, a: Attempt)
    requires Safe(before, b, a.disk) && Prepared(b, a) && Clear(before, b, a)
    ensures Finished(b, a).pc == Done && Finished(b, a).disk.current == Some(Generation(b))
    ensures Safe(before, b, Finished(b, a).disk)
    decreases Remaining(b, a.pc)
  {
    if a.pc != Done {
      StepIsSafe(before, b, a, Go);
      StepIsClear(before, b, a);
      hide Safe, Prepared, Clear, Step;
      ClearFinishes(before, b, Step(b, a, Go));
    }
  }

  lemma StepIsClear(before: Disk, b: Backup, a: Attempt)
    requires Prepared(b, a) && Clear(before, b, a) && a.pc != Done
    ensures Clear(before, b, Step(b, a, Go)) && Remaining(b, Step(b, a, Go).pc) < Remaining(b, a.pc)
  {
    if a.pc == Checking && Generation(b) in a.disk.generations {
      CompleteValidates(b, a.disk.generations[Generation(b)]);
    }
    hide Validates, Complete;
  }

  /** The backup is valid, CURRENT resolves, and nothing else is installed under the requested id. */
  predicate Restorable(before: Disk, b: Backup) {
    && Validates(b.dir, b.intact) && Resolves(before)
    && (Generation(b) in before.generations ==> Complete(before.generations[Generation(b)], b))
  }

  predicate Restored(b: Backup, a: Attempt) {
    && a.pc == Done && a.disk.current == Some(Generation(b))
    && Generation(b) in a.disk.generations && Complete(a.disk.generations[Generation(b)], b)
  }

  /** Whatever a restore left behind under the requested id, it is complete if the names are plain or it was there before. */
  lemma LeftIsComplete(before: Disk, b: Backup, d: Disk)
    requires Safe(before, b, d) && Restorable(before, b) && Whole(before, b) && Generation(b) in d.generations
    ensures Complete(d.generations[Generation(b)], b)
  {
    var g := Generation(b);
    if g !in before.generations { PlainCopyIsComplete(b, d.generations[g]); }
    hide Validates, Complete, Copied;
  }

  lemma RerunCompletes(before: Disk, b: Backup, overwrite: bool, actions: seq<Action>)
    requires Restorable(before, b) && Whole(before, b)
    ensures var d := Run(b, Attempt(before, Checking, overwrite), actions).disk; Restored(b, Finished(b, Attempt(d, Checking, true)))
  {
    hide Run, Finished, Validates, Complete, Copied, Held, Whole;
    RunIsSafe(before, b, overwrite, actions);
    CurrentIsNeverTorn(before, b, overwrite, actions);
    var d := Run(b, Attempt(before, Checking, overwrite), actions).disk;
    if Generation(b) in d.generations { LeftIsComplete(before, b, d); }
    ClearFinishes(before, b, Attempt(d, Checking, true));
    var again := Finished(b, Attempt(d, Checking, true));
    assert Safe(before, b, again.disk);
    if again.disk.current == before.current { assert Generation(b) in before.generations; }
    LeftIsComplete(before, b, again.disk);
  }

  lemma CheckRefuses(before: Disk, b: Backup, overwrite: bool)
    requires !Restorable(before, b)
    ensures Checked(b, Attempt(before, Checking, overwrite)) == Refused
  {
    var g := Generation(b);
    if Validates(b.dir, b.intact) && g in before.generations
       && Validates(before.generations[g], b.intact) && before.generations[g].manifest.seal == b.dir.manifest.seal {
      ValidatedIsComplete(b, before.generations[g]);
    }
    hide Validates, Complete;
  }

  /** However often it is started again, such a restore never gets past its check and writes nothing. */
  lemma {:induction false} RunRefuses(before: Disk, b: Backup, overwrite: bool, actions: seq<Action>)
    requires !Restorable(before, b)
    ensures var a := Run(b, Attempt(before, Checking, overwrite), actions); a.disk == before && (a.pc == Checking || a.pc == Refused)
  {
    if actions != [] {
      hide Checked, Restorable;
      var rest := actions[..|actions| - 1];
      RunRefuses(before, b, overwrite, rest);
      CheckRefuses(before, b, Run(b, Attempt(before, Checking, overwrite), rest).overwrite);
    }
  }

  lemma {:induction false} RunFirst(b: Backup, a: Attempt, action: Action, rest: seq<Action>)
    ensures Run(b, a, [action] + rest) == Run(b, Step(b, a, action), rest)
    decreases |rest|
  {
    hide Step;
    var all := [action] + rest;
    if rest == [] {
      assert all[..0] == [] && all[0] == action;
      assert Run(b, a, []) == a;
    } else {
      assert all[..|all| - 1] == [action] + rest[..|rest| - 1];
      RunFirst(b, a, action, rest[..|rest| - 1]);
    }
  }

  lemma {:induction false} RunJoin(b: Backup, a: Attempt, first: seq<Action>, rest: seq<Action>)
    ensures Run(b, a, first + rest) == Run(b, Run(b, a, first), rest)
    decreases |rest|
  {
    hide Step;
    var all := first + rest;
    if rest == [] {
      assert all == first;
    } else {
      assert all[..|all| - 1] == first + rest[..|rest| - 1];
      RunJoin(b, a, first, rest[..|rest| - 1]);
    }
  }

  /** An attempt that is left alone is a run of its own steps. */
  lemma {:induction false} FinishedIsRun(b: Backup, a: Attempt) returns (actions: seq<Action>)
    ensures Run(b, a, actions) == Finished(b, a)
    decreases Remaining(b, a.pc)
  {
    if a.pc == Done || a.pc == Refused {
      actions := [];
    } else {
      var rest := FinishedIsRun(b, Step(b, a, Go));
      RunFirst(b, a, Go, rest);
      actions := [Go] + rest;
    }
  }

  /** Running again is one run with what came before. */
  lemma AgainIsRun(before: Disk, b: Backup, overwrite: bool, actions: seq<Action>) returns (all: seq<Action>)
    ensures Run(b, Attempt(before, Checking, overwrite), all)
            == Finished(b, Attempt(Run(b, Attempt(before, Checking, overwrite), actions).disk, Checking, true))
  {
    hide Finished, Checked;
    var start := Attempt(before, Checking, overwrite);
    var restart := [Restart(true)];
    RunJoin(b, start, actions, restart);
    assert restart[..0] == [] && Run(b, Run(b, start, actions), []) == Run(b, start, actions);
    var gos := FinishedIsRun(b, Attempt(Run(b, start, actions).disk, Checking, true));
    RunJoin(b, start, actions + restart, gos);
    all := actions + restart + gos;
  }

  /** A restore of nested names ends with CURRENT at a generation that lacks files of its manifest. */
  lemma NestedEndsPartial(before: Disk, b: Backup)
    requires Resolves(before) && !Whole(before, b)
    ensures !NeverPartial(before, b, Finished(b, Attempt(before, Checking, true)).disk)
  {
    hide Finished, Validates, Complete, Copied;
    var start := Attempt(before, Checking, true);
    StartIsSafe(before, b, true);
    ClearFinishes(before, b, start);
    NestedCopyIsPartial(b, Finished(b, start).disk.generations[Generation(b)]);
  }

  /** The backup of one database under a nested name. */
  function NestedBackup(): Backup {
    var document := Document(1, [Entry(FileName(1, 2), 3)]);
    Backup(Dir(map[FileName(1, 2) := 3], Manifest(document, document)), content => true)
  }

  lemma NestedBackupEndsPartial()
    ensures var before := Disk(map[], map[], None, None);
            Validates(NestedBackup().dir, NestedBackup().intact)
            && !NeverPartial(before, NestedBackup(), Finished(NestedBackup(), Attempt(before, Checking, true)).disk)
  {
    hide Finished, NeverPartial;
    assert NestedBackup().dir.manifest.document.databases[0] == Entry(FileName(1, 2), 3);
    NestedEndsPartial(Disk(map[], map[], None, None), NestedBackup());
  }

  /** CURRENT, exactly. However restores of this backup are cut off, torn, fail and are restarted, CURRENT never names
      a partial generation if and only if every name of the manifest is plain, or nothing is ever copied. */
  lemma CurrentIsNeverPartial(before: Disk, b: Backup)
    requires Resolves(before)
    ensures (forall overwrite, actions :: NeverPartial(before, b, Run(b, Attempt(before, Checking, overwrite), actions).disk)) <==> Whole(before, b)
  {
    hide Run, Finished, Whole, NeverPartial;
    if Whole(before, b) {
      forall overwrite, actions
        ensures NeverPartial(before, b, Run(b, Attempt(before, Checking, overwrite), actions).disk)
      {
        WholeIsNeverPartial(before, b, overwrite, actions);
      }
    } else {
      NestedEndsPartial(before, b);
      var actions := FinishedIsRun(b, Attempt(before, Checking, true));
      assert !NeverPartial(before, b, Run(b, Attempt(before, Checking, true), actions).disk);
    }
  }

  lemma WholeIsNeverPartial(before: Disk, b: Backup, overwrite: bool, actions: seq<Action>)
    requires Resolves(before) && Whole(before, b)
    ensures NeverPartial(before, b, Run(b, Attempt(before, Checking, overwrite), actions).disk)
  {
    hide Run, Validates, Complete, Copied, Held, Whole;
    if Restorable(before, b) {
      RunIsSafe(before, b, overwrite, actions);
      CurrentIsNeverTorn(before, b, overwrite, actions);
      var d := Run(b, Attempt(before, Checking, overwrite), actions).disk;
      if Generation(b) in d.generations { LeftIsComplete(before, b, d); }
    } else {
      RunRefuses(before, b, overwrite, actions);
    }
  }

  /** A sound backup: its sealed manifest names every database once, each is there with the content it says, and each
      passes the integrity check. */
  predicate Sound(b: Backup) {
    && b.dir.manifest.Manifest? && b.dir.manifest.seal == b.dir.manifest.document
    && var entries := b.dir.manifest.document.databases;
    && (forall i, j :: 0 <= i < |entries| && 0 <= j < |entries| && entries[i].name == entries[j].name ==> i == j)
    && (forall i :: 0 <= i < |entries| ==>
          entries[i].name in b.dir.files && b.dir.files[entries[i].name] == entries[i].sha && b.intact(b.dir.files[entries[i].name]))
  }

  lemma SoundExactly(b: Backup)
    ensures Validates(b.dir, b.intact) <==> Sound(b)
  {
    if Sound(b) {
      var entries := b.dir.manifest.document.databases;
      assert forall i :: 0 <= i < |entries| ==> HasFile(b.dir, entries[i]);
    }
  }

  lemma RestorableIsSound(before: Disk, b: Backup)
    requires Restorable(before, b)
    ensures Sound(b) && (before.current.Some? ==> before.current.value in before.generations)
  {
    SoundExactly(b);
    hide Validates, Sound, Complete;
  }

  /** The attempt, or one of its restarts, was permitted to overwrite. */
  predicate MayOverwrite(overwrite: bool, actions: seq<Action>) { overwrite || exists i :: 0 <= i < |actions| && actions[i] == Restart(true) }

  /** Whatever happens on the way, a restore writes nothing unless the backup is sound and CURRENT resolves; and without
      permission to overwrite it writes nothing where a CURRENT is. */
  lemma OnlySoundIsInstalled(before: Disk, b: Backup, overwrite: bool, actions: seq<Action>)
    requires Run(b, Attempt(before, Checking, overwrite), actions).disk != before
    ensures Sound(b) && (before.current.Some? ==> before.current.value in before.generations)
    ensures before.current.Some? ==> MayOverwrite(overwrite, actions)
  {
    hide *;
    if !Restorable(before, b) { RunRefuses(before, b, overwrite, actions); }
    RestorableIsSound(before, b);
    if before.current.Some? && !MayOverwrite(overwrite, actions) { RunKeeps(before, b, overwrite, actions); }
  }

  lemma {:induction false} RunKeeps(before: Disk, b: Backup, overwrite: bool, actions: seq<Action>)
    requires before.current.Some? && !MayOverwrite(overwrite, actions)
    ensures var a := Run(b, Attempt(before, Checking, overwrite), actions);
            a.disk == before && !a.overwrite && (a.pc == Checking || a.pc == Refused)
  {
    if actions != [] {
      hide Validates;
      RunKeeps(before, b, overwrite, actions[..|actions| - 1]);
    }
  }

  /** Where CURRENT names the requested generation already, a restore never writes anything, whatever happens on the way. */
  lemma {:induction false} InstalledStays(before: Disk, b: Backup, overwrite: bool, actions: seq<Action>)
    requires before.current == Some(Generation(b)) && Generation(b) in before.generations
    ensures var a := Run(b, Attempt(before, Checking, overwrite), actions);
            a.disk == before && (a.pc == Checking || a.pc == Refused || a.pc == Done)
  {
    if actions != [] {
      hide Validates;
      InstalledStays(before, b, overwrite, actions[..|actions| - 1]);
    }
  }

  /** Restarting, exactly. After any interrupted, torn and restarted attempts, running again with overwrite ends with
      CURRENT at the complete requested generation if and only if the backup could be restored in the first place and
      what is copied is what the manifest names; a backup that could not be restored is refused, and the destination
      is as it was before the first attempt. */
  lemma RestoredExactly(before: Disk, b: Backup, overwrite: bool, actions: seq<Action>)
    ensures var d := Run(b, Attempt(before, Checking, overwrite), actions).disk;
            var again := Finished(b, Attempt(d, Checking, true));
            && (Restored(b, again) <==> Restorable(before, b) && Whole(before, b))
            && (!Restorable(before, b) ==> again == Attempt(before, Refused, true))
  {
    hide Run, Finished, Restored, Restorable, Whole;
    if !Restorable(before, b) {
      RunRefuses(before, b, overwrite, actions);
      CheckRefuses(before, b, true);
      RefusedIsNotRestored(before, b);
    } else if Whole(before, b) {
      RerunCompletes(before, b, overwrite, actions);
    } else {
      var all := AgainIsRun(before, b, overwrite, actions);
      RunIsSafe(before, b, overwrite, all);
      NestedIsNotRestored(before, b, Run(b, Attempt(before, Checking, overwrite), all));
    }
  }

  lemma NestedIsNotRestored(before: Disk, b: Backup, a: Attempt)
    requires Safe(before, b, a.disk) && !Whole(before, b)
    ensures !Restored(b, a)
  {
    hide Validates, Complete, Copied, Held;
    var g := Generation(b);
    if g in a.disk.generations { NestedCopyIsPartial(b, a.disk.generations[g]); }
  }

  lemma RefusedIsNotRestored(before: Disk, b: Backup)
    ensures !Restored(b, Attempt(before, Refused, true))
    ensures Checked(b, Attempt(before, Checking, true)) == Refused
            ==> Finished(b, Attempt(before, Checking, true)) == Attempt(before, Refused, true)
  {
    hide Checked;
  }

  /* ---------- The procedure ---------- */

  /** The destination directory as the procedure changes it; `history` records every durable state. */
  class Destination {
    var disk: Disk
    ghost var history: seq<Disk>

    constructor (disk: Disk)
      ensures this.disk == disk && history == [disk]
    {
      this.disk := disk;
      history := [disk];
    }

    ghost predicate AllSafe(before: Disk, b: Backup)
      reads this
    {
      && history != [] && history[|history| - 1] == disk
      && forall i :: 0 <= i < |history| ==> Safe(before, b, history[i])
    }

    /** Writes one durable state. */
    method Write(next: Disk)
      modifies this
      ensures disk == next && history == old(history) + [next]
    {
      disk := next;
      history := history + [next];
    }

    /** Copies one database; the copy may be seen half-written. */
    method CopyFile(ghost before: Disk, b: Backup, index: nat)
      requires AllSafe(before, b) && index < |Entries(b)| && Prepared(b, Attempt(disk, Copying(index), true))
      modifies this
      ensures AllSafe(before, b) && disk == CopiedTo(b, old(disk), index, Entries(b)[index].sha)
      ensures Prepared(b, Attempt(disk, Copying(index + 1), true))
    {
      hide Safe, Prepared, CopiedTo;
      var torn: Content := *;
      ghost var start := Attempt(disk, Copying(index), true);
      StepIsSafe(before, b, start, Tear(torn));
      TornCopy(b, disk, index, torn, Entries(b)[index].sha);
      Write(CopiedTo(b, disk, index, torn));
      StepIsSafe(before, b, Step(b, start, Tear(torn)), Go);
      Write(CopiedTo(b, disk, index, Entries(b)[index].sha));
    }

    /** The whole procedure without interruptions of its own; every state it leaves behind is safe, and where it
        ends is where the step-by-step procedure ends. */
    method RestoreDatabases(b: Backup, overwrite: bool) returns (restored: bool)
      requires history == [disk]
      modifies this
      ensures AllSafe(old(disk), b)
      ensures Attempt(disk, if restored then Done else Refused, overwrite) == Finished(b, Attempt(old(disk), Checking, overwrite))
    {
      hide Safe, Prepared, Finished, Checked, CopiedTo, WithTemporary, WithoutTemporary, Temporary, Validates;
      ghost var before := disk;
      StartIsSafe(before, b, overwrite);
      var pc := Checked(b, Attempt(disk, Checking, overwrite));
      StepIsSafe(before, b, Attempt(disk, Checking, overwrite), Go);
      Ended(b, Attempt(disk, Checking, overwrite));
      Ended(b, Attempt(disk, pc, overwrite));
      if pc == Refused { return false; }
      if pc == Done { return true; }
      if pc == Cleaning {
        StepIsSafe(before, b, Attempt(disk, Cleaning, overwrite), Go);
        Write(WithoutTemporary(b, disk));
        pc := Making;
        Ended(b, Attempt(disk, Making, overwrite));
      }
      CheckedPcs(b, Attempt(before, Checking, overwrite));
      if pc == Making {
        StepIsSafe(before, b, Attempt(disk, Making, overwrite), Go);
        Write(WithTemporary(b, disk, Dir(map[], NoManifest)));
        Ended(b, Attempt(disk, Copying(0), overwrite));
        for i := 0 to |Entries(b)|
          invariant AllSafe(before, b) && Prepared(b, Attempt(disk, Copying(i), overwrite))
          invariant Finished(b, Attempt(disk, Copying(i), overwrite)) == Finished(b, Attempt(before, Checking, overwrite))
        {
          Ended(b, Attempt(disk, Copying(i), overwrite));
          PreparedEither(b, disk, Copying(i), overwrite);
          CopyFile(before, b, i);
          PreparedEither(b, disk, Copying(i + 1), overwrite);
        }
        ghost var copied := Attempt(disk, Copying(|Entries(b)|), overwrite);
        Ended(b, copied);
        StepIsSafe(before, b, copied, Go);
        StepIsSafe(before, b, Attempt(disk, CopyingManifest, overwrite), Go);
        Ended(b, Attempt(disk, CopyingManifest, overwrite));
        Write(WithTemporary(b, disk, Temporary(b, disk).(manifest := b.dir.manifest)));
        StepIsSafe(before, b, Attempt(disk, Renaming, overwrite), Go);
        Ended(b, Attempt(disk, Renaming, overwrite));
        Write(WithoutTemporary(b, disk.(generations := disk.generations[Generation(b) := Temporary(b, disk)])));
      }
      SwitchCurrent(before, b, overwrite);
      restored := true;
    }

    /** Unlinks the temporary link, makes it anew and swaps it with CURRENT in one replace. */
    method SwitchCurrent(ghost before: Disk, b: Backup, overwrite: bool)
      requires AllSafe(before, b) && Prepared(b, Attempt(disk, Unlinking, overwrite))
      modifies this
      ensures AllSafe(before, b)
      ensures Attempt(disk, Done, overwrite) == Finished(b, Attempt(old(disk), Unlinking, overwrite))
    {
      hide Safe, Prepared, Finished;
      ghost var start := Attempt(disk, Unlinking, overwrite);
      StepIsSafe(before, b, start, Go);
      Ended(b, start);
      Write(disk.(link := None));
      ghost var unlinked := Attempt(disk, Linking, overwrite);
      StepIsSafe(before, b, unlinked, Go);
      Ended(b, unlinked);
      Write(disk.(link := Some(Generation(b))));
      ghost var linked := Attempt(disk, Switching, overwrite);
      StepIsSafe(before, b, linked, Go);
      Ended(b, linked);
      Write(disk.(current := disk.link, link := None));
      Ended(b, Attempt(disk, Done, overwrite));
    }
  }

  lemma Ended(b: Backup, a: Attempt)
    ensures Finished(b, a) == if a.pc == Done || a.pc == Refused then a else Finished(b, Step(b, a, Go))
  {
  }

  lemma CheckedPcs(b: Backup, a: Attempt)
    ensures Checked(b, a) in {Refused, Done, Unlinking, Cleaning, Making}
  {
  }

  /** Whether overwriting is allowed matters only to the check. */
  lemma PreparedEither(b: Backup, d: Disk, pc: Pc, overwrite: bool)
    ensures Prepared(b, Attempt(d, pc, overwrite)) == Prepared(b, Attempt(d, pc, true))
  {
  }

  lemma TornCopy(b: Backup, d: Disk, index: nat, torn: Content, content: Content)
    requires index < |Entries(b)|
    ensures CopiedTo(b, CopiedTo(b, d, index, torn), index, content) == CopiedTo(b, d, index, content)
  {
    var dir, name := Temporary(b, d), Flat(Entries(b)[index].name);
    assert dir.files[name := torn][name := content] == dir.files[name := content];
    assert CopiedTo(b, CopiedTo(b, d, index, torn), index, content).temporaries == CopiedTo(b, d, index, content).temporaries;
  }
}
