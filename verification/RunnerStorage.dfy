// The runner's crash-safe storage: the plan file with its revision, and the audit file, each written through
// a lock, a temporary file and a rename. Any number of writers interleave one file operation at a time and
// can be killed at any of them, which releases their locks.
module RunnerStorage {
  import opened Wrappers

  // A writer: save_plan with an optional expected revision, or an append to the audit file alone.
  datatype Task = SavePlan(expected: Option<nat>, line: string) | AppendOnly(line: string)

  // Where a writer is. seen and content: what it read under its lock; complete and temp: how far its
  // temporary file has got.
  datatype Pc =
    | WantPlan
    | HasPlanLock
    | PlanTemp(seen: nat, complete: bool)
    | PlanSaved
    | WantAudit
    | HasAuditLock
    | AuditTemp(content: string, temp: string)
    | AuditSaved
    | Finished
    | Conflict
    | Killed

  datatype Writer = Writer(task: Task, pc: Pc)

  // A rename of the plan file: who did it, the revision it expected and the one it stored.
  datatype Save = Save(writer: nat, expected: Option<nat>, revision: nat)

  datatype State = State(
    revision: nat, audit: string, planLock: Option<nat>, auditLock: Option<nat>, writers: seq<Writer>,
    saves: seq<Save>, lines: seq<string>)

  // Write moves a writer's temporary file on by some text; a kill can leave it incomplete.
  datatype Event =
    | Begin(task: Task)
    | Lock(i: nat)
    | Read(i: nat)
    | Write(i: nat, text: string)
    | Rename(i: nat)
    | Unlock(i: nat)
    | Kill(i: nat)

  function Goto(s: State, i: nat, pc: Pc): State
    requires i < |s.writers|
  {
    s.(writers := s.writers[i := s.writers[i].(pc := pc)])
  }

  function StepLock(s: State, i: nat): State
    requires i < |s.writers|
  {
    match s.writers[i].pc
    case WantPlan => if s.planLock.None? then Goto(s, i, HasPlanLock).(planLock := Some(i)) else s
    case WantAudit => if s.auditLock.None? then Goto(s, i, HasAuditLock).(auditLock := Some(i)) else s
    case _ => s
  }

  // A save whose expected revision is not the stored one raises and leaves the lock.
  function StepRead(s: State, i: nat): State
    requires i < |s.writers|
  {
    match s.writers[i].pc
    case HasPlanLock =>
      var task := s.writers[i].task;
      if task.SavePlan? && task.expected.Some? && task.expected.value != s.revision then
        Goto(s, i, Conflict).(planLock := None)
      else Goto(s, i, PlanTemp(s.revision, false))
    case HasAuditLock => Goto(s, i, AuditTemp(s.audit, ""))
    case _ => s
  }

  predicate Prefix(a: string, b: string) { |a| <= |b| && a == b[..|a|] }

  // The audit's temporary file is to hold what was read and the new line.
  function StepWrite(s: State, i: nat, text: string): State
    requires i < |s.writers|
  {
    var w := s.writers[i];
    match w.pc
    case PlanTemp(seen, _) => Goto(s, i, PlanTemp(seen, true))
    case AuditTemp(content, temp) =>
      if Prefix(temp + text, content + w.task.line) then Goto(s, i, AuditTemp(content, temp + text)) else s
    case _ => s
  }

  // Only a complete temporary file is renamed over the target.
  function StepRename(s: State, i: nat): State
    requires i < |s.writers|
  {
    var w := s.writers[i];
    match w.pc
    case PlanTemp(seen, complete) =>
      if !complete || !w.task.SavePlan? then s
      else Goto(s, i, PlanSaved).(revision := seen + 1, saves := s.saves + [Save(i, w.task.expected, seen + 1)])
    case AuditTemp(content, temp) =>
      if temp != content + w.task.line then s
      else Goto(s, i, AuditSaved).(audit := temp, lines := s.lines + [w.task.line])
    case _ => s
  }

  function StepUnlock(s: State, i: nat): State
    requires i < |s.writers|
  {
    match s.writers[i].pc
    case PlanSaved => Goto(s, i, WantAudit).(planLock := None)
    case AuditSaved => Goto(s, i, Finished).(auditLock := None)
    case _ => s
  }

  function StepKill(s: State, i: nat): State
    requires i < |s.writers|
  {
    Goto(s, i, Killed).(planLock := if s.planLock == Some(i) then None else s.planLock,
                        auditLock := if s.auditLock == Some(i) then None else s.auditLock)
  }

  function Next(s: State, e: Event): State {
    match e
    case Begin(task) => s.(writers := s.writers + [Writer(task, if task.SavePlan? then WantPlan else WantAudit)])
    case Lock(i) => if i < |s.writers| then StepLock(s, i) else s
    case Read(i) => if i < |s.writers| then StepRead(s, i) else s
    case Write(i, text) => if i < |s.writers| then StepWrite(s, i, text) else s
    case Rename(i) => if i < |s.writers| then StepRename(s, i) else s
    case Unlock(i) => if i < |s.writers| then StepUnlock(s, i) else s
    case Kill(i) => if i < |s.writers| then StepKill(s, i) else s
  }

  function Start(revision: nat, lines: seq<string>): State {
    State(revision, Flatten(lines), None, None, [], [], lines)
  }

  function Run(s: State, events: seq<Event>): State {
    if events == [] then s else Next(Run(s, events[..|events| - 1]), events[|events| - 1])
  }

  function Flatten(lines: seq<string>): string {
    if lines == [] then "" else Flatten(lines[..|lines| - 1]) + lines[|lines| - 1]
  }

  // ---- Every run

  predicate InPlan(pc: Pc) { pc.HasPlanLock? || pc.PlanTemp? || pc.PlanSaved? }

  predicate InAudit(pc: Pc) { pc.HasAuditLock? || pc.AuditTemp? || pc.AuditSaved? }

  predicate WriterFits(s: State, i: nat)
    requires i < |s.writers|
  {
    var w := s.writers[i];
    && (InPlan(w.pc) ==> s.planLock == Some(i) && w.task.SavePlan?)
    && (InAudit(w.pc) ==> s.auditLock == Some(i))
    && (w.pc.PlanTemp? ==> w.pc.seen == s.revision)
    && (w.pc.PlanTemp? && w.task.expected.Some? ==> w.task.expected.value == s.revision)
    && (w.pc.AuditTemp? ==> w.pc.content == s.audit)
    && (w.pc.WantPlan? ==> w.task.SavePlan?)
  }

  // The saves since the start raise the revision one by one, each from the revision it expected.
  predicate SavesCount(from: nat, saves: seq<Save>) {
    forall k :: 0 <= k < |saves| ==>
      saves[k].revision == from + k + 1 && (saves[k].expected.Some? ==> saves[k].expected.value == from + k)
  }

  predicate Inv(from: nat, s: State) {
    && (forall i :: 0 <= i < |s.writers| ==> WriterFits(s, i))
    && s.audit == Flatten(s.lines)
    && s.revision == from + |s.saves| && SavesCount(from, s.saves)
  }

  lemma PlanRenameKeepsInv(from: nat, s: State, i: nat)
    requires Inv(from, s) && i < |s.writers| && s.writers[i].pc.PlanTemp?
    ensures Inv(from, StepRename(s, i))
  {
    var t := StepRename(s, i);
    assert WriterFits(s, i);
    forall k | 0 <= k < |t.writers| ensures WriterFits(t, k) {
      assert WriterFits(s, k);
    }
  }

  lemma AuditRenameKeepsInv(from: nat, s: State, i: nat)
    requires Inv(from, s) && i < |s.writers| && s.writers[i].pc.AuditTemp?
    ensures Inv(from, StepRename(s, i))
  {
    var t := StepRename(s, i);
    assert WriterFits(s, i);
    if t != s {
      assert t.lines[..|s.lines|] == s.lines;
      assert t.audit == Flatten(t.lines);
    }
    forall k | 0 <= k < |t.writers| ensures WriterFits(t, k) {
      assert WriterFits(s, k);
    }
  }

  // A step that changes no file: it moves one writer and takes or gives up that writer's locks.
  lemma QuietStepKeepsInv(from: nat, s: State, t: State, i: nat)
    requires Inv(from, s) && i < |s.writers| == |t.writers| && t.writers == s.writers[i := t.writers[i]]
    requires t.revision == s.revision && t.audit == s.audit && t.saves == s.saves && t.lines == s.lines
    requires t.planLock == s.planLock || s.planLock.None? || (s.planLock == Some(i) && t.planLock.None?)
    requires t.auditLock == s.auditLock || s.auditLock.None? || (s.auditLock == Some(i) && t.auditLock.None?)
    requires WriterFits(t, i)
    ensures Inv(from, t)
  {
    forall k | 0 <= k < |t.writers| ensures WriterFits(t, k) {
      assert WriterFits(s, k);
    }
  }

  lemma LockKeepsInv(from: nat, s: State, i: nat)
    requires Inv(from, s) && i < |s.writers|
    ensures Inv(from, StepLock(s, i)) && Inv(from, StepUnlock(s, i))
  {
    assert WriterFits(s, i);
    QuietStepKeepsInv(from, s, StepLock(s, i), i);
    QuietStepKeepsInv(from, s, StepUnlock(s, i), i);
  }

  lemma ReadKeepsInv(from: nat, s: State, i: nat, text: string)
    requires Inv(from, s) && i < |s.writers|
    ensures Inv(from, StepRead(s, i)) && Inv(from, StepWrite(s, i, text))
  {
    assert WriterFits(s, i);
    QuietStepKeepsInv(from, s, StepRead(s, i), i);
    QuietStepKeepsInv(from, s, StepWrite(s, i, text), i);
  }

  lemma NextKeepsInv(from: nat, s: State, e: Event)
    requires Inv(from, s)
    ensures Inv(from, Next(s, e))
  {
    match e
    case Begin(task) =>
      var t := Next(s, e);
      forall k | 0 <= k < |t.writers| ensures WriterFits(t, k) {
        assert k < |s.writers| ==> WriterFits(s, k);
      }
    case Rename(i) =>
      if i < |s.writers| && s.writers[i].pc.PlanTemp? { PlanRenameKeepsInv(from, s, i); }
      if i < |s.writers| && s.writers[i].pc.AuditTemp? { AuditRenameKeepsInv(from, s, i); }
    case Lock(i) => if i < |s.writers| { LockKeepsInv(from, s, i); }
    case Read(i) => if i < |s.writers| { ReadKeepsInv(from, s, i, ""); }
    case Write(i, text) => if i < |s.writers| { ReadKeepsInv(from, s, i, text); }
    case Unlock(i) => if i < |s.writers| { LockKeepsInv(from, s, i); }
    case Kill(i) =>
      if i < |s.writers| {
        assert WriterFits(s, i);
        QuietStepKeepsInv(from, s, StepKill(s, i), i);
      }
  }

  lemma {:induction false} RunKeepsInv(revision: nat, lines: seq<string>, events: seq<Event>)
    ensures Inv(revision, Run(Start(revision, lines), events))
  {
    if events != [] {
      RunKeepsInv(revision, lines, events[..|events| - 1]);
      NextKeepsInv(revision, Run(Start(revision, lines), events[..|events| - 1]), events[|events| - 1]);
    }
  }

  // At every moment the audit file is the lines it started with followed by the lines renamed into it, whole
  // and in order; later events only add lines, so no append is lost.
  lemma AuditIsWholeLines(revision: nat, lines: seq<string>, before: seq<Event>, after: seq<Event>)
    ensures var s := Run(Start(revision, lines), before); var t := Run(s, after);
      && s.audit == Flatten(s.lines) && t.audit == Flatten(t.lines)
      && lines <= s.lines <= t.lines
  {
    var start := Start(revision, lines);
    RunKeepsInv(revision, lines, before);
    RunConcat(start, before, after);
    RunKeepsInv(revision, lines, before + after);
    LinesOnlyGrow(start, before);
    LinesOnlyGrow(Run(start, before), after);
  }

  lemma {:induction false} RunConcat(s: State, a: seq<Event>, b: seq<Event>)
    ensures Run(s, a + b) == Run(Run(s, a), b)
  {
    if b == [] {
      assert a + b == a;
    } else {
      assert (a + b)[..|a + b| - 1] == a + b[..|b| - 1];
      RunConcat(s, a, b[..|b| - 1]);
    }
  }

  lemma {:induction false} LinesOnlyGrow(s: State, events: seq<Event>)
    ensures s.lines <= Run(s, events).lines
  {
    if events != [] {
      LinesOnlyGrow(s, events[..|events| - 1]);
      assert Run(s, events[..|events| - 1]).lines <= Run(s, events).lines;
    }
  }

  predicate Appended(w: Writer) { w.pc.AuditSaved? || w.pc.Finished? }

  // The writers past their audit rename that were to append this line.
  function AppendedCount(writers: seq<Writer>, line: string): nat {
    if writers == [] then 0
    else AppendedCount(writers[..|writers| - 1], line) + if AppendedLine(writers[|writers| - 1], line) then 1 else 0
  }

  predicate AppendedLine(w: Writer, line: string) { Appended(w) && w.task.line == line }

  lemma {:induction false} AppendedUpdate(writers: seq<Writer>, i: nat, w: Writer, line: string)
    requires i < |writers|
    ensures AppendedCount(writers[i := w], line) + (if AppendedLine(writers[i], line) then 1 else 0)
      == AppendedCount(writers, line) + if AppendedLine(w, line) then 1 else 0
  {
    var last := |writers| - 1;
    if i < last {
      assert writers[i := w][..last] == writers[..last][i := w];
      AppendedUpdate(writers[..last], i, w, line);
    } else {
      assert writers[i := w][..last] == writers[..last];
    }
  }

  // One writer moves, and the file gets its line if it is its audit rename.
  lemma MoveKeepsLines(s: State, t: State, i: nat, line: string)
    requires i < |s.writers| == |t.writers| && t.writers == s.writers[i := t.writers[i]]
    requires t.writers[i].task == s.writers[i].task
    requires if Appended(t.writers[i]) && !Appended(s.writers[i]) then t.lines == s.lines + [s.writers[i].task.line]
             else t.lines == s.lines
    ensures multiset(t.lines)[line] - multiset(s.lines)[line]
      >= AppendedCount(t.writers, line) - AppendedCount(s.writers, line)
  {
    AppendedUpdate(s.writers, i, t.writers[i], line);
  }

  lemma RenameKeepsLines(s: State, i: nat, line: string)
    requires i < |s.writers|
    ensures var t := StepRename(s, i);
      multiset(t.lines)[line] - multiset(s.lines)[line]
        >= AppendedCount(t.writers, line) - AppendedCount(s.writers, line)
  {
    MoveKeepsLines(s, StepRename(s, i), i, line);
  }

  lemma NextKeepsLines(s: State, e: Event, line: string)
    ensures var t := Next(s, e);
      multiset(t.lines)[line] - multiset(s.lines)[line]
        >= AppendedCount(t.writers, line) - AppendedCount(s.writers, line)
  {
    var t := Next(s, e);
    match e
    case Begin(task) => assert t.writers[..|s.writers|] == s.writers;
    case Rename(i) => if i < |s.writers| { RenameKeepsLines(s, i, line); }
    case _ => if e.i < |s.writers| { MoveKeepsLines(s, t, e.i, line); }
  }

  // Every writer past its audit rename has a line of its own in the file, besides those the file began with,
  // even where several writers append equal lines.
  lemma {:induction false} FinishedLinesAreThere(revision: nat, lines: seq<string>, events: seq<Event>, line: string)
    ensures var s := Run(Start(revision, lines), events);
      multiset(s.lines)[line] >= multiset(lines)[line] + AppendedCount(s.writers, line)
  {
    if events != [] {
      FinishedLinesAreThere(revision, lines, events[..|events| - 1], line);
      NextKeepsLines(Run(Start(revision, lines), events[..|events| - 1]), events[|events| - 1], line);
    }
  }

  // Each successful save raised the stored revision by exactly one, from the revision its writer expected.
  lemma SavesRaiseTheRevision(revision: nat, lines: seq<string>, events: seq<Event>)
    ensures var s := Run(Start(revision, lines), events);
      s.revision == revision + |s.saves| && SavesCount(revision, s.saves)
  {
    RunKeepsInv(revision, lines, events);
  }

  // Of the writers expecting the same revision at most one succeeds.
  lemma OneWinnerPerRevision(revision: nat, lines: seq<string>, events: seq<Event>, k: nat, l: nat)
    requires var s := Run(Start(revision, lines), events);
      k < |s.saves| && l < |s.saves| && s.saves[k].expected.Some? && s.saves[k].expected == s.saves[l].expected
    ensures k == l
  {
    RunKeepsInv(revision, lines, events);
  }

  // ---- One writer at a time: the operations as sequential methods, and the steps that make them up

  class RunnerFiles {
    var revision: nat
    var audit: string

    constructor (r: nat, a: string)
      ensures revision == r && audit == a
    {
      revision, audit := r, a;
    }

    method AppendJsonl(line: string)
      modifies this`audit
      ensures audit == old(audit) + line
    {
      var existing := audit;
      audit := existing + line;
    }

    method SavePlan(expected: Option<nat>, line: string) returns (ok: bool)
      modifies this
      ensures ok <==> expected.None? || expected.value == old(revision)
      ensures revision == old(revision) + (if ok then 1 else 0)
      ensures audit == if ok then old(audit) + line else old(audit)
    {
      var current := revision;
      if expected.Some? && current != expected.value { return false; }
      revision := current + 1;
      AppendJsonl(line);
      ok := true;
    }
  }

  lemma TextIsWritten(s: State, i: nat, text: string)
    requires i < |s.writers| && s.writers[i].pc.AuditTemp? && s.writers[i].pc.temp == ""
    requires text == s.writers[i].pc.content + s.writers[i].task.line
    ensures StepWrite(s, i, text) == Goto(s, i, AuditTemp(s.writers[i].pc.content, text))
  {
    assert "" + text == text && text[..|text|] == text;
  }

  // The audit phase of an undisturbed writer appends its line.
  lemma AppendStepsMatchMethod(s: State, i: nat)
    requires i < |s.writers| && s.writers[i].pc.WantAudit? && s.auditLock.None?
    ensures var w := s.writers[i];
      var t := Next(Next(Next(Next(Next(s, Lock(i)), Read(i)), Write(i, s.audit + w.task.line)), Rename(i)), Unlock(i));
      && t.audit == s.audit + w.task.line && t.revision == s.revision && t.writers[i].pc.Finished?
      && t.auditLock.None? && t.planLock == s.planLock
  {
    var text := s.audit + s.writers[i].task.line;
    var s2 := StepRead(StepLock(s, i), i);
    assert s2.writers[i] == Writer(s.writers[i].task, AuditTemp(s.audit, ""));
    TextIsWritten(s2, i, text);
    var s3 := StepWrite(s2, i, text);
    var s4 := StepRename(s3, i);
    assert s4.audit == text;
  }

  // The plan phase of an undisturbed writer does what the method does to the revision: it stores the next
  // one and goes on to the audit file, or conflicts.
  lemma SaveStepsMatchMethod(s: State, i: nat)
    requires i < |s.writers| && s.writers[i].pc.WantPlan? && s.writers[i].task.SavePlan? && s.planLock.None?
    ensures var w := s.writers[i];
      var ok := w.task.expected.None? || w.task.expected.value == s.revision;
      var t := Next(Next(Next(Next(Next(s, Lock(i)), Read(i)), Write(i, "")), Rename(i)), Unlock(i));
      && t.revision == s.revision + (if ok then 1 else 0) && t.audit == s.audit
      && t.planLock.None? && t.writers[i].pc == (if ok then WantAudit else Conflict)
  {
    var s1 := StepLock(s, i);
    var s2 := StepRead(s1, i);
    var s3 := StepWrite(s2, i, "");
    var s4 := StepRename(s3, i);
    var s5 := StepUnlock(s4, i);
  }

  // ---- Beginnings and deaths

  // A new writer wants the plan lock exactly if it is to save the plan; appending needs the audit lock alone.
  lemma WritersBegin(s: State, task: Task)
    ensures var t, i := Next(s, Begin(task)), |s.writers|;
      && t.writers[..i] == s.writers && |t.writers| == i + 1 && t.writers[i].task == task
      && (task.SavePlan? && s.planLock.None? ==>
        Next(t, Lock(i)).planLock == Some(i) && Next(t, Lock(i)).auditLock == s.auditLock)
      && (task.AppendOnly? && s.auditLock.None? ==>
        Next(t, Lock(i)).auditLock == Some(i) && Next(t, Lock(i)).planLock == s.planLock)
  {
  }

  // A killed writer leaves both locks and nothing else: the plan, the audit and everyone else stay, and whoever
  // waits for a lock can then take it.
  lemma DeathFreesTheLocks(s: State, i: nat, j: nat)
    requires i < |s.writers| && j < |s.writers| && i != j
    ensures var t := Next(s, Kill(i));
      && t.planLock != Some(i) && t.auditLock != Some(i) && t.revision == s.revision && t.audit == s.audit
      && |t.writers| == |s.writers| && t.writers[j] == s.writers[j]
      && (s.planLock == Some(i) && s.writers[j].pc.WantPlan? ==> Next(t, Lock(j)).planLock == Some(j))
      && (s.auditLock == Some(i) && s.writers[j].pc.WantAudit? ==> Next(t, Lock(j)).auditLock == Some(j))
      && (s.planLock != Some(i) ==> t.planLock == s.planLock) && (s.auditLock != Some(i) ==> t.auditLock == s.auditLock)
  {
  }
}
