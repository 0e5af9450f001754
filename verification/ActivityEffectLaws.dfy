/** The dispatch chain does to every field what the table of effects says. */
module ActivityEffectLaws {
  import opened Wrappers
  import opened Strings
  import opened Activities
  import opened ActivityLists
  import opened ActivityEffects

  // ---------------------------------------------------------------- the helper operations

  lemma {:induction false} FirstsAreOrs()
    ensures forall x, y :: FirstOf([x, y]) == Or(x, y)
    ensures forall x, y, z :: FirstOf([x, y, z]) == Or(x, Or(y, z))
  {
    forall x, y ensures FirstOf([x, y]) == Or(x, y) {
      assert [x, y][1..] == [y];
    }
    forall x, y, z ensures FirstOf([x, y, z]) == Or(x, Or(y, z)) {
      assert [x, y, z][1..] == [y, z];
      assert FirstOf([x, y, z]) == if x != "" then x else FirstOf([y, z]);
    }
  }

  /** From `a` to `b` the workers change as `effect` says, and nothing else does. */
  ghost predicate OnlyWorkers(a: Activity, b: Activity, effect: WorkerEffect, now: string) {
    && WorkersTo(a.workers, b.workers, effect, now)
    && b == a.(workers := b.workers,
               metrics := a.metrics.(activeWorkers := ActiveTo(a.workers, b.workers, effect, a.metrics.activeWorkers)))
  }

  lemma {:induction false} RecordsWorker(a: Activity, id: string, name: string, role: string, status: WorkerStatus,
                                         action: string, now: string)
    ensures OnlyWorkers(a, RecordWorker(a, id, name, role, status, action, now),
                        Records(id, name, role, status, action), now)
  {
    hide RunningCount, SetWorker;
    if HasWorker(a.workers, id) {
      var i := FirstWorker(a.workers, id);
      SetWorkerAt(a.workers, i, id, (w: Worker) => w.(status := status, action := action));
      assert IsFirst(a.workers, id, i);
    }
  }

  lemma {:induction false} UpdatesWorker(a: Activity, id: string, status: WorkerStatus, error: Option<string>,
                                         now: string)
    ensures OnlyWorkers(a, UpdateWorkerStatus(a, id, status, error, now), Updates(id, status, error), now)
  {
    hide RunningCount, SetWorker;
    var f := (w: Worker) => WithStatus(w, status, error, now);
    if HasWorker(a.workers, id) {
      var i := FirstWorker(a.workers, id);
      SetWorkerAt(a.workers, i, id, f);
      assert IsFirst(a.workers, id, i);
    } else {
      SetWorkerNowhere(a.workers, id, f);
    }
  }

  lemma {:induction false} FinishesWorkers(a: Activity, now: string)
    ensures OnlyWorkers(a, MarkWorkersCompleted(a, now), FinishesAll, now)
  {
    hide FinishAll;
    var r := seq(|a.workers|, i requires 0 <= i < |a.workers| => Finish(a.workers[i], now));
    FinishAllAt(a.workers, r, now);
  }

  lemma {:induction false} AddsAction(a: Activity, text: string)
    ensures AddCompletedAction(a, text) == a.(completedActions := With(a.completedActions, Strip(text)))
  {
    hide Strip;
  }

  lemma {:induction false} EmptyText()
    ensures Strip("") == ""
  {}

  lemma {:induction false} ReadsFile(a: Activity, path: string)
    ensures var r := With(a.filesRead, path);
      RecordFileRead(a, path) == a.(
        filesRead := r, metrics := a.metrics.(filesRead := CountTo(a.metrics.filesRead, |a.filesRead|, |r|)))
  {}

  lemma {:induction false} ChangesFile(a: Activity, path: string, operation: FileOperation, now: string)
    ensures var b := RecordFileChanged(a, path, operation, now);
      && ChangedTo(a.filesChanged, b.filesChanged, (path, operation), now)
      && b == a.(filesChanged := b.filesChanged, metrics := a.metrics.(
                   filesChanged := CountTo(a.metrics.filesChanged, |a.filesChanged|, |b.filesChanged|)))
  {
    hide SetFile;
    if path != "" && HasPath(a.filesChanged, path) {
      var i := FirstChange(a.filesChanged, path);
      SetFileAt(a.filesChanged, i, FileChange(path, operation, now));
    }
  }

  lemma {:induction false} StartsCommand(a: Activity, style: Style, command: string, now: string)
    ensures var b := RecordCommand(a, style, command, now);
      && CommandsTo(a.commands, b.commands, Starts(style.redact(command)), now)
      && b == a.(commands := b.commands, metrics := a.metrics.(
                   commandsRun := CountTo(a.metrics.commandsRun, |a.commands|, |b.commands|)))
  {}

  lemma {:induction false} EndsCommandLast(a: Activity, style: Style, exitCode: int, duration: Option<real>,
                                           error: Option<string>, now: string)
    ensures var b := CompleteLastCommand(a, style, exitCode, duration, error);
      var preview := if error.Some? && error.value != "" then Some(style.clean(error.value)) else None;
      && CommandsTo(a.commands, b.commands, Ends(exitCode, duration, preview), now)
      && |b.commands| == |a.commands| && b == a.(commands := b.commands)
  {
    hide EndLast;
    var cs := a.commands;
    var preview := if error.Some? && error.value != "" then Some(style.clean(error.value)) else None;
    if j :| 0 <= j < |cs| && cs[j].running && forall k :: j < k < |cs| ==> !cs[k].running {
      EndLastIs(cs, j, exitCode, duration, preview);
    } else {
      NoneRunning(cs);
      EndLastOfNone(cs, exitCode, duration, preview);
    }
  }

  // ---------------------------------------------------------------- what most events leave alone

  predicate TouchesFiles(k: Kind) { k.InspectionPerformed? || k.CodeModified? || k.ToolStarted? }

  lemma {:induction false} KeepsFiles(a: Activity, b: Activity, e: Event, now: string)
    requires !TouchesFiles(e.kind) && b.filesRead == a.filesRead && b.filesChanged == a.filesChanged
    requires b.metrics.filesRead == a.metrics.filesRead && b.metrics.filesChanged == a.metrics.filesChanged
    ensures FilesAs(a, b, e, now)
  {
    hide Say, FirstOf;
  }

  /** The kinds that bring a text, a command or a worker. */
  predicate BringsWork(k: Kind) {
    || k.TaskStarted? || k.TaskCompleted? || k.WorkerStarted? || k.WorkerFinished? || k.WorkerFailed?
    || k.PlanCreated? || k.ResearchStarted? || k.ResearchPlanCreated? || k.SearchPerformed? || k.ContradictionDetected?
    || k.ResearchCompleted? || k.ProgrammerStarted? || k.ProgrammerRequested? || k.CodeModified? || k.TestRunCompleted?
    || k.ProgrammerCompleted? || k.TesterStarted? || k.TestCompleted? || k.DefectDetected? || k.TesterCompleted?
    || k.ToolStarted? || k.ToolCompleted? || k.ToolFailed?
  }

  lemma {:induction false} KeepsWork(a: Activity, b: Activity, e: Event, style: Style, now: string)
    requires !BringsWork(e.kind)
    requires b.completedActions == a.completedActions && b.commands == a.commands && b.workers == a.workers
    requires b.metrics.commandsRun == a.metrics.commandsRun && b.metrics.activeWorkers == a.metrics.activeWorkers
    ensures WorkAs(a, b, e, style, now)
  {
    hide Say, FirstOf, Strip, WorkersTo, CommandsTo, RunningCount;
    EmptyText();
    NothingToDo(a, now);
  }

  // ---------------------------------------------------------------- every event

  lemma {:induction false} TaskDoes(a: Activity, e: Event, style: Style, now: string)
    requires SectionOf(e.kind) == TaskSection
    ensures DoesAs(a, ApplyTask(a, e, style, now), e, style, now)
  {
    hide Say, Or, FirstOf, Strip, DoesAs, ApplyTask;
    if e.kind.TaskStarted? {
      TaskStartDoes(a, e, style, now);
    } else if e.kind.TaskCompleted? {
      TaskEndDoes(a, e, style, now);
    } else {
      OtherTaskDoes(a, e, style, now);
    }
  }

  lemma {:induction false} TaskStartDoes(a: Activity, e: Event, style: Style, now: string)
    requires e.kind.TaskStarted?
    ensures DoesAs(a, ApplyTask(a, e, style, now), e, style, now)
  {
    hide FilesAs, Say, Or, FirstOf, Strip, RecordWorker, WorkersTo, CommandsTo, RunningCount;
    FirstsAreOrs();
    EmptyText();
    NothingToDo(a, now);
    var action := Or(e.kind.objective, Say(StartingTask) + GetOr(e.kind.title, a.taskId));
    RecordsWorker(a.(status := Running, live := true, currentAction := action), Or(e.workerId, Say(SpecialistId)),
                  Say(SpecialistRole), Say(SpecialistRole), IsRunning, action, now);
    KeepsFiles(a, ApplyTask(a, e, style, now), e, now);
  }

  lemma {:induction false} TaskEndDoes(a: Activity, e: Event, style: Style, now: string)
    requires e.kind.TaskCompleted?
    ensures DoesAs(a, ApplyTask(a, e, style, now), e, style, now)
  {
    hide FilesAs, Say, Or, FirstOf, Strip, MarkWorkersCompleted, AddCompletedAction, WorkersTo, CommandsTo,
      RunningCount;
    FirstsAreOrs();
    NothingToDo(a, now);
    var text := Say(CheckMark) + Or(e.kind.summary, Say(TaskDone));
    AddsAction(Ended(a, Completed, e), text);
    FinishesWorkers(AddCompletedAction(Ended(a, Completed, e), text).(currentAction := Say(ExecutionCompleted)), now);
    KeepsFiles(a, ApplyTask(a, e, style, now), e, now);
  }

  lemma {:induction false} OtherTaskDoes(a: Activity, e: Event, style: Style, now: string)
    requires e.kind.TaskFailed? || e.kind.TaskCancelled? || e.kind.TaskBlocked?
    ensures DoesAs(a, ApplyTask(a, e, style, now), e, style, now)
  {
    hide Say, Or, FirstOf, FilesAs, WorkAs;
    var r := ApplyTask(a, e, style, now);
    FirstsAreOrs();
    KeepsFiles(a, r, e, now);
    KeepsWork(a, r, e, style, now);
  }

  lemma {:induction false} WorkerDoes(a: Activity, e: Event, style: Style, now: string)
    requires SectionOf(e.kind) == WorkerSection
    ensures DoesAs(a, ApplyWorker(a, e, style, now), e, style, now)
  {
    hide FilesAs, Say, Or, FirstOf, Strip, RecordWorker, UpdateWorkerStatus, WorkersTo, CommandsTo, RunningCount;
    FirstsAreOrs();
    EmptyText();
    NothingToDo(a, now);
    if e.kind.WorkerStarted? {
      RecordsWorker(a.(status := Running), Or(e.workerId, GetOr(e.kind.workerId, Say(AnyWorkerId))),
                    Say(SpecialistRole),
                    GetOr(e.kind.role, Say(SpecialistRole)), IsRunning, Say(ActiveAction), now);
    } else {
      var id := Or(e.workerId, GetOr(e.kind.workerId, Say(AnyWorkerId)));
      if e.kind.WorkerFinished? {
        UpdatesWorker(a, id, IsCompleted, None, now);
      } else {
        UpdatesWorker(a, id, HasFailed, Some(style.clean(Or(e.kind.reason, Say(WorkerError)))), now);
      }
    }
    KeepsFiles(a, ApplyWorker(a, e, style, now), e, now);
  }

  lemma {:induction false} ManagerDoes(a: Activity, e: Event, style: Style, now: string)
    requires SectionOf(e.kind) == ManagerSection
    ensures DoesAs(a, ApplyManager(a, e), e, style, now)
  {
    hide DoesAs, ApplyManager;
    if e.kind.PlanCreated? {
      PlanDoes(a, e, style, now);
    } else if e.kind.CycleCompleted? {
      CycleEndDoes(a, e, style, now);
    } else if e.kind.ManagerWaiting? {
      ManagerWaitDoes(a, e, style, now);
    } else {
      OtherManagerDoes(a, e, style, now);
    }
  }

  lemma {:induction false} CycleEndDoes(a: Activity, e: Event, style: Style, now: string)
    requires e.kind.CycleCompleted?
    ensures DoesAs(a, ApplyManager(a, e), e, style, now)
  {
    hide Say, FirstOf, FilesAs, WorkAs;
    var r := ApplyManager(a, e);
    KeepsFiles(a, r, e, now);
    KeepsWork(a, r, e, style, now);
  }

  lemma {:induction false} ManagerWaitDoes(a: Activity, e: Event, style: Style, now: string)
    requires e.kind.ManagerWaiting?
    ensures DoesAs(a, ApplyManager(a, e), e, style, now)
  {
    hide Say, Or, FirstOf, FilesAs, WorkAs;
    var r := ApplyManager(a, e);
    FirstsAreOrs();
    KeepsFiles(a, r, e, now);
    KeepsWork(a, r, e, style, now);
  }

  lemma {:induction false} OtherManagerDoes(a: Activity, e: Event, style: Style, now: string)
    requires e.kind.CycleStarted? || e.kind.StagnationDetected?
    ensures DoesAs(a, ApplyManager(a, e), e, style, now)
  {
    hide Say, FirstOf, FilesAs, WorkAs;
    var r := ApplyManager(a, e);
    KeepsFiles(a, r, e, now);
    KeepsWork(a, r, e, style, now);
  }

  lemma {:induction false} PlanDoes(a: Activity, e: Event, style: Style, now: string)
    requires e.kind.PlanCreated?
    ensures DoesAs(a, ApplyManager(a, e), e, style, now)
  {
    hide FilesAs, Say, FirstOf, Strip, Decimal, AddCompletedAction, WorkersTo, CommandsTo, RunningCount;
    NothingToDo(a, now);
    AddsAction(a, Say(FormulatedPlan) + Decimal(GetOr(e.kind.tasksCount, 0)) + Say(TasksSuffix));
    KeepsFiles(a, ApplyManager(a, e), e, now);
  }

  lemma {:induction false} BeginDoes(a: Activity, name: string, title: string, status: Status, action: string,
                                     id: string,
                                     workerStatus: WorkerStatus, now: string)
    ensures OnlyWorkers(a.(workerType := name, title := title, status := status, currentAction := action),
                        Begin(a, name, title, status, action, id, workerStatus, now),
                        Specialist(id, name, workerStatus), now)
  {
    hide Say, RecordWorker, WorkersTo;
    RecordsWorker(a.(workerType := name, title := title, status := status, currentAction := action),
                  id, name, Say(SpecialistRole), workerStatus, Say(WorkingAction), now);
  }

  lemma {:induction false} ResearchDoes(a: Activity, e: Event, style: Style, now: string)
    requires SectionOf(e.kind) == ResearchSection
    ensures DoesAs(a, ApplyResearch(a, e, style, now), e, style, now)
  {
    hide Say, Or, FirstOf, Strip, DoesAs, ApplyResearch;
    if e.kind.ResearchStarted? || e.kind.ResearchPlanCreated? {
      ResearchStartDoes(a, e, style, now);
    } else if e.kind.SearchPerformed? {
      SearchDoes(a, e, style, now);
    } else if e.kind.ResearchCompleted? {
      ResearchEndDoes(a, e, style, now);
    } else if e.kind.ContradictionDetected? {
      ContradictionDoes(a, e, style, now);
    } else if e.kind.ResearchFailed? {
      ResearchFailureDoes(a, e, style, now);
    } else {
      OtherResearchDoes(a, e, style, now);
    }
  }

  lemma {:induction false} ResearchStartDoes(a: Activity, e: Event, style: Style, now: string)
    requires e.kind.ResearchStarted? || e.kind.ResearchPlanCreated?
    ensures DoesAs(a, ApplyResearch(a, e, style, now), e, style, now)
  {
    hide FilesAs, Say, FirstOf, Strip, Decimal, Begin, AddCompletedAction, Specialist, WorkersTo, CommandsTo,
      RunningCount;
    EmptyText();
    NothingToDo(a, now);
    if e.kind.ResearchStarted? {
      BeginDoes(a, Say(ResearcherName), Say(ResearcherTitle), Running, Say(InspectingProject), Say(ResearcherId),
                IsRunning, now);
    } else {
      AddsAction(a,
                 Say(IdentifiedPrefix) + Decimal(GetOr(e.kind.questionsCount,
                                                       e.kind.questions)) + Say(QuestionsSuffix));
    }
    KeepsFiles(a, ApplyResearch(a, e, style, now), e, now);
  }

  lemma {:induction false} SearchDoes(a: Activity, e: Event, style: Style, now: string)
    requires e.kind.SearchPerformed?
    ensures DoesAs(a, ApplyResearch(a, e, style, now), e, style, now)
  {
    hide FilesAs, Say, Or, FirstOf, Strip, Prefix, Decimal, CrawlerNumber, RecordWorker, WorkersTo, CommandsTo,
      RunningCount;
    FirstsAreOrs();
    EmptyText();
    NothingToDo(a, now);
    var id := Or(e.workerId, GetOr(e.kind.crawlerId, Say(SearchCrawlerId)));
    var b := a.(metrics := a.metrics.(sources := Some(GetOr(a.metrics.sources, 0) + GetOr(e.kind.resultCount, 0))),
                currentAction := Say(WebSearchPrefix) + Prefix(e.kind.query, 40) + Say(ClosingQuote));
    RecordsWorker(b, id, Say(CrawlerPrefix) + Decimal(CrawlerNumber(a.workers, id)), Say(WebSearchRole), IsRunning,
                  Say(SearchingPrefix) + Prefix(e.kind.query, 30) + Say(Ellipsis), now);
    KeepsFiles(a, ApplyResearch(a, e, style, now), e, now);
  }

  lemma {:induction false} ResearchEndDoes(a: Activity, e: Event, style: Style, now: string)
    requires e.kind.ResearchCompleted?
    ensures DoesAs(a, ApplyResearch(a, e, style, now), e, style, now)
  {
    hide Say, FirstOf, Strip, Decimal, Ended, MarkWorkersCompleted, AddCompletedAction, StateAs, ShownAs, FilesAs,
      WorkersTo,
      CommandsTo, RunningCount;
    var r := ApplyResearch(a, e, style, now);
    NothingToDo(a, now);
    ResearchEndState(a, e, style, now);
    AddsAction(Ended(a, Completed, e), DoneBy(a, e));
    FinishesWorkers(AddCompletedAction(Ended(a, Completed, e), DoneBy(a, e)).(currentAction := Say(ResearchComplete)),
                    now);
    KeepsFiles(a, r, e, now);
  }

  lemma {:induction false} ResearchEndState(a: Activity, e: Event, style: Style, now: string)
    requires e.kind.ResearchCompleted?
    ensures var b, r := Ended(a, Completed, e), ApplyResearch(a, e, style, now);
      && StateAs(a, r, e, style) && ShownAs(a, r, e,
                                            style) && r.filesRead == a.filesRead && r.filesChanged == a.filesChanged
      && r.metrics == a.metrics.(activeWorkers := r.metrics.activeWorkers)
      && b.completedActions == a.completedActions && b.commands == a.commands && b.workers == a.workers
      && b.metrics == a.metrics && r.commands == a.commands
      && r == MarkWorkersCompleted(AddCompletedAction(b, DoneBy(a, e)).(currentAction := Say(ResearchComplete)), now)
  {
    hide Say, FirstOf, Strip, Decimal, MarkWorkersCompleted, AddCompletedAction;
    AddsAction(Ended(a, Completed, e), DoneBy(a, e));
    FinishesWorkers(AddCompletedAction(Ended(a, Completed, e), DoneBy(a, e)).(currentAction := Say(ResearchComplete)),
                    now);
  }

  lemma {:induction false} OtherResearchDoes(a: Activity, e: Event, style: Style, now: string)
    requires e.kind.SourceFetched? || e.kind.FindingCreated?
    ensures DoesAs(a, ApplyResearch(a, e, style, now), e, style, now)
  {
    hide Say, Or, FirstOf, Prefix, Decimal, FilesAs, WorkAs;
    var r := ApplyResearch(a, e, style, now);
    FirstsAreOrs();
    KeepsFiles(a, r, e, now);
    KeepsWork(a, r, e, style, now);
  }

  lemma {:induction false} ResearchFailureDoes(a: Activity, e: Event, style: Style, now: string)
    requires e.kind.ResearchFailed?
    ensures DoesAs(a, ApplyResearch(a, e, style, now), e, style, now)
  {
    hide Say, Or, FirstOf, FilesAs, WorkAs;
    var r := ApplyResearch(a, e, style, now);
    FirstsAreOrs();
    KeepsFiles(a, r, e, now);
    KeepsWork(a, r, e, style, now);
  }

  lemma {:induction false} ContradictionDoes(a: Activity, e: Event, style: Style, now: string)
    requires e.kind.ContradictionDetected?
    ensures DoesAs(a, ApplyResearch(a, e, style, now), e, style, now)
  {
    hide FilesAs, Say, FirstOf, Strip, Prefix, AddCompletedAction, WorkersTo, CommandsTo, RunningCount;
    NothingToDo(a, now);
    AddsAction(a, Say(ContradictionPrefix) + Prefix(e.kind.statement, 50));
    KeepsFiles(a, ApplyResearch(a, e, style, now), e, now);
  }

  lemma {:induction false} ProgrammerDoes(a: Activity, e: Event, style: Style, now: string)
    requires SectionOf(e.kind) == ProgrammerSection
    ensures DoesAs(a, ApplyProgrammer(a, e, now), e, style, now)
  {
    hide Say, Or, FirstOf, Strip, DoesAs, ApplyProgrammer;
    if e.kind.ProgrammerStarted? {
      ProgrammerStartDoes(a, e, style, now);
    } else if e.kind.ProgrammerRequested? {
      ProgrammerRequestDoes(a, e, style, now);
    } else if e.kind.InspectionPerformed? || e.kind.CodeModified? {
      CodingDoes(a, e, style, now);
    } else if e.kind.TestRunCompleted? {
      TestRunDoes(a, e, style, now);
    } else if e.kind.ProgrammerCompleted? {
      ProgrammerEndDoes(a, e, style, now);
    } else {
      OtherProgrammerDoes(a, e, style, now);
    }
  }

  lemma {:induction false} ProgrammerStartDoes(a: Activity, e: Event, style: Style, now: string)
    requires e.kind.ProgrammerStarted?
    ensures DoesAs(a, ApplyProgrammer(a, e, now), e, style, now)
  {
    hide FilesAs, Say, FirstOf, Strip, Begin, Specialist, WorkersTo, CommandsTo, RunningCount;
    EmptyText();
    NothingToDo(a, now);
    BeginDoes(a, Say(ProgrammerName), Say(ProgrammerTitle), Running, Say(AnalyzingCode), Say(ProgrammerId), IsRunning,
              now);
    KeepsFiles(a, ApplyProgrammer(a, e, now), e, now);
  }

  lemma {:induction false} ProgrammerRequestDoes(a: Activity, e: Event, style: Style, now: string)
    requires e.kind.ProgrammerRequested?
    ensures DoesAs(a, ApplyProgrammer(a, e, now), e, style, now)
  {
    hide FilesAs, Say, FirstOf, Strip, Begin, Specialist, WorkersTo, CommandsTo, RunningCount;
    EmptyText();
    NothingToDo(a, now);
    BeginDoes(a, Say(ProgrammerName), Say(ProgrammerRequestedTitle), Pending,
              Say(WorkOrderPrefix) + GetOr(e.kind.workOrderId, Say(NotAvailable)), Say(ProgrammerId), IsRequested, now);
    KeepsFiles(a, ApplyProgrammer(a, e, now), e, now);
  }

  lemma {:induction false} CodingDoes(a: Activity, e: Event, style: Style, now: string)
    requires (e.kind.InspectionPerformed? || e.kind.CodeModified?)
    ensures DoesAs(a, ApplyProgrammer(a, e, now), e, style, now)
  {
    hide Say, Or, FirstOf, Strip, RecordFileRead, RecordFileChanged, AddCompletedAction, ChangedTo, WorkersTo,
      CommandsTo, RunningCount;
    FirstsAreOrs();
    EmptyText();
    NothingToDo(a, now);
    NoChange(a.filesChanged, now);
    var path := e.kind.filePath;
    if e.kind.InspectionPerformed? {
      ReadsFile(a, path);
    } else {
      ChangesFile(a, path, FileModified, now);
      AddsAction(RecordFileChanged(a, path, FileModified, now), Say(ModifiedPrefix) + path);
    }
  }

  lemma {:induction false} NoChange(fs: seq<FileChange>, now: string)
    ensures forall operation :: ChangedTo(fs, fs, ("", operation), now)
  {}

  lemma {:induction false} TestRunDoes(a: Activity, e: Event, style: Style, now: string)
    requires e.kind.TestRunCompleted?
    ensures DoesAs(a, ApplyProgrammer(a, e, now), e, style, now)
  {
    hide FilesAs, Say, FirstOf, Strip, AddCompletedAction, WorkersTo, CommandsTo, RunningCount;
    NothingToDo(a, now);
    AddsAction(a, if e.kind.passed then Say(TestsPassed) else Say(TestsFailed));
    KeepsFiles(a, ApplyProgrammer(a, e, now), e, now);
  }

  lemma {:induction false} ProgrammerEndDoes(a: Activity, e: Event, style: Style, now: string)
    requires e.kind.ProgrammerCompleted?
    ensures DoesAs(a, ApplyProgrammer(a, e, now), e, style, now)
  {
    hide FilesAs, Say, FirstOf, Strip, AddCompletedAction, WorkersTo, CommandsTo, RunningCount;
    NothingToDo(a, now);
    AddsAction(Ended(a, Completed, e), Say(ChangesVerified));
    KeepsFiles(a, ApplyProgrammer(a, e, now), e, now);
  }

  lemma {:induction false} OtherProgrammerDoes(a: Activity, e: Event, style: Style, now: string)
    requires e.kind.TestRunStarted? || e.kind.ProgrammerFailed? || e.kind.ProgrammerCancelled?
    ensures DoesAs(a, ApplyProgrammer(a, e, now), e, style, now)
  {
    hide Say, FirstOf, FilesAs, WorkAs;
    var r := ApplyProgrammer(a, e, now);
    KeepsFiles(a, r, e, now);
    KeepsWork(a, r, e, style, now);
  }

  lemma {:induction false} TesterDoes(a: Activity, e: Event, style: Style, now: string)
    requires SectionOf(e.kind) == TesterSection
    ensures DoesAs(a, ApplyTester(a, e, now), e, style, now)
  {
    hide FilesAs, Say, Or, FirstOf, Strip, Begin, Specialist, AddCompletedAction, WorkersTo, CommandsTo, RunningCount;
    FirstsAreOrs();
    EmptyText();
    NothingToDo(a, now);
    if e.kind.TesterStarted? {
      BeginDoes(a, Say(TesterName), Say(TesterTitle), Running, Say(PlanningTests), Say(TesterId), IsRunning, now);
    } else if e.kind.TestCompleted? {
      AddsAction(a, Say(TestPassed) + GetOr(e.kind.testName, Say(AnyTest)));
    } else if e.kind.DefectDetected? {
      AddsAction(a, Say(DefectPrefix) + Or(e.kind.description, GetOr(e.kind.defectId, Say(AnyDefect))));
    } else if e.kind.TesterCompleted? {
      AddsAction(Ended(a, Completed, e), Say(VerificationDone));
    }
    KeepsFiles(a, ApplyTester(a, e, now), e, now);
  }

  lemma {:induction false} ToolDoes(a: Activity, e: Event, style: Style, now: string)
    requires SectionOf(e.kind) == ToolSection
    ensures DoesAs(a, ApplyTool(a, e, style, now), e, style, now)
  {
    hide Say, Or, FirstOf, Strip, DoesAs, ApplyTool;
    if e.kind.ToolStarted? {
      ToolStartDoes(a, e, style, now);
    } else if e.kind.ToolCompleted? {
      ToolEndDoes(a, e, style, now);
    } else {
      ToolFailureDoes(a, e, style, now);
    }
  }

  lemma {:induction false} ToolStartDoes(a: Activity, e: Event, style: Style, now: string)
    requires e.kind.ToolStarted?
    ensures DoesAs(a, ApplyTool(a, e, style, now), e, style, now)
  {
    hide DoesAs, ApplyTool, ToolOf;
    match ToolOf(e.kind.toolId)
    case CommandTool => CommandStartDoes(a, e, style, now);
    case ReadTool => ReadDoes(a, e, style, now);
    case WriteTool => WriteDoes(a, e, style, now);
    case DeleteTool => WriteDoes(a, e, style, now);
    case _ => OtherToolDoes(a, e, style, now);
  }

  lemma {:induction false} CommandStartDoes(a: Activity, e: Event, style: Style, now: string)
    requires e.kind.ToolStarted? && ToolOf(e.kind.toolId) == CommandTool
    ensures DoesAs(a, ApplyTool(a, e, style, now), e, style, now)
  {
    hide Say, Or, FirstOf, Strip, Prefix, Contains, RecordCommand, ChangedTo, WorkersTo, CommandsTo, RunningCount;
    FirstsAreOrs();
    EmptyText();
    NothingToDo(a, now);
    NoChange(a.filesChanged, now);
    var sanitized := style.redact(Or(e.kind.arguments.command, Or(e.kind.arguments.cmd, e.kind.toolId)));
    StartsCommand(a.(currentAction := Say(RunningPrefix) + Prefix(sanitized, 40)), style, sanitized, now);
  }

  lemma {:induction false} ReadDoes(a: Activity, e: Event, style: Style, now: string)
    requires e.kind.ToolStarted? && ToolOf(e.kind.toolId) == ReadTool
    ensures DoesAs(a, ApplyTool(a, e, style, now), e, style, now)
  {
    hide Say, Or, FirstOf, Strip, Contains, RecordFileRead, ChangedTo, WorkersTo, CommandsTo, RunningCount;
    FirstsAreOrs();
    EmptyText();
    NothingToDo(a, now);
    NoChange(a.filesChanged, now);
    ReadsFile(a, Or(e.kind.arguments.path, e.kind.arguments.filePath));
  }

  lemma {:induction false} WriteDoes(a: Activity, e: Event, style: Style, now: string)
    requires e.kind.ToolStarted? && ToolOf(e.kind.toolId) in {WriteTool, DeleteTool}
    ensures DoesAs(a, ApplyTool(a, e, style, now), e, style, now)
  {
    hide Say, Or, FirstOf, Strip, Contains, RecordFileChanged, ChangedTo, WorkersTo, CommandsTo, RunningCount;
    FirstsAreOrs();
    EmptyText();
    NothingToDo(a, now);
    NoChange(a.filesChanged, now);
    var path := Or(e.kind.arguments.path, e.kind.arguments.filePath);
    ChangesFile(a, path, if ToolOf(e.kind.toolId) == WriteTool then FileCreated else FileDeleted, now);
  }

  lemma {:induction false} OtherToolDoes(a: Activity, e: Event, style: Style, now: string)
    requires e.kind.ToolStarted? && ToolOf(e.kind.toolId) in {ListTool, SearchTool, UnknownTool}
    ensures DoesAs(a, ApplyTool(a, e, style, now), e, style, now)
  {
    hide Say, Or, FirstOf, Strip, Contains, ChangedTo, WorkersTo, CommandsTo, RunningCount;
    FirstsAreOrs();
    EmptyText();
    NothingToDo(a, now);
    NoChange(a.filesChanged, now);
  }

  lemma {:induction false} ToolEndDoes(a: Activity, e: Event, style: Style, now: string)
    requires e.kind.ToolCompleted?
    ensures DoesAs(a, ApplyTool(a, e, style, now), e, style, now)
  {
    hide FilesAs, Say, FirstOf, Strip, Decimal, Contains, CompleteLastCommand, AddCompletedAction, WorkersTo,
      CommandsTo, RunningCount;
    EmptyText();
    NothingToDo(a, now);
    EndsCommandLast(a, style, GetOr(e.kind.exitCode, 0), e.kind.duration, None, now);
    AddsAction(a, Say(FilesInspected) + Decimal(|a.filesRead|) + Say(FilesSuffix));
    KeepsFiles(a, ApplyTool(a, e, style, now), e, now);
  }

  lemma {:induction false} ToolFailureDoes(a: Activity, e: Event, style: Style, now: string)
    requires e.kind.ToolFailed?
    ensures DoesAs(a, ApplyTool(a, e, style, now), e, style, now)
  {
    hide FilesAs, Say, FirstOf, Strip, Contains, CompleteLastCommand, WorkersTo, CommandsTo, RunningCount;
    EmptyText();
    NothingToDo(a, now);
    EndsCommandLast(a, style, 1, None, Some(GetOr(e.kind.failure, Say(ToolFailure))), now);
    KeepsFiles(a, ApplyTool(a, e, style, now), e, now);
  }

  lemma {:induction false} ProviderDoes(a: Activity, e: Event, style: Style, now: string)
    requires SectionOf(e.kind) == ProviderSection
    ensures DoesAs(a, ApplyProvider(a, e), e, style, now)
  {
    hide Say, FirstOf, FilesAs, WorkAs;
    var r := ApplyProvider(a, e);
    KeepsFiles(a, r, e, now);
    KeepsWork(a, r, e, style, now);
  }

  /** Each event does to each field what the table says. */
  lemma {:induction false} EveryEventDoes(a: Activity, e: Event, style: Style, now: string)
    ensures DoesAs(a, Apply(a, e, style, now), e, style, now)
  {
    hide DoesAs, ApplyTask, ApplyWorker, ApplyManager, ApplyResearch, ApplyProgrammer, ApplyTester, ApplyTool,
      ApplyProvider;
    match SectionOf(e.kind)
    case TaskSection => TaskDoes(a, e, style, now);
    case WorkerSection => WorkerDoes(a, e, style, now);
    case ManagerSection => ManagerDoes(a, e, style, now);
    case ResearchSection => ResearchDoes(a, e, style, now);
    case ProgrammerSection => ProgrammerDoes(a, e, style, now);
    case TesterSection => TesterDoes(a, e, style, now);
    case ToolSection => ToolDoes(a, e, style, now);
    case ProviderSection => ProviderDoes(a, e, style, now);
  }

  lemma {:induction false} NothingToDo(a: Activity, now: string)
    ensures WorkersTo(a.workers, a.workers, NoWorker, now) && CommandsTo(a.commands, a.commands, NoCommand, now)
    ensures With(a.completedActions, "") == a.completedActions && With(a.filesRead, "") == a.filesRead
  {}
}
