/** The activity objects that the projector updates in place, and the projector itself. */
module ActivityObjects {
  import opened Wrappers
  import opened Strings
  import A = Activities
  import L = ActivityLists
  import P = Projection

  class ExecutionActivity {
    const projectId: string
    const taskId: string
    const correlationId: string
    var workerId: string
    var workerType: string
    var title: string
    var status: A.Status
    var startTime: string
    var endTime: Option<string>
    var currentAction: string
    var completedActions: seq<string>
    var commands: seq<A.Command>
    var filesRead: seq<string>
    var filesChanged: seq<A.FileChange>
    var workers: seq<A.Worker>
    var metrics: A.Metrics
    var errorSummary: Option<string>
    var waitingReason: Option<string>
    var live: bool

    ghost function Value(): (v: A.Activity)
      reads this
      ensures v.taskId == taskId && v.currentAction == currentAction && v.filesRead == filesRead
      ensures v.workers == workers && v.metrics == metrics
    {
      A.Activity(projectId, taskId, correlationId, workerId, workerType, title, status, startTime, endTime,
                 currentAction, completedActions, commands, filesRead, filesChanged, workers, metrics,
                 errorSummary, waitingReason, live)
    }

    constructor (e: A.Event, now: string)
      ensures Value() == A.NewActivity(e, now)
    {
      projectId, taskId, correlationId, workerId := e.projectId, e.taskId, e.correlationId, e.workerId;
      workerType, title := A.Say(A.ManagerType), A.Say(A.DefaultTitle);
      status, startTime, endTime := A.Pending, now, None;
      currentAction, completedActions, commands := A.Say(A.InitialAction), [], [];
      filesRead, filesChanged, workers, metrics := [], [], [], A.NO_METRICS;
      errorSummary, waitingReason, live := None, None, true;
    }

    // -------------------------------------------------------------- helpers

    method RecordWorker(id: string, name: string, role: string, status: A.WorkerStatus, action: string, now: string)
      modifies this`workers, this`metrics
      ensures Value() == A.RecordWorker(old(Value()), id, name, role, status, action, now)
    {
      hide A.SetWorker, A.RunningCount;
      for i := 0 to |workers|
        invariant workers == old(workers) && metrics == old(metrics)
        invariant forall k :: 0 <= k < i ==> workers[k].id != id
      {
        if workers[i].id == id {
          L.SetWorkerAt(workers, i, id, (w: A.Worker) => w.(status := status, action := action));
          workers := workers[i := workers[i].(status := status, action := action)];
          return;
        }
      }
      workers := workers + [A.Worker(id, name, role, status, action, None, now, None)];
      metrics := metrics.(activeWorkers := Some(A.RunningCount(workers)));
    }

    method UpdateWorkerStatus(id: string, status: A.WorkerStatus, error: Option<string>, now: string)
      modifies this`workers, this`metrics
      ensures Value() == A.UpdateWorkerStatus(old(Value()), id, status, error, now)
    {
      hide A.SetWorker, A.RunningCount;
      ghost var f := (w: A.Worker) => A.WithStatus(w, status, error, now);
      var i := 0;
      while i < |workers| && workers[i].id != id
        invariant 0 <= i <= |workers| && workers == old(workers) && metrics == old(metrics)
        invariant forall k :: 0 <= k < i ==> workers[k].id != id
      {
        i := i + 1;
      }
      if i < |workers| {
        L.SetWorkerAt(workers, i, id, f);
        var w := workers[i].(status := status);
        if error.Some? && error.value != "" {
          w := w.(error := error);
        }
        if status == A.IsCompleted {
          w := w.(completedAt := Some(now));
        }
        workers := workers[i := w];
      } else {
        L.SetWorkerNowhere(workers, id, f);
      }
      metrics := metrics.(activeWorkers := Some(A.RunningCount(workers)));
    }

    method MarkWorkersCompleted(now: string)
      modifies this`workers, this`metrics
      ensures Value() == A.MarkWorkersCompleted(old(Value()), now)
    {
      hide A.FinishAll;
      for i := 0 to |workers|
        invariant |workers| == |old(workers)| && metrics == old(metrics)
        invariant forall k :: 0 <= k < i ==> workers[k] == A.Finish(old(workers)[k], now)
        invariant forall k :: i <= k < |workers| ==> workers[k] == old(workers)[k]
      {
        if workers[i].status == A.IsRunning {
          workers := workers[i := workers[i].(status := A.IsCompleted, completedAt := Some(now))];
        }
      }
      L.FinishAllAt(old(workers), workers, now);
      metrics := metrics.(activeWorkers := Some(0));
    }

    method AddCompletedAction(text: string)
      modifies this`completedActions
      ensures Value() == A.AddCompletedAction(old(Value()), text)
    {
      var clean := Strip(text);
      if clean != "" && clean !in completedActions {
        completedActions := completedActions + [clean];
      }
    }

    method RecordCommand(style: A.Style, command: string, now: string)
      modifies this`commands, this`metrics
      ensures Value() == A.RecordCommand(old(Value()), style, command, now)
    {
      var clean := style.redact(command);
      for i := 0 to |commands|
        invariant commands == old(commands) && metrics == old(metrics)
        invariant forall k :: 0 <= k < i ==> !(commands[k].command == clean && commands[k].running)
      {
        if commands[i].command == clean && commands[i].running {
          return;
        }
      }
      commands := commands + [A.Command(clean, None, None, true, "", now)];
      metrics := metrics.(commandsRun := Some(|commands|));
    }

    method CompleteLastCommand(style: A.Style, exitCode: int, duration: Option<real>, error: Option<string>)
      modifies this`commands
      ensures Value() == A.CompleteLastCommand(old(Value()), style, exitCode, duration, error)
    {
      hide A.EndLast;
      ghost var preview := if error.Some? && error.value != "" then Some(style.clean(error.value)) else None;
      var i := |commands|;
      while i > 0
        invariant 0 <= i <= |commands| && commands == old(commands)
        invariant forall k :: i <= k < |commands| ==> !commands[k].running
      {
        i := i - 1;
        if commands[i].running {
          L.EndLastIs(commands, i, exitCode, duration, preview);
          var c := commands[i].(running := false, exitCode := Some(exitCode), duration := duration);
          if error.Some? && error.value != "" {
            c := c.(preview := style.clean(error.value));
          }
          commands := commands[i := c];
          return;
        }
      }
      L.EndLastOfNone(commands, exitCode, duration, preview);
    }

    method RecordFileRead(path: string)
      modifies this`filesRead, this`metrics
      ensures Value() == A.RecordFileRead(old(Value()), path)
    {
      if path != "" && path !in filesRead {
        filesRead := filesRead + [path];
        metrics := metrics.(filesRead := Some(|filesRead|));
      }
    }

    method RecordFileChanged(path: string, operation: A.FileOperation, now: string)
      modifies this`filesChanged, this`metrics
      ensures Value() == A.RecordFileChanged(old(Value()), path, operation, now)
    {
      hide A.SetFile;
      if path == "" {
        return;
      }
      for i := 0 to |filesChanged|
        invariant filesChanged == old(filesChanged) && metrics == old(metrics)
        invariant forall k :: 0 <= k < i ==> filesChanged[k].path != path
      {
        if filesChanged[i].path == path {
          L.SetFileAt(filesChanged, i, A.FileChange(path, operation, now));
          filesChanged := filesChanged[i := A.FileChange(path, operation, now)];
          return;
        }
      }
      filesChanged := filesChanged + [A.FileChange(path, operation, now)];
      metrics := metrics.(filesChanged := Some(|filesChanged|));
    }

    // -------------------------------------------------------------- assignments of one event

    method SetAction(action: string)
      modifies this`currentAction
      ensures Value() == old(Value()).(currentAction := action)
    {
      currentAction := action;
    }

    method SetStatus(status: A.Status)
      modifies this`status
      ensures Value() == old(Value()).(status := status)
    {
      this.status := status;
    }

    method GoLive()
      modifies this`status, this`live
      ensures Value() == old(Value()).(status := A.Running, live := true)
    {
      status := A.Running;
      live := true;
    }

    method End(status: A.Status, e: A.Event)
      modifies this`status, this`live, this`endTime
      ensures Value() == A.Ended(old(Value()), status, e)
    {
      this.status := status;
      live := false;
      endTime := Some(e.timestamp);
    }

    method Become(workerType: string, title: string, status: A.Status)
      modifies this`workerType, this`title, this`status
      ensures Value() == old(Value()).(workerType := workerType, title := title, status := status)
    {
      this.workerType := workerType;
      this.title := title;
      this.status := status;
    }

    method Begin(name: string, title: string, status: A.Status, action: string, id: string,
                 workerStatus: A.WorkerStatus, now: string)
      modifies this
      ensures Value() == A.Begin(old(Value()), name, title, status, action, id, workerStatus, now)
    {
      hide Value, A.Say, A.RecordWorker;
      Become(name, title, status);
      SetAction(action);
      RecordWorker(id, name, A.Say(A.SpecialistRole), workerStatus, A.Say(A.WorkingAction), now);
    }

    method Wait(reason: string)
      modifies this`status, this`waitingReason
      ensures Value() == old(Value()).(status := A.Waiting, waitingReason := Some(reason))
    {
      status := A.Waiting;
      waitingReason := Some(reason);
    }

    method SetError(text: string)
      modifies this`errorSummary
      ensures Value() == old(Value()).(errorSummary := Some(text))
    {
      errorSummary := Some(text);
    }

    method SetMetrics(m: A.Metrics)
      modifies this`metrics
      ensures Value() == old(Value()).(metrics := m)
    {
      metrics := m;
    }

    // -------------------------------------------------------------- the dispatch, section by section

    method ApplyTask(e: A.Event, style: A.Style, now: string)
      modifies this
      ensures Value() == A.ApplyTask(old(Value()), e, style, now)
    {
      hide Value, A.Say, A.Begin, A.Or, GetOr, A.Ended, A.RecordWorker, A.AddCompletedAction, A.MarkWorkersCompleted;
      match e.kind
      case TaskStarted(objective, title) =>
        GoLive();
        SetAction(A.Or(objective, A.Say(A.StartingTask) + GetOr(title, taskId)));
        RecordWorker(A.Or(e.workerId, A.Say(A.SpecialistId)), A.Say(A.SpecialistRole), A.Say(A.SpecialistRole),
                     A.IsRunning, currentAction, now);
      case TaskCompleted(summary) =>
        End(A.Completed, e);
        AddCompletedAction(A.Say(A.CheckMark) + A.Or(summary, A.Say(A.TaskDone)));
        SetAction(A.Say(A.ExecutionCompleted));
        MarkWorkersCompleted(now);
      case TaskFailed(reason, error) =>
        End(A.Failed, e);
        var text := style.clean(A.Or(reason, A.Or(error, A.Say(A.TaskFailure))));
        SetError(text);
        SetAction(A.Say(A.FailedPrefix) + text);
      case TaskCancelled =>
        End(A.Cancelled, e);
        SetAction(A.Say(A.CancelledByUser));
      case TaskBlocked(reason) =>
        var text := A.Or(reason, A.Say(A.WaitingForTasks));
        Wait(text);
        SetAction(A.Say(A.WaitingPrefix) + text);
      case _ =>
    }

    method ApplyWorker(e: A.Event, style: A.Style, now: string)
      modifies this
      ensures Value() == A.ApplyWorker(old(Value()), e, style, now)
    {
      hide Value, A.Say, A.Begin, A.Or, GetOr, A.Ended, A.RecordWorker, A.UpdateWorkerStatus;
      match e.kind
      case WorkerStarted(id, role) =>
        SetStatus(A.Running);
        RecordWorker(A.Or(e.workerId, GetOr(id, A.Say(A.AnyWorkerId))), A.Say(A.SpecialistRole),
                     GetOr(role, A.Say(A.SpecialistRole)), A.IsRunning, A.Say(A.ActiveAction), now);
      case WorkerFinished(id) =>
        UpdateWorkerStatus(A.Or(e.workerId, GetOr(id, A.Say(A.AnyWorkerId))), A.IsCompleted, None, now);
      case WorkerFailed(id, reason) =>
        var text := style.clean(A.Or(reason, A.Say(A.WorkerError)));
        UpdateWorkerStatus(A.Or(e.workerId, GetOr(id, A.Say(A.AnyWorkerId))), A.HasFailed, Some(text), now);
      case _ =>
    }

    method ApplyManager(e: A.Event)
      modifies this
      ensures Value() == A.ApplyManager(old(Value()), e)
    {
      hide Value, A.Say, A.Begin, A.Or, GetOr, A.Ended, A.AddCompletedAction, Decimal;
      match e.kind
      case CycleStarted =>
        SetStatus(A.Running);
        SetAction(A.Say(A.AnalyzingWorkspace));
      case PlanCreated(count) =>
        AddCompletedAction(A.Say(A.FormulatedPlan) + Decimal(GetOr(count, 0)) + A.Say(A.TasksSuffix));
        SetAction(A.Say(A.AssigningWorkers));
      case ManagerWaiting(reason) =>
        var text := A.Or(reason, A.Say(A.WaitingForSpecialists));
        Wait(text);
        SetAction(A.Say(A.WaitingPrefix) + text);
      case StagnationDetected =>
        SetStatus(A.Stalled);
        SetAction(A.Say(A.StalledAction));
      case CycleCompleted(completed) =>
        if completed {
          End(A.Completed, e);
          SetAction(A.Say(A.PlanDone));
        }
      case _ =>
    }

    method ApplySearch(e: A.Event, query: string, crawler: Option<string>, count: Option<int>, now: string)
      modifies this
      ensures Value() == A.ApplySearch(old(Value()), e, query, crawler, count, now)
    {
      hide Value, A.Say, A.Or, GetOr, A.RecordWorker, A.CrawlerNumber, Decimal, Prefix;
      var id := A.Or(e.workerId, GetOr(crawler, A.Say(A.SearchCrawlerId)));
      SetMetrics(metrics.(sources := Some(GetOr(metrics.sources, 0) + GetOr(count, 0))));
      SetAction(A.Say(A.WebSearchPrefix) + Prefix(query, 40) + A.Say(A.ClosingQuote));
      RecordWorker(id, A.Say(A.CrawlerPrefix) + Decimal(A.CrawlerNumber(workers, id)), A.Say(A.WebSearchRole),
                   A.IsRunning,
                   A.Say(A.SearchingPrefix) + Prefix(query, 30) + A.Say(A.Ellipsis), now);
    }

    method ApplyResearch(e: A.Event, style: A.Style, now: string)
      modifies this
      ensures Value() == A.ApplyResearch(old(Value()), e, style, now)
    {
      hide Value, A.Say, A.Begin, A.Or, GetOr, A.Ended, A.AddCompletedAction, A.ApplySearch, A.ApplySource,
        A.ApplyResearchOutcome, Decimal;
      if e.kind.ResearchStarted? {
        Begin(A.Say(A.ResearcherName), A.Say(A.ResearcherTitle), A.Running, A.Say(A.InspectingProject),
              A.Say(A.ResearcherId), A.IsRunning, now);
      } else if e.kind.ResearchPlanCreated? {
        var count := GetOr(e.kind.questionsCount, e.kind.questions);
        AddCompletedAction(A.Say(A.IdentifiedPrefix) + Decimal(count) + A.Say(A.QuestionsSuffix));
        SetAction(A.Say(A.AllocatingCrawlers));
      } else if e.kind.SearchPerformed? {
        ApplySearch(e, e.kind.query, e.kind.crawlerId, e.kind.resultCount, now);
      } else if e.kind.SourceFetched? {
        ApplySource(e.kind.url, e.kind.sourceId);
      } else {
        ApplyResearchOutcome(e, style, now);
      }
    }

    method ApplySource(url: string, sourceId: Option<string>)
      modifies this
      ensures Value() == A.ApplySource(old(Value()), url, sourceId)
    {
      hide Value, A.Say, A.Or, GetOr, Prefix;
      SetMetrics(metrics.(sources := Some(GetOr(metrics.sources, 0) + 1)));
      SetAction(A.Say(A.EvaluatingSource) + Prefix(A.Or(url, GetOr(sourceId, A.Say(A.AnySource))), 40));
    }

    method ApplyFinding()
      modifies this
      ensures Value() == A.ApplyFinding(old(Value()))
    {
      hide Value, A.Say, GetOr, Decimal;
      var n: nat := GetOr(metrics.evidence, 0) + 1;
      SetMetrics(metrics.(evidence := Some(n), answered := Some(Decimal(if n <= 6 then n else 6) + A.Say(A.OfSix))));
      SetAction(A.Say(A.EvaluatingEvidence));
    }

    method ApplyResearchEnd(e: A.Event, now: string)
      modifies this
      ensures Value() == A.ApplyResearchEnd(old(Value()), e, now)
    {
      hide Value, A.Say, GetOr, A.Ended, A.AddCompletedAction, A.MarkWorkersCompleted, Decimal;
      End(A.Completed, e);
      AddCompletedAction(A.Say(A.ResearchDone) + Decimal(GetOr(metrics.sources, 0)) + A.Say(A.SourcesInfix)
                         + Decimal(GetOr(metrics.evidence, 0)) + A.Say(A.EvidenceSuffix));
      SetAction(A.Say(A.ResearchComplete));
      MarkWorkersCompleted(now);
    }

    method ApplyResearchOutcome(e: A.Event, style: A.Style, now: string)
      modifies this
      ensures Value() == A.ApplyResearchOutcome(old(Value()), e, style, now)
    {
      hide Value, A.Say, A.Or, A.Ended, A.AddCompletedAction, A.ApplyFinding, A.ApplyResearchEnd, Prefix;
      match e.kind
      case FindingCreated => ApplyFinding();
      case ContradictionDetected(statement) =>
        AddCompletedAction(A.Say(A.ContradictionPrefix) + Prefix(statement, 50));
      case ResearchCompleted => ApplyResearchEnd(e, now);
      case ResearchFailed(reason, error) =>
        End(A.Failed, e);
        var text := style.clean(A.Or(reason, A.Or(error, A.Say(A.ResearchFailure))));
        SetError(text);
        SetAction(A.Say(A.ResearchFailedPrefix) + text);
      case _ =>
    }

    method ApplyProgrammer(e: A.Event, now: string)
      modifies this
      ensures Value() == A.ApplyProgrammer(old(Value()), e, now)
    {
      hide Value, A.Say, A.Begin, A.ApplyInspection, A.ApplyModification, A.ApplyProgrammerOutcome;
      if e.kind.ProgrammerStarted? {
        Begin(A.Say(A.ProgrammerName), A.Say(A.ProgrammerTitle), A.Running, A.Say(A.AnalyzingCode),
              A.Say(A.ProgrammerId), A.IsRunning, now);
      } else if e.kind.InspectionPerformed? {
        ApplyInspection(e.kind.filePath);
      } else if e.kind.CodeModified? {
        ApplyModification(e.kind.filePath, now);
      } else {
        ApplyProgrammerOutcome(e, now);
      }
    }

    method ApplyInspection(path: string)
      modifies this
      ensures Value() == A.ApplyInspection(old(Value()), path)
    {
      hide Value, A.Say, A.Or, A.RecordFileRead;
      RecordFileRead(path);
      SetAction(A.Say(A.InspectedPrefix) + A.Or(path, A.Say(A.AnyFiles)));
    }

    method ApplyModification(path: string, now: string)
      modifies this
      ensures Value() == A.ApplyModification(old(Value()), path, now)
    {
      hide Value, A.Say, A.AddCompletedAction, A.RecordFileChanged;
      RecordFileChanged(path, A.FileModified, now);
      AddCompletedAction(A.Say(A.ModifiedPrefix) + path);
      SetAction(A.Say(A.ApplyingChanges));
    }

    method ApplyProgrammerOutcome(e: A.Event, now: string)
      modifies this
      ensures Value() == A.ApplyProgrammerOutcome(old(Value()), e, now)
    {
      hide Value, A.Say, A.Begin, A.Or, GetOr, A.Ended, A.RecordWorker, A.AddCompletedAction;
      if e.kind.TestRunStarted? {
        SetAction(A.Say(A.RunningTests));
      } else if e.kind.TestRunCompleted? {
        AddCompletedAction(if e.kind.passed then A.Say(A.TestsPassed) else A.Say(A.TestsFailed));
      } else if e.kind.ProgrammerRequested? {
        Begin(A.Say(A.ProgrammerName), A.Say(A.ProgrammerRequestedTitle), A.Pending,
              A.Say(A.WorkOrderPrefix) + GetOr(e.kind.workOrderId, A.Say(A.NotAvailable)), A.Say(A.ProgrammerId),
              A.IsRequested, now);
      } else if e.kind.ProgrammerCompleted? {
        End(A.Completed, e);
        AddCompletedAction(A.Say(A.ChangesVerified));
        SetAction(A.Say(A.ImplementationComplete));
      } else if e.kind.ProgrammerFailed? {
        End(A.Failed, e);
        SetAction(A.Say(A.FailedPrefix) + GetOr(e.kind.failure, A.Say(A.ExecutionFailure)));
      } else if e.kind.ProgrammerCancelled? {
        End(A.Cancelled, e);
        SetAction(A.Say(A.CancelledPrefix) + GetOr(e.kind.cause, A.Say(A.ExecutionCancelled)));
      }
    }

    method ApplyTester(e: A.Event, now: string)
      modifies this
      ensures Value() == A.ApplyTester(old(Value()), e, now)
    {
      hide Value, A.Say, A.Begin, A.Or, GetOr, A.Ended, A.RecordWorker, A.AddCompletedAction;
      if e.kind.TesterStarted? {
        Begin(A.Say(A.TesterName), A.Say(A.TesterTitle), A.Running, A.Say(A.PlanningTests), A.Say(A.TesterId),
              A.IsRunning, now);
      } else if e.kind.TestStarted? {
        SetAction(A.Say(A.ExecutingTest) + GetOr(e.kind.testName, A.Say(A.AnyTest)));
      } else if e.kind.TestCompleted? {
        AddCompletedAction(A.Say(A.TestPassed) + GetOr(e.kind.testName, A.Say(A.AnyTest)));
      } else if e.kind.DefectDetected? {
        AddCompletedAction(A.Say(A.DefectPrefix)
                           + A.Or(e.kind.description, GetOr(e.kind.defectId, A.Say(A.AnyDefect))));
      } else if e.kind.TesterCompleted? {
        End(A.Completed, e);
        AddCompletedAction(A.Say(A.VerificationDone));
        SetAction(A.Say(A.VerificationComplete));
      }
    }

    method ApplyToolStart(toolId: string, args: A.ToolArguments, style: A.Style, now: string)
      modifies this
      ensures Value() == A.ApplyToolStart(old(Value()), toolId, args, style, now)
    {
      hide Value, A.Say, A.Begin, A.Or, GetOr, A.Ended, A.RecordCommand, A.RecordFileRead, A.RecordFileChanged,
        A.EndsCommand, A.ReadsFile, Contains, Prefix;
      var path := A.Or(args.path, args.filePath);
      if A.EndsCommand(toolId) || Contains(toolId, "exec") {
        var sanitized := style.redact(A.Or(args.command, A.Or(args.cmd, toolId)));
        SetAction(A.Say(A.RunningPrefix) + Prefix(sanitized, 40));
        RecordCommand(style, sanitized, now);
      } else if A.ReadsFile(toolId) || Contains(toolId, "stat_file") {
        if path != "" {
          RecordFileRead(path);
          SetAction(A.Say(A.ReadingPrefix) + path);
        }
      } else if Contains(toolId, "write_file") || Contains(toolId, "create_file") {
        if path != "" {
          RecordFileChanged(path, A.FileCreated, now);
          SetAction(A.Say(A.WritingPrefix) + path);
        }
      } else if Contains(toolId, "delete_file") {
        if path != "" {
          RecordFileChanged(path, A.FileDeleted, now);
          SetAction(A.Say(A.DeletingPrefix) + path);
        }
      } else if Contains(toolId, "list_dir") || Contains(toolId, "list_directory") {
        SetAction(A.Say(A.ScanningPrefix) + A.Or(args.path, GetOr(args.directory, A.Say(A.CurrentDirectory))));
      } else if Contains(toolId, "web.search") || Contains(toolId, "web_search") {
        SetAction(A.Say(A.WebSearchPrefix) + Prefix(args.query, 35) + A.Say(A.ClosingQuote));
      }
    }

    method ApplyTool(e: A.Event, style: A.Style, now: string)
      modifies this
      ensures Value() == A.ApplyTool(old(Value()), e, style, now)
    {
      hide Value, A.ApplyToolStart, A.ApplyToolEnd, A.ApplyToolFailure;
      if e.kind.ToolStarted? {
        ApplyToolStart(e.kind.toolId, e.kind.arguments, style, now);
      } else if e.kind.ToolCompleted? {
        ApplyToolEnd(e.kind.toolId, e.kind.exitCode, e.kind.duration, style);
      } else if e.kind.ToolFailed? {
        ApplyToolFailure(e.kind.toolId, e.kind.failure, style);
      }
    }

    method ApplyToolEnd(toolId: string, exitCode: Option<int>, duration: Option<real>, style: A.Style)
      modifies this
      ensures Value() == A.ApplyToolEnd(old(Value()), toolId, exitCode, duration, style)
    {
      hide Value, A.Say, GetOr, A.CompleteLastCommand, A.AddCompletedAction, A.EndsCommand, A.ReadsFile, Decimal;
      if A.EndsCommand(toolId) {
        CompleteLastCommand(style, GetOr(exitCode, 0), duration, None);
      } else if A.ReadsFile(toolId) {
        var count := |filesRead|;
        if count % 5 == 0 && count > 0 {
          AddCompletedAction(A.Say(A.FilesInspected) + Decimal(count) + A.Say(A.FilesSuffix));
        }
      }
    }

    method ApplyToolFailure(toolId: string, failure: Option<string>, style: A.Style)
      modifies this
      ensures Value() == A.ApplyToolFailure(old(Value()), toolId, failure, style)
    {
      hide Value, A.Say, GetOr, A.CompleteLastCommand, A.IsShell;
      var error := GetOr(failure, A.Say(A.ToolFailure));
      if A.IsShell(toolId) {
        CompleteLastCommand(style, 1, None, Some(error));
      }
      SetAction(A.Say(A.ToolFailurePrefix) + style.clean(error));
    }

    method ApplyProvider(e: A.Event)
      modifies this
      ensures Value() == A.ApplyProvider(old(Value()), e)
    {
      hide Value, A.Say, A.ApplyUnavailable;
      if e.kind.RateLimited? {
        var text := A.Say(A.RateLimitedReason);
        Wait(text);
        SetAction(text);
      } else if e.kind.ProviderUnavailable? {
        ApplyUnavailable(e.kind.providerId);
      }
    }

    method ApplyUnavailable(id: Option<string>)
      modifies this
      ensures Value() == A.ApplyUnavailable(old(Value()), id)
    {
      hide Value, A.Say, GetOr;
      SetStatus(A.Failed);
      var text := A.Say(A.ProviderPrefix) + GetOr(id, A.Say(A.AnyProvider)) + A.Say(A.UnavailableSuffix);
      SetError(text);
      SetAction(text);
    }

    method ApplyEvent(e: A.Event, style: A.Style, now: string)
      modifies this
      ensures Value() == A.Apply(old(Value()), e, style, now)
    {
      hide Value, A.Say, A.Begin, A.Or, GetOr, A.Ended, A.ApplyTask, A.ApplyWorker, A.ApplyManager, A.ApplyResearch,
        A.ApplyProgrammer, A.ApplyTester, A.ApplyTool, A.ApplyProvider;
      match A.SectionOf(e.kind)
      case TaskSection => ApplyTask(e, style, now);
      case WorkerSection => ApplyWorker(e, style, now);
      case ManagerSection => ApplyManager(e);
      case ResearchSection => ApplyResearch(e, style, now);
      case ProgrammerSection => ApplyProgrammer(e, now);
      case TesterSection => ApplyTester(e, now);
      case ToolSection => ApplyTool(e, style, now);
      case ProviderSection => ApplyProvider(e);
    }

    method Touch(e: A.Event)
      modifies this
      ensures Value() == A.Touch(old(Value()), e)
    {
      hide A.Say, Contains, Lower;
      if startTime == "" {
        startTime := e.timestamp;
      }
      if e.workerId != "" {
        workerId := e.workerId;
        var id := Lower(e.workerId);
        if Contains(id, "researcher") {
          workerType := A.Say(A.ResearcherName);
          title := A.Say(A.ResearcherTitle);
        } else if Contains(id, "programmer") {
          workerType := A.Say(A.ProgrammerName);
          title := A.Say(A.ProgrammerTitle);
        } else if Contains(id, "tester") {
          workerType := A.Say(A.TesterName);
          title := A.Say(A.TesterTitle);
        } else if Contains(id, "crawler") {
          workerType := A.Say(A.CrawlerType);
        }
      }
    }

    method Take(e: A.Event, style: A.Style, now: string)
      modifies this
      ensures Value() == A.Apply(A.Touch(old(Value()), e), e, style, now)
    {
      hide Value, A.Touch, A.Apply;
      Touch(e);
      ApplyEvent(e, style, now);
    }
  }

  /** A projection step, with the activities and the seen ids taken apart. */
  lemma {:induction false} ProjectIs(m: map<string, A.Activity>, seen: set<string>, d: P.Delivery, style: A.Style)
    ensures var existing := P.Existing(P.State(m, {}), d);
      P.Project(P.State(m, seen), d, style) ==
        if d.event.eventId in seen then P.State(m[P.KeyOf(d.event) := existing], seen)
        else P.State(m[P.KeyOf(d.event) := A.Apply(A.Touch(existing, d.event), d.event, style, d.now)],
                     seen + {d.event.eventId})
  {
    hide A.Apply, A.Touch, A.NewActivity, P.KeyOf;
  }

  // ---------------------------------------------------------------- the projector

  class WorkforceActivityProjector {
    const style: A.Style
    var activities: map<string, ExecutionActivity>
    var seenEventIds: set<string>

    /** No two keys share an object. */
    ghost predicate Valid()
      reads this`activities
    {
      forall k, l :: k in activities && l in activities && k != l ==> activities[k] != activities[l]
    }

    ghost function Contents(): (m: map<string, A.Activity>)
      reads this`activities, activities.Values
      ensures m.Keys == activities.Keys && forall k :: k in activities ==> m[k] == activities[k].Value()
    {
      map k | k in activities :: activities[k].Value()
    }

    ghost function View(): P.State
      reads this, activities.Values
    {
      P.State(Contents(), seenEventIds)
    }

    constructor (style: A.Style)
      ensures Valid() && View() == P.START && this.style == style
    {
      this.style, activities, seenEventIds := style, map[], {};
    }

    method GetOrCreateActivity(e: A.Event, now: string) returns (act: ExecutionActivity)
      requires Valid()
      modifies this`activities
      ensures Valid() && fresh(activities.Values - old(activities.Values))
      ensures var k := P.KeyOf(e);
        && k in activities && activities[k] == act && activities == old(activities)[k := act]
        && (k in old(activities) ==> act == old(activities)[k])
        && (k !in old(activities) ==> fresh(act) && act.Value() == A.NewActivity(e, now))
    {
      var key := P.KeyOf(e);
      if key !in activities {
        var created := new ExecutionActivity(e, now);
        activities := activities[key := created];
      }
      act := activities[key];
      assert activities == old(activities)[key := act];
    }

    /** One event: a repeated id changes nothing but the dictionary entry it needs, a new one its own activity. */
    method ProjectEvent(e: A.Event, now: string) returns (act: ExecutionActivity)
      requires Valid()
      modifies this`activities, this`seenEventIds, activities.Values
      ensures Valid() && activities == old(activities)[P.KeyOf(e) := act]
      ensures if P.KeyOf(e) in old(activities) then act == old(activities)[P.KeyOf(e)] else fresh(act)
      ensures View() == P.Project(old(View()), P.Delivery(e, now), style)
    {
      if e.eventId in seenEventIds {
        act := Refer(e, now);
      } else {
        act := Accept(e, now);
      }
    }

    /** An event that is new: its id is noted, then its activity takes it. */
    method Accept(e: A.Event, now: string) returns (act: ExecutionActivity)
      requires Valid() && e.eventId !in seenEventIds
      modifies this`activities, this`seenEventIds, activities.Values
      ensures Valid() && activities == old(activities)[P.KeyOf(e) := act]
      ensures if P.KeyOf(e) in old(activities) then act == old(activities)[P.KeyOf(e)] else fresh(act)
      ensures View() == P.Project(old(View()), P.Delivery(e, now), style)
    {
      hide A.Touch, A.Apply, A.NewActivity, P.KeyOf, P.Project, P.Existing, ExecutionActivity.Value, Contents;
      ProjectIs(Contents(), seenEventIds, P.Delivery(e, now), style);
      seenEventIds := seenEventIds + {e.eventId};
      act := Absorb(e, now);
    }

    /** A repeated event: the activity it belongs to, made if it is missing. */
    method Refer(e: A.Event, now: string) returns (act: ExecutionActivity)
      requires Valid() && e.eventId in seenEventIds
      modifies this`activities
      ensures Valid() && activities == old(activities)[P.KeyOf(e) := act]
      ensures if P.KeyOf(e) in old(activities) then act == old(activities)[P.KeyOf(e)] else fresh(act)
      ensures View() == P.Project(old(View()), P.Delivery(e, now), style)
    {
      hide A.NewActivity, P.KeyOf, P.Project, ExecutionActivity.Value, Contents;
      ProjectIs(Contents(), seenEventIds, P.Delivery(e, now), style);
      act := GetOrCreateActivity(e, now);
      OneChanged(old(Contents()), P.KeyOf(e), act.Value());
    }

    method Absorb(e: A.Event, now: string) returns (act: ExecutionActivity)
      requires Valid()
      modifies this`activities, activities.Values
      ensures Valid() && activities == old(activities)[P.KeyOf(e) := act]
      ensures if P.KeyOf(e) in old(activities) then act == old(activities)[P.KeyOf(e)] else fresh(act)
      ensures var before := P.Existing(P.State(old(Contents()), {}), P.Delivery(e, now));
        Contents() == old(Contents())[P.KeyOf(e) := A.Apply(A.Touch(before, e), e, style, now)]
    {
      hide A.Touch, A.Apply, A.NewActivity, P.KeyOf, ExecutionActivity.Value, Contents;
      act := GetOrCreateActivity(e, now);
      act.Take(e, style, now);
      assert forall l :: l in activities && l != P.KeyOf(e) ==> activities[l] != act;
      OneChanged(old(Contents()), P.KeyOf(e), act.Value());
    }

    /** The contents after a change to the activity at `k` alone. */
    ghost method OneChanged(before: map<string, A.Activity>, k: string, v: A.Activity)
      requires activities.Keys == before.Keys + {k} && k in activities && activities[k].Value() == v
      requires forall l :: l in activities && l != k ==> activities[l].Value() == before[l]
      ensures Contents() == before[k := v]
    {
    }
  }
}
