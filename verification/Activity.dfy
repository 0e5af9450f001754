/** What the user sees of a piece of work, and how one technical event changes it. */
module Activities {
  import opened Wrappers
  import opened Strings

  datatype Status = Pending | Running | Waiting | Stalled | Completed | Failed | Cancelled

  datatype WorkerStatus = IsRunning | IsCompleted | HasFailed | IsRequested

  datatype FileOperation = FileCreated | FileModified | FileDeleted

  datatype Command = Command(
    command: string, exitCode: Option<int>, duration: Option<real>, running: bool, preview: string, timestamp: string)

  datatype FileChange = FileChange(path: string, operation: FileOperation, timestamp: string)

  datatype Worker = Worker(
    id: string, name: string, role: string, status: WorkerStatus, action: string,
    error: Option<string>, startedAt: string, completedAt: Option<string>)

  /** The entries of the metrics dictionary, each absent until it is first set. */
  datatype Metrics = Metrics(
    sources: Option<int>, evidence: Option<nat>, answered: Option<string>, commandsRun: Option<nat>,
    filesRead: Option<nat>, filesChanged: Option<nat>, activeWorkers: Option<nat>)

  const NO_METRICS := Metrics(None, None, None, None, None, None, None)

  datatype Activity = Activity(
    projectId: string, taskId: string, correlationId: string, workerId: string, workerType: string,
    title: string, status: Status, startTime: string, endTime: Option<string>, currentAction: string,
    completedActions: seq<string>, commands: seq<Command>, filesRead: seq<string>,
    filesChanged: seq<FileChange>, workers: seq<Worker>, metrics: Metrics,
    errorSummary: Option<string>, waitingReason: Option<string>, live: bool)

  /** The event kinds that the projector distinguishes, each with the payload entries it reads. */
  datatype Kind =
    | TaskStarted(objective: string, title: Option<string>)
    | TaskCompleted(summary: string)
    | TaskFailed(reason: string, error: string)
    | TaskCancelled
    | TaskBlocked(reason: string)
    | WorkerStarted(workerId: Option<string>, role: Option<string>)
    | WorkerFinished(workerId: Option<string>)
    | WorkerFailed(workerId: Option<string>, reason: string)
    | CycleStarted
    | PlanCreated(tasksCount: Option<int>)
    | ManagerWaiting(reason: string)
    | StagnationDetected
    | CycleCompleted(completed: bool)
    | ResearchStarted
    | ResearchPlanCreated(questionsCount: Option<int>, questions: nat)
    | SearchPerformed(query: string, crawlerId: Option<string>, resultCount: Option<int>)
    | SourceFetched(url: string, sourceId: Option<string>)
    | FindingCreated
    | ContradictionDetected(statement: string)
    | ResearchCompleted
    | ResearchFailed(reason: string, error: string)
    | ProgrammerStarted
    | InspectionPerformed(filePath: string)
    | CodeModified(filePath: string)
    | TestRunStarted
    | TestRunCompleted(passed: bool)
    | ProgrammerRequested(workOrderId: Option<string>)
    | ProgrammerCompleted
    | ProgrammerFailed(failure: Option<string>)
    | ProgrammerCancelled(cause: Option<string>)
    | TesterStarted
    | TestStarted(testName: Option<string>)
    | TestCompleted(testName: Option<string>)
    | DefectDetected(description: string, defectId: Option<string>)
    | TesterCompleted
    | ToolStarted(toolId: string, arguments: ToolArguments)
    | ToolCompleted(toolId: string, exitCode: Option<int>, duration: Option<real>)
    | ToolFailed(toolId: string, failure: Option<string>)
    | RateLimited
    | ProviderUnavailable(providerId: Option<string>)
    | OtherKind

  datatype ToolArguments = ToolArguments(
    command: string, cmd: string, path: string, filePath: string, directory: Option<string>, query: string)

  /** An event; an id that is missing is the empty string. */
  datatype Event = Event(
    eventId: string, kind: Kind, timestamp: string, correlationId: string,
    projectId: string, taskId: string, workerId: string)

  /** The two text filters that the projection applies: redaction of secrets, and tidying of error messages. */
  datatype Style = Style(redact: string -> string, clean: string -> string)

  /** The fixed texts that an activity shows. */
  datatype Phrase =
    | StartingTask | SpecialistId | SpecialistRole | CheckMark | TaskDone | ExecutionCompleted | TaskFailure
    | FailedPrefix | CancelledByUser | WaitingForTasks | WaitingPrefix | AnyWorkerId | ActiveAction | WorkerError
    | AnalyzingWorkspace | FormulatedPlan | TasksSuffix | AssigningWorkers | WaitingForSpecialists | StalledAction
    | PlanDone | ResearcherName | ResearcherTitle | InspectingProject | ResearcherId | WorkingAction
    | IdentifiedPrefix | QuestionsSuffix | AllocatingCrawlers | SearchCrawlerId | WebSearchPrefix | ClosingQuote
    | CrawlerPrefix | WebSearchRole | SearchingPrefix | Ellipsis | EvaluatingSource | AnySource | OfSix
    | EvaluatingEvidence | ContradictionPrefix | ResearchDone | SourcesInfix | EvidenceSuffix | ResearchComplete
    | ResearchFailure | ResearchFailedPrefix | ProgrammerName | ProgrammerTitle | AnalyzingCode | ProgrammerId
    | InspectedPrefix | AnyFiles | ModifiedPrefix | ApplyingChanges | RunningTests | TestsPassed | TestsFailed
    | ProgrammerRequestedTitle | WorkOrderPrefix | NotAvailable | ChangesVerified | ImplementationComplete
    | ExecutionFailure | CancelledPrefix | ExecutionCancelled | TesterName | TesterTitle | PlanningTests | TesterId
    | ExecutingTest | AnyTest | TestPassed | DefectPrefix | AnyDefect | VerificationDone | VerificationComplete
    | RunningPrefix | ReadingPrefix | WritingPrefix | DeletingPrefix | ScanningPrefix | CurrentDirectory
    | FilesInspected | FilesSuffix | ToolFailure | ToolFailurePrefix | RateLimitedReason | ProviderPrefix
    | AnyProvider | UnavailableSuffix | CrawlerType | ManagerType | DefaultTitle | InitialAction

  function Say(p: Phrase): string {
    match p
    case StartingTask => "Starting task: "
    case SpecialistId => "worker.specialist"
    case SpecialistRole => "Specialist"
    case CheckMark => "✓ "
    case TaskDone => "Task completed successfully"
    case ExecutionCompleted => "Execution completed"
    case TaskFailure => "Task execution encountered a failure"
    case FailedPrefix => "Failed: "
    case CancelledByUser => "Execution cancelled by user"
    case WaitingForTasks => "Waiting for prerequisite tasks"
    case WaitingPrefix => "Waiting: "
    case AnyWorkerId => "worker"
    case ActiveAction => "Active"
    case WorkerError => "Worker encountered an error"
    case AnalyzingWorkspace => "Analyzing workspace and formulating execution plan"
    case FormulatedPlan => "✓ Formulated work plan ("
    case TasksSuffix => " tasks)"
    case AssigningWorkers => "Assigning specialist workers"
    case WaitingForSpecialists => "Waiting for active specialists to finish"
    case StalledAction => "Stalled — progress not detected across consecutive cycles"
    case PlanDone => "Orchestration plan completed"
    case ResearcherName => "Researcher"
    case ResearcherTitle => "Researcher — Running"
    case InspectingProject => "Inspecting project structure & domain context"
    case ResearcherId => "worker.researcher"
    case WorkingAction => "Working"
    case IdentifiedPrefix => "✓ Identified "
    case QuestionsSuffix => " research questions"
    case AllocatingCrawlers => "Allocating search and doc crawlers"
    case SearchCrawlerId => "crawler.search"
    case WebSearchPrefix => "Web search: \""
    case ClosingQuote => "\""
    case CrawlerPrefix => "Crawler #"
    case WebSearchRole => "Web Search"
    case SearchingPrefix => "Searching: \""
    case Ellipsis => "...\""
    case EvaluatingSource => "Evaluating source: "
    case AnySource => "source"
    case OfSix => "/6"
    case EvaluatingEvidence => "Evaluating evidence & cross-checking contradictions"
    case ContradictionPrefix => "⚠️ Cross-checked contradiction: "
    case ResearchDone => "✓ Research completed ("
    case SourcesInfix => " sources, "
    case EvidenceSuffix => " evidence evaluated)"
    case ResearchComplete => "Research complete"
    case ResearchFailure => "Research failed"
    case ResearchFailedPrefix => "Research failed: "
    case ProgrammerName => "Programmer"
    case ProgrammerTitle => "Programmer — Active"
    case AnalyzingCode => "Analyzing AST and target code files"
    case ProgrammerId => "worker.programmer"
    case InspectedPrefix => "Inspected "
    case AnyFiles => "files"
    case ModifiedPrefix => "✓ Modified "
    case ApplyingChanges => "Applying code modifications"
    case RunningTests => "Running regression test suite"
    case TestsPassed => "✓ Regression tests passed"
    case TestsFailed => "❌ Tests failed — triggering rollback"
    case ProgrammerRequestedTitle => "Programmer — Requested"
    case WorkOrderPrefix => "Work order requested: "
    case NotAvailable => "N/A"
    case ChangesVerified => "✓ Code modifications verified"
    case ImplementationComplete => "Implementation complete"
    case ExecutionFailure => "Execution failed"
    case CancelledPrefix => "Cancelled: "
    case ExecutionCancelled => "Execution cancelled"
    case TesterName => "Tester"
    case TesterTitle => "Tester — Active"
    case PlanningTests => "Planning QA verification tests"
    case TesterId => "worker.tester"
    case ExecutingTest => "Executing test: "
    case AnyTest => "test"
    case TestPassed => "✓ Test passed: "
    case DefectPrefix => "⚠️ Detected defect: "
    case AnyDefect => "Defect"
    case VerificationDone => "✓ Independent QA verification completed"
    case VerificationComplete => "QA verification complete"
    case RunningPrefix => "Running: $ "
    case ReadingPrefix => "Reading: "
    case WritingPrefix => "Writing: "
    case DeletingPrefix => "Deleting: "
    case ScanningPrefix => "Scanning directory: "
    case CurrentDirectory => "."
    case FilesInspected => "✓ Inspected "
    case FilesSuffix => " project files"
    case ToolFailure => "Tool execution failed"
    case ToolFailurePrefix => "Tool failure: "
    case RateLimitedReason => "Inference provider rate-limited — waiting before retry"
    case ProviderPrefix => "Provider '"
    case AnyProvider => "LLM"
    case UnavailableSuffix => "' unavailable"
    case CrawlerType => "Crawler"
    case ManagerType => "Manager"
    case DefaultTitle => "Workforce Execution"
    case InitialAction => "Initialized"
  }

  /** Python's `a or b` on strings. */
  function Or(a: string, b: string): string { if a != "" then a else b }

  // ---------------------------------------------------------------- lists inside an activity

  predicate HasWorker(ws: seq<Worker>, id: string) { exists i :: 0 <= i < |ws| && ws[i].id == id }

  function SetWorker(ws: seq<Worker>, id: string, f: Worker -> Worker): seq<Worker> {
    if ws == [] then []
    else if ws[0].id == id then [f(ws[0])] + ws[1..]
    else [ws[0]] + SetWorker(ws[1..], id, f)
  }

  function RunningCount(ws: seq<Worker>): nat {
    if ws == [] then 0 else (if ws[0].status == IsRunning then 1 else 0) + RunningCount(ws[1..])
  }

  function Finish(w: Worker, now: string): Worker {
    if w.status == IsRunning then w.(status := IsCompleted, completedAt := Some(now)) else w
  }

  function FinishAll(ws: seq<Worker>, now: string): seq<Worker> {
    if ws == [] then [] else [Finish(ws[0], now)] + FinishAll(ws[1..], now)
  }

  /** The crawler's place among the crawlers, counted from 1; the next free place if it is new. */
  function CrawlerNumber(ws: seq<Worker>, id: string): nat {
    if ws == [] then 1
    else if !Contains(Lower(ws[0].id), "crawler") then CrawlerNumber(ws[1..], id)
    else if ws[0].id == id then 1
    else 1 + CrawlerNumber(ws[1..], id)
  }

  predicate IsRunningCommand(cs: seq<Command>, command: string) {
    exists i :: 0 <= i < |cs| && cs[i].command == command && cs[i].running
  }

  /** The last running command ends. */
  function EndLast(cs: seq<Command>, exitCode: int, duration: Option<real>, preview: Option<string>): seq<Command> {
    if cs == [] then []
    else
      var n := |cs| - 1;
      if cs[n].running then
        cs[..n] + [cs[n].(running := false, exitCode := Some(exitCode), duration := duration,
                          preview := GetOr(preview, cs[n].preview))]
      else EndLast(cs[..n], exitCode, duration, preview) + [cs[n]]
  }

  predicate HasPath(fs: seq<FileChange>, path: string) { exists i :: 0 <= i < |fs| && fs[i].path == path }

  function SetFile(fs: seq<FileChange>, change: FileChange): seq<FileChange> {
    if fs == [] then []
    else if fs[0].path == change.path then [change] + fs[1..]
    else [fs[0]] + SetFile(fs[1..], change)
  }

  // ---------------------------------------------------------------- the helper operations

  function RecordWorker(a: Activity, id: string, name: string, role: string, status: WorkerStatus, action: string,
                        now: string): Activity {
    if HasWorker(a.workers, id) then
      a.(workers := SetWorker(a.workers, id, (w: Worker) => w.(status := status, action := action)))
    else
      var ws := a.workers + [Worker(id, name, role, status, action, None, now, None)];
      a.(workers := ws, metrics := a.metrics.(activeWorkers := Some(RunningCount(ws))))
  }

  function WithStatus(w: Worker, status: WorkerStatus, error: Option<string>, now: string): Worker {
    w.(status := status,
       error := if error.Some? && error.value != "" then error else w.error,
       completedAt := if status == IsCompleted then Some(now) else w.completedAt)
  }

  function UpdateWorkerStatus(a: Activity, id: string, status: WorkerStatus, error: Option<string>,
                              now: string): Activity {
    var ws := SetWorker(a.workers, id, (w: Worker) => WithStatus(w, status, error, now));
    a.(workers := ws, metrics := a.metrics.(activeWorkers := Some(RunningCount(ws))))
  }

  function MarkWorkersCompleted(a: Activity, now: string): Activity {
    a.(workers := FinishAll(a.workers, now), metrics := a.metrics.(activeWorkers := Some(0)))
  }

  function AddCompletedAction(a: Activity, text: string): Activity {
    var clean := Strip(text);
    if clean != "" && clean !in a.completedActions then a.(completedActions := a.completedActions + [clean]) else a
  }

  function RecordCommand(a: Activity, style: Style, command: string, now: string): Activity {
    var clean := style.redact(command);
    if IsRunningCommand(a.commands, clean) then a
    else
      a.(commands := a.commands + [Command(clean, None, None, true, "", now)],
         metrics := a.metrics.(commandsRun := Some(|a.commands| + 1)))
  }

  function CompleteLastCommand(a: Activity, style: Style, exitCode: int, duration: Option<real>,
                               error: Option<string>): Activity {
    a.(commands := EndLast(a.commands, exitCode, duration,
                           if error.Some? && error.value != "" then Some(style.clean(error.value)) else None))
  }

  function RecordFileRead(a: Activity, path: string): Activity {
    if path != "" && path !in a.filesRead then
      a.(filesRead := a.filesRead + [path], metrics := a.metrics.(filesRead := Some(|a.filesRead| + 1)))
    else a
  }

  function RecordFileChanged(a: Activity, path: string, operation: FileOperation, now: string): Activity {
    var change := FileChange(path, operation, now);
    if path == "" then a
    else if HasPath(a.filesChanged, path) then a.(filesChanged := SetFile(a.filesChanged, change))
    else
      a.(filesChanged := a.filesChanged + [change],
         metrics := a.metrics.(filesChanged := Some(|a.filesChanged| + 1)))
  }

  // ---------------------------------------------------------------- one event

  /** A specialist of the given name starts or is requested. */
  function Begin(a: Activity, name: string, title: string, status: Status, action: string, id: string,
                 workerStatus: WorkerStatus, now: string): Activity
  {
    RecordWorker(a.(workerType := name, title := title, status := status, currentAction := action),
                 id, name, Say(SpecialistRole), workerStatus, Say(WorkingAction), now)
  }

  function Ended(a: Activity, status: Status, e: Event): Activity {
    a.(status := status, live := false, endTime := Some(e.timestamp))
  }

  function ApplyTask(a: Activity, e: Event, style: Style, now: string): Activity {
    match e.kind
    case TaskStarted(objective, title) =>
      var action := Or(objective, Say(StartingTask) + GetOr(title, a.taskId));
      RecordWorker(a.(status := Running, live := true, currentAction := action),
                   Or(e.workerId, Say(SpecialistId)), Say(SpecialistRole), Say(SpecialistRole), IsRunning, action, now)
    case TaskCompleted(summary) =>
      var b := AddCompletedAction(Ended(a, Completed, e), Say(CheckMark) + Or(summary, Say(TaskDone)));
      MarkWorkersCompleted(b.(currentAction := Say(ExecutionCompleted)), now)
    case TaskFailed(reason, error) =>
      var text := style.clean(Or(reason, Or(error, Say(TaskFailure))));
      Ended(a, Failed, e).(errorSummary := Some(text), currentAction := Say(FailedPrefix) + text)
    case TaskCancelled => Ended(a, Cancelled, e).(currentAction := Say(CancelledByUser))
    case TaskBlocked(reason) =>
      var text := Or(reason, Say(WaitingForTasks));
      a.(status := Waiting, waitingReason := Some(text), currentAction := Say(WaitingPrefix) + text)
    case _ => a
  }

  function ApplyWorker(a: Activity, e: Event, style: Style, now: string): Activity {
    match e.kind
    case WorkerStarted(id, role) =>
      RecordWorker(a.(status := Running), Or(e.workerId, GetOr(id, Say(AnyWorkerId))), Say(SpecialistRole),
                   GetOr(role, Say(SpecialistRole)), IsRunning, Say(ActiveAction), now)
    case WorkerFinished(id) =>
      UpdateWorkerStatus(a, Or(e.workerId, GetOr(id, Say(AnyWorkerId))), IsCompleted, None, now)
    case WorkerFailed(id, reason) =>
      UpdateWorkerStatus(a, Or(e.workerId, GetOr(id, Say(AnyWorkerId))), HasFailed,
                         Some(style.clean(Or(reason, Say(WorkerError)))), now)
    case _ => a
  }

  function ApplyManager(a: Activity, e: Event): Activity {
    match e.kind
    case CycleStarted =>
      a.(status := Running, currentAction := Say(AnalyzingWorkspace))
    case PlanCreated(count) =>
      AddCompletedAction(a, Say(FormulatedPlan) + Decimal(GetOr(count, 0)) + Say(TasksSuffix))
        .(currentAction := Say(AssigningWorkers))
    case ManagerWaiting(reason) =>
      var text := Or(reason, Say(WaitingForSpecialists));
      a.(status := Waiting, waitingReason := Some(text), currentAction := Say(WaitingPrefix) + text)
    case StagnationDetected =>
      a.(status := Stalled, currentAction := Say(StalledAction))
    case CycleCompleted(completed) =>
      if completed then Ended(a, Completed, e).(currentAction := Say(PlanDone)) else a
    case _ => a
  }

  function ApplySearch(a: Activity, e: Event, query: string, crawler: Option<string>, count: Option<int>,
                       now: string): Activity {
    var id := Or(e.workerId, GetOr(crawler, Say(SearchCrawlerId)));
    RecordWorker(a.(metrics := a.metrics.(sources := Some(GetOr(a.metrics.sources, 0) + GetOr(count, 0))),
                    currentAction := Say(WebSearchPrefix) + Prefix(query, 40) + Say(ClosingQuote)),
                 id, Say(CrawlerPrefix) + Decimal(CrawlerNumber(a.workers, id)), Say(WebSearchRole), IsRunning,
                 Say(SearchingPrefix) + Prefix(query, 30) + Say(Ellipsis), now)
  }

  function ApplyResearch(a: Activity, e: Event, style: Style, now: string): Activity {
    match e.kind
    case ResearchStarted =>
      Begin(a, Say(ResearcherName), Say(ResearcherTitle), Running, Say(InspectingProject), Say(ResearcherId), IsRunning,
            now)
    case ResearchPlanCreated(count, questions) =>
      AddCompletedAction(a, Say(IdentifiedPrefix) + Decimal(GetOr(count, questions)) + Say(QuestionsSuffix))
        .(currentAction := Say(AllocatingCrawlers))
    case SearchPerformed(query, crawler, count) => ApplySearch(a, e, query, crawler, count, now)
    case SourceFetched(url, sourceId) => ApplySource(a, url, sourceId)
    case _ => ApplyResearchOutcome(a, e, style, now)
  }

  function ApplySource(a: Activity, url: string, sourceId: Option<string>): Activity {
    a.(metrics := a.metrics.(sources := Some(GetOr(a.metrics.sources, 0) + 1)),
       currentAction := Say(EvaluatingSource) + Prefix(Or(url, GetOr(sourceId, Say(AnySource))), 40))
  }

  function ApplyFinding(a: Activity): Activity {
    var n: nat := GetOr(a.metrics.evidence, 0) + 1;
    a.(metrics := a.metrics.(evidence := Some(n), answered := Some(Decimal(if n <= 6 then n else 6) + Say(OfSix))),
       currentAction := Say(EvaluatingEvidence))
  }

  function ApplyResearchEnd(a: Activity, e: Event, now: string): Activity {
    var b := AddCompletedAction(Ended(a, Completed, e),
                                Say(ResearchDone) + Decimal(GetOr(a.metrics.sources, 0)) + Say(SourcesInfix)
                                + Decimal(GetOr(a.metrics.evidence, 0)) + Say(EvidenceSuffix));
    MarkWorkersCompleted(b.(currentAction := Say(ResearchComplete)), now)
  }

  function ApplyResearchOutcome(a: Activity, e: Event, style: Style, now: string): Activity {
    match e.kind
    case FindingCreated => ApplyFinding(a)
    case ContradictionDetected(statement) =>
      AddCompletedAction(a, Say(ContradictionPrefix) + Prefix(statement, 50))
    case ResearchCompleted => ApplyResearchEnd(a, e, now)
    case ResearchFailed(reason, error) =>
      var text := style.clean(Or(reason, Or(error, Say(ResearchFailure))));
      Ended(a, Failed, e).(errorSummary := Some(text), currentAction := Say(ResearchFailedPrefix) + text)
    case _ => a
  }

  function ApplyProgrammer(a: Activity, e: Event, now: string): Activity {
    match e.kind
    case ProgrammerStarted =>
      Begin(a, Say(ProgrammerName), Say(ProgrammerTitle), Running, Say(AnalyzingCode), Say(ProgrammerId), IsRunning,
            now)
    case InspectionPerformed(path) => ApplyInspection(a, path)
    case CodeModified(path) => ApplyModification(a, path, now)
    case _ => ApplyProgrammerOutcome(a, e, now)
  }

  function ApplyInspection(a: Activity, path: string): Activity {
    RecordFileRead(a, path).(currentAction := Say(InspectedPrefix) + Or(path, Say(AnyFiles)))
  }

  function ApplyModification(a: Activity, path: string, now: string): Activity {
    AddCompletedAction(RecordFileChanged(a, path, FileModified, now), Say(ModifiedPrefix) + path)
      .(currentAction := Say(ApplyingChanges))
  }

  function ApplyProgrammerOutcome(a: Activity, e: Event, now: string): Activity {
    match e.kind
    case TestRunStarted => a.(currentAction := Say(RunningTests))
    case TestRunCompleted(passed) =>
      AddCompletedAction(a, if passed then Say(TestsPassed) else Say(TestsFailed))
    case ProgrammerRequested(order) =>
      Begin(a, Say(ProgrammerName), Say(ProgrammerRequestedTitle), Pending,
            Say(WorkOrderPrefix) + GetOr(order, Say(NotAvailable)), Say(ProgrammerId), IsRequested, now)
    case ProgrammerCompleted =>
      AddCompletedAction(Ended(a, Completed, e), Say(ChangesVerified))
        .(currentAction := Say(ImplementationComplete))
    case ProgrammerFailed(failure) =>
      Ended(a, Failed, e).(currentAction := Say(FailedPrefix) + GetOr(failure, Say(ExecutionFailure)))
    case ProgrammerCancelled(cause) =>
      Ended(a, Cancelled, e).(currentAction := Say(CancelledPrefix) + GetOr(cause, Say(ExecutionCancelled)))
    case _ => a
  }

  function ApplyTester(a: Activity, e: Event, now: string): Activity {
    match e.kind
    case TesterStarted =>
      Begin(a, Say(TesterName), Say(TesterTitle), Running, Say(PlanningTests), Say(TesterId), IsRunning, now)
    case TestStarted(name) => a.(currentAction := Say(ExecutingTest) + GetOr(name, Say(AnyTest)))
    case TestCompleted(name) => AddCompletedAction(a, Say(TestPassed) + GetOr(name, Say(AnyTest)))
    case DefectDetected(description, id) =>
      AddCompletedAction(a, Say(DefectPrefix) + Or(description, GetOr(id, Say(AnyDefect))))
    case TesterCompleted =>
      AddCompletedAction(Ended(a, Completed, e), Say(VerificationDone))
        .(currentAction := Say(VerificationComplete))
    case _ => a
  }

  predicate IsShell(toolId: string) { Contains(toolId, "shell") }

  predicate EndsCommand(toolId: string) { IsShell(toolId) || Contains(toolId, "run_command") }

  predicate ReadsFile(toolId: string) { Contains(toolId, "read_file") }

  function ApplyToolStart(a: Activity, toolId: string, args: ToolArguments, style: Style, now: string): Activity {
    var path := Or(args.path, args.filePath);
    if EndsCommand(toolId) || Contains(toolId, "exec") then
      var sanitized := style.redact(Or(args.command, Or(args.cmd, toolId)));
      RecordCommand(a.(currentAction := Say(RunningPrefix) + Prefix(sanitized, 40)), style, sanitized, now)
    else if ReadsFile(toolId) || Contains(toolId, "stat_file") then
      if path != "" then RecordFileRead(a, path).(currentAction := Say(ReadingPrefix) + path) else a
    else if Contains(toolId, "write_file") || Contains(toolId, "create_file") then
      if path == "" then a
      else RecordFileChanged(a, path, FileCreated, now).(currentAction := Say(WritingPrefix) + path)
    else if Contains(toolId, "delete_file") then
      if path == "" then a
      else RecordFileChanged(a, path, FileDeleted, now).(currentAction := Say(DeletingPrefix) + path)
    else if Contains(toolId, "list_dir") || Contains(toolId, "list_directory") then
      a.(currentAction := Say(ScanningPrefix) + Or(args.path, GetOr(args.directory, Say(CurrentDirectory))))
    else if Contains(toolId, "web.search") || Contains(toolId, "web_search") then
      a.(currentAction := Say(WebSearchPrefix) + Prefix(args.query, 35) + Say(ClosingQuote))
    else a
  }

  function ApplyTool(a: Activity, e: Event, style: Style, now: string): Activity {
    match e.kind
    case ToolStarted(toolId, args) => ApplyToolStart(a, toolId, args, style, now)
    case ToolCompleted(toolId, exitCode, duration) => ApplyToolEnd(a, toolId, exitCode, duration, style)
    case ToolFailed(toolId, failure) => ApplyToolFailure(a, toolId, failure, style)
    case _ => a
  }

  function ApplyToolEnd(a: Activity, toolId: string, exitCode: Option<int>, duration: Option<real>,
                        style: Style): Activity
  {
    if EndsCommand(toolId) then
      CompleteLastCommand(a, style, GetOr(exitCode, 0), duration, None)
    else if ReadsFile(toolId) then
      var count := |a.filesRead|;
      if count % 5 == 0 && count > 0 then
        AddCompletedAction(a, Say(FilesInspected) + Decimal(count) + Say(FilesSuffix))
      else a
    else a
  }

  function ApplyToolFailure(a: Activity, toolId: string, failure: Option<string>, style: Style): Activity {
    var error := GetOr(failure, Say(ToolFailure));
    (if IsShell(toolId) then CompleteLastCommand(a, style, 1, None, Some(error)) else a)
      .(currentAction := Say(ToolFailurePrefix) + style.clean(error))
  }

  function ApplyProvider(a: Activity, e: Event): Activity {
    match e.kind
    case RateLimited =>
      var text := Say(RateLimitedReason);
      a.(status := Waiting, waitingReason := Some(text), currentAction := text)
    case ProviderUnavailable(id) => ApplyUnavailable(a, id)
    case _ => a
  }

  function ApplyUnavailable(a: Activity, id: Option<string>): Activity {
    var text := Say(ProviderPrefix) + GetOr(id, Say(AnyProvider)) + Say(UnavailableSuffix);
    a.(status := Failed, errorSummary := Some(text), currentAction := text)
  }

  datatype Section =
    | TaskSection | WorkerSection | ManagerSection | ResearchSection
    | ProgrammerSection | TesterSection | ToolSection | ProviderSection

  /** The part of the dispatch chain that an event kind belongs to. */
  function SectionOf(k: Kind): Section {
    if k.TaskStarted? || k.TaskCompleted? || k.TaskFailed? || k.TaskCancelled? || k.TaskBlocked? then TaskSection
    else if k.WorkerStarted? || k.WorkerFinished? || k.WorkerFailed? then WorkerSection
    else if k.CycleStarted? || k.PlanCreated? || k.ManagerWaiting? || k.StagnationDetected?
         || k.CycleCompleted? then ManagerSection
    else if k.ResearchStarted? || k.ResearchPlanCreated? || k.SearchPerformed? || k.SourceFetched? || k.FindingCreated?
         || k.ContradictionDetected? || k.ResearchCompleted? || k.ResearchFailed? then ResearchSection
    else if k.ProgrammerStarted? || k.InspectionPerformed? || k.CodeModified? || k.TestRunStarted?
         || k.TestRunCompleted? || k.ProgrammerRequested? || k.ProgrammerCompleted? || k.ProgrammerFailed?
         || k.ProgrammerCancelled? then ProgrammerSection
    else if k.TesterStarted? || k.TestStarted? || k.TestCompleted? || k.DefectDetected?
         || k.TesterCompleted? then TesterSection
    else if k.ToolStarted? || k.ToolCompleted? || k.ToolFailed? then ToolSection
    else ProviderSection
  }

  function Apply(a: Activity, e: Event, style: Style, now: string): Activity {
    match SectionOf(e.kind)
    case TaskSection => ApplyTask(a, e, style, now)
    case WorkerSection => ApplyWorker(a, e, style, now)
    case ManagerSection => ApplyManager(a, e)
    case ResearchSection => ApplyResearch(a, e, style, now)
    case ProgrammerSection => ApplyProgrammer(a, e, now)
    case TesterSection => ApplyTester(a, e, now)
    case ToolSection => ApplyTool(a, e, style, now)
    case ProviderSection => ApplyProvider(a, e)
  }

  /** Start time and worker identity, noted before the event itself is applied. */
  function Touch(a: Activity, e: Event): Activity {
    var b := if a.startTime == "" then a.(startTime := e.timestamp) else a;
    if e.workerId == "" then b
    else
      var id, c := Lower(e.workerId), b.(workerId := e.workerId);
      if Contains(id, "researcher") then c.(workerType := Say(ResearcherName), title := Say(ResearcherTitle))
      else if Contains(id, "programmer") then c.(workerType := Say(ProgrammerName), title := Say(ProgrammerTitle))
      else if Contains(id, "tester") then c.(workerType := Say(TesterName), title := Say(TesterTitle))
      else if Contains(id, "crawler") then c.(workerType := Say(CrawlerType))
      else c
  }

  function NewActivity(e: Event, now: string): Activity {
    Activity(e.projectId, e.taskId, e.correlationId, e.workerId, Say(ManagerType), Say(DefaultTitle), Pending, now,
             None,
             Say(InitialAction), [], [], [], [], [], NO_METRICS, None, None, true)
  }
}
