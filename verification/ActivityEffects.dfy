/**
 What each kind of event does to an activity, field by field: a table beside the dispatch chain,
 with the theorem that the chain does what the table says, and nothing else.
 */
module ActivityEffects {
  import opened Wrappers
  import opened Strings
  import opened Activities

  // ---------------------------------------------------------------- status and liveness

  function StatusBy(e: Event): Option<Status> {
    var k := e.kind;
    if k.TaskStarted? || k.WorkerStarted? || k.CycleStarted? || k.ResearchStarted? || k.ProgrammerStarted?
       || k.TesterStarted? then Some(Running)
    else if k.TaskCompleted? || k == CycleCompleted(true) || k.ResearchCompleted? || k.ProgrammerCompleted?
            || k.TesterCompleted? then Some(Completed)
    else if k.TaskFailed? || k.ResearchFailed? || k.ProgrammerFailed? || k.ProviderUnavailable? then Some(Failed)
    else if k.TaskCancelled? || k.ProgrammerCancelled? then Some(Cancelled)
    else if k.TaskBlocked? || k.ManagerWaiting? || k.RateLimited? then Some(Waiting)
    else if k.StagnationDetected? then Some(Stalled)
    else if k.ProgrammerRequested? then Some(Pending)
    else None
  }

  /** The start of the task makes an activity live; every end of work ends it, but not an unavailable provider. */
  function LiveBy(e: Event): Option<bool> {
    if e.kind.TaskStarted? then Some(true)
    else if StatusBy(e) in {Some(Completed), Some(Failed), Some(Cancelled)} && !e.kind.ProviderUnavailable? then
      Some(false)
    else None
  }

  function EndBy(e: Event): Option<Option<string>> {
    if LiveBy(e) == Some(false) then Some(Some(e.timestamp)) else None
  }

  function FirstOf(texts: seq<string>): string
    requires texts != []
  {
    if texts[0] != "" || |texts| == 1 then texts[0] else FirstOf(texts[1..])
  }

  function ErrorBy(e: Event, style: Style): Option<Option<string>> {
    match e.kind
    case TaskFailed(reason, error) => Some(Some(style.clean(FirstOf([reason, error, Say(TaskFailure)]))))
    case ResearchFailed(reason, error) => Some(Some(style.clean(FirstOf([reason, error, Say(ResearchFailure)]))))
    case ProviderUnavailable(id) =>
      Some(Some(Say(ProviderPrefix) + GetOr(id, Say(AnyProvider)) + Say(UnavailableSuffix)))
    case _ => None
  }

  function WaitBy(e: Event): Option<Option<string>> {
    match e.kind
    case TaskBlocked(reason) => Some(Some(FirstOf([reason, Say(WaitingForTasks)])))
    case ManagerWaiting(reason) => Some(Some(FirstOf([reason, Say(WaitingForSpecialists)])))
    case RateLimited => Some(Some(Say(RateLimitedReason)))
    case _ => None
  }

  function SourcesBy(e: Event, was: Option<int>): Option<int> {
    match e.kind
    case SearchPerformed(_, _, count) => Some(GetOr(was, 0) + GetOr(count, 0))
    case SourceFetched(_, _) => Some(GetOr(was, 0) + 1)
    case _ => was
  }

  function EvidenceBy(e: Event, was: Option<nat>): Option<nat> {
    if e.kind.FindingCreated? then Some(GetOr(was, 0) + 1) else was
  }

  /** Six questions count as all: each finding answers one, as far as there are any left. */
  function AnsweredBy(a: Activity, e: Event): Option<Option<string>> {
    if e.kind.FindingCreated? then
      var n := GetOr(a.metrics.evidence, 0) + 1;
      Some(Some(Decimal(if n < 6 then n else 6) + Say(OfSix)))
    else None
  }

  // ---------------------------------------------------------------- what is shown

  /** The action shown from now on, when the event finds the activity `a`. */
  function ActionBy(a: Activity, e: Event, style: Style): Option<string> {
    match e.kind
    case TaskStarted(objective, title) => Some(FirstOf([objective, Say(StartingTask) + GetOr(title, a.taskId)]))
    case TaskCompleted(_) => Some(Say(ExecutionCompleted))
    case TaskFailed(_, _) => Some(Say(FailedPrefix) + ReasonBy(e, style))
    case TaskCancelled => Some(Say(CancelledByUser))
    case TaskBlocked(_) => Some(Say(WaitingPrefix) + ReasonBy(e, style))
    case WorkerStarted(_, _) => None
    case CycleStarted => Some(Say(AnalyzingWorkspace))
    case PlanCreated(_) => Some(Say(AssigningWorkers))
    case ManagerWaiting(_) => Some(Say(WaitingPrefix) + ReasonBy(e, style))
    case StagnationDetected => Some(Say(StalledAction))
    case CycleCompleted(completed) => if completed then Some(Say(PlanDone)) else None
    case ResearchStarted => Some(Say(InspectingProject))
    case ResearchPlanCreated(_, _) => Some(Say(AllocatingCrawlers))
    case SearchPerformed(query, _, _) => Some(Say(WebSearchPrefix) + Prefix(query, 40) + Say(ClosingQuote))
    case SourceFetched(url, id) => Some(Say(EvaluatingSource) + Prefix(FirstOf([url, GetOr(id, Say(AnySource))]), 40))
    case FindingCreated => Some(Say(EvaluatingEvidence))
    case ResearchCompleted => Some(Say(ResearchComplete))
    case ResearchFailed(_, _) => Some(Say(ResearchFailedPrefix) + ReasonBy(e, style))
    case ProgrammerStarted => Some(Say(AnalyzingCode))
    case InspectionPerformed(path) => Some(Say(InspectedPrefix) + FirstOf([path, Say(AnyFiles)]))
    case CodeModified(_) => Some(Say(ApplyingChanges))
    case TestRunStarted => Some(Say(RunningTests))
    case ProgrammerRequested(order) => Some(Say(WorkOrderPrefix) + GetOr(order, Say(NotAvailable)))
    case ProgrammerCompleted => Some(Say(ImplementationComplete))
    case ProgrammerFailed(failure) => Some(Say(FailedPrefix) + GetOr(failure, Say(ExecutionFailure)))
    case ProgrammerCancelled(cause) => Some(Say(CancelledPrefix) + GetOr(cause, Say(ExecutionCancelled)))
    case TesterStarted => Some(Say(PlanningTests))
    case TestStarted(name) => Some(Say(ExecutingTest) + GetOr(name, Say(AnyTest)))
    case TesterCompleted => Some(Say(VerificationComplete))
    case ToolStarted(id, args) => ToolActionBy(ToolOf(id), id, args, style)
    case ToolFailed(_, failure) => Some(Say(ToolFailurePrefix) + style.clean(GetOr(failure, Say(ToolFailure))))
    case RateLimited => Some(ReasonBy(e, style))
    case ProviderUnavailable(_) => Some(ReasonBy(e, style))
    case _ => None
  }

  /** The error or the reason for waiting that the event brings. */
  function ReasonBy(e: Event, style: Style): string {
    if ErrorBy(e, style).Some? then GetOr(ErrorBy(e, style).value, "") else GetOr(GetOr(WaitBy(e), None), "")
  }

  function ToolActionBy(tool: Tool, id: string, args: ToolArguments, style: Style): Option<string> {
    var path := FirstOf([args.path, args.filePath]);
    match tool
    case CommandTool => Some(Say(RunningPrefix) + Prefix(style.redact(FirstOf([args.command, args.cmd, id])), 40))
    case ReadTool => if path == "" then None else Some(Say(ReadingPrefix) + path)
    case WriteTool => if path == "" then None else Some(Say(WritingPrefix) + path)
    case DeleteTool => if path == "" then None else Some(Say(DeletingPrefix) + path)
    case ListTool => Some(Say(ScanningPrefix) + FirstOf([args.path, GetOr(args.directory, Say(CurrentDirectory))]))
    case SearchTool => Some(Say(WebSearchPrefix) + Prefix(args.query, 35) + Say(ClosingQuote))
    case UnknownTool => None
  }

  /** The name and the title of the specialist whose work begins. */
  function NamesBy(e: Event): Option<(string, string)> {
    match e.kind
    case ResearchStarted => Some((Say(ResearcherName), Say(ResearcherTitle)))
    case ProgrammerStarted => Some((Say(ProgrammerName), Say(ProgrammerTitle)))
    case ProgrammerRequested(_) => Some((Say(ProgrammerName), Say(ProgrammerRequestedTitle)))
    case TesterStarted => Some((Say(TesterName), Say(TesterTitle)))
    case _ => None
  }

  // ---------------------------------------------------------------- the lists

  /** A tool is recognised by a part of its id, and the first part recognised decides. */
  datatype Tool = CommandTool | ReadTool | WriteTool | DeleteTool | ListTool | SearchTool | UnknownTool

  function ToolOf(id: string): Tool {
    if Contains(id, "shell") || Contains(id, "run_command") || Contains(id, "exec") then CommandTool
    else if Contains(id, "read_file") || Contains(id, "stat_file") then ReadTool
    else if Contains(id, "write_file") || Contains(id, "create_file") then WriteTool
    else if Contains(id, "delete_file") then DeleteTool
    else if Contains(id, "list_dir") || Contains(id, "list_directory") then ListTool
    else if Contains(id, "web.search") || Contains(id, "web_search") then SearchTool
    else UnknownTool
  }

  /** The file that an event reads; the empty path is none. */
  function ReadBy(e: Event): string {
    match e.kind
    case InspectionPerformed(path) => path
    case ToolStarted(id, args) => if ToolOf(id) == ReadTool then FirstOf([args.path, args.filePath]) else ""
    case _ => ""
  }

  /** The file that an event changes, and how. */
  function ChangeBy(e: Event): (string, FileOperation) {
    match e.kind
    case CodeModified(path) => (path, FileModified)
    case ToolStarted(id, args) =>
      if ToolOf(id) == WriteTool then (FirstOf([args.path, args.filePath]), FileCreated)
      else if ToolOf(id) == DeleteTool then (FirstOf([args.path, args.filePath]), FileDeleted)
      else ("", FileModified)
    case _ => ("", FileModified)
  }

  /** The start or the end of a command. */
  datatype CommandEffect =
    | NoCommand
    | Starts(command: string)
    | Ends(exitCode: int, duration: Option<real>, preview: Option<string>)

  function CommandBy(e: Event, style: Style): CommandEffect {
    match e.kind
    case ToolStarted(id, args) =>
      if ToolOf(id) == CommandTool then Starts(style.redact(style.redact(FirstOf([args.command, args.cmd, id]))))
      else NoCommand
    case ToolCompleted(id, exitCode, duration) =>
      if Contains(id, "shell") || Contains(id, "run_command") then Ends(GetOr(exitCode, 0), duration,
                                                                        None) else NoCommand
    case ToolFailed(id, failure) =>
      var error := GetOr(failure, Say(ToolFailure));
      if Contains(id, "shell") then Ends(1, None, if error != "" then Some(style.clean(error)) else None) else NoCommand
    case _ => NoCommand
  }

  /** The text that an event lists among the completed actions, when it finds the activity `a`. */
  function DoneBy(a: Activity, e: Event): string {
    match e.kind
    case TaskCompleted(summary) => Say(CheckMark) + FirstOf([summary, Say(TaskDone)])
    case PlanCreated(count) => Say(FormulatedPlan) + Decimal(GetOr(count, 0)) + Say(TasksSuffix)
    case ResearchPlanCreated(count, questions) =>
      Say(IdentifiedPrefix) + Decimal(GetOr(count, questions)) + Say(QuestionsSuffix)
    case ContradictionDetected(statement) => Say(ContradictionPrefix) + Prefix(statement, 50)
    case ResearchCompleted =>
      Say(ResearchDone) + Decimal(GetOr(a.metrics.sources, 0)) + Say(SourcesInfix)
      + Decimal(GetOr(a.metrics.evidence, 0)) + Say(EvidenceSuffix)
    case CodeModified(path) => Say(ModifiedPrefix) + path
    case TestRunCompleted(passed) => if passed then Say(TestsPassed) else Say(TestsFailed)
    case ProgrammerCompleted => Say(ChangesVerified)
    case TestCompleted(name) => Say(TestPassed) + GetOr(name, Say(AnyTest))
    case DefectDetected(description, id) => Say(DefectPrefix) + FirstOf([description, GetOr(id, Say(AnyDefect))])
    case TesterCompleted => Say(VerificationDone)
    case ToolCompleted(id, _, _) =>
      var n := |a.filesRead|;
      if Contains(id, "read_file") && !Contains(id, "shell") && !Contains(id, "run_command") && n > 0 && n % 5 == 0 then
        Say(FilesInspected) + Decimal(n) + Say(FilesSuffix)
      else ""
    case _ => ""
  }

  /** What becomes of the workers. */
  datatype WorkerEffect =
    | NoWorker
    | Records(id: string, name: string, role: string, status: WorkerStatus, action: string)
    | Updates(id: string, status: WorkerStatus, error: Option<string>)
    | FinishesAll

  function WorkerBy(a: Activity, e: Event, style: Style): WorkerEffect {
    match e.kind
    case TaskStarted(objective, title) =>
      Records(FirstOf([e.workerId, Say(SpecialistId)]), Say(SpecialistRole), Say(SpecialistRole), IsRunning,
              FirstOf([objective, Say(StartingTask) + GetOr(title, a.taskId)]))
    case TaskCompleted(_) => FinishesAll
    case WorkerStarted(id, role) =>
      Records(FirstOf([e.workerId, GetOr(id, Say(AnyWorkerId))]), Say(SpecialistRole), GetOr(role, Say(SpecialistRole)),
              IsRunning, Say(ActiveAction))
    case WorkerFinished(id) => Updates(FirstOf([e.workerId, GetOr(id, Say(AnyWorkerId))]), IsCompleted, None)
    case WorkerFailed(id, reason) =>
      Updates(FirstOf([e.workerId, GetOr(id, Say(AnyWorkerId))]), HasFailed,
              Some(style.clean(FirstOf([reason, Say(WorkerError)]))))
    case ResearchStarted => Specialist(Say(ResearcherId), Say(ResearcherName), IsRunning)
    case SearchPerformed(query, crawler, _) =>
      var id := FirstOf([e.workerId, GetOr(crawler, Say(SearchCrawlerId))]);
      Records(id, Say(CrawlerPrefix) + Decimal(CrawlerNumber(a.workers, id)), Say(WebSearchRole), IsRunning,
              Say(SearchingPrefix) + Prefix(query, 30) + Say(Ellipsis))
    case ResearchCompleted => FinishesAll
    case ProgrammerStarted => Specialist(Say(ProgrammerId), Say(ProgrammerName), IsRunning)
    case ProgrammerRequested(_) => Specialist(Say(ProgrammerId), Say(ProgrammerName), IsRequested)
    case TesterStarted => Specialist(Say(TesterId), Say(TesterName), IsRunning)
    case _ => NoWorker
  }

  function Specialist(id: string, name: string, status: WorkerStatus): WorkerEffect {
    Records(id, name, Say(SpecialistRole), status, Say(WorkingAction))
  }

  // ---------------------------------------------------------------- how lists change

  /** A list without repetitions takes a new element at its end; the empty text is nothing. */
  function With(xs: seq<string>, x: string): seq<string> { if x == "" || x in xs then xs else xs + [x] }

  /** The changed files with this one changed last: in its place if it is listed, otherwise at the end. */
  ghost predicate ChangedTo(fs: seq<FileChange>, gs: seq<FileChange>, change: (string, FileOperation), now: string) {
    var entry := FileChange(change.0, change.1, now);
    if change.0 == "" then gs == fs
    else if HasPath(fs, change.0) then
      exists i :: 0 <= i < |fs| && fs[i].path == change.0 && (forall k :: 0 <= k < i ==> fs[k].path != change.0)
                  && gs == fs[i := entry]
    else gs == fs + [entry]
  }

  /** A count is set when the list gets longer. */
  function CountTo(was: Option<nat>, m: nat, n: nat): Option<nat> { if n > m then Some(n) else was }

  /** A command that is not running is added; the last one running ends. */
  ghost predicate CommandsTo(cs: seq<Command>, ds: seq<Command>, effect: CommandEffect, now: string) {
    match effect
    case NoCommand => ds == cs
    case Starts(c) =>
      ds == if IsRunningCommand(cs, c) then cs else cs + [Command(c, None, None, true, "", now)]
    case Ends(exitCode, duration, preview) =>
      if j :| 0 <= j < |cs| && cs[j].running && forall k :: j < k < |cs| ==> !cs[k].running then
        ds == cs[j := cs[j].(running := false, exitCode := Some(exitCode), duration := duration,
                            preview := GetOr(preview, cs[j].preview))]
      else ds == cs
  }

  /** `i` is the first worker with the id. */
  ghost predicate IsFirst(ws: seq<Worker>, id: string, i: int) {
    0 <= i < |ws| && ws[i].id == id && forall k :: 0 <= k < i ==> ws[k].id != id
  }

  /** A worker is recorded in place or added, updated if it is listed, or all running ones are done. */
  ghost predicate WorkersTo(ws: seq<Worker>, vs: seq<Worker>, effect: WorkerEffect, now: string) {
    match effect
    case NoWorker => vs == ws
    case Records(id, name, role, status, action) =>
      if HasWorker(ws, id) then exists i :: IsFirst(ws, id,
                                                    i) && vs == ws[i := ws[i].(status := status, action := action)]
      else vs == ws + [Worker(id, name, role, status, action, None, now, None)]
    case Updates(id, status, error) =>
      if HasWorker(ws, id) then exists i :: IsFirst(ws, id, i) && vs == ws[i := ws[i].(
        status := status,
        error := if error.Some? && error.value != "" then error else ws[i].error,
        completedAt := if status == IsCompleted then Some(now) else ws[i].completedAt)]
      else vs == ws
    case FinishesAll =>
      && |vs| == |ws|
      && forall i :: 0 <= i < |ws| ==>
           vs[i] == if ws[i].status == IsRunning then ws[i].(status := IsCompleted, completedAt := Some(now)) else ws[i]
  }

  /** The count of running workers is taken anew, but not when a listed worker is recorded again. */
  function ActiveTo(ws: seq<Worker>, vs: seq<Worker>, effect: WorkerEffect, was: Option<nat>): Option<nat> {
    match effect
    case NoWorker => was
    case Records(id, _, _, _, _) => if HasWorker(ws, id) then was else Some(RunningCount(vs))
    case Updates(_, _, _) => Some(RunningCount(vs))
    case FinishesAll => Some(0)
  }

  // ---------------------------------------------------------------- the table as a whole

  ghost predicate StateAs(a: Activity, b: Activity, e: Event, style: Style) {
    && b.status == GetOr(StatusBy(e), a.status) && b.live == GetOr(LiveBy(e), a.live)
    && b.endTime == GetOr(EndBy(e), a.endTime)
    && b.errorSummary == GetOr(ErrorBy(e, style), a.errorSummary)
    && b.waitingReason == GetOr(WaitBy(e), a.waitingReason)
    && b.metrics.answered == GetOr(AnsweredBy(a, e), a.metrics.answered)
    && b.metrics.sources == SourcesBy(e, a.metrics.sources) && b.metrics.evidence == EvidenceBy(e, a.metrics.evidence)
  }

  ghost predicate ShownAs(a: Activity, b: Activity, e: Event, style: Style) {
    && b.currentAction == GetOr(ActionBy(a, e, style), a.currentAction)
    && (b.workerType, b.title) == GetOr(NamesBy(e), (a.workerType, a.title))
    && b.startTime == a.startTime && b.workerId == a.workerId
    && b.projectId == a.projectId && b.taskId == a.taskId && b.correlationId == a.correlationId
  }

  ghost predicate FilesAs(a: Activity, b: Activity, e: Event, now: string) {
    && b.filesRead == With(a.filesRead, ReadBy(e))
    && ChangedTo(a.filesChanged, b.filesChanged, ChangeBy(e), now)
    && b.metrics.filesRead == CountTo(a.metrics.filesRead, |a.filesRead|, |b.filesRead|)
    && b.metrics.filesChanged == CountTo(a.metrics.filesChanged, |a.filesChanged|, |b.filesChanged|)
  }

  ghost predicate WorkAs(a: Activity, b: Activity, e: Event, style: Style, now: string) {
    && b.completedActions == With(a.completedActions, Strip(DoneBy(a, e)))
    && CommandsTo(a.commands, b.commands, CommandBy(e, style), now)
    && WorkersTo(a.workers, b.workers, WorkerBy(a, e, style), now)
    && b.metrics.commandsRun == CountTo(a.metrics.commandsRun, |a.commands|, |b.commands|)
    && b.metrics.activeWorkers == ActiveTo(a.workers, b.workers, WorkerBy(a, e, style), a.metrics.activeWorkers)
  }

  /** From `a` to `b` every field changes as the table says. */
  ghost predicate DoesAs(a: Activity, b: Activity, e: Event, style: Style, now: string) {
    StateAs(a, b, e, style) && ShownAs(a, b, e, style) && FilesAs(a, b, e, now) && WorkAs(a, b, e, style, now)
  }
}
