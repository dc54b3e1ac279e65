/** The values that travel between the engine, the store and the desktop app. */
module NinoxTypes {

  datatype Option<+T> = None | Some(value: T)

  type byte = x: int | 0 <= x < 256
  type Bytes = seq<byte>
  type SessionId = string
  type PrId = int

  datatype Orchestrator = Orchestrator(id: SessionId, name: string)

  datatype Status =
    Spawning | Working | PrOpen | CiFailed | ReviewPending | Mergeable | Done | Terminated | Interrupted
  {
    predicate IsTerminal() {
      Done? || Terminated? || Interrupted?
    }
  }

  /** A session row. `rest` stands for the columns that nothing modelled here reads. */
  datatype Session = Session(
    id: SessionId, orchestratorId: Option<SessionId>, status: Status, startedAt: int,
    workspacePath: Option<string>, prNumber: Option<nat>, prId: Option<PrId>, repo: string,
    gate: Option<string>, cost: int, context: Option<nat>, terminalAt: Option<int>, mergedAt: Option<int>,
    pid: Option<nat>, model: Option<string>, activity: Option<string>, rest: string)

  datatype FieldGroup =
    StatusField | GateField | PrLinkField | CostField | ContextField | TerminalAtField
    | MergedAtField | PidField | WorkspaceField | ModelField | ActivityField

  /** `AllFields` is the full-struct replacement, not the union of the groups. */
  datatype SessionFields = AllFields | Fields(groups: set<FieldGroup>)

  datatype Comment = Comment(id: int, prId: PrId, createdAt: int, body: string)

  datatype Pr = Pr(id: PrId, number: nat, sessionId: SessionId, title: string)

  datatype Notification = Notification(id: string, title: string)

  datatype Event =
    | OrchestratorSpawned(orch: Orchestrator)
    | OrchestratorRemoved(orchId: SessionId)
    | SessionSpawned(spawned: Session)
    | SessionUpdated(incoming: Session, fields: SessionFields)
    | SessionDone(sid: SessionId)
    | TerminalOutput(sid: SessionId, bytes: Bytes)
    | ClientOutput(sid: SessionId, generation: nat, bytes: Bytes)
    | ClientClosed(sid: SessionId, generation: nat)
    | CiUpdated(prId: PrId, ci: string)
    | PrOpened(sid: SessionId, pr: Pr)
    | ExtraPrDetected(pr: Pr)
    | ReviewComment(prId: PrId, comment: Comment)
    | Notified(notification: Notification)
    | MessagesDelivered(sid: SessionId, count: nat)
}
