/** Nodes, messages and identities that travel over the Link (contract.ts, types.ts). */
module LinkTypes {
  import opened Wrappers

  datatype Role = Asset | Gateway
  datatype Node = Node(role: Role, id: string)

  // Operation identities: chosen by a caller, drawn fresh by the transport, or naming a source activation.
  datatype OpId = Named(name: string) | Drawn(n: nat) | Activation(id: string, generation: nat)

  datatype Priority = Safety | TaskPriority | Request | LiveState | Resource | ObjectPriority

  function Rank(p: Priority): nat {
    match p
    case Safety => 0
    case TaskPriority => 1
    case Request => 2
    case LiveState => 3
    case Resource => 4
    case ObjectPriority => 5
  }

  datatype ControlKind =
    | Confirmed(op: OpId, msgId: nat)
    | Rejected(op: OpId, msgId: nat)
    | MissingChunks(op: OpId, msgId: nat, chunks: seq<nat>)
    | SourceActive(source: Node, generation: nat, session: string)

  // `resource` of a state publication is its coalescing key; `fieldPath` says it claims no Core authority.
  datatype Message =
    | State(resource: string, ofTask: bool, live: bool, fieldPath: bool)
    | TaskDelivery(task: string, asset: string, cancellation: bool)
    | TaskReport(task: string, cancel: bool)
    | DataRequest(id: OpId, content: bool)
    | DataResponse(responseTo: OpId, body: string)
    | ResourceOperation(operation: string, ofTask: bool, cancel: bool)
    | Subscription(renew: bool)
    | ObjectContent(contentFor: Option<OpId>, body: string)
    | Control(control: ControlKind)

  datatype Kind = StateKind | DeliveryKind | ReportKind | RequestKind | ResponseKind | OperationKind | SubscriptionKind
                | ContentKind | ControlMessageKind

  function KindOf(m: Message): Kind {
    match m
    case State(_, _, _, _) => StateKind
    case TaskDelivery(_, _, _) => DeliveryKind
    case TaskReport(_, _) => ReportKind
    case DataRequest(_, _) => RequestKind
    case DataResponse(_, _) => ResponseKind
    case ResourceOperation(_, _, _) => OperationKind
    case Subscription(_) => SubscriptionKind
    case ObjectContent(_, _) => ContentKind
    case Control(_) => ControlMessageKind
  }

  function MessagePriority(m: Message): Priority {
    match m
    case Control(_) => Safety
    case TaskDelivery(_, _, cancellation) => if cancellation then Safety else TaskPriority
    case TaskReport(_, cancel) => if cancel then Safety else TaskPriority
    case DataRequest(_, _) => Request
    case DataResponse(_, _) => Request
    case Subscription(_) => Request
    case ObjectContent(_, _) => ObjectPriority
    case ResourceOperation(_, ofTask, cancel) => if cancel then Safety else if ofTask then TaskPriority else Resource
    case State(_, ofTask, live, _) => if live then LiveState else if ofTask then TaskPriority else Resource
  }

  predicate NeedsConfirmation(m: Message) {
    match m
    case Subscription(renew) => !renew
    case State(_, _, _, _) => false
    case Control(_) => false
    case _ => true
  }

  /** An Asset may publish only field state that claims no Core authority, and never Task state. */
  predicate ValidStateSource(m: Message, source: Node) {
    m.State? && source.role == Asset ==> !m.ofTask && m.fieldPath
  }

  function WireOperation(m: Message, op: OpId): OpId {
    match m
    case DataResponse(request, _) => request
    case ObjectContent(Some(request), _) => request
    case _ => op
  }
}
