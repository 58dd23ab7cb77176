/** The records of the execution plane. Timestamps and free-text details are not modelled. */
module AppContracts {
  import opened Wrappers

  /** A JSON value as the evidence payloads and metadata hold it; a list's elements never matter. */
  datatype Json = JNull | JBool(b: bool) | JInt(n: int) | JStr(s: string) | JList(len: nat)
    | JObject(fields: map<string, Json>)
  {
    predicate Truthy() {
      match this
      case JNull => false
      case JBool(b) => b
      case JInt(n) => n != 0
      case JStr(s) => s != ""
      case JList(len) => len > 0
      case JObject(fields) => fields != map[]
    }
  }

  type Payload = map<string, Json>

  /** `payload.get(key)` */
  function Get(payload: Payload, key: string): Json {
    if key in payload then payload[key] else JNull
  }

  datatype AppOutcome = Succeeded | Failed | Unknown | Cancelled

  datatype ReceiptState = ReceiptCreated | Attempting | ReceiptFinalized

  datatype AttemptState = AttemptCreated | Invoked | AttemptFinalized

  datatype EvidenceStrength = Inferred | Derived | Direct

  datatype IdempotencyState = InProgress | KeyCompleted | KeyFailed | KeyUnknown | Expired | Conflict

  datatype Contract = Contract(
    contractId: string, authorizationId: string, capability: string, operation: string, target: string,
    idempotencyKey: Option<string>, metadata: Payload)

  datatype Receipt = Receipt(
    id: string, contractId: string, authorizationId: string, capability: string, operation: string,
    target: string, state: ReceiptState, outcome: Option<AppOutcome>, metadata: Payload)

  datatype Attempt = Attempt(
    id: string, receiptId: string, attemptNumber: nat, state: AttemptState, outcome: Option<AppOutcome>,
    evidence: Payload)

  datatype KeyRow = KeyRow(
    receiptId: Option<string>, state: IdempotencyState, outcome: Option<AppOutcome>)

  datatype AdapterResult = AdapterResult(outcome: AppOutcome, evidence: Payload)
}
