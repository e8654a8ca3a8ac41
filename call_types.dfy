/** The records the dashboard exchanges with its backend
    (src/types/index.ts). Field names are the JSON keys. */
module CallTypes {
  import opened Wrappers

  /** The three statuses the `Call.status` union admits. The union is a
      compile-time type only, so the model keeps the status as a string and
      states the closed enumeration separately (`WellTyped`). */
  const Completed: string := "Completed"
  const InProgress: string := "In Progress"
  const NotAnswered: string := "Not Answered"

  /** A call record as the backend returns it. */
  datatype Call = Call(
    id: int,
    phoneNumber: string,
    fromNumber: Option<string>,
    baseScript: string,
    status: string,
    responsesCollected: Option<string>,
    blandCallId: Option<string>,
    callDuration: Option<int>,
    recordingUrl: Option<string>,
    issues: Option<string>,
    pathway: Option<string>,
    tags: Option<string>,
    batchId: Option<string>,
    transferredTo: Option<string>,
    reviewStatus: Option<string>,
    createdAt: string,
    updatedAt: string)

  /** The status is one of the three the type declares. */
  predicate WellTyped(c: Call)
  {
    c.status == Completed || c.status == InProgress || c.status == NotAnswered
  }

  /** A call-creation request: the new field set, then the legacy one. */
  datatype CreateCallRequest = CreateCallRequest(
    phone_number: Option<string>,
    task: Option<string>,
    voice: Option<string>,
    wait_for_greeting: Option<bool>,
    record: Option<bool>,
    answered_by_enabled: Option<bool>,
    noise_cancellation: Option<bool>,
    interruption_threshold: Option<int>,
    block_interruptions: Option<bool>,
    max_duration: Option<int>,
    model: Option<string>,
    language: Option<string>,
    background_track: Option<string>,
    endpoint: Option<string>,
    voicemail_action: Option<string>,
    phoneNumber: Option<string>,
    fromNumber: Option<string>,
    baseScript: Option<string>)

  datatype LoginRequest = LoginRequest(username: string, password: string)
}
