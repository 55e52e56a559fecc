/**
 * The provider-facing bridge to the patient service (`services/ProviderPatientService.java`): a
 * synchronous `getPatients` built from one sync request and a one-element response slot, and the
 * one-way status commands.
 */
module ProviderPatientService {
  import opened Wrappers
  import opened Sequences
  import opened Text
  import opened PatientModel
  import opened PatientDto
  import opened Broker
  import opened MessagePublisher

  const PatientExchange := "patient.exchange"
  const SyncRequestKey := "patient.sync.request"
  const StatusUpdateKey := "patient.status.update"

  /** How the caller's bounded wait on the response slot ends: a list arrives, the time runs out, or the thread is interrupted. */
  datatype WaitOutcome = Response(patients: seq<PatientDTO>) | Timeout | Interrupted

  /** The patient's status is present and equals `status` ignoring case. */
  predicate StatusMatches(status: string, d: PatientDTO)
  {
    d.accountStatus.Some? && EqualsIgnoreCase(status, d.accountStatus.value)
  }

  /** `StatusMatches` as the predicate handed to the stream filter. */
  function Matcher(status: string): PatientDTO -> bool
  {
    (d: PatientDTO) => StatusMatches(status, d)
  }

  /**
   * The status filter of `getPatients`: "ALL" in any letter case keeps the received list; any other
   * status keeps exactly the patients whose status matches it, in their received order.
   */
  function FilterByStatus(patients: seq<PatientDTO>, status: string): (r: seq<PatientDTO>)
    ensures EqualsIgnoreCase("ALL", status) ==> r == patients
    ensures !EqualsIgnoreCase("ALL", status) ==>
      forall d :: multiset(r)[d] == if StatusMatches(status, d) then multiset(patients)[d] else 0
    ensures !EqualsIgnoreCase("ALL", status) ==> forall d :: d in r <==> d in patients && StatusMatches(status, d)
    ensures SubsequenceOf(r, patients)
  {
    if EqualsIgnoreCase("ALL", status) then
      FilterKeepsAll(patients, (d: PatientDTO) => true);
      FilterIsSubsequence(patients, (d: PatientDTO) => true);
      patients
    else
      var matches := Matcher(status);
      FilterMultiplicity(patients, matches);
      FilterMembership(patients, matches);
      FilterIsSubsequence(patients, matches);
      Filter(patients, matches)
  }

  /** The `PatientSyncRequest` body. */
  function SyncRequestBody(requestId: string, providerId: string, status: string): map<string, Value>
  {
    map["requestId" := Text(requestId), "providerId" := Text(providerId), "status" := Text(status)]
  }

  /** The `PatientStatusUpdateMessage` body; a `null` reason is sent as JSON null. */
  function StatusUpdateBody(patientId: string, providerId: string, newStatus: string, previousStatus: string, reason: Option<string>, now: Timestamp): map<string, Value>
  {
    map[
      "patientId" := Text(patientId),
      "providerId" := Text(providerId),
      "newStatus" := Text(newStatus),
      "previousStatus" := Text(previousStatus),
      "reason" := (if reason.Some? then Text(reason.value) else Null),
      "timestamp" := Time(now)]
  }

  function StatusUpdateMessage(patientId: string, providerId: string, newStatus: string, previousStatus: string, reason: Option<string>, now: Timestamp): Message
  {
    Message(PatientExchange, StatusUpdateKey, StatusUpdateBody(patientId, providerId, newStatus, previousStatus, reason, now))
  }

  class ProviderPatientService {
    /** The one-element response queue: the list waiting to be taken, if any. */
    var responseSlot: Option<seq<PatientDTO>>
    const rabbitTemplate: Broker

    constructor (rabbitTemplate: Broker)
      ensures responseSlot == None && this.rabbitTemplate == rabbitTemplate
    {
      responseSlot := None;
      this.rabbitTemplate := rabbitTemplate;
    }

    /** `handlePatientResponse`: the slot holds exactly the delivered list; an untaken earlier list is discarded. */
    method HandlePatientResponse(patients: seq<PatientDTO>)
      modifies this
      ensures responseSlot == Some(patients)
    {
      responseSlot := None;
      responseSlot := Some(patients);
    }

    /** Takes the waiting list, if any, leaving the slot empty. */
    method Poll() returns (taken: Option<seq<PatientDTO>>)
      modifies this
      ensures taken == old(responseSlot) && responseSlot == None
    {
      taken := responseSlot;
      responseSlot := None;
    }

    /**
     * `getPatients`: empties the slot, sends one sync request, then waits. A failed send throws to the
     * caller; a timeout or an interruption gives the empty list; a response is filtered by status.
     * The slot is empty afterwards in every case.
     */
    method GetPatients(providerId: string, status: string, requestId: string, attempt: SendAttempt, wait: WaitOutcome)
      returns (r: Result<seq<PatientDTO>>)
      modifies this, rabbitTemplate
      ensures rabbitTemplate.outbox == AfterPublish(old(rabbitTemplate.outbox), Message(PatientExchange, SyncRequestKey, SyncRequestBody(requestId, providerId, status)), attempt)
      ensures responseSlot == None
      ensures r.Err? <==> attempt != Delivered
      ensures attempt == Delivered && !wait.Response? ==> r == Ok([])
      ensures attempt == Delivered && wait.Response? ==> r == Ok(FilterByStatus(wait.patients, status))
    {
      responseSlot := None;
      var sent := rabbitTemplate.ConvertAndSend(PatientExchange, SyncRequestKey, SyncRequestBody(requestId, providerId, status), attempt);
      if !sent {
        r := Err("AmqpException: sync request not sent");
        return;
      }
      if wait.Interrupted? {
        r := Ok([]);
        return;
      }
      if wait.Response? {
        HandlePatientResponse(wait.patients);
      }
      var received := Poll();
      if received.None? {
        r := Ok([]);
        return;
      }
      r := Ok(FilterByStatus(received.value, status));
    }

    /** `activatePatient`: one status command PENDING to ACTIVE; a failed send throws to the caller. */
    method ActivatePatient(patientId: string, providerId: string, reason: Option<string>, now: Timestamp, attempt: SendAttempt)
      returns (r: Result<()>)
      modifies rabbitTemplate
      ensures rabbitTemplate.outbox == AfterPublish(old(rabbitTemplate.outbox), StatusUpdateMessage(patientId, providerId, "ACTIVE", "PENDING", reason, now), attempt)
      ensures r.Ok? <==> attempt == Delivered
    {
      var sent := rabbitTemplate.ConvertAndSend(PatientExchange, StatusUpdateKey, StatusUpdateBody(patientId, providerId, "ACTIVE", "PENDING", reason, now), attempt);
      r := if sent then Ok(()) else Err("AmqpException: status update not sent");
    }

    /** `deactivatePatient`: one status command ACTIVE to INACTIVE; a failed send throws to the caller. */
    method DeactivatePatient(patientId: string, providerId: string, reason: Option<string>, now: Timestamp, attempt: SendAttempt)
      returns (r: Result<()>)
      modifies rabbitTemplate
      ensures rabbitTemplate.outbox == AfterPublish(old(rabbitTemplate.outbox), StatusUpdateMessage(patientId, providerId, "INACTIVE", "ACTIVE", reason, now), attempt)
      ensures r.Ok? <==> attempt == Delivered
    {
      var sent := rabbitTemplate.ConvertAndSend(PatientExchange, StatusUpdateKey, StatusUpdateBody(patientId, providerId, "INACTIVE", "ACTIVE", reason, now), attempt);
      r := if sent then Ok(()) else Err("AmqpException: status update not sent");
    }
  }

  /** A PENDING request over a PENDING and an ACTIVE patient keeps just the first, whatever the letter case of the request. */
  lemma PendingRequestKeepsPendingPatient(p1: PatientDTO, p2: PatientDTO)
    requires p1.accountStatus == Some("PENDING") && p2.accountStatus == Some("ACTIVE")
    ensures FilterByStatus([p1, p2], "PENDING") == [p1]
    ensures FilterByStatus([p1, p2], "pending") == [p1]
  {
    PendingIgnoringCase();
    KeepsFirstOnly(p1, p2, "PENDING");
    KeepsFirstOnly(p1, p2, "pending");
  }

  lemma PendingIgnoringCase()
    ensures EqualsIgnoreCase("pending", "PENDING")
  {
    var a, b := "pending", "PENDING";
    forall i | 0 <= i < 7
      ensures UpperChar(a[i]) == UpperChar(b[i])
    {
    }
  }

  lemma KeepsFirstOnly(p1: PatientDTO, p2: PatientDTO, status: string)
    requires !EqualsIgnoreCase("ALL", status)
    requires StatusMatches(status, p1) && !StatusMatches(status, p2)
    ensures FilterByStatus([p1, p2], status) == [p1]
  {
    var m := Matcher(status);
    assert [p1, p2][1..] == [p2] && [p2][1..] == [];
    assert Filter([p2], m) == [];
    assert Filter([p1, p2], m) == [p1] + Filter([p2], m);
  }

  /** "all" in any letter case returns every received patient, including those without a status. */
  lemma AllInAnyCaseKeepsEverything(patients: seq<PatientDTO>)
    ensures FilterByStatus(patients, "all") == patients
    ensures FilterByStatus(patients, "All") == patients
  {
    assert EqualsIgnoreCase("ALL", "all");
    assert EqualsIgnoreCase("ALL", "All");
  }
}
