/**
 * Ingestion of patient registration events (`config/ProviderMessageConsumer.java`): the event's
 * fields are extracted with defaults and handed to `addNewPatient`; any failure is logged and dropped.
 */
module ProviderMessageConsumer {
  import opened Wrappers
  import opened PatientModel
  import opened PatientRepository
  import opened PatientManagement

  /** A member of the event's JSON object as Jackson sees it: `null`, a scalar, or a nested array or object. */
  datatype JsonField = JsonNull | JsonScalar(text: string) | JsonContainer

  /** The event once read: `None` when the text is not JSON or is not an object, so that no field can be looked up. */
  type Event = Option<map<string, JsonField>>

  /** `asText()`: a JSON null renders as "null", a scalar as its text, a container as the empty string. */
  function AsText(f: JsonField): (s: string)
  {
    match f
    case JsonNull => "null"
    case JsonScalar(t) => t
    case JsonContainer => ""
  }

  /** The four arguments the consumer passes to `addNewPatient`. */
  datatype Registration = Registration(patientId: string, email: string, accountStatus: string, registrationDate: Timestamp)

  /** The event is usable: it is an object with `patientId` and `email`, and any `registrationDate` parses. */
  predicate WellFormed(event: Event, parseIsoDateTime: string -> Option<Timestamp>)
  {
    && event.Some?
    && "patientId" in event.value
    && "email" in event.value
    && ("registrationDate" in event.value ==> parseIsoDateTime(AsText(event.value["registrationDate"])).Some?)
  }

  /**
   * Field extraction: a missing `patientId` or `email` is a null dereference, an unparsable
   * `registrationDate` a parse error; a missing `accountStatus` defaults to PENDING and a missing
   * `registrationDate` to the current time.
   */
  function Extract(event: Event, now: Timestamp, parseIsoDateTime: string -> Option<Timestamp>): (r: Result<Registration>)
    ensures r.Ok? <==> WellFormed(event, parseIsoDateTime)
    ensures r.Ok? ==> r.value.patientId == AsText(event.value["patientId"]) && r.value.email == AsText(event.value["email"])
    ensures r.Ok? ==> r.value.accountStatus == (if "accountStatus" in event.value then AsText(event.value["accountStatus"]) else "PENDING")
    ensures r.Ok? ==>
      r.value.registrationDate == (if "registrationDate" in event.value then parseIsoDateTime(AsText(event.value["registrationDate"])).value else now)
  {
    if event.None? then Err("cannot read message as a JSON object")
    else
      var json := event.value;
      if "patientId" !in json || "email" !in json then Err("missing patientId or email")
      else
        var status := if "accountStatus" in json then AsText(json["accountStatus"]) else "PENDING";
        if "registrationDate" in json then
          match parseIsoDateTime(AsText(json["registrationDate"]))
          case None => Err("unparsable registrationDate")
          case Some(date) => Ok(Registration(AsText(json["patientId"]), AsText(json["email"]), status, date))
        else Ok(Registration(AsText(json["patientId"]), AsText(json["email"]), status, now))
  }

  /** The patient store after the consumer handles `event`: a usable event goes through `addNewPatient`, anything else is dropped. */
  function Ingest(c: PatientStore, event: Event, now: Timestamp, parseIsoDateTime: string -> Option<Timestamp>): (r: PatientStore)
    requires PatientRepository.Valid(c)
    ensures PatientRepository.Valid(r)
    ensures !WellFormed(event, parseIsoDateTime) ==> r == c
    ensures WellFormed(event, parseIsoDateTime) ==>
      var reg := Extract(event, now, parseIsoDateTime).value;
      r == InsertIfAbsent(c, NewPatient(reg.patientId, reg.email, reg.accountStatus, reg.registrationDate, now)).1
  {
    match Extract(event, now, parseIsoDateTime)
    case Err(_) => c
    case Ok(reg) => InsertIfAbsent(c, NewPatient(reg.patientId, reg.email, reg.accountStatus, reg.registrationDate, now)).1
  }

  /** Whether an event is usable does not depend on when it is handled. */
  lemma ExtractTimeIndependent(event: Event, t1: Timestamp, t2: Timestamp, parseIsoDateTime: string -> Option<Timestamp>)
    ensures Extract(event, t1, parseIsoDateTime).Ok? == Extract(event, t2, parseIsoDateTime).Ok?
    ensures Extract(event, t1, parseIsoDateTime).Ok? ==>
      Extract(event, t1, parseIsoDateTime).value.patientId == Extract(event, t2, parseIsoDateTime).value.patientId &&
      Extract(event, t1, parseIsoDateTime).value.email == Extract(event, t2, parseIsoDateTime).value.email
  {
  }

  /**
   * Redelivery is harmless: handling the same event a second time, at any later time, leaves the
   * store as the first delivery left it (the patient is already there, or its email is still taken).
   */
  lemma {:induction false} IngestRedeliveryIdempotent(c: PatientStore, event: Event, t1: Timestamp, t2: Timestamp, parseIsoDateTime: string -> Option<Timestamp>)
    requires PatientRepository.Valid(c)
    ensures Ingest(Ingest(c, event, t1, parseIsoDateTime), event, t2, parseIsoDateTime) == Ingest(c, event, t1, parseIsoDateTime)
  {
    ExtractTimeIndependent(event, t1, t2, parseIsoDateTime);
    var once := Ingest(c, event, t1, parseIsoDateTime);
    if Extract(event, t1, parseIsoDateTime).Ok? {
      var reg1 := Extract(event, t1, parseIsoDateTime).value;
      var reg2 := Extract(event, t2, parseIsoDateTime).value;
      var p1 := NewPatient(reg1.patientId, reg1.email, reg1.accountStatus, reg1.registrationDate, t1);
      var p2 := NewPatient(reg2.patientId, reg2.email, reg2.accountStatus, reg2.registrationDate, t2);
      assert p2.id == p1.id && p2.email == p1.email;
      if p1.id !in c.docs && EmailTakenByOther(c, p1.id, p1.email) {
        assert once == c;
        assert EmailTakenByOther(once, p2.id, p2.email);
      } else {
        assert p2.id in once.docs;
      }
    }
  }

  /**
   * The first registration of a new patient with a free email, sent without `accountStatus`, stores
   * exactly one more patient: PENDING, with the event's id and email, and no profile yet.
   */
  lemma FirstRegistrationDefaultsToPending(c: PatientStore, event: Event, now: Timestamp, parseIsoDateTime: string -> Option<Timestamp>)
    requires PatientRepository.Valid(c) && WellFormed(event, parseIsoDateTime)
    requires "accountStatus" !in event.value
    requires AsText(event.value["patientId"]) !in c.docs
    requires !EmailTakenByOther(c, AsText(event.value["patientId"]), AsText(event.value["email"]))
    ensures var id := AsText(event.value["patientId"]);
      var r := Ingest(c, event, now, parseIsoDateTime);
      && r.docs.Keys == c.docs.Keys + {id}
      && |r.docs| == |c.docs| + 1
      && r.docs[id].accountStatus == "PENDING"
      && r.docs[id].email == AsText(event.value["email"])
      && r.docs[id].profile == EmptyProfile && !r.docs[id].profileCompleted
      && (forall k :: k in c.docs ==> r.docs[k] == c.docs[k])
  {
    var id := AsText(event.value["patientId"]);
    var r := Ingest(c, event, now, parseIsoDateTime);
    assert r.docs.Keys == c.docs.Keys + {id};
    assert |r.docs.Keys| == |c.docs.Keys| + 1;
  }

  /** The listener: reads the event and registers the patient, swallowing every error. */
  class ProviderMessageConsumer {
    const patientManagementService: PatientManagementService

    constructor (patientManagementService: PatientManagementService)
      ensures this.patientManagementService == patientManagementService
    {
      this.patientManagementService := patientManagementService;
    }

    /** `handlePatientRegistration`: the store changes exactly as `Ingest` says, and no error escapes. */
    method HandlePatientRegistration(event: Event, now: Timestamp, parseIsoDateTime: string -> Option<Timestamp>)
      requires patientManagementService.Valid()
      modifies patientManagementService
      ensures patientManagementService.Valid()
      ensures patientManagementService.patients == Ingest(old(patientManagementService.patients), event, now, parseIsoDateTime)
    {
      var extracted := Extract(event, now, parseIsoDateTime);
      if extracted.Err? {
        return;
      }
      var reg := extracted.value;
      var _ := patientManagementService.AddNewPatient(reg.patientId, reg.email, reg.accountStatus, reg.registrationDate, now);
    }
  }
}
