/**
 * Outbound notifications to the patient service (`services/MessagePublisherService.java`). Each
 * publish builds a fixed-shape body, serialises it, hands it to the broker, and swallows any failure.
 */
module MessagePublisher {
  import opened PatientModel
  import opened Broker

  const ExchangeName := "patient-care-exchange"
  const ActivationKey := "patient.activation"
  const MedicalUpdatesKey := "medical.updates"
  const ProfileUpdateKey := "patient.profile.update"

  /** The activation notice for `patientId`, stamped `now`. */
  function ActivationMessage(patientId: string, providerId: string, providerName: string, now: Timestamp): Message
  {
    Message(ExchangeName, ActivationKey, map[
      "patientId" := Text(patientId),
      "providerId" := Text(providerId),
      "providerName" := Text(providerName),
      "status" := Text("ACTIVE"),
      "activationDate" := Time(now),
      "message" := Text("Your account has been activated by " + providerName)])
  }

  /** The medical-history notice: `action` (CREATE or UPDATE) and `data` are passed through unchanged. */
  function MedicalUpdateMessage(action: string, patientId: string, providerId: string, providerName: string,
                                medicalData: Value, now: Timestamp): Message
  {
    Message(ExchangeName, MedicalUpdatesKey, map[
      "action" := Text(action),
      "patientId" := Text(patientId),
      "providerId" := Text(providerId),
      "providerName" := Text(providerName),
      "data" := medicalData,
      "timestamp" := Time(now)])
  }

  /** The profile-update notice carrying the changed fields. */
  function ProfileUpdateMessage(patientId: string, providerId: string, providerName: string,
                                updatedFields: map<string, Value>, now: Timestamp): Message
  {
    Message(ExchangeName, ProfileUpdateKey, map[
      "action" := Text("PROFILE_UPDATE"),
      "patientId" := Text(patientId),
      "providerId" := Text(providerId),
      "providerName" := Text(providerName),
      "updatedFields" := Object(updatedFields),
      "timestamp" := Time(now)])
  }

  /** The outbox after one publish: the message is added only when serialisation and sending both succeed. */
  function AfterPublish(outbox: seq<Message>, m: Message, attempt: SendAttempt): (r: seq<Message>)
    ensures |outbox| <= |r| <= |outbox| + 1
    ensures r[..|outbox|] == outbox
    ensures |r| == |outbox| + 1 <==> attempt == Delivered
    ensures |r| == |outbox| + 1 ==> r[|outbox|] == m
  {
    if attempt == Delivered then outbox + [m] else outbox
  }

  /**
   * The publisher holds only the broker: it has no patient store, and its methods modify nothing
   * but the broker's outbox. None of them throws.
   */
  class MessagePublisherService {
    const broker: Broker

    constructor (broker: Broker)
      ensures this.broker == broker
    {
      this.broker := broker;
    }

    /** `publishPatientActivation` */
    method PublishPatientActivation(patientId: string, providerId: string, providerName: string,
                                    now: Timestamp, attempt: SendAttempt)
      modifies broker
      ensures broker.outbox == AfterPublish(old(broker.outbox), ActivationMessage(patientId, providerId, providerName, now), attempt)
    {
      var message: map<string, Value> := map[];
      message := message["patientId" := Text(patientId)];
      message := message["providerId" := Text(providerId)];
      message := message["providerName" := Text(providerName)];
      message := message["status" := Text("ACTIVE")];
      message := message["activationDate" := Time(now)];
      message := message["message" := Text("Your account has been activated by " + providerName)];
      if attempt == ConversionFails {
        return;  // writeValueAsString threw before anything was sent; the exception is logged
      }
      var _ := broker.ConvertAndSend(ExchangeName, ActivationKey, message, attempt);
    }

    /** `publishMedicalUpdate` */
    method PublishMedicalUpdate(action: string, patientId: string, providerId: string, providerName: string,
                                medicalData: Value, now: Timestamp, attempt: SendAttempt)
      modifies broker
      ensures broker.outbox == AfterPublish(old(broker.outbox),
        MedicalUpdateMessage(action, patientId, providerId, providerName, medicalData, now), attempt)
    {
      var message: map<string, Value> := map[];
      message := message["action" := Text(action)];
      message := message["patientId" := Text(patientId)];
      message := message["providerId" := Text(providerId)];
      message := message["providerName" := Text(providerName)];
      message := message["data" := medicalData];
      message := message["timestamp" := Time(now)];
      if attempt == ConversionFails {
        return;
      }
      var _ := broker.ConvertAndSend(ExchangeName, MedicalUpdatesKey, message, attempt);
    }

    /** `publishPatientProfileUpdate` */
    method PublishPatientProfileUpdate(patientId: string, providerId: string, providerName: string,
                                       updatedFields: map<string, Value>, now: Timestamp, attempt: SendAttempt)
      modifies broker
      ensures broker.outbox == AfterPublish(old(broker.outbox),
        ProfileUpdateMessage(patientId, providerId, providerName, updatedFields, now), attempt)
    {
      var message: map<string, Value> := map[];
      message := message["action" := Text("PROFILE_UPDATE")];
      message := message["patientId" := Text(patientId)];
      message := message["providerId" := Text(providerId)];
      message := message["providerName" := Text(providerName)];
      message := message["updatedFields" := Object(updatedFields)];
      message := message["timestamp" := Time(now)];
      if attempt == ConversionFails {
        return;
      }
      var _ := broker.ConvertAndSend(ExchangeName, ProfileUpdateKey, message, attempt);
    }
  }
}
