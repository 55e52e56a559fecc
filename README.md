# Provider-Service: the patient replica and the broker bridge, in Dafny

This project models the provider side of a two-service system in which patient records are owned by
a remote patient service. The provider service keeps a local replica of those records and reaches
the other service only through a message broker. The model covers:

- **The patient entity** (`Patient`): a class whose setters assign a field and stamp `lastUpdated`.
  It carries the pure helpers `hasRequiredInfo` and `getFullName`.
- **The patient repository**: the replica collection as a map from id to record, plus an insertion
  order that stands for the store's natural order. The unique email index is enforced on save.
  Every derived query is a function with a membership-and-order contract.
- **The patient management service**:
  - `addNewPatient`: insert-if-absent, so redelivery is idempotent.
  - `updatePatientProfile`: a null-skipping merge of the sixteen profile fields through the setters.
  - `activatePatient`: guarded by `hasRequiredInfo`, followed by an activation notice.
  - The read-side queries, the statistics, and the DTO projection.
- **The registration-event consumer**: field extraction with defaults, handing the patient to
  `addNewPatient`, and swallowing every error.
- **The message publisher**: three fixed-shape notices on `patient-care-exchange`. Serialisation
  failures and broker failures are logged and never thrown.
- **The synchronous query bridge** (`ProviderPatientService`):
  - a one-element response slot and one sync request per query;
  - a bounded wait, whose outcome is a parameter;
  - the case-insensitive status filter;
  - the one-way activate and deactivate commands.
- **Provider accounts** (`ProviderService`): registration with a unique email and an encoded
  password, profile completion that overwrites all eight fields, and lookup by email.

Things that are outside the program are parameters:

- the clock: `now`, in whole seconds, with one reading per operation;
- the generated identifiers: the UUID request id and the store's fresh document id;
- the password encoder;
- the ISO-8601 date-time parser: a partial function;
- the outcome of each broker send: `SendAttempt`;
- how the bounded wait ends: `WaitOutcome`.

A nullable profile, provider or reason field is an `Option`, with `None` for Java's `null`; the
identifying fields and the arguments listed under "Left out" are never null in the model. An
exception is `Result.Err`: a `RuntimeException` carries only its message, and any other exception
class (`UsernameNotFoundException`, `AmqpException`) is named before its message.

Three points about the code shape the model:

- **No correlation of sync responses.** `getPatients` never compares a response with its
  `requestId`: any list that reaches the slot during the wait is taken as the answer. `GetPatients`
  therefore takes the delivered list as a parameter, whatever request it answers.
- **The DTO projection.** The patient view (`PatientDTO`) follows what `convertToDTO` fills, field for
  field. `dto/PatientDTO.java` declares fewer fields than that method sets.
- **The provider's profile fields.** These come from `dto/ProfileCompletionRequest.java:9-19`.
  `completeProviderProfile` calls setters for them, but `models/Provider.java` does not
  declare those fields.

## Model

| member | source | states |
|---|---|---|
| PatientModel.PatientRecord.FullName | src/main/java/com/provider_service/models/Patient.java:285-290 | the name is the email when either name part is null; otherwise it is the first name, one space, then the last name, with the lengths adding up |
| PatientModel.PatientRecord.HasRequiredInfo | src/main/java/com/provider_service/models/Patient.java:292-295 | a patient with the required information has both name parts, so its full name is built from them and never falls back to the email |
| PatientModel.NewPatientIsIncomplete | src/main/java/com/provider_service/models/Patient.java:55-60 | a newly built patient lacks the required information, is not complete, is not activated, has no provider, and its full name is its email |
| PatientModel.Patient.constructor | src/main/java/com/provider_service/models/Patient.java:55-60 | the four-argument constructor sets id, email, status and registration date; lastUpdated is the construction time; every other field is null or false |
| PatientModel.Patient.SetId | src/main/java/com/provider_service/models/Patient.java:67-69 | assigns the id only, without stamping lastUpdated |
| PatientModel.Patient.SetEmail | src/main/java/com/provider_service/models/Patient.java:75-77 | assigns the email only, without stamping lastUpdated |
| PatientModel.Patient.SetAccountStatus | src/main/java/com/provider_service/models/Patient.java:83-86 | assigns the status and stamps lastUpdated; nothing else changes |
| PatientModel.Patient.SetRegistrationDate | src/main/java/com/provider_service/models/Patient.java:92-94 | assigns the registration date only |
| PatientModel.Patient.SetLastUpdated | src/main/java/com/provider_service/models/Patient.java:100-102 | assigns lastUpdated only |
| PatientModel.Patient.SetFirstName | src/main/java/com/provider_service/models/Patient.java:108-111 | assigns the first name and stamps lastUpdated; nothing else changes |
| PatientModel.Patient.SetLastName | src/main/java/com/provider_service/models/Patient.java:117-120 | assigns the last name and stamps lastUpdated |
| PatientModel.Patient.SetPhone | src/main/java/com/provider_service/models/Patient.java:126-129 | assigns the phone and stamps lastUpdated |
| PatientModel.Patient.SetDateOfBirth | src/main/java/com/provider_service/models/Patient.java:135-138 | assigns the date of birth and stamps lastUpdated |
| PatientModel.Patient.SetGender | src/main/java/com/provider_service/models/Patient.java:144-147 | assigns the gender and stamps lastUpdated |
| PatientModel.Patient.SetAddress | src/main/java/com/provider_service/models/Patient.java:153-156 | assigns the address and stamps lastUpdated |
| PatientModel.Patient.SetCity | src/main/java/com/provider_service/models/Patient.java:162-165 | assigns the city and stamps lastUpdated |
| PatientModel.Patient.SetState | src/main/java/com/provider_service/models/Patient.java:171-174 | assigns the state and stamps lastUpdated |
| PatientModel.Patient.SetZipCode | src/main/java/com/provider_service/models/Patient.java:180-183 | assigns the zip code and stamps lastUpdated |
| PatientModel.Patient.SetCountry | src/main/java/com/provider_service/models/Patient.java:189-192 | assigns the country and stamps lastUpdated |
| PatientModel.Patient.SetEmergencyContactName | src/main/java/com/provider_service/models/Patient.java:198-201 | assigns the emergency contact name and stamps lastUpdated |
| PatientModel.Patient.SetEmergencyContactPhone | src/main/java/com/provider_service/models/Patient.java:207-210 | assigns the emergency contact phone and stamps lastUpdated |
| PatientModel.Patient.SetBloodType | src/main/java/com/provider_service/models/Patient.java:216-219 | assigns the blood type and stamps lastUpdated |
| PatientModel.Patient.SetAllergies | src/main/java/com/provider_service/models/Patient.java:225-228 | assigns the allergies and stamps lastUpdated |
| PatientModel.Patient.SetCurrentMedications | src/main/java/com/provider_service/models/Patient.java:234-237 | assigns the current medications and stamps lastUpdated |
| PatientModel.Patient.SetMedicalConditions | src/main/java/com/provider_service/models/Patient.java:243-246 | assigns the medical conditions and stamps lastUpdated |
| PatientModel.Patient.SetAssignedProviderId | src/main/java/com/provider_service/models/Patient.java:252-255 | assigns the provider id and stamps lastUpdated |
| PatientModel.Patient.SetAssignedProviderName | src/main/java/com/provider_service/models/Patient.java:261-264 | assigns the provider name and stamps lastUpdated |
| PatientModel.Patient.SetProfileCompleted | src/main/java/com/provider_service/models/Patient.java:270-273 | assigns the completion flag and stamps lastUpdated |
| PatientModel.Patient.SetActivated | src/main/java/com/provider_service/models/Patient.java:279-282 | assigns the activation flag and stamps lastUpdated |
| PatientModel.Patient.UpdateProfileCompletionStatus | src/main/java/com/provider_service/models/Patient.java:297-300 | the completion flag becomes hasRequiredInfo of the current fields, and lastUpdated is stamped |
| PatientManagement.HasRequiredInfoMeans | src/main/java/com/provider_service/models/Patient.java:292-295 | hasRequiredInfo holds iff all five required fields are non-null: first name, last name, phone, emergency contact name and phone |
| PatientRepository.Save | src/main/java/com/provider_service/models/Patient.java:15-16 | save succeeds iff no other patient has the email (the unique index); on success the store maps the id to the record and stays valid; a new id joins the end of the natural order and a known id keeps its place |
| PatientRepository.SaveSameEmailSucceeds | src/main/java/com/provider_service/models/Patient.java:15-16 | re-saving a stored patient with its email unchanged never violates the unique index |
| PatientRepository.FindById | src/main/java/com/provider_service/repository/PatientRepository.java:14 | present iff the id is stored, and it is then the stored record |
| PatientRepository.CountAll | src/main/java/com/provider_service/services/PatientManagementService.java:176 | `count()` equals the number of documents the store lists |
| PatientRepository.FindByAccountStatus | src/main/java/com/provider_service/repository/PatientRepository.java:16 | exactly the stored patients with that status, in natural order |
| PatientRepository.FindByAccountStatusOrderByRegistrationDateDesc | src/main/java/com/provider_service/repository/PatientRepository.java:19 | a permutation of the status query, ordered newest registration first |
| PatientRepository.FindByAssignedProviderId | src/main/java/com/provider_service/repository/PatientRepository.java:22 | exactly the patients assigned to that provider, in natural order |
| PatientRepository.FindByEmail | src/main/java/com/provider_service/repository/PatientRepository.java:25 | the unique patient with that email when one exists, and nothing when none does |
| PatientRepository.ExistsByEmail | src/main/java/com/provider_service/repository/PatientRepository.java:28 | true iff some stored patient has that email, which is when findByEmail finds one |
| PatientRepository.FindByProfileCompletedFalse | src/main/java/com/provider_service/repository/PatientRepository.java:31 | exactly the patients whose profile is not complete, in natural order |
| PatientRepository.FindByRegistrationDateBetween | src/main/java/com/provider_service/repository/PatientRepository.java:34-35 | exactly the patients registered between the two instants, both ends included |
| PatientRepository.FindRecentlyRegistered | src/main/java/com/provider_service/repository/PatientRepository.java:38-39 | exactly the patients registered at or after the instant |
| PatientRepository.CountByAccountStatus | src/main/java/com/provider_service/repository/PatientRepository.java:42 | equals the length of the status query |
| PatientRepository.CountByAssignedProviderId | src/main/java/com/provider_service/repository/PatientRepository.java:45 | equals the length of the provider query |
| PatientRepository.StatusCountsBounded | src/main/java/com/provider_service/services/PatientManagementService.java:174-176 | the counts of two different statuses add up to at most the total count |
| PatientManagement.ConvertToDTO | src/main/java/com/provider_service/services/PatientManagementService.java:192-220 | the view carries the patient's id, email, status, registration date and lastUpdated (all non-null), its sixteen profile fields, its provider fields and its completion flag |
| PatientManagement.ConvertToDTOForgetsOnlyActivated | src/main/java/com/provider_service/services/PatientManagementService.java:192-220 | two patients have the same view iff they agree on every field except the activation flag |
| PatientManagement.InsertIfAbsent | src/main/java/com/provider_service/services/PatientManagementService.java:51-63 | a known id returns the stored patient and changes nothing; a taken email fails and changes nothing; otherwise the new patient is stored and returned, its id last in the natural order |
| PatientManagement.InsertIfAbsentIdempotent | src/main/java/com/provider_service/services/PatientManagementService.java:53-56 | inserting the same patient a second time leaves the store as the first insert did |
| PatientManagement.MergeProfileOverwritesSuppliedFields | src/main/java/com/provider_service/services/PatientManagementService.java:75-127 | each of the sixteen fields takes the update's value when it is non-null, and keeps its current value otherwise |
| PatientManagement.MergeProfileIdempotent | src/main/java/com/provider_service/services/PatientManagementService.java:75-127 | applying the same update twice gives the same profile as applying it once |
| PatientManagement.MergeProfileNeutral | src/main/java/com/provider_service/services/PatientManagementService.java:75-127 | an all-null update, or an update equal to the profile, changes nothing |
| PatientManagement.UpdatedRecordKeepsIdentity | src/main/java/com/provider_service/services/PatientManagementService.java:66-140 | a profile update keeps id, email, status, registration date and activation flag; it sets the provider fields; the completion flag equals hasRequiredInfo; a complete profile stays complete |
| PatientManagement.UpdateWithOwnViewKeepsProfile | src/main/java/com/provider_service/services/PatientManagementService.java:75-127 | submitting the patient's own view as the update leaves the profile unchanged |
| PatientManagement.UpdatedRecordIdempotent | src/main/java/com/provider_service/services/PatientManagementService.java:66-140 | repeating an update with the same arguments gives what one update gives at the later time |
| PatientManagement.CopyPersonalInformation | src/main/java/com/provider_service/services/PatientManagementService.java:75-90 | for names, phone, date of birth and gender, each field takes the supplied value when it is non-null; no other field changes apart from lastUpdated |
| PatientManagement.CopyAddressInformation | src/main/java/com/provider_service/services/PatientManagementService.java:92-107 | the same null-skipping copy for the five address fields |
| PatientManagement.CopyEmergencyContact | src/main/java/com/provider_service/services/PatientManagementService.java:109-115 | the same null-skipping copy for the emergency contact name and phone |
| PatientManagement.CopyMedicalHistory | src/main/java/com/provider_service/services/PatientManagementService.java:116-127 | the same null-skipping copy for blood type, allergies, medications and conditions |
| PatientManagement.PatientManagementService.GetPendingPatients | src/main/java/com/provider_service/services/PatientManagementService.java:29-34 | exactly the views of the PENDING patients, newest registration first: the repository's sorted query mapped through the view, one view per patient |
| PatientManagement.PatientManagementService.GetProviderPatients | src/main/java/com/provider_service/services/PatientManagementService.java:37-42 | exactly the views of the patients assigned to the provider: the repository query mapped through the view, one view per patient, in natural order |
| PatientManagement.PatientManagementService.GetPatientById | src/main/java/com/provider_service/services/PatientManagementService.java:45-48 | present iff the id is stored, and it is then that patient's view |
| PatientManagement.PatientManagementService.ExistsById | src/main/java/com/provider_service/services/PatientManagementService.java:53 | true iff the id is stored |
| PatientManagement.PatientManagementService.AddNewPatient | src/main/java/com/provider_service/services/PatientManagementService.java:51-63 | the result and the new store are exactly those of insert-if-absent of a newly built patient; the store stays valid |
| PatientManagement.PatientManagementService.UpdatePatientProfile | src/main/java/com/provider_service/services/PatientManagementService.java:66-140 | an unknown id fails with "Patient not found with ID: " and the id, and changes nothing; otherwise the stored record becomes the merged, provider-assigned, re-evaluated record, keeping its place in the natural order, and its view is returned |
| PatientManagement.PatientManagementService.ActivatePatient | src/main/java/com/provider_service/services/PatientManagementService.java:143-170 | an unknown id fails with "Patient not found with ID: " and the id, a profile missing required fields with "Cannot activate patient: Profile is incomplete. …", and either way nothing is stored or sent; otherwise the patient is stored ACTIVE, activated and assigned, in the same place in the natural order; one activation notice is attempted; the view is returned |
| PatientManagement.PatientManagementService.GetPatientStats | src/main/java/com/provider_service/services/PatientManagementService.java:173-179 | the pending and active counts equal the sizes of those status queries; the total is the number of stored patients and is at least their sum |
| PatientManagement.PatientManagementService.GetRecentlyRegisteredPatients | src/main/java/com/provider_service/services/PatientManagementService.java:182-189 | exactly the views of the patients registered within the given number of days before now: the repository query mapped through the view, one view per patient, in natural order |
| Broker.Broker.ConvertAndSend | src/main/java/com/provider_service/services/MessagePublisherService.java:40 | the message joins the outbox iff the send succeeds; a failed send leaves the outbox as it was |
| MessagePublisher.AfterPublish | src/main/java/com/provider_service/services/MessagePublisherService.java:38-46 | the outbox keeps its prefix; it grows by exactly the message iff the attempt is delivered, and otherwise stays the same |
| MessagePublisher.MessagePublisherService.PublishPatientActivation | src/main/java/com/provider_service/services/MessagePublisherService.java:28-47 | at most one activation notice (status ACTIVE, "Your account has been activated by " plus the provider name) is sent on patient.activation, and nothing is thrown |
| MessagePublisher.MessagePublisherService.PublishMedicalUpdate | src/main/java/com/provider_service/services/MessagePublisherService.java:50-69 | at most one medical notice is sent on medical.updates, carrying the action and data unchanged; nothing is thrown |
| MessagePublisher.MessagePublisherService.PublishPatientProfileUpdate | src/main/java/com/provider_service/services/MessagePublisherService.java:72-92 | at most one PROFILE_UPDATE notice is sent on patient.profile.update, carrying the updated fields; nothing is thrown |
| ProviderMessageConsumer.Extract | src/main/java/com/provider_service/config/ProviderMessageConsumer.java:33-45 | succeeds iff the event is an object with patientId and email and any registrationDate parses; the status defaults to PENDING and the date to now |
| ProviderMessageConsumer.Ingest | src/main/java/com/provider_service/config/ProviderMessageConsumer.java:28-54 | a malformed event leaves the store unchanged; a usable one changes it exactly as insert-if-absent of the patient built from the extracted fields; the store stays valid |
| ProviderMessageConsumer.FirstRegistrationDefaultsToPending | src/main/java/com/provider_service/config/ProviderMessageConsumer.java:36-48 | the first registration of a new id with a free email and no accountStatus adds exactly one patient, PENDING, with the event's email and an empty profile, and keeps every other patient |
| ProviderMessageConsumer.ExtractTimeIndependent | src/main/java/com/provider_service/config/ProviderMessageConsumer.java:33-45 | whether an event is usable, and the patient id and email it yields, do not depend on when it is handled |
| ProviderMessageConsumer.IngestRedeliveryIdempotent | src/main/java/com/provider_service/config/ProviderMessageConsumer.java:48 | handling the same event again, at any time, leaves the store as the first delivery left it |
| ProviderMessageConsumer.ProviderMessageConsumer.HandlePatientRegistration | src/main/java/com/provider_service/config/ProviderMessageConsumer.java:28-54 | the replica store changes exactly as Ingest says, and no error reaches the caller |
| Text.EqualsIgnoreCaseIsUpperEquality | src/main/java/com/provider_service/services/ProviderPatientService.java:69-74 | two strings are equal ignoring case iff their upper-case forms are equal |
| Text.EqualsIgnoreCaseIsEquivalence | src/main/java/com/provider_service/services/ProviderPatientService.java:74 | equality ignoring case is reflexive, symmetric and transitive |
| ProviderPatientService.FilterByStatus | src/main/java/com/provider_service/services/ProviderPatientService.java:69-75 | ALL in any case keeps the list. Any other status keeps each matching patient as often as it was received and drops the rest, null statuses included. The result is always a subsequence of the received list |
| ProviderPatientService.PendingRequestKeepsPendingPatient | src/main/java/com/provider_service/services/ProviderPatientService.java:73-75 | scenario (an instance of FilterByStatus): over a PENDING and an ACTIVE patient, a PENDING request, upper or lower case, returns just the first |
| ProviderPatientService.KeepsFirstOnly | src/main/java/com/provider_service/services/ProviderPatientService.java:73-75 | scenario (an instance of FilterByStatus): of two received patients, only the one whose status matches is kept |
| ProviderPatientService.AllInAnyCaseKeepsEverything | src/main/java/com/provider_service/services/ProviderPatientService.java:69-71 | "all" and "All" return every received patient |
| ProviderPatientService.ProviderPatientService.HandlePatientResponse | src/main/java/com/provider_service/services/ProviderPatientService.java:32-41 | the slot holds exactly the delivered list, and any untaken earlier list is discarded |
| ProviderPatientService.ProviderPatientService.Poll | src/main/java/com/provider_service/services/ProviderPatientService.java:60 | returns what the slot held and leaves it empty |
| ProviderPatientService.ProviderPatientService.GetPatients | src/main/java/com/provider_service/services/ProviderPatientService.java:43-82 | one sync request {requestId, providerId, status} is attempted on patient.exchange / patient.sync.request, and the slot ends empty. A failed send throws. A timeout or an interruption returns the empty list. A response returns its status-filtered list |
| ProviderPatientService.ProviderPatientService.ActivatePatient | src/main/java/com/provider_service/services/ProviderPatientService.java:84-98 | one status command ACTIVE, previously PENDING, with the reason, is attempted on patient.status.update; a failed send throws; nothing else changes |
| ProviderPatientService.ProviderPatientService.DeactivatePatient | src/main/java/com/provider_service/services/ProviderPatientService.java:100-114 | one status command INACTIVE, previously ACTIVE, is attempted on the same key; a failed send throws; nothing else changes |
| ProviderService.Provider.constructor | src/main/java/com/provider_service/models/Provider.java:26-33 | a new provider has no id, email or password, all four account flags true, and an empty profile |
| ProviderService.Provider.SetEmail | src/main/java/com/provider_service/models/Provider.java:85-87 | assigns the email only |
| ProviderService.Provider.SetPassword | src/main/java/com/provider_service/models/Provider.java:94-96 | assigns the password only |
| ProviderService.Provider.SetFullName | src/main/java/com/provider_service/services/ProviderService.java:45 | assigns the full name only, null included |
| ProviderService.Provider.SetProfessionalTitle | src/main/java/com/provider_service/services/ProviderService.java:46 | assigns the professional title only |
| ProviderService.Provider.SetSpecialty | src/main/java/com/provider_service/services/ProviderService.java:47 | assigns the specialty only |
| ProviderService.Provider.SetSubSpecialties | src/main/java/com/provider_service/services/ProviderService.java:48 | assigns the sub-specialties only |
| ProviderService.Provider.SetStateLicenses | src/main/java/com/provider_service/services/ProviderService.java:49 | assigns the state licenses only |
| ProviderService.Provider.SetPrimaryClinicName | src/main/java/com/provider_service/services/ProviderService.java:50 | assigns the primary clinic name only |
| ProviderService.Provider.SetClinicAddress | src/main/java/com/provider_service/services/ProviderService.java:51 | assigns the clinic address only |
| ProviderService.Provider.SetContactNumber | src/main/java/com/provider_service/services/ProviderService.java:52 | assigns the contact number only |
| ProviderService.FindProviderByEmail | src/main/java/com/provider_service/repository/ProviderRepository.java:10 | the unique provider with that email when one exists, and nothing when none does |
| ProviderService.ProviderExistsByEmail | src/main/java/com/provider_service/repository/ProviderRepository.java:12 | true iff some stored provider has that email |
| ProviderService.StoreKeepsValid | src/main/java/com/provider_service/models/Provider.java:20-21 | storing a provider whose email no other provider has keeps emails unique |
| ProviderService.SaveProvider | src/main/java/com/provider_service/services/ProviderService.java:36 | saves under the provider's id, or under a fresh id when it has none; succeeds iff no other provider has the email; the store stays valid, and only a new id is appended to the natural order |
| ProviderService.Registered | src/main/java/com/provider_service/services/ProviderService.java:32-34 | the registered provider has the id, the email and the encoded password; all flags are true and the profile is empty |
| ProviderService.ProviderService.LoadUserByUsername | src/main/java/com/provider_service/services/ProviderService.java:22-25 | returns a stored provider with that email iff one exists; otherwise it fails with "Provider not found with email: " |
| ProviderService.ProviderService.FindByEmail | src/main/java/com/provider_service/services/ProviderService.java:59-62 | the same lookup, failing with the bare not-found message of a RuntimeException |
| ProviderService.ProviderService.RegisterProvider | src/main/java/com/provider_service/services/ProviderService.java:27-37 | a taken email fails and changes nothing. Otherwise exactly one provider is added, last in the natural order, with that email and the encoded password, and looking the email up finds it. Emails stay unique |
| ProviderService.ProviderService.CompleteProviderProfile | src/main/java/com/provider_service/services/ProviderService.java:40-57 | an unknown id fails and changes nothing. Otherwise the stored provider's profile becomes exactly the request, nulls included, and id, email, password, flags and the natural order are kept |

## Left out

- HTTP controllers are not part of this model. That covers `ProviderController`, `ProviderPatientController` and `AuthController`: request routing, status-code mapping and the controller's find-first-by-id over `getPatients("ALL")`. `getPatients` therefore takes a non-null status; the controller supplies the `PENDING` default.
- `JwtService` (HS256 token signing and checking) is not part of this model.
- Broker topology and bean wiring in `config/RabbitConfig.java` and `config/RabbitMQConfig.java` are not modelled; only their exchange and routing-key strings are used. Two notes on that configuration:
  - no binding on `patient-care-exchange` matches `patient.profile.update`, so the broker would drop those notices;
  - both configuration classes declare `messageConverter` and `rabbitTemplate` beans.
- Threads and blocking are not modelled. `GetPatients` runs sequentially: the listener's delivery during the 3-second wait, the timeout and the interruption are the three cases of `WaitOutcome`. A late response to an earlier request is indistinguishable from the awaited one, in the model as in the code.
- Jackson is not modelled:
  - an outbound body is the map the publisher fills before serialisation;
  - a serialisation failure is the `ConversionFails` send outcome;
  - an inbound registration event is the object `readTree` yields, or `None` when the text is not a JSON object.
- Logging is not modelled.
- Null identifiers and arguments are not modelled. A patient's id, email, status, registration date and lastUpdated are plain values. So are the string arguments of the publisher, of the bridge and of `addNewPatient`, and the publisher's `updatedFields` map. Java would accept `null` for any of them; no core call site passes one, since the consumer always passes `asText()` renderings.
- External effects are parameters: the password encoder (`encode`), `UUID.randomUUID` (`requestId`), the store's generated document id (`freshId`, assumed unused), the ISO-8601 date-time parser (a partial function), and the clock.
- PatientManagement.PatientManagementService.UpdatePatientProfile: every setter reads the clock separately in the code. The model uses one reading, `now`, for the whole operation; the same holds for `ActivatePatient` and `HandlePatientRegistration`.
- Time is whole seconds. `LocalDateTime` precision and range limits are not modelled, and `minusDays(days)` is `days * 86400` seconds.
- Text.EqualsIgnoreCase: case folding covers the ASCII letters only. Java's `equalsIgnoreCase` also folds non-ASCII letters.
- Index creation is not modelled. The unique email index on patients and on providers is taken as always in force, although in the running system it exists only when the document store creates it.
- The store's natural order is modelled as insertion order; a document re-saved under an existing id keeps its place.
- The provider's account-flag setters, `getAuthorities` and the other `UserDetails` accessors are not part of this model; no core operation uses them.
- Bean validation (`@NotBlank` on `fullName`) is not part of this model; it runs in the controller layer.
- Patient getters, the no-argument constructor and the `PatientStats` accessors are not modelled. They only read fields, and `PatientStats` is a datatype.
