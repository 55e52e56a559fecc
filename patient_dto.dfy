/**
 * The patient view exchanged with callers and with the patient service (`dto/PatientDTO.java`), taken
 * as the field-for-field projection of a patient that `convertToDTO` fills. Every field may be `null`.
 */
module PatientDto {
  import opened Wrappers
  import opened PatientModel

  datatype PatientDTO = PatientDTO(
    id: Option<string>,
    email: Option<string>,
    accountStatus: Option<string>,
    registrationDate: Option<Timestamp>,
    profile: Profile,
    assignedProviderId: Option<string>,
    assignedProviderName: Option<string>,
    profileComplete: bool,
    lastUpdated: Option<Timestamp>
  )
}
