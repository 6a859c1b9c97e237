/**
 * The local checks both handlers run before any remote call: the UUID format
 * of the two user IDs (copy-roles only) and the presence of the three
 * credential fields (both endpoints). Nothing here touches the platform.
 */
module Validation {
  import opened Api

  /** Outcome of a local check: the validated value, or the 400 response to send. */
  datatype Checked<+T> = Accepted(value: T) | Rejected(response: Response)

  /** Credentials whose three fields were all present and non-empty. */
  datatype ValidCredentials = ValidCredentials(clientId: string, clientSecret: string, region: string)

  /** A copy-roles request that passed both checks. */
  datatype ValidCopy = ValidCopy(sourceUserID: string, targetUserID: string, credentials: ValidCredentials)

  /** JavaScript truthiness of a string field: present and not the empty string. */
  predicate Truthy(s: Option<string>) {
    s.Some? && s.value != ""
  }

  /**
   * `uuid.validate`: a value that is not a string is never a UUID; for a string
   * the format test is the library's and is left abstract as `isUUID`.
   */
  predicate IsUuid(isUUID: string -> bool, s: Option<string>) {
    s.Some? && isUUID(s.value)
  }

  /** The guard `!credentials || !credentials.clientId || ...` fails exactly when this is false. */
  predicate CredentialsPresent(c: Option<Credentials>) {
    c.Some? && Truthy(c.value.clientId) && Truthy(c.value.clientSecret) && Truthy(c.value.region)
  }

  /** The credentials check shared by both endpoints. */
  function CheckCredentials(c: Option<Credentials>): (r: Checked<ValidCredentials>)
    ensures r.Accepted? <==> CredentialsPresent(c)
    ensures r.Rejected? ==> r.response == MissingCredentials
    ensures r.Accepted? ==>
      && Some(r.value.clientId) == c.value.clientId && r.value.clientId != ""
      && Some(r.value.clientSecret) == c.value.clientSecret && r.value.clientSecret != ""
      && Some(r.value.region) == c.value.region && r.value.region != ""
  {
    if CredentialsPresent(c) then
      Accepted(ValidCredentials(c.value.clientId.value, c.value.clientSecret.value, c.value.region.value))
    else
      Rejected(MissingCredentials)
  }

  /** Both checks of the copy-roles handler, UUIDs first. */
  function ValidateCopy(req: CopyRequest, isUUID: string -> bool): (r: Checked<ValidCopy>)
    ensures !(IsUuid(isUUID, req.sourceUserID) && IsUuid(isUUID, req.targetUserID)) ==> r == Rejected(InvalidUuid)
    ensures IsUuid(isUUID, req.sourceUserID) && IsUuid(isUUID, req.targetUserID) && !CredentialsPresent(req.credentials)
            ==> r == Rejected(MissingCredentials)
    ensures r.Accepted? <==>
      IsUuid(isUUID, req.sourceUserID) && IsUuid(isUUID, req.targetUserID) && CredentialsPresent(req.credentials)
    ensures r.Accepted? ==>
      && Some(r.value.sourceUserID) == req.sourceUserID && isUUID(r.value.sourceUserID)
      && Some(r.value.targetUserID) == req.targetUserID && isUUID(r.value.targetUserID)
      && Accepted(r.value.credentials) == CheckCredentials(req.credentials)
  {
    if !IsUuid(isUUID, req.sourceUserID) || !IsUuid(isUUID, req.targetUserID) then
      Rejected(InvalidUuid)
    else
      match CheckCredentials(req.credentials)
      case Rejected(response) => Rejected(response)
      case Accepted(creds) => Accepted(ValidCopy(req.sourceUserID.value, req.targetUserID.value, creds))
  }
}
