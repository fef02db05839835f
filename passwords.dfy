/** The `Password` record of service/models.py and its validators. */
module Passwords {

  /** Credentials of one pod. */
  datatype Password = Password(
    podId: string,
    adminUsername: string,
    adminPassword: string,
    userUsername: string,
    userPassword: string,
    tenantId: string,
    siteId: string)

  /**
   * Validation of a credential record: tenant and site come from the request,
   * both passwords are the freshly generated secrets, and the user name is
   * the pod id whatever was submitted.
   */
  function ValidatePassword(input: Password, tenantId: string, siteId: string, adminSecret: string, userSecret: string)
    : (r: Password)
    ensures r.userUsername == input.podId
    ensures r.podId == input.podId && r.adminUsername == input.adminUsername
    ensures r.tenantId == tenantId && r.siteId == siteId
    ensures r.adminPassword == adminSecret && r.userPassword == userSecret
  {
    input.(tenantId := tenantId, siteId := siteId, adminPassword := adminSecret, userPassword := userSecret)
         .(userUsername := input.podId)
  }

  /** Once validated, a record's user name stays its pod id under any further validation. */
  lemma UserUsernameStable(input: Password, t1: string, s1: string, a1: string, u1: string,
                           t2: string, s2: string, a2: string, u2: string)
    ensures var once := ValidatePassword(input, t1, s1, a1, u1);
      ValidatePassword(once, t2, s2, a2, u2).userUsername == once.userUsername == input.podId
  {
  }
}
