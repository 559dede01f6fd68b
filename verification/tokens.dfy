/** The token that names the queues to poll. */
module Tokens {

  /** Temporary credentials; the zero value means that none were sent. */
  datatype AssumeRoleResult = AssumeRoleResult(
    accessKeyId: string, secretAccessKey: string, sessionToken: string, expireTimeMillis: int,
    roleId: string, roleArn: string)

  const NO_ROLE := AssumeRoleResult("", "", "", 0, "", "")

  type Url = string

  datatype Properties = Properties(
    assumeRoleResult: AssumeRoleResult,
    url: Url,
    region: string,
    successRefreshPeriod: int,
    errorRefreshPeriod: int)

  datatype Token = Token(ownerId: string, queuePropertiesList: seq<Properties>)
}
