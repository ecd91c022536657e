/** The client a resolver picks, with the token it hands over. */
module Backends {

  /**
   * `new RestV1($apiToken)` or `new RestV2($apiToken)`. The version 2 client
   * is not part of this model, so both are represented by the choice and the
   * token alone.
   */
  datatype Client = RestV1Client(apiToken: string) | RestV2Client(apiToken: string)
}
