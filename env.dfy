/**
 * The deployment constants the program takes from its environment module:
 * the identity provider's origin, the primary OAuth client id and the
 * first-hop redirect target. They are parameters of the model.
 */
module Env {
  datatype Config = Config(origin: string, clientId: string, redirect: string)
}
