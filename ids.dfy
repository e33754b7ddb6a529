/** Primary keys of the tables the core touches. */
module Ids {
  type UserId = nat
  type AgentId = nat
  type RequestId = nat
  type IntentId = nat
  type RunId = nat
  type EndpointId = nat
}
