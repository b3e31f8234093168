/** The ways one attempt to send a poll can fail. Every kind is retried alike
    by the send loop; the last one is what the loop finally throws. */
module Errors {

  datatype Error =
    | ChatsUnavailable        // the client's chat-list request rejected
    | GroupNotFound(name: string)  // no group chat carries the target name
    | SendFailed              // the group was found but delivery rejected
}
