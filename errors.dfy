/** The error values the workflow can reject with (src/errors.ts and the plain
    `Error`s thrown in src/index.ts). */
module Errors {
  import opened Wrappers

  datatype Error =
    /** `VictorOpsError`: the message and, for an HTTP failure, the response status. */
    | VictorOpsError(message: string, status: Option<int>)
    /** `DiscordError`: a channel, permission or member check failed. */
    | DiscordError(message: string)
    /** A plain `Error` thrown by the workflow itself. */
    | PlainError(message: string)
    /** A rejection raised inside a remote client (discord.js), named by the operation. */
    | RemoteError(operation: string)
    /** A JavaScript `TypeError`: reading a property of `undefined`, or calling a
        method an object does not have. */
    | TypeError(message: string)
}
