/** The stored session record. Its two timestamps are not part of this model. */
module Sessions {
  import opened Common

  type SessionId = string

  datatype SessionState = Stopped | Running | Error

  datatype Session = Session(
    id: SessionId,
    name: string,
    grcContent: string,
    schedulerAlias: Option<string>,
    state: SessionState,
    lastError: Option<string>)
}
