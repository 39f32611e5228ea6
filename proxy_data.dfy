/** The records the background worker keeps: proxy profiles, the persisted
    application state, and the responses its message handlers send back. */
module ProxyData {

  datatype Option<+T> = None | Some(value: T)

  /** A proxy profile as the edit view sends it and as it is stored.
      `id` is null (None) on a draft that has never been saved.
      An absent username or password is the empty string: both are falsy
      for the worker, which is all it looks at. */
  datatype Profile = Profile(
    id: Option<string>,
    name: string,
    host: string,
    port: string,
    username: string,
    password: string)

  datatype ConnectionStatus = Disconnected | Connecting | Connected | Error

  /** The single persisted record. */
  datatype State = State(
    profiles: seq<Profile>,
    activeProfileId: Option<string>,
    connectionStatus: ConnectionStatus,
    lastPing: Option<int>)

  /** DEFAULT_STATE: no profiles, nothing active, disconnected, no ping. */
  const DefaultState := State([], None, Disconnected, None)

  datatype ToggleStatus = Enabled | Disabled

  /** The replies of the three state-changing handlers. */
  datatype Response =
    | Status(status: ToggleStatus)            // {status: "enabled" | "disabled"}
    | Saved(profileId: Option<string>)        // {success: true, profileId}
    | Deleted                                 // {success: true}
    | Failed(error: string)                   // {error}

  const MsgRequired := "Name, host and port are required"
  const MsgInvalidPort := "Invalid port number (1-65535)"
  const MsgDisconnectFailed := "Failed to disconnect proxy"
  const MsgProfileNotFound := "Profile not found"
  const MsgConnectFailed := "Failed to connect. Check proxy settings."
}
