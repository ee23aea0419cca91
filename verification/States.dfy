/** The lifecycle states of an engine and of the client inside it, and the errors they report. */
module States {

  datatype EngineState = Stopped | Starting | Running | Stopping | EnginePairing

  datatype ClientState = Disconnected | Connecting | Connected | Reconnecting | Pairing

  datatype Error =
    | NotPaired
    | NotInitialized
    | AlreadyRunning
    | ConnectionFailed
    | ConnectionTimeout
    | PairingCodeFailed
    | StorageFailed
    | SessionNotFound
    | MaxSessionsExceeded
    | NotConnected
    | InvalidJID
    | SendFailed

  datatype Result<+T> = Ok(value: T) | Err(error: Error)
}
