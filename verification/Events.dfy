/** The events an engine emits, and what a consumer can get back from polling for one. */
module Events {

  /** Why a connection was closed: the only reasons the client gives. */
  datatype CloseReason = ByDisconnection | ByLogout | ByStreamReplacement

  /** An event that some component pushes.  The drop notification is not among them:
      only polling creates it, so it is a constructor of `Polled` instead. */
  datatype Event =
    | QRUpdated(qr: string)
    | QRExpired
    | PairingSuccess(jid: string)
    | PairingFailed(failure: string)
    | PairingCode(code: string, phone: string)
    | ConnectionOpen
    | ConnectionClosed(reason: CloseReason)
    | ConnectionReconnecting
    | MessageReceived(message: string)
    | MessageSent(message: string)
    | MessageFailed(message: string)
    | LoggedIn(jid: string, isNewUser: bool)
    | LoggedOut
    | HistorySync

  /** The type tag that travels with an event; `Unset` is the empty string of a queue that has
      not yet overflowed. */
  datatype EventType =
    | Unset
    | QRUpdatedType
    | QRExpiredType
    | PairingSuccessType
    | PairingFailedType
    | PairingCodeType
    | ConnectionOpenType
    | ConnectionClosedType
    | ConnectionReconnectingType
    | MessageReceivedType
    | MessageSentType
    | MessageFailedType
    | LoggedInType
    | LoggedOutType
    | HistorySyncType

  function TypeOf(e: Event): EventType {
    match e
    case QRUpdated(_) => QRUpdatedType
    case QRExpired => QRExpiredType
    case PairingSuccess(_) => PairingSuccessType
    case PairingFailed(_) => PairingFailedType
    case PairingCode(_, _) => PairingCodeType
    case ConnectionOpen => ConnectionOpenType
    case ConnectionClosed(_) => ConnectionClosedType
    case ConnectionReconnecting => ConnectionReconnectingType
    case MessageReceived(_) => MessageReceivedType
    case MessageSent(_) => MessageSentType
    case MessageFailed(_) => MessageFailedType
    case LoggedIn(_, _) => LoggedInType
    case LoggedOut => LoggedOutType
    case HistorySync => HistorySyncType
  }

  /** What one poll answers: nothing, a pushed event, or a report that `count` events were lost. */
  datatype Polled =
    | Nothing
    | Delivered(event: Event)
    | DropReport(count: nat, oldestType: EventType)
}
