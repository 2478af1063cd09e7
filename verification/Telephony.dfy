/** The vocabulary shared by the call machine and the gateway loop: what the Telegram
    client, the SIP client and the calling backend report, and what a call does in return. */
module Telephony {

  /** PJSUA_INVALID_ID, the value of a context's SIP id when it has no SIP call. */
  const INVALID_ID: int := -1

  /** Context ids are a process prefix followed by a counter; the counter identifies them. */
  type CtxId = nat

  // ---- events from Telegram ----

  datatype TgCallState = Pending | ExchangingKeys | Ready | HangingUp | Discarded | Errored

  datatype TgCall = TgCall(id: int, userId: int, outgoing: bool, state: TgCallState)

  datatype Content = Text(text: string) | OtherContent

  datatype Sender = SenderUser(userId: int) | SenderChat

  datatype TgEvent =
    | UpdateCall(call: TgCall)
    | NewMessage(sender: Sender, content: Content)
    | NewSignalingData(callId: int, data: seq<int>)
    | OtherUpdate

  // ---- events from SIP ----

  datatype InvState = NullState | Calling | Incoming | Early | Connecting | Confirmed | Disconnected

  datatype SipEvent =
    | IncomingCall(id: int, extension: string)
    | CallStateUpdate(id: int, state: InvState)
    | CallMediaUpdate(id: int, hasMedia: bool)

  // ---- events the gateway sends to itself ----

  datatype InternalEvent =
    | InternalError(ctx: CtxId, status: nat)
    | SignalingDataEmitted(ctx: CtxId, data: seq<int>)

  /** What a call's state machine is asked to process. */
  datatype Event =
    | OnTgCall(call: TgCall)
    | OnMessage(content: Content)
    | OnSip(sip: SipEvent)
    | OnError(status: nat)

  // SIP status codes used when a call is torn down.
  const SC_NOT_FOUND: nat := 404
  const SC_BAD_EXTENSION: nat := 420
  const SC_INTERNAL_SERVER_ERROR: nat := 500

  /** What an error message of Telegram asks for: `Too Many Requests: retry after n`, `PEER_FLOOD`, or nothing. */
  datatype TgError = RetryAfter(seconds: nat) | PeerFlood | OtherError

  /** Everything observable a call does or learns, in order. */
  datatype Effect =
    | TgAcquired(tgId: int)                              // a Telegram leg now belongs to the call
    | SipAcquired(sipId: int)                            // a SIP leg now belongs to the call
    | TgEnded(tgId: int)                                 // Telegram reported the leg over
    | SipEnded(sipId: int)                               // SIP reported the leg over
    | TgDiscarded(tgId: int)                             // discardCall sent
    | SipHungUp(sipId: int, status: nat)                 // hangup sent, with its status
    | Called(extension: string)                          // the SIP caller dialled this extension
    | Rung(sipId: int)                                   // 180 sent
    | Answered(sipId: int)                               // 200 sent
    | Accepted(tgId: int)                                // acceptCall sent
    | MediaReady                                         // SIP media reported ready to the call
    | TgReady                                            // Telegram reported the call ready
    | Started                                            // voice controller running
    | Stopped                                            // voice controller stopped
    | Bridged(sipId: int)                                // audio connected
    | LookedUp(time: int, blockedUntil: int)             // directory request sent
    | Dialed(userId: int, time: int, blockedUntil: int)  // createCall sent
    | TgRefused(error: TgError, time: int)               // Telegram refused a directory request or createCall
    | DtmfSent(sipId: int, digits: string)
    | SignalingSent(tgId: int)                           // call signaling sent to Telegram
    | SignalingFed                                       // call signaling given to the controller
    | Failed(status: nat)                                // an action failed

  datatype Entry = Entry(ctx: CtxId, effect: Effect)
}
