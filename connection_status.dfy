/**
 * The backend connectivity indicator (`src/components/ConnectionStatus.tsx`):
 * a tri-state `isConnected` (unknown, connected, disconnected) that each
 * completed health probe sets, with the error text and the time of the last
 * check. The 30-second timer only decides when probes happen and is not
 * part of this model; each completed probe is one call of `CheckConnection`.
 */
module ConnectionStatus {
  import opened Wrappers
  import opened Js
  import opened Api

  const ConnectionFailed: string := "Connection failed"

  /** What the indicator shows. */
  datatype Display = Checking | Connected | Disconnected(error: string)

  class ConnectionMonitor {
    /** `None` while no probe has completed. */
    var isConnected: Option<bool>
    var error: string
    var lastCheck: string
    /** The values passed to `onConnectionChange`, oldest first. */
    var notified: seq<bool>

    /** The component mounts in the unknown state. */
    constructor ()
      ensures isConnected == None && error == "" && lastCheck == "" && notified == []
      ensures Shown() == Checking
    {
      isConnected, error, lastCheck, notified := None, "", "", [];
    }

    /**
     * `checkConnection` once the health probe has settled (`now` is the local
     * time of day): success connects and clears the error; failure disconnects
     * with the exception's message, or `Connection failed`. Either way the
     * check time is recorded and observers get the value stored.
     */
    method CheckConnection(health: Result<Json, Exception>, now: string)
      modifies this
      ensures health.Success? ==> isConnected == Some(true) && error == ""
      ensures health.Failure? ==> isConnected == Some(false) && error == MessageOr(health.error, ConnectionFailed)
      ensures lastCheck == now
      ensures notified == old(notified) + [isConnected.value]
      ensures Shown() == if health.Success? then Connected else Disconnected(MessageOr(health.error, ConnectionFailed))
    {
      match health {
        case Success(_) =>
          isConnected := Some(true);
          error := "";
          lastCheck := now;
          notified := notified + [true];
        case Failure(err) =>
          isConnected := Some(false);
          error := MessageOr(err, ConnectionFailed);
          lastCheck := now;
          notified := notified + [false];
      }
    }

    /** One probe: the health check against `exchange`, then the state update. */
    method Probe(exchange: Exchange, decode: Decoder, now: string)
      modifies this
      ensures isConnected == Some(CheckHealth(exchange, decode).Success?)
      ensures isConnected == Some(true) ==> error == ""
      ensures isConnected == Some(false) ==> error == HealthFailureMessage
      ensures lastCheck == now && notified == old(notified) + [isConnected.value]
      ensures Shown() == if CheckHealth(exchange, decode).Success? then Connected else Disconnected(HealthFailureMessage)
    {
      CheckConnection(CheckHealth(exchange, decode), now);
    }

    /** The indicator: checking until the first probe completes, then connected or disconnected. */
    function Shown(): (d: Display)
      reads this
      ensures d.Checking? <==> isConnected.None?
      ensures d.Connected? <==> isConnected == Some(true)
      ensures isConnected == Some(false) ==> d == Disconnected(error)
    {
      match isConnected
      case None => Checking
      case Some(true) => Connected
      case Some(false) => Disconnected(error)
    }
  }
}
