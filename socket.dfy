/** pkg/inapp/socket.go: the registry of live WebSocket connections, keyed by user id. */
module Socket {
  import opened Common
  import opened Http

  /** The payload pushed over a WebSocket. */
  datatype InAppNotification = InAppNotification(id: string, userId: string, message: string)

  /** gorilla/websocket's message type for UTF-8 text frames. */
  const TextMessage: int := 1

  datatype WsMessage = WsMessage(messageType: int, data: Bytes)

  /** A WebSocket connection, recording every write; write number k answers `writeOutcomes(k)`. */
  class Conn {
    var writes: seq<WsMessage>
    const writeOutcomes: nat -> Outcome

    constructor (writeOutcomes: nat -> Outcome)
      ensures this.writeOutcomes == writeOutcomes && writes == []
    {
      this.writeOutcomes := writeOutcomes;
      writes := [];
    }

    /** `conn.WriteMessage(messageType, data)`. */
    method WriteMessage(messageType: int, data: Bytes) returns (err: Outcome)
      modifies this
      ensures writes == old(writes) + [WsMessage(messageType, data)]
      ensures err == writeOutcomes(|old(writes)|)
    {
      err := writeOutcomes(|writes|);
      writes := writes + [WsMessage(messageType, data)];
    }
  }

  /** The process-wide `manager`. */
  class ClientManager {
    var clients: map<string, Conn>

    constructor ()
      ensures clients == map[]
    {
      clients := map[];
    }

    /** `RegisterClient`: `userID` now maps to `conn`, replacing any earlier connection;
        every other entry is unchanged. */
    method RegisterClient(userID: string, conn: Conn)
      modifies this
      ensures clients == old(clients)[userID := conn]
      ensures clients - {userID} == old(clients) - {userID}
    {
      clients := clients[userID := conn];
    }

    /** `SendInApp`, with `json.Marshal` given as `marshal`: a user without a connection is
        skipped without error; otherwise the encoding of the notification is written as one text
        message, and an encoding or write error is returned unchanged. The map is never changed,
        not even to drop a connection whose write failed. */
    method SendInApp(notification: InAppNotification, marshal: InAppNotification -> Result<Bytes>)
      returns (err: Outcome)
      modifies if notification.userId in clients then {clients[notification.userId]} else {}
      ensures clients == old(clients)
      ensures notification.userId !in clients ==> err == Pass
      ensures notification.userId in clients ==>
        var conn := clients[notification.userId];
        match marshal(notification)
        case Err(e) => err == Fail(e) && conn.writes == old(conn.writes)
        case Ok(data) =>
          && conn.writes == old(conn.writes) + [WsMessage(TextMessage, data)]
          && err == conn.writeOutcomes(|old(conn.writes)|)
    {
      if notification.userId !in clients {
        return Pass;
      }
      var conn := clients[notification.userId];
      var data := marshal(notification);
      if data.Err? {
        return Fail(data.error);
      }
      err := conn.WriteMessage(TextMessage, data.value);
    }
  }

  /** `WebSocketHandler` on the global manager, given the outcome of the upgrade: a failed
      upgrade gets a 400 response and registers nothing; a successful one registers the
      connection under the `userId` query parameter, even when that is empty. */
  method WebSocketHandler(manager: ClientManager, w: ResponseWriter, query: map<string, string>,
                          upgraded: Option<Conn>)
    modifies manager, w
    ensures var userID := if "userId" in query then query["userId"] else "";
      match upgraded
      case None =>
        && manager.clients == old(manager.clients)
        && w.status == StatusBadRequest
        && w.body == old(w.body) + "Could not open websocket connection\n"
      case Some(conn) =>
        manager.clients == old(manager.clients)[userID := conn] && unchanged(w)
  {
    var userID := if "userId" in query then query["userId"] else "";
    if upgraded.None? {
      w.Error("Could not open websocket connection", StatusBadRequest);
      return;
    }
    manager.RegisterClient(userID, upgraded.value);
  }
}
