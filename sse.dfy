/** pkg/inapp/sse.go: the registry of live server-sent-event streams, keyed by user id. */
module Sse {
  import opened Common
  import opened Http
  import EventStream

  /** One open stream: the response writer, which is also its flusher. */
  class SSEClient {
    const writer: ResponseWriter

    constructor (writer: ResponseWriter)
      ensures this.writer == writer
    {
      this.writer := writer;
    }
  }

  /** The event-stream headers `RegisterClient` sets on a stream it accepts. */
  function StreamHeaders(headers: map<string, string>): (h: map<string, string>)
    ensures h.Keys == headers.Keys + {"Content-Type", "Cache-Control", "Connection", "Access-Control-Allow-Origin"}
    ensures h["Content-Type"] == "text/event-stream" && h["Cache-Control"] == "no-cache"
    ensures h["Connection"] == "keep-alive" && h["Access-Control-Allow-Origin"] == "*"
    ensures forall k :: k in headers && k !in {"Content-Type", "Cache-Control", "Connection", "Access-Control-Allow-Origin"} ==>
      h[k] == headers[k]
  {
    headers["Content-Type" := "text/event-stream"]["Cache-Control" := "no-cache"]
      ["Connection" := "keep-alive"]["Access-Control-Allow-Origin" := "*"]
  }

  /** One push of `message` to the stream `w`: its frame is appended to the body and flushed,
      and the status and headers stay as they were. */
  twostate predicate Pushed(w: ResponseWriter, message: string)
    reads w
  {
    && w.body == old(w.body) + EventStream.Frame(message)
    && w.flushed == |w.body|
    && w.status == old(w.status) && w.headers == old(w.headers)
  }

  class SSEManager {
    var clients: map<string, SSEClient>

    /** Only streams whose writer can flush are ever registered, which is what lets a push
        flush the writer it finds. */
    ghost predicate Valid()
      reads this
    {
      forall u :: u in clients ==> clients[u].writer.isFlusher
    }

    constructor ()
      ensures Valid() && clients == map[]
    {
      clients := map[];
    }

    /** The first half of `RegisterClient`: check the writer, send the event-stream headers and
        install a fresh client under `userID`, replacing any earlier one; the rest of the map
        stays as it was. A writer that cannot flush gets a 500 response and nothing is installed. */
    method RegisterClient(userID: string, w: ResponseWriter)
      requires Valid()
      modifies this, w
      ensures Valid()
      ensures !w.isFlusher ==>
        && clients == old(clients)
        && w.status == StatusInternalServerError
        && w.body == old(w.body) + "Streaming unsupported!\n"
        && w.headers == old(w.headers)
      ensures w.isFlusher ==>
        && userID in clients && fresh(clients[userID]) && clients[userID].writer == w
        && clients - {userID} == old(clients) - {userID}
        && w.headers == StreamHeaders(old(w.headers))
        && w.body == old(w.body) && w.status == old(w.status)
    {
      if !w.isFlusher {
        w.Error("Streaming unsupported!", StatusInternalServerError);
        return;
      }
      w.SetHeader("Content-Type", "text/event-stream");
      w.SetHeader("Cache-Control", "no-cache");
      w.SetHeader("Connection", "keep-alive");
      w.SetHeader("Access-Control-Allow-Origin", "*");
      var client := new SSEClient(w);
      clients := clients[userID := client];
    }

    /** The second half of `RegisterClient`, once the client's Done channel fires: the entry
        under `userID` is deleted by key, whichever client it holds by then; deleting an absent
        key changes nothing. */
    method ClientDone(userID: string)
      requires Valid()
      modifies this
      ensures Valid()
      ensures clients == old(clients) - {userID}
      ensures userID !in old(clients) ==> clients == old(clients)
    {
      clients := clients - {userID};
    }

    /** Push one message: a user without a stream gets an error and nothing is written; otherwise
        the message is framed as one event-stream `data` line, written verbatim to that user's
        writer and flushed. The client map is never changed. */
    method SendNotification(userID: string, message: string) returns (err: Outcome)
      requires Valid()
      modifies if userID in clients then {clients[userID].writer} else {}
      ensures clients == old(clients)
      ensures userID !in clients ==> err == Fail(NoSSEConnection(userID))
      ensures userID in clients ==> err == Pass && Pushed(clients[userID].writer, message)
    {
      if userID !in clients {
        return Fail(NoSSEConnection(userID));
      }
      var client := clients[userID];
      client.writer.Write(EventStream.Frame(message));
      client.writer.Flush();
      err := Pass;
    }
  }

  /** `SSEHandler` on the global manager: a request without a `userId` query parameter gets a
      400 response and registers nothing; any other request registers its stream. */
  method SSEHandler(manager: SSEManager, w: ResponseWriter, query: map<string, string>)
    requires manager.Valid()
    modifies manager, w
    ensures manager.Valid()
    ensures var userID := if "userId" in query then query["userId"] else "";
      && (userID == "" ==>
            && manager.clients == old(manager.clients)
            && w.status == StatusBadRequest && w.body == old(w.body) + "Thiếu userId\n")
      && (userID != "" && w.isFlusher ==>
            && userID in manager.clients && manager.clients[userID].writer == w
            && manager.clients - {userID} == old(manager.clients) - {userID}
            && w.headers == StreamHeaders(old(w.headers))
            && w.body == old(w.body) && w.status == old(w.status))
      && (userID != "" && !w.isFlusher ==>
            && manager.clients == old(manager.clients)
            && w.status == StatusInternalServerError
            && w.body == old(w.body) + "Streaming unsupported!\n")
  {
    var userID := if "userId" in query then query["userId"] else "";
    if userID == "" {
      w.Error("Thiếu userId", StatusBadRequest);
      return;
    }
    manager.RegisterClient(userID, w);
  }

  /** Two streams registered in turn for the same user: a push reaches only the newer one, and
      when the older stream's Done fires, the delete by key drops the newer one as well. */
  method ReplacementScenario(message: string) returns (older: string, newer: string, stillRegistered: bool)
    ensures older == "" && newer == EventStream.Frame(message)
    ensures !stillRegistered
  {
    var manager := new SSEManager();
    var first := new ResponseWriter(true);
    var second := new ResponseWriter(true);
    manager.RegisterClient("u1", first);
    manager.RegisterClient("u1", second);
    var err := manager.SendNotification("u1", message);
    older, newer := first.body, second.body;
    manager.ClientDone("u1");
    stillRegistered := "u1" in manager.clients;
  }
}
