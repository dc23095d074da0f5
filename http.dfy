/** The part of Go's net/http response writer that the handlers use, as recorded state. */
module Http {
  import opened Common

  class ResponseWriter {
    /** Whether the writer also implements `http.Flusher`. */
    const isFlusher: bool
    /** The status code written, 0 while none has been. */
    var status: int
    var headers: map<string, string>
    /** Every byte written to the response body, in order. */
    var body: string
    /** How much of `body` has been flushed to the client. */
    var flushed: nat

    constructor (isFlusher: bool)
      ensures this.isFlusher == isFlusher
      ensures status == 0 && headers == map[] && body == "" && flushed == 0
    {
      this.isFlusher := isFlusher;
      status, headers, body, flushed := 0, map[], "", 0;
    }

    /** `w.Header().Set(key, value)`. */
    method SetHeader(key: string, value: string)
      modifies this
      ensures headers == old(headers)[key := value]
      ensures status == old(status) && body == old(body) && flushed == old(flushed)
    {
      headers := headers[key := value];
    }

    /** `fmt.Fprintf(w, ...)`: appends to the body without flushing it. */
    method Write(data: string)
      modifies this
      ensures body == old(body) + data
      ensures status == old(status) && headers == old(headers) && flushed == old(flushed)
    {
      body := body + data;
    }

    /** `Flush()`, which only a writer that is also an `http.Flusher` has: everything written
        so far reaches the client. */
    method Flush()
      requires isFlusher
      modifies this
      ensures flushed == |body|
      ensures status == old(status) && headers == old(headers) && body == old(body)
    {
      flushed := |body|;
    }

    /** `http.Error(w, message, code)`: the status code and the message as one line. */
    method Error(message: string, code: int)
      modifies this
      ensures status == code && body == old(body) + message + "\n"
      ensures headers == old(headers) && flushed == old(flushed)
    {
      status := code;
      body := body + message + "\n";
    }
  }
}
