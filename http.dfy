/** The part of an HTTP server response the handlers use. */
module Http {

  import opened Wrappers

  class Response {
    var status: int
    var chunked: bool
    var contentType: Option<string>
    var body: string
    var ended: bool

    /** A fresh response: status 200, nothing written. */
    constructor ()
      ensures status == 200 && !chunked && contentType == None && body == "" && !ended
    {
      status := 200;
      chunked := false;
      contentType := None;
      body := "";
      ended := false;
    }

    method SetStatusCode(code: int)
      requires !ended
      modifies this
      ensures status == code
      ensures chunked == old(chunked) && contentType == old(contentType) && body == old(body) && !ended
    {
      status := code;
    }

    method SetChunked()
      requires !ended
      modifies this
      ensures chunked
      ensures status == old(status) && contentType == old(contentType) && body == old(body) && !ended
    {
      chunked := true;
    }

    method PutContentType(value: string)
      requires !ended
      modifies this
      ensures contentType == Some(value)
      ensures status == old(status) && chunked == old(chunked) && body == old(body) && !ended
    {
      contentType := Some(value);
    }

    /** Appends a chunk to what has been sent. */
    method Write(chunk: string)
      requires !ended
      modifies this
      ensures body == old(body) + chunk
      ensures status == old(status) && chunked == old(chunked) && contentType == old(contentType) && !ended
    {
      body := body + chunk;
    }

    /** Ends the response, with an optional last piece of text. */
    method End(last: string)
      requires !ended
      modifies this
      ensures body == old(body) + last && ended
      ensures status == old(status) && chunked == old(chunked) && contentType == old(contentType)
    {
      body := body + last;
      ended := true;
    }
  }
}
