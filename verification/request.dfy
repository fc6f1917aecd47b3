/**
 * The multipart mark on the raw Node.js request (`req[kMultipart]` in index.js).
 * The content type parser sets it; `isMultipart` and `attachToBody` read it.
 */
module Request {

  /** The raw incoming request, reduced to the one property the plugin stores on it. */
  class Message {
    /** `req[kMultipart]`: `undefined` until the content type parser runs, read as `false`. */
    var multipart: bool

    constructor ()
      ensures !IsMultipart(this)
    {
      multipart := false;
    }
  }

  /** `isMultipart`: `req[kMultipart] || false`. */
  function IsMultipart(req: Message): (r: bool)
    reads req
  {
    req.multipart
  }

  /**
   * `setMultipart`: the content type parser registered for `multipart`. It only marks the
   * request (and then calls its own `done()`, which carries no data); parsing happens later.
   */
  method SetMultipart(req: Message)
    modifies req
    ensures IsMultipart(req)
  {
    req.multipart := true;
  }
}
