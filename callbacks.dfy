/** What the plugin hands back to JavaScript: one result per callback, success or error. */
module Callbacks {
  import opened Wrappers
  import opened Text
  import opened Base64

  /** The JSON object of a successful capture or pick: `width`, `height`, `format`, `imageData`. */
  datatype Response = Response(width: int, height: int, format: string, imageData: string)

  /** A plugin result: a captured image, the `cleaned` count of a cleanup, or an error message. */
  datatype Reply = Ok(response: Response) | Cleaned(count: nat) | Err(message: string)

  /** The identifier of a pending JavaScript callback (`callbackId`, or the `CallbackContext` it belongs to). */
  type CallbackId = string

  datatype Delivery = Delivery(to: CallbackId, reply: Reply)

  /** A reply sent to the current callback if there is one, and nowhere otherwise. */
  function Notify(to: Option<CallbackId>, reply: Reply): (d: seq<Delivery>)
    ensures to.None? ==> d == []
    ensures to.Some? ==> d == [Delivery(to.value, reply)]
  {
    if to.Some? then [Delivery(to.value, reply)] else []
  }

  /** The scheme of a file payload. */
  const FileScheme: string := "file://"

  /** Base64 text never starts with the file scheme: its fifth character would have to be a colon. */
  lemma EncodedIsNotFileUri(b: seq<byte>)
    ensures !StartsWith(Encode(b), FileScheme)
  {
    EncodeAlphabet(b);
    if 5 <= |Encode(b)| {
      assert DigitOf(Encode(b)[4]) != Invalid;
    }
  }
}
