/** Small shared vocabulary: optional values, results with an error, and bytes. */
module Common {

  /** A value that may be missing: Python's `None`, an absent dictionary key, an unset
      environment variable. */
  datatype Option<+T> = None | Some(value: T) {
    /** The value, or `default` when there is none (Python's `d.get(key, default)`). */
    function GetOr(default: T): T {
      match this
      case Some(v) => v
      case None => default
    }
  }

  /** The outcome of an operation that may raise: `Failure` carries the error text. */
  datatype Result<+T> = Success(value: T) | Failure(error: string) {
    function ToOption(): Option<T> {
      match this
      case Success(v) => Some(v)
      case Failure(_) => None
    }
  }

  /** One octet of a binary file or WebSocket frame. */
  newtype Byte = b: int | 0 <= b < 256

  /** A WebSocket client that may go away: `disconnectAt` is the number of messages of the
      current round it still receives (none: it stays).  The send after those raises, and
      so does every later send on that connection.  This predicate says the client still
      receives the first `n` messages of the round. */
  predicate Delivers(n: nat, disconnectAt: Option<nat>) {
    disconnectAt.None? || n <= disconnectAt.value
  }

  /** What the client receives of the messages `planned` for a round. */
  function Delivered<T>(planned: seq<T>, disconnectAt: Option<nat>): seq<T> {
    if Delivers(|planned|, disconnectAt) then planned else planned[..disconnectAt.value]
  }
}
