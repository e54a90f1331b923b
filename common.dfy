/** Small shared datatypes: optional values and the Java exceptions the
    connectors raise, modelled as values. */
module Common {

  datatype Option<+T> = None | Some(value: T)

  /** Java exceptions that the modelled code throws or lets escape. */
  datatype Fault =
    | IllegalState      // IllegalStateException from connect/close/post
    | NoSuchElement     // NoSuchElementException from LineIterator.next
    | NullText          // NullPointerException: LineIterator over a null text
    | NumberFormat      // NumberFormatException from Integer.parseInt / Long.parseLong
    | IndexOutOfBounds  // queue.remove(0) on an empty list, lines[i] past the end
    | NullPointer       // NullPointerException: unboxing a Boolean that was never set

  /** A value, or the exception thrown instead of returning it. */
  datatype Result<+T> = Ok(value: T) | Err(fault: Fault)

  /** The request methods the polling transport uses; anything else is
      OtherMethod. */
  datatype HttpMethod = GET | POST | PUT | DELETE | OtherMethod

  /** Outcome of a call that returns nothing but may throw. */
  datatype Outcome = Done | Threw(fault: Fault)

  /** A non-empty sequence is its head before its tail, also with a suffix. */
  lemma ConsAppend<T>(s: seq<T>, suffix: seq<T>)
    requires s != []
    ensures [s[0]] + (s[1..] + suffix) == s + suffix
  {
    assert s == [s[0]] + s[1..];
  }

  /** Moving one element from the head of what is left to the end of what
      is done keeps the whole. */
  lemma ShiftOne<T>(done: seq<T>, x: T, rest: seq<T>)
    ensures done + ([x] + rest) == (done + [x]) + rest
  {
  }
}
