/** The exceptions the modelled Java code throws, with the data their messages carry. */
module Errors {

  datatype Error =
    | NullPointer                                  // NullPointerException
    | IndexOutOfBounds(index: int, size: int)      // IndexOutOfBoundsException
    | NoSuchElement                                // NoSuchElementException
    | ConcurrentModification                       // ConcurrentModificationException
    | IllegalState(message: string)                // IllegalStateException
    | IllegalArgument(message: string)             // IllegalArgumentException
    | Unsupported(message: string)                 // UnsupportedOperationException
    | Runtime(message: string)                     // RuntimeException, or a library's unchecked exception
    | JsonParse(input: string)                     // maljson JSONException (checked)
    | IO(message: string)                          // IOException (checked)

  /** Java `catch (RuntimeException ex)` catches every kind except the two checked ones. */
  predicate IsRuntime(e: Error) {
    !(e.JsonParse? || e.IO?)
  }
}
