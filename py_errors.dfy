// The Python exceptions the builder classes raise, as values.
module PyErrors {
  /** The exception classes raised by the builder API. */
  datatype PyError =
    | IndexError
    | ValueError
    | KeyError
    | AssertionError
    | AttributeError
    | TypeError
      /** What the capnp binding raises when a value does not fit its field. */
    | KjException
}
