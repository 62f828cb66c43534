/** Fixed-width unsigned integers, Option, and the C++ exceptions the plugin can raise. */
module Common {

  type uint8 = x: int | 0 <= x < 0x100
  type uint16 = x: int | 0 <= x < 0x1_0000
  type uint32 = x: int | 0 <= x < 0x1_0000_0000
  type uint64 = x: int | 0 <= x < 0x1_0000_0000_0000_0000

  datatype Option<T> = None | Some(value: T)

  /** The exceptions (or crashes) an operation of the plugin can end in. */
  datatype Exception =
    | OutOfRange        // std::out_of_range: std::map::at, std::string::insert, std::stoull
    | InvalidArgument   // std::invalid_argument: std::stoull found no digits
    | NullDereference   // a method called on a null WinRT object
    | BadVariantAccess  // std::get on an EncodableValue holding another alternative

  /** A value, or the exception that replaced it. */
  datatype Result<T> = Ok(value: T) | Err(error: Exception)
}
