// Copies into the character buffers of the C sources.
module CStrings {
  const BUFFER := 256

  // A bounded copy, which leaves room for the terminator
  function Truncate(text: string): (copy: string)
    ensures copy <= text && |copy| == if |text| <= 255 then |text| else 255
  {
    if |text| < BUFFER then text else text[..BUFFER - 1]
  }
}
