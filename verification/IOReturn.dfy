/** The IOKit codes of ioreturn/ioreturn.go that the models name. */
module IOReturn {
  const SUCCESS: int := 0
  const ERR_NO_MEMORY: int := -536870211
  const ERR_NO_RESOURCES: int := -536870210
  const ERR_NO_DEVICE: int := -536870208
  const ERR_BAD_ARGUMENT: int := -536870206
  const ERR_UNSUPPORTED: int := -536870201
  const ERR_NOT_OPEN: int := -536870195
  const ERR_TIMEOUT: int := -536854447

  /** A 32-bit word read as a signed number. */
  function Signed32(w: nat): int
    requires w < 0x1_0000_0000
  {
    if w < 0x8000_0000 then w else w - 0x1_0000_0000
  }

  /** The same codes as IOKit's headers write them. */
  lemma CodesInHex()
    ensures SUCCESS == 0 && ERR_NO_MEMORY == Signed32(0xE00002BD) && ERR_NO_RESOURCES == Signed32(0xE00002BE)
    ensures ERR_NO_DEVICE == Signed32(0xE00002C0) && ERR_BAD_ARGUMENT == Signed32(0xE00002C2)
    ensures ERR_UNSUPPORTED == Signed32(0xE00002C7) && ERR_NOT_OPEN == Signed32(0xE00002CD)
    ensures ERR_TIMEOUT == Signed32(0xE0004051)
  {}
}
