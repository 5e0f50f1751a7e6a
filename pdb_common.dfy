/**
 * The record types shared by both symbol back ends (DumpLines/PdbCommon.h) and the
 * fixed-width unsigned integers they are made of.
 */
module PdbCommon {

  const TWO_32: int := 0x1_0000_0000
  const TWO_64: int := 0x1_0000_0000_0000_0000

  type uint8 = x: int | 0 <= x < 0x100
  type uint16 = x: int | 0 <= x < 0x1_0000
  type uint32 = x: int | 0 <= x < 0x1_0000_0000
  type uint64 = x: int | 0 <= x < 0x1_0000_0000_0000_0000

  /** Line number that the compilers emit for hidden (compiler-generated) sequence points. */
  const HIDDEN_LINE: uint32 := 0xFEEFEE

  /** One method or function of the module, as either back end reports it. */
  datatype MethodInfo = MethodInfo(
    name: string,
    modBase: uint64,
    address: uint64,
    size: uint32,
    rva: uint32,
    index: uint32,
    sourceFile: string,
    lineNumber: uint32)

  /** One metadata token and the symbol information found for it. */
  datatype TokenInfo = TokenInfo(
    token: uint32,
    index: uint32,
    flags: uint32,
    value: uint64,
    address: uint64,
    tag: uint32,
    name: string)
}
