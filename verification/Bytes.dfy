// Octets, little-endian 16-bit integers and the number of the control service, shared by the QMI
// modules.

module Bytes {
  type Byte = b: int | 0 <= b < 0x100
  type U16 = n: int | 0 <= n < 0x1_0000

  const SERVICE_CONTROL: Byte := 0x00

  // Conversion of a Go int to uint16.
  function ToU16(n: nat): U16 {
    n % 0x1_0000
  }

  // binary.LittleEndian.PutUint16 and Uint16.
  function PutU16(n: U16): seq<Byte> {
    [n % 0x100, n / 0x100]
  }

  function GetU16(lo: Byte, hi: Byte): U16 {
    lo + 0x100 * hi
  }

  // b & 0x02 != 0 and b & 0x04 != 0.
  predicate HasBit1(b: Byte) {
    b / 2 % 2 == 1
  }

  predicate HasBit2(b: Byte) {
    b / 4 % 2 == 1
  }
}
