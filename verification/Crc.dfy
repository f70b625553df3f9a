/** CRC-32C (iSCSI), the checksum of a batch's records. */
module Crc {
  import opened Bytes

  function ShiftBits(crc: bv32, n: nat): bv32
    decreases n
  {
    if n == 0 then crc
    else ShiftBits(if crc & 1 == 1 then (crc >> 1) ^ 0x82F6_3B78 else crc >> 1, n - 1)
  }

  function Fold(crc: bv32, data: seq<byte>): bv32
    decreases |data|
  {
    if data == [] then crc else Fold(ShiftBits(crc ^ (data[0] as bv32), 8), data[1..])
  }

  function Crc32c(data: seq<byte>): u32 {
    (Fold(0xFFFF_FFFF, data) ^ 0xFFFF_FFFF) as nat
  }
}
