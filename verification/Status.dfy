/** The status codes and limits shared by every component. */
module Statuses {
  datatype Option<+T> = None | Some(value: T)

  datatype Status =
    | OK
    | AGAIN
    | INVAL
    | RANK
    | DTYPE
    | BUDGET
    | NOTFOUND
    | DECODE
    | IO
    | OOM
    | SHUTDOWN

  const U32_MAX: nat := 0xFFFF_FFFF
  const U64_MAX: nat := 0xFFFF_FFFF_FFFF_FFFF
  const I64_MAX: nat := 0x7FFF_FFFF_FFFF_FFFF
  const MAX_RANK: nat := 31
}
