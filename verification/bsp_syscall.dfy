/**
 * The return-code convention of the Arcturus bootloader system calls
 * (`syscall_return` in bspstart.c): the `trap #2` handler leaves a `long`
 * in d0; the top 64 values of the unsigned range are negated error
 * numbers, every other value is the call's result.
 */
module BspSyscall {
  import opened BspWords

  /** What the caller observes: the returned value and, when set, `errno`. */
  datatype SyscallOutcome = SyscallOutcome(value: i32, errno: Option<int>)

  /**
   * The comparison is done on `(unsigned long)` values, as in the macro;
   * the contract restates it on the signed `long`: exactly -64..-1 are
   * errors, reported as `errno` 1..64 with a result of -1.
   */
  function SyscallReturn(ret: i32): (r: SyscallOutcome)
    ensures r.errno.Some? <==> -64 <= ret <= -1
    ensures r.errno.Some? ==> r.value == -1 && r.errno.value == -(ret as int)
    ensures r.errno.Some? ==> 1 <= r.errno.value <= 64
    ensures r.errno.None? ==> r.value == ret
  {
    if ToUnsigned(ret as int) >= ToUnsigned(-64) then
      SyscallOutcome(-1, Some(-(ret as int)))
    else
      SyscallOutcome(ret, None)
  }
}
