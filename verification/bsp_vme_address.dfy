/**
 * Translation of VME bus addresses to local CPU addresses on the uC5282
 * (`BSP_vme2local_adrs` in bspstart.c). The board has no VME bus: two
 * chip-select windows of 16 MiB each, at 0x30000000 and 0x31000000, stand
 * in for the A24 and A16 spaces. Address-modifier codes are those of the
 * VME bus standard (ANSI/VITA 1).
 */
module BspVmeAddress {
  import opened BspWords

  const VME_AM_EXT_SUP_DATA: u32 := 0x0d   // A32, supervisor data
  const VME_AM_SUP_SHORT_IO: u32 := 0x2d   // A16, supervisor short I/O
  const VME_AM_STD_SUP_DATA: u32 := 0x3d   // A24, supervisor data

  const VME_ONE_BASE: u32 := 0x3000_0000
  const VME_TWO_BASE: u32 := 0x3100_0000
  /** Size of each chip-select window (`MCF5282_CS_CSMR_BAM_16M`). */
  const WINDOW_SIZE: int := 0x100_0000

  /**
   * The status returned and the value stored through `plocaladdr`
   * (`None` when the out-parameter is left untouched).
   */
  datatype AdrsResult = AdrsResult(rc: int, localAddr: Option<u32>)

  function Offset(am: u32): (off: Option<u32>)
  {
    if am == VME_AM_SUP_SHORT_IO then Some(0x3100_0000)
    else if am == VME_AM_STD_SUP_DATA then Some(0x3000_0000)
    else None
  }

  /**
   * Only the A16 and A24 supervisor codes are mapped; A32 and every other
   * code fail with -1 without writing the out-parameter. Mapped addresses
   * land in the matching chip-select window whenever the VME address fits
   * the address width, and wrap modulo 2^32 otherwise.
   */
  function Vme2LocalAdrs(am: u32, vmeaddr: u32): (r: AdrsResult)
    ensures r.rc == 0 || r.rc == -1
    ensures r.rc == 0 <==> am == VME_AM_SUP_SHORT_IO || am == VME_AM_STD_SUP_DATA
    ensures r.rc == -1 <==> r.localAddr.None?
    ensures am == VME_AM_SUP_SHORT_IO ==>
      r.localAddr == Some(((vmeaddr as int + 0x3100_0000) % TWO_32) as u32)
    ensures am == VME_AM_STD_SUP_DATA ==>
      r.localAddr == Some(((vmeaddr as int + 0x3000_0000) % TWO_32) as u32)
    ensures am == VME_AM_SUP_SHORT_IO && vmeaddr < 0x1_0000 ==>
      VME_TWO_BASE <= r.localAddr.value && r.localAddr.value as int < VME_TWO_BASE as int + 0x1_0000
    ensures am == VME_AM_STD_SUP_DATA && (vmeaddr as int) < WINDOW_SIZE ==>
      VME_ONE_BASE <= r.localAddr.value && r.localAddr.value as int < VME_ONE_BASE as int + WINDOW_SIZE
  {
    match Offset(am)
    case None => AdrsResult(-1, None)
    case Some(offset) => AdrsResult(0, Some(AddU32(vmeaddr, offset)))
  }

  /**
   * For a fixed address modifier the translation is one-to-one, even with
   * wrap-around: two VME addresses never share a local address.
   */
  lemma Vme2LocalInjective(am: u32, a: u32, b: u32)
    requires Vme2LocalAdrs(am, a).rc == 0
    requires Vme2LocalAdrs(am, a).localAddr == Vme2LocalAdrs(am, b).localAddr
    ensures a == b
  {}
}
