/** Host memory, by bus address. */
module HostMemory {
  import opened Words

  type Mem = int -> byte

  /** `memset`. */
  function Fill(m: Mem, addr: int, size: nat, v: byte): Mem {
    (x: int) => if addr <= x < addr + size then v else m(x)
  }
}
