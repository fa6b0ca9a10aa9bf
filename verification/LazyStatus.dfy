/** The status register as both 6510 cores keep it: N and Z are not stored but recomputed
    from the last result, `flagN` and `flagZ`; every other flag is a bit of `p`. */
module LazyStatus {
  import opened Words
  import opened Isa

  /** LOCAL_STATUS: the byte the cores push. */
  function LocalStatus(p: Bits, flagN: Byte, flagZ: Byte): Byte {
    Pack(p.(n := p.n || Negative(flagN), u := true, z := p.z || flagZ == 0))
  }

  /** Neither N nor Z lives in `p`. */
  predicate Clean(p: Bits) {
    !p.n && !p.z
  }

  /** The flags an eager machine would hold. */
  function Eager(p: Bits, flagN: Byte, flagZ: Byte): Flags {
    Flags(Negative(flagN), p.v, p.b, p.d, p.i, flagZ == 0, p.c)
  }

  /** Reading the lazy triple gives the byte of the eager flags exactly when `p` claims no N or Z
      that the last result does not show. */
  lemma StatusIsEager(p: Bits, flagN: Byte, flagZ: Byte)
    ensures LocalStatus(p, flagN, flagZ) == Eager(p, flagN, flagZ).ToByte()
            <==> (p.n ==> Negative(flagN)) && (p.z ==> flagZ == 0)
  {
    PackInjective(p.(n := p.n || Negative(flagN), u := true, z := p.z || flagZ == 0),
                  Bits(Negative(flagN), p.v, true, p.b, p.d, p.i, flagZ == 0, p.c));
  }

  /** Pushing the lazy status and pulling it back gives every flag back. */
  lemma PulledStatus(f: Flags)
    ensures FromByte(f.ToByte()) == f
  {
    UnpackPack(Bits(f.n, f.v, true, f.b, f.d, f.i, f.z, f.c));
  }
}
