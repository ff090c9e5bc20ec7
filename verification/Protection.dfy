/**
 The page states of a node, and the protection the child process's page table gives a page.
 The two are separate: a node keeps its page state when `sync` takes all access away.
 */
module Protection {

  /** The values the state byte can take in the source. */
  datatype Prot = Invalid | Read | Owned | Write

  /** What the child may do to a page without a fault. */
  datatype Hw = NoAccess | ReadOnly | ReadWrite

  const PROT_READ: bv8 := 0x01
  const PROT_WRITE: bv8 := 0x07
  const PROT_OWNED: bv8 := 0x05
  const PROT_INVALID: bv8 := 0x00

  function Bits(p: Prot): bv8 {
    match p
    case Invalid => PROT_INVALID
    case Read => PROT_READ
    case Owned => PROT_OWNED
    case Write => PROT_WRITE
  }

  predicate Check(info: bv8, prot: bv8) {
    info & prot == prot
  }

  predicate Ownership(p: Prot) {
    p.Owned? || p.Write?
  }

  predicate Writable(p: Prot) {
    p.Write?
  }

  predicate Readable(p: Prot) {
    !p.Invalid?
  }

  /** The three mask tests of the source decide exactly these questions about the state. */
  lemma MaskTests(p: Prot)
    ensures Readable(p) <==> Check(Bits(p), 0x01)
    ensures Writable(p) <==> Check(Bits(p), 0x07)
    ensures Ownership(p) <==> Check(Bits(p), 0x05)
    ensures Readable(p) <==> Bits(p) & 0x01 != 0
    ensures Bits(p) == if p == Read then 0x01 else if p == Write then 0x07 else if p == Owned then 0x05 else 0x00
  {
  }

  /** Distinct states have distinct bytes. */
  lemma BitsInjective(p: Prot, q: Prot)
    requires Bits(p) == Bits(q)
    ensures p == q
  {
  }
}
