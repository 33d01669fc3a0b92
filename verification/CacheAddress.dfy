/** How FunctionalCache cuts an address into tag, set and offset, and puts a victim's address
    together again. */
module CacheAddress {
  import opened Arithmetic

  /** extract(): bits `min` to `max`, inclusive. For bit 63 the mask is taken as all ones (the
      shift by 64 in the original is not defined by the language). */
  function Extract(max: int, min: nat, a: nat): nat
    requires max + 1 >= min
  {
    High(if max >= 63 then a else Low(a, max + 1), min)
  }

  function Offset(line: nat, a: nat): nat { Extract(line - 1, 0, a) }
  function SetId(sets: nat, line: nat, a: nat): nat
    requires sets + line <= 63
  { Extract(sets + line - 1, line, a) }
  function Tag(sets: nat, line: nat, a: nat): nat
    requires sets + line <= 63
  { Extract(63, sets + line, a) }

  /** insert() gives back the line number, TransactionComplete() the address. */
  function LineNumber(sets: nat, tag: nat, set_: nat): nat { tag * Pow2(sets) + set_ }
  function Rebuilt(sets: nat, line: nat, tag: nat, set_: nat, offset: nat): nat {
    LineNumber(sets, tag, set_) * Pow2(line) + offset
  }

  /** An address is put together again from its three parts, whatever the powers of two. */
  lemma RebuiltIsAddress(sets: nat, line: nat, a: nat)
    requires sets + line <= 63
    ensures Rebuilt(sets, line, Tag(sets, line, a), SetId(sets, line, a), Offset(line, a)) == a
    ensures SetId(sets, line, a) < Pow2(sets) && Offset(line, a) < Pow2(line)
  {
    hide Pow2;
    PowAdd(sets, line);
    PowZero();
    PutTogether(a, Pow2(line), Pow2(sets));
  }

  /** Two addresses have the same tag and set exactly when they lie in the same line. */
  lemma SameLine(sets: nat, line: nat, a: nat, b: nat)
    requires sets + line <= 63
    ensures Tag(sets, line, a) == Tag(sets, line, b) && SetId(sets, line, a) == SetId(sets, line, b) <==> High(a, line) == High(b, line)
  {
    hide Pow2;
    PowAdd(sets, line);
    NumberOf(a, Pow2(line), Pow2(sets));
    NumberOf(b, Pow2(line), Pow2(sets));
  }
}
