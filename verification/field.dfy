/** The narrow interface of the base field that the TIP5 sponge consumes.

    The field itself (the `belt` module of the crate) is not part of this
    model: its canonical-range check, the conversion into Montgomery form and
    the Montgomery reduction are supplied by the caller as function values,
    so that every statement about the sponge holds whatever they compute.
 */
module Field {

  /** A raw machine word: the `u64` every sponge cell and every `Belt` holds. */
  type Word = x: int | 0 <= x < 0x1_0000_0000_0000_0000

  /** The `u128` that Montgomery reduction accepts; every `Word` widens into it. */
  type Wide = x: int | 0 <= x < 0x1_0000_0000_0000_0000_0000_0000_0000_0000

  /** A base-field element, a tuple struct around one raw word. Whether the
      word is canonical or in Montgomery form is known only from context. */
  datatype Belt = Belt(raw: Word)

  /** The three collaborators of the sponge pipeline in the field layer:
      - `based`: the canonical-range test behind the `based!` macro,
      - `montify`: conversion of a canonical word into Montgomery form,
      - `montReduction`: reduction of a (possibly wide) Montgomery value
        back to a canonical word. */
  datatype Gateway = Gateway(
    based: Word -> bool,
    montify: Word -> Word,
    montReduction: Wide -> Word)

  /** Every element of `s` passes the canonical-range test. */
  predicate AllBased(g: Gateway, s: seq<Belt>)
  {
    forall i :: 0 <= i < |s| ==> g.based(s[i].raw)
  }
}
