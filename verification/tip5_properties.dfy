/** Properties that relate several operations of the TIP5 sponge pipeline:
    the padding rule and its injectivity, which blocks reach the
    permutation, what the digest reads, and the separation of the two modes.
 */
module Tip5Properties {
  import opened Field
  import opened Tip5

  /** Padding always lands on a block boundary strictly past the input: the
      padded length is `(q + 1) * RATE`, so `q + 1` blocks are there to
      absorb, and between one and `RATE` elements were appended. */
  lemma PadReachesNextBlockBoundary(input: seq<Belt>)
    ensures var (q, r) := CalcQR(input);
      && |Pad(input, r)| == (q + 1) * RATE
      && |Pad(input, r)| % RATE == 0
      && |input| < |Pad(input, r)| <= |input| + RATE
  {
  }

  /** Two inputs whose paddings coincide are the same input: the marker sits
      at the original length and only zeros follow it. */
  lemma PadInjective(a: seq<Belt>, b: seq<Belt>)
    requires Pad(a, CalcQR(a).1) == Pad(b, CalcQR(b).1)
    ensures a == b
  {
  }

  /** The two boundary cases of the padding rule: nine elements gain only
      the marker; ten elements, already a full block, gain a whole extra
      block `[1, 0, ..., 0]`; the empty input becomes that block alone. */
  lemma PadBoundaryCases(nine: seq<Belt>, ten: seq<Belt>)
    requires |nine| == 9 && |ten| == 10
    ensures Pad(nine, CalcQR(nine).1) == nine + [Belt(1)]
    ensures Pad(ten, CalcQR(ten).1) == ten + [Belt(1)] + Zeros(9)
    ensures Pad([], CalcQR([]).1) == [Belt(1)] + Zeros(9)
  {
  }

  /** Converting a buffer and then cutting out block `k` is cutting out the
      block and converting it. */
  lemma MontifyBlock(g: Gateway, s: seq<Belt>, k: nat)
    requires (k + 1) * RATE <= |s|
    ensures Block(MontifyVec(g, s), k) == MontifyVec(g, Block(s, k))
  {
  }

  /** Digest word `i` is state word `i` reduced out of Montgomery form, and
      the digest reads nothing else: states that agree on their first
      `DIGEST_LENGTH` words give the same digest. */
  lemma DigestReadsOnlyLeadingWords(g: Gateway, s1: State, s2: State)
    ensures forall i :: 0 <= i < DIGEST_LENGTH ==> CalcDigest(g, s1)[i] == g.montReduction(s1[i])
    ensures s1[..DIGEST_LENGTH] == s2[..DIGEST_LENGTH] ==> CalcDigest(g, s1) == CalcDigest(g, s2)
  {
  }

  /** Domain separation as far as it can be stated without the permutation:
      both initial states have a zero rate; the variable-mode capacity is
      zero and every fixed-mode capacity word is `4294967295`, so the two
      states differ in every capacity word. */
  lemma InitialStatesDiffer()
    ensures forall i :: 0 <= i < RATE ==> VariableInit()[i] == 0 && FixedInit()[i] == 0
    ensures forall i :: RATE <= i < STATE_SIZE ==>
      VariableInit()[i] == 0 && FixedInit()[i] == FIXED_CAPACITY_WORD
    ensures forall i :: RATE <= i < STATE_SIZE ==> VariableInit()[i] != FixedInit()[i]
    ensures VariableInit() != FixedInit()
  {
    assert VariableInit()[RATE] != FixedInit()[RATE];
  }

  /** Absorption never reads past block `q`. */
  lemma {:induction false} AbsorbInputIgnoresTail(perm: Permutation, a: seq<Belt>, b: seq<Belt>,
                                                  sponge: State, q: nat)
    requires (q + 1) * RATE <= |a| && (q + 1) * RATE <= |b|
    requires a[..(q + 1) * RATE] == b[..(q + 1) * RATE]
    ensures AbsorbInput(perm, a, sponge, q) == AbsorbInput(perm, b, sponge, q)
  {
    assert a[..RATE] == a[..(q + 1) * RATE][..RATE];
    assert b[..RATE] == b[..(q + 1) * RATE][..RATE];
    if q > 0 {
      var next := AbsorbRate(perm, sponge, a[..RATE]).final;
      assert a[RATE..][..q * RATE] == a[..(q + 1) * RATE][RATE..];
      assert b[RATE..][..q * RATE] == b[..(q + 1) * RATE][RATE..];
      AbsorbInputIgnoresTail(perm, a[RATE..], b[RATE..], next, q - 1);
    }
  }

  /** `hash_varlen` on canonical input hands the permutation, in order, the
      converted blocks of the padded input, starting from the all-zero
      state and carrying the capacity from each call to the next; the
      digest is read from the state after the last call, and the caller's
      buffer is left as the padded, converted input. */
  lemma VarlenAbsorbsPaddedBlocks(g: Gateway, perm: Permutation, input: seq<Belt>)
    requires AllBased(g, input)
    ensures var r := HashVarlen(g, perm, input);
      var padded := Pad(input, CalcQR(input).1);
      && r.Ok?
      && |padded| == |r.value.trace| * RATE
      && r.value.buffer == MontifyVec(g, padded)
      && (forall k :: 0 <= k < |r.value.trace| ==>
            r.value.trace[k][..RATE] == Raw(MontifyVec(g, Block(padded, k))))
      && r.value.trace[0][RATE..] == VariableInit()[RATE..]
      && (forall k :: 0 <= k < |r.value.trace| - 1 ==>
            r.value.trace[k + 1][RATE..] == perm(r.value.trace[k])[RATE..])
      && r.value.digest == CalcDigest(g, perm(r.value.trace[|r.value.trace| - 1]))
  {
  }

  /** The empty input is one block, the padding block `[1, 0, ..., 0]`,
      absorbed once into the all-zero state. */
  lemma EmptyInputIsOneMarkerBlock(g: Gateway, perm: Permutation)
    ensures var r := HashVarlen(g, perm, []);
      && r.Ok?
      && |r.value.trace| == 1
      && r.value.buffer == MontifyVec(g, [Belt(1)] + Zeros(9))
      && r.value.trace[0] == Raw(MontifyVec(g, [Belt(1)] + Zeros(9))) + VariableInit()[RATE..]
  {
  }

  /** `hash_10` is the first round of `tip5_absorb_input` with `q = 0`,
      started from the fixed-mode state: the commented-out call in the
      source and the single `tip5_absorb_rate` it was replaced by agree. */
  lemma Hash10IsOneRoundOfAbsorbInput(g: Gateway, perm: Permutation, input: seq<Belt>)
    requires |input| == RATE && AllBased(g, input)
    ensures var r := Hash10(g, perm, input);
      var a := AbsorbInput(perm, MontifyVec(g, input), FixedInit(), 0);
      r.Ok? && r.value.trace == a.trace && r.value.digest == CalcDigest(g, a.final)
  {
    var m := MontifyVec(g, input);
    assert m[..RATE] == m;
  }

  /** The length guard of `hash_10`: 0 and 9 elements fail `q == 1`,
      11 elements pass it and fail `r == 0`. */
  lemma Hash10LengthGuard(g: Gateway, perm: Permutation, input: seq<Belt>)
    requires |input| in {0, 9, 11}
    ensures |input| < RATE ==> Hash10(g, perm, input) == Panicked(QNotOne(0))
    ensures |input| == 11 ==> Hash10(g, perm, input) == Panicked(RNotZero(1))
  {
  }

  /** The same ten canonical elements hashed in the two modes: the first
      state handed to the permutation carries the same converted block in
      its rate but differs in every capacity word, and variable-length mode
      goes on to absorb a second, padding block where fixed mode stops. */
  lemma ModesSeparated(g: Gateway, perm: Permutation, input: seq<Belt>)
    requires |input| == RATE && AllBased(g, input)
    ensures var fixed, varlen := Hash10(g, perm, input), HashVarlen(g, perm, input);
      && fixed.Ok? && varlen.Ok?
      && |fixed.value.trace| == 1 && |varlen.value.trace| == 2
      && fixed.value.trace[0][..RATE] == varlen.value.trace[0][..RATE]
      && (forall i :: RATE <= i < STATE_SIZE ==>
            fixed.value.trace[0][i] != varlen.value.trace[0][i])
  {
  }
}
