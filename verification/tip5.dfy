/** The TIP5 sponge pipeline: padding, Montgomery conversion, block
    absorption, the two domain-separated initial states and digest
    extraction, with the four hashing entry points built from them.

    The sponge state is 16 words: positions `[0, RATE)` are the rate,
    positions `[RATE, STATE_SIZE)` the capacity. The permutation is a
    parameter, so the model fixes the shape of the pipeline (which words are
    written, how many times and in which order the permutation runs) and not
    its cryptography.
 */
module Tip5 {
  import opened Field

  const RATE: nat := 10
  const STATE_SIZE: nat := 16
  const DIGEST_LENGTH: nat := 5

  /** The word that fills every capacity cell of the fixed-length mode. */
  const FIXED_CAPACITY_WORD: Word := 4294967295

  type State = s: seq<Word> | |s| == STATE_SIZE
    witness [0, 0, 0, 0, 0, 0, 0, 0, 0, 0, 0, 0, 0, 0, 0, 0]

  type Digest = d: seq<Word> | |d| == DIGEST_LENGTH
    witness [0, 0, 0, 0, 0]

  /** The keyless permutation applied to the whole state. */
  type Permutation = State -> State

  /** The panics the entry points can raise, in the order they are checked. */
  datatype Panic =
    | NotBased(index: nat)   // `based!` fails on the element at `index`
    | QNotOne(q: nat)        // `assert_eq!(q, 1)` in `hash_10`
    | RNotZero(r: nat)       // `assert_eq!(r, 0)` in `hash_10`

  datatype Result<T> = Ok(value: T) | Panicked(panic: Panic)

  /** The effect of absorbing: the final state, and every state handed to the
      permutation, in call order (`|trace|` is the number of calls). */
  datatype Absorption = Absorption(final: State, trace: seq<State>)

  /** What a mutating entry point leaves behind: the digest it returns, the
      caller's buffer as the call leaves it, and the permutation trace. */
  datatype Hashed = Hashed(digest: Digest, buffer: seq<Belt>, trace: seq<State>)

  /** The raw words of a sequence of belts. */
  function Raw(s: seq<Belt>): (w: seq<Word>)
    ensures |w| == |s|
    ensures forall i :: 0 <= i < |s| ==> w[i] == s[i].raw
  {
    seq(|s|, i requires 0 <= i < |s| => s[i].raw)
  }

  /** The `k`-th block of `RATE` consecutive elements. */
  function Block(s: seq<Belt>, k: nat): (b: seq<Belt>)
    requires (k + 1) * RATE <= |s|
  {
    s[k * RATE..(k + 1) * RATE]
  }

  /** The index of the first element that fails the canonical-range test,
      or `|s|` when there is none. */
  function FirstUnbased(g: Gateway, s: seq<Belt>): (i: nat)
    ensures i <= |s|
    ensures forall j :: 0 <= j < i ==> g.based(s[j].raw)
    ensures i < |s| ==> !g.based(s[i].raw)
  {
    if |s| == 0 then 0
    else if !g.based(s[0].raw) then 0
    else 1 + FirstUnbased(g, s[1..])
  }

  /** `assert_all_based`: walks the input in order and panics at the first
      element that is not canonical. */
  function AssertAllBased(g: Gateway, s: seq<Belt>): (r: Result<()>)
    ensures r.Ok? <==> AllBased(g, s)
    ensures r.Panicked? ==>
      && r.panic.NotBased?
      && r.panic.index < |s|
      && !g.based(s[r.panic.index].raw)
      && forall j :: 0 <= j < r.panic.index ==> g.based(s[j].raw)
  {
    var i := FirstUnbased(g, s);
    if i < |s| then Panicked(NotBased(i)) else Ok(())
  }

  /** `tip5_calc_q_r`: the number of whole blocks in the input and the
      length of the partial block after them. */
  function CalcQR(input: seq<Belt>): (qr: (nat, nat))
    ensures qr.0 * RATE + qr.1 == |input|
    ensures qr.1 < RATE
  {
    (|input| / RATE, |input| % RATE)
  }

  function Zeros(n: nat): (z: seq<Belt>)
    ensures |z| == n
    ensures forall i :: 0 <= i < n ==> z[i] == Belt(0)
  {
    seq(n, _ => Belt(0))
  }

  /** `tip5_pad_vecbelt`: appends the marker `1` and then `RATE - r - 1`
      zeros. The subtraction is on `usize`, so `r` must be below `RATE`. */
  function Pad(input: seq<Belt>, r: nat): (out: seq<Belt>)
    requires r < RATE
    ensures |out| == |input| + RATE - r
    ensures out[..|input|] == input
    ensures out[|input|] == Belt(1)
    ensures forall i :: |input| < i < |out| ==> out[i] == Belt(0)
  {
    input + [Belt(1)] + Zeros(RATE - r - 1)
  }

  /** `tip5_montify_vecbelt`: brings every element into Montgomery form,
      in place. */
  function MontifyVec(g: Gateway, s: seq<Belt>): (out: seq<Belt>)
    ensures |out| == |s|
    ensures forall i :: 0 <= i < |s| ==> out[i] == Belt(g.montify(s[i].raw))
  {
    if |s| == 0 then []
    else [Belt(g.montify(s[0].raw))] + MontifyVec(g, s[1..])
  }

  /** `tip5_calc_digest`: reduces the first `DIGEST_LENGTH` state words out
      of Montgomery form. */
  function CalcDigest(g: Gateway, sponge: State): (d: Digest)
  {
    [g.montReduction(sponge[0]), g.montReduction(sponge[1]), g.montReduction(sponge[2]),
     g.montReduction(sponge[3]), g.montReduction(sponge[4])]
  }

  /** `tip5_absorb_rate`: overwrites the rate with one block and permutes. */
  function AbsorbRate(perm: Permutation, sponge: State, block: seq<Belt>): (a: Absorption)
    requires |block| == RATE
    ensures |a.trace| == 1
    ensures a.trace[0][..RATE] == Raw(block)
    ensures a.trace[0][RATE..] == sponge[RATE..]
    ensures a.final == perm(a.trace[0])
  {
    var loaded: State := Raw(block) + sponge[RATE..];
    Absorption(perm(loaded), [loaded])
  }

  /** `tip5_absorb_input`: absorbs the blocks `0..=q` of `input` in order.
      `split_at(RATE)` needs `RATE` elements left at each of the `q + 1`
      rounds; anything after block `q` is never read. */
  function AbsorbInput(perm: Permutation, input: seq<Belt>, sponge: State, q: nat): (a: Absorption)
    requires (q + 1) * RATE <= |input|
    ensures |a.trace| == q + 1
    ensures forall k :: 0 <= k <= q ==> a.trace[k][..RATE] == Raw(Block(input, k))
    ensures a.trace[0][RATE..] == sponge[RATE..]
    ensures forall k :: 0 <= k < q ==> a.trace[k + 1][RATE..] == perm(a.trace[k])[RATE..]
    ensures a.final == perm(a.trace[q])
    decreases q
  {
    var first := AbsorbRate(perm, sponge, input[..RATE]);
    if q == 0 then first
    else
      var rest := AbsorbInput(perm, input[RATE..], first.final, q - 1);
      Absorption(rest.final, first.trace + rest.trace)
  }

  /** The loop of `tip5_absorb_input` as written: a countdown from `q` over
      the remaining slice, breaking after the block absorbed at count 0. */
  method AbsorbInputLoop(perm: Permutation, input: seq<Belt>, sponge: State, q: nat)
    returns (final: State, trace: seq<State>)
    requires (q + 1) * RATE <= |input|
    ensures |trace| == q + 1
    ensures Absorption(final, trace) == AbsorbInput(perm, input, sponge, q)
  {
    var cntQ: nat := q;
    var toAbsorb := input;
    final := sponge;
    trace := [];
    while true
      invariant cntQ <= q
      invariant (cntQ + 1) * RATE <= |toAbsorb|
      invariant |trace| == q - cntQ
      invariant var rest := AbsorbInput(perm, toAbsorb, final, cntQ);
        AbsorbInput(perm, input, sponge, q) == Absorption(rest.final, trace + rest.trace)
      decreases cntQ
    {
      var scag, slag := toAbsorb[..RATE], toAbsorb[RATE..];
      var a := AbsorbRate(perm, final, scag);
      ghost var before, start := trace, final;
      final, trace := a.final, trace + a.trace;
      if cntQ == 0 {
        break;
      }
      ghost var rest := AbsorbInput(perm, slag, final, cntQ - 1);
      assert AbsorbInput(perm, toAbsorb, start, cntQ) == Absorption(rest.final, a.trace + rest.trace);
      assert before + (a.trace + rest.trace) == trace + rest.trace;
      cntQ := cntQ - 1;
      toAbsorb := slag;
    }
  }

  /** `create_init_sponge_variable`: the all-zero state of variable-length
      mode. */
  function VariableInit(): (s: State)
  {
    seq(STATE_SIZE, _ => 0)
  }

  /** `create_init_sponge_fixed`: zero rate, every capacity word
      `4294967295`. */
  function FixedInit(): (s: State)
  {
    [0, 0, 0, 0, 0, 0, 0, 0, 0, 0,
     4294967295, 4294967295, 4294967295, 4294967295, 4294967295, 4294967295]
  }

  /** `hash_varlen`: validate, pad, convert, absorb from the all-zero state,
      extract the digest. The caller's buffer is left padded and in
      Montgomery form. */
  function HashVarlen(g: Gateway, perm: Permutation, input: seq<Belt>): (r: Result<Hashed>)
    ensures r.Ok? <==> AllBased(g, input)
    ensures r.Panicked? ==>
      r.panic.NotBased? && r.panic.index < |input| && !g.based(input[r.panic.index].raw)
    ensures r.Ok? ==>
      && |r.value.trace| == |input| / RATE + 1
      && |r.value.buffer| == (|input| / RATE + 1) * RATE
      && |r.value.buffer| > |input|
  {
    match AssertAllBased(g, input)
    case Panicked(p) => Panicked(p)
    case Ok(_) =>
      var (q, rem) := CalcQR(input);
      var buffer := MontifyVec(g, Pad(input, rem));
      var a := AbsorbInput(perm, buffer, VariableInit(), q);
      Ok(Hashed(CalcDigest(g, a.final), buffer, a.trace))
  }

  /** `hash_10`: exactly one block, no padding, absorbed once from the
      fixed-mode state. The length checks come before the canonical check. */
  function Hash10(g: Gateway, perm: Permutation, input: seq<Belt>): (r: Result<Hashed>)
    ensures r.Ok? <==> |input| == RATE && AllBased(g, input)
    ensures |input| < RATE || 2 * RATE <= |input| ==> r == Panicked(QNotOne(|input| / RATE))
    ensures RATE < |input| < 2 * RATE ==> r == Panicked(RNotZero(|input| - RATE))
    ensures |input| == RATE && r.Panicked? ==>
      r.panic.NotBased? && r.panic.index < |input| && !g.based(input[r.panic.index].raw)
    ensures r.Ok? ==>
      && |r.value.trace| == 1
      && r.value.buffer == MontifyVec(g, input)
      && r.value.trace[0][..RATE] == Raw(MontifyVec(g, input))
      && r.value.trace[0][RATE..] == FixedInit()[RATE..]
      && r.value.digest == CalcDigest(g, perm(r.value.trace[0]))
  {
    var (q, rem) := CalcQR(input);
    if q != 1 then Panicked(QNotOne(q))
    else if rem != 0 then Panicked(RNotZero(rem))
    else
      match AssertAllBased(g, input)
      case Panicked(p) => Panicked(p)
      case Ok(_) =>
        var buffer := MontifyVec(g, input);
        var a := AbsorbRate(perm, FixedInit(), buffer);
        Ok(Hashed(CalcDigest(g, a.final), buffer, a.trace))
  }

  /** `hash_belts`: hashes a copy, so the caller's sequence is only read.
      It returns the digest `hash_varlen` computes and panics where it does. */
  function HashBelts(g: Gateway, perm: Permutation, input: seq<Belt>): (r: Result<Digest>)
    ensures r.Ok? <==> AllBased(g, input)
    ensures r.Panicked? ==> HashVarlen(g, perm, input) == Panicked(r.panic)
    ensures r.Ok? ==> HashVarlen(g, perm, input).value.digest == r.value
  {
    var belts := input;
    match HashVarlen(g, perm, belts)
    case Panicked(p) => Panicked(p)
    case Ok(h) => Ok(h.digest)
  }

  /** `hash_belts_10`: the argument is a `[Belt; RATE]`, so its length is a
      fact of its type; only the canonical check can fail. */
  function HashBelts10(g: Gateway, perm: Permutation, input: seq<Belt>): (r: Result<Digest>)
    requires |input| == RATE
    ensures r.Ok? <==> AllBased(g, input)
    ensures r.Panicked? ==> Hash10(g, perm, input) == Panicked(r.panic) && r.panic.NotBased?
    ensures r.Ok? ==> Hash10(g, perm, input).value.digest == r.value
  {
    var belts := input;
    match Hash10(g, perm, belts)
    case Panicked(p) => Panicked(p)
    case Ok(h) => Ok(h.digest)
  }
}
