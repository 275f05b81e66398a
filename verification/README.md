# TIP5 sponge pipeline

A Dafny model of the TIP5 hash pipeline of `src/tip5/hash.rs`: hashing of
sequences of base-field elements ("belts") with a sponge whose state is 16
words, the first `RATE = 10` of them the rate and the last 6 the capacity.

The model covers input validation (`assert_all_based`), the block split
(`tip5_calc_q_r`), the `~[1 0 … 0]` padding rule, the pointwise conversion
into Montgomery form, single-block and multi-block absorption, digest
extraction from the first 5 state words, the two initial states (all-zero for
variable-length mode, capacity filled with `4294967295` for fixed mode), and
the four entry points `hash_varlen`, `hash_10`, `hash_belts` and
`hash_belts_10`.

Layout:

- `field.dfy`, module `Field`: the field interface the pipeline consumes.
  `Word` is a `u64`, `Wide` a `u128`, `Belt` wraps one word. The canonical
  test (`based!`), `montify` and `mont_reduction` are supplied as function
  values in a `Gateway`, so nothing is assumed about them.
- `tip5.dfy`, module `Tip5`: every operation of `hash.rs`. The permutation is
  a parameter of type `State -> State`. Mutating functions take the buffer by
  value and return the buffer as the call leaves it. Panics of the entry
  points become a `Result` with a `Panic` that says which assertion fired.
  Absorption returns an `Absorption`: the final state plus the *trace*, which
  is the list of states handed to the permutation in call order. The source
  keeps no such list; the model keeps it so that the number of permutation
  calls and the words each call sees can be stated. `AbsorbInputLoop` is the
  countdown loop of `tip5_absorb_input` written as a method, proved equal to
  the recursive `AbsorbInput`.
- `tip5_properties.dfy`, module `Tip5Properties`: lemmas relating the
  operations. They cover the padding boundary, padding injectivity, which
  blocks reach the permutation, digest locality, and mode separation.

`RATE`, `STATE_SIZE` and `DIGEST_LENGTH` come from `src/tip5/mod.rs`, which is
not part of this model. They are taken as 10, 16 and 5.

## Model

| member | source | states |
|---|---|---|
| `Tip5.AssertAllBased` | src/tip5/hash.rs:5-8 | succeeds exactly when every element passes the canonical test; otherwise panics at the first failing element, with every earlier element canonical |
| `Tip5.CalcQR` | src/tip5/hash.rs:10-15 | `q * RATE + r` is the input length and `r < RATE`, so `RATE - r - 1` in the padding loop cannot underflow |
| `Tip5.Pad` | src/tip5/hash.rs:17-23 | the input is an unchanged prefix, a `1` sits at the old length, every later element is `0`, and the length grows by `RATE - r` |
| `Tip5Properties.PadReachesNextBlockBoundary` | src/tip5/hash.rs:11-23 | with `(q, r)` from the block split, the padded length is `(q + 1) * RATE`, a multiple of `RATE`, strictly longer than the input by at most `RATE` |
| `Tip5Properties.PadInjective` | src/tip5/hash.rs:17-23 | two inputs with the same padding are equal, so padding is never a no-op that could alias inputs of different lengths |
| `Tip5Properties.PadBoundaryCases` | src/tip5/hash.rs:17-23 | 9 elements gain only the marker; 10 elements gain a whole extra block `[1, 0, …, 0]`; the empty input pads to that block |
| `Tip5.MontifyVec` | src/tip5/hash.rs:25-30 | length is preserved and element `i` becomes `montify` of the old element `i`, nothing else |
| `Tip5Properties.MontifyBlock` | src/tip5/hash.rs:25-30 | converting and then cutting out block `k` equals cutting out block `k` and converting it |
| `Tip5Properties.DigestReadsOnlyLeadingWords` | src/tip5/hash.rs:32-39 | digest word `i` is `mont_reduction` of state word `i` for the 5 leading words, and two states that agree on those words give the same digest |
| `Tip5.AbsorbRate` | src/tip5/hash.rs:57-66 | the one state handed to the permutation holds the block in positions `0..RATE` and the old capacity in `RATE..16`; the result is the permutation of that state |
| `Tip5.AbsorbInput` | src/tip5/hash.rs:41-55 | exactly `q + 1` permutation calls; call `k` sees block `k` of the input in its rate; the first call sees the initial capacity; each later call sees the capacity the previous call produced; the final state is the last call's output |
| `Tip5.AbsorbInputLoop` | src/tip5/hash.rs:41-55 | the countdown loop with `break` at count 0 performs `q + 1` absorptions and yields the same final state and trace as `AbsorbInput` |
| `Tip5Properties.AbsorbInputIgnoresTail` | src/tip5/hash.rs:41-55 | inputs that agree on their first `(q + 1) * RATE` elements absorb identically; nothing after block `q` is read |
| `Tip5Properties.InitialStatesDiffer` | src/tip5/hash.rs:89-111 | both initial states have a zero rate; the variable-mode capacity is zero and every fixed-mode capacity word is `4294967295`, so the states differ in every capacity word |
| `Tip5.HashVarlen` | src/tip5/hash.rs:68-87 | succeeds exactly when every element is canonical, and otherwise panics in `based!` at a non-canonical element; on success it makes `n / RATE + 1` permutation calls for an input of length `n`, and leaves a buffer of `(n / RATE + 1) * RATE` elements, longer than the input |
| `Tip5Properties.VarlenAbsorbsPaddedBlocks` | src/tip5/hash.rs:68-87 | on canonical input: the buffer is the padded input in Montgomery form; call `k` sees converted padded block `k` in its rate; the first call has zero capacity; capacity carries from call to call; the digest comes from the last call's output |
| `Tip5Properties.EmptyInputIsOneMarkerBlock` | src/tip5/hash.rs:68-91 | the empty input makes exactly one permutation call. That call's state is the converted block `[1, 0, …, 0]` followed by six zero capacity words |
| `Tip5.Hash10` | src/tip5/hash.rs:113-132 | succeeds exactly when the input has 10 canonical elements. Fewer than 10 or 20 and more fail `q == 1`; 11 to 19 fail `r == 0`. On success: one permutation call, whose state is the converted input plus the fixed capacity; the buffer is converted but not padded |
| `Tip5Properties.Hash10IsOneRoundOfAbsorbInput` | src/tip5/hash.rs:113-132 | on valid input, `hash_10` gives the same trace and digest as `tip5_absorb_input` with `q = 0` run from the fixed-mode state |
| `Tip5Properties.Hash10LengthGuard` | src/tip5/hash.rs:113-118 | inputs of 0 and 9 elements fail `q == 1` with `q = 0`; 11 elements fail `r == 0` with `r = 1` |
| `Tip5Properties.ModesSeparated` | src/tip5/hash.rs:68-132 | on the same 10 canonical elements, both modes hand the permutation the same first rate block. The capacities of those first states differ in every word, and variable mode makes 2 calls where fixed mode makes 1 |
| `Tip5.HashBelts` | src/tip5/hash.rs:134-138 | succeeds exactly when every element is canonical; returns the digest and panic that `hash_varlen` gives on a copy; the input is passed by value, so the caller's sequence cannot change |
| `Tip5.HashBelts10` | src/tip5/hash.rs:140-144 | for a 10-element array: succeeds exactly when every element is canonical, else panics in `based!`; returns the digest `hash_10` gives on a copy |

## Left out

- The permutation, `montify`, `mont_reduction` and the `based!` macro live in modules that are not part of this model. They are parameters, so nothing about their values is stated. This also means no concrete digest values and no claim that the two modes give different digests. Mode separation is stated as "the states handed to the permutation differ".
- Digest range: that each digest word is canonical depends on `mont_reduction` and is not stated.
- Panic messages: a panic is modelled as the `Panic` value of the assertion that fired, not as the formatted message.
- Buffer after a panic: the buffer is left as it was, since every check runs before any mutation. The `Panicked` result carries no buffer.
- Lengths are unbounded integers; the `usize` width of a `Vec` length is not modelled.
- Aliasing and in-place mutation: mutating entry points take the buffer by value and return the new buffer.
- `src/math_error.rs` and `src/lib.rs`: an error enum and module declarations, neither used by the pipeline.
- The doc comment of `hash_belts_10` (src/tip5/hash.rs:140) calls the fixed-mode sponge "zero-capacity". The code at src/tip5/hash.rs:104-109 fills the capacity with `4294967295`, and the model follows the code.
