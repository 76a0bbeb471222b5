# Terms-hash shell, multi-phrase query and max payload function

A Dafny model of three sequential components of a C++ port of a full-text
search library:

- **The per-thread terms-hash shell** (`terms_hash_per_thread.dfy`, module
  `Index`). Each indexing thread owns a primary context (postings) chained to
  a secondary one (term vectors). The shell decides which context is primary,
  has the primary allocate the char pool and the secondary reuse it, resets
  the int and byte pools of every context but the char pool only from the
  primary, and drives the consumer stages through `startDocument`,
  `finishDocument` and `abort` in a fixed order. `finishDocument` links the two
  stages' per-document results into one chain. The pools, consumers and doc
  writers are abstract objects: a pool has an amount in use and a reset, a
  consumer hands out the doc its document produced, a doc writer has a `next`
  link. A shared event log records every pool reset and consumer call, so the
  contracts can state the order of calls.
- **The multi-phrase query** (`multi_phrase_query.dfy`, module `Search`). It is
  a class with the fields `field`, `termArrays`, `positions`, `slop` and
  `boost`. The lists are values in the model, and under that reading the
  class keeps an invariant: both lists have equal length and every term is in
  the query's field. The source shares list handles, so there the invariant
  can be broken from outside the class (see `Search.MultiPhraseQuery.Clone`
  under "Left out"). `add(terms, position)` checks the field in a loop, and
  its contract gives the new lists in terms of the old ones. `add(terms)` and
  `add(term)` delegate to it at the implicit position. `extractTerms`,
  `toString` and `termArraysHashCode` are methods with loops, each proved
  against a specification function. `rewrite` and `equals` are pure, and
  `clone` copies into a new or a given query.
- **The max payload function** (`max_payload_function.dfy`, module
  `Payloads`). It is the pure rule that picks the largest payload score, with
  1.0 when no payload was seen, plus its type-based `equals` and `hashCode`.
  Scores are `real`.

`numbers.dfy` (module `Numbers`) holds the `int32_t` type, two's-complement
wrap-around, and the decimal text an output stream writes for an integer.

Two facts about the terms-hash code shape the model:

- `reset(recyclePostings)` ignores its argument
  (src/core/index/TermsHashPerThread.cpp:94-101).
- A context is primary exactly when it has a next terms hash
  (src/core/index/TermsHashPerThread.cpp:41-51).

## Model

| member | source | states |
|---|---|---|
| `Numbers.Wrap32` | src/core/search/MultiPhraseQuery.cpp:167-170 | `int32_t` arithmetic: the result is an `int32_t` congruent to the exact value modulo 2^32, and equal to it when the exact value is in range |
| `Numbers.WrapMulAdd` | src/core/search/MultiPhraseQuery.cpp:169 | a step `31 * h + x` gives the same `int32_t` whether `h` was wrapped before the step or only at the end |
| `Numbers.DecimalString` | src/core/search/MultiPhraseQuery.cpp:139 | the streamed decimal text of an integer starts with '-' exactly when the integer is negative, and its first digit is '0' only for the integer 0, so there are no leading zeros |
| `Numbers.DecimalRoundTrip` | src/core/search/MultiPhraseQuery.cpp:138-139 | the decimal text written for the slop is made of digits after an optional '-', and reads back as the slop |
| `Search.MultiPhraseQuery.constructor` | src/core/search/MultiPhraseQuery.cpp:26-31 | a new query has no arrays, no positions, slop 0, boost 1.0, an empty field, and satisfies the invariant |
| `Search.MultiPhraseQuery.GetSlop` | src/core/search/MultiPhraseQuery.cpp:42-45 | the stored slop, which the constructor sets to 0 and `setSlop(s)` to `s` |
| `Search.MultiPhraseQuery.GetTermArrays` | src/core/search/MultiPhraseQuery.cpp:73-76 | the term arrays in the order added; for a valid query, one per position and every term in the field |
| `Search.MultiPhraseQuery.GetPositions` | src/core/search/MultiPhraseQuery.cpp:78-81 | the positions in the order added; for a valid query, one per term array |
| `Search.MultiPhraseQuery.SetSlop` | src/core/search/MultiPhraseQuery.cpp:37-45 | after `setSlop(s)`, `getSlop()` returns `s`, and field, lists and boost are unchanged |
| `Search.MultiPhraseQuery.AddAt` | src/core/search/MultiPhraseQuery.cpp:60-71 | the first add fixes the field from the first term, even when the add then fails; it succeeds iff every term is in the field; it then appends exactly the array and the position; otherwise it reports the first term in another field and both lists stay as they were; the invariant (equal lengths, all terms in the field) is kept |
| `Search.ImplicitPosition` | src/core/search/MultiPhraseQuery.cpp:52-58 | the implicit position is 0 when there are no positions, otherwise the last position + 1, with `int32_t` wrap-around at the maximum |
| `Search.MultiPhraseQuery.AddArray` | src/core/search/MultiPhraseQuery.cpp:52-58 | `add(terms)` behaves as `add(terms, position)` at the implicit position: the same field fixing, the same success condition, the same report of the expected field and the first term in another field, and the same appends |
| `Search.MultiPhraseQuery.Add` | src/core/search/MultiPhraseQuery.cpp:47-50 | `add(term)` appends the one-term array `[term]` at the implicit position iff the term is in the field; otherwise it reports the field and that term, and both lists stay as they were |
| `Search.ImplicitPositionsAreConsecutive` | src/core/search/MultiPhraseQuery.cpp:52-58 | a query built by implicit adds only has the positions 0, 1, ..., n - 1 |
| `Search.MultiPhraseQuery.ExtractTerms` | src/core/search/MultiPhraseQuery.cpp:83-90 | the result holds exactly the given terms and every term that occurs in some array, and nothing else |
| `Search.ShouldClauses` | src/core/search/MultiPhraseQuery.cpp:96-99 | one SHOULD clause holding a term query per term, in the order of the terms |
| `Search.MultiPhraseQuery.Rewrite` | src/core/search/MultiPhraseQuery.cpp:92-105 | with exactly one array, the result is a boolean query with coordination disabled, one SHOULD clause per term in array order, and the query's boost; with any other number of arrays it is the query itself |
| `Search.RewriteKeepsTerms` | src/core/search/MultiPhraseQuery.cpp:92-105 | the rewritten one-array query holds exactly the terms of that array: every clause's term is in the array, and every term of the array has a clause |
| `Search.FieldPrefix` | src/core/search/MultiPhraseQuery.cpp:115-116 | the `field:` prefix is omitted exactly when the argument is non-empty and equal to the query's field |
| `Search.SlopSuffix` | src/core/search/MultiPhraseQuery.cpp:138-139 | the `~slop` suffix is present exactly when the slop is not 0, and its digits read back as the slop |
| `Search.MultiPhraseQuery.AppendArray` | src/core/search/MultiPhraseQuery.cpp:122-134 | one array is written as its texts separated by single spaces in parentheses when it has several terms, as the bare text when it has one, and as nothing when it is empty |
| `Search.MultiPhraseQuery.ToString` | src/core/search/MultiPhraseQuery.cpp:112-143 | the output is the optional field prefix, then the array renderings separated by single spaces inside double quotes, then the optional `~slop` suffix |
| `Search.ArraysTextConcat` | src/core/search/MultiPhraseQuery.cpp:118-135 | the arrays of `a + b` render as those of `a`, one space, then those of `b`, so each array added later extends the quoted text by a space and its own rendering |
| `Search.SingleTermArraysRenderAsPhrase` | src/core/search/MultiPhraseQuery.cpp:118-135 | when every array holds one term, the quoted text is the plain phrase: the term texts separated by single spaces |
| `Search.ParenthesesMarkMultiTermArrays` | src/core/search/MultiPhraseQuery.cpp:122-134 | when no term text contains '(', the quoted text holds exactly one '(' per array of more than one term |
| `Search.ArrayEquals` | src/core/search/MultiPhraseQuery.cpp:173-181 | the size check followed by the term-by-term comparison holds exactly when the two arrays are equal |
| `Search.TermArraysEquals` | src/core/search/MultiPhraseQuery.cpp:183-186 | comparing the sequences of arrays by count and then array by array holds exactly when they are equal |
| `Search.MultiPhraseQuery.Equals` | src/core/search/MultiPhraseQuery.cpp:146-158 | true for the very same query; false for null or an object that is not a multi-phrase query; for another query, true exactly when boost, slop, term arrays and positions agree; the field is not compared |
| `Search.EqualsIsSymmetric` | src/core/search/MultiPhraseQuery.cpp:146-158 | `equals` is reflexive and symmetric |
| `Search.EqualQueriesShareField` | src/core/search/MultiPhraseQuery.cpp:146-158 | equal valid queries with at least one array have the same field, although `equals` does not compare it (with the lists as values; see "Left out") |
| `Search.MultiPhraseQuery.TermArraysHashCode` | src/core/search/MultiPhraseQuery.cpp:165-171 | the result is the fold `h := 31 * h + hash(array)` from 1 over the arrays in order, in `int32_t` |
| `Search.HashFoldIsWrappedPolynomial` | src/core/search/MultiPhraseQuery.cpp:165-171 | wrapping at every step of the fold gives the exact polynomial hash reduced to `int32_t` |
| `Search.EqualQueriesHashAlike` | src/core/search/MultiPhraseQuery.cpp:146-171 | equal queries have equal term-array hash codes, whatever the hash of one array is |
| `Search.MultiPhraseQuery.Clone` | src/core/search/MultiPhraseQuery.cpp:188-197 | the clone is a new query, or the given one, holding the same boost, field, term arrays, positions and slop; it is equal to the original in both directions and keeps the invariant; the original is unchanged |
| `Index.TermsHashPerThread.constructor` | src/core/index/TermsHashPerThread.cpp:21-28 | a new context is not primary and has no pools, consumer or secondary yet |
| `Index.TermsHashPerThread.Initialize` | src/core/index/TermsHashPerThread.cpp:34-58 | afterwards the context is primary iff it has a next terms hash; a primary's char pool is new; a secondary's char pool is the very same object as its primary's; the int pool, byte pool and consumer are always new; the new int and byte pools (and a primary's char pool) hold nothing; a secondary context is created iff there is a next terms hash, and it is a new, non-primary context with no next of its own, whose int and byte pools hold nothing |
| `Index.TermsHashPerThread.AddField` | src/core/index/TermsHashPerThread.cpp:60-63 | a new per-field accumulator bound to this context, its secondary and the field |
| `Index.TermsHashPerThread.Reset` | src/core/index/TermsHashPerThread.cpp:94-101 | the int pool and byte pool are reset, in that order; the char pool is reset only by a primary, so a secondary leaves the shared char pool's contents alone; the argument has no effect |
| `Index.TermsHashPerThread.Abort` | src/core/index/TermsHashPerThread.cpp:65-72 | in order: this context's reset, its consumer's abort, then the secondary's own reset and its consumer's abort; all int and byte pools end empty, and the char pool does too when this context is primary |
| `Index.TermsHashPerThread.StartDocument` | src/core/index/TermsHashPerThread.cpp:74-79 | starts the own consumer and then the secondary's consumer, each exactly once |
| `Index.TermsHashPerThread.FinishDocument` | src/core/index/TermsHashPerThread.cpp:81-92 | both consumers are finished, own first; without an own doc the result is the secondary's doc (possibly none); otherwise it is the own doc, whose `next` now is the secondary's doc |
| `Payloads.Max` | src/core/search/payloads/MaxPayloadFunction.cpp:25 | `std::max`: at least both arguments and equal to one of them |
| `Payloads.CurrentScore` | src/core/search/payloads/MaxPayloadFunction.cpp:19-26 | with no payload seen yet the result is the current payload; otherwise it is at least both the payload and the running score, and equal to one of them |
| `Payloads.DocScore` | src/core/search/payloads/MaxPayloadFunction.cpp:28-31 | the aggregated score when some payload was seen, otherwise 1.0 |
| `Payloads.Explain` | src/core/search/payloads/MaxPayloadFunction.cpp:33-40 | the explanation's value equals `DocScore` for the same count and score, whatever the field, and its description is fixed |
| `Payloads.AccumulateAfterFirst` | src/core/search/payloads/MaxPayloadFunction.cpp:19-26 | once a payload has been seen, folding more payloads gives the larger of the running score and their maximum |
| `Payloads.AccumulateIsMax` | src/core/search/payloads/MaxPayloadFunction.cpp:19-26 | folding `currentScore` over a non-empty payload sequence, counting from zero, gives its maximum, whatever the initial score |
| `Payloads.DocScoreOfPayloads` | src/core/search/payloads/MaxPayloadFunction.cpp:19-31 | the document score after aggregating payloads is 1.0 when there are none and their maximum otherwise |
| `Payloads.HashCode` | src/core/search/payloads/MaxPayloadFunction.cpp:42-48 | the hash is `31 * 1 + hash(class name)` in `int32_t` |
| `Payloads.HashDependsOnClassOnly` | src/core/search/payloads/MaxPayloadFunction.cpp:42-48 | all instances of the same class hash alike |
| `Payloads.Equals` | src/core/search/payloads/MaxPayloadFunction.cpp:50-59 | true for the very same object, false for null, and otherwise true exactly when the other object has the same dynamic class |
| `Payloads.EqualsIsEquivalence` | src/core/search/payloads/MaxPayloadFunction.cpp:50-59 | `equals` is symmetric and transitive on non-null objects |
| `Payloads.EqualsImpliesSameHash` | src/core/search/payloads/MaxPayloadFunction.cpp:42-59 | equal objects have equal hash codes |

## Left out

- `MultiPhraseWeight` (scorers, idf and query-norm arithmetic, explanation trees) and `createWeight` are not modelled. They are double-precision scoring built on index readers, term positions and similarity, none of which is part of this model.
- `Search.MultiPhraseQuery.ToString`: stops before the boost suffix. `boostString()` formats a double, and floating-point formatting is not modelled.
- `int32_t` overflow in `termArraysHashCode` is undefined behaviour in C++; it is modelled as two's-complement wrap-around.
- The query's `hashCode` is not modelled. It XORs the bits of the double boost with a hash of the positions computed by `MiscUtils`, which is not part of this model. `termArraysHashCode` is modelled; the hash of one term array is a parameter for the same reason.
- `Search.MultiPhraseQuery.Clone`: the lists are modelled as values. In the source they are shared collection handles, so a clone shares its original's lists, and later adds to one are visible through the other. The same sharing applies to the lists `getTermArrays` and `getPositions` return. That aliasing is not captured, and the query invariant, `Search.EqualQueriesShareField` and `Valid()` after `Clone` hold only under the model's value semantics. In the source, take a new query `q` and `c = q.clone()`; `c` shares `q`'s lists (src/core/search/MultiPhraseQuery.cpp:193-194). Then `c.add(Term("f", "x"))` sets `c.field` to `"f"` (:62-63) and appends to the shared lists, so `q` now holds a term of field `f` while `q.field` is still empty, and `q.equals(c)` is true (:155-157) although the fields differ. Appending to the list `getTermArrays()` returns likewise breaks the equal-length half of the invariant.
- `Search.EqualQueriesShareField`: holds for the model's value lists only; with the shared lists of the source, the example under `Search.MultiPhraseQuery.Clone` gives two equal queries with different fields.
- `Search.MultiPhraseQuery.AddAt`: a first add with an empty array is excluded by a precondition. The source reads `terms[0]` of an empty collection there, which is undefined behaviour rather than a handled error. Null term pointers are not modelled.
- `Search.ImplicitPosition`: the last position + 1 overflows `int32_t` only at the maximum position. That is undefined behaviour in C++, and it is modelled as two's-complement wrap-around.
- `Index.TermsHashPerThread.Initialize`: requires the next terms hash to have no next of its own. The writer builds exactly two stages, and longer chains are not modelled. It also requires the state the constructor leaves, because `initialize` runs once, right after construction. A context with neither a next terms hash nor a primary is excluded by a precondition: line 49 then converts an empty weak pointer, which throws in the source, and that failure is not modelled. The precondition that the primary's char pool is set excludes no call of the source: the only caller is the primary's own `initialize` (line 57), which runs after the primary has allocated its char pool (line 44).
- The lock taken by `abort` is not modelled; the shell is modelled as single-threaded.
- The document state taken from the inverter thread, and the weak-pointer and `shared_from_this` ownership, are not modelled.
- The internals of the char, int and byte block pools, of the consumers, of the per-field accumulator and of the doc writers are not part of this model. They appear only through what the shell calls on them.
- `Payloads.CurrentScore`: the payload count is an unbounded integer, not an `int32_t`. Scores are reals, so NaN and the tie behaviour of `std::max` on doubles are not captured.
- The string hash of the class name used by `MaxPayloadFunction::hashCode` is not part of this model, and is a parameter.
- `include/WordlistLoader.h` and `include/IntFieldSource.h` are not part of this model: they hold declarations only, for file loading and a field-cache wrapper.
