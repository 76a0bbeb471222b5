/**
 * The "max" payload aggregation rule of payload-aware span queries: the
 * score of a document is the largest payload value seen on its matching
 * spans, or 1.0 when no payload was seen.
 *
 * Scores are `real`: the rule only compares and selects values, so the
 * double-precision arithmetic of the C++ code does not enter.
 */
module Payloads {
  import opened Numbers

  /** An explanation node; only its value and description are modelled. */
  datatype Explanation = Explanation(value: real, description: string)

  /**
   * A Lucene object reference as seen by `equals` and `hashCode`: the name of
   * its dynamic class and an identity standing for its address.
   */
  datatype LuceneObject = LuceneObject(className: string, identity: nat)

  /** A possibly null reference. */
  datatype Option<T> = None | Some(value: T)

  const EXPLAIN_DESCRIPTION: string := "MaxPayloadFunction(...)"

  /** `std::max(a, b)`: `b` only when `a < b`. */
  function Max(a: real, b: real): (r: real)
    ensures r >= a && r >= b
    ensures r == a || r == b
  {
    if a < b then b else a
  }

  /**
   * The score after one more payload: the payload itself when it is the
   * first one seen, otherwise the larger of the payload and the running
   * score. The document, field and span bounds do not influence it.
   */
  function CurrentScore(docId: Int32, field: string, start: Int32, end: Int32,
                        numPayloadsSeen: int, currentScore: real, currentPayloadScore: real): (r: real)
    ensures numPayloadsSeen == 0 ==> r == currentPayloadScore
    ensures numPayloadsSeen != 0 ==> r >= currentPayloadScore && r >= currentScore
    ensures numPayloadsSeen != 0 ==> r == currentPayloadScore || r == currentScore
  {
    if numPayloadsSeen == 0 then currentPayloadScore else Max(currentPayloadScore, currentScore)
  }

  /** The final document score: the aggregated score if any payload was seen, else 1.0. */
  function DocScore(docId: Int32, field: string, numPayloadsSeen: int, payloadScore: real): (r: real)
    ensures numPayloadsSeen > 0 ==> r == payloadScore
    ensures numPayloadsSeen <= 0 ==> r == 1.0
  {
    if numPayloadsSeen > 0 then payloadScore else 1.0
  }

  /** The explanation of a document score; its value is what `DocScore` returns. */
  function Explain(docId: Int32, numPayloadsSeen: int, payloadScore: real): (r: Explanation)
    ensures forall field: string :: r.value == DocScore(docId, field, numPayloadsSeen, payloadScore)
    ensures r.description == EXPLAIN_DESCRIPTION
  {
    Explanation(if numPayloadsSeen > 0 then payloadScore else 1.0, EXPLAIN_DESCRIPTION)
  }

  /**
   * `hashCode`: 31 * 1 + the hash of the dynamic class name, with `int32_t`
   * wrap-around. The string hash is not part of this model and is a parameter.
   */
  function HashCode(self: LuceneObject, stringHash: string -> Int32): (r: Int32)
    ensures (r - (31 + stringHash(self.className))) % TWO_32 == 0
  {
    Wrap32(31 * 1 + stringHash(self.className))
  }

  /** The hash depends on the dynamic class only: all instances of one class hash alike. */
  lemma HashDependsOnClassOnly(a: LuceneObject, b: LuceneObject, stringHash: string -> Int32)
    requires a.className == b.className
    ensures HashCode(a, stringHash) == HashCode(b, stringHash)
  {
  }

  /**
   * `equals`: true for the very same object, false for null, and otherwise
   * true exactly when the other object has the same dynamic class.
   */
  function Equals(self: LuceneObject, other: Option<LuceneObject>): (r: bool)
    ensures other == Some(self) ==> r
    ensures other.None? ==> !r
    ensures r <==> other.Some? && other.value.className == self.className
  {
    if other == Some(self) then true
    else if other.None? then false
    else other.value.className == self.className
  }

  /** Equal objects hash alike, whatever the string hash is. */
  lemma EqualsImpliesSameHash(a: LuceneObject, b: LuceneObject, stringHash: string -> Int32)
    requires Equals(a, Some(b))
    ensures HashCode(a, stringHash) == HashCode(b, stringHash)
  {
  }

  /** `equals` is symmetric and transitive among non-null objects. */
  lemma EqualsIsEquivalence(a: LuceneObject, b: LuceneObject, c: LuceneObject)
    ensures Equals(a, Some(b)) == Equals(b, Some(a))
    ensures Equals(a, Some(b)) && Equals(b, Some(c)) ==> Equals(a, Some(c))
  {
  }

  /**
   * The running score after feeding `payloads` to `CurrentScore` one at a
   * time, starting from `seen` payloads already seen and running score `score`.
   */
  function Accumulate(payloads: seq<real>, seen: nat, score: real): real
    decreases |payloads|
  {
    if payloads == [] then score
    else Accumulate(payloads[1..], seen + 1,
                    CurrentScore(0, "", 0, 0, seen, score, payloads[0]))
  }

  /** The largest element of a non-empty sequence. */
  function SeqMax(s: seq<real>): (m: real)
    requires s != []
    ensures m in s
    ensures forall x :: x in s ==> x <= m
  {
    if |s| == 1 then s[0]
    else
      assert forall x :: x in s ==> x == s[0] || x in s[1..];
      Max(s[0], SeqMax(s[1..]))
  }

  /** After at least one payload, the running score is the maximum of the old score and the new payloads. */
  lemma {:induction false} AccumulateAfterFirst(payloads: seq<real>, seen: nat, score: real)
    requires payloads != [] && seen > 0
    ensures Accumulate(payloads, seen, score) == Max(score, SeqMax(payloads))
    decreases |payloads|
  {
    var next := CurrentScore(0, "", 0, 0, seen, score, payloads[0]);
    assert next == Max(payloads[0], score);
    if |payloads| > 1 {
      AccumulateAfterFirst(payloads[1..], seen + 1, next);
    }
  }

  /**
   * Folding `CurrentScore` over a non-empty payload sequence, counting the
   * payloads seen from zero, yields its maximum, whatever the initial score.
   */
  lemma {:induction false} AccumulateIsMax(payloads: seq<real>, initial: real)
    requires payloads != []
    ensures Accumulate(payloads, 0, initial) == SeqMax(payloads)
  {
    if |payloads| > 1 {
      AccumulateAfterFirst(payloads[1..], 1, payloads[0]);
    }
  }

  /**
   * The document score after aggregating `payloads` is 1.0 when there are
   * none and their maximum otherwise.
   */
  lemma DocScoreOfPayloads(payloads: seq<real>, initial: real)
    ensures DocScore(0, "", |payloads|, Accumulate(payloads, 0, initial)) ==
            if payloads == [] then 1.0 else SeqMax(payloads)
  {
    if payloads != [] {
      AccumulateIsMax(payloads, initial);
    }
  }
}
