/** The length normalisation shared by the analysis server and the dataset
    vectorizer: an image embedding is brought to exactly 1024 values. A
    512-value vector (the CLIP output) is extended by a scaled copy of
    itself; a shorter one is padded with zeros; a longer one is cut. The
    values are left abstract: `scale` stands for multiplying by 0.1 and
    `zero` for the number 0. */
module Embedding {

  const Dimension: nat := 1024
  const ClipDimension: nat := 512

  /** The value at position `i` of the normalised vector. */
  function Entry<T>(raw: seq<T>, scale: T -> T, zero: T, i: nat): T
    requires i < Dimension
  {
    if |raw| == ClipDimension then
      if i < ClipDimension then raw[i] else scale(raw[i - ClipDimension])
    else if i < |raw| then raw[i]
    else zero
  }

  /** The normalised vector, position by position. */
  function Normalized<T>(raw: seq<T>, scale: T -> T, zero: T): (r: seq<T>)
    ensures |r| == Dimension
  {
    seq(Dimension, i requires 0 <= i < Dimension => Entry(raw, scale, zero, i))
  }

  /** The extraction step of `generateEmbedding` in the analysis server:
      project 512 values to 1024, then pad or cut. */
  method NormalizeForServer<T>(raw: seq<T>, scale: T -> T, zero: T) returns (r: seq<T>)
    ensures r == Normalized(raw, scale, zero)
  {
    var embedding := raw;
    if |embedding| == ClipDimension {
      var projected := embedding;
      var variation := seq(|embedding|, i requires 0 <= i < |embedding| => scale(embedding[i]));
      embedding := projected + variation;
    }
    if |embedding| < Dimension {
      r := embedding + seq(Dimension - |embedding|, _ => zero);
    } else if |embedding| > Dimension {
      r := embedding[..Dimension];
    } else {
      r := embedding;
    }
    assert forall i :: 0 <= i < Dimension ==> r[i] == Entry(raw, scale, zero, i);
  }

  /** A 512-value vector keeps its values, in order, followed by their
      scaled copies in the same order. */
  lemma NormalizedDoubles<T>(raw: seq<T>, scale: T -> T, zero: T)
    requires |raw| == ClipDimension
    ensures Normalized(raw, scale, zero)[..ClipDimension] == raw
    ensures forall i :: 0 <= i < ClipDimension ==> Normalized(raw, scale, zero)[ClipDimension + i] == scale(raw[i])
  {
    var r := Normalized(raw, scale, zero);
    assert forall i :: 0 <= i < ClipDimension ==> r[..ClipDimension][i] == raw[i];
  }

  /** Any other vector of at most 1024 values keeps them as a prefix and is
      padded with zeros at the end. */
  lemma NormalizedPads<T>(raw: seq<T>, scale: T -> T, zero: T)
    requires |raw| != ClipDimension && |raw| <= Dimension
    ensures Normalized(raw, scale, zero)[..|raw|] == raw
    ensures forall i :: |raw| <= i < Dimension ==> Normalized(raw, scale, zero)[i] == zero
  {
    var r := Normalized(raw, scale, zero);
    assert forall i :: 0 <= i < |raw| ==> r[..|raw|][i] == raw[i];
  }

  /** A longer vector keeps its first 1024 values. */
  lemma NormalizedCuts<T>(raw: seq<T>, scale: T -> T, zero: T)
    requires |raw| >= Dimension
    ensures Normalized(raw, scale, zero) == raw[..Dimension]
  {
    var r := Normalized(raw, scale, zero);
    assert forall i :: 0 <= i < Dimension ==> r[i] == raw[..Dimension][i];
  }

  /** Normalising twice changes nothing. */
  lemma NormalizedIdempotent<T>(raw: seq<T>, scale: T -> T, zero: T)
    ensures Normalized(Normalized(raw, scale, zero), scale, zero) == Normalized(raw, scale, zero)
  {
    var r := Normalized(raw, scale, zero);
    NormalizedCuts(r, scale, zero);
    assert r[..Dimension] == r;
  }
}
