// Record identifiers: generation from a clock reading and a random draw, and
// the normalisation that makes URL-parameter ids comparable with stored ones.

module Ids {
  import opened Values

  /** `Math.floor(Math.random() * 1000)` */
  type Random = r: int | 0 <= r < 1000

  /** One call of `generateId`: the `Date.now()` reading and the random draw. */
  datatype Draw = Draw(timestamp: nat, random: Random)

  /** `timestamp * 1000 + random`: the millisecond in the high part, the draw in the low three digits. */
  function GenerateId(timestamp: nat, random: Random): (id: nat)
    ensures id / 1000 == timestamp && id % 1000 == random
  {
    timestamp * 1000 + random
  }

  function IdOf(d: Draw): nat
  {
    GenerateId(d.timestamp, d.random)
  }

  /** An id drawn in a strictly later millisecond is strictly larger, whatever the draws. */
  lemma LaterMillisecondLargerId(t1: nat, r1: Random, t2: nat, r2: Random)
    requires t1 < t2
    ensures GenerateId(t1, r1) < GenerateId(t2, r2)
  {
    assert t1 * 1000 + 1000 <= t2 * 1000;
  }

  /** Two ids collide exactly when both the millisecond and the draw agree. */
  lemma IdsCollideIffSameDraw(t1: nat, r1: Random, t2: nat, r2: Random)
    ensures GenerateId(t1, r1) == GenerateId(t2, r2) <==> t1 == t2 && r1 == r2
  {
    var a, b := GenerateId(t1, r1), GenerateId(t2, r2);
    if a == b {
      assert t1 == a / 1000 == b / 1000 == t2;
    }
  }

  /** `normalizeId`: a string that reads as an integer becomes that integer;
      every other value (numbers, non-numeric strings, objects) is returned as it is. */
  function NormalizeId(id: Value): (r: Value)
    ensures id.Str? && IsDecimal(id.s) ==> r == Int(ParseDecimal(id.s))
    ensures !(id.Str? && IsDecimal(id.s)) ==> r == id
    ensures !r.Str? || r == id
  {
    if id.Str? && IsDecimal(id.s) then Int(ParseDecimal(id.s)) else id
  }

  /** The string form of an integer id and the id itself normalise to the same id. */
  lemma NormalizeRoundTrip(n: int)
    ensures NormalizeId(Str(IntToString(n))) == NormalizeId(Int(n)) == Int(n)
  {
    DecimalRoundTrip(n);
  }

  /** A generated id survives the trip through a URL path parameter. */
  lemma GeneratedIdSurvivesUrl(d: Draw)
    ensures NormalizeId(Str(JsString(Int(IdOf(d))))) == Int(IdOf(d))
  {
    NormalizeRoundTrip(IdOf(d));
  }

  lemma NormalizeIdempotent(id: Value)
    ensures NormalizeId(NormalizeId(id)) == NormalizeId(id)
  {
  }
}
