/**
 * The process-wide source of `secrets.choice` draws. Its quality is not
 * modelled: it hands out the elements of a fixed but arbitrary stream in
 * order, so every call of `generate_pin` uses draws no earlier call used.
 */
module Secrets {
  import opened Utils

  class RandomSource {
    const stream: DigitStream
    /** How many draws earlier calls have used. */
    var drawn: nat
    /** The PINs handed out so far, oldest first. */
    ghost var issued: seq<string>

    constructor (stream: DigitStream)
      ensures this.stream == stream && drawn == 0 && issued == []
    {
      this.stream := stream;
      drawn := 0;
      issued := [];
    }

    /** `generate_pin(n)` evaluated on the next unused draws. */
    method NextPin(n: int) returns (pin: string)
      modifies this
      ensures pin == GeneratePin(n, Skip(stream, old(drawn)))
      ensures |pin| == (if n <= 0 then 0 else n) && IsDigitString(pin)
      ensures drawn == old(drawn) + |pin|
      ensures issued == old(issued) + [pin]
    {
      pin := GeneratePin(n, Skip(stream, drawn));
      drawn := drawn + |pin|;
      issued := issued + [pin];
    }
  }
}
