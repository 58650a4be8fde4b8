/**
 * The two helpers of the accounts app: PIN generation and IBAN masking.
 *
 * `generate_pin(n)` joins `n` independent draws of `secrets.choice('0123456789')`.
 * The randomness is not modelled; instead the draws are supplied as a stream of
 * digit choices, the i-th character of the PIN being the digit picked by the
 * i-th draw.
 */
module Utils {

  /** The alphabet `generate_pin` draws from. */
  const Digits: string := "0123456789"

  /** One draw of `secrets.choice(Digits)`: a position in Digits. */
  type DigitIndex = i: int | 0 <= i < 10

  /** An unbounded supply of draws; the i-th call of `choice` returns the i-th one. */
  type DigitStream = nat -> DigitIndex

  predicate IsDigitString(s: string) {
    forall i | 0 <= i < |s| :: s[i] in Digits
  }

  /** The stream left after the first `k` draws have been used. */
  function Skip(draw: DigitStream, k: nat): DigitStream {
    (i: nat) => draw(k + i)
  }

  /**
   * `generate_pin(n)`: one digit per element of `range(n)`, which is empty when
   * `n <= 0`.
   */
  function GeneratePin(n: int, draw: DigitStream): (pin: string)
    ensures |pin| == if n <= 0 then 0 else n
    ensures IsDigitString(pin)
    decreases n
  {
    if n <= 0 then "" else GeneratePin(n - 1, draw) + [Digits[draw(n - 1)]]
  }

  /** The i-th character of a PIN is the digit picked by the i-th draw. */
  lemma {:induction false} GeneratePinAt(n: int, draw: DigitStream, i: nat)
    requires i < n
    ensures i < |GeneratePin(n, draw)| && GeneratePin(n, draw)[i] == Digits[draw(i)]
  {
    if i < n - 1 {
      GeneratePinAt(n - 1, draw, i);
    }
  }

  /** The position of a digit character in Digits. */
  function DigitIndexOf(c: char): (k: DigitIndex)
    requires c in Digits
    ensures Digits[k] == c
  {
    if c == '0' then 0 else if c == '1' then 1 else if c == '2' then 2
    else if c == '3' then 3 else if c == '4' then 4 else if c == '5' then 5
    else if c == '6' then 6 else if c == '7' then 7 else if c == '8' then 8
    else 9
  }

  /** The draws that make `generate_pin` return the digit string `s`. */
  function DrawsFor(s: string): DigitStream
    requires IsDigitString(s)
  {
    (i: nat) => if i < |s| then DigitIndexOf(s[i]) else 0
  }

  /** Two different draws never pick the same character. */
  lemma DigitsDistinct(a: DigitIndex, b: DigitIndex)
    ensures Digits[a] == Digits[b] <==> a == b
  {
  }

  /**
   * A PIN depends on exactly the first `n` draws: two streams give the same PIN
   * if and only if they agree on those draws.
   */
  lemma {:induction false} GeneratePinDependsOnFirstDraws(n: int, d1: DigitStream, d2: DigitStream)
    ensures GeneratePin(n, d1) == GeneratePin(n, d2) <==> forall i | 0 <= i < n :: d1(i) == d2(i)
  {
    var p1, p2 := GeneratePin(n, d1), GeneratePin(n, d2);
    if forall i | 0 <= i < n :: d1(i) == d2(i) {
      assert |p1| == |p2|;
      forall i | 0 <= i < |p1| ensures p1[i] == p2[i] {
        GeneratePinAt(n, d1, i);
        GeneratePinAt(n, d2, i);
      }
    }
    if p1 == p2 {
      forall i | 0 <= i < n ensures d1(i) == d2(i) {
        GeneratePinAt(n, d1, i);
        GeneratePinAt(n, d2, i);
        DigitsDistinct(d1(i), d2(i));
      }
    }
  }

  /**
   * Every digit string is a possible PIN of its length: no PIN is excluded by
   * the way the draws are combined.
   */
  lemma {:induction false} GeneratePinReachesEveryDigitString(s: string)
    requires IsDigitString(s)
    ensures GeneratePin(|s|, DrawsFor(s)) == s
  {
    var p := GeneratePin(|s|, DrawsFor(s));
    forall i | 0 <= i < |s| ensures p[i] == s[i] {
      GeneratePinAt(|s|, DrawsFor(s), i);
    }
  }

  /** The sixteen characters `mask_iban` puts between the two ends. */
  const MaskMiddle: string := " •••• •••• •••• "

  function Min(a: int, b: int): int {
    if a <= b then a else b
  }

  /** Python's `s[:k]`: the first `k` characters, or all of `s` when it is shorter. */
  function First(s: string, k: nat): string {
    if |s| <= k then s else s[..k]
  }

  /** Python's `s[-k:]` for `k > 0`: the last `k` characters, or all of `s` when it is shorter. */
  function Last(s: string, k: nat): string {
    if |s| <= k then s else s[|s| - k..]
  }

  /**
   * `mask_iban`: the empty IBAN stays empty; otherwise the first four and the
   * last four characters are kept around a fixed mask. An IBAN shorter than
   * four characters appears whole at both ends.
   */
  function MaskIban(iban: string): (masked: string)
    ensures iban == "" ==> masked == ""
    ensures iban != "" ==> |masked| == 2 * Min(4, |iban|) + |MaskMiddle| == 2 * Min(4, |iban|) + 16
    ensures |iban| >= 4 ==> |masked| == 24
    ensures iban != "" ==> masked[..Min(4, |iban|)] == iban[..Min(4, |iban|)]
    ensures iban != "" ==> masked[Min(4, |iban|)..Min(4, |iban|) + 16] == MaskMiddle
    ensures iban != "" ==> masked[|masked| - Min(4, |iban|)..] == iban[|iban| - Min(4, |iban|)..]
  {
    if iban == "" then "" else First(iban, 4) + MaskMiddle + Last(iban, 4)
  }

  /**
   * The mask reveals the two ends and nothing else: two IBANs have the same mask
   * if and only if both are empty, or both are non-empty and agree on their first
   * four and last four characters.
   */
  lemma MaskIbanDeterminedByEnds(a: string, b: string)
    ensures MaskIban(a) == MaskIban(b) <==>
      (a == "" && b == "") ||
      (a != "" && b != "" && First(a, 4) == First(b, 4) && Last(a, 4) == Last(b, 4))
  {
    if a != "" && b != "" && MaskIban(a) == MaskIban(b) {
      var m := MaskIban(a);
      var k := Min(4, |a|);
      assert k == Min(4, |b|);
      assert First(a, 4) == a[..k] == m[..k] == b[..k] == First(b, 4);
      assert Last(a, 4) == a[|a| - k..] == m[|m| - k..] == b[|b| - k..] == Last(b, 4);
    }
  }
}
