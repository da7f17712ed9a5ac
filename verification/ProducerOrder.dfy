/** The 128-bit producer order: its hexadecimal codec, and how a client allocates its orders. */
module ProducerOrder {
  import opened Wrappers
  import opened Unicode

  const TWO_47: nat := 0x8000_0000_0000
  const TWO_80: nat := 0x1_0000_0000_0000_0000_0000
  const TWO_127: nat := 0x8000_0000_0000_0000_0000_0000_0000_0000
  const TWO_128: nat := 0x1_0000_0000_0000_0000_0000_0000_0000_0000
  const CHARACTERS: nat := 32

  predicate IsHex(c: char) { '0' <= c <= '9' || 'a' <= c <= 'f' }

  function NibbleOf(c: char): Nibble
    requires IsHex(c)
  {
    if c <= '9' then c as int - '0' as int else c as int - 'a' as int + 10
  }

  /** The last `width` hexadecimal digits of a number. */
  function Hex(n: nat, width: nat): (s: string)
    ensures |s| == width && forall i :: 0 <= i < width ==> IsHex(s[i])
  {
    if width == 0 then "" else Hex(n / 16, width - 1) + [HexDigit(n % 16)]
  }

  function HexValue(s: string): nat
    requires forall i :: 0 <= i < |s| ==> IsHex(s[i])
  {
    if s == "" then 0 else HexValue(s[..|s| - 1]) * 16 + NibbleOf(s[|s| - 1])
  }

  function Power16(k: nat): nat { if k == 0 then 1 else 16 * Power16(k - 1) }

  lemma Power16Is()
    ensures Power16(CHARACTERS) == TWO_128
  {
    assert Power16(8) == 0x1_0000_0000;
    assert Power16(16) == 0x1_0000_0000_0000_0000 by { PowerSum(8, 8); }
    PowerSum(16, 16);
  }

  lemma {:induction false} PowerSum(a: nat, b: nat)
    ensures Power16(a + b) == Power16(a) * Power16(b)
  {
    if a > 0 {
      PowerSum(a - 1, b);
      assert 16 * (Power16(a - 1) * Power16(b)) == 16 * Power16(a - 1) * Power16(b);
    }
  }

  lemma {:induction false} ValueOfHex(n: nat, width: nat)
    requires n < Power16(width)
    ensures HexValue(Hex(n, width)) == n
  {
    if width > 0 {
      ValueOfHex(n / 16, width - 1);
      assert Hex(n, width)[..width - 1] == Hex(n / 16, width - 1);
    }
  }

  lemma {:induction false} HexOfValue(s: string)
    requires forall i :: 0 <= i < |s| ==> IsHex(s[i])
    ensures HexValue(s) < Power16(|s|) && Hex(HexValue(s), |s|) == s
  {
    if s != "" {
      var prefix, last := s[..|s| - 1], s[|s| - 1];
      HexOfValue(prefix);
      LetterOfNibble(last);
      assert HexValue(s) / 16 == HexValue(prefix) && HexValue(s) % 16 == NibbleOf(last);
      assert s == prefix + [last];
    }
  }

  lemma LetterOfNibble(c: char)
    requires IsHex(c)
    ensures HexDigit(NibbleOf(c)) == c
  {
  }

  /** isAgentAdapterProducerEventOrder: 32 lower-case hexadecimal characters, not all zero. */
  predicate ValidOrder(s: string) {
    |s| == CHARACTERS && (forall i :: 0 <= i < |s| ==> IsHex(s[i])) && exists i :: 0 <= i < |s| && s[i] != '0'
  }

  /** producerEventOrderAsBigInt. */
  function AsNumber(s: string): Option<nat> { if ValidOrder(s) then Some(HexValue(s)) else None }

  /** producerEventOrderFromBigInt. */
  function FromNumber(n: int): Option<string> { if 1 <= n < TWO_128 then Some(Hex(n, CHARACTERS)) else None }

  lemma {:induction false} ZeroIffZeros(s: string)
    requires forall i :: 0 <= i < |s| ==> IsHex(s[i])
    ensures HexValue(s) == 0 <==> forall i :: 0 <= i < |s| ==> s[i] == '0'
  {
    if s != "" {
      ZeroIffZeros(s[..|s| - 1]);
      assert s == s[..|s| - 1] + [s[|s| - 1]];
    }
  }

  /** Every order number has one spelling, and every valid spelling is of one order number. */
  lemma OrderRoundTrip(n: int, s: string)
    ensures FromNumber(n).Some? ==> AsNumber(FromNumber(n).value) == Some(n)
    ensures AsNumber(s).Some? ==> FromNumber(AsNumber(s).value) == Some(s)
  {
    Power16Is();
    if 1 <= n < TWO_128 {
      ValueOfHex(n, CHARACTERS);
      ZeroIffZeros(Hex(n, CHARACTERS));
    }
    if ValidOrder(s) {
      HexOfValue(s);
      ZeroIffZeros(s);
    }
  }

  /** nextProducerEventOrder. */
  function NextOrder(s: string): Option<string> {
    var n := AsNumber(s);
    if n.None? then None else FromNumber(n.value + 1)
  }

  /** The successor is one more, and there is none exactly at 2^128 - 1. */
  lemma NextOrderIs(s: string)
    requires ValidOrder(s)
    ensures NextOrder(s).Some? <==> HexValue(s) < TWO_128 - 1
    ensures NextOrder(s).Some? ==> AsNumber(NextOrder(s).value) == Some(HexValue(s) + 1)
  {
    Power16Is();
    HexOfValue(s);
    OrderRoundTrip(HexValue(s) + 1, s);
  }

  // ----- A client's orders

  /** randomNonZero128BitInteger: the high bit, 47 bits of the clock's milliseconds, 80 random bits. */
  function FirstNumber(milliseconds: nat, random: nat): nat
    requires random < TWO_80
  {
    TWO_127 + milliseconds % TWO_47 * TWO_80 + random
  }

  lemma FirstIsOrder(milliseconds: nat, random: nat)
    requires random < TWO_80
    ensures TWO_127 <= FirstNumber(milliseconds, random) < TWO_128
  {
    var m := milliseconds % TWO_47;
    assert m <= TWO_47 - 1;
    assert m * TWO_80 + random <= (TWO_47 - 1) * TWO_80 + TWO_80 - 1;
  }

  /** The order a client allocates next; None when its orders are exhausted. */
  function Allocated(previous: Option<string>, milliseconds: nat, random: nat): Option<string>
    requires random < TWO_80
  {
    if previous.None? then FromNumber(FirstNumber(milliseconds, random)) else NextOrder(previous.value)
  }

  /** The nth allocation counts up from the first: a client's orders rise by one until 2^128 - 1. */
  lemma AllocatedCountsUp(previous: Option<string>, milliseconds: nat, random: nat)
    requires random < TWO_80 && (previous.Some? ==> ValidOrder(previous.value))
    ensures var next := Allocated(previous, milliseconds, random);
            && (next.None? <==> previous.Some? && HexValue(previous.value) == TWO_128 - 1)
            && (next.Some? ==> ValidOrder(next.value)
                               && HexValue(next.value)
                                  == if previous.Some? then HexValue(previous.value) + 1
                                      else FirstNumber(milliseconds, random))
  {
    if previous.Some? {
      Power16Is();
      HexOfValue(previous.value);
      NextOrderIs(previous.value);
    } else {
      FirstIsOrder(milliseconds, random);
      OrderRoundTrip(FirstNumber(milliseconds, random), "");
    }
  }

  /** The `k`th order after an earlier client's first is below a later client's first. */
  predicate IsBelow(earlier: nat, r: nat, k: nat, later: nat, s: nat)
    requires r < TWO_80 && s < TWO_80
  {
    FirstNumber(earlier, r) + k < FirstNumber(later, s)
  }

  /**
   A client started later begins above the first 2^80 orders of an earlier one, whatever their random bits, exactly
   when the clock has moved on by two milliseconds (and the 47 bits have not wrapped).
   */
  lemma LaterClientIsAboveIff(earlier: nat, later: nat)
    ensures (forall r: nat, s: nat, k: nat :: r < TWO_80 && s < TWO_80 && k < TWO_80 ==>
             IsBelow(earlier, r, k, later, s))
            <==> later % TWO_47 >= earlier % TWO_47 + 2
  {
    var e, l := earlier % TWO_47, later % TWO_47;
    if l >= e + 2 {
      forall r: nat, s: nat, k: nat | r < TWO_80 && s < TWO_80 && k < TWO_80
        ensures IsBelow(earlier, r, k, later, s)
      {
        assert l * TWO_80 >= e * TWO_80 + 2 * TWO_80;
      }
    } else {
      assert l * TWO_80 <= e * TWO_80 + TWO_80;
      assert !IsBelow(earlier, TWO_80 - 1, TWO_80 - 1, later, 0);
    }
  }

  /** allocateProducerEventOrder. */
  class AgentAdapterClient {
    var producerEventOrders: map<string, string>

    constructor ()
      ensures producerEventOrders == map[]
    {
      producerEventOrders := map[];
    }

    /** None where it throws because the orders are exhausted. */
    method AllocateProducerEventOrder(sessionId: string, milliseconds: nat, random: nat) returns (order: Option<string>)
      requires random < TWO_80
      modifies this
      ensures var previous :=
                if sessionId in old(producerEventOrders) then Some(old(producerEventOrders)[sessionId]) else None;
              order == Allocated(previous, milliseconds, random)
      ensures producerEventOrders
              == if order.Some? then old(producerEventOrders)[sessionId := order.value] else old(producerEventOrders)
    {
      if sessionId in producerEventOrders {
        order := NextOrder(producerEventOrders[sessionId]);
      } else {
        order := FromNumber(FirstNumber(milliseconds, random));
      }
      if order.None? { return; }
      producerEventOrders := producerEventOrders[sessionId := order.value];
    }
  }
}
