/** The MAC address in a unique id, told apart from the parser (utils.cpp:320-364). */
module AddressLaws {
  import opened Basics
  import opened AlarmDeviceTable

  function Power16(n: nat): nat { if n == 0 then 1 else 16 * Power16(n - 1) }

  /** The number that hex digits spell. */
  function Number(digits: seq<nat>): nat
  {
    if digits == [] then 0 else 16 * Number(digits[..|digits| - 1]) + digits[|digits| - 1]
  }

  /** The first `n` hex digits of a string, colons left out; None if there are fewer, or something else. */
  function Digits(s: string, n: nat): Option<seq<nat>>
    decreases |s|
  {
    if n == 0 then Some([])
    else if s == "" then None
    else if s[0] == ':' then Digits(s[1..], n)
    else if HexDigit(s[0]).None? then None
    else match Digits(s[1..], n - 1)
      case Some(rest) => Some([HexDigit(s[0]).value] + rest)
      case None => None
  }

  lemma {:induction false} NumberOfFirst(d: nat, rest: seq<nat>)
    ensures Number([d] + rest) == d * Power16(|rest|) + Number(rest)
  {
    if rest == [] {
      assert [d] + rest == [d] && [d][..0] == [];
      assert Number([d]) == 16 * Number([]) + d;
    } else {
      var front, last := rest[..|rest| - 1], rest[|rest| - 1];
      assert ([d] + rest)[..|rest|] == [d] + front;
      NumberOfFirst(d, front);
      Distribute(d, Power16(|front|), Number(front));
    }
  }

  lemma Distribute(d: nat, p: nat, n: nat)
    ensures 16 * (d * p + n) == d * (16 * p) + 16 * n
  {
  }

  lemma {:induction false} PrefixIsNumber(s: string, n: nat, value: nat)
    ensures HexPrefix(s, n, value) ==
      match Digits(s, n) case Some(digits) => value * Power16(n) + Number(digits) case None => 0
    ensures Digits(s, n).Some? ==> |Digits(s, n).value| == n
    decreases |s|
  {
    if n > 0 && s != "" {
      if s[0] == ':' {
        PrefixIsNumber(s[1..], n, value);
      } else if HexDigit(s[0]).Some? {
        var d := HexDigit(s[0]).value;
        PrefixIsNumber(s[1..], n - 1, 16 * value + d);
        if Digits(s[1..], n - 1).Some? {
          NumberOfFirst(d, Digits(s[1..], n - 1).value);
          Regroup(value, d, Power16(n - 1));
        }
      }
    }
  }

  lemma Regroup(value: nat, d: nat, p: nat)
    ensures (16 * value + d) * p == value * (16 * p) + d * p
  {
  }

  /** Main result: the address of a unique id is the number its first 16 hex digits spell, and 0 for a string
      that is too short or has no 16 of them. */
  lemma AddressLaw(uniqueId: string)
    ensures ExtAddress(uniqueId) ==
      if |uniqueId| < 23 || Digits(uniqueId, 16).None? then 0 else Number(Digits(uniqueId, 16).value)
  {
    PrefixIsNumber(uniqueId, 16, 0);
  }

  /** Digits below 16 are told apart by the number they spell. */
  lemma {:induction false} NumberTellsApart(a: seq<nat>, b: seq<nat>)
    requires |a| == |b| && (forall k :: 0 <= k < |a| ==> a[k] < 16 && b[k] < 16) && Number(a) == Number(b)
    ensures a == b
  {
    if a != [] {
      var n := |a| - 1;
      assert a[n] == b[n] && Number(a[..n]) == Number(b[..n]);
      NumberTellsApart(a[..n], b[..n]);
      assert a == a[..n] + [a[n]] && b == b[..n] + [b[n]];
    }
  }

  lemma {:induction false} DigitsAreSmall(s: string, n: nat)
    requires Digits(s, n).Some?
    ensures |Digits(s, n).value| == n && forall k :: 0 <= k < n ==> Digits(s, n).value[k] < 16
    decreases |s|
  {
    if n > 0 {
      if s[0] == ':' {
        DigitsAreSmall(s[1..], n);
      } else {
        DigitsAreSmall(s[1..], n - 1);
      }
    }
  }

  /** So two unique ids have one address exactly when they have the same 16 digits. */
  lemma SameAddressIff(a: string, b: string)
    requires |a| >= 23 && |b| >= 23 && Digits(a, 16).Some? && Digits(b, 16).Some?
    ensures ExtAddress(a) == ExtAddress(b) <==> Digits(a, 16) == Digits(b, 16)
  {
    AddressLaw(a);
    AddressLaw(b);
    DigitsAreSmall(a, 16);
    DigitsAreSmall(b, 16);
    if ExtAddress(a) == ExtAddress(b) {
      NumberTellsApart(Digits(a, 16).value, Digits(b, 16).value);
    }
  }

  /** A hex digit has its value in either case, and no other character has one. */
  lemma DigitLaw(c: char)
    ensures HexDigit(c) ==
      if '0' <= c <= '9' then Some((c - '0') as nat)
      else if c in ['a', 'A'] then Some(10) else if c in ['b', 'B'] then Some(11)
      else if c in ['c', 'C'] then Some(12) else if c in ['d', 'D'] then Some(13)
      else if c in ['e', 'E'] then Some(14) else if c in ['f', 'F'] then Some(15)
      else None
  {
  }
}
