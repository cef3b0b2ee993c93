/** Go strings as byte strings: one Dafny `char` stands for one byte.
    Characters above 255 never occur in a Go string; they count as ill-formed. */
module Text {

  // ---- UTF-8 well-formedness (sections 3 and 4 of RFC 3629) -------------------

  predicate Between(lo: int, c: char, hi: int) { lo <= c as int <= hi }

  predicate IsTail(c: char) { Between(0x80, c, 0xBF) }

  /** The length of the well-formed sequence at the front of `s`; 0 when there is none. */
  function RuneLength(s: string): (n: nat)
    ensures n <= 4 && n <= |s|
  {
    if |s| >= 1 && Between(0, s[0], 0x7F) then 1
    else if |s| >= 2 && Between(0xC2, s[0], 0xDF) && IsTail(s[1]) then 2
    else if |s| >= 3 && IsTail(s[2]) && IsThreeByteHead(s[0], s[1]) then 3
    else if |s| >= 4 && IsTail(s[2]) && IsTail(s[3]) && IsFourByteHead(s[0], s[1]) then 4
    else 0
  }

  predicate IsThreeByteHead(a: char, b: char) {
    || (a as int == 0xE0 && Between(0xA0, b, 0xBF))
    || (Between(0xE1, a, 0xEC) && IsTail(b))
    || (a as int == 0xED && Between(0x80, b, 0x9F))
    || (Between(0xEE, a, 0xEF) && IsTail(b))
  }

  predicate IsFourByteHead(a: char, b: char) {
    || (a as int == 0xF0 && Between(0x90, b, 0xBF))
    || (Between(0xF1, a, 0xF3) && IsTail(b))
    || (a as int == 0xF4 && Between(0x80, b, 0x8F))
  }

  predicate Valid(s: string)
  {
    s == [] || (RuneLength(s) > 0 && Valid(s[RuneLength(s)..]))
  }

  /** The front sequence is decided by its own bytes alone. */
  lemma RuneStable(s: string, t: string)
    requires RuneLength(s) > 0 && s[..RuneLength(s)] <= t
    ensures RuneLength(t) == RuneLength(s)
  {
    var n := RuneLength(s);
    assert forall k :: 0 <= k < n ==> s[..n][k] == s[k] && t[k] == s[..n][k];
  }

  lemma {:induction false} ValidAppend(a: string, b: string)
    requires Valid(a) && Valid(b)
    ensures Valid(a + b)
  {
    hide RuneLength;
    if a == [] {
      assert a + b == b;
    } else {
      var n := RuneLength(a);
      RuneStable(a, a + b);
      ValidAppend(a[n..], b);
      assert (a + b)[n..] == a[n..] + b;
    }
  }

  lemma {:induction false} ValidRest(a: string, b: string)
    requires Valid(a) && Valid(a + b)
    ensures Valid(b)
  {
    if a == [] {
      assert a + b == b;
    } else {
      var n := RuneLength(a);
      RuneStable(a, a + b);
      assert (a + b)[n..] == a[n..] + b;
      ValidRest(a[n..], b);
    }
  }

  /** Cutting a well-formed string before a byte that starts a sequence leaves a
      well-formed front. */
  lemma {:induction false} ValidFront(a: string, b: string)
    requires Valid(a + b) && b != [] && !IsTail(b[0])
    ensures Valid(a)
  {
    if a != [] {
      var s := a + b;
      var n := RuneLength(s);
      if n <= |a| {
        assert s[..n] <= a;
        RuneStable(s, a);
        assert s[n..] == a[n..] + b;
        ValidFront(a[n..], b);
      } else {
        assert false;
      }
    }
  }

  /** Some cut at most three bytes below `limit` falls between two sequences. */
  lemma {:induction false} CutNear(s: string, limit: nat) returns (k: nat)
    requires Valid(s) && limit <= |s|
    ensures k <= limit <= k + 3 && Valid(s[..k])
  {
    var n := RuneLength(s);
    if s == [] || limit < n {
      k := 0;
    } else {
      var rest := CutNear(s[n..], limit - n);
      k := n + rest;
      assert s[..k] == s[..n] + s[n..][..rest];
      RuneStable(s, s[..n]);
      assert Valid(s[..n][n..]);
      ValidAppend(s[..n], s[n..][..rest]);
    }
  }

  // ---- truncateUTF8 -----------------------------------------------------------

  /** `r` is the longest front of `s` within `limit` bytes that is well-formed. */
  ghost predicate IsLongestValidFront(s: string, limit: nat, r: string)
  {
    && r <= s
    && |r| <= limit
    && Valid(r)
    && forall k :: |r| < k <= limit && k <= |s| ==> !Valid(s[..k])
  }

  lemma LongestValidFrontUnique(s: string, limit: nat, a: string, b: string)
    requires IsLongestValidFront(s, limit, a) && IsLongestValidFront(s, limit, b)
    ensures a == b
  {
    assert a == s[..|a|] && b == s[..|b|];
  }

  function Truncated(s: string, limit: nat): (r: string)
    ensures |s| <= limit ==> r == s
    ensures |s| > limit ==> IsLongestValidFront(s, limit, r)
  {
    if |s| <= limit then s else CutBack(s, limit)
  }

  function CutBack(s: string, limit: nat): (r: string)
    requires limit < |s|
    ensures IsLongestValidFront(s, limit, r)
  {
    if limit == 0 || Valid(s[..limit]) then s[..limit] else CutBack(s, limit - 1)
  }

  lemma TruncatedIs(s: string, limit: nat, r: string)
    requires limit < |s| && IsLongestValidFront(s, limit, r)
    ensures Truncated(s, limit) == r
  {
    LongestValidFrontUnique(s, limit, Truncated(s, limit), r);
  }

  method TruncateUTF8(value: string, maxBytes: nat) returns (r: string)
    ensures |value| <= maxBytes ==> r == value
    ensures |value| > maxBytes ==> IsLongestValidFront(value, maxBytes, r)
    ensures r == Truncated(value, maxBytes)
  {
    if |value| <= maxBytes {
      return value;
    }
    var size: int := maxBytes;
    while size > 0 && !Valid(value[..size])
      invariant 0 <= size <= maxBytes
      invariant forall k :: size < k <= maxBytes ==> !Valid(value[..k])
    {
      size := size - 1;
    }
    r := value[..size];
    LongestValidFrontUnique(value, maxBytes, r, Truncated(value, maxBytes));
  }

  /** On well-formed text nothing ill-formed is produced and at most three bytes
      of the budget are left unused. */
  lemma TruncatedKeepsText(s: string, limit: nat)
    requires Valid(s)
    ensures Valid(Truncated(s, limit)) && Truncated(s, limit) <= s
    ensures |Truncated(s, limit)| <= limit
    ensures |s| > limit ==> |Truncated(s, limit)| + 3 >= limit
  {
    if |s| > limit {
      var k := CutNear(s, limit);
      assert k <= |Truncated(s, limit)|;
    }
  }

  lemma LongestAfter(front: string, rest: string, left: nat, cut: string)
    requires Valid(front) && IsLongestValidFront(rest, left, cut) && left < |rest|
    ensures IsLongestValidFront(front + rest, |front| + left, front + cut)
  {
    ValidAppend(front, cut);
    forall k | |front + cut| < k <= |front| + left ensures !Valid((front + rest)[..k]) {
      NoLongerFront(front, rest, k);
    }
  }

  lemma NoLongerFront(front: string, rest: string, k: nat)
    requires Valid(front) && |front| <= k <= |front| + |rest|
    requires !Valid(rest[..k - |front|])
    ensures !Valid((front + rest)[..k])
  {
    var part := rest[..k - |front|];
    assert (front + rest)[..k] == front + part;
    if Valid(front + part) {
      ValidRest(front, part);
    }
  }

  /** Truncating after a well-formed front that fits is truncating the remainder
      to the remaining budget. */
  lemma TruncatedAfter(front: string, rest: string, limit: nat)
    requires Valid(front) && |front| <= limit
    ensures Truncated(front + rest, limit) == front + Truncated(rest, limit - |front|)
  {
    if |front| + |rest| > limit {
      LongestAfter(front, rest, limit - |front|, Truncated(rest, limit - |front|));
      TruncatedIs(front + rest, limit, front + Truncated(rest, limit - |front|));
    }
  }

  // ---- strings.TrimSpace ------------------------------------------------------

  predicate IsSpaceByte(a: char) { a == ' ' || Between(0x09, a, 0x0D) }

  predicate IsSpacePair(a: char, b: char) {
    a as int == 0xC2 && (b as int == 0x85 || b as int == 0xA0)
  }

  predicate IsSpaceTriple(a: char, b: char, c: char) {
    || (a as int == 0xE1 && b as int == 0x9A && c as int == 0x80)
    || (a as int == 0xE2 && b as int == 0x80
        && (Between(0x80, c, 0x8A) || Between(0xA8, c, 0xA9) || c as int == 0xAF))
    || (a as int == 0xE2 && b as int == 0x81 && c as int == 0x9F)
    || (a as int == 0xE3 && b as int == 0x80 && c as int == 0x80)
  }

  /** `w` encodes one character with the Unicode White_Space property. */
  predicate IsSpace(w: string)
  {
    || (|w| == 1 && IsSpaceByte(w[0]))
    || (|w| == 2 && IsSpacePair(w[0], w[1]))
    || (|w| == 3 && IsSpaceTriple(w[0], w[1], w[2]))
  }

  function LeadingSpace(s: string): (n: nat)
    ensures n <= |s| && (n > 0 ==> IsSpace(s[..n]))
  {
    if |s| >= 1 && IsSpaceByte(s[0]) then 1
    else if |s| >= 2 && IsSpacePair(s[0], s[1]) then 2
    else if |s| >= 3 && IsSpaceTriple(s[0], s[1], s[2]) then 3
    else 0
  }

  function TrailingSpace(s: string): (n: nat)
    ensures n <= |s| && (n > 0 ==> IsSpace(s[|s| - n..]))
  {
    var n := |s|;
    if n >= 1 && IsSpaceByte(s[n - 1]) then 1
    else if n >= 2 && IsSpacePair(s[n - 2], s[n - 1]) then 2
    else if n >= 3 && IsSpaceTriple(s[n - 3], s[n - 2], s[n - 1]) then 3
    else 0
  }

  function TrimLeft(s: string): (r: string)
    ensures |r| <= |s|
    decreases |s|
  {
    if LeadingSpace(s) == 0 then s else TrimLeft(s[LeadingSpace(s)..])
  }

  function TrimRight(s: string): (r: string)
    ensures r <= s
    decreases |s|
  {
    if TrailingSpace(s) == 0 then s else TrimRight(s[..|s| - TrailingSpace(s)])
  }

  function TrimSpace(s: string): string { TrimRight(TrimLeft(s)) }

  lemma {:induction false} TrimLeftTwice(s: string)
    ensures LeadingSpace(TrimLeft(s)) == 0
    decreases |s|
  {
    if LeadingSpace(s) > 0 { TrimLeftTwice(s[LeadingSpace(s)..]); }
  }

  lemma {:induction false} TrimRightTwice(s: string)
    ensures TrailingSpace(TrimRight(s)) == 0
    decreases |s|
  {
    if TrailingSpace(s) > 0 { TrimRightTwice(s[..|s| - TrailingSpace(s)]); }
  }

  /** A front starts with a space only if the whole does. */
  lemma LeadingOfFront(front: string, s: string)
    requires front <= s && LeadingSpace(s) == 0
    ensures LeadingSpace(front) == 0
  {
    var n := LeadingSpace(front);
    assert front[..n] == s[..n];
    hide IsSpace;
  }

  lemma TrimmedEnds(s: string)
    ensures LeadingSpace(TrimSpace(s)) == 0 && TrailingSpace(TrimSpace(s)) == 0
  {
    var left := TrimLeft(s);
    TrimLeftTwice(s);
    TrimRightTwice(left);
    LeadingOfFront(TrimRight(left), left);
    hide LeadingSpace;
    hide TrailingSpace;
  }

  lemma NothingToTrim(s: string)
    requires LeadingSpace(s) == 0 && TrailingSpace(s) == 0
    ensures TrimSpace(s) == s
  {
    hide LeadingSpace;
    hide TrailingSpace;
  }

  /** Text that was trimmed once stays as it is. */
  lemma TrimSpaceTwice(s: string)
    ensures TrimSpace(TrimSpace(s)) == TrimSpace(s)
  {
    hide *;
    TrimmedEnds(s);
    NothingToTrim(TrimSpace(s));
  }

  /** A space is one well-formed sequence. */
  lemma SpaceIsRune(w: string)
    requires IsSpace(w)
    ensures w != [] && !IsTail(w[0]) && Valid(w)
  {
    assert RuneLength(w) == |w| && w[|w|..] == [];
  }

  lemma {:induction false} TrimLeftValid(s: string)
    requires Valid(s)
    ensures Valid(TrimLeft(s))
    decreases |s|
  {
    var n := LeadingSpace(s);
    if n > 0 {
      SpaceIsRune(s[..n]);
      hide IsSpace;
      hide LeadingSpace;
      hide Valid;
      assert s == s[..n] + s[n..];
      ValidRest(s[..n], s[n..]);
      TrimLeftValid(s[n..]);
    }
  }

  lemma {:induction false} TrimRightValid(s: string)
    requires Valid(s)
    ensures Valid(TrimRight(s))
    decreases |s|
  {
    var n := TrailingSpace(s);
    hide TrailingSpace;
    if n > 0 {
      SpaceIsRune(s[|s| - n..]);
      hide IsSpace;
      hide Valid;
      assert s == s[..|s| - n] + s[|s| - n..];
      ValidFront(s[..|s| - n], s[|s| - n..]);
      TrimRightValid(s[..|s| - n]);
    }
  }

  /** A well-formed string stays well-formed, and nothing but its ends is touched. */
  lemma TrimSpaceValid(s: string)
    requires Valid(s)
    ensures Valid(TrimSpace(s))
  {
    TrimLeftValid(s);
    TrimRightValid(TrimLeft(s));
  }

  /** Text whose first byte is not a space is only trimmed at its end. */
  lemma TrimSpaceFront(s: string)
    requires s != [] && Between(0x21, s[0], 0x7F)
    ensures TrimSpace(s) <= s && TrimSpace(s) != []
  {
    assert LeadingSpace(s) == 0;
    TrimRightKeepsHead(s);
  }

  lemma {:induction false} TrimRightKeepsHead(s: string)
    requires s != [] && Between(0x21, s[0], 0x7F)
    ensures TrimRight(s) != []
    decreases |s|
  {
    var n := TrailingSpace(s);
    hide TrailingSpace;
    if n > 0 {
      assert s[|s| - n..][0] == s[|s| - n];
      assert n < |s|;
      hide IsSpace;
      TrimRightKeepsHead(s[..|s| - n]);
    }
  }
}
