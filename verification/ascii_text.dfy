/** Text as its bytes: NUL removal, `String.trim`, and the UUID pattern. */
module AsciiText {
  import opened Wrappers
  import opened ByteStrings

  const UUID_LEN: nat := 36

  function StripNulls(s: Bytes): Bytes {
    if s == [] then []
    else if s[0] == 0 then StripNulls(s[1..])
    else [s[0]] + StripNulls(s[1..])
  }

  /** `trim` removes every character up to the space. */
  function TrimStart(s: Bytes): Bytes {
    if s != [] && s[0] <= 0x20 then TrimStart(s[1..]) else s
  }

  function TrimEnd(s: Bytes): Bytes {
    if s != [] && s[|s| - 1] <= 0x20 then TrimEnd(s[..|s| - 1]) else s
  }

  function Trim(s: Bytes): Bytes { TrimStart(TrimEnd(s)) }

  lemma {:induction false} StripNullsConcat(s: Bytes, t: Bytes)
    ensures StripNulls(s + t) == StripNulls(s) + StripNulls(t)
  {
    if s == [] {
      assert s + t == t;
    } else {
      StripNullsConcat(s[1..], t);
      assert (s + t)[0] == s[0] && (s + t)[1..] == s[1..] + t;
      if s[0] != 0 {
        assert StripNulls(s) == [s[0]] + StripNulls(s[1..]);
      }
    }
  }

  lemma {:induction false} StripNullsOfZeros(n: nat)
    ensures StripNulls(Zeros(n)) == []
  {
    if n > 0 {
      StripNullsOfZeros(n - 1);
      assert Zeros(n)[1..] == Zeros(n - 1);
    }
  }

  lemma {:induction false} StripNullsOfText(s: Bytes)
    requires 0 !in s
    ensures StripNulls(s) == s
  {
    if s != [] {
      StripNullsOfText(s[1..]);
      assert s == [s[0]] + s[1..];
    }
  }

  /** A text that starts with a printable character keeps its start: only its end is trimmed. */
  lemma {:induction false} TrimOfPrintableStart(s: Bytes)
    requires s != [] && s[0] > 0x20
    ensures Trim(s) == TrimEnd(s)
    ensures TrimEnd(s) != [] && TrimEnd(s)[0] == s[0] && TrimEnd(s) <= s
  {
    if s[|s| - 1] <= 0x20 {
      TrimOfPrintableStart(s[..|s| - 1]);
    }
  }

  predicate IsBlank(s: Bytes) { forall i :: 0 <= i < |s| ==> s[i] <= 0x20 }

  lemma {:induction false} TrimEndCuts(s: Bytes) returns (after: Bytes)
    ensures s == TrimEnd(s) + after && IsBlank(after)
    ensures TrimEnd(s) != [] ==> TrimEnd(s)[|TrimEnd(s)| - 1] > 0x20
  {
    if s != [] && s[|s| - 1] <= 0x20 {
      var n := |s| - 1;
      var more := TrimEndCuts(s[..n]);
      after := more + [s[n]];
      assert s == s[..n] + [s[n]];
    } else {
      after := [];
    }
  }

  lemma {:induction false} TrimStartCuts(s: Bytes) returns (before: Bytes)
    ensures s == before + TrimStart(s) && IsBlank(before)
    ensures TrimStart(s) != [] ==> TrimStart(s)[0] > 0x20 && TrimStart(s)[|TrimStart(s)| - 1] == s[|s| - 1]
  {
    if s != [] && s[0] <= 0x20 {
      var more := TrimStartCuts(s[1..]);
      before := [s[0]] + more;
      assert s == [s[0]] + s[1..];
    } else {
      before := [];
    }
  }

  /** Trimming cuts what is at most a space off both ends, and all of it. */
  lemma TrimCutsBlanks(s: Bytes) returns (before: Bytes, after: Bytes)
    ensures s == before + Trim(s) + after && IsBlank(before) && IsBlank(after)
    ensures Trim(s) != [] ==> Trim(s)[0] > 0x20 && Trim(s)[|Trim(s)| - 1] > 0x20
  {
    hide TrimStart, TrimEnd, IsBlank;
    after := TrimEndCuts(s);
    before := TrimStartCuts(TrimEnd(s));
  }

  // ---- The UUID pattern, in either letter case

  predicate IsHexDigit(b: byte) {
    0x30 <= b <= 0x39 || 0x41 <= b <= 0x46 || 0x61 <= b <= 0x66
  }

  predicate IsUuidCharacter(j: nat, b: byte) {
    if j == 8 || j == 13 || j == 18 || j == 23 then b == 0x2D else IsHexDigit(b)
  }

  predicate IsUuid(s: Bytes) {
    |s| == UUID_LEN && forall j :: 0 <= j < UUID_LEN ==> IsUuidCharacter(j, s[j])
  }

  predicate UuidAt(s: Bytes, i: nat) {
    i + UUID_LEN <= |s| && IsUuid(s[i..i + UUID_LEN])
  }

  /** The leftmost match of the pattern at or after `from`, as `Matcher.find` reports it. */
  function FindUuid(s: Bytes, from: nat): (r: Option<nat>)
    ensures r.Some? ==> UuidAt(s, r.value) && forall i: nat :: from <= i < r.value ==> !UuidAt(s, i)
    ensures r.None? ==> forall i: nat :: from <= i ==> !UuidAt(s, i)
    decreases |s| - from
  {
    if from + UUID_LEN > |s| then None
    else if UuidAt(s, from) then Some(from)
    else FindUuid(s, from + 1)
  }

  /** A UUID survives NUL removal and trimming, and is its own leftmost match. */
  lemma UuidIsPlainText(s: Bytes)
    requires IsUuid(s)
    ensures Trim(StripNulls(s)) == s
    ensures FindUuid(s, 0) == Some(0)
  {
    forall j | 0 <= j < |s|
      ensures s[j] > 0x20
    {
      assert IsUuidCharacter(j, s[j]);
    }
    StripNullsOfText(s);
    TrimOfPrintableStart(s);
    assert s[0..UUID_LEN] == s;
  }
}
