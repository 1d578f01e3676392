/**
 * The retry counter that travels in a Kafka message's headers, and the chains of
 * retries that it bounds.
 */
module RetryHeaders {
  import opened Wrappers

  const ATTEMPT_KEY := "x-ofm-retry-attempt"
  const MAX_INT := 0x7FFF_FFFF_FFFF_FFFF

  datatype Header = Header(key: string, value: string)

  // ---------------------------------------------------------------- numerals

  predicate IsDigit(c: char) {
    '0' <= c <= '9'
  }

  predicate AllDigits(s: string) {
    forall i :: 0 <= i < |s| ==> IsDigit(s[i])
  }

  function DigitsValue(s: string): nat
    requires AllDigits(s)
  {
    if s == "" then 0 else 10 * DigitsValue(s[..|s| - 1]) + (s[|s| - 1] as int - '0' as int)
  }

  /** `strconv.Atoi` for a 64-bit int: optional sign, decimal digits, in range. */
  function Atoi(s: string): Option<int> {
    var signed := s != "" && (s[0] == '-' || s[0] == '+');
    var digits := if signed then s[1..] else s;
    if digits == "" || !AllDigits(digits) then None
    else
      var magnitude: int := DigitsValue(digits);
      var n: int := if signed && s[0] == '-' then -magnitude else magnitude;
      if -MAX_INT - 1 <= n <= MAX_INT then Some(n) else None
  }

  function Itoa(n: nat): string {
    if n < 10 then [('0' as int + n) as char] else Itoa(n / 10) + Itoa(n % 10)
  }

  lemma {:induction false} ItoaDigits(n: nat)
    ensures Itoa(n) != "" && AllDigits(Itoa(n)) && DigitsValue(Itoa(n)) == n
  {
    if n >= 10 {
      ItoaDigits(n / 10);
      var s := Itoa(n);
      assert s[..|s| - 1] == Itoa(n / 10);
    } else {
      var s := Itoa(n);
      assert s[..|s| - 1] == "";
    }
  }

  /** A numeral is an optional sign before at least one digit; it is read if its value is in range. */
  lemma AtoiReads(sign: string, digits: string)
    requires sign in {"", "+", "-"} && digits != "" && AllDigits(digits)
    ensures var n: int := if sign == "-" then -(DigitsValue(digits) as int) else DigitsValue(digits);
            Atoi(sign + digits) == if -MAX_INT - 1 <= n <= MAX_INT then Some(n) else None
  {
    if sign == "" {
      assert sign + digits == digits && IsDigit(digits[0]);
    } else {
      assert (sign + digits)[1..] == digits;
    }
  }

  /** Nothing else is read. */
  lemma AtoiReadsNothingElse(s: string)
    requires Atoi(s).Some?
    ensures exists sign, digits :: sign in {"", "+", "-"} && digits != "" && AllDigits(digits) && s == sign + digits
  {
    if s[0] == '-' || s[0] == '+' {
      assert s == [s[0]] + s[1..] && ([s[0]] == "+" || [s[0]] == "-");
    } else {
      assert s == "" + s;
    }
  }

  lemma AtoiItoa(n: nat)
    requires n <= MAX_INT
    ensures Atoi(Itoa(n)) == Some(n)
  {
    ItoaDigits(n);
    assert IsDigit(Itoa(n)[0]);
  }

  // ---------------------------------------------------------------- reading

  /** The attempt number that a single header carries, if it carries one. */
  function StampOf(h: Header): Option<int> {
    if h.key == ATTEMPT_KEY && Atoi(h.value).Some? && Atoi(h.value).value > 0
    then Atoi(h.value)
    else None
  }

  /** `n` is what the first usable attempt header of `hs` says, or 1 without one. */
  ghost predicate IsAttempt(hs: seq<Header>, n: int) {
    || (n == 1 && forall i :: 0 <= i < |hs| ==> StampOf(hs[i]) == None)
    || exists i :: 0 <= i < |hs| && StampOf(hs[i]) == Some(n)
                   && forall j :: 0 <= j < i ==> StampOf(hs[j]) == None
  }

  function RetryAttempt(hs: seq<Header>): (n: int)
    ensures 1 <= n <= MAX_INT
    ensures IsAttempt(hs, n)
  {
    if hs == [] then 1
    else if StampOf(hs[0]).Some? then StampOf(hs[0]).value
    else
      var n := RetryAttempt(hs[1..]);
      assert IsAttempt(hs, n) by {
        if !(n == 1 && forall i :: 0 <= i < |hs[1..]| ==> StampOf(hs[1..][i]) == None) {
          var i :| 0 <= i < |hs[1..]| && StampOf(hs[1..][i]) == Some(n)
                   && forall j :: 0 <= j < i ==> StampOf(hs[1..][j]) == None;
          assert StampOf(hs[i + 1]) == Some(n);
          assert forall j :: 0 <= j < i + 1 ==> StampOf(hs[j]) == None
            by { forall j | 0 <= j < i + 1 ensures StampOf(hs[j]) == None {
              if j > 0 { assert hs[j] == hs[1..][j - 1]; } } }
        } else {
          forall i | 0 <= i < |hs| ensures StampOf(hs[i]) == None {
            if i > 0 { assert hs[i] == hs[1..][i - 1]; }
          }
        }
      }
      n
  }

  /** The broker's scan over the headers. */
  method ScanRetryAttempt(hs: seq<Header>) returns (n: int)
    ensures n == RetryAttempt(hs)
    ensures n >= 1 && IsAttempt(hs, n)
  {
    for k := 0 to |hs|
      invariant forall i :: 0 <= i < k ==> StampOf(hs[i]) == None
    {
      if hs[k].key == ATTEMPT_KEY {
        var parsed := Atoi(hs[k].value);
        if parsed.Some? && parsed.value > 0 {
          AttemptIsUnique(hs, parsed.value, RetryAttempt(hs));
          return parsed.value;
        }
      }
    }
    AttemptIsUnique(hs, 1, RetryAttempt(hs));
    return 1;
  }

  lemma AttemptIsUnique(hs: seq<Header>, m: int, n: int)
    requires IsAttempt(hs, m) && IsAttempt(hs, n)
    ensures m == n
  {
  }

  // ---------------------------------------------------------------- stamping

  function WithoutStamps(hs: seq<Header>): (r: seq<Header>)
    ensures forall i :: 0 <= i < |r| ==> r[i].key != ATTEMPT_KEY
  {
    if hs == [] then []
    else (if hs[0].key == ATTEMPT_KEY then [] else [hs[0]]) + WithoutStamps(hs[1..])
  }

  /** The headers of a copy put on the retry topic as attempt `n`. */
  function Stamp(hs: seq<Header>, n: nat): seq<Header> {
    WithoutStamps(hs) + [Header(ATTEMPT_KEY, Itoa(n))]
  }

  lemma StampReadsBack(hs: seq<Header>, n: nat)
    requires 1 <= n <= MAX_INT
    ensures RetryAttempt(Stamp(hs, n)) == n
  {
    AtoiItoa(n);
    var s := Stamp(hs, n);
    assert StampOf(s[|s| - 1]) == Some(n);
    AttemptIsUnique(s, n, RetryAttempt(s));
  }

  /**
   * Removing the older stamps is what makes the stamp readable: a stamp that is only
   * appended reads back exactly when no older stamp says something else.
   */
  lemma AppendedStampReadsBack(hs: seq<Header>, n: nat)
    requires 1 <= n <= MAX_INT
    ensures RetryAttempt(hs + [Header(ATTEMPT_KEY, Itoa(n))]) == n
            <==> (forall i :: 0 <= i < |hs| ==> StampOf(hs[i]) == None) || RetryAttempt(hs) == n
  {
    AtoiItoa(n);
    var s := hs + [Header(ATTEMPT_KEY, Itoa(n))];
    assert StampOf(s[|hs|]) == Some(n);
    assert forall i :: 0 <= i < |hs| ==> s[i] == hs[i];
    if forall i :: 0 <= i < |hs| ==> StampOf(hs[i]) == None {
      assert IsAttempt(s, n);
      AttemptIsUnique(s, n, RetryAttempt(s));
    } else {
      var m := RetryAttempt(hs);
      var i :| 0 <= i < |hs| && StampOf(hs[i]) == Some(m)
               && forall j :: 0 <= j < i ==> StampOf(hs[j]) == None;
      assert IsAttempt(s, m);
      AttemptIsUnique(s, m, RetryAttempt(s));
    }
  }

  // ---------------------------------------------------------------- chains

  /** `copy` holds the headers of the retry made of a failed delivery of `parent`. */
  predicate IsRetry(parent: seq<Header>, copy: seq<Header>, maxAttempts: int) {
    RetryAttempt(parent) < maxAttempts && copy == Stamp(parent, RetryAttempt(parent) + 1)
  }

  lemma RetryIsNextAttempt(parent: seq<Header>, copy: seq<Header>, maxAttempts: int)
    requires maxAttempts <= MAX_INT && IsRetry(parent, copy, maxAttempts)
    ensures RetryAttempt(copy) == RetryAttempt(parent) + 1 <= maxAttempts
  {
    var n := RetryAttempt(parent);
    StampReadsBack(parent, n + 1);
    assert copy == Stamp(parent, n + 1);
  }

  ghost predicate RetryChain(ms: seq<seq<Header>>, maxAttempts: int) {
    forall i, j :: 0 <= i < j < |ms| && j == i + 1 ==> IsRetry(ms[i], ms[j], maxAttempts)
  }

  lemma {:induction false} RetryChainCounts(ms: seq<seq<Header>>, maxAttempts: int, k: nat)
    requires k < |ms| && maxAttempts <= MAX_INT && RetryChain(ms, maxAttempts)
    ensures RetryAttempt(ms[k]) == RetryAttempt(ms[0]) + k
    ensures k > 0 ==> RetryAttempt(ms[k]) <= maxAttempts
  {
    if k > 0 {
      RetryChainCounts(ms, maxAttempts, k - 1);
      RetryIsNextAttempt(ms[k - 1], ms[k], maxAttempts);
    }
  }

  /**
   * Along a chain of retries of retries the counter goes up by exactly one, so no
   * chain is longer than the attempt limit, whatever headers its root arrived with.
   */
  lemma RetryChainIsBounded(ms: seq<seq<Header>>, maxAttempts: int)
    requires ms != [] && maxAttempts <= MAX_INT && RetryChain(ms, maxAttempts)
    ensures forall k :: 0 <= k < |ms| ==> RetryAttempt(ms[k]) == RetryAttempt(ms[0]) + k
    ensures |ms| == 1 || |ms| <= maxAttempts
  {
    forall k | 0 <= k < |ms| ensures RetryAttempt(ms[k]) == RetryAttempt(ms[0]) + k {
      RetryChainCounts(ms, maxAttempts, k);
    }
    RetryChainCounts(ms, maxAttempts, |ms| - 1);
  }
}
