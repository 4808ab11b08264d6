/**
  Session identifiers of the chat server. A generated id reads
  `session_<milliseconds>_<base-36 suffix>`; the expiry sweep reads the
  creation time back out of field 1 of the id split on `_`.
 */
module SessionIds {
  import opened JsText

  /** One digit of the fraction that `Math.random().toString(36)` prints after "0.". */
  type Base36Digit = d: int | 0 <= d < 36

  const Prefix: string := "session"
  const Separator: char := '_'

  /**
    `Math.random().toString(36).substr(2, 9)`: at most nine digits of the
    random fraction, written with `0`-`9` and `a`-`z`. A random value of 0
    prints as "0" and leaves an empty suffix.
   */
  function RandomSuffix(fraction: seq<Base36Digit>): (r: string)
    ensures |r| == if |fraction| < 9 then |fraction| else 9
    ensures forall k :: 0 <= k < |r| ==> DigitValue(r[k]) == fraction[k] && ('0' <= r[k] <= '9' || 'a' <= r[k] <= 'z')
    ensures Separator !in r
  {
    var taken := if |fraction| < 9 then fraction else fraction[..9];
    seq(|taken|, k requires 0 <= k < |taken| => DigitChar(taken[k]))
  }

  /**
    `generateSessionId()` with the clock reading `now` (`Date.now()`) and the
    random fraction as parameters. The three `_`-separated fields of the id
    are the literal prefix, the decimal timestamp and the suffix.
   */
  function GenerateSessionId(now: nat, fraction: seq<Base36Digit>): (id: string)
    ensures |id| > |Prefix| && id[..|Prefix|] == Prefix
    ensures Split(id, Separator) == [Prefix, DecimalString(now), RandomSuffix(fraction)]
  {
    var stamp := DecimalString(now);
    var suffix := RandomSuffix(fraction);
    var id := Prefix + [Separator] + stamp + [Separator] + suffix;
    assert Separator !in stamp by {
      assert forall k :: 0 <= k < |stamp| ==> stamp[k] != Separator;
    }
    assert [Prefix, stamp, suffix][1..] == [stamp, suffix] && [stamp, suffix][1..] == [suffix];
    assert Join([stamp, suffix], Separator) == stamp + [Separator] + suffix;
    assert Join([Prefix, stamp, suffix], Separator) == Prefix + [Separator] + (stamp + [Separator] + suffix);
    assert id == Join([Prefix, stamp, suffix], Separator);
    SplitJoin([Prefix, stamp, suffix], Separator);
    id
  }

  /**
    `parseInt(key.split('_')[1])`: the creation time the sweep reads out of a
    key. `None` stands for `NaN`, which a key with no `_` or with no digits
    after its first `_` yields.
   */
  function IdTimestamp(key: string): Option<int>
  {
    match Field(key, Separator, 1)
    case None => None
    case Some(stamp) => ParseInt(stamp)
  }

  /** Reading the timestamp back out of a generated id gives its creation time. */
  lemma GeneratedIdTimestamp(now: nat, fraction: seq<Base36Digit>)
    ensures IdTimestamp(GenerateSessionId(now, fraction)) == Some(now)
  {
    ParseIntDecimal(now);
  }

  /** A key with no `_` in it has no timestamp. */
  lemma NoSeparatorNoTimestamp(key: string)
    requires Separator !in key
    ensures IdTimestamp(key) == None
  {
    SplitJoin([key], Separator);
  }

  /** A key whose field 1 has no decimal digit in it has no timestamp either. */
  lemma NoDigitsNoTimestamp(key: string, stamp: string)
    requires Field(key, Separator, 1) == Some(stamp)
    requires forall k :: 0 <= k < |stamp| ==> DigitValue(stamp[k]) >= 10
    ensures IdTimestamp(key) == None
  {
    ParseIntNoDigits(stamp);
  }
}
