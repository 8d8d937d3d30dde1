/**
 * The keep-alive strategy `myStrategy` of `SwiftConnectionManager`: how long
 * the pool may keep an idle connection for reuse, read from the elements of
 * the response's Keep-Alive header, with a fixed default of thirty seconds.
 */
module KeepAlive {
  import opened Wrappers
  import opened JavaLong

  /**
   * One element of the Keep-Alive header as HttpClient's header-element
   * parser yields it: `timeout=5` has name "timeout" and value "5"; a bare
   * token has no value (Java's `null`).
   */
  datatype HeaderElement = HeaderElement(name: string, value: Option<string>)

  /** The duration returned when no element gives a usable timeout: 30 * 1000 ms. */
  const DefaultKeepAliveMs: int := 30 * 1000

  /** The parameter name the strategy looks for. */
  const TimeoutParam: string := "timeout"

  /**
   * `Character.toUpperCase` for the characters whose upper case is an ASCII
   * letter: the ASCII lower-case letters and the dotless i (U+0131).
   */
  function ToUpperChar(c: char): (u: char)
    ensures 'A' <= c <= 'Z' ==> u == c
  {
    if 'a' <= c <= 'z' then (c as int - 32) as char
    else if c == 'ı' then 'I'
    else c
  }

  /**
   * `Character.toLowerCase` for the characters whose lower case is an ASCII
   * letter: the ASCII upper-case letters and the dotted capital I (U+0130).
   */
  function ToLowerChar(c: char): (l: char)
    ensures 'a' <= c <= 'z' ==> l == c
  {
    if 'A' <= c <= 'Z' then (c as int + 32) as char
    else if c == 'İ' then 'i'
    else c
  }

  predicate IsAscii(s: string) {
    forall i :: 0 <= i < |s| ==> s[i] < 128 as char
  }

  /** Lower-cases an ASCII letter and leaves every other character alone. */
  function AsciiLowerChar(c: char): char {
    if 'A' <= c <= 'Z' then (c as int + 32) as char else c
  }

  /** Lower-cases the ASCII letters of a string. */
  function AsciiToLower(s: string): (r: string)
    ensures |r| == |s|
  {
    seq(|s|, i requires 0 <= i < |s| => AsciiLowerChar(s[i]))
  }

  /**
   * The per-character test of `String.equalsIgnoreCase`: equal characters
   * match, and two ASCII characters match exactly when they are the same
   * letter in either case.
   */
  predicate CharEqualsIgnoreCase(a: char, b: char): (eq: bool)
    ensures a == b ==> eq
    ensures a < 128 as char && b < 128 as char ==> (eq <==> AsciiLowerChar(a) == AsciiLowerChar(b))
  {
    a == b
    || ToUpperChar(a) == ToUpperChar(b)
    || ToLowerChar(ToUpperChar(a)) == ToLowerChar(ToUpperChar(b))
  }

  /**
   * `String.equalsIgnoreCase`: same length, and every pair of characters
   * matches. Every string equals itself; on ASCII strings it is equality
   * after ASCII lower-casing, in both directions.
   */
  predicate EqualsIgnoreCase(s: string, t: string): (eq: bool)
    ensures s == t ==> eq
    ensures IsAscii(s) && IsAscii(t) ==> (eq <==> AsciiToLower(s) == AsciiToLower(t))
  {
    AsciiCharsMatchPointwise(s, t);
    |s| == |t| && forall i :: 0 <= i < |s| ==> CharEqualsIgnoreCase(s[i], t[i])
  }

  /** Two ASCII strings of one length match character by character exactly when they lower-case alike. */
  lemma AsciiCharsMatchPointwise(s: string, t: string)
    ensures IsAscii(s) && IsAscii(t) && |s| == |t| ==>
      ((forall i :: 0 <= i < |s| ==> CharEqualsIgnoreCase(s[i], t[i])) <==> AsciiToLower(s) == AsciiToLower(t))
  {
    if IsAscii(s) && IsAscii(t) && |s| == |t| && AsciiToLower(s) == AsciiToLower(t) {
      forall i | 0 <= i < |s|
        ensures CharEqualsIgnoreCase(s[i], t[i])
      {
        assert AsciiToLower(s)[i] == AsciiToLower(t)[i];
      }
    }
  }

  /**
   * The timeout, in seconds, that an element contributes: present when its
   * value is not null, its name is "timeout" in any letter case, and its
   * value parses as a `long`. An element without one is skipped.
   */
  function TimeoutSeconds(e: HeaderElement): Option<int> {
    if e.value.Some? && EqualsIgnoreCase(e.name, TimeoutParam) then ParseLong(e.value.value)
    else None
  }

  /**
   * The keep-alive duration, in milliseconds, for a response whose
   * Keep-Alive header has these elements: the first usable timeout times
   * 1000, computed in `long` arithmetic, or the default. The result is
   * always a `long`.
   */
  function KeepAliveDuration(elements: seq<HeaderElement>): (ms: int)
    ensures InLongRange(ms)
  {
    if |elements| == 0 then DefaultKeepAliveMs
    else match TimeoutSeconds(elements[0])
      case Some(seconds) => WrapLong(seconds * 1000)
      case None => KeepAliveDuration(elements[1..])
  }

  /**
   * `getKeepAliveDuration`: walks the header elements in order and returns
   * as soon as one yields a timeout, else the default.
   */
  method GetKeepAliveDuration(elements: seq<HeaderElement>) returns (duration: int)
    ensures duration == KeepAliveDuration(elements)
  {
    var i := 0;
    while i < |elements|
      invariant 0 <= i <= |elements|
      invariant KeepAliveDuration(elements[i..]) == KeepAliveDuration(elements)
    {
      var he := elements[i];
      assert elements[i..][1..] == elements[i + 1..];
      i := i + 1;
      var param := he.name;
      var value := he.value;
      if value.Some? && EqualsIgnoreCase(param, TimeoutParam) {
        var parsed := ParseLong(value.value);
        if parsed.Some? {
          return WrapLong(parsed.value * 1000);
        }
      }
    }
    return DefaultKeepAliveMs;
  }

  /**
   * First match wins: when element `i` is the first to yield a timeout `v`,
   * the duration is `v * 1000` as a `long`, exactly `v * 1000` whenever that
   * product does not overflow. Negative timeouts are not rejected.
   */
  lemma {:induction false} FirstTimeoutWins(elements: seq<HeaderElement>, i: nat)
    requires i < |elements| && TimeoutSeconds(elements[i]).Some?
    requires forall j :: 0 <= j < i ==> TimeoutSeconds(elements[j]).None?
    ensures KeepAliveDuration(elements) == WrapLong(TimeoutSeconds(elements[i]).value * 1000)
    ensures -(MaxLong / 1000) <= TimeoutSeconds(elements[i]).value <= MaxLong / 1000 ==>
              KeepAliveDuration(elements) == TimeoutSeconds(elements[i]).value * 1000
  {
    var v := TimeoutSeconds(elements[i]).value;
    if -(MaxLong / 1000) <= v <= MaxLong / 1000 {
      assert InLongRange(v * 1000);
    }
    if i > 0 {
      assert TimeoutSeconds(elements[0]).None?;
      FirstTimeoutWins(elements[1..], i - 1);
    }
  }

  /** With no element yielding a timeout, an empty header included, the duration is 30000 ms. */
  lemma {:induction false} NoTimeoutGivesDefault(elements: seq<HeaderElement>)
    requires forall j :: 0 <= j < |elements| ==> TimeoutSeconds(elements[j]).None?
    ensures KeepAliveDuration(elements) == 30000
  {
    if |elements| > 0 {
      NoTimeoutGivesDefault(elements[1..]);
    }
  }

  /**
   * Elements with another name, a null value or an unparsable value are
   * skipped: a run of them in front of the header changes nothing.
   */
  lemma {:induction false} SkippedElementsIgnored(skipped: seq<HeaderElement>, rest: seq<HeaderElement>)
    requires forall j :: 0 <= j < |skipped| ==> TimeoutSeconds(skipped[j]).None?
    ensures KeepAliveDuration(skipped + rest) == KeepAliveDuration(rest)
  {
    if |skipped| > 0 {
      assert (skipped + rest)[0] == skipped[0];
      assert TimeoutSeconds(skipped[0]).None?;
      assert (skipped + rest)[1..] == skipped[1..] + rest;
      SkippedElementsIgnored(skipped[1..], rest);
    } else {
      assert skipped + rest == rest;
    }
  }

  /**
   * The duration is the default or comes from some element's timeout: it is
   * 30000 or some element yields a timeout (and then the first one decides).
   */
  lemma {:induction false} DurationSource(elements: seq<HeaderElement>)
    ensures KeepAliveDuration(elements) == DefaultKeepAliveMs
         || exists i :: 0 <= i < |elements| && TimeoutSeconds(elements[i]).Some?
              && KeepAliveDuration(elements) == WrapLong(TimeoutSeconds(elements[i]).value * 1000)
  {
    if |elements| > 0 {
      if TimeoutSeconds(elements[0]).None? {
        DurationSource(elements[1..]);
        if KeepAliveDuration(elements) != DefaultKeepAliveMs {
          var i :| 0 <= i < |elements[1..]| && TimeoutSeconds(elements[1..][i]).Some?
                   && KeepAliveDuration(elements[1..]) == WrapLong(TimeoutSeconds(elements[1..][i]).value * 1000);
          assert elements[1..][i] == elements[i + 1];
        }
      } else {
        assert TimeoutSeconds(elements[0]).Some?;
      }
    }
  }

  /**
   * An element named "timeout" in any letter case yields the value its
   * decimal value denotes when that is a `long` and nothing otherwise, and
   * nothing when its value is null.
   */
  lemma TimeoutOfElement(name: string, v: int)
    requires EqualsIgnoreCase(name, TimeoutParam)
    ensures InLongRange(v) ==> TimeoutSeconds(HeaderElement(name, Some(LongToString(v)))) == Some(v)
    ensures !InLongRange(v) ==> TimeoutSeconds(HeaderElement(name, Some(LongToString(v)))) == None
    ensures TimeoutSeconds(HeaderElement(name, None)) == None
  {
    if InLongRange(v) {
      ParseLongToString(v);
    } else {
      OutOfRangeRejected(v);
    }
  }

  /** An element with any other name yields nothing, whatever its value. */
  lemma OtherNamesYieldNothing(name: string, value: Option<string>)
    requires !EqualsIgnoreCase(name, TimeoutParam)
    ensures TimeoutSeconds(HeaderElement(name, value)) == None
  {
  }

  /**
   * A timeout too large for a `long` fails to parse, so the scan skips it and
   * a later `timeout=3` decides.
   */
  lemma OutOfRangeTimeoutSkipped(v: int)
    requires !InLongRange(v)
    ensures KeepAliveDuration([HeaderElement(TimeoutParam, Some(LongToString(v))), HeaderElement(TimeoutParam, Some("3"))]) == 3000
  {
    TimeoutOfElement(TimeoutParam, v);
  }

  /** Beyond ASCII, the Turkish dotless and dotted i also spell "timeout" for `equalsIgnoreCase`. */
  lemma TurkishIMatches()
    ensures EqualsIgnoreCase("tımeout", TimeoutParam)
    ensures EqualsIgnoreCase("TİMEOUT", TimeoutParam)
  {
  }

  /** Durations for sample Keep-Alive headers: one timeout, none, an unparsable one, two timeouts. */
  lemma SampleDurations()
    ensures KeepAliveDuration([HeaderElement("timeout", Some("5"))]) == 5000
    ensures KeepAliveDuration([]) == 30000
    ensures KeepAliveDuration([HeaderElement("timeout", Some("abc"))]) == 30000
    ensures KeepAliveDuration([HeaderElement("timeout", Some("5")), HeaderElement("timeout", Some("10"))]) == 5000
  {
    FirstTimeoutWins([HeaderElement("timeout", Some("5")), HeaderElement("timeout", Some("10"))], 0);
  }

  /** An element with another name is skipped, and the name test ignores letter case. */
  lemma OtherNameSkippedSample()
    ensures KeepAliveDuration([HeaderElement("max", Some("100")), HeaderElement("Timeout", Some("7"))]) == 7000
  {
    var elements := [HeaderElement("max", Some("100")), HeaderElement("Timeout", Some("7"))];
    assert "Timeout"[0] == 'T' && "Timeout"[1..] == TimeoutParam[1..];
    assert EqualsIgnoreCase("Timeout", TimeoutParam);
    FirstTimeoutWins(elements, 1);
  }

  /** An element with a null value is skipped, and a leading plus sign is accepted. */
  lemma NullValueSkippedSample()
    ensures KeepAliveDuration([HeaderElement("timeout", None), HeaderElement("TIMEOUT", Some("+2"))]) == 2000
  {
    var elements := [HeaderElement("timeout", None), HeaderElement("TIMEOUT", Some("+2"))];
    assert AsciiToLower("TIMEOUT") == TimeoutParam;
    FirstTimeoutWins(elements, 1);
  }

  /** A negative timeout is not rejected: `-5` gives -5000. */
  lemma NegativeTimeoutSample()
    ensures KeepAliveDuration([HeaderElement("timeout", Some("-5"))]) == -5000
  {
  }

  /**
   * The product `value * 1000` is `long` arithmetic and wraps: every timeout
   * from 9223372036854776 to 18446744073709551 seconds parses, but its
   * duration comes out negative, 2^64 below the intended product.
   */
  lemma OverflowingTimeoutWraps(seconds: int)
    requires MaxLong / 1000 < seconds <= MaxLong / 500
    ensures KeepAliveDuration([HeaderElement(TimeoutParam, Some(LongToString(seconds)))])
              == seconds * 1000 - LongModulus
    ensures KeepAliveDuration([HeaderElement(TimeoutParam, Some(LongToString(seconds)))]) < 0
  {
    ParseLongToString(seconds);
    assert EqualsIgnoreCase(TimeoutParam, TimeoutParam);
    var product := seconds * 1000;
    assert LongModulus <= product - MinLong < 2 * LongModulus;
    assert WrapLong(product) == product - LongModulus;
  }
}
