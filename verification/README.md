# Swift connection manager: retry policy, keep-alive strategy and shared pool

This project models the core of stocator's `SwiftConnectionManager`, the
HTTP connection manager used to talk to an OpenStack Swift object store.
It has three parts:

- **Retry handler** (`retry_policy.dfy`, module `RetryPolicy`). This decides
  whether HttpClient may repeat a request after an I/O failure. The failing
  exception is a closed datatype `IOFailure` holding its most specific class
  among the classes the handler tests. `InstanceOf` keeps Java's subclassing:
  `ConnectTimeoutException` and `SocketTimeoutException` extend
  `InterruptedIOException`. The request is reduced to one boolean: whether it
  is an `HttpEntityEnclosingRequest` (a request type that can carry a body,
  such as POST or PUT, whether or not one is attached).
  `RetryRequest` keeps the source's ordered chain of early returns. Its
  contract states the same decision as a flat rule.
- **Keep-alive strategy** (`keep_alive.dfy`, module `KeepAlive`; and
  `java_long.dfy`, module `JavaLong`). `GetKeepAliveDuration` is the
  source's loop over the Keep-Alive header elements, with its early return.
  It is proved equal to the recursive specification `KeepAliveDuration`:
  the first usable `timeout` wins, and otherwise the result is 30000 ms.
  `Long.parseLong` is modelled as `ParseLong`. `LongToString` is a right
  inverse of it: every `long` parses back from its decimal form, but other
  spellings such as `007` or `+7` do not print back unchanged. The product `value * 1000` is Java `long` arithmetic, so it is
  modelled with wrap-around (`WrapLong`), exactly as written.
  `OverflowingTimeoutWraps` shows that any timeout from 9223372036854776
  to 18446744073709551 seconds gives a negative duration. A negative
  timeout such as `-5` is accepted and gives -5000. The code does not reject it; the model follows the code.
- **Manager** (`connection_manager.dfy`, module `ConnectionManager`).
  `SwiftConnectionManager` is a class that owns one `ConnectionPool`, a
  `const` field just as the Java field is `final`. Its constructor copies the
  numeric settings into the pool and into the default `RequestConfig`.
  `CreateHttpConnection` returns a fresh `HttpClient` that references that
  same pool. It has no `modifies` clause, so it changes nothing that already
  exists.

Java's `null` is `Wrappers.Option`. A `NumberFormatException` from `parseLong`
is a `None` result.

## Model

| member | source | states |
|---|---|---|
| RetryPolicy.RetryRequest | src/main/java/com/ibm/stocator/fs/swift/http/SwiftConnectionManager.java:111-154 | at or above the configured execution count never retry; below it, always retry a transient failure (no response, unknown host, connect or socket timeout, any interrupted I/O, SSL); any other failure is retried if and only if the request is not an `HttpEntityEnclosingRequest` |
| RetryPolicy.InstanceOf | src/main/java/com/ibm/stocator/fs/swift/http/SwiftConnectionManager.java:117-141 | Java's `instanceof` over the tested classes: an instance of any of them is a transient failure, and an exception of no tested class is an instance of none |
| RetryPolicy.TestedClassesAreTransient | src/main/java/com/ibm/stocator/fs/swift/http/SwiftConnectionManager.java:117-144 | a failure is an instance of one of the six tested exception classes exactly when it is one of the transient kinds |
| RetryPolicy.TimeoutsAreInterruptedIO | src/main/java/com/ibm/stocator/fs/swift/http/SwiftConnectionManager.java:125-140 | connect and socket timeouts are `InterruptedIOException`s and none of the unrelated tested classes, so the test at line 136 alone would already retry them |
| RetryPolicy.RetryMonotone | src/main/java/com/ibm/stocator/fs/swift/http/SwiftConnectionManager.java:112-116 | a retry allowed at some attempt count and ceiling is also allowed at any lower count and any higher ceiling |
| JavaLong.WrapLong | src/main/java/com/ibm/stocator/fs/swift/http/SwiftConnectionManager.java:171 | the result of `long` arithmetic is in the 64-bit range, congruent to the exact result modulo 2^64, and equal to it when the exact result fits |
| JavaLong.ParseLong | src/main/java/com/ibm/stocator/fs/swift/http/SwiftConnectionManager.java:171 | a parse succeeds only on an optional sign followed by one or more ASCII digits, and its value is then the signed value of those digits, which must be a `long`: a numeral outside the 64-bit range is rejected |
| JavaLong.ParseLongToString | src/main/java/com/ibm/stocator/fs/swift/http/SwiftConnectionManager.java:171 | every `long` is parsed back from its decimal form |
| JavaLong.OutOfRangeRejected | src/main/java/com/ibm/stocator/fs/swift/http/SwiftConnectionManager.java:171-174 | the decimal form of any integer outside the `long` range fails to parse |
| JavaLong.ShortNumeralsParse | src/main/java/com/ibm/stocator/fs/swift/http/SwiftConnectionManager.java:171 | every signed numeral of at most eighteen digits parses, to its signed digit value |
| JavaLong.ParseLongSamples | src/main/java/com/ibm/stocator/fs/swift/http/SwiftConnectionManager.java:171 | the empty string, a lone sign, spaces and a double sign are rejected; `+7`, `007` and `-0` are accepted |
| KeepAlive.CharEqualsIgnoreCase | src/main/java/com/ibm/stocator/fs/swift/http/SwiftConnectionManager.java:169 | equal characters match, and two ASCII characters match exactly when they are the same letter in either case |
| KeepAlive.EqualsIgnoreCase | src/main/java/com/ibm/stocator/fs/swift/http/SwiftConnectionManager.java:169 | every string matches itself, and two ASCII strings match exactly when they are equal after ASCII lower-casing |
| KeepAlive.TimeoutOfElement | src/main/java/com/ibm/stocator/fs/swift/http/SwiftConnectionManager.java:166-174 | an element named "timeout" in any case yields v when its value is the decimal form of a `long` v, nothing when that number is outside the `long` range, and nothing when its value is null |
| KeepAlive.OtherNamesYieldNothing | src/main/java/com/ibm/stocator/fs/swift/http/SwiftConnectionManager.java:169 | an element with any other name yields nothing, whatever its value |
| KeepAlive.KeepAliveDuration | src/main/java/com/ibm/stocator/fs/swift/http/SwiftConnectionManager.java:161-179 | the duration is always a Java `long` |
| KeepAlive.GetKeepAliveDuration | src/main/java/com/ibm/stocator/fs/swift/http/SwiftConnectionManager.java:161-179 | the loop over the header elements, with its early return, yields the duration the specification gives |
| KeepAlive.FirstTimeoutWins | src/main/java/com/ibm/stocator/fs/swift/http/SwiftConnectionManager.java:165-171 | when element i is the first to give a timeout v, the duration is v * 1000 in `long` arithmetic, and exactly v * 1000 when that fits |
| KeepAlive.NoTimeoutGivesDefault | src/main/java/com/ibm/stocator/fs/swift/http/SwiftConnectionManager.java:177-178 | when no element gives a timeout, including an empty header, the duration is 30000 |
| KeepAlive.SkippedElementsIgnored | src/main/java/com/ibm/stocator/fs/swift/http/SwiftConnectionManager.java:169-174 | elements with another name, a null value or an unparsable value can be dropped from the front without changing the duration |
| KeepAlive.DurationSource | src/main/java/com/ibm/stocator/fs/swift/http/SwiftConnectionManager.java:161-179 | the duration is either the default or the wrapped product of some element's timeout |
| KeepAlive.TurkishIMatches | src/main/java/com/ibm/stocator/fs/swift/http/SwiftConnectionManager.java:169 | `equalsIgnoreCase` also accepts the dotless and the dotted capital i in "timeout" |
| KeepAlive.SampleDurations | src/main/java/com/ibm/stocator/fs/swift/http/SwiftConnectionManager.java:161-179 | `timeout=5` gives 5000; no header gives 30000; `timeout=abc` gives 30000; `timeout=5, timeout=10` gives 5000 |
| KeepAlive.OtherNameSkippedSample | src/main/java/com/ibm/stocator/fs/swift/http/SwiftConnectionManager.java:165-175 | an element named `max` is skipped and a following `Timeout=7` gives 7000 |
| KeepAlive.NullValueSkippedSample | src/main/java/com/ibm/stocator/fs/swift/http/SwiftConnectionManager.java:165-175 | an element `timeout` with a null value is skipped and a following `TIMEOUT=+2` gives 2000 |
| KeepAlive.OutOfRangeTimeoutSkipped | src/main/java/com/ibm/stocator/fs/swift/http/SwiftConnectionManager.java:165-175 | a timeout too large for a `long` is skipped and a following `timeout=3` gives 3000 |
| KeepAlive.NegativeTimeoutSample | src/main/java/com/ibm/stocator/fs/swift/http/SwiftConnectionManager.java:171 | `timeout=-5` gives -5000: a negative timeout is not rejected |
| KeepAlive.OverflowingTimeoutWraps | src/main/java/com/ibm/stocator/fs/swift/http/SwiftConnectionManager.java:171 | every timeout from 9223372036854776 to 18446744073709551 seconds parses but gives a negative duration, 2^64 below the product |
| ConnectionManager.ConnectionPool.constructor | src/main/java/com/ibm/stocator/fs/swift/http/SwiftConnectionManager.java:73 | a new pool starts with HttpClient's defaults of 2 connections per route and 20 in all |
| ConnectionManager.ConnectionPool.SetDefaultMaxPerRoute | src/main/java/com/ibm/stocator/fs/swift/http/SwiftConnectionManager.java:78 | sets the per-route cap and leaves the other settings alone |
| ConnectionManager.ConnectionPool.SetMaxTotal | src/main/java/com/ibm/stocator/fs/swift/http/SwiftConnectionManager.java:83 | sets the total cap and leaves the other settings alone |
| ConnectionManager.ConnectionPool.SetDefaultSocketConfig | src/main/java/com/ibm/stocator/fs/swift/http/SwiftConnectionManager.java:88-92 | sets the socket defaults and leaves the caps alone |
| ConnectionManager.HttpClient.constructor | src/main/java/com/ibm/stocator/fs/swift/http/SwiftConnectionManager.java:200-206 | a client holds exactly the pool, retry handler, request defaults, keep-alive strategy and socket factory it was built with |
| ConnectionManager.SwiftConnectionManager.constructor | src/main/java/com/ibm/stocator/fs/swift/http/SwiftConnectionManager.java:71-100 | the fresh pool has the configured per-route and total caps, the configured socket timeout and TCP keep-alive off; the request defaults have expect-continue on and the three configured timeouts; the manager invariant holds |
| ConnectionManager.SwiftConnectionManager.CreateHttpConnection | src/main/java/com/ibm/stocator/fs/swift/http/SwiftConnectionManager.java:187-209 | for a manager whose pool and request defaults carry its configuration, the new client references the manager's own pool, which still has the configured caps and socket defaults, its request defaults, its keep-alive strategy and a retry handler over the configured execution count; the client is built with a socket factory listing exactly ["TLSv1.2"] and the browser-compatible hostname verifier; nothing existing is modified |
| ConnectionManager.ClientsSharePool | src/main/java/com/ibm/stocator/fs/swift/http/SwiftConnectionManager.java:196-202 | two clients from one manager are distinct objects that share one pool, which keeps the configured caps |

## Left out

- Connection acquisition, release and eviction in HttpClient's pool, the bounded wait for a connection, and thread safety. These are library internals and concurrency; HttpClient's source is not part of this model.
- The retry loop that calls the handler. It lives in HttpClient's request executor, so the model says nothing about how many attempts one request makes end to end.
- Splitting the Keep-Alive header into elements (`BasicHeaderElementIterator`). That is a library parser. The elements are an input sequence of name and optional value.
- Building the `SSLContext` and the behaviour of the browser-compatible hostname verifier. These are foreign calls; the model records only the protocol list and the verifier chosen.
- Logging through `LOG`. It has no functional effect.
- The `HttpContext` that the handler adapts to find the request. The model takes the request's entity-enclosing flag directly.
- RetryPolicy.RetryRequest: the exact-class test and the `isInstance` test at lines 130-131 are not modelled separately. The first is implied by the `instanceof` test before it, and the second never holds.
- JavaLong.ParseLong: only the ASCII digits 0-9 are accepted. `Character.digit` also accepts other Unicode decimal digits, such as Arabic-Indic ones.
- KeepAlive.ToUpperChar and KeepAlive.ToLowerChar model Java's case mappings only for the ASCII letters, U+0130 and U+0131. These are the only characters that matter when comparing with "timeout", but other case pairs (such as é and É) are treated as caseless.
- ConnectionManager.ConnectionPool.SetDefaultMaxPerRoute and ConnectionManager.ConnectionPool.SetMaxTotal do not model HttpClient's rejection of non-positive caps with an `IllegalArgumentException`.
- ConnectionManager.SwiftConnectionManager.CreateHttpConnection: the model records only that the TLS 1.2 socket factory is handed to the client builder. Whether HttpClient then uses it is not modelled; HttpClient's builder documents that a supplied connection manager, as at line 202, takes precedence over a socket factory.
- Shutting the pool down is not modelled. The manager has no close operation.
