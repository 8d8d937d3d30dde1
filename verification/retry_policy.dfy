/**
 * The retry handler that `SwiftConnectionManager.getRetryHandler` installs in
 * every client: given the I/O failure that ended an attempt, the 1-based
 * number of attempts made so far and whether the request carries a body
 * (is an `HttpEntityEnclosingRequest`), it decides whether HttpClient may
 * try the request again.
 */
module RetryPolicy {

  /**
   * The run-time class of the failing `IOException`, as far as the handler
   * can tell classes apart: the most specific of the classes it tests for.
   * A subclass of one of them (an `SSLHandshakeException`, say) falls under
   * its nearest tested ancestor; `OtherIO` is every other `IOException`.
   */
  datatype IOFailure =
    | NoHttpResponse   // org.apache.http.NoHttpResponseException
    | UnknownHost      // java.net.UnknownHostException
    | ConnectTimeout   // org.apache.http.conn.ConnectTimeoutException
    | SocketTimeout    // java.net.SocketTimeoutException
    | InterruptedIO    // java.io.InterruptedIOException, no more specific class
    | Ssl              // javax.net.ssl.SSLException
    | OtherIO          // any other java.io.IOException

  /** The classes the handler tests with `instanceof`. */
  datatype ExceptionClass =
    | NoHttpResponseException
    | UnknownHostException
    | ConnectTimeoutException
    | SocketTimeoutException
    | InterruptedIOException
    | SSLException

  /**
   * Java's `instanceof`: a failure is an instance of its own class and of
   * every superclass. `ConnectTimeoutException` and `SocketTimeoutException`
   * both extend `InterruptedIOException`; the other tested classes are
   * unrelated siblings under `IOException`.
   */
  predicate InstanceOf(f: IOFailure, c: ExceptionClass): (isInstance: bool)
    ensures isInstance ==> TransientNetworkFailure(f)
    ensures f == OtherIO ==> !isInstance
  {
    match c
    case NoHttpResponseException => f == NoHttpResponse
    case UnknownHostException => f == UnknownHost
    case ConnectTimeoutException => f == ConnectTimeout
    case SocketTimeoutException => f == SocketTimeout
    case InterruptedIOException => f == InterruptedIO || f == ConnectTimeout || f == SocketTimeout
    case SSLException => f == Ssl
  }

  /**
   * The failures treated as transient network-layer trouble, after which
   * the request is assumed not to have been processed.
   */
  predicate TransientNetworkFailure(f: IOFailure) {
    f in {NoHttpResponse, UnknownHost, ConnectTimeout, SocketTimeout, InterruptedIO, Ssl}
  }

  /**
   * The tested classes cover exactly the transient failures: a failure is an
   * instance of some class the handler tests for if and only if it is transient.
   */
  lemma TestedClassesAreTransient(f: IOFailure)
    ensures (exists c: ExceptionClass :: InstanceOf(f, c)) <==> TransientNetworkFailure(f)
  {
    if TransientNetworkFailure(f) {
      var c := match f
        case NoHttpResponse => NoHttpResponseException
        case UnknownHost => UnknownHostException
        case ConnectTimeout => ConnectTimeoutException
        case SocketTimeout => SocketTimeoutException
        case InterruptedIO => InterruptedIOException
        case _ => SSLException;
      assert InstanceOf(f, c);
    }
  }

  /**
   * `retryRequest(exception, executionCount, context)` with the ceiling
   * `maxExecutionCount` read from the connection configuration: the checks
   * in the order the handler makes them, the first that applies deciding.
   * The ensures clauses give the same decision as a flat rule.
   */
  function RetryRequest(maxExecutionCount: int, exception: IOFailure, executionCount: int,
                        entityEnclosing: bool): (retry: bool)
    ensures executionCount >= maxExecutionCount ==> !retry
    ensures executionCount < maxExecutionCount && TransientNetworkFailure(exception) ==> retry
    ensures executionCount < maxExecutionCount && !TransientNetworkFailure(exception) ==>
              (retry <==> !entityEnclosing)
  {
    if executionCount >= maxExecutionCount then false
    else if InstanceOf(exception, NoHttpResponseException) then true
    else if InstanceOf(exception, UnknownHostException) then true
    else if InstanceOf(exception, ConnectTimeoutException) then true
    else if InstanceOf(exception, SocketTimeoutException) then true
    else if InstanceOf(exception, InterruptedIOException) then true
    else if InstanceOf(exception, SSLException) then true
    else
      var idempotent := !entityEnclosing;
      idempotent
  }

  /**
   * The timeout classes are caught by the earlier, more specific tests, but
   * would be retried by the `InterruptedIOException` test alone: for them the
   * decision does not depend on those earlier tests.
   */
  lemma TimeoutsAreInterruptedIO(f: IOFailure)
    requires f == ConnectTimeout || f == SocketTimeout
    ensures InstanceOf(f, InterruptedIOException)
    ensures !InstanceOf(f, SSLException) && !InstanceOf(f, NoHttpResponseException) && !InstanceOf(f, UnknownHostException)
  {
  }

  /**
   * A stricter ceiling never allows a retry a looser one forbids: retrying is
   * monotone in the configured maximum and anti-monotone in the attempt count.
   */
  lemma RetryMonotone(max1: int, max2: int, f: IOFailure, n1: int, n2: int, entityEnclosing: bool)
    requires max1 <= max2 && n2 <= n1
    ensures RetryRequest(max1, f, n1, entityEnclosing) ==> RetryRequest(max2, f, n2, entityEnclosing)
  {
  }
}
