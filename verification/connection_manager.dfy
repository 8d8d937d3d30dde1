/**
 * `SwiftConnectionManager`: built once from a connection configuration, it
 * owns one pooling connection manager and one default request
 * configuration, and hands out HTTP clients that are all wired to that same
 * pool, the retry handler, the keep-alive strategy and a TLS 1.2 socket
 * factory.
 */
module ConnectionManager {
  import RetryPolicy
  import KeepAlive

  /** The already-parsed numeric settings the manager consumes (`ConnectionConfiguration`). */
  datatype ConnectionConfiguration = ConnectionConfiguration(
    maxPerRoute: int,
    maxTotal: int,
    soTimeout: int,
    reqConnectTimeout: int,
    reqConnectionRequestTimeout: int,
    reqSocketTimeout: int,
    executionCount: int)

  /** The socket defaults of the pool (HttpClient's `SocketConfig`), as far as the manager sets them. */
  datatype SocketConfig = SocketConfig(soKeepAlive: bool, soTimeout: int)

  /** The per-request defaults (HttpClient's `RequestConfig`), as far as the manager sets them. */
  datatype RequestConfig = RequestConfig(
    expectContinueEnabled: bool,
    connectTimeout: int,
    connectionRequestTimeout: int,
    socketTimeout: int)

  datatype HostnameVerifier = BrowserCompatibleHostnameVerifier

  /** The TLS socket factory of a client: the protocols it enables and its hostname policy. */
  datatype SslSocketFactory = SslSocketFactory(supportedProtocols: seq<string>, hostnameVerifier: HostnameVerifier)

  /**
   * The retry handler a client carries: it reads the attempt ceiling from
   * the manager's configuration and decides by `RetryPolicy.RetryRequest`.
   */
  datatype RetryHandler = RetryHandler(maxExecutionCount: int) {
    function RetryRequest(exception: RetryPolicy.IOFailure, executionCount: int, entityEnclosing: bool): bool {
      RetryPolicy.RetryRequest(maxExecutionCount, exception, executionCount, entityEnclosing)
    }
  }

  /**
   * The manager's one keep-alive strategy object: its duration for a
   * response is `KeepAlive.KeepAliveDuration` of the Keep-Alive header elements.
   */
  datatype KeepAliveStrategy = HonorKeepAliveHeader {
    function GetKeepAliveDuration(elements: seq<KeepAlive.HeaderElement>): int {
      KeepAlive.KeepAliveDuration(elements)
    }
  }

  /** The socket configuration the manager gives the pool for a configuration. */
  function PoolSocketConfig(config: ConnectionConfiguration): SocketConfig {
    SocketConfig(soKeepAlive := false, soTimeout := config.soTimeout)
  }

  /** The default request configuration the manager builds for a configuration. */
  function DefaultRequestConfig(config: ConnectionConfiguration): RequestConfig {
    RequestConfig(
      expectContinueEnabled := true,
      connectTimeout := config.reqConnectTimeout,
      connectionRequestTimeout := config.reqConnectionRequestTimeout,
      socketTimeout := config.reqSocketTimeout)
  }

  /**
   * HttpClient's `PoolingHttpClientConnectionManager`, reduced to the
   * settings the manager changes. Acquiring, releasing and evicting
   * connections are not part of this model.
   */
  class ConnectionPool {
    var defaultMaxPerRoute: int
    var maxTotal: int
    var defaultSocketConfig: SocketConfig

    /** A pool with HttpClient's defaults: 2 connections per route, 20 in all. */
    constructor ()
      ensures defaultMaxPerRoute == 2 && maxTotal == 20
      ensures defaultSocketConfig == SocketConfig(soKeepAlive := false, soTimeout := 0)
    {
      defaultMaxPerRoute := 2;
      maxTotal := 20;
      defaultSocketConfig := SocketConfig(soKeepAlive := false, soTimeout := 0);
    }

    method SetDefaultMaxPerRoute(max: int)
      modifies this
      ensures defaultMaxPerRoute == max
      ensures maxTotal == old(maxTotal) && defaultSocketConfig == old(defaultSocketConfig)
    {
      defaultMaxPerRoute := max;
    }

    method SetMaxTotal(max: int)
      modifies this
      ensures maxTotal == max
      ensures defaultMaxPerRoute == old(defaultMaxPerRoute) && defaultSocketConfig == old(defaultSocketConfig)
    {
      maxTotal := max;
    }

    method SetDefaultSocketConfig(config: SocketConfig)
      modifies this
      ensures defaultSocketConfig == config
      ensures defaultMaxPerRoute == old(defaultMaxPerRoute) && maxTotal == old(maxTotal)
    {
      defaultSocketConfig := config;
    }
  }

  /**
   * A client built by HttpClient's builder (`CloseableHttpClient`): the
   * collaborators it was wired with. It holds the pool by reference.
   */
  class HttpClient {
    const connectionManager: ConnectionPool
    const retryHandler: RetryHandler
    const defaultRequestConfig: RequestConfig
    const keepAliveStrategy: KeepAliveStrategy
    const sslSocketFactory: SslSocketFactory

    constructor (connectionManager: ConnectionPool, retryHandler: RetryHandler,
                 defaultRequestConfig: RequestConfig, keepAliveStrategy: KeepAliveStrategy,
                 sslSocketFactory: SslSocketFactory)
      ensures this.connectionManager == connectionManager && this.retryHandler == retryHandler
      ensures this.defaultRequestConfig == defaultRequestConfig && this.keepAliveStrategy == keepAliveStrategy
      ensures this.sslSocketFactory == sslSocketFactory
    {
      this.connectionManager := connectionManager;
      this.retryHandler := retryHandler;
      this.defaultRequestConfig := defaultRequestConfig;
      this.keepAliveStrategy := keepAliveStrategy;
      this.sslSocketFactory := sslSocketFactory;
    }
  }

  class SwiftConnectionManager {
    const connectionPool: ConnectionPool
    var connectionConfiguration: ConnectionConfiguration
    var rConfig: RequestConfig
    var myStrategy: KeepAliveStrategy

    /** The pool and the request defaults carry the configuration's settings. */
    ghost predicate Valid()
      reads this, connectionPool
    {
      && connectionPool.defaultMaxPerRoute == connectionConfiguration.maxPerRoute
      && connectionPool.maxTotal == connectionConfiguration.maxTotal
      && connectionPool.defaultSocketConfig == PoolSocketConfig(connectionConfiguration)
      && rConfig == DefaultRequestConfig(connectionConfiguration)
    }

    /**
     * Creates the one pool, caps it per route and in total, gives it socket
     * defaults without TCP keep-alive and with the configured socket
     * timeout, and builds the default request configuration with
     * expect-continue on and the configured timeouts.
     */
    constructor (connectionConfigurationT: ConnectionConfiguration)
      ensures connectionConfiguration == connectionConfigurationT
      ensures fresh(connectionPool)
      ensures connectionPool.defaultMaxPerRoute == connectionConfigurationT.maxPerRoute
      ensures connectionPool.maxTotal == connectionConfigurationT.maxTotal
      ensures connectionPool.defaultSocketConfig.soTimeout == connectionConfigurationT.soTimeout
      ensures !connectionPool.defaultSocketConfig.soKeepAlive
      ensures rConfig.expectContinueEnabled
      ensures rConfig.connectTimeout == connectionConfigurationT.reqConnectTimeout
      ensures rConfig.connectionRequestTimeout == connectionConfigurationT.reqConnectionRequestTimeout
      ensures rConfig.socketTimeout == connectionConfigurationT.reqSocketTimeout
      ensures myStrategy == HonorKeepAliveHeader
      ensures Valid()
    {
      var pool := new ConnectionPool();
      pool.SetDefaultMaxPerRoute(connectionConfigurationT.maxPerRoute);
      pool.SetMaxTotal(connectionConfigurationT.maxTotal);
      var socketConfig := SocketConfig(soKeepAlive := false, soTimeout := connectionConfigurationT.soTimeout);
      pool.SetDefaultSocketConfig(socketConfig);
      connectionConfiguration := connectionConfigurationT;
      connectionPool := pool;
      rConfig := RequestConfig(
        expectContinueEnabled := true,
        connectTimeout := connectionConfigurationT.reqConnectTimeout,
        connectionRequestTimeout := connectionConfigurationT.reqConnectionRequestTimeout,
        socketTimeout := connectionConfigurationT.reqSocketTimeout);
      myStrategy := HonorKeepAliveHeader;
    }

    /**
     * `createHttpConnection`: a new client wired to this manager's one pool,
     * its request defaults, a retry handler over the configured execution
     * count (`getRetryHandler`), the keep-alive strategy, and a socket
     * factory listing TLS 1.2 as its only protocol. Nothing existing is
     * modified (there is no modifies clause), so every client shares the
     * same pool, still configured as the constructor left it.
     */
    method CreateHttpConnection() returns (client: HttpClient)
      requires Valid()
      ensures Valid()
      ensures fresh(client)
      ensures client.connectionManager == connectionPool
      ensures client.connectionManager.defaultMaxPerRoute == connectionConfiguration.maxPerRoute
      ensures client.connectionManager.maxTotal == connectionConfiguration.maxTotal
      ensures client.connectionManager.defaultSocketConfig == PoolSocketConfig(connectionConfiguration)
      ensures client.defaultRequestConfig == DefaultRequestConfig(connectionConfiguration)
      ensures client.defaultRequestConfig == rConfig
      ensures client.retryHandler.maxExecutionCount == connectionConfiguration.executionCount
      ensures client.keepAliveStrategy == myStrategy
      ensures client.sslSocketFactory.supportedProtocols == ["TLSv1.2"]
      ensures client.sslSocketFactory.hostnameVerifier == BrowserCompatibleHostnameVerifier
    {
      var myFactory := SslSocketFactory(["TLSv1.2"], BrowserCompatibleHostnameVerifier);
      var retryHandler := RetryHandler(connectionConfiguration.executionCount);
      client := new HttpClient(connectionPool, retryHandler, rConfig, myStrategy, myFactory);
    }
  }

  /**
   * Two clients from one manager share one pool, and creating them leaves
   * the pool's settings as the constructor made them.
   */
  method ClientsSharePool(config: ConnectionConfiguration)
    returns (first: HttpClient, second: HttpClient)
    ensures first != second
    ensures first.connectionManager == second.connectionManager
    ensures first.connectionManager.defaultMaxPerRoute == config.maxPerRoute
    ensures first.connectionManager.maxTotal == config.maxTotal
  {
    var manager := new SwiftConnectionManager(config);
    first := manager.CreateHttpConnection();
    second := manager.CreateHttpConnection();
  }
}
