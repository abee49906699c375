/** The parts of the browser framework that are logic rather than automation:
    the `Singleton` metaclass's instance cache, the debugger address built by
    `DriverWebSocket.__init__`, and the configured-browser check of
    `RunBrowser.__init__`. */
module Browser {
  import opened Wrappers
  import opened PyStr

  // ---------------------------------------------------------------- Singleton

  /** The metaclass's class-level `_instances` dict, from class to its one instance. */
  class Singleton<K(==), V> {
    var instances: map<K, V>

    constructor()
      ensures instances == map[]
    {
      instances := map[];
    }

    /** `cls(*args)`: the stored instance if there is one, else the result of running the
        constructor (`construct`), stored when it returns and not stored when it raises.
        `constructed` says whether the constructor ran. */
    method Call(cls: K, construct: Result<V>) returns (r: Result<V>, constructed: bool)
      modifies this
      ensures constructed <==> cls !in old(instances)
      ensures cls in old(instances) ==> r == Ok(old(instances)[cls]) && instances == old(instances)
      ensures cls !in old(instances) && construct.Ok? ==>
                r == construct && instances == old(instances)[cls := construct.value]
      ensures cls !in old(instances) && construct.Err? ==> r == construct && instances == old(instances)
    {
      if cls !in instances {
        constructed := true;
        if construct.Err? {
          return construct, constructed;
        }
        instances := instances[cls := construct.value];
      } else {
        constructed := false;
      }
      r := Ok(instances[cls]);
    }

    /** `cls.clear()`: forget this class's instance; the others stay. */
    method Clear(cls: K)
      modifies this
      ensures instances == old(instances) - {cls}
      ensures cls !in instances
      ensures forall k :: k in old(instances) && k != cls ==> k in instances && instances[k] == old(instances)[k]
    {
      if cls in instances {
        instances := instances - {cls};
      }
    }
  }

  /** Two calls for one class construct once and return the first instance both times,
      whatever the second call's constructor would have produced. */
  method CallTwice<K(==), V>(cls: K, first: V, second: Result<V>) returns (r1: Result<V>, r2: Result<V>, constructions: nat)
    ensures r1 == Ok(first) && r2 == Ok(first)
    ensures constructions == 1
  {
    var cache := new Singleton<K, V>();
    var c1, c2;
    r1, c1 := cache.Call(cls, Ok(first));
    r2, c2 := cache.Call(cls, second);
    constructions := (if c1 then 1 else 0) + (if c2 then 1 else 0);
  }

  /** After `clear`, the next call constructs afresh and returns the new instance, while
      another class's instance survives. */
  method ClearThenCall<K(==), V>(cls: K, other: K, first: V, renewed: V, otherInstance: V)
    returns (r: Result<V>, constructed: bool, otherAfter: Result<V>, otherConstructed: bool)
    requires cls != other
    ensures r == Ok(renewed) && constructed
    ensures otherAfter == Ok(otherInstance) && !otherConstructed
  {
    var cache := new Singleton<K, V>();
    var _, _ := cache.Call(cls, Ok(first));
    var _, _ := cache.Call(other, Ok(otherInstance));
    cache.Clear(cls);
    r, constructed := cache.Call(cls, Ok(renewed));
    otherAfter, otherConstructed := cache.Call(other, Ok(renewed));
  }

  // ---------------------------------------------------------------- DriverWebSocket

  const DEBUGGER_PATH := "/json/version"

  /** `f"{host}:{port}/json/version"`, the default port standing in for a missing one. */
  function DebuggerAddress(host: string, port: Option<int>, defaultPort: int): (a: string)
    ensures StartsWith(a, host + ":")
    ensures |a| > |host| + 1 + |DEBUGGER_PATH|
    ensures a[|a| - |DEBUGGER_PATH|..] == DEBUGGER_PATH
  {
    var p := IntToString(port.GetOr(defaultPort));
    IntToStringShape(port.GetOr(defaultPort));
    AddressAround(host, p);
    host + ":" + p + DEBUGGER_PATH
  }

  lemma AddressAround(host: string, p: string)
    requires |p| > 0
    ensures var a := host + ":" + p + DEBUGGER_PATH;
            StartsWith(a, host + ":") && |a| > |host| + 1 + |DEBUGGER_PATH| && a[|a| - |DEBUGGER_PATH|..] == DEBUGGER_PATH
  {
    var a := host + ":" + p + DEBUGGER_PATH;
    assert a == (host + ":") + (p + DEBUGGER_PATH);
    StartsWithConcat(host + ":", p + DEBUGGER_PATH);
    assert a[|a| - |DEBUGGER_PATH|..] == DEBUGGER_PATH;
  }

  /** The port is recovered from the address: the text between the host's colon and
      the path reads back as the port, so different ports give different addresses. */
  lemma DebuggerAddressPort(host: string, port: Option<int>, defaultPort: int)
    ensures var a := DebuggerAddress(host, port, defaultPort);
            IntLiteral(a[|host| + 1..|a| - |DEBUGGER_PATH|]) == Some(port.GetOr(defaultPort))
  {
    var p := IntToString(port.GetOr(defaultPort));
    var a := host + ":" + p + DEBUGGER_PATH;
    assert a[|host| + 1..|a| - |DEBUGGER_PATH|] == p;
    IntLiteralOfIntToString(port.GetOr(defaultPort));
  }

  lemma DebuggerAddressInjective(host: string, p1: Option<int>, p2: Option<int>, defaultPort: int)
    requires DebuggerAddress(host, p1, defaultPort) == DebuggerAddress(host, p2, defaultPort)
    ensures p1.GetOr(defaultPort) == p2.GetOr(defaultPort)
  {
    DebuggerAddressPort(host, p1, defaultPort);
    DebuggerAddressPort(host, p2, defaultPort);
  }

  /** `DriverWebSocket(host, port)`: only the address it stores. */
  class DriverWebSocket {
    const debuggerAddress: string

    constructor(host: string, port: Option<int>, defaultPort: int)
      ensures debuggerAddress == DebuggerAddress(host, port, defaultPort)
    {
      debuggerAddress := DebuggerAddress(host, port, defaultPort);
    }
  }

  // ---------------------------------------------------------------- RunBrowser

  const NO_SUCH_BROWSER := "No Such Browser"

  /** The check at the head of `RunBrowser.__init__`: the index of the configured browser
      (the `BROWSER` setting, None when unset) in `BROWSERS`, or the exception it raises. */
  function BrowserIndex(configured: Option<string>, browsers: seq<string>): (r: Result<nat>)
    ensures r.Err? <==> configured.None? || configured.value !in browsers
    ensures r.Err? ==> r.error == NO_SUCH_BROWSER
    ensures r.Ok? ==> r.value < |browsers| && browsers[r.value] == configured.value &&
                      forall j :: 0 <= j < r.value ==> browsers[j] != configured.value
    decreases |browsers|
  {
    if configured.None? || browsers == [] then Err(NO_SUCH_BROWSER)
    else if browsers[0] == configured.value then Ok(0)
    else match BrowserIndex(configured, browsers[1..])
      case Err(e) =>
        assert configured.value !in browsers[1..];
        Err(e)
      case Ok(i) => Ok(i + 1)
  }
}
