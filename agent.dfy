/**
 * The agent connection: where the kel-agent server is (host and port kept in browser
 * storage, with defaults), the WebSocket URL built from them, the single live socket
 * subscription and the optimistic `connectedState$` flag.
 *
 * Browser storage is a map from key to text. The socket is reduced to the events it can
 * deliver to its one subscriber: a frame, an error (which the retry operator turns into a
 * pending reconnection) and completion.
 */
module Agent {
  import opened Wrappers
  import opened JsText
  import opened AgentMessages

  const DefaultHost := "localhost"
  const DefaultPort := 8081
  const HostKey := "agent-host"
  const PortKey := "agent-port"

  /** `getHost`: the stored host, unless it is missing or empty. */
  function HostOf(storage: map<string, string>): (host: string)
    ensures host != ""
    ensures HostKey in storage && storage[HostKey] != "" ==> host == storage[HostKey]
    ensures HostKey !in storage || storage[HostKey] == "" ==> host == DefaultHost
  {
    if HostKey in storage && storage[HostKey] != "" then storage[HostKey] else DefaultHost
  }

  /** `getPort`: the stored port read with `parseInt(_, 10)`, unless it is missing or
      does not start with a number. */
  function PortOf(storage: map<string, string>): (port: int)
    ensures PortKey !in storage ==> port == DefaultPort
    ensures PortKey in storage && ParseInt(storage[PortKey]).None? ==> port == DefaultPort
    ensures PortKey in storage && ParseInt(storage[PortKey]).Some? ==> port == ParseInt(storage[PortKey]).value
  {
    if PortKey !in storage then DefaultPort
    else match ParseInt(storage[PortKey])
      case None => DefaultPort
      case Some(n) => n
  }

  /** Plain WebSocket for the local agent, TLS for any other host. */
  function Scheme(host: string): string {
    if host == "localhost" then "ws://" else "wss://"
  }

  function SocketUrl(host: string, port: int): string {
    Scheme(host) + (host + (":" + (IntToString(port) + "/websocket")))
  }

  /** The URL is unencrypted exactly when the host is the literal `localhost`. */
  lemma {:induction false} SocketUrlIsSecureUnlessLocalhost(host: string, port: int)
    ensures var url := SocketUrl(host, port);
      && (|url| >= 5 && url[..5] == "ws://" <==> host == "localhost")
      && (|url| >= 6 && url[..6] == "wss://" <==> host != "localhost")
  {
    var url := SocketUrl(host, port);
    var rest := host + (":" + (IntToString(port) + "/websocket"));
    assert url == Scheme(host) + rest;
    if host == "localhost" {
      assert url[..5] == "ws://";
      assert url[5..14] == "localhost";
      assert url[2] == ':';
    } else {
      assert url[..6] == "wss://";
      assert url[2] == 's';
    }
  }

  /** The URL names the host, and the port reads back from the text after the colon. */
  lemma {:induction false} SocketUrlNamesAgent(host: string, port: int)
    ensures var url, start := SocketUrl(host, port), |Scheme(host)|;
      && |url| > start + |host|
      && url[start..start + |host|] == host
      && url[start + |host|] == ':'
      && ParseInt(url[start + |host| + 1..]) == Some(port)
  {
    UrlLayout(Scheme(host), host, IntToString(port), "/websocket");
    PortFieldReads(port);
  }

  /** The URL ends with the path the agent serves its WebSocket on. */
  lemma {:induction false} SocketUrlPath(host: string, port: int)
    ensures var url := SocketUrl(host, port);
      |url| >= 10 && url[|url| - 10..] == "/websocket"
  {
    UrlLayout(Scheme(host), host, IntToString(port), "/websocket");
  }

  lemma {:induction false} UrlLayout(scheme: string, host: string, numeral: string, path: string)
    ensures var url := scheme + (host + (":" + (numeral + path)));
      && url[|scheme|..|scheme| + |host|] == host
      && url[|scheme| + |host|] == ':'
      && url[|scheme| + |host| + 1..] == numeral + path
      && url[|url| - |path|..] == path
  {
    var url := scheme + (host + (":" + (numeral + path)));
    assert url[|scheme|..] == host + (":" + (numeral + path));
  }

  /** The port's numeral followed by the path reads back as the port. */
  lemma {:induction false} PortFieldReads(port: int)
    ensures ParseInt(IntToString(port) + "/websocket") == Some(port)
  {
    assert IntToString(port) + "/websocket"
      == [] + (Sign(port < 0) + (NatToString(Magnitude(port)) + "/websocket"));
    ParseIntOfNumeral([], port < 0, Magnitude(port), "/websocket");
  }

  /** `setPort` stores `String(port)`; `getPort` then gives back the same port. */
  lemma {:induction false} PortRoundTrip(storage: map<string, string>, port: int)
    ensures PortOf(storage[PortKey := IntToString(port)]) == port
  {
    assert IntToString(port) == [] + IntToString(port);
    ParseIntOfIntToString([], port);
  }

  /** `setHost` stores the host; `getHost` gives it back unless it is empty. */
  lemma {:induction false} HostRoundTrip(storage: map<string, string>, host: string)
    ensures HostOf(storage[HostKey := host]) == if host == "" then DefaultHost else host
  {
  }

  /** Storing the port leaves the stored host alone. */
  lemma {:induction false} HostIgnoresPortKey(storage: map<string, string>, text: string)
    ensures HostOf(storage[PortKey := text]) == HostOf(storage)
  {
    assert HostKey != PortKey by { assert HostKey[6] != PortKey[6]; }
  }

  class AgentService {
    /** Browser storage, shared by every page of the origin. */
    var storage: map<string, string>
    var agentHost: string
    var agentPort: int
    /** The URL of the socket subject, once one exists. */
    var socketUrl: Option<string>
    /** The subscription the service holds on the socket, by a serial number. */
    var subscription: Option<nat>
    /** The subscriptions that have not been cancelled or completed. */
    ghost var live: set<nat>
    var nextSubscription: nat
    /** A socket error happened and the retry operator is waiting to reopen the socket. */
    var retryPending: bool
    var connectedState: bool
    /** `rxMessage$`: the frames forwarded from the socket, in order. */
    var received: seq<Frame>
    /** What was handed to the socket subject for sending. */
    var sent: seq<Envelope>

    ghost predicate Valid()
      reads this
    {
      // at most one live subscription, and it is the one the service holds
      && (forall id :: id in live ==> subscription == Some(id))
      && (subscription.Some? ==> subscription.value < nextSubscription)
      && (socketUrl.Some? <==> subscription.Some?)
      && (socketUrl.Some? ==> socketUrl.value == SocketUrl(agentHost, agentPort))
      && (retryPending ==> subscription.Some? && subscription.value in live)
    }

    /** The service before `init`: defaults, no socket, and `connectedState$` false. */
    constructor (storage0: map<string, string>)
      ensures Valid()
      ensures storage == storage0 && agentHost == DefaultHost && agentPort == DefaultPort
      ensures socketUrl.None? && subscription.None? && live == {} && !retryPending
      ensures !connectedState && received == [] && sent == []
    {
      storage := storage0;
      agentHost := DefaultHost;
      agentPort := DefaultPort;
      socketUrl := None;
      subscription := None;
      live := {};
      nextSubscription := 0;
      retryPending := false;
      connectedState := false;
      received := [];
      sent := [];
    }

    /**
     * `connect`: cancel the held subscription, re-read host and port, create a socket
     * subject for the new URL, set the flag optimistically and subscribe.
     */
    method Connect()
      requires Valid()
      modifies this
      ensures Valid()
      ensures agentHost == HostOf(storage) && agentPort == PortOf(storage)
      ensures socketUrl == Some(SocketUrl(agentHost, agentPort))
      ensures subscription == Some(old(nextSubscription)) && live == {old(nextSubscription)}
      ensures nextSubscription == old(nextSubscription) + 1
      ensures connectedState && !retryPending
      ensures storage == old(storage) && received == old(received) && sent == old(sent)
    {
      Unsubscribe();
      var host := HostOf(storage);
      var port := PortOf(storage);
      Subscribe(host, port);
    }

    /** Cancelling the held subscription also cancels a reopening its retry operator has
        scheduled; the held subscription is the only one that can be live. */
    method Unsubscribe()
      requires Valid()
      modifies this`live, this`retryPending
      ensures Valid() && live == {} && !retryPending
    {
      if subscription.Some? {
        live := live - {subscription.value};
      }
      retryPending := false;
    }

    /** A new socket subject for the endpoint, the flag set optimistically, and a new
        subscription, the only live one. */
    method Subscribe(host: string, port: int)
      requires Valid() && live == {} && !retryPending
      modifies this
      ensures Valid()
      ensures agentHost == host && agentPort == port && socketUrl == Some(SocketUrl(host, port))
      ensures subscription == Some(old(nextSubscription)) && live == {old(nextSubscription)}
      ensures nextSubscription == old(nextSubscription) + 1
      ensures connectedState && !retryPending
      ensures storage == old(storage) && received == old(received) && sent == old(sent)
    {
      var url := SocketUrl(host, port);
      var id := nextSubscription;
      agentHost, agentPort, socketUrl, connectedState := host, port, Some(url), true;
      subscription, live, nextSubscription := Some(id), {id}, id + 1;
    }

    /** `init`: its own reads of the stored host and port are repeated by `connect`, so
        the state afterwards is that of `connect`. The subscription of `send` to the
        outbound bus is what makes `Send` below run for every outbound envelope. */
    method Init()
      requires Valid()
      modifies this
      ensures Valid()
      ensures agentHost == HostOf(storage) && agentPort == PortOf(storage)
      ensures socketUrl == Some(SocketUrl(agentHost, agentPort))
      ensures subscription == Some(old(nextSubscription)) && live == {old(nextSubscription)}
      ensures nextSubscription == old(nextSubscription) + 1
      ensures connectedState && !retryPending
      ensures storage == old(storage) && received == old(received) && sent == old(sent)
    {
      Connect();
    }

    /** `setHost`: store the host and reconnect. */
    method SetHost(host: string)
      requires Valid()
      modifies this
      ensures Valid()
      ensures storage == old(storage)[HostKey := host]
      ensures agentHost == (if host == "" then DefaultHost else host)
      ensures agentPort == old(PortOf(storage))
      ensures socketUrl == Some(SocketUrl(agentHost, agentPort))
      ensures subscription == Some(old(nextSubscription)) && live == {old(nextSubscription)}
      ensures nextSubscription == old(nextSubscription) + 1
      ensures connectedState && !retryPending
      ensures received == old(received) && sent == old(sent)
    {
      storage := storage[HostKey := host];
      HostRoundTrip(old(storage), host);
      Connect();
    }

    /** `setPort`: store `String(port)` and reconnect; the new socket uses that port. */
    method SetPort(port: int)
      requires Valid()
      modifies this
      ensures Valid()
      ensures storage == old(storage)[PortKey := IntToString(port)]
      ensures agentHost == old(HostOf(storage)) && agentPort == port
      ensures socketUrl == Some(SocketUrl(agentHost, port))
      ensures subscription == Some(old(nextSubscription)) && live == {old(nextSubscription)}
      ensures nextSubscription == old(nextSubscription) + 1
      ensures connectedState && !retryPending
      ensures received == old(received) && sent == old(sent)
    {
      var text := IntToString(port);
      HostIgnoresPortKey(storage, text);
      PortRoundTrip(storage, port);
      storage := storage[PortKey := text];
      Connect();
    }

    /** `send`: hand the envelope to the socket subject, or drop it when there is none. */
    method Send(envelope: Envelope)
      requires Valid()
      modifies this`sent
      ensures Valid()
      ensures sent == if socketUrl.Some? then old(sent) + [envelope] else old(sent)
    {
      if socketUrl.Some? {
        sent := sent + [envelope];
      }
    }

    /** The socket delivers a frame: the flag goes up and the frame is forwarded as is. */
    method SocketFrame(frame: Frame)
      requires Valid()
      requires subscription.Some? && subscription.value in live && !retryPending
      modifies this`connectedState, this`received
      ensures Valid()
      ensures connectedState && received == old(received) + [frame]
    {
      connectedState := true;
      received := received + [frame];
    }

    /** The socket fails: the retry operator's tap sets the flag down and schedules one
        reopening of the same subscription. */
    method SocketError()
      requires Valid()
      requires subscription.Some? && subscription.value in live && !retryPending
      modifies this`connectedState, this`retryPending
      ensures Valid()
      ensures !connectedState && retryPending
    {
      connectedState := false;
      retryPending := true;
    }

    /** The retry delay has elapsed: the same subscription reopens the socket. The flag is
        not touched until the next frame. */
    method RetryElapsed()
      requires Valid()
      requires retryPending
      modifies this`retryPending
      ensures Valid()
      ensures !retryPending
    {
      retryPending := false;
    }

    /** The server closes the socket: completion sets the flag down and ends the
        subscription; only a new `connect` opens another one. */
    method SocketComplete()
      requires Valid()
      requires subscription.Some? && subscription.value in live && !retryPending
      modifies this`connectedState, this`live
      ensures Valid()
      ensures !connectedState && live == {}
    {
      connectedState := false;
      live := {};
    }
  }

  /** Consequence of the invariant: never two live or pending subscriptions at once. */
  lemma {:induction false} AtMostOneLive(a: AgentService)
    requires a.Valid()
    ensures forall x, y :: x in a.live && y in a.live ==> x == y
    ensures |a.live| <= 1
  {
    if a.live != {} {
      var x :| x in a.live;
      assert a.live == {x};
    }
  }
}
