/**
 * The BungeeCord audience provider (BungeeAudiencesImpl): how a command sender
 * is resolved to an audience, the calls the provider makes when it is
 * constructed, when players log in or disconnect and when it is closed, its
 * builder, and the one-provider-per-plugin cache.
 */
module BungeeAudiencesImpl {
  import opened Wrappers
  import opened FacetProvider
  import InstanceCache

  /** A BungeeCord CommandSender; `playerId` is Some(getUniqueId()) exactly when it is a ProxiedPlayer. */
  datatype Sender = Sender(id: nat, playerId: Option<Uuid>)

  /** What the proxy reports: its console sender and its connected players. */
  datatype Proxy = Proxy(console: Sender, players: seq<Sender>)

  /** A proxy as BungeeCord presents it: the console is not a player, and every connected player is one. */
  predicate ValidProxy(proxy: Proxy)
  {
    && proxy.console.playerId.None?
    && forall i :: 0 <= i < |proxy.players| ==> proxy.players[i].playerId.Some?
  }

  /**
   * `sender(sender)`: a ProxiedPlayer is resolved by its uuid, a sender equal to
   * the proxy's console to the console audience, and any other sender to a
   * one-viewer audience holding just that sender. No sender gets the empty audience.
   */
  function SenderAudience(console: Sender, s: Sender): (r: Audience<Sender>)
    ensures r != EmptyAudience
    ensures r.PlayerAudience? <==> s.playerId.Some?
    ensures r.PlayerAudience? ==> s.playerId == Some(r.uuid)
    ensures r == ConsoleAudience <==> s.playerId.None? && s == console
    ensures r.Created? <==> s.playerId.None? && s != console
    ensures r.Created? ==> r.viewers == [s]
  {
    if s.playerId.Some? then PlayerAudience(s.playerId.value)
    else if console == s then ConsoleAudience
    else Created([s])
  }

  /** Java's `Byte.MIN_VALUE` and `Byte.MAX_VALUE`, the `@EventHandler` priorities of the listener's handlers. */
  const BYTE_MIN: int := -128
  const BYTE_MAX: int := 127

  /**
   * Registering the Listener: `onLogin` runs at `Byte.MIN_VALUE`, before every
   * other handler of PostLoginEvent, and `onDisconnect` at `Byte.MAX_VALUE`,
   * after every other handler of PlayerDisconnectEvent.
   */
  const ListenerRegistration: Call<Sender> := RegisterListener(BYTE_MIN, BYTE_MAX)

  /** The calls the constructor makes: register the listener, add the console, then every connected player. */
  function ConstructionCalls(proxy: Proxy): seq<Call<Sender>>
  {
    [ListenerRegistration, AddViewer(proxy.console)] + AddViewers(proxy.players)
  }

  /** The listener is registered before any viewer is added; the console comes before the players, kept in order. */
  lemma ConstructionOrder(proxy: Proxy)
    ensures var calls := ConstructionCalls(proxy);
      && |calls| == 2 + |proxy.players|
      && calls[0] == RegisterListener(BYTE_MIN, BYTE_MAX)
      && calls[1] == AddViewer(proxy.console)
      && (forall i :: 0 <= i < |proxy.players| ==> calls[2 + i] == AddViewer(proxy.players[i]))
      && (forall i :: 1 <= i < |calls| ==> calls[i].AddViewer?)
      && OnlyAdds(calls)
  {
  }

  /** Every viewer added at construction is one `sender` resolves through the registry, never to a new audience. */
  lemma {:induction false} ConstructionViewersAreRegistered(proxy: Proxy)
    requires ValidProxy(proxy)
    ensures var calls := ConstructionCalls(proxy);
      forall i :: 0 <= i < |calls| && calls[i].AddViewer? ==>
        var a := SenderAudience(proxy.console, calls[i].viewer); a == ConsoleAudience || a.PlayerAudience?
  {
    var calls := ConstructionCalls(proxy);
    forall i | 0 <= i < |calls| && calls[i].AddViewer?
      ensures var a := SenderAudience(proxy.console, calls[i].viewer); a == ConsoleAudience || a.PlayerAudience?
    {
      if i == 1 {
        assert calls[i].viewer == proxy.console;
      } else {
        assert 2 <= i && i - 2 < |proxy.players|;
        assert calls[i] == AddViewer(proxy.players[i - 2]);
      }
    }
  }

  /** The calls `close()` makes: unregister the listener, then the provider's own close. */
  const CloseCalls: seq<Call<Sender>> := [UnregisterListener, CloseRegistry]

  /** The provider: the calls it has made so far. */
  class Provider {
    const config: Config
    var trace: seq<Call<Sender>>

    /** `new BungeeAudiencesImpl(plugin, renderer, partition)`. */
    constructor (config: Config, proxy: Proxy)
      ensures this.config == config
      ensures trace == ConstructionCalls(proxy)
    {
      this.config := config;
      trace := [ListenerRegistration];
      new;
      trace := trace + [AddViewer(proxy.console)];
      for i := 0 to |proxy.players|
        invariant trace == [ListenerRegistration, AddViewer(proxy.console)] + AddViewers(proxy.players[..i])
      {
        assert proxy.players[..i + 1][..i] == proxy.players[..i];
        trace := trace + [AddViewer(proxy.players[i])];
      }
      assert proxy.players[..|proxy.players|] == proxy.players;
    }

    /** `close()`: the listener is unregistered before the provider itself is closed. */
    method Close()
      modifies this`trace
      ensures trace == old(trace) + CloseCalls
    {
      trace := trace + [UnregisterListener];
      trace := trace + [CloseRegistry];
    }

    /** `Listener.onLogin`: a player who has logged in becomes a viewer. */
    method OnLogin(player: Sender)
      modifies this`trace
      ensures trace == old(trace) + [AddViewer(player)]
    {
      trace := trace + [AddViewer(player)];
    }

    /** `Listener.onDisconnect`: a player who disconnects stops being a viewer. */
    method OnDisconnect(player: Sender)
      modifies this`trace
      ensures trace == old(trace) + [RemoveViewer(player)]
    {
      trace := trace + [RemoveViewer(player)];
    }
  }

  /** The static INSTANCES map: the provider built for each plugin's description name. */
  class Instances {
    var providers: map<string, Provider>

    constructor ()
      ensures providers == map[]
    {
      providers := map[];
    }

    /** The configuration each cached provider was built with. */
    function Configs(): (m: map<string, Config>)
      reads this
      ensures m.Keys == providers.Keys
    {
      map n | n in providers :: providers[n].config
    }
  }

  class Builder {
    /** The plugin's description name, the key of the instance cache. */
    const pluginName: string
    var renderer: Renderer
    var partition: Partition

    /** A builder starts with the GlobalTranslator renderer and the locale-hash partition. */
    constructor (pluginName: string)
      ensures this.pluginName == pluginName && Config(renderer, partition) == DefaultConfig
    {
      this.pluginName := pluginName;
      renderer := TranslatorRenderer;
      partition := LocaleHash;
    }

    /** `componentRenderer(renderer)`: null is rejected with a NullPointerException; the builder itself is returned. */
    method ComponentRenderer(r: Option<Renderer>) returns (result: Result<Builder, string>)
      modifies this`renderer
      ensures r.None? ==> result == Failure("component renderer") && renderer == old(renderer)
      ensures r.Some? ==> result == Success(this) && renderer == r.value
    {
      if r.None? {
        return Failure("component renderer");
      }
      renderer := r.value;
      return Success(this);
    }

    /** `partitionBy(function)`: null is rejected with a NullPointerException; the builder itself is returned. */
    method PartitionBy(p: Option<Partition>) returns (result: Result<Builder, string>)
      modifies this`partition
      ensures p.None? ==> result == Failure("partition function") && partition == old(partition)
      ensures p.Some? ==> result == Success(this) && partition == p.value
    {
      if p.None? {
        return Failure("partition function");
      }
      partition := p.value;
      return Success(this);
    }

    /**
     * `build()`: the provider already cached under the plugin's description
     * name, or a new one built with this builder's settings and cached.
     */
    method Build(instances: Instances, proxy: Proxy) returns (p: Provider)
      modifies instances
      ensures instances.Configs() == InstanceCache.ComputeIfAbsent(old(instances.Configs()), pluginName, Config(renderer, partition)).0
      ensures p.config == InstanceCache.ComputeIfAbsent(old(instances.Configs()), pluginName, Config(renderer, partition)).1
      ensures pluginName in old(instances.providers) ==>
                p == old(instances.providers)[pluginName] && instances.providers == old(instances.providers)
      ensures pluginName !in old(instances.providers) ==>
                fresh(p) && instances.providers == old(instances.providers)[pluginName := p]
                && p.trace == ConstructionCalls(proxy)
    {
      if pluginName in instances.providers {
        p := instances.providers[pluginName];
      } else {
        p := new Provider(Config(renderer, partition), proxy);
        instances.providers := instances.providers[pluginName := p];
      }
    }
  }
}
