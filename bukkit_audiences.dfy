/**
 * The Bukkit audience provider (BukkitAudiencesImpl): how a command sender is
 * resolved to an audience, how a raw client locale is parsed, the plugin.yml
 * soft-dependency injection, the choice of locale-change event, the calls the
 * provider makes when it is constructed and when player events arrive, its
 * builder, and the one-provider-per-plugin cache.
 */
module BukkitAudiencesImpl {
  import opened Wrappers
  import opened FacetProvider
  import InstanceCache

  // ---------------------------------------------------------------------------
  // Senders and their audiences

  /**
   * A Bukkit CommandSender, described by the interfaces the dispatch in
   * `sender` tests for. Bukkit's Player extends Entity, so a real player has
   * both `playerId.Some?` and `entity`.
   */
  datatype Sender = Sender(
    id: nat,                   // object identity
    playerId: Option<Uuid>,    // Some(getUniqueId()) exactly when the sender is a Player
    console: bool,             // the sender is a ConsoleCommandSender
    callee: Option<Sender>,    // Some(getCallee()) exactly when the sender is a ProxiedCommandSender
    entity: bool,              // the sender is an Entity
    block: bool)               // the sender is a Block

  /** The dispatch passes this sender on to its callee: a proxy that is neither a player nor the console. */
  predicate Forwards(s: Sender)
  {
    s.playerId.None? && !s.console && s.callee.Some?
  }

  /** The sender at the end of a chain of forwarding proxies. */
  function Innermost(s: Sender): (t: Sender)
    ensures !Forwards(t)
    decreases s
  {
    if Forwards(s) then Innermost(s.callee.value) else s
  }

  /** The proxies the dispatch passes through, from `s` to the sender that ends the chain. */
  function ProxyChain(s: Sender): (chain: seq<Sender>)
    ensures |chain| >= 1 && chain[0] == s && chain[|chain| - 1] == Innermost(s)
    ensures forall i :: 0 <= i < |chain| - 1 ==> Forwards(chain[i]) && chain[i + 1] == chain[i].callee.value
    decreases s
  {
    if Forwards(s) then [s] + ProxyChain(s.callee.value) else [s]
  }

  /**
   * `sender(sender)`: the Player test comes first, then the console, then a
   * proxied sender is resolved as its callee, then a (non-player) Entity or a
   * Block gets the empty audience, and anything else a one-viewer audience.
   * The result is decided by the sender that ends the proxy chain.
   */
  function SenderAudience(s: Sender): (r: Audience<Sender>)
    ensures r.PlayerAudience? <==> Innermost(s).playerId.Some?
    ensures r.PlayerAudience? ==> Innermost(s).playerId == Some(r.uuid)
    ensures r == ConsoleAudience <==> Innermost(s).playerId.None? && Innermost(s).console
    ensures r == EmptyAudience <==>
              Innermost(s).playerId.None? && !Innermost(s).console && (Innermost(s).entity || Innermost(s).block)
    ensures r.Created? ==> r.viewers == [Innermost(s)]
    decreases s
  {
    if s.playerId.Some? then PlayerAudience(s.playerId.value)
    else if s.console then ConsoleAudience
    else if s.callee.Some? then SenderAudience(s.callee.value)
    else if s.entity || s.block then EmptyAudience
    else Created([s])
  }

  /** A player is resolved through the registry by its uuid, although every Player is also an Entity. */
  lemma PlayerIsNeverSilenced(s: Sender)
    requires s.playerId.Some? && s.entity
    ensures SenderAudience(s) == PlayerAudience(s.playerId.value)
    ensures SenderAudience(s) != EmptyAudience
  {
  }

  /** A ProxiedCommandSender that is neither a player nor the console resolves exactly as its callee. */
  lemma ProxiedResolvesAsCallee(s: Sender)
    requires Forwards(s)
    ensures SenderAudience(s) == SenderAudience(s.callee.value)
  {
  }

  /** Every sender along a proxy chain resolves to the same audience as the sender that ends it. */
  lemma {:induction false} ChainResolvesAlike(s: Sender)
    ensures forall i :: 0 <= i < |ProxyChain(s)| ==> SenderAudience(ProxyChain(s)[i]) == SenderAudience(Innermost(s))
    decreases s
  {
    if Forwards(s) {
      ChainResolvesAlike(s.callee.value);
      var chain := ProxyChain(s);
      var tail := ProxyChain(s.callee.value);
      assert chain == [s] + tail;
      assert Innermost(s) == Innermost(s.callee.value);
      forall i | 0 <= i < |chain|
        ensures SenderAudience(chain[i]) == SenderAudience(Innermost(s))
      {
        if i > 0 {
          assert chain[i] == tail[i - 1];
        } else {
          assert tail[0] == s.callee.value;
        }
      }
    }
  }

  // ---------------------------------------------------------------------------
  // Locales

  /** java.util.Locale. */
  datatype Locale = Locale(language: string, country: string, variant: string)

  /** Locale.US, the fallback for a missing or unparsable client locale. */
  const US := Locale("en", "US", "")

  /**
   * `toLocale(string)`: the client's raw locale parsed by Translator.parseLocale
   * (a parameter here, None for its null), or Locale.US when the string is null
   * or does not parse.
   */
  function ToLocale(raw: Option<string>, parseLocale: string -> Option<Locale>): (l: Locale)
    ensures raw.Some? && parseLocale(raw.value).Some? ==> l == parseLocale(raw.value).value
    ensures raw.None? || parseLocale(raw.value).None? ==> l == US
  {
    if raw.Some? && parseLocale(raw.value).Some? then parseLocale(raw.value).value else US
  }

  /** The result is a locale the parser produced for the input, or else the fallback. */
  lemma ToLocaleIsParsedOrUS(raw: Option<string>, parseLocale: string -> Option<Locale>)
    ensures var l := ToLocale(raw, parseLocale);
      (raw.Some? && parseLocale(raw.value) == Some(l)) || l == US
    ensures ToLocale(raw, parseLocale) != US ==> raw.Some? && parseLocale(raw.value).Some?
  {
  }

  // ---------------------------------------------------------------------------
  // plugin.yml soft dependency

  /**
   * The soft-dependency list after `softDepend(dependency)` for a plugin named
   * `self`: the old list with `dependency` appended once, unless the plugin is
   * the dependency itself or already lists it.
   */
  function SoftDependList(deps: seq<string>, self: string, dependency: string): (r: seq<string>)
    ensures deps <= r && |r| <= |deps| + 1
    ensures dependency in r <==> dependency in deps || self != dependency
    ensures forall x :: x in r ==> x in deps || x == dependency
    ensures self == dependency || dependency in deps ==> r == deps
  {
    if self == dependency || dependency in deps then deps else deps + [dependency]
  }

  /** Injecting the same soft dependency twice is the same as injecting it once. */
  lemma SoftDependIdempotent(deps: seq<string>, self: string, dependency: string)
    ensures SoftDependList(SoftDependList(deps, self, dependency), self, dependency)
         == SoftDependList(deps, self, dependency)
  {
  }

  /** A list without duplicates stays without duplicates. */
  lemma SoftDependKeepsDistinct(deps: seq<string>, self: string, dependency: string)
    requires forall i, j :: 0 <= i < j < |deps| ==> deps[i] != deps[j]
    ensures var r := SoftDependList(deps, self, dependency);
      forall i, j :: 0 <= i < j < |r| ==> r[i] != r[j]
  {
  }

  /** The plugin's description file (plugin.yml), whose softDepend list is rewritten by reflection. */
  class PluginDescription {
    const name: string
    var softDepend: seq<string>
    /** Whether the `softDepend` field can be read and written by reflection. */
    const reflectable: bool

    constructor (name: string, softDepend: seq<string>, reflectable: bool)
      ensures this.name == name && this.softDepend == softDepend && this.reflectable == reflectable
    {
      this.name := name;
      this.softDepend := softDepend;
      this.reflectable := reflectable;
    }
  }

  /** The soft dependency every provider injects, to silence Spigot's class-loader warning. */
  const VIA_VERSION := "ViaVersion"

  // ---------------------------------------------------------------------------
  // Locale-change event

  const BUKKIT_LOCALE_EVENT := "org.bukkit.event.player.PlayerLocaleChangeEvent"
  const PAPER_LOCALE_EVENT := "com.destroystokyo.paper.event.player.PlayerLocaleChangeEvent"
  const GET_LOCALE := "getLocale"
  const GET_NEW_LOCALE := "getNewLocale"

  /** What reflection finds on the running server. */
  datatype LocaleHost = LocaleHost(
    classes: set<string>,               // classes findClass finds
    getters: set<(string, string)>,     // (class, method) pairs findMethod finds, returning String
    playerEvents: set<string>)          // classes assignable to PlayerEvent

  /** The event listened to and the method that reads the new locale from it. */
  datatype LocaleListener = LocaleListener(eventClass: string, getter: string)

  /** The event class `registerLocaleEvent` looks at: Bukkit's, else Paper's, else none. */
  function PreferredEventClass(h: LocaleHost): Option<string>
  {
    if BUKKIT_LOCALE_EVENT in h.classes then Some(BUKKIT_LOCALE_EVENT)
    else if PAPER_LOCALE_EVENT in h.classes then Some(PAPER_LOCALE_EVENT)
    else None
  }

  /** The getter found on a class: getLocale, else getNewLocale, else none. */
  function LocaleGetter(h: LocaleHost, eventClass: string): Option<string>
  {
    if (eventClass, GET_LOCALE) in h.getters then Some(GET_LOCALE)
    else if (eventClass, GET_NEW_LOCALE) in h.getters then Some(GET_NEW_LOCALE)
    else None
  }

  /**
   * `registerLocaleEvent`: the listener registered, if any. One is registered
   * exactly when the preferred class has a locale getter and is a PlayerEvent;
   * Bukkit's class wins over Paper's and getLocale over getNewLocale.
   */
  function ChooseLocaleListener(h: LocaleHost): (r: Option<LocaleListener>)
    ensures r.Some? <==>
              PreferredEventClass(h).Some?
              && LocaleGetter(h, PreferredEventClass(h).value).Some?
              && PreferredEventClass(h).value in h.playerEvents
    ensures r.Some? ==>
              && r.value.eventClass in h.classes
              && r.value.eventClass in {BUKKIT_LOCALE_EVENT, PAPER_LOCALE_EVENT}
              && r.value.eventClass in h.playerEvents
              && (r.value.eventClass, r.value.getter) in h.getters
              && r.value.getter in {GET_LOCALE, GET_NEW_LOCALE}
    ensures r.Some? && BUKKIT_LOCALE_EVENT in h.classes ==> r.value.eventClass == BUKKIT_LOCALE_EVENT
    ensures r.Some? && (r.value.eventClass, GET_LOCALE) in h.getters ==> r.value.getter == GET_LOCALE
  {
    match PreferredEventClass(h)
    case None => None
    case Some(c) =>
      match LocaleGetter(h, c)
      case None => None
      case Some(g) => if c in h.playerEvents then Some(LocaleListener(c, g)) else None
  }

  /** When Bukkit's event class exists but is unusable, Paper's is not tried, however usable it is. */
  lemma BukkitClassShadowsPaper(h: LocaleHost)
    requires BUKKIT_LOCALE_EVENT in h.classes
    requires LocaleGetter(h, BUKKIT_LOCALE_EVENT).None? || BUKKIT_LOCALE_EVENT !in h.playerEvents
    ensures ChooseLocaleListener(h).None?
  {
  }

  // ---------------------------------------------------------------------------
  // Construction and player events

  const JOIN_EVENT := "org.bukkit.event.player.PlayerJoinEvent"
  const QUIT_EVENT := "org.bukkit.event.player.PlayerQuitEvent"

  /** What the server reports at construction: its console sender and its online players. */
  datatype Server = Server(console: Sender, online: seq<Sender>)

  /** A server as Bukkit presents it: a console sender, and online players that are Players. */
  predicate ValidServer(server: Server)
  {
    && server.console.playerId.None? && server.console.console
    && forall i :: 0 <= i < |server.online| ==> server.online[i].playerId.Some?
  }

  /**
   * The calls the constructor makes: the console viewer, every online player,
   * then the join (LOWEST), quit (MONITOR) and, when one was found, locale
   * (MONITOR) callbacks.
   */
  function ConstructionCalls(server: Server, locale: Option<LocaleListener>): seq<Call<Sender>>
  {
    [AddViewer(server.console)] + AddViewers(server.online)
    + [RegisterEvent(JOIN_EVENT, Lowest), RegisterEvent(QUIT_EVENT, Monitor)]
    + (if locale.Some? then [RegisterEvent(locale.value.eventClass, Monitor)] else [])
  }

  /** The console is added first, the online players next in order, and every callback is registered after them. */
  lemma ConstructionOrder(server: Server, locale: Option<LocaleListener>)
    ensures var calls := ConstructionCalls(server, locale);
      && calls[0] == AddViewer(server.console)
      && (forall i :: 0 <= i < |server.online| ==> calls[1 + i] == AddViewer(server.online[i]))
      && (forall i, j :: 0 <= i < |calls| && 0 <= j < |calls| && calls[i].AddViewer? && calls[j].RegisterEvent? ==> i < j)
      && OnlyAdds(calls)
      && |calls| == 3 + |server.online| + (if locale.Some? then 1 else 0)
  {
    var calls := ConstructionCalls(server, locale);
    var adds := [AddViewer(server.console)] + AddViewers(server.online);
    assert forall i :: 0 <= i < |adds| ==> adds[i].AddViewer?;
    assert forall i :: |adds| <= i < |calls| ==> calls[i].RegisterEvent?;
  }

  /** Every viewer added at construction is one `sender` resolves through the registry, never to a new audience. */
  lemma {:induction false} ConstructionViewersAreRegistered(server: Server, locale: Option<LocaleListener>)
    requires ValidServer(server)
    ensures var calls := ConstructionCalls(server, locale);
      forall i :: 0 <= i < |calls| && calls[i].AddViewer? ==>
        var a := SenderAudience(calls[i].viewer); a == ConsoleAudience || a.PlayerAudience?
  {
    var calls := ConstructionCalls(server, locale);
    forall i | 0 <= i < |calls| && calls[i].AddViewer?
      ensures var a := SenderAudience(calls[i].viewer); a == ConsoleAudience || a.PlayerAudience?
    {
      if i == 0 {
        assert calls[i].viewer == server.console;
      } else {
        assert i - 1 < |server.online|;
        assert calls[i] == AddViewer(server.online[i - 1]);
      }
    }
  }

  /** The provider: the calls it has made so far, and the plugin it belongs to. */
  class Provider {
    const description: PluginDescription
    const config: Config
    var trace: seq<Call<Sender>>

    /**
     * `new BukkitAudiencesImpl(plugin, renderer, partition)`: inject the
     * ViaVersion soft dependency, add the console and the online players,
     * then register the event callbacks.
     */
    constructor (description: PluginDescription, config: Config, server: Server, host: LocaleHost)
      modifies description
      ensures this.description == description && this.config == config
      ensures description.reflectable ==>
                description.softDepend == SoftDependList(old(description.softDepend), description.name, VIA_VERSION)
      ensures !description.reflectable ==> description.softDepend == old(description.softDepend)
      ensures trace == ConstructionCalls(server, ChooseLocaleListener(host))
    {
      this.description := description;
      this.config := config;
      trace := [];
      new;
      SoftDepend(VIA_VERSION);
      trace := [AddViewer(server.console)];
      for i := 0 to |server.online|
        invariant trace == [AddViewer(server.console)] + AddViewers(server.online[..i])
        modifies this`trace
      {
        assert server.online[..i + 1][..i] == server.online[..i];
        trace := trace + [AddViewer(server.online[i])];
      }
      assert server.online[..|server.online|] == server.online;
      trace := trace + [RegisterEvent(JOIN_EVENT, Lowest), RegisterEvent(QUIT_EVENT, Monitor)];
      RegisterLocaleEvent(host);
    }

    /**
     * `softDepend(pluginName)`: add the dependency to plugin.yml's list unless
     * the plugin is that dependency. A reflection failure is logged and leaves
     * the list as it was; nothing is thrown.
     */
    method SoftDepend(pluginName: string)
      modifies description
      ensures description.reflectable ==>
                description.softDepend == SoftDependList(old(description.softDepend), description.name, pluginName)
      ensures !description.reflectable ==> description.softDepend == old(description.softDepend)
    {
      if description.name == pluginName {
        return;
      }
      if description.reflectable {
        var dependencies := description.softDepend;
        if pluginName !in dependencies {
          description.softDepend := dependencies + [pluginName];
        }
      }
    }

    /** `registerLocaleEvent(MONITOR, callback)`: registers a callback only when a usable event was found. */
    method RegisterLocaleEvent(host: LocaleHost)
      modifies this`trace
      ensures trace == old(trace) + if ChooseLocaleListener(host).Some?
                                    then [RegisterEvent(ChooseLocaleListener(host).value.eventClass, Monitor)]
                                    else []
    {
      var listener := ChooseLocaleListener(host);
      if listener.Some? {
        trace := trace + [RegisterEvent(listener.value.eventClass, Monitor)];
      }
    }

    /** The PlayerJoinEvent callback. */
    method OnJoin(player: Sender)
      modifies this`trace
      ensures trace == old(trace) + [AddViewer(player)]
    {
      trace := trace + [AddViewer(player)];
    }

    /** The PlayerQuitEvent callback. */
    method OnQuit(player: Sender)
      modifies this`trace
      ensures trace == old(trace) + [RemoveViewer(player)]
    {
      trace := trace + [RemoveViewer(player)];
    }

    /**
     * The locale-change callback, given what invoking the getter did (an
     * exception, or the string it returned, possibly null). A throwing getter
     * is logged and the viewer is left alone; otherwise the string is parsed
     * and the viewer refreshed, the parsed locale itself going unused.
     */
    method OnLocaleChange(player: Sender, got: Result<Option<string>, string>, parseLocale: string -> Option<Locale>)
      modifies this`trace
      ensures got.Failure? ==> trace == old(trace)
      ensures got.Success? ==> trace == old(trace) + [RefreshViewer(player)]
    {
      if got.Failure? {
        return;
      }
      var locale := ToLocale(got.value, parseLocale);
      trace := trace + [RefreshViewer(player)];
    }
  }

  // ---------------------------------------------------------------------------
  // Builder and the instance cache

  /** The static INSTANCES map: the provider built for each plugin name. */
  class Instances {
    var providers: map<string, Provider>

    constructor ()
      ensures providers == map[]
    {
      providers := map[];
    }

    /** The configuration each cached provider was built with. */
    function Configs(): (m: map<string, Config>)
      reads this
      ensures m.Keys == providers.Keys
    {
      map n | n in providers :: providers[n].config
    }
  }

  class Builder {
    const plugin: PluginDescription
    var renderer: Renderer
    var partition: Partition

    /** A builder starts with the GlobalTranslator renderer and the locale-hash partition. */
    constructor (plugin: PluginDescription)
      ensures this.plugin == plugin && Config(renderer, partition) == DefaultConfig
    {
      this.plugin := plugin;
      renderer := TranslatorRenderer;
      partition := LocaleHash;
    }

    /** `componentRenderer(renderer)`: null is rejected with a NullPointerException; the builder itself is returned. */
    method ComponentRenderer(r: Option<Renderer>) returns (result: Result<Builder, string>)
      modifies this`renderer
      ensures r.None? ==> result == Failure("component renderer") && renderer == old(renderer)
      ensures r.Some? ==> result == Success(this) && renderer == r.value
    {
      if r.None? {
        return Failure("component renderer");
      }
      renderer := r.value;
      return Success(this);
    }

    /** `partitionBy(function)`: null is rejected with a NullPointerException; the builder itself is returned. */
    method PartitionBy(p: Option<Partition>) returns (result: Result<Builder, string>)
      modifies this`partition
      ensures p.None? ==> result == Failure("partition function") && partition == old(partition)
      ensures p.Some? ==> result == Success(this) && partition == p.value
    {
      if p.None? {
        return Failure("partition function");
      }
      partition := p.value;
      return Success(this);
    }

    /**
     * `build()`: the provider already cached under the plugin's name, or a new
     * one built with this builder's settings and cached.
     */
    method Build(instances: Instances, server: Server, host: LocaleHost) returns (p: Provider)
      modifies instances, plugin
      ensures instances.Configs() == InstanceCache.ComputeIfAbsent(old(instances.Configs()), plugin.name, Config(renderer, partition)).0
      ensures p.config == InstanceCache.ComputeIfAbsent(old(instances.Configs()), plugin.name, Config(renderer, partition)).1
      ensures plugin.name in old(instances.providers) ==>
                p == old(instances.providers)[plugin.name] && instances.providers == old(instances.providers)
                && plugin.softDepend == old(plugin.softDepend)
      ensures plugin.name !in old(instances.providers) ==>
                fresh(p) && instances.providers == old(instances.providers)[plugin.name := p]
                && p.description == plugin
                && p.trace == ConstructionCalls(server, ChooseLocaleListener(host))
                && (plugin.reflectable ==> plugin.softDepend == SoftDependList(old(plugin.softDepend), plugin.name, VIA_VERSION))
                && (!plugin.reflectable ==> plugin.softDepend == old(plugin.softDepend))
    {
      var name := plugin.name;
      if name in instances.providers {
        p := instances.providers[name];
      } else {
        p := new Provider(plugin, Config(renderer, partition), server, host);
        instances.providers := instances.providers[name := p];
      }
    }
  }
}
