# adventure-platform host layer: Bukkit and BungeeCord audience providers

This project models the host-facing layer of adventure-platform's audience
providers: `BukkitAudiencesImpl` for a Bukkit server, `BungeeAudiencesImpl`
for a BungeeCord proxy, and the Paper facets in `PaperFacet`. It covers:

- how a command sender is resolved to an audience;
- how a client's raw locale string becomes a `Locale`;
- how the ViaVersion soft dependency is injected into plugin.yml;
- which locale-change event is listened to;
- which calls each provider makes into its superclass when it is built, when
  players join, quit, change locale, log in or disconnect, and when it is closed;
- the builders and the one-provider-per-plugin instance cache;
- when the Paper title and tab-list facets report support, how a Paper title is
  assembled, and how a native tab-list component is obtained.

Both providers extend `FacetAudienceProvider`, which holds the viewer
registry. That superclass is not part of this model. Its operations
(`addViewer`, `removeViewer`, `refreshViewer`, `close`, `player(uuid)`,
`console()`, `createAudience`) appear only as opaque values:

- calls appended to a provider's `trace`;
- the audiences in `FacetProvider.Audience`.

Host lookups done by reflection (`findClass`, `findMethod`, `hasField`,
`needField`) become plain booleans, sets and options passed in as
parameters. So do foreign functions such as `Translator.parseLocale` and
method-handle invocations.

Files:

- `wrappers.dfy`: Option and Result, for Java's null and thrown exceptions.
- `facet_provider.dfy`: the superclass's entry points as values, the builder configuration, and the calls made by a loop of `addViewer`.
- `instance_cache.dfy`: `computeIfAbsent` on the INSTANCES map, and what a series of `build()` calls returns.
- `bukkit_audiences.dfy`: `BukkitAudiencesImpl`.
- `bungee_audiences.dfy`: `BungeeAudiencesImpl`.
- `paper_facet.dfy`: `PaperFacet`, `PaperFacet.Title` and `PaperFacet.TabList`.

A Bukkit sender is described by the interfaces the dispatch tests for: Player
(with its uuid), ConsoleCommandSender, ProxiedCommandSender (with its callee),
Entity and Block. A sender can carry several of these at once, as a Bukkit
Player is also an Entity. This way the order of the `instanceof` tests is part
of the model.

`PaperFacet.Title` extends `SpigotFacet.Message`, and `PaperFacet.TabList`
extends `CraftBukkitFacet.TabList`. Neither extends `PaperFacet`, so the
"paper" knob switches off only `PaperFacet` itself: `TitleSupported` and
`TabListSupported` take no knob argument, and `KnobOffDisablesPaperFacet`
states that the knob set to false disables `PaperFacet`.
The tab-list's bound deserializer is null when either native field is missing,
when a handle cannot be found, or when the getter or the binding throws. When
the fields exist but the inherited CraftBukkit support is false, it is still
created.

## Model

| member | source | states |
|---|---|---|
| `FacetProvider.AddViewers` | platform-bukkit/src/main/java/net/kyori/adventure/platform/bukkit/BukkitAudiencesImpl.java:102-104 | a loop of `addViewer` makes one call per viewer, in the viewers' order |
| `InstanceCache.ComputeIfAbsent` | platform-bukkit/src/main/java/net/kyori/adventure/platform/bukkit/BukkitAudiencesImpl.java:171-173 | the value returned is the one stored under the key; an existing entry is returned and never replaced; a new key gets the candidate |
| `InstanceCache.BuildAll` | platform-bungeecord/src/main/java/net/kyori/adventure/platform/bungeecord/BungeeAudiencesImpl.java:164-166 | a series of `build()` calls returns one provider per call |
| `InstanceCache.BuildKeepsExisting` | platform-bungeecord/src/main/java/net/kyori/adventure/platform/bungeecord/BungeeAudiencesImpl.java:74 | a plugin name already cached keeps its provider, and every later build for it returns that provider |
| `InstanceCache.BuildReturnsFirst` | platform-bukkit/src/main/java/net/kyori/adventure/platform/bukkit/BukkitAudiencesImpl.java:82 | for a new plugin name, every build returns what the first builder for that name built, so later builders' settings have no effect (one provider per plugin) |
| `BukkitAudiencesImpl.Innermost` | platform-bukkit/src/main/java/net/kyori/adventure/platform/bukkit/BukkitAudiencesImpl.java:119-120 | following callees ends at a sender the dispatch does not pass on, on any finite proxy chain |
| `BukkitAudiencesImpl.ProxyChain` | platform-bukkit/src/main/java/net/kyori/adventure/platform/bukkit/BukkitAudiencesImpl.java:119-120 | the chain starts at the sender, ends at the innermost sender, and each link is a forwarding proxy followed by its callee |
| `BukkitAudiencesImpl.SenderAudience` | platform-bukkit/src/main/java/net/kyori/adventure/platform/bukkit/BukkitAudiencesImpl.java:114-130 | the result depends only on the innermost sender. A player gets `player(its uuid)`. The console gets `console()`. A non-player Entity or a Block gets the empty audience. Anything else gets a one-viewer audience of exactly that sender. Each of these holds in both directions |
| `BukkitAudiencesImpl.PlayerIsNeverSilenced` | platform-bukkit/src/main/java/net/kyori/adventure/platform/bukkit/BukkitAudiencesImpl.java:115-122 | a Player, although also an Entity, resolves to `player(uuid)` and never to the empty audience |
| `BukkitAudiencesImpl.ProxiedResolvesAsCallee` | platform-bukkit/src/main/java/net/kyori/adventure/platform/bukkit/BukkitAudiencesImpl.java:119-120 | a proxied sender that is neither a player nor the console resolves as its callee |
| `BukkitAudiencesImpl.ChainResolvesAlike` | platform-bukkit/src/main/java/net/kyori/adventure/platform/bukkit/BukkitAudiencesImpl.java:119-120 | every sender on a proxy chain resolves to the audience of the innermost sender |
| `BukkitAudiencesImpl.ToLocale` | platform-bukkit/src/main/java/net/kyori/adventure/platform/bukkit/BukkitAudiencesImpl.java:273-281 | a string that parses gives its parsed locale unchanged; null or an unparsable string gives Locale.US |
| `BukkitAudiencesImpl.ToLocaleIsParsedOrUS` | platform-bukkit/src/main/java/net/kyori/adventure/platform/bukkit/BukkitAudiencesImpl.java:273-281 | the result is the parser's locale for the input or Locale.US, and anything other than Locale.US came from the parser |
| `BukkitAudiencesImpl.SoftDependList` | platform-bukkit/src/main/java/net/kyori/adventure/platform/bukkit/BukkitAudiencesImpl.java:188-198 | the old list is a prefix of the new one, which grows by at most the dependency; the dependency ends up listed unless it is the plugin itself; the list is unchanged for a self-dependency or one already listed |
| `BukkitAudiencesImpl.SoftDependIdempotent` | platform-bukkit/src/main/java/net/kyori/adventure/platform/bukkit/BukkitAudiencesImpl.java:195-198 | injecting the same dependency twice equals injecting it once |
| `BukkitAudiencesImpl.SoftDependKeepsDistinct` | platform-bukkit/src/main/java/net/kyori/adventure/platform/bukkit/BukkitAudiencesImpl.java:195-198 | a list without duplicates stays without duplicates |
| `BukkitAudiencesImpl.ChooseLocaleListener` | platform-bukkit/src/main/java/net/kyori/adventure/platform/bukkit/BukkitAudiencesImpl.java:238-250 | a listener is registered exactly when the preferred class (Bukkit's, else Paper's) has a getter (getLocale, else getNewLocale) and is a PlayerEvent; the chosen class and getter exist on the host |
| `BukkitAudiencesImpl.BukkitClassShadowsPaper` | platform-bukkit/src/main/java/net/kyori/adventure/platform/bukkit/BukkitAudiencesImpl.java:239-249 | when Bukkit's event class exists but is unusable, Paper's is not tried and nothing is registered |
| `BukkitAudiencesImpl.ConstructionOrder` | platform-bukkit/src/main/java/net/kyori/adventure/platform/bukkit/BukkitAudiencesImpl.java:99-110 | construction adds the console first, then every online player in order, registers every callback after all viewers are added, and never removes or refreshes |
| `BukkitAudiencesImpl.ConstructionViewersAreRegistered` | platform-bukkit/src/main/java/net/kyori/adventure/platform/bukkit/BukkitAudiencesImpl.java:99-104 | every viewer added at construction resolves through the registry, to `console()` or `player(uuid)` |
| `BukkitAudiencesImpl.Provider.constructor` | platform-bukkit/src/main/java/net/kyori/adventure/platform/bukkit/BukkitAudiencesImpl.java:94-111 | the provider keeps its plugin and configuration. ViaVersion is injected as a soft dependency. The calls made are the console, the online players, then the join (LOWEST), quit (MONITOR) and locale (MONITOR) callbacks |
| `BukkitAudiencesImpl.Provider.SoftDepend` | platform-bukkit/src/main/java/net/kyori/adventure/platform/bukkit/BukkitAudiencesImpl.java:188-201 | plugin.yml's list becomes `SoftDependList` of the old one; on a reflection failure it is left as it was, and nothing is thrown |
| `BukkitAudiencesImpl.Provider.RegisterLocaleEvent` | platform-bukkit/src/main/java/net/kyori/adventure/platform/bukkit/BukkitAudiencesImpl.java:238-265 | a MONITOR callback is registered for the chosen event class only when a listener was chosen |
| `BukkitAudiencesImpl.Provider.OnJoin` | platform-bukkit/src/main/java/net/kyori/adventure/platform/bukkit/BukkitAudiencesImpl.java:106-107 | a join adds the player as a viewer and does nothing else |
| `BukkitAudiencesImpl.Provider.OnQuit` | platform-bukkit/src/main/java/net/kyori/adventure/platform/bukkit/BukkitAudiencesImpl.java:108-109 | a quit removes the player as a viewer and does nothing else |
| `BukkitAudiencesImpl.Provider.OnLocaleChange` | platform-bukkit/src/main/java/net/kyori/adventure/platform/bukkit/BukkitAudiencesImpl.java:253-263 | a throwing getter leaves everything as it was; otherwise the player is refreshed, whatever the locale string was |
| `BukkitAudiencesImpl.Builder.constructor` | platform-bukkit/src/main/java/net/kyori/adventure/platform/bukkit/BukkitAudiencesImpl.java:147-156 | a new builder holds the GlobalTranslator renderer and the locale-hash partition |
| `BukkitAudiencesImpl.Builder.ComponentRenderer` | platform-bukkit/src/main/java/net/kyori/adventure/platform/bukkit/BukkitAudiencesImpl.java:158-162 | null is rejected and the renderer kept; otherwise the renderer is set and the same builder returned |
| `BukkitAudiencesImpl.Builder.PartitionBy` | platform-bukkit/src/main/java/net/kyori/adventure/platform/bukkit/BukkitAudiencesImpl.java:164-168 | null is rejected and the partition kept; otherwise the partition is set and the same builder returned |
| `BukkitAudiencesImpl.Builder.Build` | platform-bukkit/src/main/java/net/kyori/adventure/platform/bukkit/BukkitAudiencesImpl.java:170-173 | the cached provider for the plugin's name is returned with the cache and plugin.yml untouched. Otherwise a fresh provider is constructed for this plugin with this builder's settings and cached; it makes the construction calls and injects ViaVersion into plugin.yml. The configurations follow `ComputeIfAbsent` |
| `BungeeAudiencesImpl.SenderAudience` | platform-bungeecord/src/main/java/net/kyori/adventure/platform/bungeecord/BungeeAudiencesImpl.java:101-116 | a ProxiedPlayer gets `player(its uuid)`. A non-player equal to the proxy console gets `console()`. Any other sender gets a one-viewer audience of exactly itself. No sender gets the empty audience. Each of these holds in both directions |
| `BungeeAudiencesImpl.ConstructionOrder` | platform-bungeecord/src/main/java/net/kyori/adventure/platform/bungeecord/BungeeAudiencesImpl.java:90-98 | the listener is registered first, its login handler at `Byte.MIN_VALUE` and its disconnect handler at `Byte.MAX_VALUE`; then the console is added, then every connected player in order; nothing is removed or refreshed |
| `BungeeAudiencesImpl.ConstructionViewersAreRegistered` | platform-bungeecord/src/main/java/net/kyori/adventure/platform/bungeecord/BungeeAudiencesImpl.java:93-98 | every viewer added at construction resolves through the registry, to `console()` or `player(uuid)` |
| `BungeeAudiencesImpl.Provider.constructor` | platform-bungeecord/src/main/java/net/kyori/adventure/platform/bungeecord/BungeeAudiencesImpl.java:87-99 | the provider keeps its configuration, and its calls are exactly the construction calls |
| `BungeeAudiencesImpl.Provider.Close` | platform-bungeecord/src/main/java/net/kyori/adventure/platform/bungeecord/BungeeAudiencesImpl.java:129-133 | the listener is unregistered, then the provider's own close runs |
| `BungeeAudiencesImpl.Provider.OnLogin` | platform-bungeecord/src/main/java/net/kyori/adventure/platform/bungeecord/BungeeAudiencesImpl.java:170-173 | a PostLogin adds the player as a viewer and does nothing else |
| `BungeeAudiencesImpl.Provider.OnDisconnect` | platform-bungeecord/src/main/java/net/kyori/adventure/platform/bungeecord/BungeeAudiencesImpl.java:175-178 | a PlayerDisconnect removes the player as a viewer and does nothing else |
| `BungeeAudiencesImpl.Builder.constructor` | platform-bungeecord/src/main/java/net/kyori/adventure/platform/bungeecord/BungeeAudiencesImpl.java:140-149 | a new builder holds the GlobalTranslator renderer and the locale-hash partition |
| `BungeeAudiencesImpl.Builder.ComponentRenderer` | platform-bungeecord/src/main/java/net/kyori/adventure/platform/bungeecord/BungeeAudiencesImpl.java:151-155 | null is rejected and the renderer kept; otherwise the renderer is set and the same builder returned |
| `BungeeAudiencesImpl.Builder.PartitionBy` | platform-bungeecord/src/main/java/net/kyori/adventure/platform/bungeecord/BungeeAudiencesImpl.java:157-161 | null is rejected and the partition kept; otherwise the partition is set and the same builder returned |
| `BungeeAudiencesImpl.Builder.Build` | platform-bungeecord/src/main/java/net/kyori/adventure/platform/bungeecord/BungeeAudiencesImpl.java:163-166 | the cached provider for the description name is returned with the cache untouched; otherwise a fresh provider with this builder's settings is constructed and cached |
| `PaperFacet.Supported` | platform-bukkit/src/main/java/net/kyori/adventure/platform/bukkit/PaperFacet.java:68-71 | the Paper facet is supported exactly when its base is and the "paper" knob is not set to false |
| `PaperFacet.KnobDefaultsOn` | platform-bukkit/src/main/java/net/kyori/adventure/platform/bukkit/PaperFacet.java:47 | with the knob unset, support equals the base support |
| `PaperFacet.TitleSupported` | platform-bukkit/src/main/java/net/kyori/adventure/platform/bukkit/PaperFacet.java:74-83 | the title facet is supported exactly when the inherited message support holds and Paper's Title class exists |
| `PaperFacet.TabListSupported` | platform-bukkit/src/main/java/net/kyori/adventure/platform/bukkit/PaperFacet.java:130-133 | the tab-list facet is supported exactly when both fields exist and the inherited support holds |
| `PaperFacet.KnobOffDisablesPaperFacet` | platform-bukkit/src/main/java/net/kyori/adventure/platform/bukkit/PaperFacet.java:68-71 | the knob set to false disables the Paper facet whatever its base support |
| `PaperFacet.FindNativeDeserializeMethod` | platform-bukkit/src/main/java/net/kyori/adventure/platform/bukkit/PaperFacet.java:54-62 | the handle is returned when found; NoSuchMethod, IllegalAccess and NullPointer give null; any other throwable escapes |
| `PaperFacet.BoundNativeDeserializer` | platform-bukkit/src/main/java/net/kyori/adventure/platform/bukkit/PaperFacet.java:118-128 | the bound handle exists exactly when both fields exist, both handles were found, the getter did not throw and binding the deserializer to the getter's result did not throw; it is then the result of that binding |
| `PaperFacet.CreateMessage` | platform-bukkit/src/main/java/net/kyori/adventure/platform/bukkit/PaperFacet.java:135-143 | a message exists exactly when the bound handle exists, serializing the component to JSON did not throw and invoking the handle on that JSON did not throw; it is then what the handle returned; nothing is thrown |
| `PaperFacet.MissingFieldsMeanNoMessages` | platform-bukkit/src/main/java/net/kyori/adventure/platform/bukkit/PaperFacet.java:115-143 | without both tab-list fields, `createMessage` always gives null |
| `PaperFacet.CreateTitle` | platform-bukkit/src/main/java/net/kyori/adventure/platform/bukkit/PaperFacet.java:85-96 | the title built is `TitleFor` of the arguments over the builder's defaults |
| `PaperFacet.TitleFieldsComeFromArguments` | platform-bukkit/src/main/java/net/kyori/adventure/platform/bukkit/PaperFacet.java:89-93 | a field differs from its default only when its argument was given (non-null, or above -1) and then equals it; a negative time always keeps the default |
| `PaperFacet.NoArgumentsGiveDefaults` | platform-bukkit/src/main/java/net/kyori/adventure/platform/bukkit/PaperFacet.java:89-93 | with no text and every time negative, the builder's defaults come back unchanged |
| `PaperFacet.TitleRoundTrip` | platform-bukkit/src/main/java/net/kyori/adventure/platform/bukkit/PaperFacet.java:89-95 | a complete title with non-negative times is rebuilt exactly from its own fields, whatever the defaults |

## Left out

- FacetAudienceProvider is not part of this model. This covers the registry, bucketing by partition, identities, rendering, `filter`, `all` and the behaviour of `close`. Its calls appear only as trace entries and opaque audiences. `createIdentity` (BukkitIdentity, BungeeIdentity) is left out with it.
- Reflection and host probing (`needField`, `findClass`, `findMethod`, `hasClass`, `hasField`, `lookup`, method-handle invocation) are given as booleans, sets, options and parameters.
- `findMethod` on a missing class is taken to find nothing, as the guard on line 249 of BukkitAudiencesImpl.java relies on.
- The Bungee static block, which injects the adventure adapter into BungeeCord's Gson, is host glue and is left out.
- Injecting the plugin into the plugin manager's dependency graph (`graph.putEdge`) is host glue. It fails silently in the source.
- Event-bus mechanics are not modelled: listener registration, cancelled-event filtering, and priorities at run time. Priorities appear only as data in the trace: Bukkit's `registerEvent` priorities, and the Bungee listener's `Byte.MIN_VALUE`/`Byte.MAX_VALUE` handler priorities carried by its registration. The `on*` methods model the callbacks' bodies as the host would invoke them.
- Logging through `Knob.OUT` and `Knob.ERR` is I/O and is left out. A logged failure appears only as "nothing changed".
- `GlobalTranslator.render`, `Translator.parseLocale`, `Locale.hashCode` and Gson serialization are foreign functions. The parser is a parameter, the renderer and partition are tags, and the outcome of serializing to JSON is a parameter that is either the JSON string or a failure.
- Thread safety of the synchronized INSTANCES map is left out: the cache is modelled sequentially.
- The Bukkit plugin is represented by its description. Its name, the cache key of `build()`, is the description's name.
- The static INSTANCES map is an `Instances` object passed to `build()`, because Dafny has no mutable statics.
- `Knob.isEnabled` is modelled only as an `Option<bool>` setting, None meaning unset; how the knob is read from the system properties is not modelled.
- Paper's `Title.Builder` is modelled as a class with five fields, a setter for each, and a constructor whose `defaults` parameter gives the initial values. Any validation its setters or `build()` do is not modelled, such as rejecting negative times or a missing title.
- The title facet's `showTitle`, `clearTitle` and `resetTitle` only forward to the player and are left out.
- BukkitAudiences.java is not part of this model. It only delegates to the impl, and its "one provider for each plugin" promise is the one `BuildReturnsFirst` states.
