/**
 * The entry points of FacetAudienceProvider, the platform-independent provider
 * that both host providers extend. Its viewer registry is not part of this
 * model: the host layer only calls it, so each call appears here as a value
 * appended to a trace, and each audience it hands out as an opaque value.
 */
module FacetProvider {

  /** A player's unique id (java.util.UUID). */
  type Uuid = nat

  /** The audiences the host layer hands out, named by how they were obtained. */
  datatype Audience<S> =
    | PlayerAudience(uuid: Uuid)   // the provider's player(uuid)
    | ConsoleAudience              // the provider's console()
    | EmptyAudience                // Audience.empty()
    | Created(viewers: seq<S>)     // the provider's createAudience(viewers)

  /** The two Bukkit listener priorities this layer registers with. */
  datatype Priority = Lowest | Monitor

  /** One call from the host layer into the provider or into the host's plugin manager. */
  datatype Call<S> =
    | AddViewer(viewer: S)
    | RemoveViewer(viewer: S)
    | RefreshViewer(viewer: S)
    | RegisterEvent(eventClass: string, priority: Priority)   // a Bukkit event callback
    | RegisterListener(loginPriority: int, disconnectPriority: int)  // the Bungee listener object and its handlers' priorities
    | UnregisterListener
    | CloseRegistry                                           // the provider's super.close()

  /** The component renderer a provider is built with. */
  datatype Renderer =
    | TranslatorRenderer        // GlobalTranslator.render(component, identity.locale())
    | CustomRenderer(id: nat)

  /** The partition function a provider is built with. */
  datatype Partition =
    | LocaleHash                // identity.locale().hashCode()
    | CustomPartition(id: nat)

  datatype Config = Config(renderer: Renderer, partition: Partition)

  /** What a fresh builder holds before any setter is called. */
  const DefaultConfig := Config(TranslatorRenderer, LocaleHash)

  /** The calls made by `for (v : viewers) addViewer(v)`. */
  function AddViewers<S>(viewers: seq<S>): (calls: seq<Call<S>>)
    ensures |calls| == |viewers|
    ensures forall i :: 0 <= i < |viewers| ==> calls[i] == AddViewer(viewers[i])
  {
    if viewers == [] then []
    else AddViewers(viewers[..|viewers| - 1]) + [AddViewer(viewers[|viewers| - 1])]
  }

  /** Registry calls that only add viewers: no removal, no refresh. */
  predicate OnlyAdds<S>(calls: seq<Call<S>>)
  {
    forall i :: 0 <= i < |calls| ==> !calls[i].RemoveViewer? && !calls[i].RefreshViewer?
  }
}
