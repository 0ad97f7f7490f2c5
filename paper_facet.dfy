/**
 * The Paper facets for Bukkit players (PaperFacet): when each reports itself
 * supported, how the Paper title is assembled, and how the native tab-list
 * component is obtained, each failure there giving null rather than an error.
 * What reflection finds on the running server is given as plain values.
 */
module PaperFacet {
  import opened Wrappers

  /** Java's `int`. */
  newtype int32 = x: int | -0x8000_0000 <= x < 0x8000_0000

  // ---------------------------------------------------------------------------
  // Support flags

  /** The knob switching Paper facets off, and its value when it is not set. */
  const PAPER_KNOB := "paper"
  const PAPER_KNOB_DEFAULT := true

  /** `Knob.isEnabled(key, default)`: the configured value of the knob, or the default when it is not set. */
  function KnobEnabled(setting: Option<bool>, default: bool): bool
  {
    match setting
    case None => default
    case Some(b) => b
  }

  /**
   * `PaperFacet.isSupported()`: the support of FacetBase (`base`) and the
   * "paper" knob, which is on unless it is explicitly set to false.
   */
  function Supported(base: bool, paperKnob: Option<bool>): (r: bool)
    ensures r ==> base
    ensures r <==> base && paperKnob != Some(false)
  {
    base && KnobEnabled(paperKnob, PAPER_KNOB_DEFAULT)
  }

  /**
   * `Title.isSupported()`: the support of the Spigot message facet it extends
   * (`message`) and the presence of com.destroystokyo.paper.Title.
   * Title extends SpigotFacet.Message, not PaperFacet, so the "paper" knob is not consulted.
   */
  function TitleSupported(message: bool, paperTitleClass: bool): (r: bool)
    ensures r ==> paperTitleClass
    ensures r <==> message && paperTitleClass
  {
    message && paperTitleClass
  }

  /** `TabList.SUPPORTED`: CraftPlayer has both native-component fields, playerListHeader and playerListFooter. */
  function TabListFieldsPresent(headerField: bool, footerField: bool): bool
  {
    headerField && footerField
  }

  /** `TabList.isSupported()`: the field check and the support of the CraftBukkit tab-list facet it extends (`craft`). */
  function TabListSupported(headerField: bool, footerField: bool, craft: bool): (r: bool)
    ensures r ==> headerField && footerField && craft
    ensures headerField && footerField && craft ==> r
  {
    TabListFieldsPresent(headerField, footerField) && craft
  }

  /** With the knob left unset, the Paper facet is supported exactly when its base is. */
  lemma KnobDefaultsOn(base: bool)
    ensures Supported(base, None) == base
  {
  }

  /**
   * Switching the "paper" knob off disables PaperFacet whatever its base support.
   * The Title and TabList facets do not extend PaperFacet, so `TitleSupported`
   * and `TabListSupported` take no knob argument at all.
   */
  lemma KnobOffDisablesPaperFacet(base: bool)
    ensures !Supported(base, Some(false))
  {
  }

  // ---------------------------------------------------------------------------
  // The native deserializer and tab-list messages

  /** A method handle found by reflection. */
  datatype MethodHandle = MethodHandle(owner: string, name: string)
  /** The server's own (native) Gson component serializer instance. */
  datatype NativeSerializer = NativeSerializer(id: nat)
  /** The deserialize handle bound to the native serializer instance (MethodHandle.bindTo). */
  datatype BoundHandle = BoundHandle(handle: MethodHandle, receiver: NativeSerializer)
  /** A component of the server's own copy of the text library. */
  datatype NativeComponent = NativeComponent(json: string)

  /** How looking up GsonComponentSerializerImpl.deserialize(String) ends. */
  datatype Lookup =
    | Found(handle: MethodHandle)
    | NoSuchMethod           // NoSuchMethodException
    | IllegalAccess          // IllegalAccessException
    | NullPointer            // the Impl class was not found
    | OtherThrowable(name: string)

  /**
   * `findNativeDeserializeMethod()`: the handle, or null when the lookup
   * throws one of the three exceptions it catches. Any other throwable escapes.
   */
  function FindNativeDeserializeMethod(lookup: Lookup): (r: Result<Option<MethodHandle>, string>)
    ensures r.Failure? <==> lookup.OtherThrowable?
    ensures r.Success? && r.value.Some? <==> lookup.Found?
    ensures lookup.Found? ==> r == Success(Some(lookup.handle))
  {
    match lookup
    case Found(h) => Success(Some(h))
    case NoSuchMethod => Success(None)
    case IllegalAccess => Success(None)
    case NullPointer => Success(None)
    case OtherThrowable(name) => Failure(name)
  }

  /**
   * `createBoundNativeDeserializeMethodHandle()`: the deserialize handle bound
   * to the serializer that the native `gson()` getter returns. It is null when
   * the tab-list fields are missing, when either handle was not found (the
   * NullPointerException is caught), when invoking the getter throws, or when
   * binding the handle to the serializer throws (a serializer of the wrong type).
   */
  function BoundNativeDeserializer(
    fieldsPresent: bool,
    deserialize: Option<MethodHandle>,
    gsonGetter: Option<MethodHandle>,
    invokeGetter: MethodHandle -> Result<NativeSerializer, string>,
    bindTo: (MethodHandle, NativeSerializer) -> Result<BoundHandle, string>): (r: Option<BoundHandle>)
    ensures r.Some? <==>
              && fieldsPresent && deserialize.Some? && gsonGetter.Some?
              && invokeGetter(gsonGetter.value).Success?
              && bindTo(deserialize.value, invokeGetter(gsonGetter.value).value).Success?
    ensures r.Some? ==>
              r.value == bindTo(deserialize.value, invokeGetter(gsonGetter.value).value).value
  {
    if !fieldsPresent then None
    else if deserialize.None? || gsonGetter.None? then None
    else
      match invokeGetter(gsonGetter.value)
      case Failure(_) => None
      case Success(gson) =>
        match bindTo(deserialize.value, gson)
        case Failure(_) => None
        case Success(bound) => Some(bound)
  }

  /**
   * `TabList.createMessage(viewer, message)`: the message, serialized to JSON,
   * deserialized by the bound native handle; null when the handle is null or
   * when serializing or the call throws. Nothing is thrown to the caller.
   * `json` is the outcome of `GsonComponentSerializer.gson().serialize(message)`,
   * a Failure when the serializer throws.
   */
  function CreateMessage(
    bound: Option<BoundHandle>,
    json: Result<string, string>,
    invoke: (BoundHandle, string) -> Result<NativeComponent, string>): (r: Option<NativeComponent>)
    ensures r.Some? <==> bound.Some? && json.Success? && invoke(bound.value, json.value).Success?
    ensures r.Some? ==> r.value == invoke(bound.value, json.value).value
  {
    if bound.None? then None
    else
      match json
      case Failure(_) => None
      case Success(text) =>
        match invoke(bound.value, text)
        case Failure(_) => None
        case Success(c) => Some(c)
  }

  /** Without both tab-list fields, no native tab-list message is ever created. */
  lemma MissingFieldsMeanNoMessages(
    deserialize: Option<MethodHandle>,
    gsonGetter: Option<MethodHandle>,
    invokeGetter: MethodHandle -> Result<NativeSerializer, string>,
    bindTo: (MethodHandle, NativeSerializer) -> Result<BoundHandle, string>,
    json: Result<string, string>,
    invoke: (BoundHandle, string) -> Result<NativeComponent, string>,
    headerField: bool, footerField: bool)
    requires !(headerField && footerField)
    ensures CreateMessage(BoundNativeDeserializer(TabListFieldsPresent(headerField, footerField), deserialize, gsonGetter, invokeGetter, bindTo), json, invoke).None?
  {
  }

  // ---------------------------------------------------------------------------
  // Titles

  /** A Paper title: text lines as BaseComponent arrays (null when absent) and tick counts. */
  datatype Title = Title(
    title: Option<seq<string>>,
    subtitle: Option<seq<string>>,
    fadeIn: int32,
    stay: int32,
    fadeOut: int32)

  /** Paper's Title.Builder, whose initial values are Paper's own defaults. */
  class TitleBuilder {
    var title: Option<seq<string>>
    var subtitle: Option<seq<string>>
    var fadeIn: int32
    var stay: int32
    var fadeOut: int32

    function Current(): Title
      reads this
    {
      Title(title, subtitle, fadeIn, stay, fadeOut)
    }

    /** `Title.builder()`. */
    constructor (defaults: Title)
      ensures Current() == defaults
    {
      title := defaults.title;
      subtitle := defaults.subtitle;
      fadeIn := defaults.fadeIn;
      stay := defaults.stay;
      fadeOut := defaults.fadeOut;
    }

    method SetTitle(t: seq<string>)
      modifies this
      ensures Current() == old(Current()).(title := Some(t))
    {
      title := Some(t);
    }

    method SetSubtitle(t: seq<string>)
      modifies this
      ensures Current() == old(Current()).(subtitle := Some(t))
    {
      subtitle := Some(t);
    }

    method SetFadeIn(ticks: int32)
      modifies this
      ensures Current() == old(Current()).(fadeIn := ticks)
    {
      fadeIn := ticks;
    }

    method SetStay(ticks: int32)
      modifies this
      ensures Current() == old(Current()).(stay := ticks)
    {
      stay := ticks;
    }

    method SetFadeOut(ticks: int32)
      modifies this
      ensures Current() == old(Current()).(fadeOut := ticks)
    {
      fadeOut := ticks;
    }

    method Build() returns (t: Title)
      ensures t == Current()
    {
      t := Title(title, subtitle, fadeIn, stay, fadeOut);
    }
  }

  /** The title `createTitle` assembles from its arguments over the builder's defaults. */
  function TitleFor(title: Option<seq<string>>, subTitle: Option<seq<string>>,
                    inTicks: int32, stayTicks: int32, outTicks: int32, defaults: Title): Title
  {
    Title(
      if title.Some? then title else defaults.title,
      if subTitle.Some? then subTitle else defaults.subtitle,
      if inTicks > -1 then inTicks else defaults.fadeIn,
      if stayTicks > -1 then stayTicks else defaults.stay,
      if outTicks > -1 then outTicks else defaults.fadeOut)
  }

  /**
   * `Title.createTitle(title, subTitle, inTicks, stayTicks, outTicks)`: sets the
   * title and subtitle only when they are non-null and each time only when it
   * is above -1, leaving the builder's default otherwise.
   */
  method CreateTitle(title: Option<seq<string>>, subTitle: Option<seq<string>>,
                     inTicks: int32, stayTicks: int32, outTicks: int32, defaults: Title) returns (t: Title)
    ensures t == TitleFor(title, subTitle, inTicks, stayTicks, outTicks, defaults)
  {
    var builder := new TitleBuilder(defaults);
    if title.Some? { builder.SetTitle(title.value); }
    if subTitle.Some? { builder.SetSubtitle(subTitle.value); }
    if inTicks > -1 { builder.SetFadeIn(inTicks); }
    if stayTicks > -1 { builder.SetStay(stayTicks); }
    if outTicks > -1 { builder.SetFadeOut(outTicks); }
    t := builder.Build();
  }

  /** A field differs from the builder's default only when the matching argument was given (non-null, or above -1). */
  lemma TitleFieldsComeFromArguments(title: Option<seq<string>>, subTitle: Option<seq<string>>,
                                     inTicks: int32, stayTicks: int32, outTicks: int32, defaults: Title)
    ensures var t := TitleFor(title, subTitle, inTicks, stayTicks, outTicks, defaults);
      && (t.title != defaults.title ==> title.Some? && t.title == title)
      && (t.subtitle != defaults.subtitle ==> subTitle.Some? && t.subtitle == subTitle)
      && (t.fadeIn != defaults.fadeIn ==> inTicks >= 0 && t.fadeIn == inTicks)
      && (t.stay != defaults.stay ==> stayTicks >= 0 && t.stay == stayTicks)
      && (t.fadeOut != defaults.fadeOut ==> outTicks >= 0 && t.fadeOut == outTicks)
      && (t.fadeIn < 0 ==> t.fadeIn == defaults.fadeIn)
      && (t.stay < 0 ==> t.stay == defaults.stay)
      && (t.fadeOut < 0 ==> t.fadeOut == defaults.fadeOut)
  {
  }

  /** With no text and every time negative, the builder's defaults come back unchanged. */
  lemma NoArgumentsGiveDefaults(inTicks: int32, stayTicks: int32, outTicks: int32, defaults: Title)
    requires inTicks < 0 && stayTicks < 0 && outTicks < 0
    ensures TitleFor(None, None, inTicks, stayTicks, outTicks, defaults) == defaults
  {
  }

  /** A complete title with non-negative times is reassembled exactly from its own fields, whatever the defaults. */
  lemma TitleRoundTrip(t: Title, defaults: Title)
    requires t.title.Some? && t.subtitle.Some?
    requires t.fadeIn >= 0 && t.stay >= 0 && t.fadeOut >= 0
    ensures TitleFor(t.title, t.subtitle, t.fadeIn, t.stay, t.fadeOut, defaults) == t
  {
  }
}
