/**
 * How the maps produced by the named builders are combined for one channel,
 * stated as the precedence and validation contract the integration tests
 * observe. The connector code that performs the merge is not part of this
 * model; `Resolve` is a reference definition that meets the observed contract.
 *
 * The `@Named` producers become a registry from bean name to produced map.
 */
module ChannelResolution {
  import opened Wrappers
  import opened JavaStrings
  import opened NamedConfig

  /** One produced `Map<String, Object>`. */
  type Source = map<string, Value>

  /** The named maps the application produces, by `@Named` value. */
  type Registry = map<string, Source>

  /** The name under which a map applies to every Kafka channel. */
  const DefaultBrokerName: string := "default-kafka-broker"

  datatype Direction = Incoming | Outgoing

  /**
   * A channel `mp.messaging.<direction>.<name>`, with its optional
   * `kafka-configuration-name` attribute.
   */
  datatype Channel = Channel(name: string, direction: Direction, reference: Option<string>)

  /** The deployment failure: the reference and where it was declared. */
  datatype ResolutionError = UnresolvedReference(reference: string, channel: string, direction: Direction)

  /** The registered map under `name`, or nothing. */
  function Layer(registry: Registry, name: string): (m: Source)
    ensures name in registry ==> m == registry[name]
    ensures name !in registry ==> m == map[]
  {
    if name in registry then registry[name] else map[]
  }

  /** The map the channel's `kafka-configuration-name` points to, or nothing when it has none. */
  function ReferenceLayer(registry: Registry, channel: Channel): (m: Source)
    ensures channel.reference.None? ==> m == map[]
    ensures channel.reference.Some? ==> m == Layer(registry, channel.reference.value)
  {
    match channel.reference
    case Some(n) => Layer(registry, n)
    case None => map[]
  }

  /** A declared reference must name a registered map; the error names the reference and the channel. */
  function Validate(registry: Registry, channel: Channel): (r: Option<ResolutionError>)
    ensures r.Some? <==> channel.reference.Some? && channel.reference.value !in registry
    ensures r.Some? ==> r.value.reference == channel.reference.value
    ensures r.Some? ==> r.value.channel == channel.name && r.value.direction == channel.direction
  {
    match channel.reference
    case Some(n) => if n in registry then None else Some(UnresolvedReference(n, channel.name, channel.direction))
    case None => None
  }

  /**
   * The configuration one channel receives: the default map, then the
   * referenced map, then the map named after the channel, later ones
   * overriding earlier ones on a shared key.
   */
  function Resolve(registry: Registry, channel: Channel): (r: Result<Source, ResolutionError>)
    ensures r.Failure? <==> Validate(registry, channel).Some?
    ensures r.Failure? ==> Validate(registry, channel) == Some(r.error)
    ensures r.Success? ==> forall k :: k in r.value <==>
      k in Layer(registry, DefaultBrokerName) || k in ReferenceLayer(registry, channel) || k in Layer(registry, channel.name)
    // a referenced map beats the default map
    ensures r.Success? ==> forall k :: k in ReferenceLayer(registry, channel) && k !in Layer(registry, channel.name) ==>
      r.value[k] == ReferenceLayer(registry, channel)[k]
    // a map named after the channel beats the default map
    ensures r.Success? && channel.reference.None? ==> forall k :: k in Layer(registry, channel.name) ==>
      r.value[k] == Layer(registry, channel.name)[k]
    // a map named after the channel beats the default map on a key the referenced map does not set
    ensures r.Success? ==> forall k :: k in Layer(registry, channel.name) && k !in ReferenceLayer(registry, channel) ==>
      r.value[k] == Layer(registry, channel.name)[k]
    // the default map fills in the keys nobody else sets
    ensures r.Success? ==> forall k ::
      (k in Layer(registry, DefaultBrokerName) && k !in ReferenceLayer(registry, channel) && k !in Layer(registry, channel.name)) ==>
        r.value[k] == Layer(registry, DefaultBrokerName)[k]
  {
    match Validate(registry, channel)
    case Some(e) => Failure(e)
    case None =>
      Success(Layer(registry, DefaultBrokerName) + ReferenceLayer(registry, channel) + Layer(registry, channel.name))
  }

  /** A channel with no reference and no map of its own receives the default map exactly. */
  lemma ResolveDefaultOnly(registry: Registry, channel: Channel)
    requires channel.reference.None? && channel.name !in registry
    ensures Resolve(registry, channel) == Success(Layer(registry, DefaultBrokerName))
  {
    var d := Layer(registry, DefaultBrokerName);
    assert d + map[] + map[] == d;
  }

  /** The first channel, in declaration order, whose reference does not resolve. */
  function FirstUnresolved(registry: Registry, channels: seq<Channel>): (r: Option<ResolutionError>)
    ensures r.None? <==> forall i :: 0 <= i < |channels| ==> Validate(registry, channels[i]).None?
    ensures r.Some? ==> exists i :: 0 <= i < |channels| && Validate(registry, channels[i]) == r &&
                                 forall j :: 0 <= j < i ==> Validate(registry, channels[j]).None?
  {
    if channels == [] then None
    else
      match Validate(registry, channels[0])
      case Some(e) => Some(e)
      case None =>
        var rest := FirstUnresolved(registry, channels[1..]);
        assert forall i :: 1 <= i < |channels| ==> channels[i] == channels[1..][i - 1];
        rest
  }

  /**
   * Deployment: every reference of every channel is checked before any
   * configuration is handed out; one dangling reference aborts the whole
   * application.
   */
  function Startup(registry: Registry, channels: seq<Channel>): (r: Result<seq<Source>, ResolutionError>)
    ensures r.Failure? <==> exists i :: 0 <= i < |channels| && Validate(registry, channels[i]).Some?
    ensures r.Failure? ==> exists i :: 0 <= i < |channels| && Validate(registry, channels[i]) == Some(r.error)
    ensures r.Success? ==> |r.value| == |channels|
    ensures r.Success? ==> forall i :: 0 <= i < |channels| ==> Resolve(registry, channels[i]) == Success(r.value[i])
  {
    match FirstUnresolved(registry, channels)
    case Some(e) => Failure(e)
    case None =>
      Success(seq(|channels|, i requires 0 <= i < |channels| => Resolve(registry, channels[i]).value))
  }

  /** A dangling reference on any channel fails deployment, and the error carries a dangling name. */
  lemma StartupReportsDanglingReference(registry: Registry, channels: seq<Channel>, i: nat)
    requires i < |channels| && channels[i].reference.Some? && channels[i].reference.value !in registry
    ensures Startup(registry, channels).Failure?
    ensures Startup(registry, channels).error.reference !in registry
  {
    assert Validate(registry, channels[i]).Some?;
  }

  /** When only one reference dangles, the error names exactly that reference. */
  lemma StartupNamesTheDanglingReference(registry: Registry, channels: seq<Channel>, i: nat)
    requires i < |channels| && channels[i].reference.Some? && channels[i].reference.value !in registry
    requires forall j :: 0 <= j < |channels| && j != i ==> Validate(registry, channels[j]).None?
    ensures Startup(registry, channels) ==
      Failure(UnresolvedReference(channels[i].reference.value, channels[i].name, channels[i].direction))
  {
    assert Validate(registry, channels[i]).Some?;
  }

  // ----- the scenarios of the integration tests -----

  /** The bean and channel names of the tests are pairwise different. */
  lemma BeanNamesDiffer()
    ensures "my-kafka-broker" != DefaultBrokerName && "kafka" != DefaultBrokerName && "source" != DefaultBrokerName
    ensures "kafka" != "my-kafka-broker"
  {
    assert |"my-kafka-broker"| != |DefaultBrokerName| && |"kafka"| != |DefaultBrokerName| && |"source"| != |DefaultBrokerName|;
    assert |"kafka"| != |"my-kafka-broker"|;
  }

  /** A registry of a referenced map and the default map, for a channel with no map of its own. */
  lemma ResolveReferenced(named: Source, default: Source, reference: string, channel: Channel)
    requires reference != DefaultBrokerName && channel.name != reference && channel.name != DefaultBrokerName
    requires channel.reference == Some(reference)
    ensures Resolve(map[reference := named, DefaultBrokerName := default], channel) == Success(default + named)
  {
    assert default + named + map[] == default + named;
  }

  /** A registry of a map named after the channel and the default map, for a channel with no reference. */
  lemma ResolveOwnSource(own: Source, default: Source, channel: Channel)
    requires channel.name != DefaultBrokerName && channel.reference.None?
    ensures Resolve(map[channel.name := own, DefaultBrokerName := default], channel) == Success(default + own)
  {
    assert default + map[] + own == default + own;
  }

  /** Two single-entry builder outputs over the same client key: the later one wins outright. */
  lemma SameKeyOverride(key: string, earlier: string, later: string)
    ensures map[key := Str(earlier), SomeBooleanKey := Bool(true)] + map[key := Str(later), SomeBooleanKey := Bool(true)] ==
      map[key := Str(later), SomeBooleanKey := Bool(true)]
  {
  }

  /** The two channels of the named-configuration application. */
  function Channels(incomingReference: string, outgoingReference: string): seq<Channel> {
    [Channel("source", Incoming, Some(incomingReference)), Channel("kafka", Outgoing, Some(outgoingReference))]
  }

  /** A misspelt reference on the incoming side aborts deployment, naming it. */
  lemma UnknownIncomingReference(broker: Source)
    ensures Startup(map["my-kafka-broker" := broker], Channels("my-kafka-broker-boom", "my-kafka-broker")) ==
      Failure(UnresolvedReference("my-kafka-broker-boom", "source", Incoming))
  {
    var registry := map["my-kafka-broker" := broker];
    assert |"my-kafka-broker-boom"| != |"my-kafka-broker"|;
    assert "my-kafka-broker-boom" !in registry;
    StartupNamesTheDanglingReference(registry, Channels("my-kafka-broker-boom", "my-kafka-broker"), 0);
  }

  /** A misspelt reference on the outgoing side aborts deployment, naming it. */
  lemma UnknownOutgoingReference(broker: Source)
    ensures Startup(map["my-kafka-broker" := broker], Channels("my-kafka-broker", "my-kafka-broker-boom")) ==
      Failure(UnresolvedReference("my-kafka-broker-boom", "kafka", Outgoing))
  {
    var registry := map["my-kafka-broker" := broker];
    assert |"my-kafka-broker-boom"| != |"my-kafka-broker"|;
    assert "my-kafka-broker-boom" !in registry;
    StartupNamesTheDanglingReference(registry, Channels("my-kafka-broker", "my-kafka-broker-boom"), 1);
  }

  /** The serializer settings of the named-and-default application. */
  const SerializerNames: seq<string> := ["my-kafka-broker.value.serializer", "kafka.value.serializer"]

  /** The client keys of the two serializer properties at lines 250 and 254. */
  lemma SerializerKeys()
    ensures ClientKey("my-kafka-broker", "my-kafka-broker.value.serializer") == "value.serializer"
    ensures ClientKey("kafka", "kafka.value.serializer") == "value.serializer"
  {
    ClientKeyOfCanonicalRemainder("my-kafka-broker", "my-kafka-broker.value.serializer");
    ClientKeyOfCanonicalRemainder("kafka", "kafka.value.serializer");
  }

  /** Literal facts about the serializer properties at lines 250 and 254: each matches only its own prefix, and neither has an upper-case letter. */
  lemma SerializerNamesMatch()
    ensures StartsWith("my-kafka-broker.value.serializer", "my-kafka-broker")
    ensures StartsWith("kafka.value.serializer", "kafka")
    ensures !StartsWith("kafka.value.serializer", "my-kafka-broker")
    ensures !StartsWith("my-kafka-broker.value.serializer", "kafka")
    ensures forall j :: 0 <= j < |"my-kafka-broker.value.serializer"| ==> !IsUpper("my-kafka-broker.value.serializer"[j])
    ensures forall j :: 0 <= j < |"kafka.value.serializer"| ==> !IsUpper("kafka.value.serializer"[j])
  {
    assert "kafka.value.serializer"[0] != "my-kafka-broker"[0];
    assert "my-kafka-broker.value.serializer"[0] != "kafka"[0];
  }

  /** The two producers over the serializer settings: one entry each. */
  lemma SerializerProfiles(lookup: Lookup)
    ensures RuntimeConfig("my-kafka-broker", SerializerNames, lookup) ==
      Success(map["value.serializer" := Str(ValueOf(lookup, SerializerNames[0])), SomeBooleanKey := Bool(true)])
    ensures RuntimeConfig("kafka", SerializerNames, lookup) ==
      Success(map["value.serializer" := Str(ValueOf(lookup, SerializerNames[1])), SomeBooleanKey := Bool(true)])
  {
    var a, b := "my-kafka-broker.value.serializer", "kafka.value.serializer";
    assert SerializerNames == [a, b];
    SerializerKeys();
    SerializerNamesMatch();
    TwoProfiles("my-kafka-broker", "kafka", a, b, lookup);
  }

  /**
   * Named and default maps together: the outgoing `kafka` channel references
   * `my-kafka-broker`, whose serializer overrides the deliberately wrong
   * serializer of the default map.
   */
  lemma NamedReferenceOverridesDefault(lookup: Lookup, named: Source, default: Source)
    requires RuntimeConfig("my-kafka-broker", SerializerNames, lookup) == Success(named)
    requires RuntimeConfig("kafka", SerializerNames, lookup) == Success(default)
    ensures Resolve(map["my-kafka-broker" := named, DefaultBrokerName := default], Channel("kafka", Outgoing, Some("my-kafka-broker"))) ==
      Success(map["value.serializer" := Str(ValueOf(lookup, "my-kafka-broker.value.serializer")), SomeBooleanKey := Bool(true)])
  {
    SerializerProfiles(lookup);
    SameKeyOverride("value.serializer", ValueOf(lookup, SerializerNames[1]), ValueOf(lookup, SerializerNames[0]));
    BeanNamesDiffer();
    ResolveReferenced(named, default, "my-kafka-broker", Channel("kafka", Outgoing, Some("my-kafka-broker")));
  }

  /** The deserializer settings of the channel-and-default application. */
  const DeserializerNames: seq<string> := ["source.value.deserializer", "kafka.value.deserializer"]

  /** The client keys of the two deserializer properties at lines 272 and 275. */
  lemma DeserializerKeys()
    ensures ClientKey("source", "source.value.deserializer") == "value.deserializer"
    ensures ClientKey("kafka", "kafka.value.deserializer") == "value.deserializer"
  {
    ClientKeyOfCanonicalRemainder("source", "source.value.deserializer");
    ClientKeyOfCanonicalRemainder("kafka", "kafka.value.deserializer");
  }

  /** Literal facts about the deserializer properties at lines 272 and 275: each matches only its own prefix, and neither has an upper-case letter. */
  lemma DeserializerNamesMatch()
    ensures StartsWith("source.value.deserializer", "source")
    ensures StartsWith("kafka.value.deserializer", "kafka")
    ensures !StartsWith("kafka.value.deserializer", "source")
    ensures !StartsWith("source.value.deserializer", "kafka")
    ensures forall j :: 0 <= j < |"source.value.deserializer"| ==> !IsUpper("source.value.deserializer"[j])
    ensures forall j :: 0 <= j < |"kafka.value.deserializer"| ==> !IsUpper("kafka.value.deserializer"[j])
  {
    assert "kafka.value.deserializer"[0] != "source"[0];
    assert "source.value.deserializer"[0] != "kafka"[0];
  }

  /** The two producers over the deserializer settings: one entry each. */
  lemma DeserializerProfiles(lookup: Lookup)
    ensures RuntimeConfig("source", DeserializerNames, lookup) ==
      Success(map["value.deserializer" := Str(ValueOf(lookup, DeserializerNames[0])), SomeBooleanKey := Bool(true)])
    ensures RuntimeConfig("kafka", DeserializerNames, lookup) ==
      Success(map["value.deserializer" := Str(ValueOf(lookup, DeserializerNames[1])), SomeBooleanKey := Bool(true)])
  {
    var a, b := "source.value.deserializer", "kafka.value.deserializer";
    assert DeserializerNames == [a, b];
    DeserializerKeys();
    DeserializerNamesMatch();
    TwoProfiles("source", "kafka", a, b, lookup);
  }

  /**
   * Channel and default maps together: the incoming `source` channel has no
   * reference, and the map named after it overrides the deliberately wrong
   * deserializer of the default map.
   */
  lemma ChannelSourceOverridesDefault(lookup: Lookup, own: Source, default: Source)
    requires RuntimeConfig("source", DeserializerNames, lookup) == Success(own)
    requires RuntimeConfig("kafka", DeserializerNames, lookup) == Success(default)
    ensures Resolve(map["source" := own, DefaultBrokerName := default], Channel("source", Incoming, None)) ==
      Success(map["value.deserializer" := Str(ValueOf(lookup, "source.value.deserializer")), SomeBooleanKey := Bool(true)])
  {
    DeserializerProfiles(lookup);
    SameKeyOverride("value.deserializer", ValueOf(lookup, DeserializerNames[1]), ValueOf(lookup, DeserializerNames[0]));
    BeanNamesDiffer();
    ResolveOwnSource(own, default, Channel("source", Incoming, None));
  }
}
