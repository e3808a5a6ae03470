# Named Kafka configuration maps, modelled in Dafny

`DefaultConfigTest` in the SmallRye Reactive Messaging Kafka connector
defines eight `@Produces @Named(...)` methods. Each builds a
`Map<String, Object>` of Kafka client settings out of the MicroProfile
`Config`, and the eight differ only in their prefix string: `"kafka"`,
`"my-kafka-broker"`, `"source"` or `"my-kafka"`. Each one:

1. lower-cases every property name;
2. keeps the names that start with the prefix;
3. de-duplicates them and sorts them in natural `String` order;
4. for each name, drops the first `prefix.length() + 1` characters, lower-cases the rest and replaces every character outside `[a-z0-9.]` with `.`;
5. puts that client key with the property's value, or `""` when the value is absent;
6. finally puts `"some-boolean" -> true`.

The model states this builder once, with the prefix as a parameter:

- `java_strings.dfy` (module `JavaStrings`): `toLowerCase`, `startsWith` and the natural order of strings (`LexLess`), plus the order's laws.
- `streams.dfy` (module `Streams`): the stream stages `filter`, `distinct` and `sorted` as functions. Together they yield a strictly increasing sequence that is determined by its set of elements.
- `named_config.dfy` (module `NamedConfig`):
  - the client-key expression (`ClientKey`);
  - the pure stream pipeline (`SortedCandidates`);
  - the whole producer as a function (`RuntimeConfig`);
  - the producer as it runs (`BuildRuntimeConfig`). This is a method whose `for` loop puts one entry per name into a map variable, proved equal to `RuntimeConfig`;
  - lemmas for what the map holds.
- `channel_resolution.dfy` (module `ChannelResolution`): how the tests expect the produced maps to be combined for a channel. The connector code that does this is not part of this model, so `Resolve` is a reference definition limited to the precedence and validation the tests observe:
  - a referenced map overrides the `default-kafka-broker` map;
  - a map named after the channel overrides the default map;
  - a reference to an unregistered name fails deployment, and the error names it.
- `wrappers.dfy` (module `Wrappers`): `Option` (for `Optional`) and `Result` (for a thrown exception).

The MicroProfile `Config` is a parameter: a sequence of property names plus a lookup `string -> Option<string>`. Map values are `Str(string)` or `Bool(bool)`.

When a lower-cased property name equals the prefix exactly, `substring(prefix.length() + 1)` throws `StringIndexOutOfBoundsException`. It throws no matter where that name sorts. The model returns `Failure(SubstringOutOfBounds(prefix, |prefix| + 1))` for this case; it is not a precondition. A name exactly one character longer than the prefix yields the empty key `""`, and the code puts that key like any other. It is not discarded.

## Model

| member | source | states |
|---|---|---|
| Wrappers.Option.GetOr | smallrye-reactive-messaging-kafka/src/test/java/io/smallrye/reactive/messaging/kafka/DefaultConfigTest.java:332 | `Optional.orElse`: the held value, or the default when empty |
| JavaStrings.LowerChar | smallrye-reactive-messaging-kafka/src/test/java/io/smallrye/reactive/messaging/kafka/DefaultConfigTest.java:326 | an upper-case ASCII letter becomes its lower-case letter, 32 code points higher (`A` becomes `a`); every other character is kept; the result is never upper-case |
| JavaStrings.ToLower | smallrye-reactive-messaging-kafka/src/test/java/io/smallrye/reactive/messaging/kafka/DefaultConfigTest.java:326 | same length, and each character is lower-cased independently |
| JavaStrings.ToLowerIdempotent | smallrye-reactive-messaging-kafka/src/test/java/io/smallrye/reactive/messaging/kafka/DefaultConfigTest.java:331 | the second `toLowerCase` in the key expression changes nothing on an already lower-cased name |
| JavaStrings.ToLowerSuffix | smallrye-reactive-messaging-kafka/src/test/java/io/smallrye/reactive/messaging/kafka/DefaultConfigTest.java:331 | lower-casing a suffix is the suffix of the lower-cased string |
| JavaStrings.StartsWith | smallrye-reactive-messaging-kafka/src/test/java/io/smallrye/reactive/messaging/kafka/DefaultConfigTest.java:327 | `String.startsWith`: the prefix is no longer than the string and equals its leading characters |
| JavaStrings.StartsWithPointwise | smallrye-reactive-messaging-kafka/src/test/java/io/smallrye/reactive/messaging/kafka/DefaultConfigTest.java:327 | `startsWith` holds exactly when the prefix fits and agrees with the string character by character |
| JavaStrings.LexLess | smallrye-reactive-messaging-kafka/src/test/java/io/smallrye/reactive/messaging/kafka/DefaultConfigTest.java:329 | `compareTo < 0`, the order behind `sorted()`: a proper prefix sorts first, otherwise the first differing character decides; a string never sorts before itself |
| JavaStrings.StartsWithSameLength | smallrye-reactive-messaging-kafka/src/test/java/io/smallrye/reactive/messaging/kafka/DefaultConfigTest.java:327-331 | a name that starts with the prefix and is not longer than it is the prefix itself, which is the one name `substring` rejects |
| JavaStrings.LexLessIrreflexive | smallrye-reactive-messaging-kafka/src/test/java/io/smallrye/reactive/messaging/kafka/DefaultConfigTest.java:329 | the natural order is irreflexive |
| JavaStrings.LexLessAsymmetric | smallrye-reactive-messaging-kafka/src/test/java/io/smallrye/reactive/messaging/kafka/DefaultConfigTest.java:329 | the natural order is asymmetric |
| JavaStrings.LexLessTransitive | smallrye-reactive-messaging-kafka/src/test/java/io/smallrye/reactive/messaging/kafka/DefaultConfigTest.java:329 | the natural order is transitive |
| JavaStrings.LexLessTotal | smallrye-reactive-messaging-kafka/src/test/java/io/smallrye/reactive/messaging/kafka/DefaultConfigTest.java:329 | of two different strings one sorts first, so `sorted()` is determined |
| JavaStrings.PrefixSortsFirst | smallrye-reactive-messaging-kafka/src/test/java/io/smallrye/reactive/messaging/kafka/DefaultConfigTest.java:327-329 | the bare prefix sorts before every other name that starts with it |
| Streams.FilterStartsWith | smallrye-reactive-messaging-kafka/src/test/java/io/smallrye/reactive/messaging/kafka/DefaultConfigTest.java:327 | an element survives the filter exactly when it is in the input and starts with the prefix |
| Streams.Distinct | smallrye-reactive-messaging-kafka/src/test/java/io/smallrye/reactive/messaging/kafka/DefaultConfigTest.java:328 | the same elements as the input, with no duplicates |
| Streams.Insert | smallrye-reactive-messaging-kafka/src/test/java/io/smallrye/reactive/messaging/kafka/DefaultConfigTest.java:329 | one insertion step adds exactly one copy of the element |
| Streams.Sort | smallrye-reactive-messaging-kafka/src/test/java/io/smallrye/reactive/messaging/kafka/DefaultConfigTest.java:329 | the sorted sequence is a permutation of its input |
| Streams.InsertStrictlySorted | smallrye-reactive-messaging-kafka/src/test/java/io/smallrye/reactive/messaging/kafka/DefaultConfigTest.java:329 | inserting a new element keeps a strictly increasing sequence strictly increasing |
| Streams.SortStrictlySorted | smallrye-reactive-messaging-kafka/src/test/java/io/smallrye/reactive/messaging/kafka/DefaultConfigTest.java:328-329 | sorting a duplicate-free sequence gives a strictly increasing sequence |
| Streams.StrictlySortedUnique | smallrye-reactive-messaging-kafka/src/test/java/io/smallrye/reactive/messaging/kafka/DefaultConfigTest.java:328-329 | two strictly increasing sequences with the same elements are equal |
| NamedConfig.Sanitize | smallrye-reactive-messaging-kafka/src/test/java/io/smallrye/reactive/messaging/kafka/DefaultConfigTest.java:331 | `replaceAll("[^a-z0-9.]", ".")`: same length; key characters are kept and every other character becomes `.`; the result is canonical |
| NamedConfig.SanitizeCanonical | smallrye-reactive-messaging-kafka/src/test/java/io/smallrye/reactive/messaging/kafka/DefaultConfigTest.java:331 | a string that is already canonical is left unchanged |
| NamedConfig.ClientKey | smallrye-reactive-messaging-kafka/src/test/java/io/smallrye/reactive/messaging/kafka/DefaultConfigTest.java:331 | the key is `|prefix| + 1` characters shorter than the name and contains only `[a-z0-9.]` |
| NamedConfig.ClientKeyIsNotSomeBoolean | smallrye-reactive-messaging-kafka/src/test/java/io/smallrye/reactive/messaging/kafka/DefaultConfigTest.java:331-336 | no property name can produce the key `"some-boolean"`, because that key contains `-` |
| NamedConfig.ClientKeyOfCanonicalRemainder | smallrye-reactive-messaging-kafka/src/test/java/io/smallrye/reactive/messaging/kafka/DefaultConfigTest.java:331 | when the part after the dropped characters is already canonical, it is the key |
| NamedConfig.ClientKeyNamedProfile | smallrye-reactive-messaging-kafka/src/test/java/io/smallrye/reactive/messaging/kafka/DefaultConfigTest.java:372 | `my-kafka-broker.bootstrap.servers` under `my-kafka-broker` gives `bootstrap.servers` |
| NamedConfig.ClientKeyShorterPrefix | smallrye-reactive-messaging-kafka/src/test/java/io/smallrye/reactive/messaging/kafka/DefaultConfigTest.java:567 | the shorter prefix `my-kafka` also matches `my-kafka-broker.bootstrap.servers`, giving `broker.bootstrap.servers` |
| NamedConfig.ClientKeyDropsAnyCharacter | smallrye-reactive-messaging-kafka/src/test/java/io/smallrye/reactive/messaging/kafka/DefaultConfigTest.java:331 | the dropped character need not be a dot: `kafka_group.id` gives `group.id` |
| NamedConfig.ClientKeyReplacesOtherCharacters | smallrye-reactive-messaging-kafka/src/test/java/io/smallrye/reactive/messaging/kafka/DefaultConfigTest.java:331 | `_` and `-` become dots (`kafka.auto_offset-reset` gives `auto.offset.reset`), and `kafka.` gives the empty key |
| NamedConfig.ValueOf | smallrye-reactive-messaging-kafka/src/test/java/io/smallrye/reactive/messaging/kafka/DefaultConfigTest.java:332 | `getOptionalValue(name, String.class).orElse("")`: the looked-up value when present, `""` when absent |
| NamedConfig.Entries | smallrye-reactive-messaging-kafka/src/test/java/io/smallrye/reactive/messaging/kafka/DefaultConfigTest.java:330-334 | the map after the `forEach` has put one entry per processed name, in order; every key of it is canonical |
| NamedConfig.LowerNames | smallrye-reactive-messaging-kafka/src/test/java/io/smallrye/reactive/messaging/kafka/DefaultConfigTest.java:326 | `map(String::toLowerCase)`: one lower-cased name per property name, in order |
| NamedConfig.InLowerNames | smallrye-reactive-messaging-kafka/src/test/java/io/smallrye/reactive/messaging/kafka/DefaultConfigTest.java:326 | a string is among the lower-cased names exactly when some property name lower-cases to it |
| NamedConfig.AllInLowerNames | smallrye-reactive-messaging-kafka/src/test/java/io/smallrye/reactive/messaging/kafka/DefaultConfigTest.java:326 | the lower-cased names are exactly the lower-cased forms of the property names, for every string at once |
| NamedConfig.Candidates | smallrye-reactive-messaging-kafka/src/test/java/io/smallrye/reactive/messaging/kafka/DefaultConfigTest.java:326-328 | a string is a candidate exactly when it starts with the prefix and some property name lower-cases to it |
| NamedConfig.SortedCandidates | smallrye-reactive-messaging-kafka/src/test/java/io/smallrye/reactive/messaging/kafka/DefaultConfigTest.java:324-329 | the stream before `forEach` is strictly increasing, and holds exactly the distinct lower-cased names that start with the prefix |
| NamedConfig.CandidatesLongEnough | smallrye-reactive-messaging-kafka/src/test/java/io/smallrye/reactive/messaging/kafka/DefaultConfigTest.java:331 | when the bare prefix is not among the candidates, every candidate is long enough for `substring` |
| NamedConfig.RuntimeConfig | smallrye-reactive-messaging-kafka/src/test/java/io/smallrye/reactive/messaging/kafka/DefaultConfigTest.java:321-338 | the producer method: it throws exactly when the bare prefix is a candidate, with the `substring` error at index `|prefix| + 1`; otherwise its map always holds `"some-boolean" -> true` |
| NamedConfig.RuntimeConfigOnLongNames | smallrye-reactive-messaging-kafka/src/test/java/io/smallrye/reactive/messaging/kafka/DefaultConfigTest.java:330-337 | otherwise, the result is the loop's map over the sorted candidates, with the marker put last |
| NamedConfig.EntriesStep | smallrye-reactive-messaging-kafka/src/test/java/io/smallrye/reactive/messaging/kafka/DefaultConfigTest.java:333 | each iteration is one `put` of the name's client key and value |
| NamedConfig.BuildRuntimeConfig | smallrye-reactive-messaging-kafka/src/test/java/io/smallrye/reactive/messaging/kafka/DefaultConfigTest.java:321-338 | the imperative producer (stream, `forEach` loop with `put`, final marker `put`) returns exactly `RuntimeConfig`, including the exception |
| NamedConfig.EntriesKeys | smallrye-reactive-messaging-kafka/src/test/java/io/smallrye/reactive/messaging/kafka/DefaultConfigTest.java:330-334 | the loop's map has a key exactly when some processed name normalizes to it |
| NamedConfig.EntriesLastWins | smallrye-reactive-messaging-kafka/src/test/java/io/smallrye/reactive/messaging/kafka/DefaultConfigTest.java:333 | `put` overwrites: a key holds the value of the last processed name that normalizes to it |
| NamedConfig.EntriesAreStrings | smallrye-reactive-messaging-kafka/src/test/java/io/smallrye/reactive/messaging/kafka/DefaultConfigTest.java:332-333 | the loop stores only strings |
| NamedConfig.RuntimeConfigUnfold | smallrye-reactive-messaging-kafka/src/test/java/io/smallrye/reactive/messaging/kafka/DefaultConfigTest.java:321-338 | on success, the map is the loop's map over the sorted candidates plus the marker |
| NamedConfig.RuntimeConfigFailure | smallrye-reactive-messaging-kafka/src/test/java/io/smallrye/reactive/messaging/kafka/DefaultConfigTest.java:331 | the producer fails exactly when some property name lower-cases to the bare prefix, and then the error is the `substring` exception at index `|prefix| + 1` |
| NamedConfig.RuntimeConfigKeys | smallrye-reactive-messaging-kafka/src/test/java/io/smallrye/reactive/messaging/kafka/DefaultConfigTest.java:326-336 | the keys are exactly the marker plus the client keys of the names whose lower-cased form starts with the prefix; no other name contributes |
| NamedConfig.RuntimeConfigCanonicalKeys | smallrye-reactive-messaging-kafka/src/test/java/io/smallrye/reactive/messaging/kafka/DefaultConfigTest.java:331-336 | every key except the marker is made of `[a-z0-9.]`, and the marker is not |
| NamedConfig.RuntimeConfigStrings | smallrye-reactive-messaging-kafka/src/test/java/io/smallrye/reactive/messaging/kafka/DefaultConfigTest.java:332-336 | every value except the marker's is a string |
| NamedConfig.RuntimeConfigValue | smallrye-reactive-messaging-kafka/src/test/java/io/smallrye/reactive/messaging/kafka/DefaultConfigTest.java:328-333 | a candidate that sorts last among those with its key stores its looked-up value, or `""` when the lookup is empty |
| NamedConfig.RuntimeConfigCollision | smallrye-reactive-messaging-kafka/src/test/java/io/smallrye/reactive/messaging/kafka/DefaultConfigTest.java:329-333 | of two candidates `a` and `b` with the same key, where `b` sorts after `a` and no candidate after `b` has that key, the key holds `b`'s value: `b`'s `put` overwrites `a`'s |
| NamedConfig.RuntimeConfigDependsOnCandidates | smallrye-reactive-messaging-kafka/src/test/java/io/smallrye/reactive/messaging/kafka/DefaultConfigTest.java:324-329 | the result depends on the property names only through the set of candidates |
| NamedConfig.RuntimeConfigOrderIndependent | smallrye-reactive-messaging-kafka/src/test/java/io/smallrye/reactive/messaging/kafka/DefaultConfigTest.java:324-329 | the order and repetition of the property names do not change the result |
| NamedConfig.RuntimeConfigIgnoresOtherNames | smallrye-reactive-messaging-kafka/src/test/java/io/smallrye/reactive/messaging/kafka/DefaultConfigTest.java:326-327 | adding a name whose lower-cased form does not start with the prefix changes nothing |
| NamedConfig.LowerNamesOfLowerCase | smallrye-reactive-messaging-kafka/src/test/java/io/smallrye/reactive/messaging/kafka/DefaultConfigTest.java:326 | property names with no upper-case letter pass `map(String::toLowerCase)` unchanged |
| NamedConfig.RuntimeConfigSingleCandidate | smallrye-reactive-messaging-kafka/src/test/java/io/smallrye/reactive/messaging/kafka/DefaultConfigTest.java:321-338 | a single matching name gives exactly its entry plus the marker |
| NamedConfig.NamedProfileCandidates | smallrye-reactive-messaging-kafka/src/test/java/io/smallrye/reactive/messaging/kafka/DefaultConfigTest.java:224-230 | of a channel property and a `my-kafka-broker.*` property, only the second matches `my-kafka-broker` |
| NamedConfig.NamedProfileScenario | smallrye-reactive-messaging-kafka/src/test/java/io/smallrye/reactive/messaging/kafka/DefaultConfigTest.java:359-380 | the `my-kafka-broker` producer over those two properties gives `bootstrap.servers` plus the marker, and nothing else |
| NamedConfig.TwoProfileCandidates | smallrye-reactive-messaging-kafka/src/test/java/io/smallrye/reactive/messaging/kafka/DefaultConfigTest.java:401-445 | when each of two lower-case names matches exactly one of two prefixes, each prefix has exactly its own name as candidate |
| NamedConfig.TwoProfiles | smallrye-reactive-messaging-kafka/src/test/java/io/smallrye/reactive/messaging/kafka/DefaultConfigTest.java:401-445 | then each of the two producers returns its own entry plus the marker, and nothing of the other |
| ChannelResolution.Layer | smallrye-reactive-messaging-kafka/src/test/java/io/smallrye/reactive/messaging/kafka/DefaultConfigTest.java:318-321 | the map registered under a bean name (`@Named`), or the empty map when no bean has that name |
| ChannelResolution.ReferenceLayer | smallrye-reactive-messaging-kafka/src/test/java/io/smallrye/reactive/messaging/kafka/DefaultConfigTest.java:142-145 | the map a channel's `kafka-configuration-name` points to, or the empty map when the channel declares none |
| ChannelResolution.Validate | smallrye-reactive-messaging-kafka/src/test/java/io/smallrye/reactive/messaging/kafka/DefaultConfigTest.java:63-91 | a channel fails validation exactly when it declares a reference that is not registered; the error carries the reference, the channel and its direction |
| ChannelResolution.Resolve | smallrye-reactive-messaging-kafka/src/test/java/io/smallrye/reactive/messaging/kafka/DefaultConfigTest.java:135-177 | fails exactly when validation fails. Otherwise: the keys are the union of the default map, the referenced map and the map named after the channel; a referenced map beats the default; the channel's own map beats the default on every key the referenced map does not set, and on every key when there is no reference; the default fills in the rest |
| ChannelResolution.ResolveDefaultOnly | smallrye-reactive-messaging-kafka/src/test/java/io/smallrye/reactive/messaging/kafka/DefaultConfigTest.java:115-133 | a channel with no reference and no map of its own receives `default-kafka-broker` exactly |
| ChannelResolution.FirstUnresolved | smallrye-reactive-messaging-kafka/src/test/java/io/smallrye/reactive/messaging/kafka/DefaultConfigTest.java:63-91 | nothing is reported exactly when every channel validates; otherwise the error of the first channel, in declaration order, that fails validation |
| ChannelResolution.Startup | smallrye-reactive-messaging-kafka/src/test/java/io/smallrye/reactive/messaging/kafka/DefaultConfigTest.java:63-91 | deployment fails exactly when some channel has a dangling reference, reporting that channel's error; otherwise every channel receives its resolved map |
| ChannelResolution.StartupReportsDanglingReference | smallrye-reactive-messaging-kafka/src/test/java/io/smallrye/reactive/messaging/kafka/DefaultConfigTest.java:63-91 | one dangling reference anywhere fails deployment, and the error names an unregistered reference |
| ChannelResolution.StartupNamesTheDanglingReference | smallrye-reactive-messaging-kafka/src/test/java/io/smallrye/reactive/messaging/kafka/DefaultConfigTest.java:63-91 | when exactly one reference dangles, the error names that reference and its channel |
| ChannelResolution.ResolveReferenced | smallrye-reactive-messaging-kafka/src/test/java/io/smallrye/reactive/messaging/kafka/DefaultConfigTest.java:142-145 | a channel that references a map and has none of its own receives the default map overridden by the referenced one |
| ChannelResolution.ResolveOwnSource | smallrye-reactive-messaging-kafka/src/test/java/io/smallrye/reactive/messaging/kafka/DefaultConfigTest.java:159-166 | a channel with no reference receives the default map overridden by its own |
| ChannelResolution.UnknownIncomingReference | smallrye-reactive-messaging-kafka/src/test/java/io/smallrye/reactive/messaging/kafka/DefaultConfigTest.java:63-76 | `my-kafka-broker-boom` on the incoming `source` channel fails deployment, naming `my-kafka-broker-boom` |
| ChannelResolution.UnknownOutgoingReference | smallrye-reactive-messaging-kafka/src/test/java/io/smallrye/reactive/messaging/kafka/DefaultConfigTest.java:78-91 | `my-kafka-broker-boom` on the outgoing `kafka` channel fails deployment, naming `my-kafka-broker-boom` |
| ChannelResolution.SerializerProfiles | smallrye-reactive-messaging-kafka/src/test/java/io/smallrye/reactive/messaging/kafka/DefaultConfigTest.java:384-445 | over the two serializer properties, the `my-kafka-broker` and the `default-kafka-broker` producers each return one `value.serializer` entry plus the marker |
| ChannelResolution.NamedReferenceOverridesDefault | smallrye-reactive-messaging-kafka/src/test/java/io/smallrye/reactive/messaging/kafka/DefaultConfigTest.java:249-254 | over the two serializer properties, the outgoing `kafka` channel, which references `my-kafka-broker`, receives the named serializer, not the deliberately wrong default one |
| ChannelResolution.DeserializerProfiles | smallrye-reactive-messaging-kafka/src/test/java/io/smallrye/reactive/messaging/kafka/DefaultConfigTest.java:466-510 | over the two deserializer properties, the `source` and the `default-kafka-broker` producers each return one `value.deserializer` entry plus the marker |
| ChannelResolution.ChannelSourceOverridesDefault | smallrye-reactive-messaging-kafka/src/test/java/io/smallrye/reactive/messaging/kafka/DefaultConfigTest.java:270-275 | over the two deserializer properties, the incoming `source` channel receives the deserializer of the map named `source`, not the deliberately wrong default one |

## Left out

- Kafka traffic (`usage.consumeStrings`, `usage.produceIntegers`, topics), `await()` polling and the message assertions: network I/O and timing.
- CDI/Weld bean discovery (`@Produces`, `@Named`, `@ApplicationScoped`, `@Inject Config`): framework plumbing. The produced beans become a map from name to produced map, and `DeploymentException` becomes a `ResolutionError` value.
- MicroProfile `Config`: modelled as a parameter (property names plus a lookup). The real source's property set and value conversion are not modelled.
- `KafkaMapBasedConfig.Builder` and `runApplication`: test bootstrap. The `getKafkaConfig...` methods appear only as the literal property names of the scenario lemmas.
- `processMessage` / `processPayload`: pipeline glue over foreign types.
- `CopyOnWriteArrayList` / `AtomicInteger`: test-harness concurrency.
- The connector's real merge and validation code is not part of this model. `Resolve` states only the precedence the tests observe.
- ChannelResolution.Resolve: the order between a referenced map and the map named after the channel is not stated, because no test exercises a key set by both. The definition puts the channel's map last, but no contract relies on that.
- ChannelResolution.Resolve: the connector-level `kafka-configuration-name` of `testFromKafkaToAppToKafkaWithNamedConfigOnConnectorConfig` (lines 93-113) and the channel attributes `mp.messaging.*` are not modelled.
- JavaStrings.LowerChar and JavaStrings.ToLower: only ASCII `A`-`Z` are lower-cased, per character and length-preserving. Java's `Character.toLowerCase` on other letters (U+212A becomes `k`) is not modelled. Neither is the locale- and context-dependent `String.toLowerCase`: U+0130 becomes two characters (`i` + U+0307), a Greek final sigma depends on its neighbours, and the Turkish locale maps `I` to U+0131.
- NamedConfig.ClientKey: counts characters as Unicode code points. Java's `substring(prefix.length() + 1)` counts UTF-16 code units. So when the character right after the prefix lies outside the Basic Multilingual Plane, Java cuts its surrogate pair and keeps the low half, which `replaceAll` turns into an extra `.`; for example `kafka`, then U+1F600, then `x`, gives the key `.x` in Java and `x` in the model. The length clause of `ClientKey` is likewise in code points.
- NamedConfig.RuntimeConfigValue and NamedConfig.RuntimeConfigCollision: assume that `forEach` visits the names in the stream's encounter order, the sorted order. The stream is sequential (`StreamSupport.stream(..., false)`), but `Stream.forEach` does not promise encounter order in general.
- JavaStrings.LexLess: compares Dafny characters. Java compares UTF-16 code units, which differs only for characters outside the Basic Multilingual Plane.
- NamedConfig.BuildRuntimeConfig: `HashMap` iteration order and identity are not modelled, because the result is a map value.
