/**
 * The named-configuration map builder: the body shared by the
 * `@Produces @Named(...)` methods `createKafkaRuntimeConfig`,
 * `createDefaultKafkaRuntimeConfig` and `createChannelKafkaRuntimeConfig`,
 * which differ only in the prefix string ("kafka", "my-kafka-broker",
 * "source", "my-kafka").
 *
 * The MicroProfile `Config` is a sequence of property names plus a lookup
 * function; the `Map<String, Object>` it builds maps client keys to `Value`s.
 */
module NamedConfig {
  import opened Wrappers
  import opened JavaStrings
  import opened Streams

  /** The two kinds of object the builder stores: configuration strings and the boolean marker. */
  datatype Value = Str(s: string) | Bool(b: bool)

  /** `StringIndexOutOfBoundsException` thrown by `substring(beginIndex)` on a too-short name. */
  datatype BuildError = SubstringOutOfBounds(name: string, beginIndex: nat)

  /** `config.getOptionalValue(name, String.class)`. */
  type Lookup = string -> Option<string>

  /** The key put after the loop, to check that a non-string value is accepted. */
  const SomeBooleanKey: string := "some-boolean"

  /** The characters the regular expression `[^a-z0-9.]` leaves alone. */
  predicate IsKeyChar(c: char) {
    'a' <= c <= 'z' || '0' <= c <= '9' || c == '.'
  }

  /** A client key: lower-case letters, digits and dots only. */
  predicate IsCanonical(k: string) {
    forall i :: 0 <= i < |k| ==> IsKeyChar(k[i])
  }

  /** `replaceAll("[^a-z0-9.]", ".")`: every character outside the class becomes a dot. */
  function Sanitize(s: string): (r: string)
    ensures |r| == |s| && IsCanonical(r)
    ensures forall i :: 0 <= i < |s| && IsKeyChar(s[i]) ==> r[i] == s[i]
    ensures forall i :: 0 <= i < |s| && !IsKeyChar(s[i]) ==> r[i] == '.'
  {
    seq(|s|, i requires 0 <= i < |s| => if IsKeyChar(s[i]) then s[i] else '.')
  }

  /** Sanitizing changes nothing in a string that is already a client key. */
  lemma SanitizeCanonical(s: string)
    requires IsCanonical(s)
    ensures Sanitize(s) == s
  {
  }

  /**
   * The client key of a property name:
   * `name.substring(prefix.length() + 1).toLowerCase().replaceAll("[^a-z0-9.]", ".")`.
   * The first `|prefix| + 1` characters are dropped whatever they are.
   */
  function ClientKey(prefix: string, name: string): (k: string)
    requires |name| > |prefix|
    ensures |k| == |name| - |prefix| - 1
    ensures IsCanonical(k)
  {
    Sanitize(ToLower(name[|prefix| + 1..]))
  }

  /** No property name yields the boolean marker's key: `"some-boolean"` holds a `-`. */
  lemma ClientKeyIsNotSomeBoolean(prefix: string, name: string)
    requires |name| > |prefix|
    ensures ClientKey(prefix, name) != SomeBooleanKey
  {
    assert !IsKeyChar(SomeBooleanKey[4]);
  }

  /** Client keys of names already in canonical form after the dropped part are that remainder itself. */
  lemma ClientKeyOfCanonicalRemainder(prefix: string, name: string)
    requires |name| > |prefix|
    requires IsCanonical(name[|prefix| + 1..])
    ensures ClientKey(prefix, name) == name[|prefix| + 1..]
  {
    var rest := name[|prefix| + 1..];
    assert ToLower(rest) == rest by {
      forall i | 0 <= i < |rest| ensures ToLower(rest)[i] == rest[i] {
        assert IsKeyChar(rest[i]);
      }
    }
    SanitizeCanonical(rest);
  }

  /** `my-kafka-broker.bootstrap.servers` under the `my-kafka-broker` profile is `bootstrap.servers`. */
  lemma ClientKeyNamedProfile()
    ensures ClientKey("my-kafka-broker", "my-kafka-broker.bootstrap.servers") == "bootstrap.servers"
  {
    ClientKeyOfCanonicalRemainder("my-kafka-broker", "my-kafka-broker.bootstrap.servers");
  }

  /** A shorter prefix also matches the longer profile's names, and keeps the rest of the profile name. */
  lemma ClientKeyShorterPrefix()
    ensures ClientKey("my-kafka", "my-kafka-broker.bootstrap.servers") == "broker.bootstrap.servers"
  {
    ClientKeyOfCanonicalRemainder("my-kafka", "my-kafka-broker.bootstrap.servers");
  }

  /** The character after the prefix is dropped whatever it is. */
  lemma ClientKeyDropsAnyCharacter()
    ensures ClientKey("kafka", "kafka_group.id") == "group.id"
  {
    ClientKeyOfCanonicalRemainder("kafka", "kafka_group.id");
  }

  /** Characters outside `[a-z0-9.]` become dots; a name one character longer than the prefix yields `""`. */
  lemma ClientKeyReplacesOtherCharacters()
    ensures ClientKey("kafka", "kafka.auto_offset-reset") == "auto.offset.reset"
    ensures ClientKey("kafka", "kafka.") == ""
  {
    var k := ClientKey("kafka", "kafka.auto_offset-reset");
    assert |k| == 17;
    assert k[4] == '.' && k[11] == '.';
  }

  /** `config.getOptionalValue(name, String.class).orElse("")`. */
  function ValueOf(lookup: Lookup, name: string): (v: string)
    ensures lookup(name).Some? ==> v == lookup(name).value
    ensures lookup(name).None? ==> v == ""
  {
    lookup(name).GetOr("")
  }

  /** Every name is longer than the prefix, so `substring(prefix.length() + 1)` does not throw. */
  predicate LongEnough(prefix: string, names: seq<string>) {
    forall i :: 0 <= i < |names| ==> |names[i]| > |prefix|
  }

  /** The map after `properties.put(key, value)` has run for each of `names`, in order, from an empty map. */
  function Entries(prefix: string, names: seq<string>, lookup: Lookup): (m: map<string, Value>)
    requires LongEnough(prefix, names)
    ensures forall k :: k in m ==> IsCanonical(k)
  {
    if names == [] then map[]
    else
      var last := names[|names| - 1];
      Entries(prefix, names[..|names| - 1], lookup)[ClientKey(prefix, last) := Str(ValueOf(lookup, last))]
  }

  /** `map(String::toLowerCase)`. */
  function LowerNames(names: seq<string>): (r: seq<string>)
    ensures |r| == |names|
    ensures forall i :: 0 <= i < |names| ==> r[i] == ToLower(names[i])
  {
    seq(|names|, i requires 0 <= i < |names| => ToLower(names[i]))
  }

  /** A string is among the lower-cased names exactly when it is the lower-cased form of some name. */
  lemma InLowerNames(names: seq<string>, x: string)
    ensures x in LowerNames(names) <==> exists n :: n in names && ToLower(n) == x
  {
    if exists n :: n in names && ToLower(n) == x {
      var n :| n in names && ToLower(n) == x;
      var i :| 0 <= i < |names| && names[i] == n;
      assert LowerNames(names)[i] == x;
    }
  }

  lemma AllInLowerNames(names: seq<string>)
    ensures forall x :: x in LowerNames(names) <==> exists n :: n in names && ToLower(n) == x
  {
    forall x ensures x in LowerNames(names) <==> exists n :: n in names && ToLower(n) == x {
      InLowerNames(names, x);
    }
  }

  /** The lower-cased property names that start with the prefix: what reaches `forEach`, as a set. */
  function Candidates(prefix: string, names: seq<string>): (c: set<string>)
    ensures forall x :: x in c <==> StartsWith(x, prefix) && exists n :: n in names && ToLower(n) == x
  {
    AllInLowerNames(names);
    set x | x in LowerNames(names) && StartsWith(x, prefix)
  }

  /** The whole stream `map(toLowerCase).filter(startsWith(prefix)).distinct().sorted()`. */
  function SortedCandidates(prefix: string, names: seq<string>): (r: seq<string>)
    ensures StrictlySorted(r)
    ensures forall x :: x in r <==> x in Candidates(prefix, names)
  {
    var distinct := Distinct(FilterStartsWith(prefix, LowerNames(names)));
    SortStrictlySorted(distinct);
    var sorted := Sort(distinct);
    assert forall x :: x in sorted <==> x in multiset(distinct);
    sorted
  }

  /** Every candidate other than the prefix itself is long enough for `substring`. */
  lemma CandidatesLongEnough(prefix: string, names: seq<string>)
    requires prefix !in SortedCandidates(prefix, names)
    ensures LongEnough(prefix, SortedCandidates(prefix, names))
  {
    var sorted := SortedCandidates(prefix, names);
    forall i | 0 <= i < |sorted| ensures |sorted[i]| > |prefix| {
      assert sorted[i] in Candidates(prefix, names);
      if |sorted[i]| <= |prefix| {
        StartsWithSameLength(sorted[i], prefix);
      }
    }
  }

  /**
   * The whole producer method: the map it returns, or the exception that
   * `substring` throws when a lower-cased property name equals the prefix.
   */
  function RuntimeConfig(prefix: string, names: seq<string>, lookup: Lookup): (r: Result<map<string, Value>, BuildError>)
    ensures r.Failure? <==> prefix in Candidates(prefix, names)
    ensures r.Failure? ==> r.error == SubstringOutOfBounds(prefix, |prefix| + 1)
    ensures r.Success? ==> SomeBooleanKey in r.value && r.value[SomeBooleanKey] == Bool(true)
  {
    var sorted := SortedCandidates(prefix, names);
    if prefix in sorted then Failure(SubstringOutOfBounds(prefix, |prefix| + 1))
    else
      CandidatesLongEnough(prefix, names);
      Success(Entries(prefix, sorted, lookup)[SomeBooleanKey := Bool(true)])
  }

  /**
   * `RuntimeConfig`'s failure clauses as one equation, for the loop's throwing
   * branch in `BuildRuntimeConfig`; proved in isolation to keep that method cheap.
   */
  lemma FailureOnPrefix(prefix: string, names: seq<string>, lookup: Lookup)
    requires prefix in SortedCandidates(prefix, names)
    ensures RuntimeConfig(prefix, names, lookup) == Failure(SubstringOutOfBounds(prefix, |prefix| + 1))
  {
  }

  /** The result when every candidate is long enough for `substring`. */
  lemma RuntimeConfigOnLongNames(prefix: string, names: seq<string>, lookup: Lookup)
    requires LongEnough(prefix, SortedCandidates(prefix, names))
    ensures RuntimeConfig(prefix, names, lookup) ==
      Success(Entries(prefix, SortedCandidates(prefix, names), lookup)[SomeBooleanKey := Bool(true)])
  {
    var sorted := SortedCandidates(prefix, names);
    assert forall i :: 0 <= i < |sorted| ==> sorted[i] != prefix;
  }

  /** One more `put`: the entries of a longer prefix of the names. */
  lemma EntriesStep(prefix: string, names: seq<string>, lookup: Lookup, i: nat)
    requires i < |names| && LongEnough(prefix, names[..i + 1])
    ensures LongEnough(prefix, names[..i])
    ensures Entries(prefix, names[..i + 1], lookup) ==
      Entries(prefix, names[..i], lookup)[ClientKey(prefix, names[i]) := Str(ValueOf(lookup, names[i]))]
  {
    assert names[..i + 1][..i] == names[..i];
    assert names[..i + 1][i] == names[i];
  }

  /**
   * The producer method as it runs: the stream stages, then the `forEach`
   * loop that puts one entry per name into `properties`, then the boolean marker.
   */
  method BuildRuntimeConfig(prefix: string, names: seq<string>, lookup: Lookup)
    returns (r: Result<map<string, Value>, BuildError>)
    ensures r == RuntimeConfig(prefix, names, lookup)
  {
    var sorted := SortedCandidates(prefix, names);
    var properties: map<string, Value> := map[];
    for i := 0 to |sorted|
      invariant LongEnough(prefix, sorted[..i])
      invariant properties == Entries(prefix, sorted[..i], lookup)
    {
      var name := sorted[i];
      if |name| < |prefix| + 1 {
        // substring(prefix.length() + 1) throws and abandons the map
        assert name in Candidates(prefix, names);
        StartsWithSameLength(name, prefix);
        FailureOnPrefix(prefix, names, lookup);
        return Failure(SubstringOutOfBounds(name, |prefix| + 1));
      }
      var key := ClientKey(prefix, name);
      var value := ValueOf(lookup, name);
      EntriesStep(prefix, sorted, lookup, i);
      properties := properties[key := Str(value)];
    }
    assert sorted[..|sorted|] == sorted;
    RuntimeConfigOnLongNames(prefix, names, lookup);
    properties := properties[SomeBooleanKey := Bool(true)];
    r := Success(properties);
  }

  // ----- what the loop builds, name by name -----

  /** A key is in the map exactly when some processed name normalizes to it. */
  lemma {:induction false} EntriesKeys(prefix: string, names: seq<string>, lookup: Lookup)
    requires LongEnough(prefix, names)
    ensures forall k :: k in Entries(prefix, names, lookup) <==>
      exists i :: 0 <= i < |names| && ClientKey(prefix, names[i]) == k
  {
    if names != [] {
      var init := names[..|names| - 1];
      EntriesKeys(prefix, init, lookup);
      forall k ensures k in Entries(prefix, names, lookup) <==>
        exists i :: 0 <= i < |names| && ClientKey(prefix, names[i]) == k
      {
        if exists i :: 0 <= i < |names| && ClientKey(prefix, names[i]) == k {
          var i :| 0 <= i < |names| && ClientKey(prefix, names[i]) == k;
          if i < |names| - 1 {
            assert init[i] == names[i];
          }
        }
        if k in Entries(prefix, init, lookup) {
          var i :| 0 <= i < |init| && ClientKey(prefix, init[i]) == k;
          assert names[i] == init[i];
        }
      }
    }
  }

  /** `put` overwrites: the value under a key comes from the last name that normalizes to it. */
  lemma {:induction false} EntriesLastWins(prefix: string, names: seq<string>, lookup: Lookup, i: nat)
    requires LongEnough(prefix, names)
    requires i < |names|
    requires forall j :: i < j < |names| ==> ClientKey(prefix, names[j]) != ClientKey(prefix, names[i])
    ensures ClientKey(prefix, names[i]) in Entries(prefix, names, lookup)
    ensures Entries(prefix, names, lookup)[ClientKey(prefix, names[i])] == Str(ValueOf(lookup, names[i]))
  {
    if i < |names| - 1 {
      var init := names[..|names| - 1];
      assert init[i] == names[i];
      forall j | i < j < |init| ensures ClientKey(prefix, init[j]) != ClientKey(prefix, init[i]) {
        assert init[j] == names[j];
      }
      EntriesLastWins(prefix, init, lookup, i);
    }
  }

  /** The loop only ever stores strings. */
  lemma {:induction false} EntriesAreStrings(prefix: string, names: seq<string>, lookup: Lookup)
    requires LongEnough(prefix, names)
    ensures forall k :: k in Entries(prefix, names, lookup) ==> Entries(prefix, names, lookup)[k].Str?
  {
    if names != [] {
      EntriesAreStrings(prefix, names[..|names| - 1], lookup);
    }
  }

  // ----- what the producer method promises -----

  /** On success, the map is what the loop builds from the sorted candidates, plus the marker. */
  lemma RuntimeConfigUnfold(prefix: string, names: seq<string>, lookup: Lookup)
    requires RuntimeConfig(prefix, names, lookup).Success?
    ensures LongEnough(prefix, SortedCandidates(prefix, names))
    ensures RuntimeConfig(prefix, names, lookup).value ==
      Entries(prefix, SortedCandidates(prefix, names), lookup)[SomeBooleanKey := Bool(true)]
  {
    CandidatesLongEnough(prefix, names);
  }

  /** The producer throws exactly when some property name lower-cases to the bare prefix. */
  lemma RuntimeConfigFailure(prefix: string, names: seq<string>, lookup: Lookup)
    ensures RuntimeConfig(prefix, names, lookup).Failure? <==> exists n :: n in names && ToLower(n) == prefix
    ensures RuntimeConfig(prefix, names, lookup).Failure? ==>
      RuntimeConfig(prefix, names, lookup).error == SubstringOutOfBounds(prefix, |prefix| + 1)
  {
    InLowerNames(names, prefix);
    assert StartsWith(prefix, prefix);
  }

  /**
   * Helper: the first clause of `RuntimeConfigKeys`, proved on its own so that
   * the proofs which call it stay small.
   */
  lemma CandidatesAreLong(prefix: string, names: seq<string>, lookup: Lookup)
    requires RuntimeConfig(prefix, names, lookup).Success?
    ensures forall n :: n in Candidates(prefix, names) ==> |n| > |prefix|
  {
    CandidatesLongEnough(prefix, names);
  }

  /**
   * The keys are the marker plus the client keys of the property names whose
   * lower-cased form starts with the prefix; nothing else contributes.
   */
  lemma RuntimeConfigKeys(prefix: string, names: seq<string>, lookup: Lookup)
    requires RuntimeConfig(prefix, names, lookup).Success?
    ensures forall n :: n in Candidates(prefix, names) ==> |n| > |prefix|
    ensures forall k :: k in RuntimeConfig(prefix, names, lookup).value <==>
      k == SomeBooleanKey || exists n :: n in Candidates(prefix, names) && ClientKey(prefix, n) == k
  {
    var sorted := SortedCandidates(prefix, names);
    RuntimeConfigUnfold(prefix, names, lookup);
    CandidatesAreLong(prefix, names, lookup);
    EntriesKeys(prefix, sorted, lookup);
    forall k ensures k in Entries(prefix, sorted, lookup) <==>
      exists n :: n in Candidates(prefix, names) && ClientKey(prefix, n) == k
    {
      if exists n :: n in Candidates(prefix, names) && ClientKey(prefix, n) == k {
        var n :| n in Candidates(prefix, names) && ClientKey(prefix, n) == k;
        var i :| 0 <= i < |sorted| && sorted[i] == n;
      }
      if k in Entries(prefix, sorted, lookup) {
        var i :| 0 <= i < |sorted| && ClientKey(prefix, sorted[i]) == k;
        assert sorted[i] in Candidates(prefix, names);
      }
    }
  }

  /** Every key but the marker is canonical: lower-case letters, digits and dots. */
  lemma RuntimeConfigCanonicalKeys(prefix: string, names: seq<string>, lookup: Lookup)
    requires RuntimeConfig(prefix, names, lookup).Success?
    ensures forall k :: k in RuntimeConfig(prefix, names, lookup).value ==> k == SomeBooleanKey || IsCanonical(k)
    ensures !IsCanonical(SomeBooleanKey)
  {
    RuntimeConfigKeys(prefix, names, lookup);
    assert !IsKeyChar(SomeBooleanKey[4]);
  }

  /** No candidate sorting after `n` shares its client key: `n` is the last to be put under that key. */
  predicate LastForItsKey(prefix: string, candidates: set<string>, n: string)
    requires |n| > |prefix|
  {
    forall n' :: n' in candidates && |n'| > |prefix| && LexLess(n, n') ==> ClientKey(prefix, n') != ClientKey(prefix, n)
  }

  /** Every entry but the marker holds a string. */
  lemma RuntimeConfigStrings(prefix: string, names: seq<string>, lookup: Lookup)
    requires RuntimeConfig(prefix, names, lookup).Success?
    ensures forall k :: k in RuntimeConfig(prefix, names, lookup).value && k != SomeBooleanKey ==>
      RuntimeConfig(prefix, names, lookup).value[k].Str?
  {
    RuntimeConfigUnfold(prefix, names, lookup);
    EntriesAreStrings(prefix, SortedCandidates(prefix, names), lookup);
  }

  /**
   * The value under a candidate's client key is the lookup of the candidate
   * that sorts last among those with that key, or `""` when it is absent.
   */
  lemma RuntimeConfigValue(prefix: string, names: seq<string>, lookup: Lookup, n: string)
    requires RuntimeConfig(prefix, names, lookup).Success?
    requires n in Candidates(prefix, names)
    ensures |n| > |prefix|
    ensures LastForItsKey(prefix, Candidates(prefix, names), n) ==>
      ClientKey(prefix, n) in RuntimeConfig(prefix, names, lookup).value &&
      RuntimeConfig(prefix, names, lookup).value[ClientKey(prefix, n)] == Str(ValueOf(lookup, n))
  {
    var sorted := SortedCandidates(prefix, names);
    RuntimeConfigUnfold(prefix, names, lookup);
    var i :| 0 <= i < |sorted| && sorted[i] == n;
    if LastForItsKey(prefix, Candidates(prefix, names), n) {
      forall j | i < j < |sorted| ensures ClientKey(prefix, sorted[j]) != ClientKey(prefix, sorted[i]) {
        assert LexLess(sorted[i], sorted[j]);
        assert sorted[j] in Candidates(prefix, names);
      }
      EntriesLastWins(prefix, sorted, lookup, i);
      ClientKeyIsNotSomeBoolean(prefix, n);
    }
  }

  /** When two candidates collide on a key, the one that sorts later overwrites the earlier one. */
  lemma RuntimeConfigCollision(prefix: string, names: seq<string>, lookup: Lookup, a: string, b: string)
    requires RuntimeConfig(prefix, names, lookup).Success?
    requires a in Candidates(prefix, names) && b in Candidates(prefix, names) && LexLess(a, b)
    ensures |a| > |prefix| && |b| > |prefix|
    ensures ClientKey(prefix, a) == ClientKey(prefix, b) && LastForItsKey(prefix, Candidates(prefix, names), b) ==>
      ClientKey(prefix, a) in RuntimeConfig(prefix, names, lookup).value &&
      RuntimeConfig(prefix, names, lookup).value[ClientKey(prefix, a)] == Str(ValueOf(lookup, b))
  {
    CandidatesAreLong(prefix, names, lookup);
    RuntimeConfigValue(prefix, names, lookup, b);
  }

  /** The result depends on the property names only through the set of candidates. */
  lemma RuntimeConfigDependsOnCandidates(prefix: string, names1: seq<string>, names2: seq<string>, lookup: Lookup)
    requires Candidates(prefix, names1) == Candidates(prefix, names2)
    ensures RuntimeConfig(prefix, names1, lookup) == RuntimeConfig(prefix, names2, lookup)
  {
    StrictlySortedUnique(SortedCandidates(prefix, names1), SortedCandidates(prefix, names2));
  }

  /** The order and the repetition of the property names do not matter. */
  lemma RuntimeConfigOrderIndependent(prefix: string, names1: seq<string>, names2: seq<string>, lookup: Lookup)
    requires forall n :: n in names1 <==> n in names2
    ensures RuntimeConfig(prefix, names1, lookup) == RuntimeConfig(prefix, names2, lookup)
  {
    forall x ensures x in LowerNames(names1) <==> x in LowerNames(names2) {
      InLowerNames(names1, x);
      InLowerNames(names2, x);
    }
    assert Candidates(prefix, names1) == Candidates(prefix, names2);
    RuntimeConfigDependsOnCandidates(prefix, names1, names2, lookup);
  }

  /** A property name whose lower-cased form does not start with the prefix is ignored. */
  lemma RuntimeConfigIgnoresOtherNames(prefix: string, names: seq<string>, other: string, lookup: Lookup)
    requires !StartsWith(ToLower(other), prefix)
    ensures RuntimeConfig(prefix, names + [other], lookup) == RuntimeConfig(prefix, names, lookup)
  {
    assert LowerNames(names + [other]) == LowerNames(names) + [ToLower(other)];
    assert Candidates(prefix, names + [other]) == Candidates(prefix, names);
    RuntimeConfigDependsOnCandidates(prefix, names + [other], names, lookup);
  }

  // ----- the configurations the tests build -----

  /** Names with no upper-case letters are unchanged by `map(String::toLowerCase)`. */
  lemma LowerNamesOfLowerCase(names: seq<string>)
    requires forall i, j :: 0 <= i < |names| && 0 <= j < |names[i]| ==> !IsUpper(names[i][j])
    ensures LowerNames(names) == names
  {
    forall i | 0 <= i < |names| ensures LowerNames(names)[i] == names[i] {
      assert ToLower(names[i]) == names[i];
    }
  }

  /** A single matching property name yields exactly its own entry plus the marker. */
  lemma RuntimeConfigSingleCandidate(prefix: string, names: seq<string>, lookup: Lookup, n: string)
    requires Candidates(prefix, names) == {n} && |n| > |prefix|
    ensures RuntimeConfig(prefix, names, lookup) ==
      Success(map[ClientKey(prefix, n) := Str(ValueOf(lookup, n)), SomeBooleanKey := Bool(true)])
  {
    StrictlySortedUnique(SortedCandidates(prefix, names), [n]);
    assert [n][..0] == [];
    RuntimeConfigOnLongNames(prefix, names, lookup);
  }

  /** Of two lower-case names, only the second starts with the prefix: it is the one candidate. */
  lemma SecondIsOnlyCandidate(p: string, a: string, b: string)
    requires forall j :: 0 <= j < |a| ==> !IsUpper(a[j])
    requires forall j :: 0 <= j < |b| ==> !IsUpper(b[j])
    requires !StartsWith(a, p) && StartsWith(b, p)
    ensures Candidates(p, [a, b]) == {b}
  {
    LowerNamesOfLowerCase([a, b]);
  }

  /** Of a channel property and a `my-kafka-broker.*` property, only the latter matches the profile. */
  lemma NamedProfileCandidates(names: seq<string>)
    requires names == ["mp.messaging.incoming.source.topic", "my-kafka-broker.bootstrap.servers"]
    ensures Candidates("my-kafka-broker", names) == {"my-kafka-broker.bootstrap.servers"}
  {
    NamedProfileNames();
    NamedProfileNamesLowerCase();
    SecondIsOnlyCandidate("my-kafka-broker", "mp.messaging.incoming.source.topic", "my-kafka-broker.bootstrap.servers");
  }

  /** Literal facts about the properties at lines 224 and 230: only the second starts with `my-kafka-broker`. */
  lemma NamedProfileNames()
    ensures !StartsWith("mp.messaging.incoming.source.topic", "my-kafka-broker")
    ensures StartsWith("my-kafka-broker.bootstrap.servers", "my-kafka-broker")
  {
    assert "mp.messaging.incoming.source.topic"[1] != "my-kafka-broker"[1];
  }

  /** The properties at lines 224 and 230 have no upper-case letter. */
  lemma NamedProfileNamesLowerCase()
    ensures forall j :: 0 <= j < |"mp.messaging.incoming.source.topic"| ==> !IsUpper("mp.messaging.incoming.source.topic"[j])
    ensures forall j :: 0 <= j < |"my-kafka-broker.bootstrap.servers"| ==> !IsUpper("my-kafka-broker.bootstrap.servers"[j])
  {
  }

  /**
   * The `my-kafka-broker` producer over a configuration holding one
   * `my-kafka-broker.*` property and one channel property.
   */
  lemma NamedProfileScenario(lookup: Lookup)
    ensures RuntimeConfig("my-kafka-broker", ["mp.messaging.incoming.source.topic", "my-kafka-broker.bootstrap.servers"], lookup) ==
      Success(map["bootstrap.servers" := Str(ValueOf(lookup, "my-kafka-broker.bootstrap.servers")), SomeBooleanKey := Bool(true)])
  {
    var names := ["mp.messaging.incoming.source.topic", "my-kafka-broker.bootstrap.servers"];
    NamedProfileCandidates(names);
    RuntimeConfigSingleCandidate("my-kafka-broker", names, lookup, "my-kafka-broker.bootstrap.servers");
    ClientKeyNamedProfile();
  }

  /** The candidates of each of two profiles when each of two lower-case names matches exactly one of them. */
  lemma TwoProfileCandidates(p: string, q: string, a: string, b: string)
    requires forall j :: 0 <= j < |a| ==> !IsUpper(a[j])
    requires forall j :: 0 <= j < |b| ==> !IsUpper(b[j])
    requires StartsWith(a, p) && !StartsWith(b, p)
    requires StartsWith(b, q) && !StartsWith(a, q)
    ensures Candidates(p, [a, b]) == {a}
    ensures Candidates(q, [a, b]) == {b}
  {
    LowerNamesOfLowerCase([a, b]);
  }

  /**
   * Two profiles over a configuration holding one property of each: each
   * producer returns its own property's entry and the marker, nothing of the other.
   */
  lemma TwoProfiles(p: string, q: string, a: string, b: string, lookup: Lookup)
    requires forall j :: 0 <= j < |a| ==> !IsUpper(a[j])
    requires forall j :: 0 <= j < |b| ==> !IsUpper(b[j])
    requires StartsWith(a, p) && !StartsWith(b, p) && |a| > |p|
    requires StartsWith(b, q) && !StartsWith(a, q) && |b| > |q|
    ensures RuntimeConfig(p, [a, b], lookup) ==
      Success(map[ClientKey(p, a) := Str(ValueOf(lookup, a)), SomeBooleanKey := Bool(true)])
    ensures RuntimeConfig(q, [a, b], lookup) ==
      Success(map[ClientKey(q, b) := Str(ValueOf(lookup, b)), SomeBooleanKey := Bool(true)])
  {
    TwoProfileCandidates(p, q, a, b);
    RuntimeConfigSingleCandidate(p, [a, b], lookup, a);
    RuntimeConfigSingleCandidate(q, [a, b], lookup, b);
  }
}
