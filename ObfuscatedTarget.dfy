/**
 * The `@ObfuscatedTarget` resolver: a shadow method carries a table of
 * (package version, name) mappings, and the resolver picks the name of the
 * first mapping whose version is the version of the running server.
 */
module ObfuscatedTarget {
  import opened Wrappers
  import opened PackageVersions

  /** One `@Mapping`: the target's name under one package version. */
  datatype Mapping = Mapping(version: PackageVersion, value: string)

  /** `Arrays.stream(mappings).filter(m -> runtimeVersion() == m.version()).findFirst()`.
    * The stream is lazy: `runtimeVersion()` is called once per element examined,
    * so its exception surfaces at the first element and never on an empty table. */
  function FindFirst(mappings: seq<Mapping>, state: RuntimeState): (r: Result<Option<Mapping>, VersionError>)
    ensures mappings == [] ==> r == Success(None)
    ensures mappings != [] && RuntimeVersion(state).Failure? ==> r == Failure(RuntimeVersion(state).error)
    ensures RuntimeVersion(state).Success? ==> r.Success?
    ensures RuntimeVersion(state).Success? && r.value.Some? ==>
      r.value.value in mappings && r.value.value.version == RuntimeVersion(state).value
    ensures RuntimeVersion(state).Success? && r.value.None? ==>
      forall m :: m in mappings ==> m.version != RuntimeVersion(state).value
  {
    if mappings == [] then Success(None)
    else
      match RuntimeVersion(state)
      case Failure(e) => Failure(e)
      case Success(runtime) =>
        if runtime == mappings[0].version then Success(Some(mappings[0]))
        else FindFirst(mappings[1..], state)
  }

  /** `RESOLVER.lookupMethod`: `annotation` is the shadow method's `@ObfuscatedTarget`
    * mapping table, None when the method is not annotated. The result is the
    * name mapped to the runtime version, if any, or the exception
    * `runtimeVersion()` throws. */
  function LookupMethod(annotation: Option<seq<Mapping>>, state: RuntimeState): (r: Result<Option<string>, VersionError>)
    ensures annotation.None? ==> r == Success(None)
    ensures r.Failure? <==> annotation.Some? && annotation.value != [] && state.version.None?
    ensures r.Failure? ==> r.error == UnknownPackageVersion(state.versionString)
    ensures r.Success? && r.value.Some? ==>
      annotation.Some? && state.version.Some? && Mapping(state.version.value, r.value.value) in annotation.value
  {
    match annotation
    case None => Success(None)
    case Some(mappings) =>
      match FindFirst(mappings, state)
      case Failure(e) => Failure(e)
      case Success(found) => Success(if found.Some? then Some(found.value.value) else None)
  }

  /** `RESOLVER.lookupField`: the same pipeline as `lookupMethod`, for a field target. */
  function LookupField(annotation: Option<seq<Mapping>>, state: RuntimeState): (r: Result<Option<string>, VersionError>)
    ensures annotation.None? ==> r == Success(None)
    ensures r.Failure? <==> annotation.Some? && annotation.value != [] && state.version.None?
    ensures r.Failure? ==> r.error == UnknownPackageVersion(state.versionString)
    ensures r.Success? && r.value.Some? ==>
      annotation.Some? && state.version.Some? && Mapping(state.version.value, r.value.value) in annotation.value
  {
    match annotation
    case None => Success(None)
    case Some(mappings) =>
      match FindFirst(mappings, state)
      case Failure(e) => Failure(e)
      case Success(found) => Success(if found.Some? then Some(found.value.value) else None)
  }

  /** The two entry points agree on every input. */
  lemma EntryPointsAgree(annotation: Option<seq<Mapping>>, state: RuntimeState)
    ensures LookupMethod(annotation, state) == LookupField(annotation, state)
  {
  }

  /** `mappings[i]` is the first mapping, in array order, for version `v`. */
  predicate IsFirstFor(mappings: seq<Mapping>, v: PackageVersion, i: nat) {
    i < |mappings| && mappings[i].version == v
    && forall j :: 0 <= j < i ==> mappings[j].version != v
  }

  /** The first mapping for the runtime version is the one found. */
  lemma {:induction false} FindFirstWins(mappings: seq<Mapping>, state: RuntimeState, i: nat)
    requires state.version.Some? && IsFirstFor(mappings, state.version.value, i)
    ensures FindFirst(mappings, state) == Success(Some(mappings[i]))
  {
    if i > 0 {
      FindFirstWins(mappings[1..], state, i - 1);
    }
  }

  /** First match wins: the name is that of the first mapping for the runtime
    * version, even when a later mapping has the same version. */
  lemma FirstMatchWins(mappings: seq<Mapping>, state: RuntimeState, i: nat)
    requires state.version.Some? && IsFirstFor(mappings, state.version.value, i)
    ensures LookupMethod(Some(mappings), state) == Success(Some(mappings[i].value))
  {
    FindFirstWins(mappings, state, i);
  }

  /** A table with no mapping for the runtime version gives no name, not an error. */
  lemma NoMatchGivesEmpty(mappings: seq<Mapping>, state: RuntimeState)
    requires state.version.Some?
    requires forall m :: m in mappings ==> m.version != state.version.value
    ensures LookupMethod(Some(mappings), state) == Success(None)
  {
  }

  /** Matching is exact: mappings for any other version, earlier or later, have
    * no effect wherever they stand in the table. */
  lemma OtherVersionsIgnored(front: seq<Mapping>, other: Mapping, back: seq<Mapping>, state: RuntimeState)
    requires state.version.Some? && other.version != state.version.value
    ensures LookupMethod(Some(front + [other] + back), state) == LookupMethod(Some(front + back), state)
  {
    FindFirstSkips(front, other, back, state);
  }

  lemma {:induction false} FindFirstSkips(front: seq<Mapping>, other: Mapping, back: seq<Mapping>, state: RuntimeState)
    requires state.version.Some? && other.version != state.version.value
    ensures FindFirst(front + [other] + back, state) == FindFirst(front + back, state)
  {
    if front == [] {
      assert front + [other] + back == [other] + back;
      assert ([other] + back)[1..] == back;
      assert front + back == back;
    } else {
      assert (front + [other] + back)[1..] == front[1..] + [other] + back;
      assert (front + back)[1..] == front[1..] + back;
      if state.version.value != front[0].version {
        FindFirstSkips(front[1..], other, back, state);
      }
    }
  }

  /** A missing or empty table gives no name and never consults the runtime
    * version, so it does not fail even when that version is unknown. */
  lemma EmptyTableNeverFails(state: RuntimeState)
    ensures LookupMethod(None, state) == Success(None)
    ensures LookupMethod(Some([]), state) == Success(None)
    ensures LookupField(None, state) == Success(None)
    ensures LookupField(Some([]), state) == Success(None)
  {
  }

  /** A non-empty table with an unknown runtime version propagates the
    * IllegalStateException of `runtimeVersion()`. */
  lemma UnknownVersionPropagates(mappings: seq<Mapping>, state: RuntimeState)
    requires mappings != [] && state.version.None?
    ensures LookupMethod(Some(mappings), state) == Failure(UnknownPackageVersion(state.versionString))
  {
  }

  /** The package of a `v1_17_R1` server yields the version string `v1_17_R1`. */
  lemma ModernServerVersionString()
    ensures ServerVersionString("CraftServer", "org.bukkit.craftbukkit.v1_17_R1.CraftServer",
                                "org.bukkit.craftbukkit.v1_17_R1") == Name(v1_17_R1)
  {
  }

  /** On that server `runtimeVersion()` returns `v1_17_R1`. */
  lemma ModernServerDetected()
    ensures RuntimeVersion(InitialState("CraftServer", "org.bukkit.craftbukkit.v1_17_R1.CraftServer",
                                        "org.bukkit.craftbukkit.v1_17_R1")) == Success(v1_17_R1)
  {
    ModernServerVersionString();
    ValueOfName(v1_17_R1);
  }

  /** A modern server end to end: the server class sits in the package
    * `org.bukkit.craftbukkit.v1_17_R1`, so the runtime version is `v1_17_R1`,
    * its nms names carry no version segment, and a mapping table resolves to
    * the name given for `v1_17_R1`. */
  lemma ModernServerScenario(className: string)
    ensures var state := InitialState("CraftServer", "org.bukkit.craftbukkit.v1_17_R1.CraftServer",
                                      "org.bukkit.craftbukkit.v1_17_R1");
      RuntimeVersion(state) == Success(v1_17_R1)
      && Nms(v1_17_R1, className) == "net.minecraft." + className
      && LookupMethod(Some([Mapping(v1_8_R1, "a_obfuscated"), Mapping(v1_17_R1, "sendPacket")]), state)
         == Success(Some("sendPacket"))
  {
    ModernServerDetected();
  }
}
