/**
 * The CraftBukkit package versions: a closed, ordered enumeration whose
 * constants derive the `net.minecraft` (NMS) and `org.bukkit.craftbukkit`
 * (OBC) package prefixes, compare by declaration order, and are matched
 * against the package of the running server.
 */
module PackageVersions {
  import opened Wrappers

  /** The number of enum constants. */
  const COUNT: nat := 29

  /** An enum constant, identified by its `ordinal()`. An ordinal rather than a
    * datatype of 29 constructors, since the solver case-splits such a datatype
    * on every disequality between constants. */
  type PackageVersion = ordinal: nat | ordinal < COUNT

  const NONE: PackageVersion := 0
  const v1_7_R1: PackageVersion := 1
  const v1_7_R2: PackageVersion := 2
  const v1_7_R3: PackageVersion := 3
  const v1_7_R4: PackageVersion := 4
  const v1_8_R1: PackageVersion := 5
  const v1_8_R2: PackageVersion := 6
  const v1_8_R3: PackageVersion := 7
  const v1_9_R1: PackageVersion := 8
  const v1_9_R2: PackageVersion := 9
  const v1_10_R1: PackageVersion := 10
  const v1_11_R1: PackageVersion := 11
  const v1_12_R1: PackageVersion := 12
  const v1_13_R1: PackageVersion := 13
  const v1_13_R2: PackageVersion := 14
  const v1_14_R1: PackageVersion := 15
  const v1_15_R1: PackageVersion := 16
  const v1_16_R1: PackageVersion := 17
  const v1_16_R2: PackageVersion := 18
  const v1_16_R3: PackageVersion := 19
  const v1_17_R1: PackageVersion := 20
  const v1_18_R1: PackageVersion := 21
  const v1_18_R2: PackageVersion := 22
  const v1_19_R1: PackageVersion := 23
  const v1_19_R2: PackageVersion := 24
  const v1_19_R3: PackageVersion := 25
  const v1_20_R1: PackageVersion := 26
  const v1_20_R2: PackageVersion := 27
  const v1_20_R3: PackageVersion := 28

  /** What each constant is declared with: its `name()` and the `useModern`
    * argument it passes to the enum constructor (false when omitted). */
  datatype Constant = Constant(name: string, useModern: bool)

  /** The enum declaration, constant by constant, in declaration order. */
  function Declared(v: PackageVersion): (c: Constant)
    ensures c.useModern <==> v1_17_R1 <= v
    ensures c.name == "NONE" <==> v == NONE
  {
    match v
    case 0 => Constant("NONE", false)
    case 1 => Constant("v1_7_R1", false)
    case 2 => Constant("v1_7_R2", false)
    case 3 => Constant("v1_7_R3", false)
    case 4 => Constant("v1_7_R4", false)
    case 5 => Constant("v1_8_R1", false)
    case 6 => Constant("v1_8_R2", false)
    case 7 => Constant("v1_8_R3", false)
    case 8 => Constant("v1_9_R1", false)
    case 9 => Constant("v1_9_R2", false)
    case 10 => Constant("v1_10_R1", false)
    case 11 => Constant("v1_11_R1", false)
    case 12 => Constant("v1_12_R1", false)
    case 13 => Constant("v1_13_R1", false)
    case 14 => Constant("v1_13_R2", false)
    case 15 => Constant("v1_14_R1", false)
    case 16 => Constant("v1_15_R1", false)
    case 17 => Constant("v1_16_R1", false)
    case 18 => Constant("v1_16_R2", false)
    case 19 => Constant("v1_16_R3", false)
    case 20 => Constant("v1_17_R1", true)
    case 21 => Constant("v1_18_R1", true)
    case 22 => Constant("v1_18_R2", true)
    case 23 => Constant("v1_19_R1", true)
    case 24 => Constant("v1_19_R2", true)
    case 25 => Constant("v1_19_R3", true)
    case 26 => Constant("v1_20_R1", true)
    case 27 => Constant("v1_20_R2", true)
    case 28 => Constant("v1_20_R3", true)
  }

  /** `name()`. */
  function Name(v: PackageVersion): (name: string)
    ensures name == "NONE" <==> v == NONE
  {
    Declared(v).name
  }

  /** The `useModern` flag the constant was constructed with. */
  function IsModern(v: PackageVersion): (modern: bool)
    ensures modern <==> v1_17_R1 <= v
  {
    Declared(v).useModern
  }

  /** The exceptions this enum throws. */
  datatype VersionError =
    | ThisIsNone                                    // IllegalArgumentException "this cannot be NONE"
    | OtherIsNone                                   // IllegalArgumentException "other cannot be NONE"
    | UnknownPackageVersion(versionString: string)  // IllegalStateException "Unknown package version: ..."

  /** The nms prefix without the version component. */
  const NMS: string := "net.minecraft.server"
  /** The nms prefix used from 1.17 on, which has no version component. */
  const NMS_MODERN: string := "net.minecraft."
  /** The obc prefix without the version component. */
  const OBC: string := "org.bukkit.craftbukkit"

  // ---------------------------------------------------------------------
  // Names

  /** The Minecraft release a versioned constant's name `v1_<minor>_R<revision>`
    * stands for, read off as the number `<minor><revision>` (`v1_20_R3` is 203);
    * 0 for a name of any other length, such as NONE's. */
  ghost function ReleaseNumber(name: string): int {
    if |name| == 7 then
      Digit(name[3]) * 10 + Digit(name[6])
    else if |name| == 8 then
      (Digit(name[3]) * 10 + Digit(name[4])) * 10 + Digit(name[7])
    else 0
  }

  ghost function Digit(c: char): int {
    c as int - '0' as int
  }

  /** Each constant names a later release than the one declared before it.
    * The three range lemmas below only split this case analysis over the
    * declaration into parts small enough for the solver. */
  lemma ReleaseNumberSteps(v: PackageVersion)
    requires v + 1 < COUNT
    ensures ReleaseNumber(Name(v)) < ReleaseNumber(Name(v + 1))
  {
    if v < 10 {
      EarlyReleaseNumberSteps(v);
    } else if v < 19 {
      MiddleReleaseNumberSteps(v);
    } else {
      LateReleaseNumberSteps(v);
    }
  }

  lemma EarlyReleaseNumberSteps(v: PackageVersion)
    requires v < 10
    ensures ReleaseNumber(Name(v)) < ReleaseNumber(Name(v + 1))
  {
  }

  lemma MiddleReleaseNumberSteps(v: PackageVersion)
    requires 10 <= v < 19
    ensures ReleaseNumber(Name(v)) < ReleaseNumber(Name(v + 1))
  {
  }

  lemma LateReleaseNumberSteps(v: PackageVersion)
    requires 19 <= v < COUNT - 1
    ensures ReleaseNumber(Name(v)) < ReleaseNumber(Name(v + 1))
  {
  }

  /** Declaration order is release order: a later constant names a later release. */
  lemma {:induction false} ReleaseNumberIncreasing(a: PackageVersion, b: PackageVersion)
    requires a < b
    ensures ReleaseNumber(Name(a)) < ReleaseNumber(Name(b))
    decreases b - a
  {
    ReleaseNumberSteps(a);
    if a + 1 < b {
      ReleaseNumberIncreasing(a + 1, b);
    }
  }

  /** No two constants share a name. */
  lemma NameInjective(a: PackageVersion, b: PackageVersion)
    requires Name(a) == Name(b)
    ensures a == b
  {
    if a < b {
      ReleaseNumberIncreasing(a, b);
    } else if b < a {
      ReleaseNumberIncreasing(b, a);
    }
  }

  /** `valueOf(name)` searched from ordinal `from` on: the first constant there
    * called `name`. */
  function FindByName(from: nat, name: string): (r: Option<PackageVersion>)
    requires from <= COUNT
    ensures r.Some? ==> from <= r.value && Name(r.value) == name
    decreases COUNT - from
  {
    if from == COUNT then None
    else if Name(from) == name then Some(from)
    else FindByName(from + 1, name)
  }

  /** The search fails exactly when no constant from `from` on has the name. */
  lemma {:induction false} FindByNameMissing(from: nat, name: string)
    requires from <= COUNT
    ensures FindByName(from, name).None? <==> forall v: PackageVersion :: from <= v ==> Name(v) != name
    decreases COUNT - from
  {
    if from < COUNT {
      FindByNameMissing(from + 1, name);
    }
  }

  /** `valueOf(name)`: the constant with this exact name; None where Java throws
    * IllegalArgumentException. */
  function ValueOf(name: string): (r: Option<PackageVersion>)
    ensures r.Some? ==> Name(r.value) == name
  {
    FindByName(0, name)
  }

  /** `valueOf` fails exactly on the strings that name no constant. */
  lemma ValueOfMissing(name: string)
    ensures ValueOf(name).None? <==> forall v: PackageVersion :: Name(v) != name
  {
    FindByNameMissing(0, name);
  }

  /** Looking up a constant's own name gives back that constant. */
  lemma ValueOfName(v: PackageVersion)
    ensures ValueOf(Name(v)) == Some(v)
  {
    ValueOfMissing(Name(v));
    NameInjective(ValueOf(Name(v)).value, v);
  }

  // ---------------------------------------------------------------------
  // Package prefixes

  /** `getPackageComponent()`: ".<name>." for a versioned constant, "." for NONE. */
  function PackageComponent(v: PackageVersion): (r: string)
    ensures v == NONE ==> r == "."
    ensures v != NONE ==>
      |r| == |Name(v)| + 2 && r[0] == '.' && r[|r| - 1] == '.' && r[1..|r| - 1] == Name(v)
  {
    if v == NONE then "." else "." + Name(v) + "."
  }

  /** Regrouping a name spliced between two separators. */
  lemma Splice(head: string, dot: string, name: string)
    ensures head + (dot + name + dot) == (head + dot) + name + dot
  {
  }

  /** The two versioned prefixes end in a dot once the package component is added. */
  lemma DottedPrefixes()
    ensures NMS + "." == "net.minecraft.server."
    ensures OBC + "." == "org.bukkit.craftbukkit."
  {
  }

  /** The final field `nmsPrefix`, fixed by the enum constructor: versionless
    * for a modern constant and for NONE, versioned for the other legacy ones. */
  function NmsPrefix(v: PackageVersion): (prefix: string)
    ensures IsModern(v) ==> prefix == "net.minecraft."
    ensures v == NONE ==> prefix == "net.minecraft.server."
    ensures v != NONE && !IsModern(v) ==> prefix == "net.minecraft.server." + Name(v) + "."
  {
    if IsModern(v) then NMS_MODERN
    else
      DottedPrefixes();
      Splice(NMS, ".", Name(v));
      NMS + PackageComponent(v)
  }

  /** The final field `obcPrefix`, fixed by the enum constructor: versioned for
    * every constant but NONE, modern or not. */
  function ObcPrefix(v: PackageVersion): (prefix: string)
    ensures v == NONE ==> prefix == "org.bukkit.craftbukkit."
    ensures v != NONE ==> prefix == "org.bukkit.craftbukkit." + Name(v) + "."
  {
    DottedPrefixes();
    Splice(OBC, ".", Name(v));
    OBC + PackageComponent(v)
  }

  /** `nms(className)`: the fully qualified name of a net.minecraft class. */
  function Nms(v: PackageVersion, className: string): (name: string)
    ensures IsModern(v) ==> name == "net.minecraft." + className
    ensures v == NONE ==> name == "net.minecraft.server." + className
    ensures v != NONE && !IsModern(v) ==> name == "net.minecraft.server." + Name(v) + "." + className
  {
    NmsPrefix(v) + className
  }

  /** `obc(className)`: the fully qualified name of an org.bukkit.craftbukkit class. */
  function Obc(v: PackageVersion, className: string): (name: string)
    ensures v == NONE ==> name == "org.bukkit.craftbukkit." + className
    ensures v != NONE ==> name == "org.bukkit.craftbukkit." + Name(v) + "." + className
  {
    ObcPrefix(v) + className
  }

  // ---------------------------------------------------------------------
  // Comparisons

  /** `checkComparable(other)`: the exception it throws, if any. */
  function CheckComparable(v: PackageVersion, other: PackageVersion): (r: Option<VersionError>)
    ensures r.None? <==> v != NONE && other != NONE
  {
    if v == NONE then Some(ThisIsNone)
    else if other == NONE then Some(OtherIsNone)
    else None
  }

  /** `isBefore(other)`: compares ordinals. */
  function IsBefore(v: PackageVersion, other: PackageVersion): (r: Result<bool, VersionError>)
    ensures v == NONE ==> r == Failure(ThisIsNone)
    ensures v != NONE && other == NONE ==> r == Failure(OtherIsNone)
    ensures v != NONE && other != NONE ==> r.Success?
  {
    match CheckComparable(v, other)
    case Some(e) => Failure(e)
    case None => Success(v < other)
  }

  /** `isAfter(other)`: compares ordinals. */
  function IsAfter(v: PackageVersion, other: PackageVersion): (r: Result<bool, VersionError>)
    ensures v == NONE ==> r == Failure(ThisIsNone)
    ensures v != NONE && other == NONE ==> r == Failure(OtherIsNone)
    ensures v != NONE && other != NONE ==> r.Success?
  {
    match CheckComparable(v, other)
    case Some(e) => Failure(e)
    case None => Success(v > other)
  }

  /** `isBeforeOrEq(other)`: compares ordinals. */
  function IsBeforeOrEq(v: PackageVersion, other: PackageVersion): (r: Result<bool, VersionError>)
    ensures v == NONE ==> r == Failure(ThisIsNone)
    ensures v != NONE && other == NONE ==> r == Failure(OtherIsNone)
    ensures v != NONE && other != NONE ==> r.Success?
  {
    match CheckComparable(v, other)
    case Some(e) => Failure(e)
    case None => Success(v <= other)
  }

  /** `isAfterOrEq(other)`: compares ordinals. */
  function IsAfterOrEq(v: PackageVersion, other: PackageVersion): (r: Result<bool, VersionError>)
    ensures v == NONE ==> r == Failure(ThisIsNone)
    ensures v != NONE && other == NONE ==> r == Failure(OtherIsNone)
    ensures v != NONE && other != NONE ==> r.Success?
  {
    match CheckComparable(v, other)
    case Some(e) => Failure(e)
    case None => Success(v >= other)
  }

  /** `isBefore` is a strict total order on the constants other than NONE, and
    * the three other comparisons are derived from it. */
  lemma TotalOrder(a: PackageVersion, b: PackageVersion)
    requires a != NONE && b != NONE
    ensures a == b ==> !IsBefore(a, b).value && !IsAfter(a, b).value
    ensures a != b ==> IsBefore(a, b).value != IsAfter(a, b).value
    ensures IsAfter(a, b).value == IsBefore(b, a).value
    ensures IsBeforeOrEq(a, b).value == (IsBefore(a, b).value || a == b)
    ensures IsAfterOrEq(a, b).value == !IsBefore(a, b).value
  {
  }

  /** `isBefore` is transitive. */
  lemma IsBeforeTransitive(a: PackageVersion, b: PackageVersion, c: PackageVersion)
    requires a != NONE && b != NONE && c != NONE
    requires IsBefore(a, b).value && IsBefore(b, c).value
    ensures IsBefore(a, c).value
  {
  }

  /** NONE is never comparable: every comparison throws, whichever side it is on. */
  lemma NoneNotComparable(v: PackageVersion)
    ensures IsBefore(NONE, v).Failure? && IsBefore(v, NONE).Failure?
    ensures IsAfter(NONE, v).Failure? && IsAfter(v, NONE).Failure?
    ensures IsBeforeOrEq(NONE, v).Failure? && IsBeforeOrEq(v, NONE).Failure?
    ensures IsAfterOrEq(NONE, v).Failure? && IsAfterOrEq(v, NONE).Failure?
  {
  }

  /** The comparisons order constants by the Minecraft release their names stand for. */
  lemma ComparisonsFollowReleases(a: PackageVersion, b: PackageVersion)
    requires a != NONE && b != NONE
    ensures IsBefore(a, b).value <==> ReleaseNumber(Name(a)) < ReleaseNumber(Name(b))
    ensures IsAfter(a, b).value <==> ReleaseNumber(Name(a)) > ReleaseNumber(Name(b))
  {
    if a < b {
      ReleaseNumberIncreasing(a, b);
    } else if b < a {
      ReleaseNumberIncreasing(b, a);
    }
  }

  /** The modern flag is set exactly on v1_17_R1 and every later constant. */
  lemma ModernFromV1_17(v: PackageVersion)
    ensures IsModern(v) <==> v != NONE && IsAfterOrEq(v, v1_17_R1).value
  {
  }

  // ---------------------------------------------------------------------
  // Names built from the prefixes

  /** Strings that agree around a middle part agree on the middle part. */
  lemma CancelAround(prefix: string, x: string, y: string, suffix: string)
    requires prefix + x + suffix == prefix + y + suffix
    ensures x == y
  {
    var s := prefix + x + suffix;
    assert |x| == |y|;
    assert x == s[|prefix|..|prefix| + |x|];
    assert y == (prefix + y + suffix)[|prefix|..|prefix| + |y|];
  }

  /** Two constants give the same nms name exactly when they are the same
    * constant or both modern. */
  lemma NmsDistinct(a: PackageVersion, b: PackageVersion, className: string)
    ensures Nms(a, className) == Nms(b, className) <==> a == b || (IsModern(a) && IsModern(b))
  {
    if Nms(a, className) == Nms(b, className) && !IsModern(a) && !IsModern(b) {
      CancelAround(NMS, PackageComponent(a), PackageComponent(b), className);
      if a != NONE && b != NONE {
        NameInjective(a, b);
      }
    }
  }

  /** Two constants give the same obc name exactly when they are the same constant. */
  lemma ObcDistinct(a: PackageVersion, b: PackageVersion, className: string)
    ensures Obc(a, className) == Obc(b, className) <==> a == b
  {
    if Obc(a, className) == Obc(b, className) {
      CancelAround(OBC, PackageComponent(a), PackageComponent(b), className);
      if a != NONE && b != NONE {
        NameInjective(a, b);
      }
    }
  }

  // ---------------------------------------------------------------------
  // The runtime version, read once from the running server's class

  /** The simple name of the server implementation class. */
  const CRAFT_SERVER: string := "CraftServer"
  /** The package every CraftBukkit server class lives under, dot included. */
  const CRAFTBUKKIT_PACKAGE: string := "org.bukkit.craftbukkit."
  /** The class name of an unversioned CraftBukkit server. */
  const UNVERSIONED_CRAFT_SERVER: string := "org.bukkit.craftbukkit.CraftServer"

  /** Java's `String.startsWith`. */
  predicate StartsWith(s: string, prefix: string) {
    |prefix| <= |s| && s[..|prefix|] == prefix
  }

  /** The two write-once statics: `RUNTIME_VERSION_STRING`, and `RUNTIME_VERSION`
    * with None standing for null. */
  datatype RuntimeState = RuntimeState(versionString: string, version: Option<PackageVersion>)

  /** The package version string the static initializer reads off the server class
    * (its simple name, full name and package name): the package suffix after
    * `org.bukkit.craftbukkit.` for a versioned CraftServer, "" otherwise. */
  function ServerVersionString(simpleName: string, className: string, packageName: string): (s: string)
    ensures s != "" ==>
      simpleName == CRAFT_SERVER && className != UNVERSIONED_CRAFT_SERVER
      && StartsWith(packageName, CRAFTBUKKIT_PACKAGE)
    ensures (simpleName == CRAFT_SERVER && className != UNVERSIONED_CRAFT_SERVER
             && StartsWith(packageName, CRAFTBUKKIT_PACKAGE)) ==> packageName == CRAFTBUKKIT_PACKAGE + s
  {
    if simpleName == CRAFT_SERVER && className != UNVERSIONED_CRAFT_SERVER
      && StartsWith(packageName, CRAFTBUKKIT_PACKAGE)
    then packageName[|CRAFTBUKKIT_PACKAGE|..]
    else ""
  }

  /** The constant the static initializer settles on for a version string:
    * NONE for "", the constant of that name otherwise, None (null) when no
    * constant has that name. */
  function DetectVersion(versionString: string): (r: Option<PackageVersion>)
    ensures versionString == "" ==> r == Some(NONE)
    ensures versionString != "" && r.Some? ==> Name(r.value) == versionString
    ensures versionString != "" ==> (r.None? <==> forall v: PackageVersion :: Name(v) != versionString)
  {
    ValueOfMissing(versionString);
    if versionString == "" then Some(NONE) else ValueOf(versionString)
  }

  /** The statics as the static initializer leaves them. */
  function InitialState(simpleName: string, className: string, packageName: string): (state: RuntimeState)
    ensures state.versionString == "" ==> state.version == Some(NONE)
    ensures state.versionString != "" && state.version.Some? ==> Name(state.version.value) == state.versionString
    ensures state.version.None? <==>
      state.versionString != "" && forall v: PackageVersion :: Name(v) != state.versionString
    ensures state.versionString != "" ==>
      simpleName == CRAFT_SERVER && packageName == CRAFTBUKKIT_PACKAGE + state.versionString
  {
    var versionString := ServerVersionString(simpleName, className, packageName);
    RuntimeState(versionString, DetectVersion(versionString))
  }

  /** The static initializer, step by step. */
  method StaticInit(simpleName: string, className: string, packageName: string) returns (state: RuntimeState)
    ensures state == InitialState(simpleName, className, packageName)
  {
    var serverVersion := "";
    if simpleName == CRAFT_SERVER && className != UNVERSIONED_CRAFT_SERVER {
      var obcPackage := packageName;
      if StartsWith(obcPackage, CRAFTBUKKIT_PACKAGE) {
        serverVersion := obcPackage[|CRAFTBUKKIT_PACKAGE|..];
      }
    }
    var runtimeVersion: Option<PackageVersion> := None;
    if serverVersion == "" {
      runtimeVersion := Some(NONE);
    } else {
      runtimeVersion := ValueOf(serverVersion);
    }
    state := RuntimeState(serverVersion, runtimeVersion);
  }

  /** `runtimeVersion()`: the detected constant, or IllegalStateException when
    * the version string named no constant. */
  function RuntimeVersion(state: RuntimeState): (r: Result<PackageVersion, VersionError>)
    ensures r.Failure? <==> state.version.None?
  {
    match state.version
    case None => Failure(UnknownPackageVersion(state.versionString))
    case Some(v) => Success(v)
  }

  /** What `runtimeVersion()` gives on a server: NONE when no version string was
    * found, the constant with exactly that name when there is one, and an
    * IllegalStateException carrying the string otherwise. */
  lemma RuntimeVersionDetected(simpleName: string, className: string, packageName: string)
    ensures ServerVersionString(simpleName, className, packageName) == "" ==>
      RuntimeVersion(InitialState(simpleName, className, packageName)) == Success(NONE)
    ensures forall v: PackageVersion ::
      Name(v) == ServerVersionString(simpleName, className, packageName) ==>
      RuntimeVersion(InitialState(simpleName, className, packageName)) == Success(v)
    ensures (ServerVersionString(simpleName, className, packageName) != ""
             && forall v: PackageVersion :: Name(v) != ServerVersionString(simpleName, className, packageName)) ==>
      RuntimeVersion(InitialState(simpleName, className, packageName))
        == Failure(UnknownPackageVersion(ServerVersionString(simpleName, className, packageName)))
  {
    var s := ServerVersionString(simpleName, className, packageName);
    forall v: PackageVersion | Name(v) == s
      ensures RuntimeVersion(InitialState(simpleName, className, packageName)) == Success(v)
    {
      ValueOfName(v);
    }
  }
}
