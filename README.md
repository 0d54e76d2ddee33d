# shadow-bukkit package versions, in Dafny

A model of the version-dependent core of shadow-bukkit, the Bukkit support layer of
the `shadow` reflection library:

- **`PackageVersion`** (module `PackageVersions`, `PackageVersion.dfy`): the closed
  enumeration of CraftBukkit package versions (`NONE`, `v1_7_R1` … `v1_20_R3`), the
  `net.minecraft` (nms) and `org.bukkit.craftbukkit` (obc) prefixes each constant
  derives when constructed, `nms(className)` and `obc(className)`, the guard
  `checkComparable` and the four ordinal comparisons, `valueOf`, the static initializer
  that reads the running server's package, and `runtimeVersion()`.
- **`ObfuscatedTarget.RESOLVER`** (module `ObfuscatedTarget`, `ObfuscatedTarget.dfy`):
  `lookupMethod` and `lookupField`, which pick the name of the first `@Mapping` whose
  version is the runtime version.

`Wrappers.dfy` holds `Option` (Java's `Optional`, or a nullable reference) and
`Result` (a value, or the exception a call throws).

How the Java maps to Dafny:

- An enum constant is its ordinal: `PackageVersion` is the subtype `0 <= ordinal < 29`,
  with one named constant per Java constant. `Declared` lists, in declaration order,
  each constant's `name()` and the `useModern` argument of its constructor. The
  comparisons compare ordinals exactly as the Java does.
- The per-constant final fields `nmsPrefix` and `obcPrefix` are the functions
  `NmsPrefix` and `ObcPrefix`. NONE's override of `getPackageComponent` is the
  NONE branch of `PackageComponent`.
- Thrown exceptions are `Failure` values of `VersionError`. `ThisIsNone` and
  `OtherIsNone` are the two IllegalArgumentExceptions of `checkComparable`.
  `UnknownPackageVersion(s)` is the IllegalStateException of `runtimeVersion()`.
- The server probe `Bukkit.getServer().getClass()` becomes three strings: the
  class's simple name, full name and package name.
- The two write-once statics `RUNTIME_VERSION_STRING` and `RUNTIME_VERSION` form the
  value `RuntimeState`. A null `RUNTIME_VERSION` is `None`. The static initializer
  is the imperative method `StaticInit`, proved equal to the function `InitialState`.
  `RuntimeVersion` and the lookups take that state as a parameter.
- `valueOf` is `ValueOf`, a search over the constants in declaration order. None
  stands where Java throws IllegalArgumentException.
- `Arrays.stream(...).filter(...).findFirst()` is the recursive `FindFirst`. The
  stream is lazy, so `runtimeVersion()` is evaluated once per element it examines.
  Its exception therefore surfaces only on a non-empty table.
- `ReleaseNumber` is a ghost decoder and nothing more: it reads `v1_<minor>_R<rev>`
  as the number `<minor><rev>`, and it is only used to prove that no two constants
  share a name and that declaration order is release order.

## Model

| member | source | states |
|---|---|---|
| PackageVersions.Declared | src/main/java/me/lucko/shadow/bukkit/PackageVersion.java:37-70 | the declaration passes `useModern` true exactly from v1_17_R1 on, and only the first constant is called NONE |
| PackageVersions.Name | src/main/java/me/lucko/shadow/bukkit/PackageVersion.java:37-70 | `name()` is "NONE" exactly for NONE |
| PackageVersions.IsModern | src/main/java/me/lucko/shadow/bukkit/PackageVersion.java:62-70 | the modern flag holds exactly for v1_17_R1 and the constants declared after it |
| PackageVersions.ReleaseNumberIncreasing | src/main/java/me/lucko/shadow/bukkit/PackageVersion.java:43-70 | constants are declared in release order: a later constant's name stands for a strictly later Minecraft release |
| PackageVersions.NameInjective | src/main/java/me/lucko/shadow/bukkit/PackageVersion.java:37-70 | no two constants share a `name()` |
| PackageVersions.FindByName | src/main/java/me/lucko/shadow/bukkit/PackageVersion.java:222 | a search from ordinal `from` only returns a constant at or after `from` whose name is the one sought |
| PackageVersions.FindByNameMissing | src/main/java/me/lucko/shadow/bukkit/PackageVersion.java:222 | that search finds nothing exactly when no constant at or after `from` has the name |
| PackageVersions.ValueOf | src/main/java/me/lucko/shadow/bukkit/PackageVersion.java:222 | `valueOf` only returns a constant with exactly the given name |
| PackageVersions.ValueOfMissing | src/main/java/me/lucko/shadow/bukkit/PackageVersion.java:221-225 | `valueOf` throws exactly on strings that name no constant |
| PackageVersions.ValueOfName | src/main/java/me/lucko/shadow/bukkit/PackageVersion.java:222 | `valueOf(v.name())` returns `v` for every constant, NONE included |
| PackageVersions.PackageComponent | src/main/java/me/lucko/shadow/bukkit/PackageVersion.java:100-102 | NONE (which overrides it)'s component is "."; every other constant's is its name wrapped in one dot on each side |
| PackageVersions.NmsPrefix | src/main/java/me/lucko/shadow/bukkit/PackageVersion.java:95-96 | the final `nmsPrefix` is `net.minecraft.` for a modern constant, `net.minecraft.server.` for NONE, and `net.minecraft.server.<name>.` for every other legacy constant |
| PackageVersions.ObcPrefix | src/main/java/me/lucko/shadow/bukkit/PackageVersion.java:97 | the final `obcPrefix` is `org.bukkit.craftbukkit.` for NONE and `org.bukkit.craftbukkit.<name>.` for every other constant, modern or not |
| PackageVersions.Nms | src/main/java/me/lucko/shadow/bukkit/PackageVersion.java:110-113 | `nms(className)` is `net.minecraft.<className>` for a modern constant, `net.minecraft.server.<className>` for NONE, and `net.minecraft.server.<name>.<className>` for every other legacy constant |
| PackageVersions.Obc | src/main/java/me/lucko/shadow/bukkit/PackageVersion.java:131-134 | `obc(className)` is `org.bukkit.craftbukkit.<className>` for NONE and `org.bukkit.craftbukkit.<name>.<className>` for every other constant |
| PackageVersions.NmsDistinct | src/main/java/me/lucko/shadow/bukkit/PackageVersion.java:95-113 | two constants give the same nms name exactly when they are the same constant or both modern |
| PackageVersions.ObcDistinct | src/main/java/me/lucko/shadow/bukkit/PackageVersion.java:131-134 | two constants give the same obc name exactly when they are the same constant |
| PackageVersions.ModernFromV1_17 | src/main/java/me/lucko/shadow/bukkit/PackageVersion.java:62-70 | the modern flag is set exactly on v1_17_R1 and every constant after it |
| PackageVersions.CheckComparable | src/main/java/me/lucko/shadow/bukkit/PackageVersion.java:146-154 | the guard throws exactly when either side is NONE |
| PackageVersions.IsBefore | src/main/java/me/lucko/shadow/bukkit/PackageVersion.java:162-165 | NONE as receiver throws "this cannot be NONE" first, NONE as argument throws "other cannot be NONE", and any other pair gives a value |
| PackageVersions.IsAfter | src/main/java/me/lucko/shadow/bukkit/PackageVersion.java:173-176 | the same three error and success cases as `isBefore` |
| PackageVersions.IsBeforeOrEq | src/main/java/me/lucko/shadow/bukkit/PackageVersion.java:184-187 | the same three error and success cases as `isBefore` |
| PackageVersions.IsAfterOrEq | src/main/java/me/lucko/shadow/bukkit/PackageVersion.java:195-198 | the same three error and success cases as `isBefore` |
| PackageVersions.TotalOrder | src/main/java/me/lucko/shadow/bukkit/PackageVersion.java:162-198 | on comparable constants, `isBefore` is irreflexive and trichotomous; `isAfter` is `isBefore` with the arguments swapped; `isBeforeOrEq` is `isBefore` or equality; `isAfterOrEq` is not `isBefore` |
| PackageVersions.IsBeforeTransitive | src/main/java/me/lucko/shadow/bukkit/PackageVersion.java:162-165 | `isBefore` is transitive |
| PackageVersions.NoneNotComparable | src/main/java/me/lucko/shadow/bukkit/PackageVersion.java:146-198 | every comparison with NONE on either side throws |
| PackageVersions.ComparisonsFollowReleases | src/main/java/me/lucko/shadow/bukkit/PackageVersion.java:162-176 | `isBefore` and `isAfter` agree with the order of the Minecraft releases the names stand for |
| PackageVersions.ServerVersionString | src/main/java/me/lucko/shadow/bukkit/PackageVersion.java:204-215 | the version string is non-empty only for a versioned CraftServer under `org.bukkit.craftbukkit.`; for such a server it is exactly the package suffix after that prefix |
| PackageVersions.DetectVersion | src/main/java/me/lucko/shadow/bukkit/PackageVersion.java:217-227 | "" gives NONE; any other string gives only the constant of that name, and gives null exactly when no constant has that name |
| PackageVersions.InitialState | src/main/java/me/lucko/shadow/bukkit/PackageVersion.java:203-228 | after static initialization: no version string means NONE; otherwise the version is the constant of that name, and null exactly when no constant has that name; a non-empty string is the package suffix of a CraftServer |
| PackageVersions.StaticInit | src/main/java/me/lucko/shadow/bukkit/PackageVersion.java:203-228 | the static initializer leaves the two statics as `InitialState` describes |
| PackageVersions.RuntimeVersion | src/main/java/me/lucko/shadow/bukkit/PackageVersion.java:235-240 | `runtimeVersion()` throws exactly when the detected version is null |
| PackageVersions.RuntimeVersionDetected | src/main/java/me/lucko/shadow/bukkit/PackageVersion.java:203-240 | on a server: no version string gives NONE; a string naming a constant gives that constant; any other string gives IllegalStateException carrying that string |
| ObfuscatedTarget.FindFirst | src/main/java/me/lucko/shadow/bukkit/ObfuscatedTarget.java:62-65 | an empty table gives nothing and never consults the runtime version. Otherwise an unknown runtime version throws. A found mapping is in the table and carries the runtime version. Nothing found means no mapping carries it |
| ObfuscatedTarget.LookupMethod | src/main/java/me/lucko/shadow/bukkit/ObfuscatedTarget.java:60-67 | no annotation gives empty. The lookup throws exactly for a non-empty table with an unknown runtime version, and then throws `runtimeVersion()`'s exception. A returned name is mapped to the runtime version in the table |
| ObfuscatedTarget.LookupField | src/main/java/me/lucko/shadow/bukkit/ObfuscatedTarget.java:70-77 | the same as `lookupMethod`, for fields |
| ObfuscatedTarget.EntryPointsAgree | src/main/java/me/lucko/shadow/bukkit/ObfuscatedTarget.java:60-77 | `lookupMethod` and `lookupField` return the same result on every input |
| ObfuscatedTarget.FindFirstWins | src/main/java/me/lucko/shadow/bukkit/ObfuscatedTarget.java:62-64 | the stream finds the first mapping, in array order, carrying the runtime version |
| ObfuscatedTarget.FirstMatchWins | src/main/java/me/lucko/shadow/bukkit/ObfuscatedTarget.java:60-67 | the name returned is that of the first mapping for the runtime version, even when later mappings carry the same version |
| ObfuscatedTarget.NoMatchGivesEmpty | src/main/java/me/lucko/shadow/bukkit/ObfuscatedTarget.java:60-67 | with a known runtime version and no mapping for it, the result is empty, not an error |
| ObfuscatedTarget.FindFirstSkips | src/main/java/me/lucko/shadow/bukkit/ObfuscatedTarget.java:63 | inserting a mapping for another version anywhere in the table does not change what the stream finds |
| ObfuscatedTarget.OtherVersionsIgnored | src/main/java/me/lucko/shadow/bukkit/ObfuscatedTarget.java:60-67 | matching is exact: a mapping for any other version, earlier or later, has no effect on the result wherever it stands |
| ObfuscatedTarget.EmptyTableNeverFails | src/main/java/me/lucko/shadow/bukkit/ObfuscatedTarget.java:60-77 | a missing annotation or an empty table gives empty, even when the runtime version is unknown |
| ObfuscatedTarget.UnknownVersionPropagates | src/main/java/me/lucko/shadow/bukkit/ObfuscatedTarget.java:60-67 | a non-empty table with an unknown runtime version throws `runtimeVersion()`'s IllegalStateException, carrying the version string |
| ObfuscatedTarget.ModernServerDetected | src/main/java/me/lucko/shadow/bukkit/PackageVersion.java:203-240 | a CraftServer in package `org.bukkit.craftbukkit.v1_17_R1` has runtime version `v1_17_R1` |
| ObfuscatedTarget.ModernServerScenario | src/main/java/me/lucko/shadow/bukkit/ObfuscatedTarget.java:60-67 | on that server, nms names carry no version, and the table `[(v1_8_R1, "a_obfuscated"), (v1_17_R1, "sendPacket")]` resolves to `sendPacket` |

## Left out

- `nmsClass` and `obcClass` are not modelled: they only pass the name to `Class.forName`, which loads a class by reflection.
- `Bukkit.getServer()` and reflection on the server class are not modelled. Their three outcomes (simple name, full name, package name) are parameters.
- A null `getPackage()` is not modelled. The static initializer calls it on any class whose simple name is `CraftServer` and whose full name is not `org.bukkit.craftbukkit.CraftServer`, before the prefix test. On Java 8 a class without package information has a null package; the call then throws NullPointerException and the class fails to initialize. The model always has a package name and does not capture that failure.
- The JVM runs the static initializer once and without races. The model computes the state once as a value; class-initialization locking is not modelled.
- `Objects.requireNonNull` checks and the `@NonNull` annotations are not modelled: Dafny values are never null.
- Exception messages are not modelled: each exception is a `VersionError` constructor, and the message's version string is a constructor field.
- `getAnnotation`, `Method` and the `TargetResolver` interface are not modelled: the annotation is a value `Option<seq<Mapping>>`, and the `shadowClass` and `targetClass` arguments, which the resolver ignores, are dropped.
- `Mapping.java` is not part of this model. `Mapping` is modelled from its two accessors, `version()` and `value()`.
- `BukkitShadowFactory` is not part of this model.
- `ValueOf`: modelled as a search over the constants in declaration order, not as Java's name-to-constant hash map. `ValueOfName` and `ValueOfMissing` show the two agree on every string.
