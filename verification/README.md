# sr25519 native-library bootstrap, modelled in Dafny

This project models the class `Native` of the substrate-client crypto module.
That class is the entry point to the sr25519 (Schnorrkel) native backend. It does three things:

- It fixes the byte lengths of sr25519 key material: signature 64, secret key 32 + 32 = 64, public key 32, key pair 64 + 32 = 96, chain code 32 (module `KeyLengths`).
- It detects the platform. The `os.name` and `os.arch` properties are lower-cased and tested for substrings. An if/else chain then picks one of the directories `windows`, `x86_64-linux`, `aarch64-linux` or `macos`, or fails because the OS is not supported (modules `Text` and `Platform`). `Platform` also states the same choice as an ordered rule table. A lemma proves that the chain always picks the tag of the first rule that matches.
- It loads the library. The static initializer takes the path from the `SUBSTRATE_CLIENT_CRYPTO_LIB_PATH` environment variable when that is set and non-empty. Otherwise it extracts `/include/<dir>/<mapped library name>` from the class path into a fresh temporary directory. Then it calls `System.load` (modules `Resources` and `Bootstrap`).

`Bootstrap.Native` is a class whose fields hold the state that loading changes: files and directories on disk, the paths registered with `deleteOnExit`, and the loaded library. Its methods follow the Java statements in order. Each method is specified by a function of the old state (`Extraction`, `LoadStep`, `Boot`), and the lemmas next to those functions state what loading promises. The running JVM is the value `Host`, which holds the two properties, the environment, the class-path resources, the result of `System.mapLibraryName("jni_crypto")`, `java.io.tmpdir` and the working directory. The random part of the temporary directory's name and the I/O failures are inputs of the methods.

Three facts about the code shape the model:

- No byte lengths are checked before the native calls.
- The class does not catch or remember a failed initialization; the exception leaves the static initializer.
- Every failure is an exception, not a typed error value. Here those exceptions are the cases of `Errors.BootError`, and `Errors.Message` gives the message each one carries.

## Model

| member | source | states |
|---|---|---|
| KeyLengths.DerivedLengths | crypto/src/main/java/com/strategyobject/substrateclient/crypto/sr25519/Native.java:14-20 | the secret key is 32 + 32 = 64 bytes and the key pair is secret key + public key = 96 bytes |
| Text.ToLower | crypto/src/main/java/com/strategyobject/substrateclient/crypto/sr25519/Native.java:24-25 | lower-casing keeps the length, maps each character to its lower-case form and leaves no upper-case letter |
| Text.ToLowerFixesExactlyLower | crypto/src/main/java/com/strategyobject/substrateclient/crypto/sr25519/Native.java:24-25 | lower-casing leaves a string unchanged if and only if it has no upper-case letter |
| Text.ToLowerIdempotent | crypto/src/main/java/com/strategyobject/substrateclient/crypto/sr25519/Native.java:24-25 | lower-casing an already lower-cased name changes nothing |
| Text.Contains | crypto/src/main/java/com/strategyobject/substrateclient/crypto/sr25519/Native.java:26-30 | the substring test can hold only when the key is no longer than the name, and always holds for the empty key |
| Text.ContainsIffOccurs | crypto/src/main/java/com/strategyobject/substrateclient/crypto/sr25519/Native.java:26-30 | the substring test holds exactly when the key occurs at some position of the name (both directions) |
| Platform.DetectFlags | crypto/src/main/java/com/strategyobject/substrateclient/crypto/sr25519/Native.java:24-30 | each flag is a substring test on the lower-cased property, so the OS flags need an OS name of at least 3 (Windows, macOS) or 5 (Linux) characters and the architecture flags an architecture name of at least 5 |
| Platform.SelectTag | crypto/src/main/java/com/strategyobject/substrateclient/crypto/sr25519/Native.java:52-63 | the chain picks a platform whose flags hold and none of higher priority holds (Windows, then Linux x86-64, then Linux AArch64, then macOS); it fails if and only if no platform's flags hold, and then with the unsupported-OS error |
| Platform.Resolve | crypto/src/main/java/com/strategyobject/substrateclient/crypto/sr25519/Native.java:24-63 | the platform chosen for the two properties has its flags set; the only failure is the unsupported-OS error, which every OS name shorter than 3 characters gets |
| Platform.ResolveWindows | crypto/src/main/java/com/strategyobject/substrateclient/crypto/sr25519/Native.java:53-54 | the Windows directory is chosen if and only if the lower-cased OS name contains "win", whatever the architecture |
| Platform.ResolveX86_64Linux | crypto/src/main/java/com/strategyobject/substrateclient/crypto/sr25519/Native.java:55-56 | x86_64-linux is chosen if and only if the OS is not read as Windows, contains "linux", and the architecture contains "amd64" or "x86_64" |
| Platform.ResolveAarch64Linux | crypto/src/main/java/com/strategyobject/substrateclient/crypto/sr25519/Native.java:57-58 | aarch64-linux is chosen if and only if the OS is Linux and not Windows, the x86-64 test failed and the architecture contains "aarch64" |
| Platform.ResolveMacOS | crypto/src/main/java/com/strategyobject/substrateclient/crypto/sr25519/Native.java:59-60 | macos is chosen if and only if the OS contains "mac", is not read as Windows, and no Linux rule applied; the architecture is otherwise ignored |
| Platform.ResolveUnsupported | crypto/src/main/java/com/strategyobject/substrateclient/crypto/sr25519/Native.java:61-62 | resolution fails if and only if no rule applies, and then always with the unsupported-OS error |
| Platform.ResolveIgnoresCase | crypto/src/main/java/com/strategyobject/substrateclient/crypto/sr25519/Native.java:24-30 | resolving the names and resolving their lower-cased forms give the same result |
| Platform.FirstMatch | crypto/src/main/java/com/strategyobject/substrateclient/crypto/sr25519/Native.java:52-63 | the first-match rule over an ordered table: it finds a tag exactly when some rule matches, and the tag it finds belongs to a matching rule that no earlier rule precedes |
| Platform.ResolveIsFirstTableMatch | crypto/src/main/java/com/strategyobject/substrateclient/crypto/sr25519/Native.java:52-63 | the if/else chain returns the tag of the first matching rule of the ordered table (Windows, Linux x86-64, Linux AArch64, macOS) and fails exactly when none matches |
| Platform.ResolveWindowsHost | crypto/src/main/java/com/strategyobject/substrateclient/crypto/sr25519/Native.java:53-54 | an OS name that lower-cases to "windows 10" resolves to windows on every architecture |
| Platform.ResolveLinuxAmd64Host | crypto/src/main/java/com/strategyobject/substrateclient/crypto/sr25519/Native.java:55-56 | an OS name that lower-cases to "linux" on an architecture that lower-cases to "amd64" resolves to x86_64-linux |
| Platform.ResolveLinuxAarch64Host | crypto/src/main/java/com/strategyobject/substrateclient/crypto/sr25519/Native.java:57-58 | "linux" on "aarch64" (after lower-casing) resolves to aarch64-linux |
| Platform.ResolveMacHost | crypto/src/main/java/com/strategyobject/substrateclient/crypto/sr25519/Native.java:59-60 | "Mac OS X" (lower-cased "mac os x") resolves to macos on every architecture |
| Platform.ResolveLinuxArmHost | crypto/src/main/java/com/strategyobject/substrateclient/crypto/sr25519/Native.java:61-62 | "linux" on "arm" (after lower-casing) is unsupported |
| Platform.ResolveFreeBsdHost | crypto/src/main/java/com/strategyobject/substrateclient/crypto/sr25519/Native.java:61-62 | "FreeBSD" (lower-cased "freebsd") is unsupported on every architecture |
| Platform.DarwinReadsAsWindows | crypto/src/main/java/com/strategyobject/substrateclient/crypto/sr25519/Native.java:26-26 | because the Windows test is a bare substring test and comes first, an OS name that lower-cases to "darwin" resolves to windows |
| Resources.ResourcePath | crypto/src/main/java/com/strategyobject/substrateclient/crypto/sr25519/Native.java:65-66 | the resource path starts with "/include/", has the directory name between it and a "/", and ends with the file name |
| Resources.ParseResourcePathRoundTrip | crypto/src/main/java/com/strategyobject/substrateclient/crypto/sr25519/Native.java:65-66 | the resource path "/include/" + directory + "/" + file name can be parsed back to exactly the platform and file name |
| Resources.ParseResourcePathSound | crypto/src/main/java/com/strategyobject/substrateclient/crypto/sr25519/Native.java:65-66 | every path the parser accepts is the resource path of the platform and file name it returns |
| Resources.ResourcePathInjective | crypto/src/main/java/com/strategyobject/substrateclient/crypto/sr25519/Native.java:65-66 | two resource paths are equal if and only if their platforms and their file names are equal |
| Resources.ResourcePathExample | crypto/src/main/java/com/strategyobject/substrateclient/crypto/sr25519/Native.java:65-66 | the Linux x86-64 build of libjni_crypto.so is looked up at /include/x86_64-linux/libjni_crypto.so |
| Bootstrap.Extraction | crypto/src/main/java/com/strategyobject/substrateclient/crypto/sr25519/Native.java:49-84 | extraction never loads; it fails only with the unsupported-OS, not-found or I/O error, and the first two leave the state unchanged; on success the returned path is a file on disk, the temporary directory is the one new directory, and the directory and then the library are registered for deletion |
| Bootstrap.LoadStep | crypto/src/main/java/com/strategyobject/substrateclient/crypto/sr25519/Native.java:41-41 | System.load succeeds exactly when the path is absolute and names an existing file, and then records it as loaded and returns it; on failure it reports that path; disk and registrations never change |
| Bootstrap.Boot | crypto/src/main/java/com/strategyobject/substrateclient/crypto/sr25519/Native.java:32-47 | the initializer succeeds only by loading the absolute path it returns, which exists on disk; on failure nothing more is loaded; with a set, non-empty override the disk and the registrations are untouched |
| Bootstrap.ExtractedLibInsideTempDir | crypto/src/main/java/com/strategyobject/substrateclient/crypto/sr25519/Native.java:77-82 | the returned path is the library file name inside the temporary directory, made absolute, and it is absolute |
| Bootstrap.ExtractionUnsupported | crypto/src/main/java/com/strategyobject/substrateclient/crypto/sr25519/Native.java:61-62 | an unsupported host fails with the unsupported-OS error, whose message is "JNI library can't be loaded because OS wasn't detected as supported.", and leaves the state unchanged |
| Bootstrap.ExtractionResourceMissing | crypto/src/main/java/com/strategyobject/substrateclient/crypto/sr25519/Native.java:69-72 | a missing resource fails with the not-found error, whose message is "Library wasn't found.", before any temporary directory is created |
| Bootstrap.ExtractionSucceeds | crypto/src/main/java/com/strategyobject/substrateclient/crypto/sr25519/Native.java:74-82 | for a well-formed host, on success exactly one new directory appears, it and the library file are registered for deletion in that order, the file holds the resource's bytes, no other file changes, and its absolute path is returned |
| Bootstrap.ExtractionIoFailure | crypto/src/main/java/com/strategyobject/substrateclient/crypto/sr25519/Native.java:74-80 | an I/O failure gives the I/O error; a failed directory creation changes nothing, a failed copy leaves the directory created and registered but no file |
| Bootstrap.ExtractionOnlyAdds | crypto/src/main/java/com/strategyobject/substrateclient/crypto/sr25519/Native.java:69-82 | extraction loads nothing and removes no file, directory or registration |
| Bootstrap.BootUsesOverride | crypto/src/main/java/com/strategyobject/substrateclient/crypto/sr25519/Native.java:34-41 | a set, non-empty override is loaded as it is: no directory, file or registration is created, and the load alone decides success |
| Bootstrap.BootExtractsWithoutOverride | crypto/src/main/java/com/strategyobject/substrateclient/crypto/sr25519/Native.java:36-41 | for a well-formed host, an absent or empty override always leads to extraction; the initializer's result is extraction's, and a successfully extracted file is loaded |
| Bootstrap.BootOverrideExamples | crypto/src/main/java/com/strategyobject/substrateclient/crypto/sr25519/Native.java:34-41 | a relative override fails to load; an absolute override naming an existing file is loaded |
| Bootstrap.Native.Load | crypto/src/main/java/com/strategyobject/substrateclient/crypto/sr25519/Native.java:41-41 | System.load loads an absolute path to an existing file and otherwise fails with a load error |
| Bootstrap.Native.CopyLibraryFromResourcesToTempDir | crypto/src/main/java/com/strategyobject/substrateclient/crypto/sr25519/Native.java:49-84 | the method's new state and result are those of the extraction function applied to the old state |
| Bootstrap.Native.StaticInitializer | crypto/src/main/java/com/strategyobject/substrateclient/crypto/sr25519/Native.java:32-47 | the method's new state and result are those of the initializer function applied to the old state |

## Left out

- The eight `static native` methods (`deriveKeyPairHard`, `deriveKeyPairSoft`, `derivePublicSoft`, `fromSeed`, `fromPair`, `sign`, `verify`, `agree`, lines 86-100) are not modelled. They are foreign calls into the Rust backend, whose curve arithmetic is not visible. The Java side checks no lengths before calling them, so there is nothing on the managed side to state.
- `String.toLowerCase` lower-cases only the ASCII letters A-Z here. Its locale-dependent and non-ASCII mappings are not modelled.
- `System.getProperty`, `System.getenv` and `System.mapLibraryName` are not modelled. Their results are fields of `Host`.
- `Files.createTempDirectory` is not modelled. The random part of its name is an input. The methods require the resulting directory not to exist, which the JDK ensures by retrying with a new name.
- `deleteOnExit` is recorded, not executed. Nothing models deletion at exit, or the fact that a non-empty directory is not deleted (line 78).
- A copy that fails after writing part of the file is modelled as writing no file. An `IOException` from closing the resource stream is not modelled.
- `System.load` succeeds when the path is absolute and the file exists. Whether the file is a valid shared library for the platform is not modelled.
- The lemmas about successful extraction require a well-formed host (`Bootstrap.WellFormed`): an absolute working directory and a mapped library name that is non-empty and holds no `/`. `System.mapLibraryName` always gives such a name. For other names `Path.resolve` behaves differently from `Join`, and that case is not modelled.
- Paths use `/` only and are not normalized. Windows path syntax is not modelled.
- The Java exception types are not modelled separately. `RuntimeException`, an `IOException` wrapped in `RuntimeException`, `UnsatisfiedLinkError` and the JVM's `ExceptionInInitializerError` all become one `BootError` value per failure.
- One-time class initialization and its thread safety are not modelled. The model describes a single run of the static initializer. After a failed run the JVM marks the class erroneous, and every later use throws `NoClassDefFoundError` without running the initializer again; that is not modelled either.
- Logging and `printStackTrace` are not modelled.
- `rpc/rpc-api/src/main/java/com/strategyobject/substrateclient/rpc/api/weights/DispatchInfo.java` is not part of this model. It is a data holder with no logic.
