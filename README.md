# SimulateTablet: a Dafny model

A Zygisk module that makes WeChat (`com.tencent.mm`) see a Samsung tablet. Zygisk calls
two hooks for every application process that Zygote forks:

- **`preAppSpecialize`** classifies the process. It takes the package name from the
  process's data directory (the text after the last `/`). If that is not WeChat's name,
  it falls back to a substring match on the process's `nice_name`. For WeChat it sets
  `FORCE_DENYLIST_UNMOUNT`. For every other process it sets `DLCLOSE_MODULE_LIBRARY`,
  which unloads the module.
- **`postAppSpecialize`** classifies the process again and, for WeChat, overwrites three
  static fields of `android.os.Build`: `MANUFACTURER` = `samsung`, `BRAND` = `samsung`,
  `MODEL` = `SM-F9560`. The overwrite is all-or-nothing. It writes only after the class,
  all three fields and all three new strings have been obtained.

The model has five modules:

- `Wrappers` defines `Option`. `None` stands for a null pointer.
- `CStrings` defines `strrchr` (`LastIndexOf`) and `strstr` (`Contains`) over `string`.
- `PackageName` holds the extractor `Extract`. Its `mallocOk` argument is the outcome of
  the extractor's `malloc`.
- `Build` holds the Build fields as a `map<string, string>` and the overwrite as a
  function of the JNI calls' success outcomes.
- `SimulateTablet` holds the hooks:
  - `Api` is the host's option recorder.
  - `Env` is the JNI environment: the Build fields plus the pending-exception flag.
  - `SimulateTabletModule` carries the hooks as methods. Its ghost `simulated` records
    each call of `simulateTabletDevice`.
  - Pure predicates (`PreIsWeChat`, `PostIsWeChat`) state what each hook decides, and
    lemmas relate the two.

The identity comes from the call at module/jni/main.cpp:141,
`simulateTabletDevice(BRAND, MODEL, BRAND)`, whose parameters are (brand, model, manufacturer).
So `MANUFACTURER` and `BRAND` become `samsung` and `MODEL` becomes `SM-F9560`.

## Model

| member | source | states |
|---|---|---|
| CStrings.LastIndexOf | module/jni/main.cpp:24 | `strrchr`: the result is an index holding the character with none after it, and it is absent exactly when the character does not occur |
| CStrings.ContainsIff | module/jni/main.cpp:105 | `strstr` finds the needle exactly when it starts at some position of the haystack |
| PackageName.Extract | module/jni/main.cpp:22-33 | a present package name is non-empty, has no `/`, follows a `/` that ends the rest of the path, and needs a non-null path and a successful `malloc` |
| PackageName.ExtractNoneCases | module/jni/main.cpp:23-29 | None for a null path, for a path without `/`, for a path ending in `/`, and when `malloc` fails |
| PackageName.ExtractAfterLastSlash | module/jni/main.cpp:24-32 | for any prefix, `prefix + "/" + segment` with a non-empty, `/`-free segment yields exactly that segment |
| PackageName.ExtractDefinedIff | module/jni/main.cpp:23-32 | extraction succeeds iff `malloc` succeeds, the path contains `/` and it does not end in `/` |
| Build.Overwrite | module/jni/main.cpp:42-60 | no field changes unless class, all three field ids and all three strings are obtained; then the three fields carry the new identity and every other field is unchanged |
| Build.OverwriteAllOrNothing | module/jni/main.cpp:43-57 | after an attempt, either all three identity fields hold the new values or the fields are exactly as before |
| Build.OverwriteIdempotent | module/jni/main.cpp:55-57 | after a successful overwrite, a second one with the same identity leaves the same fields, whatever its outcome |
| Build.OverwriteTwiceSameOutcomes | module/jni/main.cpp:40-63 | two attempts with the same outcomes leave the fields one attempt leaves |
| SimulateTablet.ParsedPackageName | module/jni/main.cpp:78-100 | a hook obtains a package name exactly when `app_data_dir` is non-null, `GetStringUTFChars` and `malloc` succeed, and the path contains `/` and does not end in one; a present name is non-empty, has no `/` and is the last path segment |
| SimulateTablet.NoIdentifyingInput | module/jni/main.cpp:98-114 | with neither `app_data_dir` nor `nice_name`, the pre hook sets only `DLCLOSE_MODULE_LIBRARY` and the post hook does not overwrite |
| SimulateTablet.PostImpliesPre | module/jni/main.cpp:102-152 | with the same arguments and outcomes, every process the post hook overwrites was kept loaded by the pre hook |
| SimulateTablet.PhasesDisagreeIff | module/jni/main.cpp:102-156 | with the same arguments and outcomes, the hooks disagree iff a non-WeChat package name was parsed and `nice_name` contains `com.tencent.mm` |
| SimulateTablet.WeChatDataDir | module/jni/main.cpp:83-86 | `/data/user/0/com.tencent.mm` gives `FORCE_DENYLIST_UNMOUNT` and an overwrite, whatever `nice_name` is |
| SimulateTablet.OtherAppDataDir | module/jni/main.cpp:143-144 | `/data/user/0/com.other.app` never gives an overwrite, and gives `DLCLOSE_MODULE_LIBRARY` unless `nice_name` matches |
| SimulateTablet.NiceNameFallback | module/jni/main.cpp:105-108 | with no data directory, `nice_name` `com.tencent.mm:push` makes both hooks treat the process as WeChat |
| SimulateTablet.TabletIdentityWritten | module/jni/main.cpp:141 | a successful overwrite leaves MANUFACTURER `samsung`, BRAND `samsung`, MODEL `SM-F9560`, and every other field unchanged |
| SimulateTablet.Env.ClearPendingException | module/jni/main.cpp:62 | after the exception check and clear, no exception is pending |
| SimulateTablet.SimulateTabletModule.constructor | module/jni/main.cpp:66-70 | the module keeps the host's `Api` and `JNIEnv`; no overwrite has happened yet |
| SimulateTablet.SimulateTabletModule.SimulateTabletDevice | module/jni/main.cpp:40-63 | the Build fields become `Overwrite` of the old ones, no exception is left pending, and the call is recorded |
| SimulateTablet.SimulateTabletModule.PreAppSpecialize | module/jni/main.cpp:72-115 | exactly one option is appended: `FORCE_DENYLIST_UNMOUNT` iff the package name is `com.tencent.mm` or `nice_name` contains it, else `DLCLOSE_MODULE_LIBRARY`; no exception is left pending |
| SimulateTablet.SimulateTabletModule.PostAppSpecialize | module/jni/main.cpp:117-162 | no option is set; the overwrite runs at most once, with the tablet identity, iff the package name is WeChat's or none was parsed and `nice_name` matches; no exception is left pending |

## Left out

- JNI string marshalling is not modelled. `GetStringUTFChars`/`ReleaseStringUTFChars` become the `utfCharsOk` outcome, and `malloc`/`free` become the `mallocOk` outcome. Memory ownership and the release of local references are not modelled.
- JNI reflection is not modelled. `FindClass`, `GetStaticFieldID`, `NewStringUTF` and `SetStaticObjectField` become success outcomes and map updates, so the model does not track the runtime object model.
- The three field-id lookups and the three string constructions are independent outcomes. The source makes all three `GetStaticFieldID` calls even after one has failed and left NoSuchFieldError pending. It likewise makes all three `NewStringUTF` calls even after one has failed and left OutOfMemoryError pending. The model does not capture what JNI does with a call made while an exception is pending.
- `SetStaticObjectField` is modelled as never raising. The final exception check and clear is modelled, but a write that fails is not.
- The hooks require no pending Java exception on entry, following JNI's rule that the host never calls a hook with one pending. They ensure none is pending on exit.
- NiceNameMatches: the source passes `args->nice_name` straight to `strstr` (module/jni/main.cpp:103-105 and 146-148) without converting it with `GetStringUTFChars`. In the Zygisk API, `nice_name` is a `jstring` reference, just as `app_data_dir` is. So the code as written scans the bytes at a JNI reference. The model instead matches the process name's characters, which is what the code evidently intends.
- C strings are modelled as `string`, the characters before the terminating NUL. Embedded NUL characters do not arise.
- Zygisk plumbing is not modelled: `REGISTER_ZYGISK_MODULE`, the internals of `zygisk::Api`, and the server-specialize hooks. `Api` only records the options it is given.
- All `LOGI`/`LOGW`/`LOGE` output is left out. It is observability only.
- Concurrency is not modelled. In particular, the model makes no claim that other threads see the three writes atomically.
