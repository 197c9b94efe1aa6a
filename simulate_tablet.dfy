/**
 * The Zygisk module of module/jni/main.cpp: a pre-specialize hook that decides
 * which host option to set, and a post-specialize hook that, for WeChat,
 * overwrites the device identity fields of `android.os.Build`.
 */
module SimulateTablet {
  import opened Wrappers
  import opened CStrings
  import opened PackageName
  import opened Build

  const WECHAT_PACKAGE_NAME: string := "com.tencent.mm"
  const WECHAT_TARGET_MODEL: string := "SM-F9560"
  const WECHAT_TARGET_BRAND: string := "samsung"

  /** The identity the post hook writes: the target brand also serves as manufacturer. */
  const TabletIdentity: Identity := Identity(WECHAT_TARGET_BRAND, WECHAT_TARGET_MODEL, WECHAT_TARGET_BRAND)

  /** The host options the module sets. */
  datatype ZygiskOption = ForceDenylistUnmount | DlcloseModuleLibrary

  /** The two fields of `AppSpecializeArgs` the hooks read; None is a null reference. */
  datatype AppSpecializeArgs = AppSpecializeArgs(appDataDir: Option<string>, niceName: Option<string>)

  /** Whether `GetStringUTFChars` on `app_data_dir` and the extractor's `malloc` return non-null. */
  datatype ReadOutcomes = ReadOutcomes(utfCharsOk: bool, mallocOk: bool)

  /** The package name a hook obtains from `app_data_dir`, None when any step fails. */
  function ParsedPackageName(args: AppSpecializeArgs, read: ReadOutcomes): (r: Option<string>)
    ensures r.Some? <==>
      (args.appDataDir.Some? && read.utfCharsOk && read.mallocOk &&
       '/' in args.appDataDir.value && args.appDataDir.value[|args.appDataDir.value| - 1] != '/')
    ensures r.Some? ==> |r.value| > 0 && '/' !in r.value && EndsWithSegment(args.appDataDir.value, r.value)
  {
    if args.appDataDir.Some? && read.utfCharsOk then Extract(args.appDataDir, read.mallocOk) else None
  }

  /** The fallback test: `nice_name` is non-null and contains the WeChat package name. */
  predicate NiceNameMatches(niceName: Option<string>)
  {
    niceName.Some? && Contains(niceName.value, WECHAT_PACKAGE_NAME)
  }

  /** The pre hook's classification: exact package-name match, else the `nice_name` fallback. */
  predicate PreIsWeChat(args: AppSpecializeArgs, read: ReadOutcomes)
  {
    ParsedPackageName(args, read) == Some(WECHAT_PACKAGE_NAME) || NiceNameMatches(args.niceName)
  }

  /** The post hook's classification: the fallback is consulted only when no package name was parsed. */
  predicate PostIsWeChat(args: AppSpecializeArgs, read: ReadOutcomes)
  {
    var name := ParsedPackageName(args, read);
    name == Some(WECHAT_PACKAGE_NAME) || (name.None? && NiceNameMatches(args.niceName))
  }

  /** The one option the pre hook sets. */
  function PreOption(args: AppSpecializeArgs, read: ReadOutcomes): ZygiskOption
  {
    if PreIsWeChat(args, read) then ForceDenylistUnmount else DlcloseModuleLibrary
  }

  /** With neither `app_data_dir` nor `nice_name`, the pre hook unloads the module and the post hook does nothing. */
  lemma NoIdentifyingInput(args: AppSpecializeArgs, read: ReadOutcomes)
    requires args.appDataDir.None? && args.niceName.None?
    ensures PreOption(args, read) == DlcloseModuleLibrary
    ensures !PostIsWeChat(args, read)
  {
  }

  /** Whenever the post hook overwrites, the pre hook kept the module loaded (same arguments, same outcomes). */
  lemma PostImpliesPre(args: AppSpecializeArgs, read: ReadOutcomes)
    ensures PostIsWeChat(args, read) ==> PreIsWeChat(args, read) && PreOption(args, read) == ForceDenylistUnmount
  {
  }

  /**
   * The two hooks disagree exactly when a package name other than WeChat's was
   * parsed and `nice_name` contains WeChat's: the pre hook consults the fallback,
   * the post hook does not.
   */
  lemma PhasesDisagreeIff(args: AppSpecializeArgs, read: ReadOutcomes)
    ensures PreIsWeChat(args, read) != PostIsWeChat(args, read) <==>
      (ParsedPackageName(args, read).Some? && ParsedPackageName(args, read) != Some(WECHAT_PACKAGE_NAME) &&
       NiceNameMatches(args.niceName))
  {
  }

  /** WeChat's data directory: the pre hook keeps the denylist unmount and the post hook overwrites. */
  lemma WeChatDataDir(niceName: Option<string>)
    ensures var args := AppSpecializeArgs(Some("/data/user/0/com.tencent.mm"), niceName);
      PreOption(args, ReadOutcomes(true, true)) == ForceDenylistUnmount && PostIsWeChat(args, ReadOutcomes(true, true))
  {
  }

  /** Another app's data directory: the module unloads, and the post hook ignores `nice_name`. */
  lemma OtherAppDataDir(niceName: Option<string>)
    ensures var args := AppSpecializeArgs(Some("/data/user/0/com.other.app"), niceName);
      !PostIsWeChat(args, ReadOutcomes(true, true)) &&
      (!NiceNameMatches(niceName) ==> PreOption(args, ReadOutcomes(true, true)) == DlcloseModuleLibrary)
  {
  }

  /** No data directory but a `nice_name` of a WeChat subprocess: both hooks match through the fallback. */
  lemma NiceNameFallback(read: ReadOutcomes)
    ensures var args := AppSpecializeArgs(None, Some("com.tencent.mm:push"));
      PreOption(args, read) == ForceDenylistUnmount && PostIsWeChat(args, read)
  {
    assert WECHAT_PACKAGE_NAME <= "com.tencent.mm:push";
  }

  /** The host's `zygisk::Api`, reduced to the options set through it. */
  class Api {
    var options: seq<ZygiskOption>

    constructor ()
      ensures options == []
    {
      options := [];
    }

    /** `setOption`: the host records the option. */
    method SetOption(option: ZygiskOption)
      modifies this
      ensures options == old(options) + [option]
    {
      options := options + [option];
    }
  }

  /** The `JNIEnv` the module holds: the static fields of `android.os.Build` and the pending-exception flag. */
  class Env {
    var buildFields: map<string, string>
    var exceptionPending: bool

    constructor (fields: map<string, string>)
      ensures buildFields == fields && !exceptionPending
    {
      buildFields := fields;
      exceptionPending := false;
    }

    /** `ExceptionCheck` followed, when it reports one, by `ExceptionClear`. */
    method ClearPendingException()
      modifies this`exceptionPending
      ensures !exceptionPending
    {
      if exceptionPending {
        exceptionPending := false;
      }
    }
  }

  class SimulateTabletModule {
    const api: Api
    const env: Env
    /** The identities `simulateTabletDevice` was called with, in call order. */
    ghost var simulated: seq<Identity>

    /** `onLoad`: keep the host's `Api` and `JNIEnv`. */
    constructor (api: Api, env: Env)
      ensures this.api == api && this.env == env && simulated == []
    {
      this.api := api;
      this.env := env;
      simulated := [];
    }

    /**
     * `simulateTabletDevice`: look up `android.os.Build`, its three fields and
     * three new strings, and write the fields only when every lookup succeeded.
     * A failing JNI lookup raises a Java exception, which is cleared before return.
     */
    method SimulateTabletDevice(brand: string, model: string, manufacturer: string, jni: JniOutcomes)
      modifies this`simulated, env
      ensures env.buildFields == Overwrite(old(env.buildFields), Identity(brand, model, manufacturer), jni)
      ensures !env.exceptionPending
      ensures simulated == old(simulated) + [Identity(brand, model, manufacturer)]
    {
      simulated := simulated + [Identity(brand, model, manufacturer)];
      if !jni.classFound {
        env.exceptionPending := true;  // NoClassDefFoundError
        env.ClearPendingException();
        return;
      }
      if !FieldsResolved(jni) {
        env.exceptionPending := true;  // NoSuchFieldError
        env.ClearPendingException();
        return;
      }
      if !StringsCreated(jni) {
        env.exceptionPending := true;  // OutOfMemoryError
      } else {
        env.buildFields := env.buildFields[MANUFACTURER := manufacturer];
        env.buildFields := env.buildFields[BRAND := brand];
        env.buildFields := env.buildFields[MODEL := model];
      }
      env.ClearPendingException();
    }

    /** `preAppSpecialize`: set `FORCE_DENYLIST_UNMOUNT` for WeChat and `DLCLOSE_MODULE_LIBRARY` otherwise. */
    method PreAppSpecialize(args: AppSpecializeArgs, read: ReadOutcomes)
      requires !env.exceptionPending
      modifies api, env`exceptionPending
      ensures api.options == old(api.options) + [PreOption(args, read)]
      ensures !env.exceptionPending
    {
      var isWeChat := false;
      if args.appDataDir.Some? {
        if read.utfCharsOk {
          var packageName := Extract(args.appDataDir, read.mallocOk);
          if packageName.Some? && packageName.value == WECHAT_PACKAGE_NAME {
            api.SetOption(ForceDenylistUnmount);
            isWeChat := true;
          }
        } else {
          env.exceptionPending := true;  // OutOfMemoryError from GetStringUTFChars
          env.ClearPendingException();
        }
      }
      if !isWeChat {
        if args.niceName.Some? && Contains(args.niceName.value, WECHAT_PACKAGE_NAME) {
          api.SetOption(ForceDenylistUnmount);
          isWeChat := true;
        }
      }
      if !isWeChat {
        api.SetOption(DlcloseModuleLibrary);
      }
    }

    /**
     * `postAppSpecialize`: overwrite the identity when the parsed package name is
     * WeChat's, or when no package name could be parsed and `nice_name` matches.
     */
    method PostAppSpecialize(args: AppSpecializeArgs, read: ReadOutcomes, jni: JniOutcomes)
      requires !env.exceptionPending
      modifies this`simulated, env
      ensures api.options == old(api.options)
      ensures simulated == old(simulated) + (if PostIsWeChat(args, read) then [TabletIdentity] else [])
      ensures env.buildFields ==
        if PostIsWeChat(args, read) then Overwrite(old(env.buildFields), TabletIdentity, jni) else old(env.buildFields)
      ensures !env.exceptionPending
    {
      var isWeChat := false;
      var packageName: Option<string> := None;
      if args.appDataDir.Some? {
        if read.utfCharsOk {
          packageName := Extract(args.appDataDir, read.mallocOk);
          if packageName.Some? && packageName.value == WECHAT_PACKAGE_NAME {
            isWeChat := true;
          }
        } else {
          env.exceptionPending := true;  // OutOfMemoryError from GetStringUTFChars
          env.ClearPendingException();
        }
      }
      if isWeChat {
        SimulateTabletDevice(WECHAT_TARGET_BRAND, WECHAT_TARGET_MODEL, WECHAT_TARGET_BRAND, jni);
      } else if packageName.Some? {
        // a package name was parsed and it is not WeChat's: nothing to do
      } else if args.niceName.Some? && Contains(args.niceName.value, WECHAT_PACKAGE_NAME) {
        SimulateTabletDevice(WECHAT_TARGET_BRAND, WECHAT_TARGET_MODEL, WECHAT_TARGET_BRAND, jni);
        isWeChat := true;
      }
    }
  }

  /** On a successful overwrite the process sees a Samsung SM-F9560 and every other Build field is unchanged. */
  lemma TabletIdentityWritten(fields: map<string, string>, jni: JniOutcomes)
    requires Succeeds(jni)
    ensures var r := Overwrite(fields, TabletIdentity, jni);
      r[MANUFACTURER] == "samsung" && r[BRAND] == "samsung" && r[MODEL] == "SM-F9560" &&
      forall f :: f in fields && f !in [MANUFACTURER, BRAND, MODEL] ==> f in r && r[f] == fields[f]
  {
  }
}
