/**
 * The command line of the project generator. The blocking pipeline runs
 * `create-vue` with feature flags; the streaming pipeline runs `create-vite`
 * with a template; both run Vue CLI 5 with an inline preset for Vue 2.
 */
module Generator {
  import opened Wrappers
  import opened Seqs

  /** The arguments after the `pnpm` binary, and whether `CI=true` is set. */
  datatype Invocation = Invocation(args: seq<string>, ciEnv: bool)

  const UnknownVersion := "unknown version"

  /** `{"vueVersion": "2", "plugins": {"@vue/cli-plugin-babel": {}}}` serialised compactly, keys in sorted order. */
  const InlinePreset := "{\"plugins\":{\"@vue/cli-plugin-babel\":{}},\"vueVersion\":\"2\"}"

  /** The Vue CLI 5 command line, the same in both pipelines. */
  function Vue2Args(name: string): seq<string>
  {
    ["dlx", "@vue/cli@5", "create", name, "--inlinePreset", InlinePreset, "--packageManager", "pnpm", "--no-git", "--force"]
  }

  /** The optional `create-vue` flags, in the order the source pushes them. */
  function CreateVueFlags(lang: string, features: seq<string>): seq<string>
  {
    (if lang == "ts" then ["--ts"] else [])
      + (if "router" in features then ["--router"] else [])
      + (if "pinia" in features then ["--pinia"] else [])
  }

  /** The parts of a three-way concatenation are recovered by slicing at their lengths. */
  lemma FrameSlices(head: seq<string>, flags: seq<string>, tail: seq<string>)
    ensures |head + flags + tail| == |head| + |flags| + |tail|
    ensures (head + flags + tail)[..|head|] == head
    ensures (head + flags + tail)[|head|..] == flags + tail
    ensures (head + flags + tail)[|head| + |flags|..] == tail
    ensures (head + flags + tail)[|head|..|head| + |flags|] == flags
  {
    Assoc(head, flags, tail);
    SliceAfter(head, flags + tail);
    SliceAfter(head + flags, tail);
  }

  /** Each flag is present exactly when asked for, and the package manager options are not flags. */
  lemma FlagsBeforeTail(lang: string, features: seq<string>)
    ensures ("--ts" in CreateVueFlags(lang, features) + ["--packageManager", "pnpm"]) <==> lang == "ts"
    ensures ("--router" in CreateVueFlags(lang, features) + ["--packageManager", "pnpm"]) <==> "router" in features
    ensures ("--pinia" in CreateVueFlags(lang, features) + ["--packageManager", "pnpm"]) <==> "pinia" in features
  {
  }

  /**
   * The blocking pipeline's generator: for `vue3`, `create-vue` with `--ts`
   * exactly for TypeScript, `--router`/`--pinia` exactly when requested, a
   * fixed package manager and `CI=true`; for `vue2`, Vue CLI; any other
   * version is refused before a process runs.
   */
  function BlockingArgs(version: string, lang: string, name: string, features: seq<string>): (r: Result<Invocation, string>)
    ensures r.Err? <==> version != "vue2" && version != "vue3"
    ensures r.Err? ==> r.error == UnknownVersion
    ensures r.Ok? ==> (r.value.ciEnv <==> version == "vue3")
  {
    if version == "vue3" then
      Ok(Invocation(["dlx", "create-vue@latest", name] + CreateVueFlags(lang, features) + ["--packageManager", "pnpm"], true))
    else if version == "vue2" then
      Ok(Invocation(Vue2Args(name), false))
    else
      Err(UnknownVersion)
  }

  /**
   * The blocking generator invocation: for Vue 3, `create-vue` with the
   * project name first, then exactly the option flags, one per requested
   * option, and the package manager last; for Vue 2, the `vue create` command line.
   */
  lemma BlockingArgsShape(version: string, lang: string, name: string, features: seq<string>)
    ensures var r := BlockingArgs(version, lang, name, features);
      version == "vue3" ==>
        && r.Ok? && r.value.ciEnv
        && |r.value.args| >= 5 && r.value.args[..3] == ["dlx", "create-vue@latest", name]
        && r.value.args[|r.value.args| - 2..] == ["--packageManager", "pnpm"]
        && r.value.args[3..|r.value.args| - 2] == CreateVueFlags(lang, features)
        && ("--ts" in r.value.args[3..] <==> lang == "ts")
        && ("--router" in r.value.args[3..] <==> "router" in features)
        && ("--pinia" in r.value.args[3..] <==> "pinia" in features)
    ensures version == "vue2" ==> BlockingArgs(version, lang, name, features) == Ok(Invocation(Vue2Args(name), false))
  {
    if version == "vue3" {
      var flags := CreateVueFlags(lang, features);
      FrameSlices(["dlx", "create-vue@latest", name], flags, ["--packageManager", "pnpm"]);
      FlagsBeforeTail(lang, features);
    }
  }

  /** The `create-vite` template for a language: `vue-ts` for TypeScript, `vue` otherwise. */
  function Template(lang: string): string
  {
    if lang == "ts" then "vue-ts" else "vue"
  }

  /**
   * The streaming pipeline's generator: for `vue3`, `create-vite` with the
   * template for the language and no feature flags; Vue 2 and unknown
   * versions as in the blocking pipeline.
   */
  function StreamingArgs(version: string, lang: string, name: string): (r: Result<Invocation, string>)
    ensures r.Err? <==> version != "vue2" && version != "vue3"
    ensures r.Err? ==> r.error == UnknownVersion
    ensures r.Ok? ==> !r.value.ciEnv
    ensures version == "vue3" ==>
      && r.Ok? && |r.value.args| == 6
      && r.value.args[..3] == ["dlx", "create-vite@latest", name]
      && r.value.args[3..5] == ["--", "--template"]
      && (r.value.args[5] == "vue-ts" <==> lang == "ts")
      && (r.value.args[5] == "vue" <==> lang != "ts")
  {
    match version
    case "vue3" => Ok(Invocation(["dlx", "create-vite@latest", name, "--", "--template", Template(lang)], false))
    case "vue2" => Ok(Invocation(Vue2Args(name), false))
    case _ => Err(UnknownVersion)
  }

  /** Both pipelines accept the same versions and run the same Vue 2 command. */
  lemma ModesAgreeOnVue2(lang: string, name: string, features: seq<string>)
    ensures BlockingArgs("vue2", lang, name, features) == StreamingArgs("vue2", lang, name)
  {
  }

  /** For Vue 3 the two pipelines run different generators, and only the blocking one sets `CI`. */
  lemma ModesDifferOnVue3(lang: string, name: string, features: seq<string>)
    ensures BlockingArgs("vue3", lang, name, features).value.args[1] != StreamingArgs("vue3", lang, name).value.args[1]
    ensures BlockingArgs("vue3", lang, name, features).value.ciEnv && !StreamingArgs("vue3", lang, name).value.ciEnv
  {
  }
}
