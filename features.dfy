/**
 * Matching the requested feature keys against the component registry and
 * turning a matched entry into `pnpm add` package specifications: the first
 * pass over every requested key, and the second pass for keys outside the
 * built-in list.
 */
module Features {
  import opened Wrappers
  import opened Seqs
  import opened Registry

  /** The built-in feature keys; the second pass skips these. */
  const KnownKeys: seq<string> := ["router", "pinia", "sass", "naive-ui", "vfonts", "xicons"]

  /** Index of the first registry entry whose key is `key` (`Iterator::find`). */
  function FindByKey(items: seq<Item>, key: string): (r: Option<nat>)
    ensures r.Some? ==> r.value < |items| && items[r.value].key == Some(key)
  {
    if items == [] then None
    else if items[0].key == Some(key) then Some(0)
    else match FindByKey(items[1..], key)
      case None => None
      case Some(i) => Some(i + 1)
  }

  /** `FindByKey` finds the first entry with the key, and finds none exactly when no entry has it. */
  lemma {:induction false} FindByKeyFirst(items: seq<Item>, key: string)
    ensures FindByKey(items, key).Some? ==> forall j :: 0 <= j < FindByKey(items, key).value ==> items[j].key != Some(key)
    ensures FindByKey(items, key).None? <==> forall j :: 0 <= j < |items| ==> items[j].key != Some(key)
    decreases |items|
  {
    if items != [] && items[0].key != Some(key) {
      FindByKeyFirst(items[1..], key);
      assert forall j :: 1 <= j < |items| ==> items[j] == items[1..][j - 1];
    }
  }

  /** The support flag for the chosen Vue version: `vue3` picks `vue3`, anything else `vue2`. */
  function VueFlag(s: Support, version: string): Option<bool>
  {
    if version == "vue3" then s.vue3 else s.vue2
  }

  /** The support flag for the chosen language: `ts` picks `ts`, anything else `js`. */
  function LangFlag(s: Support, lang: string): Option<bool>
  {
    if lang == "ts" then s.ts else s.js
  }

  /**
   * The support-matrix filter. A missing matrix or a missing flag counts as
   * supported, so only an explicit `false` for the chosen Vue version or the
   * chosen language excludes an entry.
   */
  function Supported(item: Item, version: string, lang: string): (ok: bool)
    ensures !ok <==> (item.supported.Some? &&
      (VueFlag(item.supported.value, version) == Some(false) || LangFlag(item.supported.value, lang) == Some(false)))
  {
    match item.supported
    case None => true
    case Some(s) => VueFlag(s, version).GetOr(true) && LangFlag(s, lang).GetOr(true)
  }

  /** The version an entry pins for the chosen Vue version, if any. */
  function VersionPin(item: Item, version: string): Option<string>
  {
    match item.versions
    case None => None
    case Some(v) => if version == "vue3" then v.vue3 else v.vue2
  }

  /** `name@version`, or the bare name without a pin. */
  function PackageSpec(name: string, pin: Option<string>): string
  {
    match pin
    case None => name
    case Some(v) => name + "@" + v
  }

  /** The package names of an entry: the strings of `packages` when it is an array, else `package`. */
  function PackageNames(item: Item): seq<string>
  {
    match item.packages
    case Some(list) => StringElements(list)
    case None => if item.package.Some? then [item.package.value] else []
  }

  /** Every name with the same pin. */
  function SpecsOf(names: seq<string>, pin: Option<string>): seq<string>
  {
    seq(|names|, i requires 0 <= i < |names| => PackageSpec(names[i], pin))
  }

  /** The package specifications of an entry under the chosen Vue version. */
  function Specs(item: Item, version: string): seq<string>
  {
    SpecsOf(PackageNames(item), VersionPin(item, version))
  }

  /** Pinning distributes over concatenation. */
  lemma SpecsOfAppend(xs: seq<string>, ys: seq<string>, pin: Option<string>)
    ensures SpecsOf(xs + ys, pin) == SpecsOf(xs, pin) + SpecsOf(ys, pin)
  {
    assert forall i :: 0 <= i < |xs + ys| ==> SpecsOf(xs + ys, pin)[i] == (SpecsOf(xs, pin) + SpecsOf(ys, pin))[i];
  }

  /**
   * The `pkgs` loop: one specification per string element of `packages`, in
   * order, or one for `package` when `packages` is not an array.
   */
  method ResolvePackages(item: Item, version: string) returns (pkgs: seq<string>)
    ensures pkgs == Specs(item, version)
  {
    var pin := VersionPin(item, version);
    pkgs := [];
    match item.packages {
      case Some(list) =>
        var i := 0;
        while i < |list|
          invariant 0 <= i <= |list|
          invariant pkgs == SpecsOf(StringElements(list[..i]), pin)
        {
          assert list[..i + 1] == list[..i] + [list[i]];
          StringElementsAppend(list[..i], [list[i]]);
          if list[i].Str? {
            SpecsOfAppend(StringElements(list[..i]), [list[i].s], pin);
            pkgs := pkgs + [PackageSpec(list[i].s, pin)];
          }
          i := i + 1;
        }
        assert list[..|list|] == list;
      case None =>
        if item.package.Some? {
          pkgs := [PackageSpec(item.package.value, pin)];
        }
    }
  }

  /** `packages` takes precedence: when it is an array, `package` is never looked at. */
  lemma PackagesTakePrecedence(item: Item, version: string, other: Option<string>)
    requires item.packages.Some?
    ensures Specs(item.(package := other), version) == Specs(item, version)
  {
  }

  /** Non-string elements of `packages` are skipped without disturbing the others. */
  lemma NonStringsSkipped(item: Item, version: string, xs: seq<JsonElem>, ys: seq<JsonElem>)
    requires item.packages == Some(xs + [NonString] + ys)
    ensures Specs(item, version) == Specs(item.(packages := Some(xs + ys)), version)
  {
    var other := item.(packages := Some(xs + ys));
    StringElementsSkip(xs, ys);
    assert PackageNames(item) == PackageNames(other);
    assert VersionPin(item, version) == VersionPin(other, version);
  }

  /**
   * Every specification of an entry carries the same suffix: `@` and the pin
   * when the entry has one for the chosen version, nothing otherwise; and the
   * specifications follow the order of `packages`.
   */
  lemma SpecsShape(item: Item, version: string, names: seq<string>)
    requires item.packages == Some(seq(|names|, i requires 0 <= i < |names| => Str(names[i])))
    ensures |Specs(item, version)| == |names|
    ensures VersionPin(item, version).None? ==> Specs(item, version) == names
    ensures VersionPin(item, version).Some? ==>
      forall i :: 0 <= i < |names| ==> Specs(item, version)[i] == names[i] + "@" + VersionPin(item, version).value
  {
    StringElementsAllStrings(names);
  }

  /** One `pnpm add` invocation for a group of packages. */
  datatype AddJob = AddJob(dev: bool, pkgs: seq<string>)

  /**
   * The first pass for one requested key: the first entry with that key, if it
   * is supported and yields at least one package, becomes a job.
   */
  function JobFor(items: seq<Item>, key: string, version: string, lang: string): (job: Option<AddJob>)
    ensures job.Some? ==> job.value.pkgs != []
  {
    match FindByKey(items, key)
    case None => None
    case Some(i) =>
      var pkgs := Specs(items[i], version);
      if Supported(items[i], version, lang) && pkgs != [] then Some(AddJob(items[i].dev.GetOr(false), pkgs))
      else None
  }

  /**
   * The first matching entry alone decides the job: a later entry with the
   * same key is never consulted, and `dev` is true only when set to true.
   */
  lemma FirstMatchWins(items: seq<Item>, key: string, version: string, lang: string, i: nat)
    requires i < |items| && items[i].key == Some(key)
    requires forall j :: 0 <= j < i ==> items[j].key != Some(key)
    ensures JobFor(items, key, version, lang).Some? <==> Supported(items[i], version, lang) && Specs(items[i], version) != []
    ensures JobFor(items, key, version, lang).Some? ==>
      JobFor(items, key, version, lang).value == AddJob(items[i].dev == Some(true), Specs(items[i], version))
  {
    FindByKeyFirst(items, key);
    assert FindByKey(items, key) == Some(i);
  }

  /** A key no entry carries installs nothing. */
  lemma UnknownKeyNoJob(items: seq<Item>, key: string, version: string, lang: string)
    requires forall j :: 0 <= j < |items| ==> items[j].key != Some(key)
    ensures JobFor(items, key, version, lang).None?
  {
  }

  /** The jobs of the first pass, one per requested key that yields one, in request order. */
  function Plan(items: seq<Item>, features: seq<string>, version: string, lang: string): (jobs: seq<AddJob>)
    ensures |jobs| <= |features|
  {
    if features == [] then []
    else JobsFor(items, features[0], version, lang) + Plan(items, features[1..], version, lang)
  }

  /** Every job of a first-pass plan adds at least one package. */
  lemma {:induction false} PlanJobsNonEmpty(items: seq<Item>, features: seq<string>, version: string, lang: string)
    ensures forall j :: 0 <= j < |Plan(items, features, version, lang)| ==> Plan(items, features, version, lang)[j].pkgs != []
  {
    if features != [] {
      var here: seq<AddJob> := JobsFor(items, features[0], version, lang);
      var rest: seq<AddJob> := Plan(items, features[1..], version, lang);
      PlanJobsNonEmpty(items, features[1..], version, lang);
      var jobs := here + rest;
      forall j | 0 <= j < |jobs| ensures jobs[j].pkgs != [] {
        if j < |here| {
          assert j == 0 && jobs[j] == here[0];
          assert JobFor(items, features[0], version, lang).Some?;
        }
        else { assert jobs[j] == rest[j - |here|]; }
      }
    }
  }

  /** The job of one requested key as a sequence of zero or one jobs. */
  function JobsFor(items: seq<Item>, key: string, version: string, lang: string): (jobs: seq<AddJob>)
    ensures |jobs| <= 1
    ensures jobs == [] <==> JobFor(items, key, version, lang).None?
    ensures jobs != [] ==> jobs[0] == JobFor(items, key, version, lang).value
  {
    match JobFor(items, key, version, lang) case None => [] case Some(job) => [job]
  }

  /** Requested keys are handled independently, so the plan of a concatenation is the concatenation of plans. */
  lemma {:induction false} PlanAppend(items: seq<Item>, f1: seq<string>, f2: seq<string>, version: string, lang: string)
    ensures Plan(items, f1 + f2, version, lang) == Plan(items, f1, version, lang) + Plan(items, f2, version, lang)
  {
    if f1 != [] {
      ConsAppend(f1, f2);
      PlanAppend(items, f1[1..], f2, version, lang);
      Assoc(JobsFor(items, f1[0], version, lang), Plan(items, f1[1..], version, lang), Plan(items, f2, version, lang));
    } else {
      assert f1 + f2 == f2;
    }
  }

  /** Keys that match no registry entry contribute no job at all. */
  lemma {:induction false} PlanOfUnknownKeys(items: seq<Item>, features: seq<string>, version: string, lang: string)
    requires forall k, j :: 0 <= k < |features| && 0 <= j < |items| ==> items[j].key != Some(features[k])
    ensures Plan(items, features, version, lang) == []
  {
    if features != [] {
      UnknownKeyNoJob(items, features[0], version, lang);
      PlanOfUnknownKeys(items, features[1..], version, lang);
    }
  }

  /**
   * The second pass for one requested key: only keys outside the built-in
   * list, only the singular `package` (empty when missing), never pinned.
   */
  function CustomJob(items: seq<Item>, key: string, version: string, lang: string): (job: Option<AddJob>)
    ensures job.Some? ==> key !in KnownKeys && |job.value.pkgs| == 1 && job.value.pkgs[0] != ""
  {
    if key in KnownKeys then None
    else match FindByKey(items, key)
      case None => None
      case Some(i) =>
        var pkg := items[i].package.GetOr("");
        if pkg != "" && Supported(items[i], version, lang) then Some(AddJob(items[i].dev.GetOr(false), [pkg]))
        else None
  }

  /** The jobs of the second pass, in request order. */
  function CustomPlan(items: seq<Item>, features: seq<string>, version: string, lang: string): (jobs: seq<AddJob>)
    ensures |jobs| <= |features|
  {
    if features == [] then []
    else
      var here := match CustomJob(items, features[0], version, lang) case None => [] case Some(job) => [job];
      here + CustomPlan(items, features[1..], version, lang)
  }

  /** Every job of the second pass adds exactly one package. */
  lemma {:induction false} CustomPlanSingles(items: seq<Item>, features: seq<string>, version: string, lang: string)
    ensures forall j :: 0 <= j < |CustomPlan(items, features, version, lang)| ==> |CustomPlan(items, features, version, lang)[j].pkgs| == 1
  {
    if features != [] {
      var here: seq<AddJob> := match CustomJob(items, features[0], version, lang) case None => [] case Some(job) => [job];
      var rest: seq<AddJob> := CustomPlan(items, features[1..], version, lang);
      CustomPlanSingles(items, features[1..], version, lang);
      var jobs := here + rest;
      forall j | 0 <= j < |jobs| ensures |jobs[j].pkgs| == 1 {
        if j < |here| {
          assert j == 0 && jobs[j] == here[0];
          assert CustomJob(items, features[0], version, lang).Some?;
        }
        else { assert jobs[j] == rest[j - |here|]; }
      }
    }
  }

  /** Only built-in keys requested: the second pass does nothing. */
  lemma {:induction false} CustomPlanOfKnownKeys(items: seq<Item>, features: seq<string>, version: string, lang: string)
    requires forall k :: 0 <= k < |features| ==> features[k] in KnownKeys
    ensures CustomPlan(items, features, version, lang) == []
  {
    if features != [] {
      CustomPlanOfKnownKeys(items, features[1..], version, lang);
    }
  }

  /**
   * A custom key whose entry has only `package` is added by both passes: the
   * first with the pin for the chosen version, the second with the bare name.
   */
  lemma CustomKeyAddedTwice(items: seq<Item>, key: string, version: string, lang: string, i: nat)
    requires i < |items| && items[i].key == Some(key)
    requires forall j :: 0 <= j < i ==> items[j].key != Some(key)
    requires key !in KnownKeys && Supported(items[i], version, lang)
    requires items[i].packages.None? && items[i].package.Some? && items[i].package.value != ""
    ensures JobFor(items, key, version, lang) ==
      Some(AddJob(items[i].dev == Some(true), [PackageSpec(items[i].package.value, VersionPin(items[i], version))]))
    ensures CustomJob(items, key, version, lang) == Some(AddJob(items[i].dev == Some(true), [items[i].package.value]))
  {
    FirstMatchWins(items, key, version, lang, i);
    FindByKeyFirst(items, key);
    assert FindByKey(items, key) == Some(i);
    assert Specs(items[i], version) == [PackageSpec(items[i].package.value, VersionPin(items[i], version))];
  }

  /** The arguments of one `pnpm add`: `-D` exactly for development dependencies, the package last. */
  function AddArgs(dev: bool, pkg: string): (args: seq<string>)
    ensures |args| == (if dev then 3 else 2) && args[0] == "add" && args[|args| - 1] == pkg
    ensures dev ==> args[1] == "-D"
  {
    ["add"] + (if dev then ["-D"] else []) + [pkg]
  }

  /** The default registry carries the built-in keys, in order and without repetition. */
  lemma DefaultRegistryKeys()
    ensures |DefaultComponents()| == |KnownKeys|
    ensures forall i :: 0 <= i < |KnownKeys| ==> DefaultComponents()[i].key == Some(KnownKeys[i])
    ensures forall i, j :: 0 <= i < j < |KnownKeys| ==> KnownKeys[i] != KnownKeys[j]
  {
  }

  /** `naive-ui` from the default registry is refused for Vue 2 and for JavaScript, and accepted otherwise. */
  lemma DefaultNaiveUiSupport(version: string, lang: string)
    ensures JobFor(DefaultComponents(), "naive-ui", version, lang).Some? <==> version == "vue3" && lang == "ts"
  {
    FirstMatchWins(DefaultComponents(), "naive-ui", version, lang, 3);
    StringElementsAllStrings(["naive-ui"]);
  }

  /** An entry listing exactly two package names, under a pin, yields both names pinned, in order. */
  lemma PinnedPair(item: Item, version: string, names: seq<string>, pin: string)
    requires |names| == 2
    requires item.packages == Some(seq(|names|, i requires 0 <= i < |names| => Str(names[i])))
    requires VersionPin(item, version) == Some(pin)
    ensures Specs(item, version) == [names[0] + "@" + pin, names[1] + "@" + pin]
  {
    SpecsShape(item, version, names);
  }

  /** `pinia` from the default registry, under Vue 3 and under Vue 2. */
  lemma DefaultPiniaJobs(lang: string)
    ensures JobFor(DefaultComponents(), "pinia", "vue3", lang) ==
      Some(AddJob(false, ["pinia@^2.3.1", "pinia-plugin-persistedstate@^2.3.1"]))
    ensures JobFor(DefaultComponents(), "pinia", "vue2", lang) ==
      Some(AddJob(false, ["pinia", "pinia-plugin-persistedstate"]))
  {
    var it := DefaultComponents()[1];
    FirstMatchWins(DefaultComponents(), "pinia", "vue3", lang, 1);
    FirstMatchWins(DefaultComponents(), "pinia", "vue2", lang, 1);
    PinnedPair(it, "vue3", ["pinia", "pinia-plugin-persistedstate"], "^2.3.1");
    assert "pinia" + "@" + "^2.3.1" == "pinia@^2.3.1";
    assert "pinia-plugin-persistedstate" + "@" + "^2.3.1" == "pinia-plugin-persistedstate@^2.3.1";
    SpecsShape(it, "vue2", ["pinia", "pinia-plugin-persistedstate"]);
  }

  /** `sass` from the default registry is a development dependency pinned for both Vue versions. */
  lemma DefaultSassJob(version: string, lang: string)
    ensures JobFor(DefaultComponents(), "sass", version, lang) ==
      Some(AddJob(true, ["sass@^1.94.0", "sass-loader@^1.94.0"]))
  {
    var it := DefaultComponents()[2];
    FirstMatchWins(DefaultComponents(), "sass", version, lang, 2);
    PinnedPair(it, version, ["sass", "sass-loader"], "^1.94.0");
    assert "sass" + "@" + "^1.94.0" == "sass@^1.94.0";
    assert "sass-loader" + "@" + "^1.94.0" == "sass-loader@^1.94.0";
  }
}
