/**
 * The entry-file patcher and the asset writer: after generation, the entry
 * file gets the import lines of the requested features it lacks, the blocking
 * pipeline also wires the pinia persistence plugin into the store set-up, and
 * a default stylesheet and a sample store are written where absent.
 */
module Patcher {
  import opened Wrappers
  import opened Text
  import opened Seqs

  // -------------------------------------------------------------------
  // Import lines

  const ScssImport := "import './styles/main.scss'"
  const LatoImport := "import 'vfonts/Lato.css'"
  const FiraImport := "import 'vfonts/FiraCode.css'"
  /** Its presence anywhere in the file counts as the plugin being imported already. */
  const PersistedPackage := "pinia-plugin-persistedstate"
  const PersistedImport := "import persisted from '" + PersistedPackage + "'"

  /**
   * The candidate import lines, in the order sass, Lato, FiraCode, plugin: the
   * plugin import only when `pinia` is requested and the file does not mention
   * the plugin package at all.
   */
  function CandidateLines(features: seq<string>, content: string): (lines: seq<string>)
    ensures ScssImport in lines <==> "sass" in features
    ensures LatoImport in lines <==> "vfonts" in features
    ensures FiraImport in lines <==> "vfonts" in features
    ensures PersistedImport in lines <==> "pinia" in features && !Contains(content, PersistedPackage)
    ensures forall l :: l in lines ==> l == ScssImport || l == LatoImport || l == FiraImport || l == PersistedImport
  {
    (if "sass" in features then [ScssImport] else [])
      + (if "vfonts" in features then [LatoImport, FiraImport] else [])
      + (if "pinia" in features && !Contains(content, PersistedPackage) then [PersistedImport] else [])
  }

  /** The lines `content` lacks, each followed by a newline, in their order. */
  function Header(lines: seq<string>, content: string): (h: string)
    ensures h == "" <==> forall l :: l in lines ==> Contains(content, l)
  {
    if lines == [] then ""
    else
      assert forall l :: l in lines <==> l == lines[0] || l in lines[1..];
      (if Contains(content, lines[0]) then "" else lines[0] + "\n") + Header(lines[1..], content)
  }

  /** The header grows line by line, as the loop that builds it. */
  lemma {:induction false} HeaderAppend(lines: seq<string>, l: string, content: string)
    ensures Header(lines + [l], content) == Header(lines, content) + (if Contains(content, l) then "" else l + "\n")
  {
    if lines == [] {
      assert lines + [l] == [l];
    } else {
      var first := if Contains(content, lines[0]) then "" else lines[0] + "\n";
      var last := if Contains(content, l) then "" else l + "\n";
      SnocTail(lines, l);
      HeaderAppend(lines[1..], l, content);
      Assoc(first, Header(lines[1..], content), last);
    }
  }

  /** Every line the content lacks is in the header. */
  lemma {:induction false} HeaderHasMissing(lines: seq<string>, content: string, l: string)
    requires l in lines && !HasOcc(content, l)
    ensures HasOcc(Header(lines, content), l)
  {
    ContainsIff(content, l);
    var rest := Header(lines[1..], content);
    if lines[0] == l {
      OccursBetween("", l, "\n");
      assert "" + l + "\n" == l + "\n";
      OccursInConcat(l + "\n", rest, l);
    } else {
      HeaderHasMissing(lines[1..], content, l);
      OccursInConcat(if Contains(content, lines[0]) then "" else lines[0] + "\n", rest, l);
    }
  }

  /** The entry file after the import step: the missing candidate lines, then the old content. */
  function Prepended(features: seq<string>, content: string): string
  {
    Header(CandidateLines(features, content), content) + content
  }

  /**
   * The import step as the source performs it: collect the candidate lines,
   * and only if one of them is missing build the header line by line and put
   * it in front of the content.
   */
  method PrependImports(features: seq<string>, content: string) returns (patched: string)
    ensures patched == Prepended(features, content)
  {
    var lines: seq<string> := [];
    if "sass" in features {
      lines := lines + [ScssImport];
    }
    if "vfonts" in features {
      lines := lines + [LatoImport];
      lines := lines + [FiraImport];
    }
    if "pinia" in features && !Contains(content, PersistedPackage) {
      lines := lines + [PersistedImport];
    }
    assert lines == CandidateLines(features, content);
    patched := content;
    var needUpdate := exists l :: l in lines && !Contains(content, l);
    if needUpdate {
      var header := BuildHeader(lines, content);
      patched := header + content;
    }
  }

  /** The header loop: each line the content lacks, followed by a newline. */
  method BuildHeader(lines: seq<string>, content: string) returns (header: string)
    ensures header == Header(lines, content)
  {
    header := "";
    for i := 0 to |lines|
      invariant header == Header(lines[..i], content)
    {
      assert lines[..i + 1] == lines[..i] + [lines[i]];
      HeaderAppend(lines[..i], lines[i], content);
      if !Contains(content, lines[i]) {
        header := header + lines[i] + "\n";
      }
    }
    assert lines[..|lines|] == lines;
  }

  /** When every candidate line is present, the import step leaves the file alone. */
  lemma PrependUnchanged(features: seq<string>, content: string)
    requires forall l :: l in CandidateLines(features, content) ==> HasOcc(content, l)
    ensures Prepended(features, content) == content
  {
    forall l | l in CandidateLines(features, content) ensures Contains(content, l) {
      ContainsIff(content, l);
    }
  }

  /** After the import step every candidate line is present, and the old content is kept as a suffix. */
  lemma PrependComplete(features: seq<string>, content: string)
    ensures forall l :: l in CandidateLines(features, content) ==> HasOcc(Prepended(features, content), l)
    ensures HasOcc(Prepended(features, content), content)
  {
    var lines := CandidateLines(features, content);
    var h := Header(lines, content);
    forall l | l in lines ensures HasOcc(h + content, l) {
      if HasOcc(content, l) {
        OccursInConcat(h, content, l);
      } else {
        HeaderHasMissing(lines, content, l);
        OccursInConcat(h, content, l);
      }
    }
    OccursInSelf(content);
    OccursInConcat(h, content, content);
  }

  /** A file mentioning the plugin package keeps mentioning it after the import step. */
  lemma PrependKeeps(features: seq<string>, content: string, l: string)
    requires HasOcc(content, l)
    ensures HasOcc(Prepended(features, content), l)
  {
    OccursInConcat(Header(CandidateLines(features, content), content), content, l);
  }

  /** The plugin package occurs in the plugin import line. */
  lemma PackageInImport()
    ensures HasOcc(PersistedImport, PersistedPackage)
  {
    OccursBetween("import persisted from '", PersistedPackage, "'");
  }

  /**
   * After the import step a file requested with `pinia` mentions the plugin
   * package: either it did before, or the plugin import was prepended.
   */
  lemma PrependMentionsPlugin(features: seq<string>, content: string)
    requires "pinia" in features
    ensures HasOcc(Prepended(features, content), PersistedPackage)
  {
    ContainsIff(content, PersistedPackage);
    if HasOcc(content, PersistedPackage) {
      PrependKeeps(features, content, PersistedPackage);
    } else {
      PrependComplete(features, content);
      PackageInImport();
      OccursTrans(Prepended(features, content), PersistedImport, PersistedPackage);
    }
  }

  /** Every candidate line of a file is present when the fixed lines are and the plugin is mentioned. */
  lemma NothingMissing(features: seq<string>, content: string)
    requires "sass" in features ==> HasOcc(content, ScssImport)
    requires "vfonts" in features ==> HasOcc(content, LatoImport) && HasOcc(content, FiraImport)
    requires "pinia" in features ==> HasOcc(content, PersistedPackage)
    ensures Prepended(features, content) == content
  {
    ContainsIff(content, PersistedPackage);
    PrependUnchanged(features, content);
  }

  /** The import step is idempotent: a second run adds nothing. */
  lemma PrependIdempotent(features: seq<string>, content: string)
    ensures Prepended(features, Prepended(features, content)) == Prepended(features, content)
  {
    var c1 := Prepended(features, content);
    PrependComplete(features, content);
    if "pinia" in features {
      PrependMentionsPlugin(features, content);
    }
    NothingMissing(features, c1);
  }

  // -------------------------------------------------------------------
  // The pinia rewrite

  const AppUsePinia := "app.use(createPinia())"
  const CreatePiniaCall := "createPinia()"
  const AppUseOpen := "app.use("
  const PiniaBinding := "const pinia = createPinia()"
  const PluginUse := "pinia.use(persisted)"
  /** What follows the binding in both named forms. */
  const PluginTail := ";\n" + PluginUse + ";\n"
  /** `const pinia = createPinia();`, the plugin, then `app.use(pinia)`. */
  const AppUseRewritten := PiniaBinding + (PluginTail + "app.use(pinia)")
  /** `const pinia = createPinia();`, the plugin, then the bare `pinia` in place of the call. */
  const CreatePiniaRewritten := PiniaBinding + (PluginTail + "pinia")
  const PluginAppendix := "\n// pinia persisted plugin\n" + PluginUse + "\n"

  /** The looser shape: a `createPinia()` call and an `app.use(` without the plugin registered. */
  predicate LooseShape(content: string)
  {
    Contains(content, CreatePiniaCall) && Contains(content, AppUseOpen) && !Contains(content, PluginUse)
  }

  /**
   * The heuristic rewrite: `app.use(createPinia())` becomes a named store
   * with the plugin; failing that, the looser shape gets the plugin either by
   * naming every `createPinia()` call or, when a binding exists, by an
   * appended registration; anything else is returned unchanged.
   */
  function PiniaRewrite(content: string): (r: string)
    ensures Contains(content, PluginUse) && !Contains(content, AppUsePinia) ==> r == content
    ensures !Contains(content, CreatePiniaCall) ==> r == content
  {
    AppUseHasCall(content);
    if Contains(content, AppUsePinia) then ReplaceAll(content, AppUsePinia, AppUseRewritten)
    else if LooseShape(content) then
      if !Contains(content, PiniaBinding) then ReplaceAll(content, CreatePiniaCall, CreatePiniaRewritten)
      else content + PluginAppendix
    else content
  }

  /** Content holding `app.use(createPinia())` holds a `createPinia()` call. */
  lemma AppUseHasCall(content: string)
    ensures Contains(content, AppUsePinia) ==> Contains(content, CreatePiniaCall)
  {
    ContainsIff(content, AppUsePinia);
    ContainsIff(content, CreatePiniaCall);
    if Contains(content, AppUsePinia) {
      assert OccursAt(AppUsePinia, CreatePiniaCall, 8);
      OccursTrans(content, AppUsePinia, CreatePiniaCall);
    }
  }

  /** The plugin registration occurs in each of the three insertions. */
  lemma PluginUseInserted()
    ensures HasOcc(AppUseRewritten, PluginUse)
    ensures HasOcc(CreatePiniaRewritten, PluginUse)
    ensures HasOcc(PluginAppendix, PluginUse)
  {
    OccursBetween(";\n", PluginUse, ";\n");
    OccursInConcat(PluginTail, "app.use(pinia)", PluginUse);
    OccursInConcat(PiniaBinding, PluginTail + "app.use(pinia)", PluginUse);
    OccursInConcat(PluginTail, "pinia", PluginUse);
    OccursInConcat(PiniaBinding, PluginTail + "pinia", PluginUse);
    OccursBetween("\n// pinia persisted plugin\n", PluginUse, "\n");
  }

  /**
   * Neither named form contains `app.use(createPinia())`: the binding has no
   * `.`, and what follows it starts with `;` and has no capital `P`.
   */
  lemma RewrittenLacksAppUse(rest: string)
    requires rest == "app.use(pinia)" || rest == "pinia"
    ensures !HasOcc(PiniaBinding + (PluginTail + rest), AppUsePinia)
  {
    assert AppUsePinia[3] == '.' && AppUsePinia[14] == 'P';
    MissingChar(PiniaBinding, AppUsePinia, 3);
    assert 'P' !in PluginTail + rest;
    MissingChar(PluginTail + rest, AppUsePinia, 14);
    AppendLeavesNo(PiniaBinding, PluginTail + rest, AppUsePinia);
  }

  /** The characters of the named form of `app.use(createPinia())` that the proofs below rely on. */
  lemma AppUseRewrittenChars()
    ensures var r := AppUseRewritten;
      |r| == 65 && r[0] == 'c' && r[1] == 'o' && r[44] == 's' && r[64] == ')'
  {
  }

  /** The characters of the named form of `createPinia()` that the proofs below rely on. */
  lemma CreatePiniaRewrittenChars()
    ensures var r := CreatePiniaRewritten;
      |r| == 56 && r[0] == 'c' && r[1] == 'o' && r[37] == 'e' && r[44] == 's' && r[55] == 'a'
  {
  }

  /** Each suffix of `app.use(createPinia())` after its first character clashes with a string starting `co`. */
  lemma RewrittenClashes(r: string)
    requires |r| >= 2 && r[0] == 'c' && r[1] == 'o'
    ensures ClashesWithSuffixes(r, AppUsePinia[1..])
  {
    var w := AppUsePinia[1..];
    assert 'o' !in w && w[|w| - 1] != 'c';
    forall k | 0 <= k < |w| ensures Clash(r, w[k..]) {
      if w[k] != r[0] {
        assert w[k..][0] != r[0];
      } else {
        assert w[k..][1] == w[k + 1] != r[1];
      }
    }
  }

  /** Replacing `app.use(createPinia())` by its named form cannot create a new one. */
  lemma AppUseCannotCreate()
    ensures CannotCreate(AppUsePinia, AppUseRewritten, AppUsePinia)
  {
    var r, q := AppUseRewritten, AppUsePinia;
    RewrittenLacksAppUse("app.use(pinia)");
    AppUseRewrittenChars();
    RewrittenClashes(r);
    forall k | 0 < k < |q| && k <= |r| ensures r[|r| - k..] != q[..k] {
      assert r[|r| - k..][k - 1] == r[|r| - 1];
      assert q[..k][k - 1] == q[k - 1];
      if q[k - 1] == ')' {
        assert r[|r| - k..][0] == r[44] != q[..k][0];
      }
    }
  }

  /** Replacing `createPinia()` by the named form cannot create `app.use(createPinia())`. */
  lemma CreatePiniaCannotCreate()
    ensures CannotCreate(CreatePiniaCall, CreatePiniaRewritten, AppUsePinia)
  {
    var r, q := CreatePiniaRewritten, AppUsePinia;
    RewrittenLacksAppUse("pinia");
    CreatePiniaRewrittenChars();
    RewrittenClashes(r);
    OccursInTail();
    forall k | 0 < k < |q| && k <= |r| && r[|r| - k..] == q[..k] ensures HasOcc(q[k..], CreatePiniaCall) {
      assert r[|r| - k..][k - 1] == r[|r| - 1];
      assert q[..k][k - 1] == q[k - 1];
      assert r[|r| - k..][0] == q[..k][0];
    }
  }

  /** `createPinia()` occurs in `app.use(createPinia())` after its first character. */
  lemma OccursInTail()
    ensures HasOcc(AppUsePinia[1..], CreatePiniaCall)
  {
    assert AppUsePinia[1..] == "pp.use(" + CreatePiniaCall + ")";
    OccursBetween("pp.use(", CreatePiniaCall, ")");
  }

  /** `app.use(createPinia())` has no newline and the appended registration has no capital `P`. */
  lemma AppendixLacksAppUse(content: string)
    requires !HasOcc(content, AppUsePinia)
    ensures !HasOcc(content + PluginAppendix, AppUsePinia)
  {
    assert AppUsePinia[14] == 'P' && 'P' !in PluginAppendix;
    MissingChar(PluginAppendix, AppUsePinia, 14);
    AppendLeavesNo(content, PluginAppendix, AppUsePinia);
  }

  /**
   * What the rewrite achieves: on either recognised shape the result registers
   * the plugin and no longer holds `app.use(createPinia())`; on any other
   * content it changes nothing.
   */
  lemma PiniaRewriteEffect(content: string)
    ensures Contains(content, AppUsePinia) || LooseShape(content) ==>
      HasOcc(PiniaRewrite(content), PluginUse) && !HasOcc(PiniaRewrite(content), AppUsePinia)
    ensures !Contains(content, AppUsePinia) && !LooseShape(content) ==> PiniaRewrite(content) == content
  {
    ContainsIff(content, AppUsePinia);
    ContainsIff(content, CreatePiniaCall);
    PluginUseInserted();
    if Contains(content, AppUsePinia) {
      ReplaceIntroduces(content, AppUsePinia, AppUseRewritten);
      OccursTrans(PiniaRewrite(content), AppUseRewritten, PluginUse);
      AppUseCannotCreate();
      ReplaceLeavesNo(content, AppUsePinia, AppUseRewritten, AppUsePinia);
    } else if LooseShape(content) {
      if !Contains(content, PiniaBinding) {
        ReplaceIntroduces(content, CreatePiniaCall, CreatePiniaRewritten);
        OccursTrans(PiniaRewrite(content), CreatePiniaRewritten, PluginUse);
        CreatePiniaCannotCreate();
        ReplaceLeavesNo(content, CreatePiniaCall, CreatePiniaRewritten, AppUsePinia);
      } else {
        OccursInConcat(content, PluginAppendix, PluginUse);
        AppendixLacksAppUse(content);
      }
    }
  }

  /** Applying the rewrite to its own output changes nothing. */
  lemma PiniaRewriteIdempotent(content: string)
    ensures PiniaRewrite(PiniaRewrite(content)) == PiniaRewrite(content)
  {
    PiniaRewriteEffect(content);
    var c1 := PiniaRewrite(content);
    ContainsIff(c1, AppUsePinia);
    ContainsIff(c1, PluginUse);
    PiniaRewriteEffect(c1);
  }

  /** Two strings whose suffixes disagree with the other's start within two characters cannot overlap. */
  lemma NoOverlapByTwo(l: string, p: string)
    requires |l| >= 2 && |p| >= 2
    requires forall d :: 0 <= d < |p| && p[d] == l[0] ==> d + 1 < |p| && p[d + 1] != l[1]
    requires forall e :: 0 <= e < |l| && l[e] == p[0] ==> e + 1 < |l| && l[e + 1] != p[1]
    ensures NoOverlap(l, p)
  {
    forall d | 0 <= d < |p| ensures Clash(p[d..], l) {
      if p[d] != l[0] {
        assert p[d..][0] != l[0];
      } else {
        assert p[d..][1] != l[1];
      }
    }
    forall e | 0 <= e < |l| ensures Clash(l[e..], p) {
      if l[e] != p[0] {
        assert l[e..][0] != p[0];
      } else {
        assert l[e..][1] != p[1];
      }
    }
  }

  /** The strings the import step looks for cannot overlap either pattern of the rewrite. */
  lemma KeptStringsDoNotOverlap(l: string)
    requires l == ScssImport || l == LatoImport || l == FiraImport || l == PersistedPackage
    ensures NoOverlap(l, AppUsePinia) && NoOverlap(l, CreatePiniaCall)
  {
    if l == ScssImport {
      ScssImportApart();
    } else if l == LatoImport {
      LatoImportApart();
    } else if l == FiraImport {
      FiraImportApart();
    } else {
      PersistedPackageApart();
    }
  }

  lemma ScssImportApart()
    ensures NoOverlap(ScssImport, AppUsePinia) && NoOverlap(ScssImport, CreatePiniaCall)
  {
    ScssImportApartFromAppUse();
    ScssImportApartFromCall();
  }

  lemma ScssImportApartFromAppUse()
    ensures NoOverlap(ScssImport, AppUsePinia)
  {
    NoOverlapByTwo(ScssImport, AppUsePinia);
  }

  lemma ScssImportApartFromCall()
    ensures NoOverlap(ScssImport, CreatePiniaCall)
  {
    NoOverlapByTwo(ScssImport, CreatePiniaCall);
  }

  lemma LatoImportApart()
    ensures NoOverlap(LatoImport, AppUsePinia) && NoOverlap(LatoImport, CreatePiniaCall)
  {
    LatoImportApartFromAppUse();
    LatoImportApartFromCall();
  }

  lemma LatoImportApartFromAppUse()
    ensures NoOverlap(LatoImport, AppUsePinia)
  {
    NoOverlapByTwo(LatoImport, AppUsePinia);
  }

  lemma LatoImportApartFromCall()
    ensures NoOverlap(LatoImport, CreatePiniaCall)
  {
    NoOverlapByTwo(LatoImport, CreatePiniaCall);
  }

  lemma FiraImportApart()
    ensures NoOverlap(FiraImport, AppUsePinia) && NoOverlap(FiraImport, CreatePiniaCall)
  {
    FiraImportApartFromAppUse();
    FiraImportApartFromCall();
  }

  lemma FiraImportApartFromAppUse()
    ensures NoOverlap(FiraImport, AppUsePinia)
  {
    NoOverlapByTwo(FiraImport, AppUsePinia);
  }

  lemma FiraImportApartFromCall()
    ensures NoOverlap(FiraImport, CreatePiniaCall)
  {
    NoOverlapByTwo(FiraImport, CreatePiniaCall);
  }

  lemma PersistedPackageApart()
    ensures NoOverlap(PersistedPackage, AppUsePinia) && NoOverlap(PersistedPackage, CreatePiniaCall)
  {
    PersistedPackageApartFromAppUse();
    PersistedPackageApartFromCall();
  }

  lemma PersistedPackageApartFromAppUse()
    ensures NoOverlap(PersistedPackage, AppUsePinia)
  {
    NoOverlapByTwo(PersistedPackage, AppUsePinia);
  }

  lemma PersistedPackageApartFromCall()
    ensures NoOverlap(PersistedPackage, CreatePiniaCall)
  {
    NoOverlapByTwo(PersistedPackage, CreatePiniaCall);
  }

  /** The rewrite keeps every import line and the plugin package mention. */
  lemma PiniaRewriteKeeps(content: string, l: string)
    requires l == ScssImport || l == LatoImport || l == FiraImport || l == PersistedPackage
    requires HasOcc(content, l)
    ensures HasOcc(PiniaRewrite(content), l)
  {
    KeptStringsDoNotOverlap(l);
    var i :| OccursAt(content, l, i);
    if Contains(content, AppUsePinia) {
      ReplaceKeeps(content, AppUsePinia, AppUseRewritten, l, i);
    } else if LooseShape(content) {
      if !Contains(content, PiniaBinding) {
        ReplaceKeeps(content, CreatePiniaCall, CreatePiniaRewritten, l, i);
      } else {
        OccursInConcat(content, PluginAppendix, l);
      }
    }
  }

  // -------------------------------------------------------------------
  // The whole entry-file patch

  /** Whether the pipeline applies the pinia rewrite: blocking mode, Vue 3, `pinia` requested. */
  predicate RewritesPinia(version: string, features: seq<string>, blocking: bool)
  {
    blocking && version == "vue3" && "pinia" in features
  }

  /** The entry file after both steps. */
  function EntryPatch(content: string, version: string, features: seq<string>, blocking: bool): (r: string)
    ensures !blocking || version != "vue3" || "pinia" !in features ==> r == Prepended(features, content)
  {
    var c1 := Prepended(features, content);
    if RewritesPinia(version, features, blocking) then PiniaRewrite(c1) else c1
  }

  /** Patching is idempotent: running it on its own output is a no-op. */
  lemma EntryPatchIdempotent(content: string, version: string, features: seq<string>, blocking: bool)
    ensures var once := EntryPatch(content, version, features, blocking);
      EntryPatch(once, version, features, blocking) == once
  {
    PrependIdempotent(features, content);
    if RewritesPinia(version, features, blocking) {
      var c1 := Prepended(features, content);
      var c2 := PiniaRewrite(c1);
      PrependComplete(features, content);
      PrependMentionsPlugin(features, content);
      PiniaRewriteKeeps(c1, PersistedPackage);
      if "sass" in features {
        PiniaRewriteKeeps(c1, ScssImport);
      }
      if "vfonts" in features {
        PiniaRewriteKeeps(c1, LatoImport);
        PiniaRewriteKeeps(c1, FiraImport);
      }
      NothingMissing(features, c2);
      PiniaRewriteIdempotent(c1);
    }
  }

  /** In the streaming pipeline the patch is the import step alone. */
  lemma StreamingPatchIsPrepend(content: string, version: string, features: seq<string>)
    ensures EntryPatch(content, version, features, false) == Prepended(features, content)
  {
  }

  // -------------------------------------------------------------------
  // Files of the generated project

  function MainTs(projectDir: string): string { projectDir + "/src/main.ts" }
  function MainJs(projectDir: string): string { projectDir + "/src/main.js" }
  function ScssPath(projectDir: string): string { projectDir + "/src/styles/main.scss" }
  function StoreExt(lang: string): string { if lang == "ts" then "ts" else "js" }
  function CounterPath(projectDir: string, lang: string): string { projectDir + "/src/stores/counter." + StoreExt(lang) }

  /**
   * Stand-ins for the stylesheet and the two counter-store texts. The model
   * tracks which text goes to which path and when; it does not carry their
   * characters (see README, "Left out").
   */
  const ScssAsset := "x"
  const CounterTs := "t"
  const CounterJs := "j"

  function CounterAsset(lang: string): string { if lang == "ts" then CounterTs else CounterJs }

  /** The five paths the patch phase touches are pairwise distinct. */
  lemma PathsDistinct(projectDir: string, lang: string)
    ensures MainTs(projectDir) != MainJs(projectDir)
    ensures ScssPath(projectDir) != MainTs(projectDir) && ScssPath(projectDir) != MainJs(projectDir)
    ensures CounterPath(projectDir, lang) != MainTs(projectDir) && CounterPath(projectDir, lang) != MainJs(projectDir)
    ensures CounterPath(projectDir, lang) != ScssPath(projectDir)
  {
    assert MainTs(projectDir)[|projectDir| + 10] == 't' && MainJs(projectDir)[|projectDir| + 10] == 'j';
  }

  /** The entry file: `main.ts` when it exists, else `main.js` when it exists, whatever the language. */
  function EntryPath(files: map<string, string>, projectDir: string): (p: Option<string>)
    ensures p.Some? ==> p.value in files
    ensures p.None? <==> MainTs(projectDir) !in files && MainJs(projectDir) !in files
    ensures p.Some? && p.value != MainTs(projectDir) ==> p.value == MainJs(projectDir) && MainTs(projectDir) !in files
  {
    if MainTs(projectDir) in files then Some(MainTs(projectDir))
    else if MainJs(projectDir) in files then Some(MainJs(projectDir))
    else None
  }

  /** A write guarded by an existence check: an existing file is never overwritten. */
  function WriteIfAbsent(files: map<string, string>, path: string, content: string): (r: map<string, string>)
    ensures r.Keys == files.Keys + {path}
    ensures forall p :: p in files ==> r[p] == files[p]
    ensures path !in files ==> r[path] == content
  {
    if path in files then files else files[path := content]
  }

  /** The entry-file step over the file map. */
  function PatchEntry(files: map<string, string>, projectDir: string, version: string,
                      features: seq<string>, blocking: bool): (r: map<string, string>)
    ensures r.Keys == files.Keys
    ensures forall p :: p in files && EntryPath(files, projectDir) != Some(p) ==> r[p] == files[p]
    ensures EntryPath(files, projectDir).Some? ==>
      var p := EntryPath(files, projectDir).value; r[p] == EntryPatch(files[p], version, features, blocking)
  {
    match EntryPath(files, projectDir)
    case None => files
    case Some(p) => files[p := EntryPatch(files[p], version, features, blocking)]
  }

  /** The asset step: the stylesheet for `sass`, the sample store for Vue 3 with `pinia`. */
  function WriteAssets(files: map<string, string>, projectDir: string, version: string,
                       lang: string, features: seq<string>): (r: map<string, string>)
    ensures files.Keys <= r.Keys
    ensures forall p :: p in files ==> r[p] == files[p]
    ensures "sass" in features ==> ScssPath(projectDir) in r
    ensures version == "vue3" && "pinia" in features ==> CounterPath(projectDir, lang) in r
    ensures forall p :: p in r && p !in files ==> p == ScssPath(projectDir) || p == CounterPath(projectDir, lang)
  {
    var f1 := if "sass" in features then WriteIfAbsent(files, ScssPath(projectDir), ScssAsset) else files;
    if version == "vue3" && "pinia" in features then WriteIfAbsent(f1, CounterPath(projectDir, lang), CounterAsset(lang))
    else f1
  }

  /** The whole patch phase: the entry file first, then the assets. */
  function PatchedFiles(files: map<string, string>, projectDir: string, version: string, lang: string,
                        features: seq<string>, blocking: bool): (r: map<string, string>)
    ensures EntryPath(files, projectDir).Some? ==>
      var p := EntryPath(files, projectDir).value;
      p in r && r[p] == EntryPatch(files[p], version, features, blocking)
  {
    WriteAssets(PatchEntry(files, projectDir, version, features, blocking), projectDir, version, lang, features)
  }

  /**
   * The patch phase never removes or overwrites a file other than the entry
   * file, and creates no file other than the two assets.
   */
  lemma PatchFrame(files: map<string, string>, projectDir: string, version: string, lang: string,
                   features: seq<string>, blocking: bool)
    ensures var r := PatchedFiles(files, projectDir, version, lang, features, blocking);
      && files.Keys <= r.Keys
      && (forall p :: p in r && p !in files ==> p == ScssPath(projectDir) || p == CounterPath(projectDir, lang))
      && (forall p :: p in files && EntryPath(files, projectDir) != Some(p) ==> r[p] == files[p])
  {
  }

  /** Running the patch phase on its own output changes nothing. */
  lemma PatchIdempotent(files: map<string, string>, projectDir: string, version: string, lang: string,
                        features: seq<string>, blocking: bool)
    ensures var once := PatchedFiles(files, projectDir, version, lang, features, blocking);
      PatchedFiles(once, projectDir, version, lang, features, blocking) == once
  {
    var e := PatchEntry(files, projectDir, version, features, blocking);
    var once := WriteAssets(e, projectDir, version, lang, features);
    assert PatchEntry(once, projectDir, version, features, blocking) == once by {
      PatchEntryTwice(files, projectDir, version, features, blocking);
      PatchEntryAfterAssets(e, projectDir, version, lang, features, blocking);
    }
    WriteAssetsTwice(e, projectDir, version, lang, features);
  }

  /** Writing the assets leaves the entry file where it was, with the same content. */
  lemma WriteAssetsKeepEntry(files: map<string, string>, projectDir: string, version: string,
                             lang: string, features: seq<string>)
    ensures var w := WriteAssets(files, projectDir, version, lang, features);
      && EntryPath(w, projectDir) == EntryPath(files, projectDir)
      && (EntryPath(files, projectDir).Some? ==> w[EntryPath(files, projectDir).value] == files[EntryPath(files, projectDir).value])
  {
    PathsDistinct(projectDir, lang);
  }

  /** Writing the assets a second time changes nothing. */
  lemma WriteAssetsTwice(files: map<string, string>, projectDir: string, version: string,
                         lang: string, features: seq<string>)
    ensures var w := WriteAssets(files, projectDir, version, lang, features);
      WriteAssets(w, projectDir, version, lang, features) == w
  {
    PathsDistinct(projectDir, lang);
  }

  /** Patching the entry file a second time changes nothing. */
  lemma PatchEntryTwice(files: map<string, string>, projectDir: string, version: string,
                        features: seq<string>, blocking: bool)
    ensures var e := PatchEntry(files, projectDir, version, features, blocking);
      PatchEntry(e, projectDir, version, features, blocking) == e
  {
    var e := PatchEntry(files, projectDir, version, features, blocking);
    match EntryPath(files, projectDir) {
      case None =>
      case Some(p) =>
        EntryPatchIdempotent(files[p], version, features, blocking);
        assert EntryPath(e, projectDir) == Some(p);
    }
  }

  /** An entry file that patching leaves alone stays so once the assets are written. */
  lemma PatchEntryAfterAssets(files: map<string, string>, projectDir: string, version: string,
                              lang: string, features: seq<string>, blocking: bool)
    requires PatchEntry(files, projectDir, version, features, blocking) == files
    ensures var w := WriteAssets(files, projectDir, version, lang, features);
      PatchEntry(w, projectDir, version, features, blocking) == w
  {
    WriteAssetsKeepEntry(files, projectDir, version, lang, features);
    match EntryPath(files, projectDir) {
      case None =>
      case Some(p) =>
        assert files[p] == EntryPatch(files[p], version, features, blocking) by {
          assert files[p := EntryPatch(files[p], version, features, blocking)][p] == files[p];
        }
    }
  }

  /**
   * A Vue 3 TypeScript job requesting only `sass`, on an entry file without
   * the stylesheet import: the entry file gains exactly that line, the
   * stylesheet is created, and no store file appears.
   */
  lemma SassScenario(files: map<string, string>, projectDir: string, blocking: bool)
    requires MainTs(projectDir) in files && !HasOcc(files[MainTs(projectDir)], ScssImport)
    requires ScssPath(projectDir) !in files
    ensures var r := PatchedFiles(files, projectDir, "vue3", "ts", ["sass"], blocking);
      && r[MainTs(projectDir)] == ScssImport + "\n" + files[MainTs(projectDir)]
      && r[ScssPath(projectDir)] == ScssAsset
      && r.Keys == files.Keys + {ScssPath(projectDir)}
  {
    PathsDistinct(projectDir, "ts");
    var c := files[MainTs(projectDir)];
    ContainsIff(c, ScssImport);
    assert CandidateLines(["sass"], c) == [ScssImport];
  }

  /**
   * A blocking Vue 3 job requesting `pinia` on an entry file with
   * `app.use(createPinia())`: the plugin is registered, the original call is
   * gone, the import is present, and a second run changes nothing.
   */
  lemma PiniaScenario(content: string, lang: string)
    requires HasOcc(content, AppUsePinia)
    ensures var once := EntryPatch(content, "vue3", ["pinia"], true);
      && HasOcc(once, PluginUse) && !HasOcc(once, AppUsePinia) && HasOcc(once, PersistedPackage)
      && EntryPatch(once, "vue3", ["pinia"], true) == once
  {
    var c1 := Prepended(["pinia"], content);
    PrependKeeps(["pinia"], content, AppUsePinia);
    ContainsIff(c1, AppUsePinia);
    PiniaRewriteEffect(c1);
    PrependMentionsPlugin(["pinia"], content);
    PiniaRewriteKeeps(c1, PersistedPackage);
    EntryPatchIdempotent(content, "vue3", ["pinia"], true);
  }
}
