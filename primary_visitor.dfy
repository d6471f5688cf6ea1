/**
 * The per-class orchestrator of the instrumentation pipeline. ASM calls
 * `Visit` once at the start of a class, then `VisitField` and `VisitMethod`
 * per member in file order, then `VisitEnd`. Every call the visitor makes on
 * the downstream class visitor is appended to `out`.
 */
module PrimaryVisitor {
  import opened Wrappers
  import opened Facts
  import opened Rules

  class PrimaryClassVisitor {
    /** The plugin manager's module toggles, read-only during a build. */
    const modules: Modules
    /** `ClassNameAnalytics(name, superName, interfaces)`: the classifier collaborator. */
    const classify: (string, Option<string>, Option<seq<string>>) -> Classification
    /** The config hook helper's answer, for the class it was initialised with, whether a method is to be deleted. */
    const isConfigsMethod: (string, Option<string>, Option<string>) -> bool
    /** The two collections shared by every auto-track stage of the class. */
    const visitedFragMethods: NameSet
    const lambdaMethodCells: CellTable

    /** Whether `visit` ran, so that `classNameAnalytics` is initialised. */
    var visited: bool
    var classification: Classification
    /** `shouldReturnJSRAdapter` */
    var legacy: bool
    /** `isFoundOnNewIntent` */
    var foundOnNewIntent: bool
    /** The class the config hook helper was initialised with. */
    var configClass: string
    /** The calls made on the downstream class visitor so far. */
    var out: seq<Call>

    constructor (modules: Modules,
                 classify: (string, Option<string>, Option<seq<string>>) -> Classification,
                 isConfigsMethod: (string, Option<string>, Option<string>) -> bool)
      ensures this.modules == modules && this.classify == classify && this.isConfigsMethod == isConfigsMethod
      ensures fresh(visitedFragMethods) && fresh(lambdaMethodCells)
      ensures visitedFragMethods.names == {} && lambdaMethodCells.cells == map[]
      ensures !visited && !legacy && !foundOnNewIntent && out == []
    {
      this.modules := modules;
      this.classify := classify;
      this.isConfigsMethod := isConfigsMethod;
      visitedFragMethods := new NameSet();
      lambdaMethodCells := new CellTable();
      visited := false;
      classification := Classification(false, false, false, None);
      legacy := false;
      foundOnNewIntent := false;
      configClass := "";
      out := [];
    }

    /**
     * Forwards the class header downstream, then records the classification,
     * the legacy-format flag and the class for the config hook helper. The
     * legacy flag depends on the version alone, not on any earlier state.
     */
    method Visit(version: Int32, access: Int32, name: string, signature: Option<string>,
                 superName: Option<string>, interfaces: Option<seq<string>>)
      modifies this`visited, this`classification, this`legacy, this`configClass, this`out
      ensures visited
      ensures classification == classify(name, superName, interfaces)
      ensures legacy == IsLegacyFormat(version)
      ensures configClass == name
      ensures out == old(out) + [DelegateVisit(version, access, name, signature, superName, interfaces)]
    {
      out := out + [DelegateVisit(version, access, name, signature, superName, interfaces)];
      classification := classify(name, superName, interfaces);
      legacy := IsLegacyFormat(version);
      configClass := name;
      visited := true;
    }

    /**
     * Forwards the field downstream first; the field gets the version-field
     * stage around the downstream visitor exactly when the class is the SDK
     * API class or the version class.
     */
    method VisitField(access: Int32, name: Option<string>, descriptor: Option<string>,
                      signature: Option<string>, value: Option<Constant>) returns (fv: FieldVisitorChoice)
      requires visited
      modifies this`out
      ensures out == old(out) + [DelegateField(access, name, descriptor, signature, value)]
      ensures fv.VersionFieldVisitor? <==> classification.isSensorsDataAPI || classification.isSensorsDataVersion
      ensures fv.VersionFieldVisitor? ==> fv.name == name && fv.value == value
    {
      out := out + [DelegateField(access, name, descriptor, signature, value)];
      if classification.isSensorsDataAPI || classification.isSensorsDataVersion {
        return VersionFieldVisitor(name, value);
      }
      return DownstreamFieldVisitor;
    }

    /** The stage context the recorded class facts give. */
    function Context(): StageContext
      reads this
    {
      StageContext(modules, classification.isAppWebViewInterface, legacy)
    }

    /**
     * Deletes a config method (`None`: nothing goes downstream and the flag
     * is untouched). Otherwise updates the `onNewIntent` flag, forwards the
     * method downstream and wraps the downstream method visitor in the
     * active stages, innermost first.
     */
    method VisitMethod(access: Int32, name: Option<string>, descriptor: Option<string>,
                       signature: Option<string>, exceptions: Option<seq<string>>)
      returns (r: Option<seq<Stage>>)
      requires visited
      requires !isConfigsMethod(configClass, name, descriptor) && modules.webView ==> descriptor.Some?
      requires !isConfigsMethod(configClass, name, descriptor) && modules.autoTrack ==> name.Some? && descriptor.Some?
      modifies this`out, this`foundOnNewIntent
      ensures r.None? <==> isConfigsMethod(configClass, name, descriptor)
      ensures r.None? ==> out == old(out) && foundOnNewIntent == old(foundOnNewIntent)
      ensures r.Some? ==> out == old(out) + [DelegateMethod(MethodDecl(access, name, descriptor, signature, exceptions))]
      ensures r.Some? ==> r.value == MethodChain(Context(), visitedFragMethods, lambdaMethodCells)
      ensures foundOnNewIntent == NextFound(old(foundOnNewIntent), isConfigsMethod(configClass, name, descriptor),
                                            classification.superClass, name, descriptor)
      ensures old(foundOnNewIntent) ==> foundOnNewIntent
    {
      if isConfigsMethod(configClass, name, descriptor) {
        return None;
      }
      if IsOnNewIntentOverride(classification.superClass, name, descriptor) {
        foundOnNewIntent := true;
      }
      out := out + [DelegateMethod(MethodDecl(access, name, descriptor, signature, exceptions))];
      var ctx := Context();
      // Each piece is empty or the one stage its condition adds.
      ghost var web := if ctx.modules.webView then [WebView] else [];
      ghost var push := if ctx.modules.push then [Push] else [];
      ghost var js := if ctx.isAppWebViewInterface then [JSAnnotation] else [];
      ghost var auto := if ctx.modules.autoTrack then [AutoTrack(visitedFragMethods, lambdaMethodCells)] else [];
      ghost var jsr := if ctx.legacy then [JSR] else [];
      var chain: seq<Stage> := [];
      if ctx.modules.webView {
        chain := chain + [WebView];
      }
      assert chain == web;
      if ctx.modules.push {
        chain := chain + [Push];
      }
      assert chain == web + push;
      if ctx.isAppWebViewInterface {
        chain := chain + [JSAnnotation];
      }
      assert chain == web + push + js;
      if ctx.modules.autoTrack {
        chain := chain + [AutoTrack(visitedFragMethods, lambdaMethodCells)];
      }
      assert chain == web + push + js + auto;
      chain := chain + [VersionMV];
      if ctx.legacy {
        chain := chain + [JSR];
      }
      assert chain == web + push + js + auto + [VersionMV] + jsr;
      WrappedInOrder(web, push, js, auto, [VersionMV], jsr);
      MethodChainStepwise(ctx, visitedFragMethods, lambdaMethodCells);
      r := Some(chain);
    }

    /**
     * Ends the downstream class, then appends `onNewIntent` when push is on,
     * none was found and the direct superclass is `Activity`, then hooks the
     * fragment methods when auto-track is on, then always adds the disabled
     * identifier methods.
     */
    method VisitEnd()
      requires visited
      modifies this`out
      ensures out == old(out) + EndActions(modules, foundOnNewIntent, classification.superClass, visitedFragMethods)
    {
      out := out + [DelegateEnd];
      if modules.push && !foundOnNewIntent && classification.superClass == Some(ActivityClass) {
        out := out + [AddOnNewIntent];
      }
      if modules.autoTrack {
        out := out + [HookFragment(classification.superClass, visitedFragMethods)];
      }
      out := out + [DisableIdentifierMethods];
    }
  }
}
