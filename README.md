# SAPrimaryClassVisitor, modelled in Dafny

`SAPrimaryClassVisitor` is the per-class orchestrator of the Sensors Analytics
Gradle plugin's bytecode instrumentation. ASM drives it over one compiled
class: `visit` once with the class header, `visitField` and `visitMethod`
once per member in file order, and `visitEnd` last. The visitor

- records the class's classification, whether the class file is in a legacy
  format that needs JSR inlining, and the class for the config hook helper;
- routes the fields of the SDK's API and version classes through the
  version-field stage;
- deletes the config methods that the config hook helper marks, notes whether
  an `Activity` subclass overrides `onNewIntent(Intent)`, and wraps every
  other method's downstream visitor in a chain of stages (web view, push,
  JavaScript-interface annotation, auto-track, SDK version, JSR adapter), each
  under its own module toggle or class fact;
- at the end, ends the downstream class, then adds `onNewIntent` to an
  `Activity` subclass that lacks it when push is on, hooks the fragment
  lifecycle methods when auto-track is on, and always adds the disabled
  config-identifier methods.

The project:

- `wrappers.dfy`: `Option`, standing for Kotlin's nullable values.
- `facts.dfy` (module `Facts`): a Java `int` (`Int32`), the classifier's
  answers, the module toggles, method headers, the stage and call datatypes,
  and the two shared per-class collections (`NameSet` for
  `visitedFragMethods`, `CellTable` for `mLambdaMethodCells`). These are
  objects, so sharing them between stages is modelled as aliasing.
- `rules.dfy` (module `Rules`): the decisions as functions. These are the
  class-file version test, the `onNewIntent` step, the method chain and the
  end-of-class actions, each with lemmas.
- `traversal.dfy` (module `Traversal`): the `onNewIntent` flag folded over
  all the methods of a class, and what `visitEnd` then appends.
- `primary_visitor.dfy` (module `PrimaryVisitor`): the class
  `PrimaryClassVisitor`. It has the source's per-class fields and a log
  `out` of every call made on the downstream class visitor. Its methods
  state the new state in terms of the functions in `Rules`.

A method chain is a `seq<Stage>` in the order the stages are built. Element
0 wraps the downstream method visitor. The last element is the visitor that
`visitMethod` returns, which is the first to see the original instructions.
`None` stands for the `null` returned for a deleted method.

Collaborators are parameters:
- `ClassNameAnalytics` is the function `classify`.
- `SAConfigHookHelper.isConfigsMethod` is the function `isConfigsMethod`,
  keyed by the class that `initConfigCellInClass` received.
- The plugin manager's `isModuleEnable` answers are the record `Modules`.
- `SensorsPushInjected.addOnNewIntent`, `FragmentHookHelper.hookFragment`
  and `disableIdentifierMethod` are recorded as calls in `out`. Each of
  them writes to the downstream class visitor.

## Model

| member | source | states |
|---|---|---|
| PrimaryVisitor.PrimaryClassVisitor.constructor | sa-gradle-plugin/src/main/kotlin/com/sensorsdata/analytics/android/plugin/visitor/SAPrimaryClassVisitor.kt:20-32 | A new visitor has not seen `visit`. Both flags are false, nothing has gone downstream, and it owns fresh, empty shared collections. |
| PrimaryVisitor.PrimaryClassVisitor.Visit | sa-gradle-plugin/src/main/kotlin/com/sensorsdata/analytics/android/plugin/visitor/SAPrimaryClassVisitor.kt:45-57 | Forwards the header downstream. Records the classifier's answer for (name, superName, interfaces) and the class for the config helper. The legacy flag becomes a function of the version alone (corrected test, see Findings). |
| PrimaryVisitor.PrimaryClassVisitor.VisitField | sa-gradle-plugin/src/main/kotlin/com/sensorsdata/analytics/android/plugin/visitor/SAPrimaryClassVisitor.kt:59-75 | Requires `visit` first (lateinit). Forwards the field downstream before deciding. Returns the version-field stage, carrying the field's name and value, exactly when the class is the SDK API class or the version class. Otherwise it returns the downstream visitor. |
| PrimaryVisitor.PrimaryClassVisitor.VisitMethod | sa-gradle-plugin/src/main/kotlin/com/sensorsdata/analytics/android/plugin/visitor/SAPrimaryClassVisitor.kt:86-166 | Requires `visit` first, and a name/descriptor wherever the source applies `!!`. A config method yields `None`: nothing goes downstream and the flag is unchanged. Otherwise the method is forwarded, the flag advances by `NextFound` (never reset), and the result is `MethodChain` of the recorded facts. |
| PrimaryVisitor.PrimaryClassVisitor.VisitEnd | sa-gradle-plugin/src/main/kotlin/com/sensorsdata/analytics/android/plugin/visitor/SAPrimaryClassVisitor.kt:168-190 | Requires `visit` first. Appends exactly `EndActions` of the push/auto-track toggles, the flag, the direct superclass and the shared name set. |
| Rules.PackVersion | sa-gradle-plugin/src/main/kotlin/com/sensorsdata/analytics/android/plugin/visitor/SAPrimaryClassVisitor.kt:55 | Packs major and minor the way ASM encodes a version int (`minor << 16 \| major`, as a signed int). The low 16 bits are the major version. The int is negative exactly when the minor version is 0x8000 or more. |
| Rules.VersionRoundTrip | sa-gradle-plugin/src/main/kotlin/com/sensorsdata/analytics/android/plugin/visitor/SAPrimaryClassVisitor.kt:55 | Major and minor versions unpack what `PackVersion` packed, and every version int is the packing of its own parts. |
| Rules.LegacyFormatIsMajorVersion | sa-gradle-plugin/src/main/kotlin/com/sensorsdata/analytics/android/plugin/visitor/SAPrimaryClassVisitor.kt:55 | The corrected legacy test holds exactly when the major version is at most 49 (Java 5), whatever the minor version. |
| Rules.LegacyTestsAgreeWithoutMinor | sa-gradle-plugin/src/main/kotlin/com/sensorsdata/analytics/android/plugin/visitor/SAPrimaryClassVisitor.kt:55 | For every version with minor 0, the written test `version <= V1_5` and the corrected test agree, and both mean major <= 49. |
| Rules.AsWrittenMissesJava1_1 | sa-gradle-plugin/src/main/kotlin/com/sensorsdata/analytics/android/plugin/visitor/SAPrimaryClassVisitor.kt:55 | Java 1.1 (`V1_1` = 196653, major 45, minor 3) is legacy, but the written test does not flag it. |
| Rules.AsWrittenFlagsPreviewClasses | sa-gradle-plugin/src/main/kotlin/com/sensorsdata/analytics/android/plugin/visitor/SAPrimaryClassVisitor.kt:55 | A Java 12 class file using preview features (minor 0xFFFF, int -65480) is not legacy, but the written test flags it. |
| Rules.NextFound | sa-gradle-plugin/src/main/kotlin/com/sensorsdata/analytics/android/plugin/visitor/SAPrimaryClassVisitor.kt:95-103 | After one method, the flag is set exactly when it was already set, or when the method was not deleted and is `onNewIntent` with descriptor `(Landroid/content/Intent;)V` on a class whose superclass is exactly `android/app/Activity`. It never goes from true to false. |
| Rules.Select | sa-gradle-plugin/src/main/kotlin/com/sensorsdata/analytics/android/plugin/visitor/SAPrimaryClassVisitor.kt:105-165 | Selecting the active stages never lengthens the list. |
| Rules.SelectMembers | sa-gradle-plugin/src/main/kotlin/com/sensorsdata/analytics/android/plugin/visitor/SAPrimaryClassVisitor.kt:105-165 | A stage is selected exactly when it is listed and its condition holds. |
| Rules.SelectKeepsRank | sa-gradle-plugin/src/main/kotlin/com/sensorsdata/analytics/android/plugin/visitor/SAPrimaryClassVisitor.kt:105-165 | Selecting from a list in canonical order keeps that order. |
| Rules.MethodChainStepwise | sa-gradle-plugin/src/main/kotlin/com/sensorsdata/analytics/android/plugin/visitor/SAPrimaryClassVisitor.kt:105-165 | The chain, defined as the active part of the canonical order, is the stage-by-stage wrapping the source performs. Each stage is appended under its own condition, and the version stage is always appended. |
| Rules.MethodChainMembers | sa-gradle-plugin/src/main/kotlin/com/sensorsdata/analytics/android/plugin/visitor/SAPrimaryClassVisitor.kt:105-165 | WebView iff WEB_VIEW, Push iff PUSH, JSAnnotation iff the class is a web-view interface, AutoTrack iff AUTOTRACK, VersionMV always, JSR iff the legacy flag. Every auto-track stage receives the class's own shared collections. |
| Rules.MethodChainOrdered | sa-gradle-plugin/src/main/kotlin/com/sensorsdata/analytics/android/plugin/visitor/SAPrimaryClassVisitor.kt:105-165 | The chain is strictly increasing in the fixed order WebView, Push, JSAnnotation, AutoTrack, VersionMV, JSR, so no stage occurs twice. |
| Rules.MethodChainOutermost | sa-gradle-plugin/src/main/kotlin/com/sensorsdata/analytics/android/plugin/visitor/SAPrimaryClassVisitor.kt:143-165 | The returned visitor is the JSR adapter exactly when the legacy flag is set, and the version stage otherwise. The JSR adapter wraps the version stage directly. Every module stage sits inside the version stage. |
| Rules.EndActions | sa-gradle-plugin/src/main/kotlin/com/sensorsdata/analytics/android/plugin/visitor/SAPrimaryClassVisitor.kt:168-190 | The end of a class makes two to four calls. The first ends the downstream class and the last adds the disabled identifier methods. |
| Rules.EndActionOccurrences | sa-gradle-plugin/src/main/kotlin/com/sensorsdata/analytics/android/plugin/visitor/SAPrimaryClassVisitor.kt:172-190 | Across all end actions: delegate end and disabled identifiers exactly once. `onNewIntent` once iff PUSH, not found and direct superclass `Activity`, otherwise never. The fragment hook once iff AUTOTRACK. Nothing else occurs. |
| Rules.EndActionsOrdered | sa-gradle-plugin/src/main/kotlin/com/sensorsdata/analytics/android/plugin/visitor/SAPrimaryClassVisitor.kt:168-190 | The end actions come in the order delegate end, `onNewIntent`, fragment hook, identifier methods, each optional one present exactly under its condition. The fragment hook gets the direct superclass and the class's shared name set. |
| Rules.FragmentHookSharesAutoTrackSet | sa-gradle-plugin/src/main/kotlin/com/sensorsdata/analytics/android/plugin/visitor/SAPrimaryClassVisitor.kt:136-141 | Every auto-track stage of a class and the fragment hook at its end receive one and the same name object. |
| Traversal.FoundAfterExactly | sa-gradle-plugin/src/main/kotlin/com/sensorsdata/analytics/android/plugin/visitor/SAPrimaryClassVisitor.kt:99-103 | After any sequence of methods, the flag is set exactly when it was set at the start or some method was not deleted and is the `onNewIntent` override. |
| Traversal.FoundAfterMonotone | sa-gradle-plugin/src/main/kotlin/com/sensorsdata/analytics/android/plugin/visitor/SAPrimaryClassVisitor.kt:99-103 | The flag is monotone: set after a prefix of the methods means set after all of them. |
| Traversal.NoOnNewIntentNotFound | sa-gradle-plugin/src/main/kotlin/com/sensorsdata/analytics/android/plugin/visitor/SAPrimaryClassVisitor.kt:99-103 | A class with no method named `onNewIntent` never sets the flag. |
| Traversal.OnNewIntentSynthesizedOnce | sa-gradle-plugin/src/main/kotlin/com/sensorsdata/analytics/android/plugin/visitor/SAPrimaryClassVisitor.kt:172-177 | After a whole class, `onNewIntent` is appended exactly once when push is on, the direct superclass is `Activity` and no kept method overrides it, and never otherwise. |
| Traversal.ActivityWithoutOnNewIntentGetsOne | sa-gradle-plugin/src/main/kotlin/com/sensorsdata/analytics/android/plugin/visitor/SAPrimaryClassVisitor.kt:172-177 | An `Activity` subclass with push on and no method named `onNewIntent` gets exactly one appended. |

## Left out

- The stages themselves are not modelled. These are `SensorsAnalyticsWebViewMethodVisitor`, `SensorsAnalyticsPushMethodVisitor`, `AddJSAnnotationVisitor`, `SensorsAutoTrackMethodVisitor`, `UpdateSDKPluginVersionMV`, `SensorsAnalyticsJSRAdapter` and `SensorsAnalyticsVersionFieldVisitor`. Their source is not part of this model, so the model records only whether a stage is present and where. Nothing in this model writes to the shared `visitedFragMethods` and `mLambdaMethodCells` objects, because only the auto-track stage does.
- The arguments the stages receive beyond the shared collections are not carried by `Stage`. These are the ASM API version, access, name, descriptor, signature, exceptions, classification, plugin manager and `ClassInheritance`. `ClassInheritance` is only passed through to the web-view stage and is never queried here.
- `ClassNameAnalytics`, `SAConfigHookHelper`, `FragmentHookHelper`, `SensorsPushInjected` and `SAPluginManager` are not part of this model. They are the parameters and recorded calls listed above. Their internals aren't modelled: the classification rules, which methods are config methods, what the synthesized methods contain, and the SDK version helper.
- The whole-class property is not stated: the output would have the input's methods, minus the deleted config methods, plus the synthesized ones. Only the forwarding half is stated, by `VisitMethod`, because what `disableIdentifierMethod` adds is up to the config hook helper.
- ASM itself is not modelled. That covers the class-file encoding, instructions, the JSR inlining algorithm, the `null` the downstream visitors may return, and the ASM API version passed to every stage.
- The `!!` on `name` and `descriptor` are preconditions of `VisitMethod` when the web-view or auto-track stage is built, not exceptions.
- Gradle integration, logging and the runtime SDK are not part of this model.
- Only the direct superclass is compared with `android/app/Activity`, as `visitEnd` does. A class that extends `Activity` through an intermediate class gets no synthesized `onNewIntent` from this visitor, and no lemma claims otherwise.
- PrimaryVisitor.PrimaryClassVisitor.Visit: it sets the legacy flag with the corrected version test (major version <= 49), not the written `version <= V1_5`. The two differ only on class files with a nonzero minor version; see Findings.

## Findings

| source | as written | input that shows it | evidently intended | confidence | as-written member | corrected member |
|---|---|---|---|---|---|---|
| sa-gradle-plugin/src/main/kotlin/com/sensorsdata/analytics/android/plugin/visitor/SAPrimaryClassVisitor.kt:55 | `shouldReturnJSRAdapter = version <= Opcodes.V1_5` compares ASM's whole version int (`minor << 16 \| major`) with 49 | `V1_1` = 196653 (Java 1.1, major 45 minor 3) is not flagged, so its JSR code is not inlined. A Java 12 preview class file (major 56, minor 0xFFFF, int -65480) is flagged. | The major version (`version and 0xFFFF`) is at most 49 | not executed; high for Java 1.1 class files | Rules.LegacyAsWritten, shown by Rules.AsWrittenMissesJava1_1 and Rules.AsWrittenFlagsPreviewClasses | Rules.IsLegacyFormat, proved by Rules.LegacyFormatIsMajorVersion and Rules.LegacyTestsAgreeWithoutMinor; used by PrimaryVisitor.PrimaryClassVisitor.Visit |
