/**
 * The decisions the primary class visitor takes, as functions of what it
 * has recorded about the class: the legacy-format flag, the `onNewIntent`
 * flag, the method-visitor chain and the end-of-class actions.
 */
module Rules {
  import opened Wrappers
  import opened Facts

  /** ASM's `Opcodes.V1_5`: major version 49, minor version 0. */
  const V1_5: Int32 := 49

  const ActivityClass := "android/app/Activity"
  const OnNewIntentName := "onNewIntent"
  const OnNewIntentDescriptor := "(Landroid/content/Intent;)V"

  // ---------------------------------------------------------------------
  // Class-file versions. ASM packs a version into one int as
  // `minor << 16 | major`, so the minor version sits in the high half.

  /** The version int ASM uses for class-file version `major.minor` (as in `V1_1 = 3 << 16 | 45`). */
  function PackVersion(major: int, minor: int): (version: Int32)
    requires 0 <= major < 0x1_0000 && 0 <= minor < 0x1_0000
    ensures (version as int) % 0x1_0000 == major
    ensures (version < 0) <==> (minor >= 0x8000)
  {
    var v := minor * 0x1_0000 + major;
    if v < 0x8000_0000 then v as Int32 else (v - 0x1_0000_0000) as Int32
  }

  /** `version & 0xFFFF` */
  function MajorVersion(version: Int32): (major: int)
    ensures 0 <= major < 0x1_0000
  {
    (version as int) % 0x1_0000
  }

  /** `version >>> 16` */
  function MinorVersion(version: Int32): (minor: int)
    ensures 0 <= minor < 0x1_0000
  {
    ((version as int) % 0x1_0000_0000) / 0x1_0000
  }

  /** Packing and unpacking a class-file version are inverse to each other. */
  lemma VersionRoundTrip(major: int, minor: int, version: Int32)
    requires 0 <= major < 0x1_0000 && 0 <= minor < 0x1_0000
    ensures MajorVersion(PackVersion(major, minor)) == major
    ensures MinorVersion(PackVersion(major, minor)) == minor
    ensures PackVersion(MajorVersion(version), MinorVersion(version)) == version
  {
    var v := minor * 0x1_0000 + major;
    assert (PackVersion(major, minor) as int) % 0x1_0000_0000 == v;
    var u := (version as int) % 0x1_0000_0000;
    assert u == MinorVersion(version) * 0x1_0000 + MajorVersion(version);
  }

  /** The legacy test as the visitor writes it: the whole version int against `V1_5`. */
  predicate LegacyAsWritten(version: Int32) {
    version <= V1_5
  }

  /** The legacy test as intended: the class file's major version is at most that of Java 5. */
  predicate IsLegacyFormat(version: Int32) {
    MajorVersion(version) <= MajorVersion(V1_5)
  }

  /** Both tests agree on every version whose minor version is 0 */
  lemma LegacyTestsAgreeWithoutMinor(major: int)
    requires 0 <= major < 0x1_0000
    ensures LegacyAsWritten(PackVersion(major, 0)) == IsLegacyFormat(PackVersion(major, 0))
    ensures IsLegacyFormat(PackVersion(major, 0)) <==> major <= 49
  {
    assert PackVersion(major, 0) as int == major;
  }

  /** The intended test depends only on the major version. */
  lemma LegacyFormatIsMajorVersion(major: int, minor: int)
    requires 0 <= major < 0x1_0000 && 0 <= minor < 0x1_0000
    ensures IsLegacyFormat(PackVersion(major, minor)) <==> major <= 49
  {
    assert MajorVersion(V1_5) == 49;
    assert MajorVersion(PackVersion(major, minor)) == major;
  }

  /** A Java 1.1 class file (`V1_1`, major 45 minor 3) is legacy, but the written test does not flag it. */
  lemma AsWrittenMissesJava1_1()
    ensures PackVersion(45, 3) == 196653
    ensures IsLegacyFormat(PackVersion(45, 3)) && !LegacyAsWritten(PackVersion(45, 3))
  {
  }

  /** A Java 12 class file using preview features (minor 0xFFFF) is not legacy, but the written test flags it. */
  lemma AsWrittenFlagsPreviewClasses()
    ensures PackVersion(56, 0xFFFF) == -65480
    ensures !IsLegacyFormat(PackVersion(56, 0xFFFF)) && LegacyAsWritten(PackVersion(56, 0xFFFF))
  {
  }

  // ---------------------------------------------------------------------
  // The onNewIntent flag.

  /** A method is the platform's `onNewIntent(Intent)` callback overridden directly on an `Activity` subclass. */
  predicate IsOnNewIntentOverride(superClass: Option<string>, name: Option<string>, descriptor: Option<string>) {
    superClass == Some(ActivityClass) && name == Some(OnNewIntentName) && descriptor == Some(OnNewIntentDescriptor)
  }

  /** The flag after one method visit; a deleted method sets nothing. */
  function NextFound(found: bool, deleted: bool, superClass: Option<string>,
                     name: Option<string>, descriptor: Option<string>): (found': bool)
    ensures found ==> found'
    ensures found' <==> found || (!deleted && IsOnNewIntentOverride(superClass, name, descriptor))
  {
    if deleted then found
    else if IsOnNewIntentOverride(superClass, name, descriptor) then true
    else found
  }

  // ---------------------------------------------------------------------
  // The method-visitor chain. A chain is listed in the order the stages are
  // built: element 0 wraps the downstream method visitor, and the last
  // element is the visitor returned, the first to see the instructions.

  /** What decides which stages a method gets. */
  datatype StageContext = StageContext(modules: Modules, isAppWebViewInterface: bool, legacy: bool)

  /** The fixed order in which the stages are built. */
  function CanonicalOrder(fragMethods: NameSet, lambdaCells: CellTable): seq<Stage> {
    [WebView, Push, JSAnnotation, AutoTrack(fragMethods, lambdaCells), VersionMV, JSR]
  }

  /** Each stage's own condition. */
  predicate Active(stage: Stage, ctx: StageContext) {
    match stage
    case WebView => ctx.modules.webView
    case Push => ctx.modules.push
    case JSAnnotation => ctx.isAppWebViewInterface
    case AutoTrack(_, _) => ctx.modules.autoTrack
    case VersionMV => true
    case JSR => ctx.legacy
  }

  /** A stage's position in the canonical order. */
  function Rank(stage: Stage): nat {
    match stage
    case WebView => 0
    case Push => 1
    case JSAnnotation => 2
    case AutoTrack(_, _) => 3
    case VersionMV => 4
    case JSR => 5
  }

  predicate StrictlyRanked(stages: seq<Stage>) {
    forall i, j :: 0 <= i < j < |stages| ==> Rank(stages[i]) < Rank(stages[j])
  }

  /** The active stages of `stages`, in their order. */
  function Select(stages: seq<Stage>, ctx: StageContext): (chain: seq<Stage>)
    ensures |chain| <= |stages|
  {
    if stages == [] then []
    else (if Active(stages[0], ctx) then [stages[0]] else []) + Select(stages[1..], ctx)
  }

  /** A stage is selected exactly when it is listed and active. */
  lemma {:induction false} SelectMembers(stages: seq<Stage>, ctx: StageContext, s: Stage)
    ensures s in Select(stages, ctx) <==> s in stages && Active(s, ctx)
  {
    if stages != [] {
      SelectMembers(stages[1..], ctx, s);
      assert stages == [stages[0]] + stages[1..];
    }
  }

  /** Selecting from a list that starts with `x` decides `x` first. */
  lemma SelectCons(x: Stage, rest: seq<Stage>, ctx: StageContext)
    ensures Select([x] + rest, ctx) == (if Active(x, ctx) then [x] else []) + Select(rest, ctx)
  {
    assert ([x] + rest)[0] == x && ([x] + rest)[1..] == rest;
  }

  /** Two strictly ranked lists, the first ranked wholly below the second, concatenate to a strictly ranked list. */
  lemma RankedConcat(head: seq<Stage>, rest: seq<Stage>)
    requires StrictlyRanked(head) && StrictlyRanked(rest)
    requires forall i, j :: 0 <= i < |head| && 0 <= j < |rest| ==> Rank(head[i]) < Rank(rest[j])
    ensures StrictlyRanked(head + rest)
  {
    var chain := head + rest;
    forall i, j | 0 <= i < j < |chain| ensures Rank(chain[i]) < Rank(chain[j]) {
      if j < |head| {
        assert chain[i] == head[i] && chain[j] == head[j];
      } else if i < |head| {
        assert chain[i] == head[i] && chain[j] == rest[j - |head|];
      } else {
        assert chain[i] == rest[i - |head|] && chain[j] == rest[j - |head|];
      }
    }
  }

  /** Selecting keeps the order of a strictly ranked list. */
  lemma {:induction false} SelectKeepsRank(stages: seq<Stage>, ctx: StageContext)
    requires StrictlyRanked(stages)
    ensures StrictlyRanked(Select(stages, ctx))
  {
    if stages != [] {
      var tail := stages[1..];
      var rest := Select(tail, ctx);
      assert StrictlyRanked(tail) by {
        forall i, j | 0 <= i < j < |tail| ensures Rank(tail[i]) < Rank(tail[j]) {
          assert tail[i] == stages[i + 1] && tail[j] == stages[j + 1];
        }
      }
      SelectKeepsRank(tail, ctx);
      var head := if Active(stages[0], ctx) then [stages[0]] else [];
      forall i, j | 0 <= i < |head| && 0 <= j < |rest| ensures Rank(head[i]) < Rank(rest[j]) {
        SelectMembers(tail, ctx, rest[j]);
        var k :| 0 <= k < |tail| && tail[k] == rest[j];
        assert stages[k + 1] == rest[j];
      }
      RankedConcat(head, rest);
    }
  }

  /** The chain a method that is not deleted receives. */
  function MethodChain(ctx: StageContext, fragMethods: NameSet, lambdaCells: CellTable): seq<Stage> {
    Select(CanonicalOrder(fragMethods, lambdaCells), ctx)
  }

  /** The last three stages of the canonical order, selected. */
  lemma SelectInnerStages(ctx: StageContext, auto: Stage)
    requires auto.AutoTrack?
    ensures Select([auto, VersionMV, JSR], ctx)
         == (if ctx.modules.autoTrack then [auto] else []) + ([VersionMV] + (if ctx.legacy then [JSR] else []))
  {
    var l5 := [JSR];
    var l4 := [VersionMV] + l5;
    SelectCons(JSR, [], ctx);
    assert l5 == [JSR] + [];
    SelectCons(VersionMV, l5, ctx);
    SelectCons(auto, l4, ctx);
    assert [auto] + l4 == [auto, VersionMV, JSR];
  }

  /** The chain, stage by stage, as the visitor wraps one stage around the previous. */
  lemma MethodChainStepwise(ctx: StageContext, fragMethods: NameSet, lambdaCells: CellTable)
    ensures MethodChain(ctx, fragMethods, lambdaCells)
         == (if ctx.modules.webView then [WebView] else [])
          + ((if ctx.modules.push then [Push] else [])
          + ((if ctx.isAppWebViewInterface then [JSAnnotation] else [])
          + ((if ctx.modules.autoTrack then [AutoTrack(fragMethods, lambdaCells)] else [])
          + ([VersionMV]
          + (if ctx.legacy then [JSR] else [])))))
  {
    var auto := AutoTrack(fragMethods, lambdaCells);
    var l3 := [auto, VersionMV, JSR];
    var l2 := [JSAnnotation] + l3;
    var l1 := [Push] + l2;
    SelectInnerStages(ctx, auto);
    SelectCons(JSAnnotation, l3, ctx);
    SelectCons(Push, l2, ctx);
    SelectCons(WebView, l1, ctx);
    assert CanonicalOrder(fragMethods, lambdaCells) == [WebView] + l1;
  }

  /** Wrapping stage after stage lists them in the same order as nesting the pieces to the right. */
  lemma WrappedInOrder(a: seq<Stage>, b: seq<Stage>, c: seq<Stage>, d: seq<Stage>, e: seq<Stage>, f: seq<Stage>)
    ensures a + b + c + d + e + f == a + (b + (c + (d + (e + f))))
  {
  }

  /** Each stage is present exactly when its own condition holds; the auto-track stage gets the class's shared collections. */
  lemma MethodChainMembers(ctx: StageContext, fragMethods: NameSet, lambdaCells: CellTable)
    ensures WebView in MethodChain(ctx, fragMethods, lambdaCells) <==> ctx.modules.webView
    ensures Push in MethodChain(ctx, fragMethods, lambdaCells) <==> ctx.modules.push
    ensures JSAnnotation in MethodChain(ctx, fragMethods, lambdaCells) <==> ctx.isAppWebViewInterface
    ensures AutoTrack(fragMethods, lambdaCells) in MethodChain(ctx, fragMethods, lambdaCells) <==> ctx.modules.autoTrack
    ensures VersionMV in MethodChain(ctx, fragMethods, lambdaCells)
    ensures JSR in MethodChain(ctx, fragMethods, lambdaCells) <==> ctx.legacy
    ensures forall s :: s in MethodChain(ctx, fragMethods, lambdaCells) && s.AutoTrack? ==>
              s.visitedFragMethods == fragMethods && s.lambdaMethodCells == lambdaCells
  {
    var order := CanonicalOrder(fragMethods, lambdaCells);
    forall s | s in [WebView, Push, JSAnnotation, AutoTrack(fragMethods, lambdaCells), VersionMV, JSR]
      ensures s in MethodChain(ctx, fragMethods, lambdaCells) <==> Active(s, ctx)
    {
      SelectMembers(order, ctx, s);
    }
    forall s | s in MethodChain(ctx, fragMethods, lambdaCells) && s.AutoTrack?
      ensures s.visitedFragMethods == fragMethods && s.lambdaMethodCells == lambdaCells
    {
      SelectMembers(order, ctx, s);
    }
  }

  /** The chain follows the canonical order, so no stage occurs twice. */
  lemma MethodChainOrdered(ctx: StageContext, fragMethods: NameSet, lambdaCells: CellTable)
    ensures StrictlyRanked(MethodChain(ctx, fragMethods, lambdaCells))
    ensures forall i, j :: 0 <= i < j < |MethodChain(ctx, fragMethods, lambdaCells)| ==>
              MethodChain(ctx, fragMethods, lambdaCells)[i] != MethodChain(ctx, fragMethods, lambdaCells)[j]
  {
    var xs := CanonicalOrder(fragMethods, lambdaCells);
    assert StrictlyRanked(xs);
    SelectKeepsRank(xs, ctx);
  }

  /**
   * The visitor returned, the first to see the original instructions, is the
   * JSR adapter exactly in legacy format and the version stage otherwise;
   * the JSR adapter wraps the version stage directly, and every
   * module-specific stage sits inside the version stage.
   */
  lemma MethodChainOutermost(ctx: StageContext, fragMethods: NameSet, lambdaCells: CellTable)
    ensures |MethodChain(ctx, fragMethods, lambdaCells)| > 0
    ensures var chain := MethodChain(ctx, fragMethods, lambdaCells);
            (chain[|chain| - 1] == JSR <==> ctx.legacy) &&
            (chain[|chain| - 1] == VersionMV <==> !ctx.legacy) &&
            (ctx.legacy ==> |chain| > 1 && chain[|chain| - 2] == VersionMV)
    ensures var chain := MethodChain(ctx, fragMethods, lambdaCells);
            forall i, j :: 0 <= i < |chain| && 0 <= j < |chain| && chain[j] == VersionMV && Rank(chain[i]) < 4 ==> i < j
  {
    MethodChainStepwise(ctx, fragMethods, lambdaCells);
    MethodChainOrdered(ctx, fragMethods, lambdaCells);
  }

  // ---------------------------------------------------------------------
  // End of class.

  /** Whether `visitEnd` appends `onNewIntent`: push enabled, none found, and the direct superclass is `Activity`. */
  predicate AddsOnNewIntent(modules: Modules, found: bool, superClass: Option<string>) {
    modules.push && !found && superClass == Some(ActivityClass)
  }

  /** The calls `visitEnd` makes, in order. */
  function EndActions(modules: Modules, found: bool, superClass: Option<string>, fragMethods: NameSet): (actions: seq<Call>)
    ensures 2 <= |actions| <= 4
    ensures actions[0] == DelegateEnd && actions[|actions| - 1] == DisableIdentifierMethods
  {
    [DelegateEnd]
    + (if AddsOnNewIntent(modules, found, superClass) then [AddOnNewIntent] else [])
    + (if modules.autoTrack then [HookFragment(superClass, fragMethods)] else [])
    + [DisableIdentifierMethods]
  }

  /** How often `call` occurs in `calls`. */
  function Occurrences(call: Call, calls: seq<Call>): nat {
    if calls == [] then 0
    else (if calls[0] == call then 1 else 0) + Occurrences(call, calls[1..])
  }

  lemma {:induction false} OccurrencesConcat(call: Call, a: seq<Call>, b: seq<Call>)
    ensures Occurrences(call, a + b) == Occurrences(call, a) + Occurrences(call, b)
  {
    if a == [] {
      assert a + b == b;
    } else {
      assert (a + b)[1..] == a[1..] + b;
      OccurrencesConcat(call, a[1..], b);
    }
  }

  lemma OccurrencesSingleton(call: Call, x: Call)
    ensures Occurrences(call, [x]) == if x == call then 1 else 0
  {
    assert [x][1..] == [];
  }

  /** How often an end action appears at the end of one class: `onNewIntent` and the fragment hook at most once, the rest exactly once. */
  lemma EndActionOccurrences(modules: Modules, found: bool, superClass: Option<string>, fragMethods: NameSet, call: Call)
    ensures Occurrences(call, EndActions(modules, found, superClass, fragMethods))
         == (if call == DelegateEnd || call == DisableIdentifierMethods then 1
             else if call == AddOnNewIntent then (if AddsOnNewIntent(modules, found, superClass) then 1 else 0)
             else if call == HookFragment(superClass, fragMethods) then (if modules.autoTrack then 1 else 0)
             else 0)
  {
    var onNewIntent := if AddsOnNewIntent(modules, found, superClass) then [AddOnNewIntent] else [];
    var hook := if modules.autoTrack then [HookFragment(superClass, fragMethods)] else [];
    assert EndActions(modules, found, superClass, fragMethods) == [DelegateEnd] + onNewIntent + hook + [DisableIdentifierMethods];
    OccurrencesConcat(call, [DelegateEnd] + onNewIntent + hook, [DisableIdentifierMethods]);
    OccurrencesConcat(call, [DelegateEnd] + onNewIntent, hook);
    OccurrencesConcat(call, [DelegateEnd], onNewIntent);
    OccurrencesSingleton(call, DelegateEnd);
    OccurrencesSingleton(call, DisableIdentifierMethods);
    if onNewIntent != [] { OccurrencesSingleton(call, AddOnNewIntent); }
    if hook != [] { OccurrencesSingleton(call, HookFragment(superClass, fragMethods)); }
  }

  /** The position of an end action in `visitEnd`'s fixed order. */
  function EndRank(call: Call): nat {
    match call
    case DelegateEnd => 0
    case AddOnNewIntent => 1
    case HookFragment(_, _) => 2
    case DisableIdentifierMethods => 3
    case _ => 4
  }

  /**
   * The end actions come in the fixed order: downstream end, `onNewIntent`,
   * fragment hook, identifier methods; the fragment hook is present exactly
   * with auto-track and always receives the class's shared name set.
   */
  lemma EndActionsOrdered(modules: Modules, found: bool, superClass: Option<string>, fragMethods: NameSet)
    ensures var actions := EndActions(modules, found, superClass, fragMethods);
            forall i, j :: 0 <= i < j < |actions| ==> EndRank(actions[i]) < EndRank(actions[j])
    ensures var actions := EndActions(modules, found, superClass, fragMethods);
            (AddOnNewIntent in actions <==> AddsOnNewIntent(modules, found, superClass)) &&
            (HookFragment(superClass, fragMethods) in actions <==> modules.autoTrack) &&
            (forall c :: c in actions && c.HookFragment? ==> c.fragMethods == fragMethods && c.superClass == superClass)
  {
  }

  /** Every auto-track stage of a class and the fragment hook at its end are handed one and the same name set. */
  lemma FragmentHookSharesAutoTrackSet(ctx: StageContext, modules: Modules, found: bool, superClass: Option<string>,
                                       fragMethods: NameSet, lambdaCells: CellTable)
    ensures forall s, c :: s in MethodChain(ctx, fragMethods, lambdaCells) && s.AutoTrack? &&
                           c in EndActions(modules, found, superClass, fragMethods) && c.HookFragment? ==>
              s.visitedFragMethods == c.fragMethods
  {
    MethodChainMembers(ctx, fragMethods, lambdaCells);
  }
}
