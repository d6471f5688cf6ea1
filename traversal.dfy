/**
 * Facts about one whole traversal of a class: the `onNewIntent` flag folded
 * over the methods in file order, and what `visitEnd` then appends.
 */
module Traversal {
  import opened Wrappers
  import opened Facts
  import opened Rules

  /** A method that survives deletion and is the `onNewIntent` override of an `Activity` subclass. */
  predicate KeptOnNewIntent(isConfigsMethod: (Option<string>, Option<string>) -> bool,
                            superClass: Option<string>, m: MethodDecl) {
    !isConfigsMethod(m.name, m.descriptor) && IsOnNewIntentOverride(superClass, m.name, m.descriptor)
  }

  /** The flag after visiting `methods` in order, starting from `found`. */
  function FoundAfter(found: bool, superClass: Option<string>,
                      isConfigsMethod: (Option<string>, Option<string>) -> bool,
                      methods: seq<MethodDecl>): bool
    decreases |methods|
  {
    if methods == [] then found
    else
      var m := methods[0];
      FoundAfter(NextFound(found, isConfigsMethod(m.name, m.descriptor), superClass, m.name, m.descriptor),
                 superClass, isConfigsMethod, methods[1..])
  }

  /** The flag ends up set exactly when it was set already or some kept method is the `onNewIntent` override. */
  lemma {:induction false} FoundAfterExactly(found: bool, superClass: Option<string>,
                                             isConfigsMethod: (Option<string>, Option<string>) -> bool,
                                             methods: seq<MethodDecl>)
    decreases |methods|
    ensures FoundAfter(found, superClass, isConfigsMethod, methods)
        <==> found || exists i :: 0 <= i < |methods| && KeptOnNewIntent(isConfigsMethod, superClass, methods[i])
  {
    if methods != [] {
      var m := methods[0];
      var next := NextFound(found, isConfigsMethod(m.name, m.descriptor), superClass, m.name, m.descriptor);
      FoundAfterExactly(next, superClass, isConfigsMethod, methods[1..]);
      if exists i :: 0 <= i < |methods[1..]| && KeptOnNewIntent(isConfigsMethod, superClass, methods[1..][i]) {
        var i :| 0 <= i < |methods[1..]| && KeptOnNewIntent(isConfigsMethod, superClass, methods[1..][i]);
        assert methods[i + 1] == methods[1..][i];
      }
      if exists i :: 0 <= i < |methods| && KeptOnNewIntent(isConfigsMethod, superClass, methods[i]) {
        var i :| 0 <= i < |methods| && KeptOnNewIntent(isConfigsMethod, superClass, methods[i]);
        if i > 0 {
          assert methods[1..][i - 1] == methods[i];
        }
      }
    }
  }

  /** The flag is never reset: visiting more methods can only keep it or set it. */
  lemma {:induction false} FoundAfterMonotone(found: bool, superClass: Option<string>,
                                              isConfigsMethod: (Option<string>, Option<string>) -> bool,
                                              methods: seq<MethodDecl>, k: nat)
    requires k <= |methods|
    ensures FoundAfter(found, superClass, isConfigsMethod, methods[..k]) ==>
            FoundAfter(found, superClass, isConfigsMethod, methods)
  {
    FoundAfterExactly(found, superClass, isConfigsMethod, methods[..k]);
    FoundAfterExactly(found, superClass, isConfigsMethod, methods);
    if exists i :: 0 <= i < |methods[..k]| && KeptOnNewIntent(isConfigsMethod, superClass, methods[..k][i]) {
      var i :| 0 <= i < |methods[..k]| && KeptOnNewIntent(isConfigsMethod, superClass, methods[..k][i]);
      assert methods[i] == methods[..k][i];
    }
  }

  /**
   * A class whose direct superclass is `Activity`, visited with the push
   * module on, gets exactly one synthesized `onNewIntent` when none of its
   * kept methods is that override, and none otherwise; with any other
   * superclass or with push off it gets none.
   */
  lemma OnNewIntentSynthesizedOnce(modules: Modules, superClass: Option<string>,
                                   isConfigsMethod: (Option<string>, Option<string>) -> bool,
                                   methods: seq<MethodDecl>, fragMethods: NameSet)
    ensures Occurrences(AddOnNewIntent,
                        EndActions(modules, FoundAfter(false, superClass, isConfigsMethod, methods), superClass, fragMethods))
         == if modules.push && superClass == Some(ActivityClass) &&
               !(exists i :: 0 <= i < |methods| && KeptOnNewIntent(isConfigsMethod, superClass, methods[i]))
            then 1 else 0
  {
    var found := FoundAfter(false, superClass, isConfigsMethod, methods);
    FoundAfterExactly(false, superClass, isConfigsMethod, methods);
    EndActionOccurrences(modules, found, superClass, fragMethods, AddOnNewIntent);
  }

  /** A class none of whose methods is called `onNewIntent` never sets the flag. */
  lemma NoOnNewIntentNotFound(superClass: Option<string>, isConfigsMethod: (Option<string>, Option<string>) -> bool,
                              methods: seq<MethodDecl>)
    requires forall i :: 0 <= i < |methods| ==> methods[i].name != Some(OnNewIntentName)
    ensures !FoundAfter(false, superClass, isConfigsMethod, methods)
  {
    FoundAfterExactly(false, superClass, isConfigsMethod, methods);
  }

  /** The end-to-end case: an `Activity` subclass without `onNewIntent`, push on, gets the callback appended once. */
  lemma ActivityWithoutOnNewIntentGetsOne(modules: Modules, superClass: Option<string>,
                                          isConfigsMethod: (Option<string>, Option<string>) -> bool,
                                          methods: seq<MethodDecl>, fragMethods: NameSet)
    requires modules.push && superClass == Some(ActivityClass)
    requires forall i :: 0 <= i < |methods| ==> methods[i].name != Some(OnNewIntentName)
    ensures Occurrences(AddOnNewIntent,
                        EndActions(modules, FoundAfter(false, superClass, isConfigsMethod, methods),
                                   superClass, fragMethods)) == 1
  {
    NoOnNewIntentNotFound(superClass, isConfigsMethod, methods);
    EndActionOccurrences(modules, false, superClass, fragMethods, AddOnNewIntent);
  }
}
