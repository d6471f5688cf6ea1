/**
 * The values the primary class visitor receives from ASM and from its
 * collaborators, and the calls it makes on the downstream class visitor.
 */
module Facts {
  import opened Wrappers

  /** A Java `int`: ASM passes class-file versions and access flags as signed 32-bit values. */
  newtype Int32 = x: int | -0x8000_0000 <= x < 0x8000_0000

  /**
   * What `ClassNameAnalytics` answers about one class: the facts the
   * visitor reads, computed once by `visit` from the name, the superclass
   * and the interfaces.
   */
  datatype Classification = Classification(
    isSensorsDataAPI: bool,
    isSensorsDataVersion: bool,
    isAppWebViewInterface: bool,
    superClass: Option<string>)

  /** The module toggles of the plugin manager that the visitor consults. */
  datatype Modules = Modules(webView: bool, push: bool, autoTrack: bool)

  /** A field's constant initial value, as ASM hands it over (`value: Any?`). */
  datatype Constant =
    | IntConstant(i: Int32)
    | LongConstant(l: int)
    | FloatConstant(floatBits: bv32)
    | DoubleConstant(doubleBits: bv64)
    | StringConstant(s: string)

  /** One method header as ASM announces it to `visitMethod`. */
  datatype MethodDecl = MethodDecl(
    access: Int32,
    name: Option<string>,
    descriptor: Option<string>,
    signature: Option<string>,
    exceptions: Option<seq<string>>)

  /**
   * `visitedFragMethods`: the names of the fragment methods the auto-track
   * stages have seen. It is one mutable object per class visitor, shared by
   * every auto-track stage of the class and by the fragment hook at the end.
   */
  class NameSet {
    var names: set<string>

    constructor ()
      ensures names == {}
    {
      names := {};
    }
  }

  /**
   * `mLambdaMethodCells`: the lambda method cells, keyed by name, that the
   * auto-track stages share. A cell is an object of a class that is not
   * part of this model.
   */
  class CellTable {
    var cells: map<string, object>

    constructor ()
      ensures cells == map[]
    {
      cells := map[];
    }
  }

  /**
   * One stage of the method-visitor decorator chain. The auto-track stage
   * is the only one that receives state of the class visitor: the two
   * shared collections.
   */
  datatype Stage =
    | WebView
    | Push
    | JSAnnotation
    | AutoTrack(visitedFragMethods: NameSet, lambdaMethodCells: CellTable)
    | VersionMV
    | JSR

  /** What `visitField` returns: the downstream field visitor itself, or the version-field stage around it. */
  datatype FieldVisitorChoice =
    | DownstreamFieldVisitor
    | VersionFieldVisitor(name: Option<string>, value: Option<Constant>)

  /** A call made on the downstream class visitor (or, for the last three, on it by a helper). */
  datatype Call =
    | DelegateVisit(version: Int32, access: Int32, name: string, signature: Option<string>,
                 superName: Option<string>, interfaces: Option<seq<string>>)
    | DelegateField(fieldAccess: Int32, fieldName: Option<string>, fieldDescriptor: Option<string>,
                 fieldSignature: Option<string>, value: Option<Constant>)
    | DelegateMethod(decl: MethodDecl)
    | DelegateEnd
    | AddOnNewIntent
    | HookFragment(superClass: Option<string>, fragMethods: NameSet)
    | DisableIdentifierMethods
}
