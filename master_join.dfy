/** Master-join kind operators (`MasterJoinOperatorUtil`): which user operators are of
    that kind, and how the master selection method named by their annotation is found.
    Reflection is replaced by a class loader record that resolves annotation element
    values and lists the public methods of an operator class. */
module MasterJoin {
  import opened Common
  import Operators

  const MasterJoinAnnotation: string := "com.asakusafw.vocabulary.operator.MasterJoin"
  const MasterCheckAnnotation: string := "com.asakusafw.vocabulary.operator.MasterCheck"
  const MasterBranchAnnotation: string := "com.asakusafw.vocabulary.operator.MasterBranch"
  const MasterJoinUpdateAnnotation: string := "com.asakusafw.vocabulary.operator.MasterJoinUpdate"

  /** `SUPPORTED`: the annotation types of master-join kind operators. */
  const Supported: set<string> :=
    {MasterJoinAnnotation, MasterCheckAnnotation, MasterBranchAnnotation, MasterJoinUpdateAnnotation}

  /** A value description, known by its textual representation. */
  datatype ValueDescription = ValueDescription(representation: string)

  /** The Java object a value description resolves to: a `String` or anything else. */
  datatype Value = StringValue(text: string) | OtherValue(display: string)
  {
    /** `toString` of the resolved object. */
    function Display(): string
    {
      if StringValue? then text else display
    }
  }

  /** The annotation of a user operator: its type and its element values. */
  datatype AnnotationDescription = AnnotationDescription(declaringClass: string, elements: map<string, ValueDescription>)

  /** The operator method of a user operator, with the class that declares it. */
  datatype MethodDescription = MethodDescription(declaringClass: string, name: string, display: string)

  /** An operator as seen here: a user operator with its annotation and method, or an
      operator of another kind. USER-kind operators are always `UserOperator`s. */
  datatype Operator =
    | UserOperator(display: string, annotation: AnnotationDescription, operatorMethod: MethodDescription)
    | OtherOperator(display: string, kind: Operators.OperatorKind)
  {
    function Kind(): Operators.OperatorKind
    {
      if UserOperator? then Operators.User else kind
    }
  }

  /** A public method of a resolved operator class, and whether it carries `@MasterSelection`. */
  datatype Method = Method(name: string, masterSelection: bool)

  /** What the class loader supplies: resolution of element values (which may throw a
      `ReflectiveOperationException`) and the public methods of a class, in the order
      `Class.getMethods` reports them. */
  datatype ClassLoader = ClassLoader(
    resolveValue: ValueDescription -> Result<Value>,
    methodsOf: string -> Result<seq<Method>>)

  /** `isSupported`: a user operator whose annotation is one of the four master-join types. */
  predicate IsSupported(op: Operator)
  {
    op.Kind() == Operators.User && op.UserOperator? && op.annotation.declaringClass in Supported
  }

  lemma IsSupportedIff(op: Operator)
    ensures IsSupported(op) <==>
      op.UserOperator? &&
      (op.annotation.declaringClass == MasterJoinAnnotation || op.annotation.declaringClass == MasterCheckAnnotation
       || op.annotation.declaringClass == MasterBranchAnnotation || op.annotation.declaringClass == MasterJoinUpdateAnnotation)
    ensures op.Kind() != Operators.User ==> !IsSupported(op)
  {
  }

  /** `getSimpleName` of a binary class name: the part after its last `.`. */
  function SimpleName(className: string): (r: string)
    ensures '.' !in r
    ensures |r| <= |className| && r == className[|className| - |r|..]
    ensures '.' in className ==> className[|className| - |r| - 1] == '.'
    ensures '.' !in className ==> r == className
  {
    if className == [] then []
    else if className[|className| - 1] == '.' then []
    else
      var init := className[..|className| - 1];
      var rest := SimpleName(init);
      var start := |className| - |rest| - 1;
      assert init[|init| - |rest|..] == className[start..|className| - 1];
      assert className[start..] == className[start..|className| - 1] + [className[|className| - 1]];
      rest + [className[|className| - 1]]
  }

  /** A method qualifies as the selection method named `s`. */
  predicate Selects(m: Method, s: string)
  {
    m.name == s && m.masterSelection
  }

  /** The index of the first method that qualifies, if there is one. */
  function FirstSelection(methods: seq<Method>, s: string): (r: Option<nat>)
    ensures r.None? <==> forall i | 0 <= i < |methods| :: !Selects(methods[i], s)
    ensures r.Some? ==>
      && r.value < |methods|
      && Selects(methods[r.value], s)
      && forall j | 0 <= j < r.value :: !Selects(methods[j], s)
  {
    if methods == [] then None
    else if Selects(methods[0], s) then Some(0)
    else
      var rest := FirstSelection(methods[1..], s);
      if rest.None? then None else Some(rest.value + 1)
  }

  function UnsupportedMessage(op: Operator): string
  {
    "operator must be a kind of MasterJoin: " + op.display
  }

  function MissingNameMessage(op: Operator, elementName: string): string
    requires op.UserOperator?
  {
    "missing master selection method name: @" + SimpleName(op.annotation.declaringClass)
      + "(" + elementName + ") " + op.operatorMethod.display
  }

  function InconsistentNameMessage(op: Operator, elementName: string, name: Value): string
    requires op.UserOperator?
  {
    "inconsistent master selection method name: " + name.Display() + " (@" + SimpleName(op.annotation.declaringClass)
      + "(" + elementName + ") " + op.operatorMethod.display + ")"
  }

  function MissingTargetMessage(op: Operator, s: string): string
    requires op.UserOperator?
  {
    "missing master selection target method: " + op.operatorMethod.declaringClass + "#" + op.operatorMethod.name + " -> " + s
  }

  /** The resolved value of the selection element of a supported operator that has one. */
  function SelectionName(elementName: string, loader: ClassLoader, op: Operator): Result<Value>
    requires op.UserOperator? && elementName in op.annotation.elements
  {
    loader.resolveValue(op.annotation.elements[elementName])
  }

  /** `getSelection(classLoader, operator)`: `elementName` and `noSelection` stand for
      `MasterSelection.ELEMENT_NAME` and `MasterSelection.NO_SELECTION`. The result is
      the selection method, `None` for `null` (no selection), or the thrown exception. */
  method GetSelection(elementName: string, noSelection: string, loader: ClassLoader, op: Operator)
    returns (r: Result<Option<Method>>)
    // not a master-join operator: rejected before anything is resolved
    ensures !IsSupported(op) ==> r == Failure(IllegalArgument(UnsupportedMessage(op)))
    // the selection element is missing
    ensures IsSupported(op) && elementName !in op.annotation.elements ==>
      r == Failure(IllegalState(MissingNameMessage(op, elementName)))
    ensures IsSupported(op) && elementName in op.annotation.elements ==>
      var name := SelectionName(elementName, loader, op);
      // the element value cannot be resolved
      && (name.Failure? ==> r == Failure(name.error))
      // the element value is not a string
      && (name.Success? && !name.value.StringValue? ==>
            r == Failure(IllegalState(InconsistentNameMessage(op, elementName, name.value))))
      // the element says "no selection": no method is looked at
      && (name == Success(StringValue(noSelection)) ==> r == Success(None))
      // otherwise the methods of the operator class decide
      && (name.Success? && name.value.StringValue? && name.value.text != noSelection ==>
            var s := name.value.text;
            var methods := loader.methodsOf(op.operatorMethod.declaringClass);
            && (methods.Failure? ==> r == Failure(methods.error))
            && (methods.Success? && FirstSelection(methods.value, s).None? ==>
                  r == Failure(NoSuchMethod(MissingTargetMessage(op, s))))
            && (methods.Success? && FirstSelection(methods.value, s).Some? ==>
                  r == Success(Some(methods.value[FirstSelection(methods.value, s).value]))))
  {
    if !IsSupported(op) {
      return Failure(IllegalArgument(UnsupportedMessage(op)));
    }
    var annotation := op.annotation;
    if elementName !in annotation.elements {
      return Failure(IllegalState(MissingNameMessage(op, elementName)));
    }
    var name := loader.resolveValue(annotation.elements[elementName]);
    if name.Failure? {
      return Failure(name.error);
    }
    if !name.value.StringValue? {
      return Failure(IllegalState(InconsistentNameMessage(op, elementName, name.value)));
    }
    var s := name.value.text;
    if s == noSelection {
      return Success(None);
    }
    var operatorClass := loader.methodsOf(op.operatorMethod.declaringClass);
    if operatorClass.Failure? {
      return Failure(operatorClass.error);
    }
    var methods := operatorClass.value;
    var i := 0;
    while i < |methods|
      invariant 0 <= i <= |methods|
      invariant forall j | 0 <= j < i :: !Selects(methods[j], s)
    {
      var m := methods[i];
      if m.name != s {
        i := i + 1;
        continue;
      }
      if m.masterSelection {
        return Success(Some(m));
      }
      i := i + 1;
    }
    r := Failure(NoSuchMethod(MissingTargetMessage(op, s)));
  }
}
