/** Annotation descriptions (`AnnotationDescription`): an annotation type with the
    ordered map of its element values, how one is taken from an annotation object, how
    it is resolved back into an annotation proxy, and what that proxy answers to method
    calls (`ElementHandler.invoke`). Reflection is replaced by records of the annotation
    type's methods and by a class loader record. */
module Annotations {
  import opened Common

  // ---------------------------------------------------------------------------
  // Insertion-ordered maps (`LinkedHashMap`)

  datatype Entry<V> = Entry(key: string, value: V)

  /** The keys of `entries`, in order. */
  function Keys<V>(entries: seq<Entry<V>>): (r: seq<string>)
    ensures |r| == |entries| && forall i | 0 <= i < |r| :: r[i] == entries[i].key
  {
    if entries == [] then [] else Keys(entries[..|entries| - 1]) + [entries[|entries| - 1].key]
  }

  predicate Distinct(keys: seq<string>)
  {
    forall i, j | 0 <= i < j < |keys| :: keys[i] != keys[j]
  }

  /** No key occurs twice, as in any Java map. */
  predicate DistinctKeys<V>(entries: seq<Entry<V>>)
  {
    Distinct(Keys(entries))
  }

  /** `get`: the value stored for `key`, if any. */
  function Lookup<V>(entries: seq<Entry<V>>, key: string): (r: Option<V>)
    ensures r.None? <==> key !in Keys(entries)
  {
    if entries == [] then None
    else if entries[|entries| - 1].key == key then Some(entries[|entries| - 1].value)
    else Lookup(entries[..|entries| - 1], key)
  }

  /** `entries` with the value of every entry for `key` replaced by `value`. */
  function Update<V>(entries: seq<Entry<V>>, key: string, value: V): (r: seq<Entry<V>>)
    ensures Keys(r) == Keys(entries)
    ensures key in Keys(entries) ==> Lookup(r, key) == Some(value)
    ensures forall k | k != key :: Lookup(r, k) == Lookup(entries, k)
  {
    if entries == [] then []
    else
      var init := entries[..|entries| - 1];
      var last := entries[|entries| - 1];
      var previous := Update(init, key, value);
      var r := previous + [if last.key == key then Entry(key, value) else last];
      assert r[..|r| - 1] == previous;
      assert Keys(r) == Keys(previous) + [last.key];
      assert forall k | k != key :: Lookup(r, k) == Lookup(entries, k) by {
        forall k | k != key
          ensures Lookup(r, k) == Lookup(entries, k)
        {
          assert Lookup(previous, k) == Lookup(init, k);
        }
      }
      r
  }

  /** `put`: a new key goes at the end; an existing key keeps its place and gets the new value. */
  function Put<V>(entries: seq<Entry<V>>, key: string, value: V): (r: seq<Entry<V>>)
    ensures key in Keys(entries) ==> Keys(r) == Keys(entries)
    ensures key !in Keys(entries) ==> Keys(r) == Keys(entries) + [key]
    ensures Lookup(r, key) == Some(value)
    ensures forall k | k != key :: Lookup(r, k) == Lookup(entries, k)
  {
    if key in Keys(entries) then Update(entries, key, value)
    else
      var r := entries + [Entry(key, value)];
      assert r[..|r| - 1] == entries;
      r
  }

  lemma PutKeepsDistinct<V>(entries: seq<Entry<V>>, key: string, value: V)
    requires DistinctKeys(entries)
    ensures DistinctKeys(Put(entries, key, value))
  {
  }

  // ---------------------------------------------------------------------------
  // Descriptions

  /** A value description, known by its textual representation. */
  datatype ValueDescription = ValueDescription(representation: string)

  datatype AnnotationDescription = AnnotationDescription(declaringClass: string, elements: seq<Entry<ValueDescription>>)

  /** The constructor: an insertion-ordered copy of the given elements. As a value, the
      copy cannot see later changes to the caller's map. */
  function Create(declaringClass: string, elements: seq<Entry<ValueDescription>>): (r: AnnotationDescription)
    requires DistinctKeys(elements)
    ensures r.declaringClass == declaringClass
    ensures Keys(r.elements) == Keys(elements)
    ensures forall k :: Lookup(r.elements, k) == Lookup(elements, k)
  {
    AnnotationDescription(declaringClass, elements)
  }

  /** A public method of an annotation type as reflection reports it; `invoked` is the
      description of its value on the annotation object, or `None` when invoking it
      throws a `ReflectiveOperationException`. */
  datatype MethodInfo = MethodInfo(
    name: string, isStatic: bool, declaredByType: bool, isSynthetic: bool, parameterCount: nat,
    invoked: Option<ValueDescription>)

  /** The annotation object: its `annotationType()` and that type's public methods. */
  datatype Annotation = Annotation(display: string, typeName: string, isAnnotation: bool, methods: seq<MethodInfo>)

  /** The methods `of` takes as elements: instance methods declared by the annotation
      type itself, not synthetic, without parameters. */
  predicate IsElement(m: MethodInfo)
  {
    !m.isStatic && m.declaredByType && !m.isSynthetic && m.parameterCount == 0
  }

  /** The element map `of` builds from `methods`, or `None` when invoking one of the
      element methods fails. */
  function Collect(methods: seq<MethodInfo>): Option<seq<Entry<ValueDescription>>>
  {
    if methods == [] then Some([])
    else
      var previous := Collect(methods[..|methods| - 1]);
      var m := methods[|methods| - 1];
      if previous.None? || !IsElement(m) then previous
      else if m.invoked.None? then None
      else Some(Put(previous.value, m.name, m.invoked.value))
  }

  /** `of(annotation)`. */
  method Of(annotation: Annotation) returns (r: Result<AnnotationDescription>)
    ensures !annotation.isAnnotation ==> r == Failure(IllegalArgument("must be an annotation: " + annotation.display))
    ensures annotation.isAnnotation && Collect(annotation.methods).None? ==>
      r == Failure(IllegalArgument("failed to analyze annotation: " + annotation.display))
    ensures annotation.isAnnotation && Collect(annotation.methods).Some? ==>
      r == Success(AnnotationDescription(annotation.typeName, Collect(annotation.methods).value))
  {
    if !annotation.isAnnotation {
      return Failure(IllegalArgument("must be an annotation: " + annotation.display));
    }
    var methods := annotation.methods;
    var elements: seq<Entry<ValueDescription>> := [];
    for i := 0 to |methods|
      invariant Collect(methods[..i]) == Some(elements)
      invariant DistinctKeys(elements)
    {
      assert methods[..i + 1][..i] == methods[..i];
      var m := methods[i];
      if m.isStatic {
        continue;
      }
      if !m.declaredByType || m.isSynthetic {
        continue;
      }
      if m.parameterCount != 0 {
        continue;
      }
      if m.invoked.None? {
        CollectFailureSticks(methods, i + 1);
        return Failure(IllegalArgument("failed to analyze annotation: " + annotation.display));
      }
      PutKeepsDistinct(elements, m.name, m.invoked.value);
      elements := Put(elements, m.name, m.invoked.value);
    }
    assert methods[..|methods|] == methods;
    r := Success(Create(annotation.typeName, elements));
  }

  /** Once an element method fails, the whole collection fails. */
  lemma {:induction false} CollectFailureSticks(methods: seq<MethodInfo>, n: nat)
    requires n <= |methods| && Collect(methods[..n]).None?
    ensures Collect(methods).None?
    decreases |methods| - n
  {
    if n < |methods| {
      assert methods[..n + 1][..n] == methods[..n];
      CollectFailureSticks(methods, n + 1);
    } else {
      assert methods[..n] == methods;
    }
  }

  /** The value of the last element method named `n`, as invoked (`None` if there is none). */
  function LastValue(methods: seq<MethodInfo>, n: string): (r: Option<ValueDescription>)
    ensures (forall i | 0 <= i < |methods| :: !(IsElement(methods[i]) && methods[i].name == n)) ==> r.None?
    ensures (exists i | 0 <= i < |methods| :: IsElement(methods[i]) && methods[i].name == n) ==>
      exists i | 0 <= i < |methods| ::
        && IsElement(methods[i]) && methods[i].name == n && methods[i].invoked == r
        && forall j | i < j < |methods| :: !(IsElement(methods[j]) && methods[j].name == n)
  {
    if methods == [] then None
    else
      var m := methods[|methods| - 1];
      if IsElement(m) && m.name == n then m.invoked
      else
        var r := LastValue(methods[..|methods| - 1], n);
        assert forall i | 0 <= i < |methods| - 1 :: methods[..|methods| - 1][i] == methods[i];
        r
  }

  /** The element map `of` builds maps every name to the value of the last element
      method of that name, and to nothing else. */
  lemma {:induction false} CollectLookup(methods: seq<MethodInfo>, n: string)
    requires Collect(methods).Some?
    ensures Lookup(Collect(methods).value, n) == LastValue(methods, n)
  {
    if methods != [] {
      CollectLookup(methods[..|methods| - 1], n);
    }
  }

  /** The element map `of` builds has each name once. */
  lemma {:induction false} CollectDistinct(methods: seq<MethodInfo>)
    requires Collect(methods).Some?
    ensures DistinctKeys(Collect(methods).value)
  {
    if methods != [] {
      var m := methods[|methods| - 1];
      CollectDistinct(methods[..|methods| - 1]);
      if IsElement(m) {
        PutKeepsDistinct(Collect(methods[..|methods| - 1]).value, m.name, m.invoked.value);
      }
    }
  }

  /** A name is a key of the element map exactly when some element method has it. */
  lemma CollectKeys(methods: seq<MethodInfo>, n: string)
    requires Collect(methods).Some?
    ensures n in Keys(Collect(methods).value) <==>
      exists i | 0 <= i < |methods| :: IsElement(methods[i]) && methods[i].name == n
  {
    CollectLookup(methods, n);
    if exists i | 0 <= i < |methods| :: IsElement(methods[i]) && methods[i].name == n {
      var i :| 0 <= i < |methods| && IsElement(methods[i]) && methods[i].name == n && methods[i].invoked == LastValue(methods, n);
      CollectInvokes(methods, i);
    }
  }

  /** When the element map of all methods is built, so is that of every prefix. */
  lemma {:induction false} CollectPrefix(methods: seq<MethodInfo>, n: nat)
    requires n <= |methods| && Collect(methods).Some?
    ensures Collect(methods[..n]).Some?
    decreases |methods|
  {
    if n < |methods| {
      var init := methods[..|methods| - 1];
      CollectDropLast(methods);
      CollectPrefix(init, n);
      assert init[..n] == methods[..n];
    } else {
      assert methods[..n] == methods;
    }
  }

  /** The element map of all methods but the last is built when that of all is. */
  lemma CollectDropLast(methods: seq<MethodInfo>)
    requires methods != [] && Collect(methods).Some?
    ensures Collect(methods[..|methods| - 1]).Some?
  {
  }

  /** When the element map is built, every element method was invoked successfully. */
  lemma CollectInvokes(methods: seq<MethodInfo>, i: nat)
    requires Collect(methods).Some?
    requires i < |methods| && IsElement(methods[i])
    ensures methods[i].invoked.Some?
  {
    CollectPrefix(methods, i + 1);
    var p := methods[..i + 1];
    assert p[..i] == methods[..i] && p[i] == methods[i];
  }

  // ---------------------------------------------------------------------------
  // Resolution and the annotation proxy

  /** Java objects as far as the proxy deals with them: resolved element values, classes,
      the answers of the special methods, and other references (the proxy among them). */
  datatype Object =
    | Null
    | ElementValue(representation: string)
    | ClassObject(className: string)
    | IntObject(intValue: int)
    | StringObject(text: string)
    | BoolObject(boolValue: bool)
    | Reference(identity: nat)

  /** What the class loader supplies: whether a class is found, and the resolution of
      value descriptions (which may throw). */
  datatype ClassLoader = ClassLoader(loadsClass: string -> bool, resolveValue: ValueDescription -> Result<Object>)

  /** The invocation handler behind a resolved annotation. */
  datatype ElementHandler = ElementHandler(annotationType: string, elements: map<string, Object>)

  /** `resolve(classLoader)`: loads the annotation type and resolves every element, in
      element order; the first failure is the result. */
  method Resolve(description: AnnotationDescription, loader: ClassLoader) returns (r: Result<ElementHandler>)
    requires DistinctKeys(description.elements)
    ensures !loader.loadsClass(description.declaringClass) ==> r == Failure(ClassNotFound(description.declaringClass))
    ensures r.Success? ==>
      && r.value.annotationType == description.declaringClass
      && (forall k :: k in r.value.elements <==> k in Keys(description.elements))
      && forall i | 0 <= i < |description.elements| ::
           && description.elements[i].key in r.value.elements
           && loader.resolveValue(description.elements[i].value) == Success(r.value.elements[description.elements[i].key])
    ensures r.Failure? && loader.loadsClass(description.declaringClass) ==>
      exists i | 0 <= i < |description.elements| ::
        && loader.resolveValue(description.elements[i].value) == Failure(r.error)
        && forall j | 0 <= j < i :: loader.resolveValue(description.elements[j].value).Success?
  {
    if !loader.loadsClass(description.declaringClass) {
      return Failure(ClassNotFound(description.declaringClass));
    }
    var entries := description.elements;
    var resolved: map<string, Object> := map[];
    for i := 0 to |entries|
      invariant forall k :: k in resolved <==> exists j | 0 <= j < i :: entries[j].key == k
      invariant forall j | 0 <= j < i :: entries[j].key in resolved && loader.resolveValue(entries[j].value) == Success(resolved[entries[j].key])
    {
      var value := loader.resolveValue(entries[i].value);
      if value.Failure? {
        return Failure(value.error);
      }
      assert forall j | 0 <= j < i :: entries[j].key != entries[i].key by {
        var keys := Keys(entries);
        assert forall j | 0 <= j < |entries| :: keys[j] == entries[j].key;
      }
      resolved := resolved[entries[i].key := value.value];
    }
    var keys := Keys(entries);
    assert forall k :: k in keys <==> exists j | 0 <= j < |entries| :: entries[j].key == k by {
      assert forall j | 0 <= j < |entries| :: keys[j] == entries[j].key;
    }
    r := Success(ElementHandler(description.declaringClass, resolved));
  }

  /** A reflected method of the annotation type: its name and parameter types. */
  datatype Method = Method(name: string, parameterTypes: seq<string>, display: string)

  /** `ElementHandler.invoke(proxy, method, args)`: `args` is `None` for a `null` array
      and `identityHash` is `System.identityHashCode(proxy)`. */
  function Invoke(handler: ElementHandler, proxy: Object, identityHash: int, target: Method, args: Option<seq<Object>>): (r: Result<Object>)
    ensures r.Failure? ==> r.error == UnsupportedOperation(target.display)
    ensures (args.None? || args.value == []) && target.name in handler.elements && handler.elements[target.name] != Null ==>
      r == Success(handler.elements[target.name])
    ensures args.Some? && |args.value| >= 2 ==> r.Failure?
  {
    var name := target.name;
    if args.None? || |args.value| == 0 then
      if name in handler.elements && handler.elements[name] != Null then Success(handler.elements[name])
      else if name == "annotationType" then Success(ClassObject(handler.annotationType))
      else if name == "hashCode" then Success(IntObject(identityHash))
      else if name == "toString" then Success(StringObject(handler.annotationType))
      else Failure(UnsupportedOperation(target.display))
    else if |args.value| == 1 && name == "equals" && |target.parameterTypes| >= 1 && target.parameterTypes[0] == "java.lang.Object" then
      Success(BoolObject(proxy == args.value[0]))
    else Failure(UnsupportedOperation(target.display))
  }

  /** The names the proxy answers without arguments when no element has them. */
  predicate IsSpecialName(name: string)
  {
    name == "annotationType" || name == "hashCode" || name == "toString"
  }

  /** Calls without arguments: an element's value comes first, even for a special name;
      otherwise only the special names are answered. */
  lemma InvokeWithoutArguments(handler: ElementHandler, proxy: Object, identityHash: int, target: Method, args: Option<seq<Object>>)
    requires args.None? || args.value == []
    ensures target.name in handler.elements && handler.elements[target.name] != Null ==>
      Invoke(handler, proxy, identityHash, target, args) == Success(handler.elements[target.name])
    ensures Invoke(handler, proxy, identityHash, target, args).Failure? <==>
      !(target.name in handler.elements && handler.elements[target.name] != Null) && !IsSpecialName(target.name)
    ensures !(target.name in handler.elements && handler.elements[target.name] != Null) ==>
      && (target.name == "annotationType" ==> Invoke(handler, proxy, identityHash, target, args) == Success(ClassObject(handler.annotationType)))
      && (target.name == "hashCode" ==> Invoke(handler, proxy, identityHash, target, args) == Success(IntObject(identityHash)))
      && (target.name == "toString" ==> Invoke(handler, proxy, identityHash, target, args) == Success(StringObject(handler.annotationType)))
  {
  }

  /** `equals(Object)` is reference identity with the proxy, whatever the elements. */
  lemma InvokeEquals(handler: ElementHandler, proxy: Object, identityHash: int, target: Method, other: Object)
    requires target.name == "equals" && target.parameterTypes == ["java.lang.Object"]
    ensures Invoke(handler, proxy, identityHash, target, Some([other])) == Success(BoolObject(proxy == other))
    ensures Invoke(handler, proxy, identityHash, target, Some([other])) == Success(BoolObject(true)) <==> other == proxy
  {
  }

  /** Every call with arguments other than `equals(Object)` is unsupported, and an
      unsupported call reports the method. */
  lemma InvokeUnsupported(handler: ElementHandler, proxy: Object, identityHash: int, target: Method, args: seq<Object>)
    requires |args| >= 1
    ensures Invoke(handler, proxy, identityHash, target, Some(args)).Failure? <==>
      !(|args| == 1 && target.name == "equals" && |target.parameterTypes| >= 1 && target.parameterTypes[0] == "java.lang.Object")
    ensures Invoke(handler, proxy, identityHash, target, Some(args)).Failure? ==>
      Invoke(handler, proxy, identityHash, target, Some(args)) == Failure(UnsupportedOperation(target.display))
  {
  }
}
