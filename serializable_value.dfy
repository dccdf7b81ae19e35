/** Serialized value descriptions (`SerializableValueDescription`): the stored value
    type and serialized bytes, defensive copies of the bytes, byte-wise equality, and
    the class resolution its object input stream uses while reading a value back:
    array class names are field descriptors in the sense of section 4.3.2 of the Java
    Virtual Machine Specification (`[` per dimension, then `L` name `;` for a class). */
module SerializableValue {
  import opened Common

  /** A Java class: a class loaded by its binary name, or an array of another class. */
  datatype ClassRef = Named(name: string) | ArrayOf(component: ClassRef)

  /** How a class name is resolved: to a class obtained from the class loader, by the
      stream's default `ObjectInputStream.resolveClass` (used for primitive arrays and
      whatever the loader does not know), or not at all (`ClassNotFoundException`). */
  datatype Resolution = Loaded(loaded: ClassRef) | DefaultResolution(descriptor: string) | NotFound(className: string)

  /** The class loader: the binary names `loadClass` succeeds for. */
  datatype ClassLoader = ClassLoader(loads: string -> bool)

  /** `c` wrapped in `dimensions` array levels. */
  function Wrap(c: ClassRef, dimensions: nat): (r: ClassRef)
    ensures dimensions > 0 ==> r.ArrayOf?
  {
    if dimensions == 0 then c else ArrayOf(Wrap(c, dimensions - 1))
  }

  /** The number of array levels of `c`. */
  function Dimensions(c: ClassRef): nat
  {
    if c.Named? then 0 else 1 + Dimensions(c.component)
  }

  lemma {:induction false} WrapDimensions(c: ClassRef, dimensions: nat)
    ensures Dimensions(Wrap(c, dimensions)) == Dimensions(c) + dimensions
    decreases dimensions
  {
    if dimensions > 0 {
      WrapDimensions(c, dimensions - 1);
    }
  }

  /** The number of leading `[` of `name`. */
  function LeadingBrackets(name: string): (r: nat)
    ensures r <= |name|
    ensures forall i | 0 <= i < r :: name[i] == '['
    ensures r < |name| ==> name[r] != '['
  {
    if name != [] && name[0] == '[' then 1 + LeadingBrackets(name[1..]) else 0
  }

  /** What `resolveClassDesc` yields for an array class name. */
  function DescriptorResolution(loader: ClassLoader, name: string): (r: Resolution)
    ensures r.Loaded? ==> Dimensions(r.loaded) == LeadingBrackets(name)
    ensures r.NotFound? ==> !loader.loads(r.className)
    ensures r.DefaultResolution? ==> r.descriptor == name
  {
    var dimensions := LeadingBrackets(name);
    if |name| == dimensions then DefaultResolution(name)
    else if name[dimensions] != 'L' || name[|name| - 1] != ';' then DefaultResolution(name)
    else
      var className := Replace(name[dimensions + 1..|name| - 1], '/', '.');
      if loader.loads(className) then
        WrapDimensions(Named(className), dimensions);
        Loaded(Wrap(Named(className), dimensions))
      else NotFound(className)
  }

  /** `resolveClassDesc`: counts the dimensions, checks the `L…;` shape, loads the
      element class and wraps it in one array level per dimension. */
  method ResolveClassDesc(loader: ClassLoader, name: string) returns (r: Resolution)
    ensures r == DescriptorResolution(loader, name)
    ensures r.Loaded? ==> Dimensions(r.loaded) == LeadingBrackets(name)
  {
    var dimensions := 0;
    var i := 0;
    while i < |name|
      invariant 0 <= i <= |name| && dimensions == i
      invariant forall k | 0 <= k < i :: name[k] == '['
      decreases |name| - i
    {
      if name[i] == '[' {
        dimensions := dimensions + 1;
      } else {
        break;
      }
      i := i + 1;
    }
    assert dimensions == LeadingBrackets(name) by {
      LeadingBracketsOfPrefix(name, dimensions);
    }
    if |name| == dimensions {
      return DefaultResolution(name);
    }
    if name[dimensions] != 'L' || name[|name| - 1] != ';' {
      return DefaultResolution(name);
    }
    var internalName := name[dimensions + 1..|name| - 1];
    var className := Replace(internalName, '/', '.');
    if !loader.loads(className) {
      return NotFound(className);
    }
    var loaded := Named(className);
    for j := 0 to dimensions
      invariant loaded == Wrap(Named(className), j)
    {
      loaded := ArrayOf(loaded);
    }
    WrapDimensions(Named(className), dimensions);
    r := Loaded(loaded);
  }

  /** A count of leading `[` that stops at the end or at another character is the count. */
  lemma {:induction false} LeadingBracketsOfPrefix(name: string, n: nat)
    requires n <= |name|
    requires forall k | 0 <= k < n :: name[k] == '['
    requires n == |name| || name[n] != '['
    ensures LeadingBrackets(name) == n
    decreases n
  {
    if n > 0 {
      LeadingBracketsOfPrefix(name[1..], n - 1);
    }
  }

  /** `resolveClass`: array names go to `resolveClassDesc`; other names are loaded by
      the class loader, falling back to the default resolution when it does not know them. */
  method ResolveClass(loader: ClassLoader, name: string) returns (r: Resolution)
    ensures |name| > 0 && name[0] == '[' ==> r == DescriptorResolution(loader, name)
    ensures !(|name| > 0 && name[0] == '[') ==>
      r == if loader.loads(name) then Loaded(Named(name)) else DefaultResolution(name)
  {
    if |name| > 0 && name[0] == '[' {
      r := ResolveClassDesc(loader, name);
      return;
    }
    if loader.loads(name) {
      return Loaded(Named(name));
    }
    r := DefaultResolution(name);
  }

  // ---------------------------------------------------------------------------
  // Descriptors

  /** `n` copies of `c`. */
  function Repeat(c: char, n: nat): (r: string)
    ensures |r| == n && forall i | 0 <= i < n :: r[i] == c
  {
    if n == 0 then [] else [c] + Repeat(c, n - 1)
  }

  /** The name of an array of `dimensions` levels over the class named `internalName`. */
  function ArrayName(internalName: string, dimensions: nat): string
  {
    Repeat('[', dimensions) + "L" + internalName + ";"
  }

  /** An array name of a class the loader knows resolves to that class with exactly the
      array levels of the name, whether the name uses `.` or `/` between packages. */
  lemma ResolveArrayName(loader: ClassLoader, className: string, dimensions: nat)
    requires '/' !in className
    requires loader.loads(className)
    ensures DescriptorResolution(loader, ArrayName(className, dimensions)) == Loaded(Wrap(Named(className), dimensions))
    ensures DescriptorResolution(loader, ArrayName(Replace(className, '.', '/'), dimensions))
      == Loaded(Wrap(Named(className), dimensions))
  {
    ResolveArrayNameOf(loader, className, dimensions);
    ReplaceBack(className);
    ResolveArrayNameOf(loader, Replace(className, '.', '/'), dimensions);
  }

  /** Turning `.` into `/` and back restores a name that has no `/`. */
  lemma ReplaceBack(s: string)
    requires '/' !in s
    ensures Replace(s, '/', '.') == s
    ensures Replace(Replace(s, '.', '/'), '/', '.') == s
  {
    var t := Replace(Replace(s, '.', '/'), '/', '.');
    assert forall i | 0 <= i < |s| :: t[i] == s[i];
  }

  /** The element name of an array name is taken from between the `L` and the `;`. */
  lemma ResolveArrayNameOf(loader: ClassLoader, internalName: string, dimensions: nat)
    ensures var name := ArrayName(internalName, dimensions);
      && LeadingBrackets(name) == dimensions
      && DescriptorResolution(loader, name) ==
        var className := Replace(internalName, '/', '.');
        if loader.loads(className) then Loaded(Wrap(Named(className), dimensions)) else NotFound(className)
  {
    var name := ArrayName(internalName, dimensions);
    LeadingBracketsOfPrefix(name, dimensions);
    assert name[dimensions] == 'L';
    assert name[dimensions + 1..|name| - 1] == internalName;
  }

  /** Primitive element types, in the descriptor letters of section 4.3.2 of the Java
      Virtual Machine Specification. */
  predicate IsPrimitiveDescriptor(c: char)
  {
    c in "BCDFIJSZ"
  }

  /** Arrays of primitives, and names made only of `[`, fall back to the default resolution. */
  lemma PrimitiveArraysFallBack(loader: ClassLoader, c: char, dimensions: nat)
    requires IsPrimitiveDescriptor(c)
    ensures DescriptorResolution(loader, Repeat('[', dimensions) + [c]) == DefaultResolution(Repeat('[', dimensions) + [c])
    ensures DescriptorResolution(loader, Repeat('[', dimensions)) == DefaultResolution(Repeat('[', dimensions))
  {
    var name := Repeat('[', dimensions) + [c];
    LeadingBracketsOfPrefix(name, dimensions);
    LeadingBracketsOfPrefix(Repeat('[', dimensions), dimensions);
  }

  /** Whenever the element class is taken from the name, the `L` and the `;` are two
      different characters, so the element name's bounds are in order. */
  lemma ElementBounds(name: string)
    requires LeadingBrackets(name) < |name|
    requires name[LeadingBrackets(name)] == 'L' && name[|name| - 1] == ';'
    ensures LeadingBrackets(name) + 1 <= |name| - 1
  {
  }

  // ---------------------------------------------------------------------------
  // The description object

  /** The reified type a serialized value had, known by its name. */
  datatype TypeDescription = TypeDescription(name: string)

  class SerializableValueDescription {
    const valueType: TypeDescription
    const serialized: array<bv8>

    /** Keeps the given array itself: the caller's array is not copied. */
    constructor (valueType: TypeDescription, serialized: array<bv8>)
      ensures this.valueType == valueType && this.serialized == serialized
    {
      this.valueType := valueType;
      this.serialized := serialized;
    }

    /** `getSerialized`: a new array with the stored bytes. */
    method GetSerialized() returns (r: array<bv8>)
      ensures fresh(r) && r[..] == serialized[..]
    {
      r := new bv8[serialized.Length];
      forall i | 0 <= i < serialized.Length {
        r[i] := serialized[i];
      }
    }

    /** `equals`: the same object, or the same value type and the same bytes. */
    predicate Equals(other: SerializableValueDescription?)
      reads this, serialized, other, if other == null then null else other.serialized
    {
      || this == other
      || (other != null && valueType == other.valueType && serialized[..] == other.serialized[..])
    }
  }

  /** Equality of descriptions is an equivalence in any heap, and is decided by the
      value type and the bytes alone. */
  lemma EqualsIsEquivalence(a: SerializableValueDescription, b: SerializableValueDescription, c: SerializableValueDescription)
    ensures a.Equals(a)
    ensures a.Equals(b) <==> a.valueType == b.valueType && a.serialized[..] == b.serialized[..]
    ensures a.Equals(b) ==> b.Equals(a)
    ensures a.Equals(b) && b.Equals(c) ==> a.Equals(c)
    ensures !a.Equals(null)
  {
  }
}
