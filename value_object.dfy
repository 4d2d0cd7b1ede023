/**
 * The value-object base class: `equals` compares two value objects by their
 * concrete class and then by deep structural equality of their properties.
 *
 * A value object is modelled by its observable shape: the name of its
 * concrete class and a map from property names to property values. Property
 * values are the primitive JavaScript values that value objects hold, or a
 * nested value object.
 */
module ValueObject {

  /** A property value: a string, an integer number, a boolean, null,
      undefined, or a nested object. */
  datatype Prop =
    | PStr(s: string)
    | PNum(n: int)
    | PBool(b: bool)
    | PNull
    | PUndefined
    | PObject(obj: Obj)

  /** An object: its constructor's name and its own enumerable properties. */
  datatype Obj = Obj(className: string, props: map<string, Prop>)

  /** The argument of `equals`, which a caller may pass as null or undefined. */
  datatype Nullable<+T> = Null | Undefined | Present(value: T)

  /** Deep structural equality of two objects, property by property, in the
      manner of a recursive `isEqual`: same constructor, same set of keys,
      and deeply equal values under every key. */
  function ObjDeepEqual(a: Obj, b: Obj): bool
    decreases a
  {
    a.className == b.className &&
    a.props.Keys == b.props.Keys &&
    forall k :: k in a.props ==> PropDeepEqual(a.props[k], b.props[k])
  }

  /** Deep structural equality of two property values. Primitives compare by
      value; objects are compared with ObjDeepEqual. */
  function PropDeepEqual(x: Prop, y: Prop): bool
    decreases x
  {
    match x
    case PObject(o) => y.PObject? && ObjDeepEqual(o, y.obj)
    case _ => x == y
  }

  /** Deep equality coincides with equality of the modelled values. */
  lemma {:induction false} ObjDeepEqualIsEquality(a: Obj, b: Obj)
    ensures ObjDeepEqual(a, b) <==> a == b
    decreases a
  {
    forall k | k in a.props && k in b.props
      ensures PropDeepEqual(a.props[k], b.props[k]) <==> a.props[k] == b.props[k]
    {
      PropDeepEqualIsEquality(a.props[k], b.props[k]);
    }
    if ObjDeepEqual(a, b) {
      assert a.props == b.props;
    }
  }

  lemma {:induction false} PropDeepEqualIsEquality(x: Prop, y: Prop)
    ensures PropDeepEqual(x, y) <==> x == y
    decreases x
  {
    match x
    case PObject(o) =>
      if y.PObject? {
        ObjDeepEqualIsEquality(o, y.obj);
      }
    case _ =>
  }

  /** `this.equals(vo)`: false for null and undefined, false when the
      concrete classes differ, and otherwise deep equality of the two. */
  function Equals(self: Obj, vo: Nullable<Obj>): (r: bool)
    ensures r <==> vo.Present? && vo.value == self
  {
    match vo
    case Null => false
    case Undefined => false
    case Present(other) =>
      if other.className != self.className then false
      else
        ObjDeepEqualIsEquality(other, self);
        ObjDeepEqual(other, self)
  }

  lemma EqualsRejectsNull(self: Obj)
    ensures !Equals(self, Null) && !Equals(self, Undefined)
  {
  }

  lemma EqualsRejectsOtherClass(self: Obj, other: Obj)
    requires other.className != self.className
    ensures !Equals(self, Present(other))
  {
  }

  lemma EqualsSameClass(self: Obj, other: Obj)
    requires other.className == self.className
    ensures Equals(self, Present(other)) <==> other.props == self.props
  {
  }

  lemma EqualsReflexive(self: Obj)
    ensures Equals(self, Present(self))
  {
  }

  lemma EqualsSymmetric(a: Obj, b: Obj)
    ensures Equals(a, Present(b)) <==> Equals(b, Present(a))
  {
  }

  lemma EqualsTransitive(a: Obj, b: Obj, c: Obj)
    requires Equals(a, Present(b)) && Equals(b, Present(c))
    ensures Equals(a, Present(c))
  {
  }

  /** Two objects whose properties differ under some key are never equal,
      however deep the difference lies. */
  lemma {:induction false} DifferentPropertyNotEqual(a: Obj, b: Obj, k: string)
    requires k in a.props && k in b.props
    requires !PropDeepEqual(a.props[k], b.props[k])
    ensures !Equals(a, Present(b))
  {
    PropDeepEqualIsEquality(a.props[k], b.props[k]);
  }
}
