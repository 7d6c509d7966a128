/**
 * JSONBundleField: a bundle field identified by its name alone.  The name
 * may be null, which Java's equals and hashCode treat specially.
 */
module BundleFields {
  import opened Wrappers
  import opened JavaStrings

  /** A field; `name` is what the constructor was given and getName returns. */
  datatype Field = Field(name: Option<string>)

  /** What `equals(Object o)` can be handed: null, an object of another
    * class, or a field. */
  datatype Other = NullRef | Foreign | AField(field: Field)

  /** getIndex(): these fields have no position. */
  function GetIndex(f: Field): (r: Option<int>)
    ensures r.None?
  {
    None
  }

  /** equals(o): the same class and names equal, two null names counting as equal. */
  function Equals(f: Field, o: Other): (r: bool)
    ensures r <==> o == AField(f)
  {
    match o
    case NullRef => false
    case Foreign => false
    case AField(that) =>
      if f.name.Some? then that.name.Some? && f.name.value == that.name.value
      else that.name.None?
  }

  /** hashCode(): String.hashCode of the name, 0 for a null name. */
  function HashCode(f: Field): (r: int)
    ensures -0x8000_0000 <= r < 0x8000_0000
    ensures f.name.None? ==> r == 0
  {
    if f.name.Some? then StringHash(f.name.value) else 0
  }

  lemma EqualsReflexive(f: Field)
    ensures Equals(f, AField(f))
  {
  }

  lemma EqualsSymmetric(f: Field, g: Field)
    ensures Equals(f, AField(g)) == Equals(g, AField(f))
  {
  }

  lemma EqualsTransitive(f: Field, g: Field, h: Field)
    requires Equals(f, AField(g)) && Equals(g, AField(h))
    ensures Equals(f, AField(h))
  {
  }

  /** Nothing equals null or an object of another class. */
  lemma EqualsRejectsOthers(f: Field)
    ensures !Equals(f, NullRef) && !Equals(f, Foreign)
  {
  }

  /** Equal fields have equal hash codes. */
  lemma HashConsistent(f: Field, g: Field)
    requires Equals(f, AField(g))
    ensures HashCode(f) == HashCode(g)
  {
  }

  /** The hash of a named field is the text's own hash, so fields of
    * different names may collide, exactly as their names do. */
  lemma HashOfName(s: string)
    ensures HashCode(Field(Some(s))) == StringHash(s)
  {
  }
}
